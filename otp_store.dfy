/** The in-memory one-time-password store behind `POST /auth/send-otp` and
    `POST /auth/verify-otp` in services/backend/server.js, together with
    the customer records verification looks up and creates. Codes and the
    clock are parameters. */
module OtpStore {
  import opened Wrappers
  import opened Text
  import opened Phones

  datatype OtpEntry = OtpEntry(otp: string, expiresAt: int)

  /** How long a code stays valid: five minutes, in milliseconds. */
  const OtpLifetime := 5 * 60 * 1000

  datatype OtpError =
    | PhoneRequired          // send: no phone
    | InvalidPhoneFormat     // send: `normalizePhoneInput` refused it
    | PhoneAndOtpRequired    // verify: no phone or no code
    | NoOtp                  // verify: nothing stored under the key
    | Expired                // verify: the entry is past its expiry (and is deleted)
    | InvalidOtp             // verify: wrong code (the entry is kept)
    | NotRegistered          // verify: no customer and not a sign-up
    | Misconfigured          // verify: no token secret configured

  /** The body of a verification request; `name` is empty when missing. */
  datatype VerifyRequest = VerifyRequest(phone: string, otp: string, name: string, signup: bool)

  /** What a successful verification signs into the token. */
  datatype Session = Session(phone: string, name: string)

  datatype SendResult = SendResult(outcome: Result<string, OtpError>, entries: map<string, OtpEntry>)

  datatype VerifyResult = VerifyResult(
    outcome: Result<Session, OtpError>,
    entries: map<string, OtpEntry>,
    customers: map<string, string>)

  // ---------------------------------------------------------------- send

  /** `send-otp`: the code is stored under the normalized phone, replacing
      any earlier entry, valid until `now + OtpLifetime`. */
  function Send(entries: map<string, OtpEntry>, phone: string, otp: string, now: int): (r: SendResult)
    ensures r.outcome.Err? ==> r.entries == entries
    ensures r.outcome.Ok? ==> NormalizePhoneInput(phone) == Some(r.outcome.value)
    ensures r.outcome.Ok? ==> r.outcome.value in r.entries && r.entries[r.outcome.value] == OtpEntry(otp, now + OtpLifetime)
    ensures r.outcome.Ok? ==> forall k :: k in entries && k != r.outcome.value ==> k in r.entries && r.entries[k] == entries[k]
    // when it is refused, and that every phone the rule accepts is stored
    ensures phone == "" ==> r.outcome == Err(PhoneRequired)
    ensures phone != "" && NormalizePhoneInput(phone).None? ==> r.outcome == Err(InvalidPhoneFormat)
    ensures phone != "" && NormalizePhoneInput(phone).Some? ==>
              r.outcome.Ok? && r.entries == entries[NormalizePhoneInput(phone).value := OtpEntry(otp, now + OtpLifetime)]
  {
    if phone == "" then SendResult(Err(PhoneRequired), entries)
    else match NormalizePhoneInput(phone)
      case None => SendResult(Err(InvalidPhoneFormat), entries)
      case Some(key) => SendResult(Ok(key), entries[key := OtpEntry(otp, now + OtpLifetime)])
  }

  // ---------------------------------------------------------------- verify

  /** The checks of `verify-otp` once the store key and the customer phone
      are known: entry present, not expired, code equal, customer found or
      created; then the entry is deleted and the token secret checked. */
  function VerifyAt(
    entries: map<string, OtpEntry>, customers: map<string, string>,
    key: string, customerPhone: string, req: VerifyRequest, now: int, secretSet: bool): (r: VerifyResult)
    ensures r.outcome.Ok? || r.outcome.error == Misconfigured ==> key !in r.entries
    ensures r.outcome.Err? && r.outcome.error == Expired ==> key !in r.entries
    ensures r.outcome.Err? && r.outcome.error in {NoOtp, InvalidOtp, NotRegistered} ==> r.entries == entries
    ensures forall k :: k != key ==> (k in r.entries <==> k in entries)
    ensures r.outcome.Ok? ==> key in entries && Trim(req.otp) == entries[key].otp && now <= entries[key].expiresAt
    // each check in turn
    ensures key !in entries ==> r.outcome == Err(NoOtp) && r.entries == entries && r.customers == customers
    ensures key in entries && now > entries[key].expiresAt ==>
              r.outcome == Err(Expired) && r.entries == entries - {key} && r.customers == customers
    ensures key in entries && now <= entries[key].expiresAt && Trim(req.otp) != entries[key].otp ==>
              r.outcome == Err(InvalidOtp) && r.entries == entries && r.customers == customers
    ensures key in entries && now <= entries[key].expiresAt && Trim(req.otp) == entries[key].otp ==>
              if customerPhone !in customers && !(req.signup || |Trim(req.name)| > 1) then
                r.outcome == Err(NotRegistered) && r.entries == entries && r.customers == customers
              else
                // the code is used up, the customer exists, and only the
                // token secret decides between a session and an error
                r.entries == entries - {key} &&
                customerPhone in r.customers &&
                (forall k :: k in customers ==> k in r.customers && r.customers[k] == customers[k]) &&
                (customerPhone !in customers ==>
                   r.customers == customers[customerPhone := if Trim(req.name) != "" then Trim(req.name) else "Customer"]) &&
                (secretSet ==> r.outcome == Ok(Session(customerPhone, r.customers[customerPhone]))) &&
                (!secretSet ==> r.outcome == Err(Misconfigured))
  {
    if key !in entries then VerifyResult(Err(NoOtp), entries, customers)
    else
      var rec := entries[key];
      if now > rec.expiresAt then VerifyResult(Err(Expired), entries - {key}, customers)
      else if Trim(req.otp) != rec.otp then VerifyResult(Err(InvalidOtp), entries, customers)
      else if customerPhone !in customers && !(req.signup || |Trim(req.name)| > 1) then
        VerifyResult(Err(NotRegistered), entries, customers)
      else
        var customers' := if customerPhone in customers then customers
                          else customers[customerPhone := if Trim(req.name) != "" then Trim(req.name) else "Customer"];
        var entries' := entries - {key};
        if !secretSet then VerifyResult(Err(Misconfigured), entries', customers')
        else VerifyResult(Ok(Session(customerPhone, customers'[customerPhone])), entries', customers')
  }

  /** The key `verify-otp` looks the code up under, as written: the phone
      with everything but digits and `+` removed. */
  function VerifyKeyAsWritten(phone: string): string
  {
    DigitsAndPlus(phone)
  }

  /** The customer phone `verify-otp` derives from that key, as written. */
  function CustomerPhoneAsWritten(key: string): string
  {
    var digits := Digits(key);
    if StartsWith(key, "+") then key
    else if |digits| == 10 then "+91" + digits
    else "+" + digits
  }

  /** `verify-otp` as written. */
  function VerifyAsWritten(
    entries: map<string, OtpEntry>, customers: map<string, string>,
    req: VerifyRequest, now: int, secretSet: bool): (r: VerifyResult)
    ensures req.phone == "" || req.otp == "" ==> r == VerifyResult(Err(PhoneAndOtpRequired), entries, customers)
    // the code is looked up under the phone stripped to digits and `+`
    ensures req.phone != "" && req.otp != "" && DigitsAndPlus(req.phone) !in entries ==>
              r.outcome == Err(NoOtp) && r.entries == entries
    ensures r.outcome.Ok? ==> DigitsAndPlus(req.phone) in entries && DigitsAndPlus(req.phone) !in r.entries
    ensures r.outcome.Ok? ==> StartsWith(r.outcome.value.phone, "+")
  {
    if req.phone == "" || req.otp == "" then VerifyResult(Err(PhoneAndOtpRequired), entries, customers)
    else
      var key := VerifyKeyAsWritten(req.phone);
      VerifyAt(entries, customers, key, CustomerPhoneAsWritten(key), req, now, secretSet)
  }

  /** Every bare ten-digit phone gets a code (stored under `+91` and the
      digits) but the same phone, verified with the same code before it
      expires, finds nothing: the lookup key keeps the ten digits as typed. */
  lemma SendThenVerifyAsWrittenMisses(phone: string, otp: string, now: int, later: int, req: VerifyRequest)
    requires |phone| == 10 && AllDigits(phone)
    requires req.phone == phone && req.otp != ""
    ensures var sent := Send(map[], phone, otp, now);
            sent.outcome == Ok("+91" + phone) &&
            VerifyAsWritten(sent.entries, map[], req, later, true).outcome == Err(NoOtp)
  {
    DigitsOfDigits(phone);
    var sent := Send(map[], phone, otp, now);
    assert sent.entries.Keys == {"+91" + phone};
    DigitsAndPlusOfPlain(phone);
    assert VerifyKeyAsWritten(phone) == phone;
    assert |"+91" + phone| != |phone|;
  }

  /** `verify-otp` with the store key computed as `send-otp` computes it;
      the normalized phone is also the customer's phone. */
  function Verify(
    entries: map<string, OtpEntry>, customers: map<string, string>,
    req: VerifyRequest, now: int, secretSet: bool): (r: VerifyResult)
    ensures r.outcome.Ok? ==> NormalizePhoneInput(req.phone) == Some(r.outcome.value.phone)
    ensures r.outcome.Ok? ==> r.outcome.value.phone in r.customers
  {
    if req.phone == "" || req.otp == "" then VerifyResult(Err(PhoneAndOtpRequired), entries, customers)
    else match NormalizePhoneInput(req.phone)
      case None => VerifyResult(Err(NoOtp), entries, customers)
      case Some(key) => VerifyAt(entries, customers, key, key, req, now, secretSet)
  }

  /** A code sent to a phone verifies for the same phone until it expires:
      the customer is signed in under the normalized phone and the code is
      used up. */
  lemma SendThenVerify(
    entries: map<string, OtpEntry>, customers: map<string, string>,
    phone: string, otp: string, now: int, later: int, name: string, signup: bool)
    requires Send(entries, phone, otp, now).outcome.Ok?
    requires now <= later <= now + OtpLifetime
    requires otp != "" && Trim(otp) == otp
    requires NormalizePhoneInput(phone).value in customers || signup
    ensures var key := Send(entries, phone, otp, now).outcome.value;
            var v := Verify(Send(entries, phone, otp, now).entries, customers, VerifyRequest(phone, otp, name, signup), later, true);
            v.outcome.Ok? && v.outcome.value.phone == key && key !in v.entries
  {
  }

  /** A code verifies once: a second attempt finds no entry. */
  lemma VerifyIsSingleUse(
    entries: map<string, OtpEntry>, customers: map<string, string>,
    req: VerifyRequest, now: int, later: int)
    requires Verify(entries, customers, req, now, true).outcome.Ok?
    ensures var v := Verify(entries, customers, req, now, true);
            Verify(v.entries, v.customers, req, later, true).outcome == Err(NoOtp)
  {
  }

  /** A second code sent to the same phone replaces the first: the first
      code no longer verifies. */
  lemma ResendReplaces(
    entries: map<string, OtpEntry>, customers: map<string, string>,
    phone: string, first: string, second: string, now: int, later: int, name: string, signup: bool)
    requires Send(entries, phone, first, now).outcome.Ok?
    requires first != "" && Trim(first) == first && first != second
    ensures var s1 := Send(entries, phone, first, now);
            var s2 := Send(s1.entries, phone, second, now);
            Verify(s2.entries, customers, VerifyRequest(phone, first, name, signup), later, true).outcome.Err?
  {
  }

  // ---------------------------------------------------------------- the store

  /** `otpStore` and the customers it signs in (by phone, with their name). */
  class OtpService {
    var entries: map<string, OtpEntry>
    var customers: map<string, string>

    constructor (customers: map<string, string>)
      ensures entries == map[] && this.customers == customers
    {
      entries := map[];
      this.customers := customers;
    }

    /** `POST /auth/send-otp`; `otp` stands for the generated code and `now`
        for the clock. */
    method SendOtp(phone: string, otp: string, now: int) returns (r: Result<string, OtpError>)
      modifies this
      ensures r == Send(old(entries), phone, otp, now).outcome
      ensures entries == Send(old(entries), phone, otp, now).entries
      ensures customers == old(customers)
    {
      if phone == "" {
        return Err(PhoneRequired);
      }
      var normalized := NormalizePhoneInput(phone);
      if normalized.None? {
        return Err(InvalidPhoneFormat);
      }
      entries := entries[normalized.value := OtpEntry(otp, now + OtpLifetime)];
      r := Ok(normalized.value);
    }

    /** `POST /auth/verify-otp`, with the store key of `send-otp`. */
    method VerifyOtp(req: VerifyRequest, now: int, secretSet: bool) returns (r: Result<Session, OtpError>)
      modifies this
      ensures var v := Verify(old(entries), old(customers), req, now, secretSet);
              r == v.outcome && entries == v.entries && customers == v.customers
    {
      if req.phone == "" || req.otp == "" {
        return Err(PhoneAndOtpRequired);
      }
      var key := NormalizePhoneInput(req.phone);
      if key.None? || key.value !in entries {
        return Err(NoOtp);
      }
      var rec := entries[key.value];
      if now > rec.expiresAt {
        entries := entries - {key.value};
        return Err(Expired);
      }
      if Trim(req.otp) != rec.otp {
        return Err(InvalidOtp);
      }
      if key.value !in customers {
        if !(req.signup || |Trim(req.name)| > 1) {
          return Err(NotRegistered);
        }
        customers := customers[key.value := if Trim(req.name) != "" then Trim(req.name) else "Customer"];
      }
      entries := entries - {key.value};
      if !secretSet {
        return Err(Misconfigured);
      }
      r := Ok(Session(key.value, customers[key.value]));
    }
  }
}
