/** The customer OTP login page
    (services/customer-frontend/src/pages/CustomerOtpLogin.jsx): how the
    typed phone is shown and checked, and what the two buttons send to
    `/auth/send-otp` and `/auth/verify-otp`. */
module OtpLogin {
  import opened Wrappers
  import opened Text
  import opened Phones
  import OtpStore

  /** Only digits and plus signs. */
  predicate PhoneChars(s: string)
  {
    forall i :: 0 <= i < |s| ==> IsDigit(s[i]) || s[i] == '+'
  }

  /** `formatPhoneDisplay`: keep digits and `+`; a value starting with `+`
      is kept, ten bare digits get `+91`, anything else is kept. */
  function FormatPhoneDisplay(v: string): (r: string)
    ensures PhoneChars(r)
    ensures v == "" ==> r == ""
    ensures v != "" && StartsWith(DigitsAndPlus(v), "+") ==> r == DigitsAndPlus(v)
    ensures v != "" && !StartsWith(DigitsAndPlus(v), "+") ==>
              r == if |Digits(v)| == 10 then "+91" + Digits(v) else DigitsAndPlus(v)
  {
    if v == "" then ""
    else
      var raw := DigitsAndPlus(v);
      if StartsWith(raw, "+") then raw
      else
        var digits := Digits(raw);
        DigitsOfDigitsAndPlus(v);
        if |digits| == 10 then "+91" + digits else raw
  }

  /** The input shows the formatted value and the buttons format it again,
      so formatting must not change a formatted value. */
  lemma FormatPhoneDisplayIdempotent(v: string)
    ensures FormatPhoneDisplay(FormatPhoneDisplay(v)) == FormatPhoneDisplay(v)
  {
    var r := FormatPhoneDisplay(v);
    if r != "" {
      DigitsAndPlusOfPlain(r);
      if !StartsWith(r, "+") {
        // r is the stripped value itself: its digits are not ten
        assert r == DigitsAndPlus(v);
      }
    }
  }

  /** `validatePhone`: exactly `+91` and ten digits, or ten digits once
      everything else is removed. */
  function ValidatePhone(v: string): (b: bool)
    ensures b <==> |Digits(v)| == 10 || (|Digits(v)| == 12 && Digits(v)[..2] == "91" && v == "+" + Digits(v))
  {
    PlusNinetyOneForm(v);
    (|v| == 13 && v[..3] == "+91" && AllDigits(v[3..])) || |Digits(v)| == 10
  }

  /** `+91` and ten digits is the value whose digits are twelve, begin
      with the country code, and follow a single `+`. */
  lemma PlusNinetyOneForm(v: string)
    ensures (|v| == 13 && v[..3] == "+91" && AllDigits(v[3..])) <==>
            (|Digits(v)| == 12 && Digits(v)[..2] == "91" && v == "+" + Digits(v))
  {
    if |v| == 13 && v[..3] == "+91" && AllDigits(v[3..]) {
      assert v == "+91" + v[3..];
      DigitsOfPlus91(v[3..]);
    }
    var d := Digits(v);
    if |d| == 12 && d[..2] == "91" && v == "+" + d {
      assert v[3..] == d[2..];
    }
  }

  /** Whatever the customer types, ten digits in it are enough to pass
      the check once the value is formatted. */
  lemma TenDigitsValidate(v: string)
    requires |Digits(v)| == 10
    ensures ValidatePhone(FormatPhoneDisplay(v))
  {
    var raw := DigitsAndPlus(v);
    DigitsOfDigitsAndPlus(v);
    if !StartsWith(raw, "+") {
      var d := Digits(raw);
      assert ("+91" + d)[..3] == "+91" && ("+91" + d)[3..] == d;
    }
  }

  /** A phone the page accepts is one `send-otp` accepts. */
  lemma ValidPhoneIsAccepted(v: string)
    requires ValidatePhone(v)
    ensures NormalizePhoneInput(v).Some?
  {
    if |v| == 13 && v[..3] == "+91" && AllDigits(v[3..]) {
      assert v == "+91" + v[3..];
      DigitsOfPlus91(v[3..]);
    }
  }

  /** The phone `sendOtp` posts, or `None` when the check fails and no
      request is made. */
  function SendOtpBody(phone: string): (r: Option<string>)
    ensures r.Some? <==> ValidatePhone(FormatPhoneDisplay(phone))
    ensures r.Some? ==> r.value == FormatPhoneDisplay(phone) && NormalizePhoneInput(r.value).Some?
  {
    var display := FormatPhoneDisplay(phone);
    if ValidatePhone(display) then ValidPhoneIsAccepted(display); Some(display) else None
  }

  /** `{ phone, otp }` as `verifyOtp` posts it. */
  datatype VerifyBody = VerifyBody(phone: string, otp: string)

  /** `verifyOtp`: no request for a code shorter than four characters after
      trimming; otherwise the formatted phone and the trimmed code. */
  function VerifyOtpBody(phone: string, otp: string): (r: Option<VerifyBody>)
    ensures r.Some? <==> |Trim(otp)| >= 4
    ensures r.Some? ==> r.value.phone == FormatPhoneDisplay(phone) && r.value.otp == Trim(otp)
  {
    if otp == "" || |Trim(otp)| < 4 then None
    else Some(VerifyBody(FormatPhoneDisplay(phone), Trim(otp)))
  }

  /** The request `verify-otp` receives from the page: no name and no
      sign-up flag, so only known customers can sign in here. */
  function AsRequest(b: VerifyBody): OtpStore.VerifyRequest
  {
    OtpStore.VerifyRequest(b.phone, b.otp, "", false)
  }

  /** With the store key fixed, a known customer who types ten digits and
      then the code they received is signed in. */
  lemma LoginSignsIn(
    entries: map<string, OtpStore.OtpEntry>, customers: map<string, string>,
    phone: string, code: string, now: int, later: int)
    requires |Digits(phone)| == 10
    requires |code| >= 4 && Trim(code) == code
    requires now <= later <= now + OtpStore.OtpLifetime
    requires NormalizePhoneInput(FormatPhoneDisplay(phone)).Some?
    requires NormalizePhoneInput(FormatPhoneDisplay(phone)).value in customers
    ensures SendOtpBody(phone).Some? && VerifyOtpBody(phone, code).Some?
    ensures var display := SendOtpBody(phone).value;
            var sent := OtpStore.Send(entries, display, code, now);
            var body := VerifyOtpBody(phone, code).value;
            OtpStore.Verify(sent.entries, customers, AsRequest(body), later, true).outcome.Ok?
  {
    TenDigitsValidate(phone);
    var display := FormatPhoneDisplay(phone);
    ValidPhoneIsAccepted(display);
    OtpStore.SendThenVerify(entries, customers, display, code, now, later, "", false);
  }

  /** As written, a customer who types `+` and their ten digits passes the
      page's check and is sent a code (stored under `+91` and the digits),
      but the verify request looks under `+` and the digits and finds none. */
  lemma PlusTenDigitsLoginMisses(d: string, code: string, now: int, later: int)
    requires |d| == 10 && AllDigits(d)
    requires |Trim(code)| >= 4
    ensures var display := SendOtpBody("+" + d);
            display == Some("+" + d) &&
            OtpStore.Send(map[], display.value, code, now).outcome == Ok("+91" + d) &&
            OtpStore.VerifyAsWritten(OtpStore.Send(map[], display.value, code, now).entries, map[],
              AsRequest(VerifyOtpBody("+" + d, code).value), later, true).outcome == Err(OtpStore.NoOtp)
  {
    var v := "+" + d;
    DigitsAndPlusOfPlain(v);
    DigitsOfPlus(d);
    assert FormatPhoneDisplay(v) == v;
    assert Trim(v) == v by { TrimNoSpace(v); }
    var sent := OtpStore.Send(map[], v, code, now);
    assert sent.entries.Keys == {"+91" + d};
    assert OtpStore.VerifyKeyAsWritten(v) == v;
    assert |"+91" + d| != |v|;
  }
}
