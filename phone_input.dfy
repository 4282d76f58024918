/** The two phone rules of services/backend/server.js: `normalizePhoneInput`,
    which keys customers and OTP requests, and the inline rule that the
    address routes apply to an address's contact phone. */
module Phones {
  import opened Wrappers
  import opened Text

  /** A plus sign followed by at least seven digits: the only shape either
      rule produces. */
  predicate IsPlusDigits(p: string)
  {
    |p| >= 8 && p[0] == '+' && AllDigits(p[1..])
  }

  /** `normalizePhoneInput(phone)`; `None` is `null`, the empty string is the
      falsy `phone`. */
  function NormalizePhoneInput(phone: string): (r: Option<string>)
    ensures r.Some? ==> IsPlusDigits(r.value)
    // without a leading `+` only the three Indian forms are accepted
    ensures phone != "" && !StartsWith(Trim(phone), "+") ==>
              (r.Some? <==> IsIndianNumber(Digits(phone)))
    // with a leading `+` any seven or more digits are accepted
    ensures StartsWith(Trim(phone), "+") ==>
              (r.Some? <==> |Digits(phone)| >= 7)
    ensures phone == "" ==> r.None?
    // ten digits, or eleven with a trunk `0`, become `+91` and the ten
    // subscriber digits; every other accepted form keeps all its digits
    ensures r.Some? ==>
              r.value == if |Digits(phone)| == 10 || (|Digits(phone)| == 11 && Digits(phone)[0] == '0')
                         then "+91" + Last10(Digits(phone))
                         else "+" + Digits(phone)
  {
    if phone == "" then None
    else
      var digits := Digits(phone);
      if |digits| == 10 then Some("+91" + digits)
      else if |digits| == 11 && digits[0] == '0' then Some("+91" + digits[1..])
      else if |digits| == 12 && digits[..2] == "91" then Some("+" + digits)
      else if StartsWith(Trim(phone), "+") && |digits| >= 7 then Some("+" + digits)
      else None
  }

  /** Ten digits, eleven with a trunk `0`, or twelve starting with the
      country code `91`. */
  predicate IsIndianNumber(d: string)
  {
    |d| == 10 || (|d| == 11 && d[0] == '0') || (|d| == 12 && d[..2] == "91")
  }

  /** The address routes' phone rule: ten digits get the `+91` prefix, seven
      or more get a bare `+`, anything else (and no phone) is stored empty. */
  function AddressPhone(phone: string): (r: string)
    ensures r == "" || IsPlusDigits(r)
  {
    if phone == "" then ""
    else
      var digits := Digits(phone);
      if |digits| == 10 then "+91" + digits
      else if |digits| >= 7 then "+" + digits
      else ""
  }

  /** The last ten characters of `s` (all of it when shorter). */
  function Last10(s: string): string
  {
    if |s| <= 10 then s else s[|s| - 10..]
  }

  lemma DigitsOfPlus(d: string)
    requires AllDigits(d)
    ensures Digits("+" + d) == d
  {
    DigitsConcat("+", d);
    DigitsOfDigits(d);
  }

  lemma DigitsOfPlus91(d: string)
    requires AllDigits(d)
    ensures Digits("+91" + d) == "91" + d
  {
    assert "+91" + d == "+" + ("91" + d);
    assert AllDigits("91" + d);
    DigitsOfPlus("91" + d);
  }

  /** A normalized phone normalizes to itself, so a key computed once can be
      normalized again without changing it. */
  lemma NormalizeIdempotent(phone: string)
    ensures NormalizePhoneInput(phone).Some? ==>
              NormalizePhoneInput(NormalizePhoneInput(phone).value) == NormalizePhoneInput(phone)
  {
    var r := NormalizePhoneInput(phone);
    if r.Some? {
      var p := r.value;
      var d := Digits(phone);
      // `p` is `+` and its digits, and they are in none of the two forms
      // that get a new prefix
      DigitsOfPlus(p[1..]);
      assert "+" + p[1..] == p;
      assert Digits(p) == p[1..];
      assert StartsWith(Trim(p), "+") by { TrimNoSpace(p); }
      assert |d| == 10 ==> |Digits(p)| == 12 by {
        if |d| == 10 { DigitsOfPlus91(d); }
      }
      assert |d| == 11 && d[0] == '0' ==> |Digits(p)| == 12 by {
        if |d| == 11 && d[0] == '0' { DigitsOfPlus91(d[1..]); }
      }
      assert !(|d| == 10 || (|d| == 11 && d[0] == '0')) ==> Digits(p) == d;
    }
  }

  /** The rule keeps the subscriber number: the last ten digits of the
      result are those of the input, and a number shorter than ten digits is
      kept whole. */
  lemma NormalizeKeepsSubscriber(phone: string)
    ensures NormalizePhoneInput(phone).Some? && |Digits(phone)| >= 10 ==>
              Last10(Digits(NormalizePhoneInput(phone).value)) == Last10(Digits(phone))
    ensures NormalizePhoneInput(phone).Some? && |Digits(phone)| < 10 ==>
              Digits(NormalizePhoneInput(phone).value) == Digits(phone)
  {
    var r := NormalizePhoneInput(phone);
    if r.Some? {
      var d := Digits(phone);
      if |d| == 10 {
        DigitsOfPlus91(d);
        assert ("91" + d)[2..] == d;
      } else if |d| == 11 && d[0] == '0' {
        DigitsOfPlus91(d[1..]);
        assert ("91" + d[1..])[2..] == d[1..];
      } else {
        DigitsOfPlus(d);
      }
    }
  }

  /** The written forms of one Indian number: its ten digits, with a
      trunk `0`, or with the country code `91`, in any punctuation. */
  predicate IndianForm(phone: string, national: string)
  {
    |national| == 10 && AllDigits(national) &&
    (Digits(phone) == national || Digits(phone) == "0" + national || Digits(phone) == "91" + national)
  }

  /** Every written form of one Indian number gets the same key. */
  lemma IndianFormsShareKey(phone: string, national: string)
    requires IndianForm(phone, national)
    ensures NormalizePhoneInput(phone) == Some("+91" + national)
  {
    var d := Digits(phone);
    assert phone != "";
    if d == "0" + national {
      assert d[1..] == national;
    } else if d == "91" + national {
      assert d[..2] == "91";
      assert "+" + d == "+91" + national;
    }
  }

  /** The address rule is idempotent. */
  lemma AddressPhoneIdempotent(phone: string)
    ensures AddressPhone(AddressPhone(phone)) == AddressPhone(phone)
  {
    var r := AddressPhone(phone);
    if r != "" {
      var d := Digits(phone);
      if |d| == 10 {
        DigitsOfPlus91(d);
        assert "+91" + d == "+" + ("91" + d);
      } else {
        DigitsOfPlus(d);
      }
    }
  }

  /** For a ten-digit number, and for one written with the `91` country
      code, the address rule stores the same string the login key uses. */
  lemma AddressPhoneAgreesWithLogin(phone: string)
    requires |Digits(phone)| == 10 || (|Digits(phone)| == 12 && Digits(phone)[..2] == "91")
    ensures NormalizePhoneInput(phone) == Some(AddressPhone(phone))
  {
  }
}
