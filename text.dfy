/** The string operations the handlers and pages rely on (`replace` with a
    character-class regex, `trim`, `toUpperCase`, `padStart`, `parseInt`,
    `split(/\s+/)`), restricted to ASCII. */
module Text {
  import opened Wrappers

  // ---------------------------------------------------------------- characters

  predicate IsDigit(c: char) { '0' <= c <= '9' }

  /** The white space of JavaScript's `\s` and `trim` that the model knows. */
  predicate IsSpace(c: char)
  {
    c == ' ' || c == '\t' || c == '\n' || c == '\r' || c == '\U{000B}' || c == '\U{000C}' || c == '\U{00A0}'
  }

  predicate IsAsciiLetter(c: char) { 'A' <= c <= 'Z' || 'a' <= c <= 'z' }

  function UpperChar(c: char): char { if 'a' <= c <= 'z' then (c as int - 32) as char else c }

  function LowerChar(c: char): char { if 'A' <= c <= 'Z' then (c as int + 32) as char else c }

  /** `toUpperCase()` on ASCII letters. */
  function Upper(s: string): (r: string)
    ensures |r| == |s|
  {
    seq(|s|, i requires 0 <= i < |s| => UpperChar(s[i]))
  }

  /** `toLowerCase()` on ASCII letters. */
  function Lower(s: string): (r: string)
    ensures |r| == |s|
  {
    seq(|s|, i requires 0 <= i < |s| => LowerChar(s[i]))
  }

  predicate StartsWith(s: string, prefix: string)
  {
    |prefix| <= |s| && s[..|prefix|] == prefix
  }

  predicate EndsWith(s: string, suffix: string)
  {
    |suffix| <= |s| && s[|s| - |suffix|..] == suffix
  }

  // ---------------------------------------------------------------- digits

  predicate AllDigits(s: string) { forall i :: 0 <= i < |s| ==> IsDigit(s[i]) }

  /** `s.replace(/\D/g, "")`: the digits of `s`, in order. */
  function Digits(s: string): (r: string)
    ensures AllDigits(r) && |r| <= |s|
  {
    if s == [] then [] else (if IsDigit(s[0]) then [s[0]] else []) + Digits(s[1..])
  }

  /** `s.replace(/[^\d+]/g, "")`: the digits and plus signs of `s`, in order. */
  function DigitsAndPlus(s: string): (r: string)
    ensures |r| <= |s|
    ensures forall i :: 0 <= i < |r| ==> IsDigit(r[i]) || r[i] == '+'
  {
    if s == [] then []
    else (if IsDigit(s[0]) || s[0] == '+' then [s[0]] else []) + DigitsAndPlus(s[1..])
  }

  lemma {:induction false} DigitsOfDigits(s: string)
    requires AllDigits(s)
    ensures Digits(s) == s
  {
    if s != [] { DigitsOfDigits(s[1..]); }
  }

  lemma {:induction false} DigitsConcat(a: string, b: string)
    ensures Digits(a + b) == Digits(a) + Digits(b)
  {
    if a != [] {
      assert (a + b)[1..] == a[1..] + b;
      DigitsConcat(a[1..], b);
    } else {
      assert a + b == b;
    }
  }

  /** Removing everything but digits and plus signs keeps the digits. */
  lemma {:induction false} DigitsOfDigitsAndPlus(s: string)
    ensures Digits(DigitsAndPlus(s)) == Digits(s)
  {
    if s != [] {
      DigitsOfDigitsAndPlus(s[1..]);
      var head := if IsDigit(s[0]) || s[0] == '+' then [s[0]] else [];
      DigitsConcat(head, DigitsAndPlus(s[1..]));
    }
  }

  /** A string of digits and plus signs is left as it is. */
  lemma {:induction false} DigitsAndPlusOfPlain(s: string)
    requires forall i :: 0 <= i < |s| ==> IsDigit(s[i]) || s[i] == '+'
    ensures DigitsAndPlus(s) == s
  {
    if s != [] { DigitsAndPlusOfPlain(s[1..]); }
  }

  lemma {:induction false} DigitsAndPlusIdempotent(s: string)
    ensures DigitsAndPlus(DigitsAndPlus(s)) == DigitsAndPlus(s)
  {
    if s != [] {
      DigitsAndPlusIdempotent(s[1..]);
      var head := if IsDigit(s[0]) || s[0] == '+' then [s[0]] else [];
      DigitsAndPlusConcat(head, DigitsAndPlus(s[1..]));
    }
  }

  lemma {:induction false} DigitsAndPlusConcat(a: string, b: string)
    ensures DigitsAndPlus(a + b) == DigitsAndPlus(a) + DigitsAndPlus(b)
  {
    if a != [] {
      assert (a + b)[1..] == a[1..] + b;
      DigitsAndPlusConcat(a[1..], b);
    } else {
      assert a + b == b;
    }
  }

  function DigitValue(c: char): nat
    requires IsDigit(c)
  {
    c as int - '0' as int
  }

  function DigitChar(d: nat): (c: char)
    requires d < 10
    ensures IsDigit(c) && DigitValue(c) == d
  {
    ('0' as int + d) as char
  }

  /** The number a string of decimal digits denotes. */
  function DecimalValue(s: string): nat
    requires AllDigits(s)
  {
    if s == [] then 0 else DecimalValue(s[..|s| - 1]) * 10 + DigitValue(s[|s| - 1])
  }

  /** `String(n)` for a non-negative integer. */
  function NatToString(n: nat): (r: string)
    ensures r != [] && AllDigits(r)
    decreases n
  {
    if n < 10 then [DigitChar(n)] else NatToString(n / 10) + [DigitChar(n % 10)]
  }

  /** `String(n)` for any integer. */
  function IntToString(n: int): string
  {
    if n < 0 then "-" + NatToString(-n) else NatToString(n)
  }

  lemma {:induction false} NatToStringRoundTrip(n: nat)
    ensures DecimalValue(NatToString(n)) == n
  {
    if n >= 10 {
      NatToStringRoundTrip(n / 10);
      var s := NatToString(n);
      assert s[..|s| - 1] == NatToString(n / 10);
    }
  }

  /** Leading zeros do not change the value of a digit string. */
  lemma {:induction false} DecimalValueLeadingZeros(z: string, s: string)
    requires forall i :: 0 <= i < |z| ==> z[i] == '0'
    requires AllDigits(s)
    ensures AllDigits(z + s) && DecimalValue(z + s) == DecimalValue(s)
  {
    if s == [] {
      assert z + s == z;
      ZerosValue(z);
    } else {
      var zs := z + s;
      assert zs[..|zs| - 1] == z + s[..|s| - 1];
      DecimalValueLeadingZeros(z, s[..|s| - 1]);
    }
  }

  lemma {:induction false} ZerosValue(z: string)
    requires forall i :: 0 <= i < |z| ==> z[i] == '0'
    ensures AllDigits(z) && DecimalValue(z) == 0
  {
    if z != [] { ZerosValue(z[..|z| - 1]); }
  }

  function Repeat(c: char, n: nat): (r: string)
    ensures |r| == n && forall i :: 0 <= i < n ==> r[i] == c
  {
    if n == 0 then [] else [c] + Repeat(c, n - 1)
  }

  /** `s.padStart(width, fill)`. */
  function PadStart(s: string, width: nat, fill: char): (r: string)
    ensures |r| == if |s| >= width then |s| else width
    ensures EndsWith(r, s)
  {
    if |s| >= width then s else Repeat(fill, width - |s|) + s
  }

  /** A number zero-padded to any width is all digits, at least that wide,
      and reads back as the number. */
  lemma PaddedNumberRoundTrip(n: nat, width: nat)
    ensures var p := PadStart(NatToString(n), width, '0');
            |p| >= width && AllDigits(p) && DecimalValue(p) == n
  {
    var s := NatToString(n);
    NatToStringRoundTrip(n);
    if |s| < width {
      DecimalValueLeadingZeros(Repeat('0', width - |s|), s);
    }
  }

  /** The longest prefix of `s` made only of digits. */
  function LeadingDigits(s: string): (r: string)
    ensures StartsWith(s, r) && AllDigits(r)
    ensures |r| < |s| ==> !IsDigit(s[|r|])
  {
    if s == [] || !IsDigit(s[0]) then [] else [s[0]] + LeadingDigits(s[1..])
  }

  /** `parseInt(s, 10)`: optional leading white space and sign, then the
      longest run of digits; `None` stands for `NaN`. */
  function ParseInt(s: string): (r: Option<int>)
  {
    var t := TrimStart(s);
    var signed := t != [] && (t[0] == '-' || t[0] == '+');
    var body := if signed then t[1..] else t;
    var ds := LeadingDigits(body);
    if ds == [] then None
    else
      var v: int := DecimalValue(ds);
      if signed && t[0] == '-' then Some(-v) else Some(v)
  }

  // ---------------------------------------------------------------- white space

  predicate NoSpace(s: string) { forall i :: 0 <= i < |s| ==> !IsSpace(s[i]) }

  /** A non-empty run of non-space characters. */
  predicate IsWord(s: string) { s != [] && NoSpace(s) }

  /** How many white-space characters `s` starts with. */
  function LeadingSpaces(s: string): (n: nat)
    ensures n <= |s| && (n < |s| ==> !IsSpace(s[n]))
    ensures forall k :: 0 <= k < n ==> IsSpace(s[k])
  {
    if s != [] && IsSpace(s[0]) then LeadingSpaces(s[1..]) + 1 else 0
  }

  /** `trimStart()`. */
  function TrimStart(s: string): (r: string)
    ensures |r| <= |s|
    ensures r == [] || !IsSpace(r[0])
  {
    if s != [] && IsSpace(s[0]) then TrimStart(s[1..]) else s
  }

  /** `trimEnd()`. */
  function TrimEnd(s: string): (r: string)
    ensures |r| <= |s| && r == s[..|r|]
    ensures r == [] || !IsSpace(r[|r| - 1])
  {
    if s != [] && IsSpace(s[|s| - 1]) then TrimEnd(s[..|s| - 1]) else s
  }

  /** `trim()`. */
  function Trim(s: string): (r: string)
    ensures r == [] || (!IsSpace(r[0]) && !IsSpace(r[|r| - 1]))
  {
    var t := TrimStart(s);
    var r := TrimEnd(t);
    assert r != [] ==> r[0] == t[0];
    r
  }

  lemma {:induction false} TrimStartDropsLeadingSpaces(s: string)
    ensures TrimStart(s) == s[LeadingSpaces(s)..]
  {
    if s != [] && IsSpace(s[0]) {
      TrimStartDropsLeadingSpaces(s[1..]);
    }
  }

  lemma {:induction false} TrimEndDropsTrailingSpaces(s: string)
    ensures forall k :: |TrimEnd(s)| <= k < |s| ==> IsSpace(s[k])
  {
    if s != [] && IsSpace(s[|s| - 1]) {
      TrimEndDropsTrailingSpaces(s[..|s| - 1]);
    }
  }

  /** `trim()` is `s` with exactly its white space at either end removed:
      the result is the slice of `s` after its leading white space, only
      white space follows it, and it neither starts nor ends with white
      space. */
  lemma TrimIsOuterSlice(s: string)
    ensures var r, n := Trim(s), LeadingSpaces(s);
            n + |r| <= |s| && r == s[n..n + |r|] &&
            (forall k :: n + |r| <= k < |s| ==> IsSpace(s[k])) &&
            (r == [] || (!IsSpace(r[0]) && !IsSpace(r[|r| - 1])))
  {
    var n := LeadingSpaces(s);
    var t := TrimStart(s);
    TrimStartDropsLeadingSpaces(s);
    TrimEndDropsTrailingSpaces(t);
    var r := TrimEnd(t);
    assert r == t[..|r|] == s[n..n + |r|];
    forall k | n + |r| <= k < |s|
      ensures IsSpace(s[k])
    {
      assert s[k] == t[k - n];
    }
  }

  lemma TrimNoSpace(s: string)
    requires NoSpace(s)
    ensures Trim(s) == s
  {
  }

  /** Length of the run of non-space characters that starts `s`. */
  function WordEnd(s: string): (n: nat)
    ensures n <= |s|
  {
    if s == [] || IsSpace(s[0]) then 0 else WordEnd(s[1..]) + 1
  }

  /** `s.trim().split(/\s+/).filter(Boolean)`: the maximal runs of
      non-space characters of `s`, in order. */
  function Words(s: string): (ws: seq<string>)
    decreases |s|
  {
    var t := TrimStart(s);
    if t == [] then []
    else
      var n := WordEnd(t);
      [t[..n]] + Words(t[n..])
  }

  lemma {:induction false} WordEndNoSpace(s: string)
    ensures NoSpace(s[..WordEnd(s)])
  {
    if s != [] && !IsSpace(s[0]) {
      WordEndNoSpace(s[1..]);
      assert s[..WordEnd(s)] == [s[0]] + s[1..][..WordEnd(s[1..])];
    }
  }

  /** Every token `Words` yields is non-empty and free of white space. */
  lemma {:induction false} WordsAreWords(s: string)
    ensures forall k :: 0 <= k < |Words(s)| ==> IsWord(Words(s)[k])
    decreases |s|
  {
    var t := TrimStart(s);
    if t != [] {
      var n := WordEnd(t);
      WordEndNoSpace(t);
      WordsAreWords(t[n..]);
    }
  }

  /** `parts.join(sep)`. */
  function Join(parts: seq<string>, sep: string): string
  {
    if |parts| == 0 then []
    else if |parts| == 1 then parts[0]
    else parts[0] + sep + Join(parts[1..], sep)
  }

  /** A join whose first part is non-empty starts with that part's first character. */
  lemma JoinHead(parts: seq<string>, sep: string)
    requires |parts| > 0 && parts[0] != []
    ensures Join(parts, sep) != [] && Join(parts, sep)[0] == parts[0][0]
  {
    if |parts| > 1 {
      var j := Join(parts, sep);
      assert j == parts[0] + (sep + Join(parts[1..], sep));
    }
  }

  lemma {:induction false} WordEndOf(a: string, b: string)
    requires NoSpace(a)
    requires b == [] || IsSpace(b[0])
    ensures WordEnd(a + b) == |a|
  {
    if a != [] {
      assert (a + b)[1..] == a[1..] + b;
      WordEndOf(a[1..], b);
    } else {
      assert a + b == b;
    }
  }

  /** A leading space before a word-initial string is skipped. */
  lemma WordsAfterSpace(rest: string)
    requires rest == [] || !IsSpace(rest[0])
    ensures Words(" " + rest) == Words(rest)
  {
    assert TrimStart(" " + rest) == TrimStart(rest);
  }

  /** The first word of `w + " " + rest` is `w`. */
  lemma WordsCons(w: string, rest: string)
    requires IsWord(w)
    requires rest == [] || !IsSpace(rest[0])
    ensures Words(w + (" " + rest)) == [w] + Words(rest)
  {
    var s := w + (" " + rest);
    assert TrimStart(s) == s;
    WordEndOf(w, " " + rest);
    assert s[..|w|] == w;
    assert s[|w|..] == " " + rest;
    WordsAfterSpace(rest);
  }

  lemma WordsOfWord(w: string)
    requires IsWord(w)
    ensures Words(w) == [w]
  {
    WordEndOf(w, []);
    assert w + [] == w;
    assert w[|w|..] == [];
  }

  /** Splitting words joined by single spaces gives the words back: a chat
      command typed with one space between its tokens is read token for token. */
  lemma {:induction false} WordsOfJoin(ws: seq<string>)
    requires forall k :: 0 <= k < |ws| ==> IsWord(ws[k])
    ensures Words(Join(ws, " ")) == ws
    decreases |ws|
  {
    if |ws| == 0 {
      assert Join(ws, " ") == [];
    } else if |ws| == 1 {
      assert Join(ws, " ") == ws[0];
      WordsOfWord(ws[0]);
      assert ws == [ws[0]];
    } else if |ws| > 1 {
      var tail := ws[1..];
      var rest := Join(tail, " ");
      var s := Join(ws, " ");
      assert s == ws[0] + (" " + rest);
      assert IsWord(ws[0]) && IsWord(tail[0]);
      assert !IsSpace(tail[0][0]);
      JoinHead(tail, " ");
      WordsCons(ws[0], rest);
      assert Words(s) == [ws[0]] + Words(rest);
      WordsOfJoin(tail);
      assert Words(rest) == tail;
      assert [ws[0]] + tail == ws;
    }
  }
}
