/** strconv.FormatInt and strconv.ParseInt in base 10 for 64-bit integers, as session IDs travel through them. */
module Decimal {

  const MAX_INT64: int := 0x7fff_ffff_ffff_ffff
  const MIN_INT64: int := -0x8000_0000_0000_0000
  const MAX_UINT64: int := 0xffff_ffff_ffff_ffff

  /** ParseInt's pair of results; on an error the value is still what Go returns beside it. */
  datatype Parsed = Parsed(value: int, ok: bool)

  datatype Unsigned = Value(n: int) | SyntaxError | RangeError

  predicate IsDigit(c: char) {
    '0' <= c <= '9'
  }

  function Digit(d: nat): (c: char)
    requires d < 10
    ensures IsDigit(c) && c as int - '0' as int == d
  {
    ('0' as int + d) as char
  }

  function Digits(n: nat): (s: string)
    ensures s != [] && forall i :: 0 <= i < |s| ==> IsDigit(s[i])
  {
    if n < 10 then [Digit(n)] else Digits(n / 10) + [Digit(n % 10)]
  }

  function FormatInt(n: int): (s: string)
    ensures s != ""
  {
    if n < 0 then "-" + Digits(-n) else Digits(n)
  }

  /** The digit loop of ParseUint: it stops at the first bad character or the first overflow. */
  function ScanDigits(s: string, n: nat): Unsigned {
    if s == "" then Value(n)
    else if !IsDigit(s[0]) then SyntaxError
    else
      var n' := n * 10 + (s[0] as int - '0' as int);
      if n' > MAX_UINT64 then RangeError else ScanDigits(s[1..], n')
  }

  function ParseInt(s: string): Parsed {
    if s == "" then Parsed(0, false)
    else
      var neg := s[0] == '-';
      var body := if s[0] == '-' || s[0] == '+' then s[1..] else s;
      if body == "" then Parsed(0, false)
      else
        match ScanDigits(body, 0)
        case SyntaxError => Parsed(0, false)
        case RangeError => Parsed(if neg then MIN_INT64 else MAX_INT64, false)
        case Value(n) =>
          if !neg && n > MAX_INT64 then Parsed(MAX_INT64, false)
          else if neg && n > -MIN_INT64 then Parsed(MIN_INT64, false)
          else if neg then Parsed(-n, true)
          else Parsed(n, true)
  }

  lemma {:induction false} ScanFormatted(n: nat, rest: string)
    requires n <= MAX_UINT64
    ensures ScanDigits(Digits(n) + rest, 0) == ScanDigits(rest, n)
  {
    if n < 10 {
      assert (Digits(n) + rest)[1..] == rest;
    } else {
      var tail := [Digit(n % 10)] + rest;
      assert Digits(n) + rest == Digits(n / 10) + tail;
      ScanFormatted(n / 10, tail);
      assert tail[1..] == rest;
    }
  }

  /** An ID printed by the broker is read back as the same ID. */
  lemma ParseFormatRoundTrip(n: int)
    requires MIN_INT64 <= n <= MAX_INT64
    ensures ParseInt(FormatInt(n)) == Parsed(n, true)
  {
    var m := if n < 0 then -n else n;
    ScanFormatted(m, "");
    assert Digits(m) + "" == Digits(m);
    if n < 0 {
      assert FormatInt(n)[1..] == Digits(m);
    }
  }

  lemma {:induction false} ScanOverflows(n: nat, rest: string)
    requires n > MAX_UINT64
    ensures ScanDigits(Digits(n) + rest, 0) == RangeError
  {
    var tail := [Digit(n % 10)] + rest;
    assert Digits(n) + rest == Digits(n / 10) + tail;
    if n / 10 > MAX_UINT64 {
      ScanOverflows(n / 10, tail);
    } else {
      ScanFormatted(n / 10, tail);
    }
  }

  /** A printed ID that does not fit in 64 bits is refused, never read as another ID. */
  lemma ParseOfFormat(n: nat)
    ensures ParseInt(FormatInt(n)) == if n <= MAX_INT64 then Parsed(n, true) else Parsed(MAX_INT64, false)
  {
    assert Digits(n) + "" == Digits(n);
    if n <= MAX_UINT64 {
      ScanFormatted(n, "");
    } else {
      ScanOverflows(n, "");
    }
  }

  // ---------------------------------------------------------------------------------------------
  // What ParseInt makes of any text

  function DigitRun(s: string): (n: nat)
    ensures n <= |s| && forall i :: 0 <= i < n ==> IsDigit(s[i])
  {
    if s != "" && IsDigit(s[0]) then 1 + DigitRun(s[1..]) else 0
  }

  /** The number a string of digits stands for. */
  function ValueOf(digits: string): nat
    requires forall i :: 0 <= i < |digits| ==> IsDigit(digits[i])
  {
    if digits == "" then 0
    else
      assert IsDigit(digits[|digits| - 1]);
      ValueOf(digits[..|digits| - 1]) * 10 + (digits[|digits| - 1] as int - '0' as int)
  }

  lemma {:induction false} ValueGrows(a: string, b: string)
    requires forall i :: 0 <= i < |a| ==> IsDigit(a[i])
    requires forall i :: 0 <= i < |b| ==> IsDigit(b[i])
    ensures ValueOf(a + b) >= ValueOf(a)
  {
    if b == "" {
      assert a + b == a;
    } else {
      assert (a + b)[..|a + b| - 1] == a + b[..|b| - 1];
      ValueGrows(a, b[..|b| - 1]);
    }
  }

  lemma OneDigitOn(seen: string, rest: string, n: nat)
    requires 0 < n <= |rest|
    ensures seen + rest[..n] == seen + [rest[0]] + rest[1..][..n - 1]
  {
  }

  /** The digit loop, in the middle of a text whose digits so far are `seen`. */
  lemma {:induction false} ScanMeaning(seen: string, rest: string)
    requires forall i :: 0 <= i < |seen| ==> IsDigit(seen[i])
    requires ValueOf(seen) <= MAX_UINT64
    ensures var n := DigitRun(rest); var digits := seen + rest[..n];
      ScanDigits(rest, ValueOf(seen)) ==
        if ValueOf(digits) > MAX_UINT64 then RangeError
        else if n < |rest| then SyntaxError
        else Value(ValueOf(digits))
    decreases |rest|
  {
    var n := DigitRun(rest);
    if n == 0 {
      assert seen + rest[..0] == seen;
    } else {
      var seen' := seen + [rest[0]];
      assert seen'[..|seen|] == seen;
      OneDigitOn(seen, rest, n);
      if ValueOf(seen') > MAX_UINT64 {
        ValueGrows(seen', rest[1..][..n - 1]);
      } else {
        ScanMeaning(seen', rest[1..]);
      }
    }
  }

  /**
   Every text: an optional sign and then digits, nothing else, and within 64 bits, is the number it stands for; digits
   that have run out of 64 bits saturate whatever follows them; anything else is 0 and an error.
  */
  lemma ParseIntMeaning(s: string)
    ensures var neg := s != "" && s[0] == '-';
      var body := if s != "" && (s[0] == '-' || s[0] == '+') then s[1..] else s;
      var n := DigitRun(body);
      var value: int := ValueOf(body[..n]);
      ParseInt(s) ==
        if value > MAX_UINT64 then Parsed(if neg then MIN_INT64 else MAX_INT64, false)
        else if n == 0 || n < |body| then Parsed(0, false)
        else if neg then (if value <= 0x8000_0000_0000_0000 then Parsed(-value, true) else Parsed(MIN_INT64, false))
        else if value <= 0x7fff_ffff_ffff_ffff then Parsed(value, true)
        else Parsed(MAX_INT64, false)
  {
    var body := if s != "" && (s[0] == '-' || s[0] == '+') then s[1..] else s;
    ScanMeaning("", body);
    assert "" + body[..DigitRun(body)] == body[..DigitRun(body)];
    hide ScanDigits;
  }
}
