/** The lexical rules of JSON (sections 6 and 7 of RFC 8259), against the scanners: numbers, escapes, surrogate pairs. */
module JsonTexts {
  import opened Seqs
  import opened Decimal
  import opened Json

  // ---------------------------------------------------------------------------------------------
  // Numbers

  predicate IsDigits(s: string) {
    s != "" && forall i :: 0 <= i < |s| ==> '0' <= s[i] <= '9'
  }

  predicate IsInteger(s: string) {
    s == "0" || (IsDigits(s) && s[0] != '0')
  }

  predicate IsFraction(s: string) {
    s == "" || (s[0] == '.' && IsDigits(s[1..]))
  }

  predicate IsExponent(s: string) {
    s == "" || ((s[0] == 'e' || s[0] == 'E') && (IsDigits(s[1..])
      || (|s| > 1 && (s[1] == '+' || s[1] == '-') && IsDigits(s[2..]))))
  }

  /** The four parts of a number literal. */
  datatype Number = Number(minus: bool, integer: string, fraction: string, exponent: string)

  predicate IsNumber(n: Number) {
    IsInteger(n.integer) && IsFraction(n.fraction) && IsExponent(n.exponent)
  }

  function Text(n: Number): string {
    (if n.minus then "-" else "") + (n.integer + (n.fraction + n.exponent))
  }

  lemma DigitsThen(s: string, rest: string)
    requires IsDigits(s) && (rest == "" || !IsDigit(rest[0]))
    ensures DigitRun(s + rest) == |s| && (s + rest)[|s|..] == rest && (s + rest)[0] == s[0]
  {
    AllDigits(s);
    RunStops(s, rest);
  }

  lemma DropConcat<T>(a: seq<T>, b: seq<T>, n: nat)
    requires n <= |a|
    ensures (a + b)[n..] == a[n..] + b && forall i :: 0 <= i < |a| ==> (a + b)[i] == a[i]
  {
  }

  lemma ExponentIsRead(exponent: string, rest: string)
    requires IsExponent(exponent) && Delimited(rest)
    ensures AfterExponent(exponent + rest) == Some(rest)
    ensures exponent + rest == "" || (!IsDigit((exponent + rest)[0]) && (exponent + rest)[0] != '.')
  {
    var s := exponent + rest;
    if exponent == "" {
      assert s == rest;
    } else if IsDigits(exponent[1..]) {
      DropConcat(exponent, rest, 1);
      DigitsThen(exponent[1..], rest);
    } else {
      DropConcat(exponent, rest, 1);
      DropConcat(exponent, rest, 2);
      assert s[1..][0] == exponent[1];
      DigitsThen(exponent[2..], rest);
    }
  }

  lemma FractionIsRead(fraction: string, rest: string)
    requires IsFraction(fraction) && (rest == "" || (!IsDigit(rest[0]) && rest[0] != '.'))
    ensures AfterFraction(fraction + rest) == Some(rest)
    ensures fraction + rest == "" || !IsDigit((fraction + rest)[0])
  {
    var s := fraction + rest;
    if fraction == "" {
      assert s == rest;
    } else {
      DropConcat(fraction, rest, 1);
      DigitsThen(fraction[1..], rest);
      assert s[1 + |fraction[1..]|..] == rest;
    }
  }

  lemma FiveParts<T>(a: seq<T>, b: seq<T>, c: seq<T>, d: seq<T>, e: seq<T>)
    ensures var s := a + (b + (c + d)) + e;
      && s == a + (b + (c + (d + e))) && |s| == |a| + |b + (c + (d + e))|
      && s[|a|..] == b + (c + (d + e)) && s[|a| + |b|..] == c + (d + e) && s[..|s| - |e|] == a + (b + (c + d))
  {
    assert (b + (c + d)) + e == b + ((c + d) + e);
    assert (c + d) + e == c + (d + e);
  }

  function Minus(n: Number): string {
    if n.minus then "-" else ""
  }

  lemma SignIsRead(n: Number, u: string)
    requires u != "" && u[0] != '-'
    ensures StartsWith(Minus(n) + u, '-') == n.minus && |Minus(n)| == if n.minus then 1 else 0
  {
  }

  lemma ScansAs(s: string, sign: nat, k: nat, e: string, rest: string)
    requires sign == (if StartsWith(s, '-') then 1 else 0) && sign + k <= |s| && k > 0
    requires k == if StartsWith(s[sign..], '0') then 1 else DigitRun(s[sign..])
    requires AfterFraction(s[sign + k..]) == Some(e) && AfterExponent(e) == Some(rest) && |rest| <= |s|
    ensures ScanNumber(s) ==
        var literal := s[..|s| - |rest|];
        Scanned(if ParseInt(literal).ok then Num(ParseInt(literal).value) else Opaque, rest)
  {
    hide ParseInt, AfterFraction, AfterExponent, DigitRun, StartsWith;
  }

  /** Every literal of the grammar is read, whole; it fills an integer field when ParseInt takes it. */
  lemma NumberIsRead(n: Number, rest: string)
    requires IsNumber(n) && Delimited(rest)
    ensures ScanNumber(Text(n) + rest) ==
        Scanned(if ParseInt(Text(n)).ok then Num(ParseInt(Text(n)).value) else Opaque, rest)
  {
    var e := n.exponent + rest;
    var f := n.fraction + e;
    ExponentIsRead(n.exponent, rest);
    FractionIsRead(n.fraction, e);
    IntegerIsRead(n.integer, f);
    SignIsRead(n, n.integer + f);
    assert Text(n) == Minus(n) + (n.integer + (n.fraction + n.exponent));
    IntegerIsSome(n.integer);
    hide ScanNumber, ParseInt, AfterFraction, AfterExponent, DigitRun, Text, StartsWith, Minus, IsNumber;
    FiveParts(Minus(n), n.integer, n.fraction, n.exponent, rest);
    ScansAs(Text(n) + rest, |Minus(n)|, |n.integer|, e, rest);
  }

  lemma IntegerIsSome(integer: string)
    requires IsInteger(integer)
    ensures |integer| > 0
  {
  }

  lemma IntegerIsRead(integer: string, rest: string)
    requires IsInteger(integer) && (rest == "" || !IsDigit(rest[0]))
    ensures var s := integer + rest;
      && s != "" && s[0] != '-' && s[|integer|..] == rest
      && |integer| == if StartsWith(s, '0') then 1 else DigitRun(s)
  {
    if integer == "0" {
    } else {
      DigitsThen(integer, rest);
    }
  }

  lemma {:induction false} RunIsDigits(s: string)
    ensures DigitRun(s) > 0 ==> IsDigits(s[..DigitRun(s)])
  {
  }

  lemma ExponentIsGrammar(s: string)
    requires AfterExponent(s).Some?
    ensures var rest := AfterExponent(s).value;
      |rest| <= |s| && s == s[..|s| - |rest|] + rest && IsExponent(s[..|s| - |rest|])
  {
    if StartsWith(s, 'e') || StartsWith(s, 'E') {
      var k := if StartsWith(s[1..], '+') || StartsWith(s[1..], '-') then 2 else 1;
      var n := DigitRun(s[k..]);
      RunIsDigits(s[k..]);
      var exponent := s[..k + n];
      assert exponent[k..] == s[k..][..n];
      assert s[k..][n..] == s[k + n..];
    }
  }

  lemma FractionIsGrammar(s: string)
    requires AfterFraction(s).Some?
    ensures var rest := AfterFraction(s).value;
      |rest| <= |s| && s == s[..|s| - |rest|] + rest && IsFraction(s[..|s| - |rest|])
  {
    if StartsWith(s, '.') {
      var n := DigitRun(s[1..]);
      RunIsDigits(s[1..]);
      assert s[..1 + n][1..] == s[1..][..n];
    }
  }

  lemma IntegerIsGrammar(u: string, k: nat)
    requires k > 0 && k == if StartsWith(u, '0') then 1 else DigitRun(u)
    ensures k <= |u| && IsInteger(u[..k])
  {
    if StartsWith(u, '0') {
      assert u[..1] == "0";
    } else {
      RunIsDigits(u);
    }
  }

  lemma Rejoin<T>(a: seq<T>, u: seq<T>, i: seq<T>, f: seq<T>, g: seq<T>, e: seq<T>, x: seq<T>, r: seq<T>)
    requires u == i + f && f == g + e && e == x + r
    ensures a + u == a + (i + (g + x)) + r
  {
    assert i + (g + (x + r)) == (i + (g + x)) + r;
  }

  lemma SignPart(s: string)
    ensures var sign := if StartsWith(s, '-') then 1 else 0;
      s == (if sign == 1 then "-" else "") + s[sign..]
  {
  }

  lemma ScannedParts(s: string)
    requires ScanNumber(s).Scanned?
    ensures var sign := if StartsWith(s, '-') then 1 else 0; var u := s[sign..];
      var k := if StartsWith(u, '0') then 1 else DigitRun(u);
      && k > 0 && k <= |u| && AfterFraction(u[k..]).Some? && AfterExponent(AfterFraction(u[k..]).value).Some?
      && ScanNumber(s).rest == AfterExponent(AfterFraction(u[k..]).value).value
  {
    hide ParseInt, AfterFraction, AfterExponent;
    var sign := if StartsWith(s, '-') then 1 else 0;
    var k := if StartsWith(s[sign..], '0') then 1 else DigitRun(s[sign..]);
    assert k <= |s[sign..]| ==> s[sign..][k..] == s[sign + k..];
  }

  lemma FromParts(minus: bool, u: string, k: nat) returns (n: Number)
    requires k > 0 && k <= |u| && k == if StartsWith(u, '0') then 1 else DigitRun(u)
    requires AfterFraction(u[k..]).Some? && AfterExponent(AfterFraction(u[k..]).value).Some?
    ensures IsNumber(n) && n.minus == minus && Minus(n) + u == Text(n) + AfterExponent(AfterFraction(u[k..]).value).value
  {
    hide AfterFraction, AfterExponent, DigitRun, StartsWith, IsInteger, IsFraction, IsExponent, Text, Minus;
    var f := u[k..];
    var e := AfterFraction(f).value;
    var rest := AfterExponent(e).value;
    IntegerIsGrammar(u, k);
    FractionIsGrammar(f);
    ExponentIsGrammar(e);
    n := Number(minus, u[..k], f[..|f| - |e|], e[..|e| - |rest|]);
    Halved(u, k);
    Assembled(n, u, f, e, rest);
  }

  /** And nothing else is: what is read is a literal of the grammar. */
  lemma OnlyNumbersAreRead(s: string) returns (n: Number)
    requires ScanNumber(s).Scanned?
    ensures IsNumber(n) && s == Text(n) + ScanNumber(s).rest
  {
    ScannedParts(s);
    SignPart(s);
    hide ScanNumber, AfterFraction, AfterExponent, ParseInt, DigitRun, StartsWith, IsNumber, Text;
    var sign := if StartsWith(s, '-') then 1 else 0;
    var u := s[sign..];
    n := FromParts(sign == 1, u, if StartsWith(u, '0') then 1 else DigitRun(u));
  }

  lemma Assembled(n: Number, u: string, f: string, e: string, rest: string)
    requires u == n.integer + f && f == n.fraction + e && e == n.exponent + rest
    ensures Minus(n) + u == Text(n) + rest
  {
    assert Text(n) == Minus(n) + (n.integer + (n.fraction + n.exponent));
    hide Text, Minus;
    Rejoin(Minus(n), u, n.integer, f, n.fraction, e, n.exponent, rest);
  }

  lemma Halved<T>(u: seq<T>, k: nat)
    requires k <= |u|
    ensures u == u[..k] + u[k..]
  {
  }

  // ---------------------------------------------------------------------------------------------
  // Escapes

  function HighHalf(r: int): (h: int)
    requires 0x10000 <= r <= 0x10ffff
    ensures IsHigh(h)
  {
    0xd800 + (r - 0x10000) / 0x400
  }

  function LowHalf(r: int): (h: int)
    requires 0x10000 <= r <= 0x10ffff
    ensures IsLow(h)
  {
    0xdc00 + (r - 0x10000) % 0x400
  }

  /** The two escapes of a code point beyond the basic plane. */
  function Pair(r: int): string
    requires 0x10000 <= r <= 0x10ffff
  {
    Unicode(HighHalf(r)) + Unicode(LowHalf(r))
  }

  lemma HalvesAdd(r: int)
    requires 0x10000 <= r <= 0x10ffff
    ensures 0x10000 + (HighHalf(r) - 0xd800) * 0x400 + (LowHalf(r) - 0xdc00) == r
  {
  }

  lemma LowIsRead(low: int, t: string)
    requires 0 <= low <= 0xffff
    ensures LowAfter(Unicode(low) + t) == low
  {
    UnicodeIsRead(low, t);
    hide CodeUnit;
  }

  lemma TwoEscapes(high: int, low: int, t: string)
    requires IsHigh(high) && IsLow(low)
    ensures ScanString(Unicode(high) + (Unicode(low) + t)) ==
        Prepend(EncodeRune(0x10000 + (high - 0xd800) * 0x400 + (low - 0xdc00)), ScanString(t))
  {
    var more := Unicode(low) + t;
    var s := Unicode(high) + more;
    UnicodeIsRead(high, more);
    UnicodeIsRead(low, t);
    LowIsRead(low, t);
    hide CodeUnit, Unicode, EncodeRune, LowAfter;
    SliceTwice(s, 6, 6);
  }

  lemma SliceTwice<T>(s: seq<T>, i: nat, k: nat)
    requires i + k <= |s|
    ensures s[i..][k..] == s[i + k..]
  {
  }

  /** A surrogate pair is the one code point it stands for. */
  lemma PairIsRead(r: int, t: string)
    requires 0x10000 <= r <= 0x10ffff
    ensures ScanString(Pair(r) + t) == Prepend(EncodeRune(r), ScanString(t))
  {
    hide ScanString, EncodeRune, Unicode, HighHalf, LowHalf;
    HalvesAdd(r);
    TwoEscapes(HighHalf(r), LowHalf(r), t);
    Regrouped(Unicode(HighHalf(r)), Unicode(LowHalf(r)), t);
  }

  lemma Regrouped<T>(a: seq<T>, b: seq<T>, c: seq<T>)
    ensures a + b + c == a + (b + c)
  {
  }

  /** A surrogate on its own is no character. */
  lemma LoneSurrogateIsReplaced(r: int, t: string)
    requires 0xd800 <= r <= 0xdfff && (r >= 0xdc00 || !IsLow(LowAfter(t)))
    ensures ScanString(Unicode(r) + t) == Prepend(EncodeRune(0xfffd), ScanString(t))
  {
    UnicodeIsRead(r, t);
    hide CodeUnit, Unicode, EncodeRune, LowAfter;
  }

  /** Escapes in either case of the hex digits, and the short ones. */
  lemma ShortEscapesAreRead(t: string)
    ensures ScanString("\\/" + t) == Prepend("/", ScanString(t))
    ensures ScanString("\\b" + t) == Prepend([8 as char], ScanString(t))
    ensures ScanString("\\f" + t) == Prepend([12 as char], ScanString(t))
  {
    ShortEscape('/', '/', t);
    ShortEscape('b', 8 as char, t);
    ShortEscape('f', 12 as char, t);
  }

  lemma ShortEscape(c: char, d: char, t: string)
    requires Simple(c) == Some(d)
    ensures ScanString(['\\', c] + t) == Prepend([d], ScanString(t))
  {
    var s := ['\\', c] + t;
    assert s[0] == '\\' && s[1] == c && s[2..] == t;
  }

  /** What an HTML page would take for markup. */
  predicate IsMarkup(c: char) {
    c == '<' || c == '>' || c == '&'
  }

  lemma AsciiHidesMarkup(c: char)
    requires c as int < 0x80
    ensures forall i :: 0 <= i < |EscapeAscii(c)| ==> !IsMarkup(EscapeAscii(c)[i]) && EscapeAscii(c)[i] as int < 0x80
  {
  }

  lemma UnicodeHidesMarkup(r: int)
    requires 0 <= r <= 0xffff
    ensures forall i :: 0 <= i < |Unicode(r)| ==> !IsMarkup(Unicode(r)[i]) && Unicode(r)[i] as int < 0x80
  {
  }

  predicate NoMarkup(s: string) {
    forall i :: 0 <= i < |s| ==> !IsMarkup(s[i])
  }

  lemma NoMarkupConcat(a: string, b: string)
    requires NoMarkup(a) && NoMarkup(b)
    ensures NoMarkup(a + b)
  {
  }

  /** Nothing that HTML takes for markup is left after escaping. */
  lemma {:induction false} EscapeHidesMarkup(s: string)
    ensures NoMarkup(Escape(s))
    decreases |s|
  {
    if s != "" {
      PieceHidesMarkup(s);
      EscapeHidesMarkup(s[Json.Taken(s)..]);
      NoMarkupConcat(Escaped(s), Escape(s[Json.Taken(s)..]));
      OneAtATime(s, "");
    }
  }

  lemma PieceHidesMarkup(s: string)
    requires s != ""
    ensures NoMarkup(Escaped(s))
  {
    if s[0] as int < 0x80 {
      AsciiHidesMarkup(s[0]);
    } else if RuneLen(s) == 0 {
      UnicodeHidesMarkup(REPLACEMENT);
    } else if IsLineSeparator(s) {
      UnicodeHidesMarkup(0x2028 + s[2] as int - 0xa8);
    }
  }

  /** U+2028 and U+2029 go out as escapes, which JavaScript takes for no line end. */
  lemma LineSeparatorsAreEscaped(rest: string)
    ensures Escape([0xe2 as char, 0x80 as char, 0xa8 as char] + rest) == Unicode(0x2028) + Escape(rest)
    ensures Escape([0xe2 as char, 0x80 as char, 0xa9 as char] + rest) == Unicode(0x2029) + Escape(rest)
  {
    var a, b := [0xe2 as char, 0x80 as char, 0xa8 as char], [0xe2 as char, 0x80 as char, 0xa9 as char];
    assert (a + rest)[3..] == rest && (b + rest)[3..] == rest;
    assert IsLineSeparator(a + rest) && IsLineSeparator(b + rest);
    LineSeparatorIsRead(a + rest);
    LineSeparatorIsRead(b + rest);
  }
}
