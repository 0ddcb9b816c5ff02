/**
 encoding/json as the protocol uses it: escaping of arbitrary bytes (section 7 of RFC 8259, with Go's extra escapes),
 the printing of flat objects, and the reading of any JSON text. A byte is a char below 256.
*/
module Json {
  import opened Seqs
  import opened Decimal

  // ---------------------------------------------------------------------------------------------
  // UTF-8

  predicate Between(s: string, i: nat, lo: int, hi: int) {
    i < |s| && lo <= s[i] as int <= hi
  }

  /** The length of the rune at the start of s, or 0 when no well-formed one starts there. */
  function RuneLen(s: string): (n: nat)
    ensures n <= |s| && n <= 4
  {
    if Between(s, 0, 0, 0x7f) then 1
    else if Between(s, 0, 0xc2, 0xdf) then (if Between(s, 1, 0x80, 0xbf) then 2 else 0)
    else if Between(s, 0, 0xe0, 0xef) then
      var lo := if s[0] as int == 0xe0 then 0xa0 else 0x80;
      var hi := if s[0] as int == 0xed then 0x9f else 0xbf;
      if Between(s, 1, lo, hi) && Between(s, 2, 0x80, 0xbf) then 3 else 0
    else if Between(s, 0, 0xf0, 0xf4) then
      var lo := if s[0] as int == 0xf0 then 0x90 else 0x80;
      var hi := if s[0] as int == 0xf4 then 0x8f else 0xbf;
      if Between(s, 1, lo, hi) && Between(s, 2, 0x80, 0xbf) && Between(s, 3, 0x80, 0xbf) then 4 else 0
    else 0
  }

  predicate ValidUtf8(s: string)
    decreases |s|
  {
    s == "" || (RuneLen(s) > 0 && ValidUtf8(s[RuneLen(s)..]))
  }

  function Byte(n: int): char
    requires 0 <= n < 0x100
  {
    n as char
  }

  function EncodeRune(r: int): string
    requires 0 <= r <= 0x10ffff
  {
    if r < 0x80 then [Byte(r)]
    else if r < 0x800 then [Byte(0xc0 + r / 0x40), Byte(0x80 + r % 0x40)]
    else if r < 0x10000 then [Byte(0xe0 + r / 0x1000), Byte(0x80 + r / 0x40 % 0x40), Byte(0x80 + r % 0x40)]
    else [Byte(0xf0 + r / 0x40000), Byte(0x80 + r / 0x1000 % 0x40), Byte(0x80 + r / 0x40 % 0x40), Byte(0x80 + r % 0x40)]
  }

  /** A Unicode scalar value: a code point that is no surrogate. */
  predicate IsScalar(r: int) {
    0 <= r <= 0x10ffff && !(0xd800 <= r <= 0xdfff)
  }

  ghost predicate StartsWithRune(s: string, r: int) {
    IsScalar(r) && |EncodeRune(r)| <= |s| && s[..|EncodeRune(r)|] == EncodeRune(r)
  }

  function Low(c: char): int {
    c as int - 0x80
  }

  lemma TwoBytes(s: string)
    requires RuneLen(s) == 2
    ensures StartsWithRune(s, (s[0] as int - 0xc0) * 0x40 + Low(s[1]))
  {
    var r := (s[0] as int - 0xc0) * 0x40 + Low(s[1]);
    assert r / 0x40 == s[0] as int - 0xc0 && r % 0x40 == Low(s[1]);
    assert EncodeRune(r) == s[..2];
  }

  lemma ThreeBytes(s: string)
    requires RuneLen(s) == 3
    ensures StartsWithRune(s, (s[0] as int - 0xe0) * 0x1000 + Low(s[1]) * 0x40 + Low(s[2]))
  {
    var a, b, c := s[0] as int - 0xe0, Low(s[1]), Low(s[2]);
    var r := a * 0x1000 + b * 0x40 + c;
    assert r / 0x1000 == a && r / 0x40 == a * 0x40 + b && r / 0x40 % 0x40 == b && r % 0x40 == c;
    assert EncodeRune(r) == s[..3];
  }

  lemma FourBytes(s: string)
    requires RuneLen(s) == 4
    ensures StartsWithRune(s, (s[0] as int - 0xf0) * 0x40000 + Low(s[1]) * 0x1000 + Low(s[2]) * 0x40 + Low(s[3]))
  {
    var a, b, c, d := s[0] as int - 0xf0, Low(s[1]), Low(s[2]), Low(s[3]);
    var r := a * 0x40000 + b * 0x1000 + c * 0x40 + d;
    assert r / 0x40000 == a;
    assert r / 0x1000 == a * 0x40 + b && r / 0x1000 % 0x40 == b;
    assert r / 0x40 == a * 0x1000 + b * 0x40 + c && r / 0x40 % 0x40 == c;
    assert r % 0x40 == d;
    assert EncodeRune(r) == s[..4];
  }

  lemma RuneOfScalar(s: string, r: int)
    requires StartsWithRune(s, r)
    ensures RuneLen(s) == |EncodeRune(r)|
  {
    var e := EncodeRune(r);
    assert forall i :: 0 <= i < |e| ==> s[i] == e[i];
    if 0x800 <= r < 0x10000 {
      assert r / 0x1000 == 0 ==> r / 0x40 % 0x40 >= 0x20;
      assert r / 0x1000 == 0xd ==> r / 0x40 % 0x40 < 0x20;
    } else if r >= 0x10000 {
      assert r / 0x40000 == 0 ==> r / 0x1000 % 0x40 >= 0x10;
      assert r / 0x40000 == 4 ==> r / 0x1000 % 0x40 < 0x10;
    }
  }

  /** UTF-8 as RFC 3629 has it: a rune starts here exactly when the bytes are those of some scalar value. */
  lemma RuneIffScalar(s: string)
    ensures RuneLen(s) > 0 <==> exists r :: StartsWithRune(s, r)
    ensures forall r :: StartsWithRune(s, r) ==> RuneLen(s) == |EncodeRune(r)|
  {
    forall r | StartsWithRune(s, r) ensures RuneLen(s) == |EncodeRune(r)| && RuneLen(s) > 0 {
      RuneOfScalar(s, r);
    }
    if RuneLen(s) == 1 {
      assert EncodeRune(s[0] as int) == s[..1];
      assert StartsWithRune(s, s[0] as int);
    } else if RuneLen(s) == 2 {
      TwoBytes(s);
    } else if RuneLen(s) == 3 {
      ThreeBytes(s);
    } else if RuneLen(s) == 4 {
      FourBytes(s);
    }
  }

  const REPLACEMENT: int := 0xfffd

  /** What survives the wire: every byte that starts no well-formed rune becomes U+FFFD. */
  function Sanitized(s: string): string
    decreases |s|
  {
    if s == "" then ""
    else if RuneLen(s) == 0 then EncodeRune(REPLACEMENT) + Sanitized(s[1..])
    else s[..RuneLen(s)] + Sanitized(s[RuneLen(s)..])
  }

  lemma {:induction false} SanitizedIsNoShorter(s: string)
    ensures |Sanitized(s)| >= |s|
    ensures |Sanitized(s)| == |s| <==> ValidUtf8(s)
    decreases |s|
  {
    if s != "" {
      var n := if RuneLen(s) == 0 then 1 else RuneLen(s);
      SanitizedIsNoShorter(s[n..]);
    }
  }

  lemma {:induction false} ValidIsUnchanged(s: string)
    requires ValidUtf8(s)
    ensures Sanitized(s) == s
    decreases |s|
  {
    if s != "" {
      var n := RuneLen(s);
      ValidIsUnchanged(s[n..]);
      assert s == s[..n] + s[n..];
    }
  }

  lemma UnchangedExactlyWhenValid(s: string)
    ensures Sanitized(s) == s <==> ValidUtf8(s)
  {
    SanitizedIsNoShorter(s);
    if ValidUtf8(s) {
      ValidIsUnchanged(s);
    }
  }

  /** A rune is recognised by its own bytes, whatever follows. */
  lemma RuneLenIsLocal(s: string, t: string)
    requires RuneLen(s) > 0
    ensures RuneLen(s[..RuneLen(s)] + t) == RuneLen(s)
  {
    var n, u := RuneLen(s), s[..RuneLen(s)] + t;
    assert forall i :: 0 <= i < n ==> u[i] == s[i];
  }

  // ---------------------------------------------------------------------------------------------
  // String escaping

  function HexDigit(d: int): char
    requires 0 <= d < 16
  {
    if d < 10 then ('0' as int + d) as char else ('a' as int + d - 10) as char
  }

  function HexValue(c: char): int {
    if '0' <= c <= '9' then c as int - '0' as int
    else if 'a' <= c <= 'f' then c as int - 'a' as int + 10
    else if 'A' <= c <= 'F' then c as int - 'A' as int + 10
    else -1
  }

  /** Bytes copied as they are; the HTML-sensitive ones are not among them. */
  predicate IsPlain(c: char) {
    0x20 <= c as int < 0x80 && c != '"' && c != '\\' && c != '<' && c != '>' && c != '&'
  }

  function Unicode(r: int): string
    requires 0 <= r <= 0xffff
  {
    "\\u" + [HexDigit(r / 0x1000), HexDigit(r / 0x100 % 0x10), HexDigit(r / 0x10 % 0x10), HexDigit(r % 0x10)]
  }

  function EscapeAscii(c: char): string
    requires c as int < 0x80
  {
    if IsPlain(c) then [c]
    else if c == '"' || c == '\\' then ['\\', c]
    else if c as int == 8 then "\\b"
    else if c as int == 12 then "\\f"
    else if c == '\n' then "\\n"
    else if c == '\r' then "\\r"
    else if c == '\t' then "\\t"
    else Unicode(c as int)
  }

  /** U+2028 and U+2029, which Go escapes too. */
  predicate IsLineSeparator(s: string) {
    Between(s, 0, 0xe2, 0xe2) && Between(s, 1, 0x80, 0x80) && Between(s, 2, 0xa8, 0xa9)
  }

  function Escape(s: string): string
    decreases |s|
  {
    if s == "" then ""
    else if s[0] as int < 0x80 then EscapeAscii(s[0]) + Escape(s[1..])
    else if RuneLen(s) == 0 then Unicode(REPLACEMENT) + Escape(s[1..])
    else if IsLineSeparator(s) then Unicode(0x2028 + s[2] as int - 0xa8) + Escape(s[3..])
    else s[..RuneLen(s)] + Escape(s[RuneLen(s)..])
  }

  datatype Scanned<+T> = Scanned(value: T, rest: string) | Malformed

  /** The four hex digits of a \\u escape, or -1. */
  function CodeUnit(s: string): (r: int)
    ensures -1 <= r <= 0xffff
  {
    if |s| < 4 || HexValue(s[0]) < 0 || HexValue(s[1]) < 0 || HexValue(s[2]) < 0 || HexValue(s[3]) < 0 then -1
    else HexValue(s[0]) * 0x1000 + HexValue(s[1]) * 0x100 + HexValue(s[2]) * 0x10 + HexValue(s[3])
  }

  predicate IsHigh(r: int) { 0xd800 <= r < 0xdc00 }
  predicate IsLow(r: int) { 0xdc00 <= r < 0xe000 }

  /** The low half of a surrogate pair, when one follows. */
  function LowAfter(s: string): int {
    if |s| >= 6 && s[0] == '\\' && s[1] == 'u' then CodeUnit(s[2..]) else -1
  }

  function Prepend(head: string, tail: Scanned<string>): Scanned<string> {
    if tail.Malformed? then Malformed else Scanned(head + tail.value, tail.rest)
  }

  function Simple(c: char): Option<char> {
    if c == '"' || c == '\\' || c == '/' then Some(c)
    else if c == 'b' then Some(8 as char)
    else if c == 'f' then Some(12 as char)
    else if c == 'n' then Some('\n')
    else if c == 'r' then Some('\r')
    else if c == 't' then Some('\t')
    else None
  }

  /** The rest of a string literal, after its opening quote. */
  function ScanString(s: string): (r: Scanned<string>)
    ensures r.Scanned? ==> |r.rest| < |s|
    decreases |s|
  {
    if s == "" || (s[0] as int < 0x20) then Malformed
    else if s[0] == '"' then Scanned("", s[1..])
    else if s[0] == '\\' then
      if |s| < 2 then Malformed
      else if Simple(s[1]).Some? then Prepend([Simple(s[1]).value], ScanString(s[2..]))
      else if s[1] != 'u' || CodeUnit(s[2..]) < 0 then Malformed
      else
        var r, low := CodeUnit(s[2..]), LowAfter(s[6..]);
        if IsHigh(r) && IsLow(low) then
          Prepend(EncodeRune(0x10000 + (r - 0xd800) * 0x400 + (low - 0xdc00)), ScanString(s[12..]))
        else Prepend(EncodeRune(if IsHigh(r) || IsLow(r) then REPLACEMENT else r), ScanString(s[6..]))
    else if RuneLen(s) == 0 then Prepend(EncodeRune(REPLACEMENT), ScanString(s[1..]))
    else Prepend(s[..RuneLen(s)], ScanString(s[RuneLen(s)..]))
  }

  lemma HexIsRead(d: int)
    requires 0 <= d < 16
    ensures HexValue(HexDigit(d)) == d
  {
  }

  lemma HexDigitsAdd(r: int)
    requires 0 <= r <= 0xffff
    ensures r / 0x1000 * 0x1000 + r / 0x100 % 0x10 * 0x100 + r / 0x10 % 0x10 * 0x10 + r % 0x10 == r
    ensures 0 <= r / 0x1000 < 0x10
  {
    var q := r / 0x10;
    assert r / 0x100 == q / 0x10;
    assert r / 0x1000 == q / 0x10 / 0x10;
  }

  lemma FourDigits(a: int, b: int, c: int, d: int, t: string)
    requires 0 <= a < 16 && 0 <= b < 16 && 0 <= c < 16 && 0 <= d < 16
    ensures CodeUnit([HexDigit(a), HexDigit(b), HexDigit(c), HexDigit(d)] + t) == a * 0x1000 + b * 0x100 + c * 0x10 + d
  {
    HexIsRead(a);
    HexIsRead(b);
    HexIsRead(c);
    HexIsRead(d);
  }

  lemma UnicodeIsRead(r: int, t: string)
    requires 0 <= r <= 0xffff
    ensures CodeUnit((Unicode(r) + t)[2..]) == r
    ensures (Unicode(r) + t)[6..] == t && (Unicode(r) + t)[0] == '\\' && (Unicode(r) + t)[1] == 'u'
  {
    HexDigitsAdd(r);
    var a, b, c, d := r / 0x1000, r / 0x100 % 0x10, r / 0x10 % 0x10, r % 0x10;
    FourDigits(a, b, c, d, t);
    hide CodeUnit;
    assert (Unicode(r) + t)[2..] == [HexDigit(a), HexDigit(b), HexDigit(c), HexDigit(d)] + t;
  }

  lemma ScanUnicode(r: int, t: string)
    requires 0 <= r <= 0xffff && !IsHigh(r) && !IsLow(r)
    ensures ScanString(Unicode(r) + t) == Prepend(EncodeRune(r), ScanString(t))
  {
    UnicodeIsRead(r, t);
  }

  lemma ScanAscii(c: char, t: string)
    requires c as int < 0x80
    ensures ScanString(EscapeAscii(c) + t) == Prepend([c], ScanString(t))
  {
    hide CodeUnit, LowAfter, Unicode;
    var s := EscapeAscii(c) + t;
    if IsPlain(c) {
      assert s[1..] == t && s[..1] == [c];
    } else if c == '"' || c == '\\' || c as int == 8 || c as int == 12 || c == '\n' || c == '\r' || c == '\t' {
      assert s[2..] == t;
    } else {
      ScanUnicode(c as int, t);
    }
  }

  /** How many bytes the encoder takes at a time, and what the decoder makes of them. */
  function Taken(s: string): (k: nat)
    requires s != ""
    ensures 1 <= k <= |s|
  {
    if s[0] as int < 0x80 || RuneLen(s) == 0 then 1 else RuneLen(s)
  }

  function Kept(s: string): string
    requires s != ""
  {
    if s[0] as int >= 0x80 && RuneLen(s) == 0 then EncodeRune(REPLACEMENT) else s[..Taken(s)]
  }

  function Escaped(s: string): string
    requires s != ""
  {
    if s[0] as int < 0x80 then EscapeAscii(s[0])
    else if RuneLen(s) == 0 then Unicode(REPLACEMENT)
    else if IsLineSeparator(s) then Unicode(0x2028 + s[2] as int - 0xa8)
    else s[..RuneLen(s)]
  }

  lemma LineSeparatorIsRead(s: string)
    requires IsLineSeparator(s)
    ensures RuneLen(s) == 3 && EncodeRune(0x2028 + s[2] as int - 0xa8) == s[..3]
  {
  }

  lemma OneAtATime(s: string, t: string)
    requires s != ""
    ensures ScanString(Escaped(s) + t) == Prepend(Kept(s), ScanString(t))
    ensures Escape(s) == Escaped(s) + Escape(s[Taken(s)..])
    ensures Sanitized(s) == Kept(s) + Sanitized(s[Taken(s)..])
  {
    hide EscapeAscii, Unicode, CodeUnit;
    if s[0] as int < 0x80 {
      hide ScanString, EncodeRune, RuneLen;
      ScanAscii(s[0], t);
      assert s[..1] == [s[0]];
    } else if RuneLen(s) == 0 {
      hide ScanString, EncodeRune;
      ScanUnicode(REPLACEMENT, t);
    } else if IsLineSeparator(s) {
      LineSeparatorIsRead(s);
      hide ScanString, EncodeRune;
      ScanUnicode(0x2028 + s[2] as int - 0xa8, t);
    } else {
      RuneIsRead(s, t);
      hide ScanString, EncodeRune;
    }
  }

  lemma RuneIsRead(s: string, t: string)
    requires RuneLen(s) > 0 && s[0] as int >= 0x80
    ensures ScanString(s[..RuneLen(s)] + t) == Prepend(s[..RuneLen(s)], ScanString(t))
  {
    hide CodeUnit, EncodeRune, LowAfter;
    RuneLenIsLocal(s, t);
    var n, u := RuneLen(s), s[..RuneLen(s)] + t;
    assert u[0] == s[0] && u[..n] == s[..n] && u[n..] == t;
  }

  lemma ClosingQuote(rest: string)
    ensures ScanString("\"" + rest) == Scanned("", rest) && Escape("") == Sanitized("") == ""
  {
    var tail := "\"" + rest;
    assert tail[0] == '"' && tail[1..] == rest;
  }

  /** A string literal reads back as the sanitised string, whatever follows its closing quote. */
  lemma {:induction false} EscapeRoundTrip(s: string, rest: string)
    ensures ScanString(Escape(s) + ("\"" + rest)) == Scanned(Sanitized(s), rest)
    decreases |s|
  {
    hide ScanString, Escape, Sanitized, Escaped, Kept, Taken;
    var tail := "\"" + rest;
    if s == "" {
      ClosingQuote(rest);
      assert "" + tail == tail;
    } else {
      var s' := s[Taken(s)..];
      EscapeRoundTrip(s', rest);
      OneAtATime(s, Escape(s') + tail);
      assert Escaped(s) + Escape(s') + tail == Escaped(s) + (Escape(s') + tail);
    }
  }

  /** No control character, so in particular no newline, survives escaping. */
  predicate NoControls(s: string) {
    forall i :: 0 <= i < |s| ==> s[i] as int >= 0x20
  }

  lemma RuneHasNoControls(s: string)
    requires RuneLen(s) > 0 && s[0] as int >= 0x80
    ensures NoControls(s[..RuneLen(s)])
  {
  }

  lemma {:induction false} EscapeHasNoControls(s: string)
    ensures NoControls(Escape(s))
    decreases |s|
  {
    if s != "" {
      if s[0] as int < 0x80 || RuneLen(s) == 0 {
        EscapeHasNoControls(s[1..]);
      } else if IsLineSeparator(s) {
        EscapeHasNoControls(s[3..]);
      } else {
        EscapeHasNoControls(s[RuneLen(s)..]);
        RuneHasNoControls(s);
      }
    }
  }

  // ---------------------------------------------------------------------------------------------
  // Values

  /** What a decoder into string and integer fields can tell apart; Opaque is a boolean, an array or any other number. */
  datatype Value = Str(s: string) | Num(n: int) | Null | Object(fields: seq<Field>) | Opaque

  datatype Field = Field(key: string, value: Value)

  predicate Flat(v: Value) {
    v.Str? || v.Num? || v.Null?
  }

  predicate AllFlat(fs: seq<Field>) {
    forall i :: 0 <= i < |fs| ==> Flat(fs[i].value)
  }

  function Quoted(s: string): string {
    "\"" + Escape(s) + "\""
  }

  function PrintValue(v: Value): string
    requires Flat(v)
  {
    if v.Str? then Quoted(v.s) else if v.Num? then FormatInt(v.n) else "null"
  }

  function PrintField(f: Field): string
    requires Flat(f.value)
  {
    Quoted(f.key) + ":" + PrintValue(f.value)
  }

  function PrintFields(fs: seq<Field>): string
    requires fs != [] && AllFlat(fs)
  {
    if |fs| == 1 then PrintField(fs[0]) else PrintField(fs[0]) + "," + PrintFields(fs[1..])
  }

  function PrintObject(fs: seq<Field>): string
    requires AllFlat(fs)
  {
    if fs == [] then "{}" else "{" + PrintFields(fs) + "}"
  }

  predicate StartsWith(s: string, c: char) {
    s != "" && s[0] == c
  }

  predicate HasPrefix(s: string, p: string) {
    |p| <= |s| && s[..|p|] == p
  }

  predicate IsSpace(c: char) {
    c == ' ' || c == '\t' || c == '\n' || c == '\r'
  }

  function SkipSpace(s: string): (r: string)
    ensures |r| <= |s|
  {
    if s != "" && IsSpace(s[0]) then SkipSpace(s[1..]) else s
  }

  function AfterFraction(s: string): (r: Option<string>)
    ensures r.Some? ==> |r.value| <= |s|
  {
    if !StartsWith(s, '.') then Some(s)
    else
      var n := DigitRun(s[1..]);
      if n == 0 then None else Some(s[1 + n..])
  }

  function AfterExponent(s: string): (r: Option<string>)
    ensures r.Some? ==> |r.value| <= |s|
  {
    if !StartsWith(s, 'e') && !StartsWith(s, 'E') then Some(s)
    else
      var t := if StartsWith(s[1..], '+') || StartsWith(s[1..], '-') then s[2..] else s[1..];
      var n := DigitRun(t);
      if n == 0 then None else Some(t[n..])
  }

  /** A number literal, without leading zeros; only one that ParseInt takes can go into an integer field. */
  function ScanNumber(s: string): (r: Scanned<Value>)
    ensures r.Scanned? ==> |r.rest| < |s|
  {
    var sign := if StartsWith(s, '-') then 1 else 0;
    var n := if StartsWith(s[sign..], '0') then 1 else DigitRun(s[sign..]);
    if n == 0 then Malformed
    else
      var f := AfterFraction(s[sign + n..]);
      if f.None? || AfterExponent(f.value).None? then Malformed
      else
        var rest := AfterExponent(f.value).value;
        var literal := s[..|s| - |rest|];
        Scanned(if ParseInt(literal).ok then Num(ParseInt(literal).value) else Opaque, rest)
  }

  const MAX_DEPTH := 10000

  /** One value, inside `depth` arrays and objects. */
  function ScanValue(s: string, depth: nat): (r: Scanned<Value>)
    ensures r.Scanned? ==> |r.rest| < |s|
    decreases |s|, 0
  {
    var t := SkipSpace(s);
    if StartsWith(t, '"') then
      var r := ScanString(t[1..]);
      if r.Malformed? then Malformed else Scanned(Str(r.value), r.rest)
    else if StartsWith(t, '{') then (if depth >= MAX_DEPTH then Malformed else ScanObject(t[1..], depth + 1))
    else if StartsWith(t, '[') then (if depth >= MAX_DEPTH then Malformed else ScanArray(t[1..], depth + 1))
    else if HasPrefix(t, "null") then Scanned(Null, t[4..])
    else if HasPrefix(t, "true") then Scanned(Opaque, t[4..])
    else if HasPrefix(t, "false") then Scanned(Opaque, t[5..])
    else ScanNumber(t)
  }

  /** After the opening brace. */
  function ScanObject(s: string, depth: nat): (r: Scanned<Value>)
    ensures r.Scanned? ==> |r.rest| < |s|
    decreases |s|, 2
  {
    var t := SkipSpace(s);
    if StartsWith(t, '}') then Scanned(Object([]), t[1..])
    else
      var r := ScanFields(t, depth);
      if r.Malformed? then Malformed else Scanned(Object(r.value), r.rest)
  }

  function ScanField(s: string, depth: nat): (r: Scanned<Field>)
    ensures r.Scanned? ==> |r.rest| < |s|
    decreases |s|, 0
  {
    var t := SkipSpace(s);
    if !StartsWith(t, '"') then Malformed
    else
      var key := ScanString(t[1..]);
      if key.Malformed? || !StartsWith(SkipSpace(key.rest), ':') then Malformed
      else
        var r := ScanValue(SkipSpace(key.rest)[1..], depth);
        if r.Malformed? then Malformed else Scanned(Field(key.value, r.value), r.rest)
  }

  /** One or more fields and the closing brace. */
  function ScanFields(s: string, depth: nat): (r: Scanned<seq<Field>>)
    ensures r.Scanned? ==> |r.rest| < |s|
    decreases |s|, 1
  {
    var f := ScanField(s, depth);
    if f.Malformed? then Malformed
    else
      var t := SkipSpace(f.rest);
      if StartsWith(t, '}') then Scanned([f.value], t[1..])
      else if !StartsWith(t, ',') then Malformed
      else
        var r := ScanFields(t[1..], depth);
        if r.Malformed? then Malformed else Scanned([f.value] + r.value, r.rest)
  }

  /** After the opening bracket. */
  function ScanArray(s: string, depth: nat): (r: Scanned<Value>)
    ensures r.Scanned? ==> |r.rest| < |s|
    decreases |s|, 2
  {
    var t := SkipSpace(s);
    if StartsWith(t, ']') then Scanned(Opaque, t[1..]) else ScanElements(t, depth)
  }

  /** One or more values and the closing bracket. */
  function ScanElements(s: string, depth: nat): (r: Scanned<Value>)
    ensures r.Scanned? ==> |r.rest| < |s|
    decreases |s|, 1
  {
    var v := ScanValue(s, depth);
    if v.Malformed? then Malformed
    else
      var t := SkipSpace(v.rest);
      if StartsWith(t, ']') then Scanned(Opaque, t[1..])
      else if !StartsWith(t, ',') then Malformed
      else ScanElements(t[1..], depth)
  }

  /** json.Unmarshal on a frame: the whole of it must be one value. */
  function DecodeJson(s: string): Option<Value> {
    var r := ScanValue(s, 0);
    if r.Scanned? && SkipSpace(r.rest) == "" then Some(r.value) else None
  }

  function CleanValue(v: Value): Value {
    if v.Str? then Str(Sanitized(v.s)) else v
  }

  function Clean(fs: seq<Field>): seq<Field> {
    seq(|fs|, i requires 0 <= i < |fs| => Field(Sanitized(fs[i].key), CleanValue(fs[i].value)))
  }

  predicate Int64(n: int) {
    MIN_INT64 <= n <= MAX_INT64
  }

  predicate Printable(v: Value) {
    v.Str? || v.Null? || (v.Num? && Int64(v.n))
  }

  predicate AllPrintable(fs: seq<Field>) {
    forall i :: 0 <= i < |fs| ==> Printable(fs[i].value)
  }

  lemma {:induction false} DigitsRun(n: nat)
    ensures DigitRun(Digits(n)) == |Digits(n)|
    ensures n > 0 ==> Digits(n)[0] != '0'
  {
    if n >= 10 {
      DigitsRun(n / 10);
    }
    AllDigits(Digits(n));
  }

  lemma {:induction false} AllDigits(s: string)
    requires forall i :: 0 <= i < |s| ==> IsDigit(s[i])
    ensures DigitRun(s) == |s|
  {
    if s != "" { AllDigits(s[1..]); }
  }

  lemma {:induction false} RunStops(s: string, rest: string)
    requires DigitRun(s) == |s| && (rest == "" || !IsDigit(rest[0]))
    ensures DigitRun(s + rest) == |s|
  {
    if s == "" {
      assert s + rest == rest;
    } else {
      assert (s + rest)[1..] == s[1..] + rest;
      RunStops(s[1..], rest);
    }
  }

  /** What follows a value. */
  predicate Delimited(rest: string) {
    rest == "" || rest[0] == ',' || rest[0] == '}' || IsSpace(rest[0])
  }

  lemma IntegerPart(s: string, sign: nat, n: nat, rest: string)
    requires sign == (if StartsWith(s, '-') then 1 else 0) && sign + n <= |s| && rest == s[sign + n..]
    requires n > 0 && n == (if StartsWith(s[sign..], '0') then 1 else DigitRun(s[sign..])) && Delimited(rest)
    ensures ScanNumber(s) ==
        Scanned(if ParseInt(s[..sign + n]).ok then Num(ParseInt(s[..sign + n]).value) else Opaque, rest)
  {
    hide ParseInt, DigitRun;
    assert AfterFraction(rest) == Some(rest) && AfterExponent(rest) == Some(rest);
  }

  lemma SignAndDigits(n: int, rest: string)
    ensures var m, sign, s := if n < 0 then -n else n, if n < 0 then 1 else 0, FormatInt(n) + rest;
      && |FormatInt(n)| == sign + |Digits(m)| && s[..sign + |Digits(m)|] == FormatInt(n)
      && s[sign..] == Digits(m) + rest && s[sign + |Digits(m)|..] == rest
      && (StartsWith(s, '-') <==> n < 0)
  {
    var m := if n < 0 then -n else n;
    FirstDigit(m);
    hide Digits;
    if n < 0 {
      CutAfterHead('-', Digits(m), rest);
    } else {
      CutAfter(Digits(m), rest);
    }
  }

  lemma CutAfter<T>(d: seq<T>, rest: seq<T>)
    ensures (d + rest)[0..] == d + rest && (d + rest)[..|d|] == d && (d + rest)[|d|..] == rest
    ensures d != [] ==> (d + rest)[0] == d[0]
  {
  }

  lemma CutAfterHead<T>(x: T, d: seq<T>, rest: seq<T>)
    ensures var s := [x] + d + rest; s[0] == x && s[1..] == d + rest && s[..1 + |d|] == [x] + d && s[1 + |d|..] == rest
  {
  }

  lemma UnsignedLength(m: nat, rest: string)
    requires Delimited(rest)
    ensures var s := Digits(m) + rest; |Digits(m)| == if StartsWith(s, '0') then 1 else DigitRun(s)
  {
    DigitsRun(m);
    RunStops(Digits(m), rest);
    assert m == 0 ==> |Digits(m)| == 1;
  }

  lemma IntIsRead(n: int, rest: string)
    requires Int64(n) && Delimited(rest)
    ensures ScanNumber(FormatInt(n) + rest) == Scanned(Num(n), rest)
  {
    hide ParseInt, ScanNumber, Digits, FormatInt, DigitRun, StartsWith;
    var m := if n < 0 then -n else n;
    ParseFormatRoundTrip(n);
    SignAndDigits(n, rest);
    UnsignedLength(m, rest);
    IntegerPart(FormatInt(n) + rest, if n < 0 then 1 else 0, |Digits(m)|, rest);
  }

  lemma FirstDigit(n: nat)
    ensures Digits(n)[0] != '-'
  {
  }

  lemma QuotedIsRead(s: string, rest: string)
    ensures StartsWith(Quoted(s) + rest, '"') && ScanString((Quoted(s) + rest)[1..]) == Scanned(Sanitized(s), rest)
  {
    hide ScanString, Escape, Sanitized;
    EscapeRoundTrip(s, rest);
    assert (Quoted(s) + rest)[1..] == Escape(s) + ("\"" + rest);
  }

  /** Nothing that is printed starts with a space, so skipping spaces skips nothing. */
  lemma NothingToSkip(s: string)
    requires s != "" && s[0] as int > 0x20
    ensures SkipSpace(s) == s
  {
  }

  lemma IntStartsPlainly(n: int)
    ensures FormatInt(n)[0] == '-' || IsDigit(FormatInt(n)[0])
  {
  }

  /** A text that starts as a number does is read as one. */
  lemma NumberIsChosen(s: string, depth: nat)
    requires s != "" && (s[0] == '-' || IsDigit(s[0]))
    ensures ScanValue(s, depth) == ScanNumber(s)
  {
    hide ScanNumber;
    NothingToSkip(s);
    PrefixStarts(s, "null");
    PrefixStarts(s, "true");
    PrefixStarts(s, "false");
  }

  lemma PrefixStarts(s: string, p: string)
    requires p != ""
    ensures HasPrefix(s, p) ==> s[0] == p[0]
  {
    assert HasPrefix(s, p) ==> s[0] == s[..|p|][0];
  }

  lemma ValueIsRead(v: Value, rest: string, depth: nat)
    requires Printable(v) && Delimited(rest)
    ensures ScanValue(PrintValue(v) + rest, depth) == Scanned(CleanValue(v), rest)
  {
    hide ScanString, Quoted, ScanNumber, Sanitized, SkipSpace;
    if v.Str? {
      QuotedIsRead(v.s, rest);
      NothingToSkip(Quoted(v.s) + rest);
    } else if v.Null? {
      NothingToSkip("null" + rest);
      assert ("null" + rest)[0] == 'n' && ("null" + rest)[..4] == "null" && ("null" + rest)[4..] == rest;
    } else {
      hide ScanValue;
      IntIsRead(v.n, rest);
      IntStartsPlainly(v.n);
      assert (FormatInt(v.n) + rest)[0] == FormatInt(v.n)[0];
      NumberIsChosen(FormatInt(v.n) + rest, depth);
    }
  }

  lemma FieldIsRead(f: Field, rest: string, depth: nat)
    requires Printable(f.value) && Delimited(rest)
    ensures ScanField(PrintField(f) + rest, depth) == Scanned(Field(Sanitized(f.key), CleanValue(f.value)), rest)
  {
    hide ScanString, Quoted, ScanValue, Sanitized, PrintValue, SkipSpace;
    var tail := ":" + (PrintValue(f.value) + rest);
    QuotedIsRead(f.key, tail);
    assert PrintField(f) + rest == Quoted(f.key) + tail;
    NothingToSkip(Quoted(f.key) + tail);
    NothingToSkip(tail);
    assert tail[1..] == PrintValue(f.value) + rest;
    ValueIsRead(f.value, rest, depth);
  }

  lemma {:induction false} FieldsAreRead(fs: seq<Field>, rest: string, depth: nat)
    requires fs != [] && AllPrintable(fs)
    ensures ScanFields(PrintFields(fs) + ("}" + rest), depth) == Scanned(Clean(fs), rest)
    decreases |fs|
  {
    hide ScanField, PrintField, CleanValue, Sanitized, SkipSpace;
    var tail := "}" + rest;
    assert tail[1..] == rest;
    NothingToSkip(tail);
    if |fs| == 1 {
      FieldIsRead(fs[0], tail, depth);
      assert Clean(fs) == [Clean(fs)[0]];
    } else {
      var more := "," + (PrintFields(fs[1..]) + tail);
      FieldIsRead(fs[0], more, depth);
      NothingToSkip(more);
      FieldsAreRead(fs[1..], rest, depth);
      assert PrintFields(fs) + tail == PrintField(fs[0]) + more;
      assert more[1..] == PrintFields(fs[1..]) + tail;
      assert Clean(fs) == [Clean(fs)[0]] + Clean(fs[1..]);
    }
  }

  lemma ObjectIsRead(s: string, body: string, depth: nat)
    requires s == "{" + body && depth < MAX_DEPTH
    ensures ScanValue(s, depth) == ScanObject(body, depth + 1)
  {
    hide ScanObject;
    NothingToSkip(s);
    assert s[1..] == body;
  }

  lemma ObjectIsWhole(fs: seq<Field>)
    requires AllPrintable(fs)
    ensures PrintObject(fs) != "" && PrintObject(fs)[0] == '{'
    ensures ScanValue(PrintObject(fs), 0) == Scanned(Object(Clean(fs)), "")
  {
    hide ScanFields, PrintFields, ScanValue, SkipSpace;
    var body := PrintObject(fs)[1..];
    assert PrintObject(fs) == "{" + body;
    ObjectIsRead(PrintObject(fs), body, 0);
    if fs == [] {
      assert Clean(fs) == [] && body == "}";
      NothingToSkip(body);
    } else {
      FieldsAreRead(fs, "", 1);
      assert body == PrintFields(fs) + ("}" + "");
      FieldsStartWithQuote(fs);
      NothingToSkip(body);
      assert body[0] == '"';
    }
  }

  /** An object reads back with its strings sanitised. */
  lemma ObjectRoundTrip(fs: seq<Field>)
    requires AllPrintable(fs)
    ensures DecodeJson(PrintObject(fs)) == Some(Object(Clean(fs)))
  {
    hide PrintObject, ScanValue;
    ObjectIsWhole(fs);
    assert SkipSpace("") == "";
  }

  lemma FieldsStartWithQuote(fs: seq<Field>)
    requires fs != [] && AllFlat(fs)
    ensures PrintFields(fs) != "" && PrintFields(fs)[0] == '"'
  {
  }

  lemma IntHasNoControls(n: int)
    ensures NoControls(FormatInt(n))
  {
  }

  lemma {:induction false} FieldsHaveNoControls(fs: seq<Field>)
    requires fs != [] && AllFlat(fs)
    ensures NoControls(PrintFields(fs))
    decreases |fs|
  {
    EscapeHasNoControls(fs[0].key);
    if fs[0].value.Str? {
      EscapeHasNoControls(fs[0].value.s);
    } else if fs[0].value.Num? {
      IntHasNoControls(fs[0].value.n);
    }
    hide Escape, FormatInt;
    assert NoControls(PrintField(fs[0]));
    if |fs| > 1 { FieldsHaveNoControls(fs[1..]); }
  }

  /** A printed object holds no newline, and ends in no carriage return. */
  lemma ObjectIsOneLine(fs: seq<Field>)
    requires AllFlat(fs)
    ensures NoControls(PrintObject(fs)) && PrintObject(fs) != ""
    ensures PrintObject(fs)[|PrintObject(fs)| - 1] == '}'
  {
    if fs != [] { FieldsHaveNoControls(fs); }
  }
}
