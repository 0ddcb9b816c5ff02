/** A frame that a failing Write cut short is no JSON text, so no part of a message is ever taken for one. */
module CutFrames {
  import opened Seqs
  import opened Decimal
  import opened Json
  import opened Codec

  // What a scanner accepts it accepts with anything appended, and then leaves that much more. Numbers alone need to be
  // followed by something.

  function More<T>(r: Scanned<T>, t: string): Scanned<T> {
    if r.Malformed? then Malformed else Scanned(r.value, r.rest + t)
  }

  lemma {:induction false} SkipExtends(p: string, t: string)
    requires SkipSpace(p) != ""
    ensures SkipSpace(p + t) == SkipSpace(p) + t
  {
    assert (p + t)[0] == p[0];
    if p[0] in {' ', '\t', '\n', '\r'} {
      SkipExtends(p[1..], t);
      assert (p + t)[1..] == p[1..] + t;
    }
  }

  lemma TailExtends(p: string, t: string, n: nat)
    requires n <= |p|
    ensures (p + t)[n..] == p[n..] + t
    ensures forall i :: 0 <= i < |p| ==> (p + t)[i] == p[i]
  {
  }

  // ---------------------------------------------------------------------------------------------
  // Strings

  predicate NoAscii(s: string) {
    forall i :: 0 <= i < |s| ==> s[i] as int >= 0x80
  }

  lemma {:induction false} NoAsciiNoQuote(s: string)
    requires NoAscii(s)
    ensures ScanString(s).Malformed?
    decreases |s|
  {
    if s != "" {
      NoAsciiNoQuote(if RuneLen(s) == 0 then s[1..] else s[RuneLen(s)..]);
    }
  }

  /** A rune that only the bytes appended complete has no closing quote after its first byte. */
  lemma RuneExtends(p: string, t: string)
    requires p != ""
    ensures RuneLen(p) > 0 ==> RuneLen(p + t) == RuneLen(p)
    ensures RuneLen(p) == 0 ==> RuneLen(p + t) == 0 || NoAscii(p[1..])
  {
    if RuneLen(p) > 0 {
      RuneLenIsLocal(p, p[RuneLen(p)..] + t);
      assert p[..RuneLen(p)] + (p[RuneLen(p)..] + t) == p + t;
    }
  }

  lemma CodeUnitExtends(s: string, t: string)
    requires |s| >= 4
    ensures CodeUnit(s + t) == CodeUnit(s)
  {
  }

  /** An escape that only the characters appended complete is malformed without them. */
  lemma LowExtends(q: string, t: string)
    ensures LowAfter(q + t) == LowAfter(q) || ScanString(q).Malformed?
  {
    if |q| >= 6 {
      TailExtends(q, t, 2);
      CodeUnitExtends(q[2..], t);
    } else if q != "" && q[0] == '\\' && (|q| == 1 || q[1] == 'u') {
      assert |q| > 1 ==> CodeUnit(q[2..]) < 0;
    }
  }

  lemma {:induction false} StringExtends(p: string, t: string)
    requires ScanString(p).Scanned?
    ensures ScanString(p + t) == More(ScanString(p), t)
    decreases |p|
  {
    var s := p + t;
    TailExtends(p, t, 1);
    if p[0] == '"' {
    } else if p[0] == '\\' {
      TailExtends(p, t, 2);
      if Simple(p[1]).Some? {
        StringExtends(p[2..], t);
      } else {
        EscapeExtends(p, t);
      }
    } else {
      RuneExtends(p, t);
      if RuneLen(p) == 0 {
        if NoAscii(p[1..]) {
          NoAsciiNoQuote(p[1..]);
        }
        StringExtends(p[1..], t);
      } else {
        TailExtends(p, t, RuneLen(p));
        StringExtends(p[RuneLen(p)..], t);
        assert s[..RuneLen(p)] == p[..RuneLen(p)];
      }
    }
  }

  lemma {:induction false} EscapeExtends(p: string, t: string)
    requires |p| >= 2 && p[0] == '\\' && Simple(p[1]).None? && ScanString(p).Scanned?
    ensures ScanString(p + t) == More(ScanString(p), t)
    decreases |p|, 0
  {
    hide CodeUnit, EncodeRune;
    var s := p + t;
    assert p[1] == 'u' && |p| >= 6 && CodeUnit(p[2..]) >= 0 by { CodeUnitNeedsFour(p[2..]); }
    TailExtends(p, t, 2);
    TailExtends(p, t, 6);
    CodeUnitExtends(p[2..], t);
    LowExtends(p[6..], t);
    var r, low := CodeUnit(p[2..]), LowAfter(p[6..]);
    if IsHigh(r) && IsLow(low) {
      TailExtends(p, t, 12);
      StringExtends(p[12..], t);
    } else {
      StringExtends(p[6..], t);
    }
  }

  lemma CodeUnitNeedsFour(s: string)
    ensures CodeUnit(s) >= 0 ==> |s| >= 4
  {
  }

  // ---------------------------------------------------------------------------------------------
  // Numbers

  lemma {:induction false} RunExtends(p: string, t: string)
    requires DigitRun(p) < |p|
    ensures DigitRun(p + t) == DigitRun(p)
  {
    assert (p + t)[0] == p[0];
    if IsDigit(p[0]) {
      RunExtends(p[1..], t);
      assert (p + t)[1..] == p[1..] + t;
    }
  }

  lemma FractionExtends(p: string, t: string)
    requires AfterFraction(p).Some? && AfterFraction(p).value != ""
    ensures AfterFraction(p + t) == Some(AfterFraction(p).value + t)
  {
    TailExtends(p, t, 1);
    if p[0] == '.' {
      var n := DigitRun(p[1..]);
      RunExtends(p[1..], t);
      TailExtends(p, t, 1 + n);
    }
  }

  lemma ExponentExtends(p: string, t: string)
    requires AfterExponent(p).Some? && AfterExponent(p).value != ""
    ensures AfterExponent(p + t) == Some(AfterExponent(p).value + t)
  {
    TailExtends(p, t, 1);
    if p[0] == 'e' || p[0] == 'E' {
      assert p[1..] != "";
      var k := if StartsWith(p[1..], '+') || StartsWith(p[1..], '-') then 2 else 1;
      var n := DigitRun(p[k..]);
      assert StartsWith(p[1..], '+') == StartsWith((p + t)[1..], '+');
      assert StartsWith(p[1..], '-') == StartsWith((p + t)[1..], '-');
      TailExtends(p, t, k);
      RunExtends(p[k..], t);
      TailExtends(p[k..], t, n);
    }
  }

  /** A number that something follows ends there. */
  lemma NumberExtends(p: string, t: string)
    requires ScanNumber(p).Scanned? && ScanNumber(p).rest != ""
    ensures ScanNumber(p + t) == More(ScanNumber(p), t)
  {
    hide AfterFraction, AfterExponent, ParseInt;
    var s, sign := p + t, if StartsWith(p, '-') then 1 else 0;
    assert p != "" && s[0] == p[0];
    TailExtends(p, t, sign);
    assert p[sign..] != "" && s[sign] == p[sign];
    var n := if StartsWith(p[sign..], '0') then 1 else DigitRun(p[sign..]);
    var tail := p[sign + n..];
    NoRestFromNothing();
    assert tail != "";
    if !StartsWith(p[sign..], '0') {
      RunExtends(p[sign..], t);
    }
    TailExtends(p, t, sign + n);
    var f := AfterFraction(tail);
    assert f.value != "";
    FractionExtends(tail, t);
    ExponentExtends(f.value, t);
    var rest := AfterExponent(f.value).value;
    assert s[..|s| - |rest + t|] == p[..|p| - |rest|];
  }

  lemma NoRestFromNothing()
    ensures AfterFraction("") == Some("") && AfterExponent("") == Some("")
  {
  }

  // ---------------------------------------------------------------------------------------------
  // Values

  lemma PrefixExtends(p: string, t: string, w: string)
    requires HasPrefix(p, w)
    ensures HasPrefix(p + t, w)
  {
    assert (p + t)[..|w|] == p[..|w|];
  }

  lemma LiteralExtends(p: string, t: string, w: string)
    requires w in {"null", "true", "false"} && HasPrefix(p, w)
    ensures HasPrefix(p + t, w)
    ensures w != "null" ==> !HasPrefix(p + t, "null")
    ensures w == "false" ==> !HasPrefix(p + t, "true")
  {
    PrefixExtends(p, t, w);
    assert (p + t)[0] == (p + t)[..|w|][0] == w[0];
    PrefixStarts(p + t, "null");
    PrefixStarts(p + t, "true");
  }

  lemma NumberIsNoLiteral(p: string, t: string)
    requires ScanNumber(p).Scanned?
    ensures p != "" && (p[0] == '-' || IsDigit(p[0]))
  {
  }

  lemma {:induction false} ValueExtends(p: string, t: string, depth: nat)
    requires ScanValue(p, depth).Scanned? && ScanValue(p, depth).rest != ""
    ensures ScanValue(p + t, depth) == More(ScanValue(p, depth), t)
    decreases |p|, 0
  {
    hide ScanString, ScanNumber;
    var u := SkipSpace(p);
    NothingScanned(p, depth);
    SkipExtends(p, t);
    if u[0] == '"' || u[0] == '{' || u[0] == '[' {
      TailExtends(u, t, 1);
      if u[0] == '"' {
        StringExtends(u[1..], t);
      } else if u[0] == '{' {
        ObjectExtends(u[1..], t, depth + 1);
      } else {
        ArrayExtends(u[1..], t, depth + 1);
      }
    } else {
      PlainExtends(p, t, depth);
    }
  }

  lemma NothingScanned(p: string, depth: nat)
    requires ScanValue(p, depth).Scanned?
    ensures SkipSpace(p) != ""
  {
  }

  lemma PlainExtends(p: string, t: string, depth: nat)
    requires ScanValue(p, depth).Scanned? && ScanValue(p, depth).rest != ""
    requires var u := SkipSpace(p); u != "" && u[0] != '"' && u[0] != '{' && u[0] != '['
    ensures ScanValue(p + t, depth) == More(ScanValue(p, depth), t)
  {
    hide ScanString, ScanNumber, ScanObject, ScanArray;
    var u := SkipSpace(p);
    SkipExtends(p, t);
    assert (u + t)[0] == u[0];
    if HasPrefix(u, "null") {
      LiteralExtends(u, t, "null");
      TailExtends(u, t, 4);
    } else if HasPrefix(u, "true") {
      LiteralExtends(u, t, "true");
      TailExtends(u, t, 4);
    } else if HasPrefix(u, "false") {
      LiteralExtends(u, t, "false");
      TailExtends(u, t, 5);
    } else {
      NumberIsNoLiteral(u, t);
      PrefixStarts(u + t, "null");
      PrefixStarts(u + t, "true");
      PrefixStarts(u + t, "false");
      NumberExtends(u, t);
    }
  }

  lemma {:induction false} ObjectExtends(p: string, t: string, depth: nat)
    requires ScanObject(p, depth).Scanned?
    ensures ScanObject(p + t, depth) == More(ScanObject(p, depth), t)
    decreases |p|, 3
  {
    hide ScanFields;
    var u := SkipSpace(p);
    if u == "" {
      EmptyHasNoFields(u, depth);
      assert false;
    }
    SkipExtends(p, t);
    TailExtends(u, t, 1);
    if u[0] != '}' {
      FieldsExtend(u, t, depth);
    }
  }

  lemma EmptyHasNoFields(p: string, depth: nat)
    ensures p == "" ==> ScanFields(p, depth).Malformed? && ScanElements(p, depth).Malformed?
  {
    if p == "" {
      assert SkipSpace(p) == "";
      assert ScanField(p, depth).Malformed?;
      assert ScanValue(p, depth).Malformed?;
    }
  }

  lemma {:induction false} FieldExtends(p: string, t: string, depth: nat)
    requires ScanField(p, depth).Scanned? && ScanField(p, depth).rest != ""
    ensures ScanField(p + t, depth) == More(ScanField(p, depth), t)
    decreases |p|, 1
  {
    hide ScanString, ScanValue;
    var u := SkipSpace(p);
    SkipExtends(p, t);
    TailExtends(u, t, 1);
    StringExtends(u[1..], t);
    var key := ScanString(u[1..]);
    var v := SkipSpace(key.rest);
    SkipExtends(key.rest, t);
    TailExtends(v, t, 1);
    ValueExtends(v[1..], t, depth);
  }

  lemma {:induction false} FieldsExtend(p: string, t: string, depth: nat)
    requires ScanFields(p, depth).Scanned?
    ensures ScanFields(p + t, depth) == More(ScanFields(p, depth), t)
    decreases |p|, 2
  {
    hide ScanField;
    var f := ScanField(p, depth);
    var u := SkipSpace(f.rest);
    FieldExtends(p, t, depth);
    SkipExtends(f.rest, t);
    TailExtends(u, t, 1);
    if u[0] == ',' {
      FieldsExtend(u[1..], t, depth);
    }
  }

  lemma {:induction false} ArrayExtends(p: string, t: string, depth: nat)
    requires ScanArray(p, depth).Scanned?
    ensures ScanArray(p + t, depth) == More(ScanArray(p, depth), t)
    decreases |p|, 3
  {
    hide ScanElements;
    var u := SkipSpace(p);
    if u == "" {
      EmptyHasNoFields(u, depth);
      assert false;
    }
    SkipExtends(p, t);
    TailExtends(u, t, 1);
    if u[0] != ']' {
      ElementsExtend(u, t, depth);
    }
  }

  lemma {:induction false} ElementsExtend(p: string, t: string, depth: nat)
    requires ScanElements(p, depth).Scanned?
    ensures ScanElements(p + t, depth) == More(ScanElements(p, depth), t)
    decreases |p|, 2
  {
    hide ScanValue;
    var v := ScanValue(p, depth);
    var u := SkipSpace(v.rest);
    ValueExtends(p, t, depth);
    SkipExtends(v.rest, t);
    TailExtends(u, t, 1);
    if u[0] == ',' {
      ElementsExtend(u[1..], t, depth);
    }
  }

  // ---------------------------------------------------------------------------------------------
  // Frames

  /** A text that reads as one object, and nothing behind it, is no longer JSON once anything is cut off. */
  lemma CutObject(s: string, k: nat)
    requires k < |s| && s[0] == '{' && ScanValue(s, 0).Scanned? && ScanValue(s, 0).rest == ""
    ensures DecodeJson(s[..k]).None?
  {
    var p, t := s[..k], s[k..];
    assert p + t == s;
    if DecodeJson(p).Some? {
      NothingScanned(p, 0);
      hide ScanObject, DecodeJson, ScanString, ScanNumber;
      StillAnObject(p);
      TailExtends(p, t, 1);
      ObjectExtends(p[1..], t, 1);
      StillAnObject(s);
    }
  }

  lemma StillAnObject(s: string)
    requires s != "" && s[0] == '{'
    ensures ScanValue(s, 0) == ScanObject(s[1..], 1)
  {
    hide ScanObject;
    assert SkipSpace(s) == s;
  }

  /** However a failing Write cuts a frame short, what is left is no JSON text. */
  lemma CutFrameIsNotJson(m: Message, k: nat)
    requires InRange(m) && k < |Frame(m)|
    ensures DecodeJson(Frame(m)[..k]).None?
  {
    hide Fields, PrintObject, DecodeJson, ScanValue, InRange;
    FieldsArePrintable(m);
    ObjectIsWhole(Fields(m));
    CutObject(Frame(m), k);
  }

  /** What is left of a frame, at the end of the input. */
  predicate IsTail(part: string) {
    NewlineIn(part) == |part| < MAX_TOKEN && DropCR(part) == part
  }

  lemma OneFrameMore(f: string, rest: string)
    requires IsLine(f) && |f| < MAX_TOKEN
    ensures ReadAll(f + "\n" + rest) == Reading([f] + ReadAll(rest).tokens, ReadAll(rest).end)
  {
    hide NextToken, IsLine;
    FrameIsRead(f, rest);
  }

  lemma {:induction false} TailIsRead(frames: seq<string>, part: string)
    requires forall i :: 0 <= i < |frames| ==> IsLine(frames[i]) && |frames[i]| < MAX_TOKEN
    requires IsTail(part)
    ensures ReadAll(Stream(frames) + part) == Reading(frames + (if part == "" then [] else [part]), Eof)
  {
    hide ReadAll, IsLine, IsTail;
    var more := if part == "" then [] else [part];
    if frames == [] {
      OnlyTheTail(part);
      assert "" + part == part && [] + more == more;
    } else {
      OneFrameMore(frames[0], Stream(frames[1..]) + part);
      TailIsRead(frames[1..], part);
      assert Stream(frames) + part == frames[0] + "\n" + (Stream(frames[1..]) + part);
      assert [frames[0]] + (frames[1..] + more) == frames + more;
    }
  }

  lemma OnlyTheTail(part: string)
    requires IsTail(part)
    ensures ReadAll(part) == Reading(if part == "" then [] else [part], Eof)
  {
    if part != "" {
      InputEnds(part);
      assert part + "" == part;
      assert ReadAll("") == Reading([], Eof);
    }
  }

  lemma CutIsTail(m: Message, reach: nat)
    requires |Frame(m)| < MAX_TOKEN && reach <= |Frame(m)|
    ensures IsTail(Frame(m)[..reach])
  {
    hide PrintObject, Fields;
    ObjectIsOneLine(Fields(m));
    NoControlsNoNewline(Frame(m)[..reach]);
  }

  /**
   What a failed Encode leaves behind. Whatever was sent before is read; the message of the failed Encode is read exactly
   when nothing but its newline was lost, and nothing else ever takes effect. The client takes it as not sent either way.
  */
  lemma FailedEncodeIsRead(ms: seq<Message>, m: Message, reach: nat)
    requires Fits(m) && reach <= |Frame(m)| && forall i :: 0 <= i < |ms| ==> Fits(ms[i])
    ensures var r := ReadAll(Stream(Map(ms, FrameOf())) + Frame(m)[..reach]);
      && r.end == Eof && |ms| <= |r.tokens|
      && (forall i :: 0 <= i < |ms| ==> r.tokens[i] == Frame(ms[i]))
      && JsonRun(r.tokens) == |ms| + (if reach == |Frame(m)| then 1 else 0)
      && (reach == |Frame(m)| ==> |r.tokens| == |ms| + 1 && r.tokens[|ms|] == Frame(m))
  {
    hide Frame, IsLine, IsTail, DecodeJson, ReadAll, InRange;
    var frames, part := Map(ms, FrameOf()), Frame(m)[..reach];
    forall i | 0 <= i < |ms|
      ensures IsLine(frames[i]) && |frames[i]| < MAX_TOKEN && frames[i] == Frame(ms[i]) && DecodeJson(frames[i]).Some?
    {
      assert Fits(ms[i]);
      FrameIsLine(ms[i]);
      FrameIsJson(ms[i]);
    }
    CutIsTail(m, reach);
    TailIsRead(frames, part);
    var tokens := frames + if part == "" then [] else [part];
    if reach < |Frame(m)| {
      CutFrameIsNotJson(m, reach);
      JsonRunIs(tokens, |ms|);
    } else {
      FrameIsJson(m);
      assert part == Frame(m);
      JsonRunIs(tokens, |ms| + 1);
    }
  }

  lemma FrameIsJson(m: Message)
    requires InRange(m)
    ensures DecodeJson(Frame(m)).Some? && Frame(m) != ""
  {
    hide Fields, PrintObject, DecodeJson, InRange;
    FieldsArePrintable(m);
    ObjectRoundTrip(Fields(m));
    ObjectIsWhole(Fields(m));
  }
}
