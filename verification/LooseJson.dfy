/** JSON as other programs may write it: spaces anywhere between tokens, keys in any case, fields set to null. */
module LooseJson {
  import opened Seqs
  import opened Json
  import opened Codec

  /** A field with whatever space stands before its key, before and after its colon, and after its value. */
  datatype Loose = Loose(field: Field, key: string, colon: string, value: string, end: string)

  predicate IsGap(s: string) {
    forall i :: 0 <= i < |s| ==> s[i] in {' ', '\t', '\n', '\r'}
  }

  predicate LegalField(l: Loose) {
    Printable(l.field.value) && IsGap(l.key) && IsGap(l.colon) && IsGap(l.value) && IsGap(l.end)
  }

  predicate Legal(ls: seq<Loose>) {
    forall i :: 0 <= i < |ls| ==> LegalField(ls[i])
  }

  function FieldsOf(ls: seq<Loose>): seq<Field> {
    Map(ls, (l: Loose) => l.field)
  }

  /** From the key on: the space before it is the reader's to skip. */
  function FieldText(l: Loose): string
    requires Flat(l.field.value)
  {
    Quoted(l.field.key) + (l.colon + (":" + (l.value + (PrintValue(l.field.value) + l.end))))
  }

  function FieldsText(ls: seq<Loose>): string
    requires ls != [] && Legal(ls)
  {
    ls[0].key + FieldText(ls[0]) + if |ls| == 1 then "}" else "," + FieldsText(ls[1..])
  }

  /** The object, with the spaces around it. */
  function ObjectText(before: string, ls: seq<Loose>, after: string): string
    requires ls != [] && Legal(ls)
  {
    before + ("{" + (FieldsText(ls) + after))
  }

  lemma {:induction false} GapIsSkipped(gap: string, s: string)
    requires IsGap(gap) && s != "" && !IsSpace(s[0])
    ensures SkipSpace(gap + s) == s
  {
    if gap == "" {
      assert gap + s == s;
    } else {
      assert (gap + s)[0] == gap[0] && (gap + s)[1..] == gap[1..] + s;
      GapIsSkipped(gap[1..], s);
    }
  }

  lemma {:induction false} OnlyGap(gap: string)
    requires IsGap(gap)
    ensures SkipSpace(gap) == ""
  {
    if gap != "" { OnlyGap(gap[1..]); }
  }

  lemma {:induction false} SkipTwice(s: string)
    ensures SkipSpace(SkipSpace(s)) == SkipSpace(s)
  {
    if s != "" && IsSpace(s[0]) { SkipTwice(s[1..]); }
  }

  lemma GapThenValue(gap: string, s: string, depth: nat)
    requires IsGap(gap) && s != "" && !IsSpace(s[0])
    ensures ScanValue(gap + s, depth) == ScanValue(s, depth)
  {
    GapIsSkipped(gap, s);
    GapIsSkipped("", s);
    assert "" + s == s;
    hide ScanObject, ScanArray, ScanNumber, ScanString, HasPrefix, SkipSpace;
  }

  lemma ValueStarts(v: Value, rest: string)
    requires Flat(v)
    ensures PrintValue(v) + rest != "" && !IsSpace((PrintValue(v) + rest)[0])
  {
    if v.Num? {
      IntStartsPlainly(v.n);
    }
  }

  lemma EndDelimits(end: string, rest: string)
    requires IsGap(end) && (rest == "" || rest[0] == ',' || rest[0] == '}')
    ensures Delimited(end + rest)
  {
    assert end == "" ==> end + rest == rest;
    assert end != "" ==> (end + rest)[0] == end[0];
  }

  lemma LooseFieldIsRead(l: Loose, rest: string, depth: nat)
    requires LegalField(l) && (rest == "" || rest[0] == ',' || rest[0] == '}')
    ensures ScanField(l.key + (FieldText(l) + rest), depth)
        == Scanned(Field(Sanitized(l.field.key), CleanValue(l.field.value)), l.end + rest)
  {
    var v := PrintValue(l.field.value) + (l.end + rest);
    var c := ":" + (l.value + v);
    var q := Quoted(l.field.key) + (l.colon + c);
    EndDelimits(l.end, rest);
    ValueIsRead(l.field.value, l.end + rest, depth);
    ValueStarts(l.field.value, l.end + rest);
    GapThenValue(l.value, v, depth);
    QuotedIsRead(l.field.key, l.colon + c);
    assert c[0] == ':' && c[1..] == l.value + v;
    assert q[0] == '"';
    GapIsSkipped(l.colon, c);
    GapIsSkipped(l.key, q);
    Regrouped(l, rest);
    hide Quoted, PrintValue, ScanValue, ScanString, SkipSpace, FieldText, CleanValue, Sanitized;
  }

  lemma Regrouped(l: Loose, rest: string)
    requires Flat(l.field.value)
    ensures FieldText(l) + rest
        == Quoted(l.field.key) + (l.colon + (":" + (l.value + (PrintValue(l.field.value) + (l.end + rest)))))
  {
    hide Quoted, PrintValue;
    var v, q := PrintValue(l.field.value), Quoted(l.field.key);
    assert v + l.end + rest == v + (l.end + rest);
    assert (l.value + (v + l.end)) + rest == l.value + ((v + l.end) + rest);
    assert (":" + (l.value + (v + l.end))) + rest == ":" + ((l.value + (v + l.end)) + rest);
    assert (l.colon + (":" + (l.value + (v + l.end)))) + rest == l.colon + ((":" + (l.value + (v + l.end))) + rest);
  }

  lemma {:induction false} LooseFieldsAreRead(ls: seq<Loose>, rest: string, depth: nat)
    requires ls != [] && Legal(ls)
    ensures ScanFields(FieldsText(ls) + rest, depth) == Scanned(Clean(FieldsOf(ls)), rest)
    decreases |ls|
  {
    hide LegalField, ScanField, FieldText, SkipSpace, CleanValue, Sanitized, FieldsText, FieldsOf, Clean;
    var l, tail := ls[0], Tail(ls, rest);
    FieldsSplit(ls, rest);
    LooseFieldIsRead(l, tail, depth);
    EndIsGap(l);
    GapIsSkipped(l.end, tail);
    CleanFirst(ls);
    var f := ScanField(FieldsText(ls) + rest, depth);
    assert f.Scanned? && SkipSpace(f.rest) == tail;
    if |ls| > 1 {
      LooseFieldsAreRead(ls[1..], rest, depth);
      assert !StartsWith(tail, '}') && StartsWith(tail, ',');
      assert ScanFields(tail[1..], depth) == Scanned(Clean(FieldsOf(ls[1..])), rest);
    } else {
      assert Clean(FieldsOf(ls)) == [f.value];
    }
  }

  lemma EndIsGap(l: Loose)
    requires LegalField(l)
    ensures IsGap(l.end)
  {
  }

  /** What stands behind the first field. */
  function Tail(ls: seq<Loose>, rest: string): (t: string)
    requires ls != [] && Legal(ls)
    ensures t != "" && t[0] == (if |ls| == 1 then '}' else ',')
    ensures t[1..] == if |ls| == 1 then rest else FieldsText(ls[1..]) + rest
  {
    if |ls| == 1 then "}" + rest else "," + (FieldsText(ls[1..]) + rest)
  }

  lemma FieldsSplit(ls: seq<Loose>, rest: string)
    requires ls != [] && Legal(ls)
    ensures FieldsText(ls) + rest == ls[0].key + (FieldText(ls[0]) + Tail(ls, rest))
  {
    assert LegalField(ls[0]);
    hide FieldText, LegalField;
    var key, text := ls[0].key, FieldText(ls[0]);
    if |ls| == 1 {
      Associates(key, text, "}", rest);
    } else {
      var more := FieldsText(ls[1..]);
      Associates(key, text, "," + more, rest);
      Associates(key, ",", more, rest);
    }
  }

  lemma Associates<T>(a: seq<T>, b: seq<T>, c: seq<T>, d: seq<T>)
    ensures a + b + c + d == a + (b + (c + d))
    ensures b + c + d == b + (c + d)
  {
  }

  lemma CleanFirst(ls: seq<Loose>)
    requires ls != []
    ensures Clean(FieldsOf(ls)) ==
        [Field(Sanitized(ls[0].field.key), CleanValue(ls[0].field.value))] + Clean(FieldsOf(ls[1..]))
    ensures |ls| == 1 ==> Clean(FieldsOf(ls[1..])) == []
  {
    hide Sanitized, CleanValue;
  }

  /** However it is spaced, an object reads back as its fields. */
  lemma LooseObjectIsRead(before: string, ls: seq<Loose>, after: string)
    requires ls != [] && Legal(ls) && IsGap(before) && IsGap(after)
    ensures DecodeJson(ObjectText(before, ls, after)) == Some(Object(Clean(FieldsOf(ls))))
  {
    var body := FieldsText(ls) + after;
    var s := "{" + body;
    assert s[0] == '{' && s[1..] == body;
    GapThenValue(before, s, 0);
    ObjectIsRead(s, body, 0);
    LooseFieldsAreRead(ls, after, 1);
    OnlyGap(after);
    SkipsToKey(ls, after);
    hide ScanFields, ScanValue, SkipSpace, FieldsText;
  }

  lemma SkipsToKey(ls: seq<Loose>, after: string)
    requires ls != [] && Legal(ls)
    ensures var t := SkipSpace(FieldsText(ls) + after);
      t != "" && t[0] != '}' && ScanFields(t, 1) == ScanFields(FieldsText(ls) + after, 1)
  {
    var l := ls[0];
    var q := FieldText(l) + Tail(ls, after);
    FieldsSplit(ls, after);
    assert q[0] == '"';
    GapIsSkipped(l.key, q);
    SkipTwice(l.key + q);
    hide SkipSpace, FieldText, FieldsText, ScanString, ScanValue;
  }

  /** Arrays in arrays. */
  function Nested(n: nat): string {
    if n <= 1 then "[]" else "[" + (Nested(n - 1) + "]")
  }

  lemma NestedStarts(n: nat)
    ensures Nested(n) != "" && Nested(n)[0] == '['
  {
  }

  lemma ArrayIsChosen(s: string, depth: nat)
    requires s != "" && s[0] == '['
    ensures ScanValue(s, depth) == if depth >= MAX_DEPTH then Malformed else ScanArray(s[1..], depth + 1)
  {
    hide ScanArray;
    assert SkipSpace(s) == s;
  }

  lemma {:induction false} NestedIsRead(n: nat, rest: string, depth: nat)
    requires n >= 1
    ensures ScanValue(Nested(n) + rest, depth) == if depth + n <= 10000 then Scanned(Opaque, rest) else Malformed
    decreases n
  {
    var s := Nested(n) + rest;
    NestedStarts(n);
    ArrayIsChosen(s, depth);
    if n == 1 {
      assert s[1..] == "]" + rest && s[2..] == rest;
      assert SkipSpace(s[1..]) == s[1..];
    } else {
      var inner := Nested(n - 1) + ("]" + rest);
      NestedStarts(n - 1);
      assert s[1..] == inner;
      assert SkipSpace(inner) == inner && inner[0] == '[';
      assert SkipSpace("]" + rest) == "]" + rest && ("]" + rest)[1..] == rest;
      NestedIsRead(n - 1, "]" + rest, depth + 1);
      hide ScanValue, SkipSpace, Nested;
    }
  }

  /** Nesting is read to a depth of 10000, and a frame that nests deeper is not JSON. */
  lemma NestingLimit(n: nat)
    requires n >= 1
    ensures DecodeJson(Nested(n)).Some? <==> n <= 10000
  {
    NestedIsRead(n, "", 0);
    assert Nested(n) + "" == Nested(n);
    hide ScanValue, Nested;
  }

  // ---------------------------------------------------------------------------------------------
  // What takes effect

  /** ASCII letters fold to lower case, everything else in ASCII stands for itself. */
  lemma {:induction false} FoldedIsLower(s: string)
    requires IsAscii(s)
    ensures |Folded(s)| == |s|
    ensures forall i :: 0 <= i < |s| ==>
        Folded(s)[i] as int == if 65 <= s[i] as int <= 90 then s[i] as int + 32 else s[i] as int
  {
    if s != "" {
      FoldedIsLower(s[1..]);
    }
  }

  lemma {:induction false} EffectiveConcat(a: seq<Field>, b: seq<Field>)
    ensures Effective(a + b) == Effective(a) + Effective(b)
  {
    if b == [] {
      assert a + b == a;
    } else {
      assert (a + b)[..|a + b| - 1] == a + b[..|b| - 1];
      EffectiveConcat(a, b[..|b| - 1]);
    }
  }

  /** A field set to null is as good as absent, wherever it stands. */
  lemma NullsChangeNothing(a: seq<Field>, key: string, b: seq<Field>)
    ensures Effective(a + [Field(key, Null)] + b) == Effective(a + b)
  {
    var n := [Field(key, Null)];
    assert Effective(n) == [];
    EffectiveConcat(a + n, b);
    EffectiveConcat(a, n);
    EffectiveConcat(a, b);
  }

  /** And keys count up to case. */
  lemma {:induction false} CaseChangesNothing(fs: seq<Field>, gs: seq<Field>)
    requires |fs| == |gs|
    requires forall i :: 0 <= i < |fs| ==> Folded(fs[i].key) == Folded(gs[i].key) && fs[i].value == gs[i].value
    ensures Effective(fs) == Effective(gs)
  {
    if fs != [] {
      CaseChangesNothing(fs[..|fs| - 1], gs[..|gs| - 1]);
    }
  }

  /** The kinds of message, and what each wants of which field: text, or a 64-bit integer. */
  function TextFields(kind: string): set<string> {
    match kind
    case "session_start" => {"service", "command"}
    case "log" => {"service", "session", "stream", "message"}
    case "session_end" => {"session"}
    case "query" => {"command", "service", "query", "since"}
    case "session_start_reply" => {"session_id"}
    case _ => {}
  }

  function NumberFields(kind: string): set<string> {
    match kind
    case "session_start" => {"pid", "timestamp"}
    case "log" => {"timestamp"}
    case "session_end" => {"timestamp", "exit_code"}
    case "query" => {"limit"}
    case _ => {}
  }

  /** A message is understood exactly when its kind is known and every field of that kind has the right type. */
  lemma UnderstoodIffTyped(fs: seq<Field>)
    ensures var kind := StrOf(fs, "type");
      FromFields(fs).Some? <==>
        && (forall i :: 0 <= i < |fs| && fs[i].key == "type" ==> fs[i].value.Str?)
        && kind in {"session_start", "log", "session_end", "query", "session_start_reply"}
        && (forall i :: 0 <= i < |fs| && fs[i].key in TextFields(kind) ==> fs[i].value.Str?)
        && (forall i :: 0 <= i < |fs| && fs[i].key in NumberFields(kind) ==> fs[i].value.Num?)
  {
    hide Lookup, StrOf, NumOf;
    TypedMeans(fs, {"type"}, {});
    TypedMeans(fs, TextFields(StrOf(fs, "type")), NumberFields(StrOf(fs, "type")));
  }

  lemma TypedMeans(fs: seq<Field>, strings: set<string>, numbers: set<string>)
    ensures Typed(fs, strings, numbers) <==>
        && (forall i :: 0 <= i < |fs| && fs[i].key in strings ==> fs[i].value.Str?)
        && (forall i :: 0 <= i < |fs| && fs[i].key in numbers ==> fs[i].value.Num?)
  {
  }

  /** A message however it was spaced, cased and padded with nulls. */
  lemma LooseMessageIsRead(before: string, ls: seq<Loose>, after: string, m: Message)
    requires ls != [] && Legal(ls) && IsGap(before) && IsGap(after)
    requires Effective(Clean(FieldsOf(ls))) == Fields(m)
    ensures DecodeMessage(ObjectText(before, ls, after)) == Some(m)
  {
    hide Fields, FromFields, Effective, ObjectText, DecodeJson;
    LooseObjectIsRead(before, ls, after);
    MessageIsRead(m);
  }
}
