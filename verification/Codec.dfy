/**
 internal/protocol: newline-delimited JSON messages. The flat messages are printed field by field as
 json.Marshal does and read back as DecodeMessage does; the Decoder is bufio.Scanner over any chunking.
*/
module Codec {
  import opened Seqs
  import opened Decimal
  import opened Json
  import opened Records
  import O = Ownership

  datatype Message =
    | SessionStart(start: O.StartMessage)
    | Log(log: LogMessage)
    | SessionEnd(session: string, timestamp: int, exitCode: int)
    | Query(command: string, service: string, limit: int, query: string, since: string)
    | SessionStartReply(sessionId: string)

  /** omitempty leaves the field out. */
  function OmitEmpty(key: string, s: string): (r: seq<Field>)
    ensures AllFlat(r)
  {
    if s == "" then [] else [Field(key, Str(s))]
  }

  function OmitZero(key: string, n: int): (r: seq<Field>)
    ensures AllFlat(r)
  {
    if n == 0 then [] else [Field(key, Num(n))]
  }

  function Fields(m: Message): (r: seq<Field>)
    ensures AllFlat(r)
  {
    match m
    case SessionStart(s) =>
      [Field("type", Str("session_start")), Field("service", Str(s.service)), Field("pid", Num(s.pid)),
       Field("command", Str(s.command)), Field("timestamp", Num(s.timestamp))]
    case Log(l) =>
      [Field("type", Str("log")), Field("service", Str(l.service)), Field("session", Str(l.session)),
       Field("timestamp", Num(l.timestamp)), Field("stream", Str(l.stream)), Field("message", Str(l.message))]
    case SessionEnd(session, ts, code) =>
      [Field("type", Str("session_end")), Field("session", Str(session)), Field("timestamp", Num(ts)),
       Field("exit_code", Num(code))]
    case Query(command, service, limit, query, since) =>
      [Field("type", Str("query")), Field("command", Str(command))] + OmitEmpty("service", service)
      + OmitZero("limit", limit) + OmitEmpty("query", query) + OmitEmpty("since", since)
    case SessionStartReply(id) =>
      [Field("type", Str("session_start_reply")), Field("session_id", Str(id))]
  }

  /** Go's case folding of a key: ASCII letters, the long s (U+017F) and the Kelvin sign (U+212A). */
  function Folded(key: string): string {
    if key == "" then ""
    else if 'A' <= key[0] <= 'Z' then [(key[0] as int + 32) as char] + Folded(key[1..])
    else if Between(key, 0, 0xc5, 0xc5) && Between(key, 1, 0xbf, 0xbf) then "s" + Folded(key[2..])
    else if Between(key, 0, 0xe2, 0xe2) && Between(key, 1, 0x84, 0x84) && Between(key, 2, 0xaa, 0xaa) then
      "k" + Folded(key[3..])
    else [key[0]] + Folded(key[1..])
  }

  /** What reaches the fields of a struct: keys match in any case, and a null changes nothing. */
  function Effective(fs: seq<Field>): seq<Field> {
    if fs == [] then []
    else
      var last := fs[|fs| - 1];
      Effective(fs[..|fs| - 1]) + if last.value.Null? then [] else [Field(Folded(last.key), last.value)]
  }

  /** The last field with this key decides; a missing one leaves the zero value. */
  function Lookup(fs: seq<Field>, key: string): Option<Value> {
    if fs == [] then None
    else if fs[|fs| - 1].key == key then Some(fs[|fs| - 1].value)
    else Lookup(fs[..|fs| - 1], key)
  }

  function StrOf(fs: seq<Field>, key: string): string {
    var v := Lookup(fs, key);
    if v.Some? && v.value.Str? then v.value.s else ""
  }

  function NumOf(fs: seq<Field>, key: string): int {
    var v := Lookup(fs, key);
    if v.Some? && v.value.Num? then v.value.n else 0
  }

  /** A string where a number belongs, or the other way round, is an error. */
  predicate Typed(fs: seq<Field>, strings: set<string>, numbers: set<string>) {
    forall i :: 0 <= i < |fs| ==>
      (fs[i].key in strings ==> fs[i].value.Str?) && (fs[i].key in numbers ==> fs[i].value.Num?)
  }

  /** DecodeMessage, once the frame has parsed; an unknown type is an error as well. */
  function FromFields(fs: seq<Field>): Option<Message> {
    if !Typed(fs, {"type"}, {}) then None
    else
      var kind := StrOf(fs, "type");
      if kind == "session_start" && Typed(fs, {"service", "command"}, {"pid", "timestamp"}) then
        Some(SessionStart(O.StartMessage(
          StrOf(fs, "service"), NumOf(fs, "pid"), StrOf(fs, "command"), NumOf(fs, "timestamp"))))
      else if kind == "log" && Typed(fs, {"service", "session", "stream", "message"}, {"timestamp"}) then
        Some(Log(LogMessage(
          StrOf(fs, "service"), StrOf(fs, "session"), NumOf(fs, "timestamp"), StrOf(fs, "stream"), StrOf(fs, "message"))))
      else if kind == "session_end" && Typed(fs, {"session"}, {"timestamp", "exit_code"}) then
        Some(SessionEnd(StrOf(fs, "session"), NumOf(fs, "timestamp"), NumOf(fs, "exit_code")))
      else if kind == "query" && Typed(fs, {"command", "service", "query", "since"}, {"limit"}) then
        Some(Query(StrOf(fs, "command"), StrOf(fs, "service"), NumOf(fs, "limit"), StrOf(fs, "query"), StrOf(fs, "since")))
      else if kind == "session_start_reply" && Typed(fs, {"session_id"}, {}) then
        Some(SessionStartReply(StrOf(fs, "session_id")))
      else None
  }

  function DecodeMessage(data: string): Option<Message> {
    var v := DecodeJson(data);
    if v.None? || !v.value.Object? then None else FromFields(Effective(v.value.fields))
  }

  function Frame(m: Message): string {
    PrintObject(Fields(m))
  }

  // ---------------------------------------------------------------------------------------------
  // On the wire

  predicate NeedsNoEscape(s: string) {
    forall i :: 0 <= i < |s| ==> IsPlain(s[i])
  }

  lemma {:induction false} PlainIsUnescaped(s: string)
    requires NeedsNoEscape(s)
    ensures Escape(s) == s
  {
    if s != "" {
      PlainIsUnescaped(s[1..]);
      assert s == [s[0]] + s[1..];
    }
  }

  lemma QuotedKey(key: string)
    requires NeedsNoEscape(key)
    ensures Quoted(key) == "\"" + key + "\""
  {
    PlainIsUnescaped(key);
  }

  function Joined(parts: seq<string>): string {
    if parts == [] then "" else if |parts| == 1 then parts[0] else parts[0] + "," + Joined(parts[1..])
  }

  /** One field of the printed object: its name as it is, and its value. */
  function Named(key: string, value: string): string {
    "\"" + key + "\":" + value
  }

  function Kind(kind: string): string {
    Named("type", "\"" + kind + "\"")
  }

  function Unless(omitted: bool, part: string): seq<string> {
    if omitted then [] else [part]
  }

  /** The protocol, message by message. */
  function WireFields(m: Message): seq<string> {
    match m
    case SessionStart(s) =>
      [Kind("session_start"), Named("service", Quoted(s.service)), Named("pid", FormatInt(s.pid)),
       Named("command", Quoted(s.command)), Named("timestamp", FormatInt(s.timestamp))]
    case Log(l) =>
      [Kind("log"), Named("service", Quoted(l.service)), Named("session", Quoted(l.session)),
       Named("timestamp", FormatInt(l.timestamp)), Named("stream", Quoted(l.stream)), Named("message", Quoted(l.message))]
    case SessionEnd(session, ts, code) =>
      [Kind("session_end"), Named("session", Quoted(session)), Named("timestamp", FormatInt(ts)),
       Named("exit_code", FormatInt(code))]
    case Query(command, service, limit, query, since) =>
      [Kind("query"), Named("command", Quoted(command))]
      + Unless(service == "", Named("service", Quoted(service))) + Unless(limit == 0, Named("limit", FormatInt(limit)))
      + Unless(query == "", Named("query", Quoted(query))) + Unless(since == "", Named("since", Quoted(since)))
    case SessionStartReply(id) =>
      [Kind("session_start_reply"), Named("session_id", Quoted(id))]
  }

  /** Field by field, the parts are what is printed. */
  ghost predicate Prints(fs: seq<Field>, parts: seq<string>) {
    && AllFlat(fs) && |fs| == |parts|
    && forall i :: 0 <= i < |fs| ==> PrintField(fs[i]) == parts[i]
  }

  lemma PrintsNamed(f: Field, value: string)
    requires Flat(f.value) && NeedsNoEscape(f.key) && value == PrintValue(f.value)
    ensures Prints([f], [Named(f.key, value)])
  {
    QuotedKey(f.key);
    hide PrintValue, Escape, Quoted, NeedsNoEscape;
    assert PrintField(f) == Named(f.key, value);
    hide PrintField, Named;
  }

  lemma PrintsConcat(a: seq<Field>, b: seq<Field>, p: seq<string>, q: seq<string>)
    requires Prints(a, p) && Prints(b, q)
    ensures Prints(a + b, p + q)
  {
    hide PrintField;
  }

  lemma {:induction false} PrintsJoined(fs: seq<Field>, parts: seq<string>)
    requires fs != [] && Prints(fs, parts)
    ensures PrintFields(fs) == Joined(parts)
  {
    hide PrintField;
    if |fs| > 1 {
      PrintsJoined(fs[1..], parts[1..]);
    }
  }

  lemma KeysNeedNoEscape()
    ensures NeedsNoEscape("type") && NeedsNoEscape("service") && NeedsNoEscape("pid") && NeedsNoEscape("command")
    ensures NeedsNoEscape("timestamp") && NeedsNoEscape("session") && NeedsNoEscape("stream") && NeedsNoEscape("message")
    ensures NeedsNoEscape("exit_code") && NeedsNoEscape("session_id") && NeedsNoEscape("limit") && NeedsNoEscape("query")
    ensures NeedsNoEscape("since")
  {
  }

  lemma TypesNeedNoEscape()
    ensures NeedsNoEscape("log") && NeedsNoEscape("session_start") && NeedsNoEscape("session_end")
    ensures NeedsNoEscape("query") && NeedsNoEscape("session_start_reply")
  {
  }

  lemma PrintsKind(kind: string)
    requires NeedsNoEscape(kind)
    ensures Prints([Field("type", Str(kind))], [Kind(kind)])
  {
    assert NeedsNoEscape("type");
    QuotedKey(kind);
    PrintsStr("type", kind);
  }

  lemma PrintsStr(key: string, s: string)
    requires NeedsNoEscape(key)
    ensures Prints([Field(key, Str(s))], [Named(key, Quoted(s))])
  {
    PrintsNamed(Field(key, Str(s)), Quoted(s));
  }

  lemma PrintsNum(key: string, n: int)
    requires NeedsNoEscape(key)
    ensures Prints([Field(key, Num(n))], [Named(key, FormatInt(n))])
  {
    PrintsNamed(Field(key, Num(n)), FormatInt(n));
  }

  lemma PrintsAll(fs: seq<Field>, parts: seq<string>)
    requires AllFlat(fs) && |fs| == |parts|
    requires forall i :: 0 <= i < |fs| ==> Prints([fs[i]], [parts[i]])
    ensures Prints(fs, parts)
  {
    hide PrintField;
    forall i | 0 <= i < |fs| ensures PrintField(fs[i]) == parts[i] {
      assert Prints([fs[i]], [parts[i]]) && PrintField([fs[i]][0]) == [parts[i]][0];
    }
  }

  lemma FlatFieldsPrint(m: Message)
    requires !m.Query?
    ensures Prints(Fields(m), WireFields(m))
  {
    KeysNeedNoEscape();
    TypesNeedNoEscape();
    hide Prints, Named, Kind, Quoted, NeedsNoEscape;
    forall i | 0 <= i < |Fields(m)| ensures Prints([Fields(m)[i]], [WireFields(m)[i]]) {
      var f := Fields(m)[i];
      if i == 0 {
        PrintsKind(f.value.s);
      } else if f.value.Str? {
        PrintsStr(f.key, f.value.s);
      } else {
        PrintsNum(f.key, f.value.n);
      }
    }
    PrintsAll(Fields(m), WireFields(m));
  }

  lemma NothingPrints()
    ensures Prints([], [])
  {
  }

  lemma OmitPrints(key: string, s: string)
    requires NeedsNoEscape(key)
    ensures Prints(OmitEmpty(key, s), Unless(s == "", Named(key, Quoted(s))))
  {
    NothingPrints();
    hide Prints;
    PrintsStr(key, s);
  }

  lemma OmitZeroPrints(key: string, n: int)
    requires NeedsNoEscape(key)
    ensures Prints(OmitZero(key, n), Unless(n == 0, Named(key, FormatInt(n))))
  {
    NothingPrints();
    hide Prints;
    PrintsNum(key, n);
  }

  lemma QueryPrints(m: Message)
    requires m.Query?
    ensures Prints(Fields(m), WireFields(m))
  {
    KeysNeedNoEscape();
    TypesNeedNoEscape();
    hide Prints, Named, Kind, Quoted, NeedsNoEscape, OmitEmpty, OmitZero, Unless;
    PrintsKind("query");
    PrintsStr("command", m.command);
    PrintsConcat([Field("type", Str("query"))], [Field("command", Str(m.command))],
                 [Kind("query")], [Named("command", Quoted(m.command))]);
    var head, parts := [Field("type", Str("query")), Field("command", Str(m.command))],
      [Kind("query"), Named("command", Quoted(m.command))];
    assert [Field("type", Str("query"))] + [Field("command", Str(m.command))] == head;
    assert [Kind("query")] + [Named("command", Quoted(m.command))] == parts;
    OmitPrints("service", m.service);
    OmitZeroPrints("limit", m.limit);
    OmitPrints("query", m.query);
    OmitPrints("since", m.since);
    var a, p := OmitEmpty("service", m.service), Unless(m.service == "", Named("service", Quoted(m.service)));
    var b, q := OmitZero("limit", m.limit), Unless(m.limit == 0, Named("limit", FormatInt(m.limit)));
    var c, r := OmitEmpty("query", m.query), Unless(m.query == "", Named("query", Quoted(m.query)));
    var d, s := OmitEmpty("since", m.since), Unless(m.since == "", Named("since", Quoted(m.since)));
    PrintsConcat(head, a, parts, p);
    PrintsConcat(head + a, b, parts + p, q);
    PrintsConcat(head + a + b, c, parts + p + q, r);
    PrintsConcat(head + a + b + c, d, parts + p + q + r, s);
  }

  /** Every message as the protocol has it, byte for byte: names, order, quoting, and what is left out. */
  lemma OnTheWire(m: Message)
    ensures Frame(m) == "{" + Joined(WireFields(m)) + "}"
  {
    assert Fields(m) != [];
    hide PrintFields, Prints, Fields, WireFields;
    if m.Query? { QueryPrints(m); } else { FlatFieldsPrint(m); }
    PrintsJoined(Fields(m), WireFields(m));
  }

  lemma {:induction false} LookupAt(fs: seq<Field>, key: string, i: nat)
    requires i < |fs| && fs[i].key == key && forall j :: i < j < |fs| ==> fs[j].key != key
    ensures Lookup(fs, key) == Some(fs[i].value)
  {
    if i < |fs| - 1 {
      LookupAt(fs[..|fs| - 1], key, i);
    }
  }

  lemma {:induction false} LookupMissing(fs: seq<Field>, key: string)
    requires forall j :: 0 <= j < |fs| ==> fs[j].key != key
    ensures Lookup(fs, key) == None
  {
    if fs != [] {
      LookupMissing(fs[..|fs| - 1], key);
    }
  }

  lemma TypeIsRead(m: Message)
    ensures StrOf(Fields(m), "type") ==
        match m
        case SessionStart(_) => "session_start"
        case Log(_) => "log"
        case SessionEnd(_, _, _) => "session_end"
        case Query(_, _, _, _, _) => "query"
        case SessionStartReply(_) => "session_start_reply"
  {
    LookupAt(Fields(m), "type", 0);
  }

  lemma SessionStartIsRead(s: O.StartMessage)
    ensures FromFields(Fields(SessionStart(s))) == Some(SessionStart(s))
  {
    var fs := Fields(SessionStart(s));
    TypeIsRead(SessionStart(s));
    LookupAt(fs, "service", 1);
    LookupAt(fs, "pid", 2);
    LookupAt(fs, "command", 3);
    LookupAt(fs, "timestamp", 4);
    hide Lookup;
    assert "service"[0] != "command"[0];
  }

  lemma LogIsRead(l: LogMessage)
    ensures FromFields(Fields(Log(l))) == Some(Log(l))
  {
    var fs := Fields(Log(l));
    TypeIsRead(Log(l));
    assert "service"[3] != "session"[3] && "message"[0] != "service"[0] && "message"[0] != "session"[0];
    LookupAt(fs, "service", 1);
    LookupAt(fs, "session", 2);
    LookupAt(fs, "timestamp", 3);
    LookupAt(fs, "stream", 4);
    LookupAt(fs, "message", 5);
    hide Lookup;
  }

  lemma SessionEndIsRead(session: string, ts: int, code: int)
    ensures FromFields(Fields(SessionEnd(session, ts, code))) == Some(SessionEnd(session, ts, code))
  {
    var fs := Fields(SessionEnd(session, ts, code));
    TypeIsRead(SessionEnd(session, ts, code));
    LookupAt(fs, "session", 1);
    LookupAt(fs, "timestamp", 2);
    LookupAt(fs, "exit_code", 3);
    hide Lookup;
    assert "timestamp"[0] != "exit_code"[0];
  }

  lemma ReplyIsRead(id: string)
    ensures FromFields(Fields(SessionStartReply(id))) == Some(SessionStartReply(id))
  {
    TypeIsRead(SessionStartReply(id));
    LookupAt(Fields(SessionStartReply(id)), "session_id", 1);
  }

  lemma {:induction false} LookupConcat(a: seq<Field>, b: seq<Field>, key: string)
    ensures Lookup(a + b, key) == if Lookup(b, key).Some? then Lookup(b, key) else Lookup(a, key)
  {
    if b == [] {
      assert a + b == a;
    } else {
      assert (a + b)[..|a + b| - 1] == a + b[..|b| - 1];
      LookupConcat(a, b[..|b| - 1], key);
    }
  }

  /** An optional field: at most this one. */
  predicate Optional(fs: seq<Field>, key: string) {
    fs == [] || (|fs| == 1 && fs[0].key == key)
  }

  function First(fs: seq<Field>): Option<Value> {
    if fs == [] then None else Some(fs[0].value)
  }

  lemma OptionalLookup(fs: seq<Field>, own: string, key: string)
    requires Optional(fs, own)
    ensures Lookup(fs, key) == if key == own then First(fs) else None
  {
    if fs == [] {
      LookupMissing(fs, key);
    } else if key == own {
      LookupAt(fs, key, 0);
    } else {
      LookupMissing(fs, key);
    }
  }

  lemma FourOptional(head: seq<Field>, a: seq<Field>, b: seq<Field>, c: seq<Field>, d: seq<Field>,
                     ka: string, kb: string, kc: string, kd: string, key: string)
    requires Optional(a, ka) && Optional(b, kb) && Optional(c, kc) && Optional(d, kd)
    requires ka != kb && ka != kc && ka != kd && kb != kc && kb != kd && kc != kd
    ensures Lookup(head + a + b + c + d, key) ==
        if key == ka && a != [] then First(a)
        else if key == kb && b != [] then First(b)
        else if key == kc && c != [] then First(c)
        else if key == kd && d != [] then First(d)
        else Lookup(head, key)
  {
    LookupConcat(head + a + b + c, d, key);
    LookupConcat(head + a + b, c, key);
    LookupConcat(head + a, b, key);
    LookupConcat(head, a, key);
    OptionalLookup(a, ka, key);
    OptionalLookup(b, kb, key);
    OptionalLookup(c, kc, key);
    OptionalLookup(d, kd, key);
  }

  lemma TypedConcat(a: seq<Field>, b: seq<Field>, strings: set<string>, numbers: set<string>)
    requires Typed(a, strings, numbers) && Typed(b, strings, numbers)
    ensures Typed(a + b, strings, numbers)
  {
  }

  lemma QueryKeys()
    ensures "service" != "limit" && "service" != "query" && "service" != "since" && "service" != "command"
    ensures "limit" != "query" && "limit" != "since" && "query" != "since"
    ensures "command" !in {"service", "limit", "query", "since", "type"}
    ensures "type" !in {"service", "limit", "query", "since", "command"}
  {
    assert "limit"[0] != "query"[0] && "limit"[0] != "since"[0] && "query"[0] != "since"[0] && "service"[0] != "command"[0];
  }

  lemma QueryIsTyped(m: Message)
    requires m.Query?
    ensures Typed(Fields(m), {"type"}, {}) && Typed(Fields(m), {"command", "service", "query", "since"}, {"limit"})
  {
    var strings, numbers := {"command", "service", "query", "since"}, {"limit"};
    QueryKeys();
    var head := [Field("type", Str("query")), Field("command", Str(m.command))];
    var a, b := OmitEmpty("service", m.service), OmitZero("limit", m.limit);
    var c, d := OmitEmpty("query", m.query), OmitEmpty("since", m.since);
    TypedConcat(head, a, strings, numbers);
    TypedConcat(head + a, b, strings, numbers);
    TypedConcat(head + a + b, c, strings, numbers);
    TypedConcat(head + a + b + c, d, strings, numbers);
    TypedConcat(head, a, {"type"}, {});
    TypedConcat(head + a, b, {"type"}, {});
    TypedConcat(head + a + b, c, {"type"}, {});
    TypedConcat(head + a + b + c, d, {"type"}, {});
  }

  lemma QueryLookup(m: Message, key: string)
    requires m.Query?
    ensures Lookup(Fields(m), key) ==
        if key == "service" then First(OmitEmpty("service", m.service))
        else if key == "limit" then First(OmitZero("limit", m.limit))
        else if key == "query" then First(OmitEmpty("query", m.query))
        else if key == "since" then First(OmitEmpty("since", m.since))
        else Lookup([Field("type", Str("query")), Field("command", Str(m.command))], key)
  {
    QueryKeys();
    var head := [Field("type", Str("query")), Field("command", Str(m.command))];
    FourOptional(head, OmitEmpty("service", m.service), OmitZero("limit", m.limit),
                 OmitEmpty("query", m.query), OmitEmpty("since", m.since), "service", "limit", "query", "since", key);
    if key in {"service", "limit", "query", "since"} {
      LookupMissing(head, key);
    }
  }

  lemma QueryIsRead(m: Message)
    requires m.Query?
    ensures FromFields(Fields(m)) == Some(m)
  {
    TypeIsRead(m);
    QueryKeys();
    QueryIsTyped(m);
    QueryLookup(m, "command");
    QueryLookup(m, "service");
    QueryLookup(m, "limit");
    QueryLookup(m, "query");
    QueryLookup(m, "since");
    LookupAt([Field("type", Str("query")), Field("command", Str(m.command))], "command", 1);
    hide Lookup, Fields, Typed;
  }

  /** What a message becomes when its strings go through the wire. */
  function CleanMessage(m: Message): Message {
    match m
    case SessionStart(s) => SessionStart(s.(service := Sanitized(s.service), command := Sanitized(s.command)))
    case Log(l) =>
      Log(LogMessage(Sanitized(l.service), Sanitized(l.session), l.timestamp, Sanitized(l.stream), Sanitized(l.message)))
    case SessionEnd(session, ts, code) => SessionEnd(Sanitized(session), ts, code)
    case Query(command, service, limit, query, since) =>
      Query(Sanitized(command), Sanitized(service), limit, Sanitized(query), Sanitized(since))
    case SessionStartReply(id) => SessionStartReply(Sanitized(id))
  }

  predicate AllValid(m: Message) {
    match m
    case SessionStart(s) => ValidUtf8(s.service) && ValidUtf8(s.command)
    case Log(l) => ValidUtf8(l.service) && ValidUtf8(l.session) && ValidUtf8(l.stream) && ValidUtf8(l.message)
    case SessionEnd(session, _, _) => ValidUtf8(session)
    case Query(command, service, _, query, since) =>
      ValidUtf8(command) && ValidUtf8(service) && ValidUtf8(query) && ValidUtf8(since)
    case SessionStartReply(id) => ValidUtf8(id)
  }

  /** Go's int and int64 fields. */
  predicate InRange(m: Message) {
    match m
    case SessionStart(s) => Int64(s.pid) && Int64(s.timestamp)
    case Log(l) => Int64(l.timestamp)
    case SessionEnd(_, ts, code) => Int64(ts) && Int64(code)
    case Query(_, _, limit, _, _) => Int64(limit)
    case SessionStartReply(_) => true
  }

  predicate IsAscii(s: string) {
    forall i :: 0 <= i < |s| ==> s[i] as int < 0x80
  }

  lemma {:induction false} AsciiIsClean(s: string)
    requires IsAscii(s)
    ensures Sanitized(s) == s
  {
    if s != "" {
      AsciiIsClean(s[1..]);
      assert s == s[..1] + s[1..];
    }
  }

  lemma KeysAreAscii()
    ensures IsAscii("type") && IsAscii("service") && IsAscii("pid") && IsAscii("command") && IsAscii("timestamp")
    ensures IsAscii("session") && IsAscii("stream") && IsAscii("message") && IsAscii("exit_code")
    ensures IsAscii("limit") && IsAscii("query") && IsAscii("since") && IsAscii("session_id")
  {
    KeysAreFolded();
  }

  lemma KeysAreFolded()
    ensures IsFolded("type") && IsFolded("service") && IsFolded("pid") && IsFolded("command") && IsFolded("timestamp")
    ensures IsFolded("session") && IsFolded("stream") && IsFolded("message") && IsFolded("exit_code")
    ensures IsFolded("limit") && IsFolded("query") && IsFolded("since") && IsFolded("session_id")
  {
    hide IsAscii;
    FirstKeysAreFolded();
    OtherKeysAreFolded();
  }

  lemma FirstKeysAreFolded()
    ensures IsFolded("type") && IsFolded("service") && IsFolded("pid") && IsFolded("command") && IsFolded("timestamp")
    ensures IsFolded("limit")
  {
  }

  lemma OtherKeysAreFolded()
    ensures IsFolded("session") && IsFolded("stream") && IsFolded("message") && IsFolded("exit_code")
    ensures IsFolded("query") && IsFolded("since") && IsFolded("session_id")
  {
  }

  lemma TypesAreAscii()
    ensures IsAscii("session_start") && IsAscii("log") && IsAscii("session_end") && IsAscii("query")
    ensures IsAscii("session_start_reply")
  {
  }

  lemma TypesAreClean()
    ensures Sanitized("session_start") == "session_start" && Sanitized("log") == "log"
    ensures Sanitized("session_end") == "session_end" && Sanitized("query") == "query"
    ensures Sanitized("session_start_reply") == "session_start_reply"
  {
    TypesAreAscii();
    hide IsAscii, Sanitized;
    AsciiIsClean("session_start");
    AsciiIsClean("log");
    AsciiIsClean("session_end");
    AsciiIsClean("query");
    AsciiIsClean("session_start_reply");
  }

  predicate IsFolded(s: string) {
    IsAscii(s) && forall i :: 0 <= i < |s| ==> !('A' <= s[i] <= 'Z')
  }

  lemma {:induction false} FoldedStays(s: string)
    requires IsFolded(s)
    ensures Folded(s) == s
  {
    if s != "" {
      FoldedStays(s[1..]);
      assert s == s[..1] + s[1..];
    }
  }

  predicate FoldedKeys(fs: seq<Field>) {
    forall i :: 0 <= i < |fs| ==> IsFolded(fs[i].key)
  }

  predicate NoNulls(fs: seq<Field>) {
    forall i :: 0 <= i < |fs| ==> !fs[i].value.Null?
  }

  /** What the encoder prints takes effect field by field as it is. */
  lemma {:induction false} AllEffective(fs: seq<Field>)
    requires FoldedKeys(fs) && NoNulls(fs)
    ensures Effective(fs) == fs
  {
    if fs != [] {
      AllEffective(fs[..|fs| - 1]);
      FoldedStays(fs[|fs| - 1].key);
    }
  }

  lemma FieldsAreFolded(m: Message)
    ensures FoldedKeys(Fields(m)) && NoNulls(Fields(m))
  {
    KeysAreFolded();
    hide IsFolded;
  }

  predicate AsciiKeys(fs: seq<Field>) {
    forall i :: 0 <= i < |fs| ==> IsAscii(fs[i].key)
  }

  /** Keys survive as they are, values are cleaned one by one. */
  lemma CleanedValues(fs: seq<Field>, fs': seq<Field>)
    requires AsciiKeys(fs) && |fs'| == |fs|
    requires forall i :: 0 <= i < |fs| ==> fs'[i].key == fs[i].key && fs'[i].value == CleanValue(fs[i].value)
    ensures Clean(fs) == fs'
  {
    forall i | 0 <= i < |fs| ensures Clean(fs)[i] == fs'[i] {
      AsciiIsClean(fs[i].key);
    }
  }

  lemma EmptyStaysEmpty(s: string)
    ensures Sanitized(s) == "" <==> s == ""
  {
    SanitizedIsNoShorter(s);
  }

  lemma MessageIsRead(m: Message)
    ensures FromFields(Fields(m)) == Some(m)
  {
    hide FromFields, Fields;
    match m {
      case SessionStart(s) => SessionStartIsRead(s);
      case Log(l) => LogIsRead(l);
      case SessionEnd(session, ts, code) => SessionEndIsRead(session, ts, code);
      case Query(_, _, _, _, _) => QueryIsRead(m);
      case SessionStartReply(id) => ReplyIsRead(id);
    }
  }

  lemma OmitIsCleaned(key: string, s: string)
    requires IsAscii(key)
    ensures AsciiKeys(OmitEmpty(key, s)) && Clean(OmitEmpty(key, s)) == OmitEmpty(key, Sanitized(s))
  {
    EmptyStaysEmpty(s);
    CleanedValues(OmitEmpty(key, s), OmitEmpty(key, Sanitized(s)));
  }

  lemma CleanConcat(a: seq<Field>, b: seq<Field>)
    ensures Clean(a + b) == Clean(a) + Clean(b)
  {
  }

  lemma QueryIsCleaned(m: Message)
    requires m.Query?
    ensures Clean(Fields(m)) == Fields(CleanMessage(m))
  {
    hide Sanitized, IsAscii;
    KeysAreAscii();
    TypesAreClean();
    var head := [Field("type", Str("query")), Field("command", Str(m.command))];
    var a, b := OmitEmpty("service", m.service), OmitZero("limit", m.limit);
    var c, d := OmitEmpty("query", m.query), OmitEmpty("since", m.since);
    CleanConcat(head + a + b + c, d);
    CleanConcat(head + a + b, c);
    CleanConcat(head + a, b);
    CleanConcat(head, a);
    CleanedValues(head, [Field("type", Str("query")), Field("command", Str(Sanitized(m.command)))]);
    OmitIsCleaned("service", m.service);
    CleanedValues(b, b);
    OmitIsCleaned("query", m.query);
    OmitIsCleaned("since", m.since);
  }

  lemma SessionStartIsCleaned(s: O.StartMessage)
    ensures Clean(Fields(SessionStart(s))) == Fields(CleanMessage(SessionStart(s)))
  {
    hide Sanitized, IsAscii;
    KeysAreAscii();
    TypesAreClean();
    CleanedValues(Fields(SessionStart(s)), Fields(CleanMessage(SessionStart(s))));
  }

  lemma LogIsCleaned(l: LogMessage)
    ensures Clean(Fields(Log(l))) == Fields(CleanMessage(Log(l)))
  {
    hide Sanitized, IsAscii;
    KeysAreAscii();
    TypesAreClean();
    CleanedValues(Fields(Log(l)), Fields(CleanMessage(Log(l))));
  }

  lemma SessionEndIsCleaned(session: string, ts: int, code: int)
    ensures Clean(Fields(SessionEnd(session, ts, code))) == Fields(CleanMessage(SessionEnd(session, ts, code)))
  {
    hide Sanitized, IsAscii;
    KeysAreAscii();
    TypesAreClean();
    CleanedValues(Fields(SessionEnd(session, ts, code)), Fields(CleanMessage(SessionEnd(session, ts, code))));
  }

  lemma ReplyIsCleaned(id: string)
    ensures Clean(Fields(SessionStartReply(id))) == Fields(CleanMessage(SessionStartReply(id)))
  {
    hide Sanitized, IsAscii;
    KeysAreAscii();
    TypesAreClean();
    CleanedValues(Fields(SessionStartReply(id)), Fields(CleanMessage(SessionStartReply(id))));
  }

  lemma FieldsAreCleaned(m: Message)
    ensures Clean(Fields(m)) == Fields(CleanMessage(m))
  {
    hide Fields, Clean, CleanMessage;
    match m {
      case SessionStart(s) => SessionStartIsCleaned(s);
      case Log(l) => LogIsCleaned(l);
      case SessionEnd(session, ts, code) => SessionEndIsCleaned(session, ts, code);
      case Query(_, _, _, _, _) => QueryIsCleaned(m);
      case SessionStartReply(id) => ReplyIsCleaned(id);
    }
  }

  lemma CleanExactlyWhenValid(m: Message)
    ensures CleanMessage(m) == m <==> AllValid(m)
  {
    hide Sanitized, ValidUtf8;
    match m {
      case SessionStart(s) =>
        UnchangedExactlyWhenValid(s.service);
        UnchangedExactlyWhenValid(s.command);
      case Log(l) =>
        UnchangedExactlyWhenValid(l.service);
        UnchangedExactlyWhenValid(l.session);
        UnchangedExactlyWhenValid(l.stream);
        UnchangedExactlyWhenValid(l.message);
      case SessionEnd(session, _, _) => UnchangedExactlyWhenValid(session);
      case Query(command, service, _, query, since) =>
        UnchangedExactlyWhenValid(command);
        UnchangedExactlyWhenValid(service);
        UnchangedExactlyWhenValid(query);
        UnchangedExactlyWhenValid(since);
      case SessionStartReply(id) => UnchangedExactlyWhenValid(id);
    }
  }

  lemma FieldsArePrintable(m: Message)
    requires InRange(m)
    ensures AllPrintable(Fields(m))
  {
    hide Int64;
  }

  /**
   A frame decodes to its message at its own type, every string as UTF-8 allows: unchanged exactly when it is
   well formed. Log lines that are not come back with U+FFFD in them.
  */
  lemma MessageRoundTrip(m: Message)
    requires InRange(m)
    ensures DecodeMessage(Frame(m)) == Some(CleanMessage(m))
    ensures DecodeMessage(Frame(m)) == Some(m) <==> AllValid(m)
  {
    hide Fields, FromFields, PrintObject, DecodeJson, CleanMessage, AllValid, InRange;
    FieldsArePrintable(m);
    ObjectRoundTrip(Fields(m));
    FieldsAreCleaned(m);
    FieldsAreFolded(CleanMessage(m));
    AllEffective(Fields(CleanMessage(m)));
    MessageIsRead(CleanMessage(m));
    CleanExactlyWhenValid(m);
  }

  // ---------------------------------------------------------------------------------------------
  // Framing

  const MAX_TOKEN := 1024 * 1024
  const FIRST_BUFFER := 64 * 1024

  datatype Outcome = Token(data: string) | Eof | TooLong

  /** The position of the first newline, or the length. */
  function NewlineIn(s: string): (i: nat)
    ensures i <= |s| && (i < |s| ==> s[i] == '\n') && forall j :: 0 <= j < i ==> s[j] != '\n'
  {
    if s == "" || s[0] == '\n' then 0 else 1 + NewlineIn(s[1..])
  }

  /** ScanLines strips one carriage return. */
  function DropCR(s: string): string {
    if s != "" && s[|s| - 1] == '\r' then s[..|s| - 1] else s
  }

  datatype Scan = Scan(outcome: Outcome, rest: string)

  /** One call of the scanner, on everything still to be read. */
  function NextToken(r: string): (n: Scan)
    ensures n.outcome.Token? ==> |n.rest| < |r|
  {
    var i := NewlineIn(r);
    if i >= MAX_TOKEN then Scan(TooLong, "")
    else if i < |r| then Scan(Token(DropCR(r[..i])), r[i + 1..])
    else if r == "" then Scan(Eof, "")
    else Scan(Token(DropCR(r)), "")
  }

  lemma {:induction false} NewlineInConcat(a: string, b: string)
    ensures NewlineIn(a) < |a| ==> NewlineIn(a + b) == NewlineIn(a)
    ensures NewlineIn(a) == |a| ==> NewlineIn(a + b) == |a| + NewlineIn(b)
  {
    if a == "" {
      assert a + b == b;
    } else if a[0] != '\n' {
      assert (a + b)[1..] == a[1..] + b;
      NewlineInConcat(a[1..], b);
    }
  }

  lemma CutConcat(a: string, b: string, i: nat)
    requires i < |a|
    ensures (a + b)[..i] == a[..i] && (a + b)[i + 1..] == a[i + 1..] + b
  {
  }

  /** A newline in what was read so far settles the token. */
  lemma TokenFound(buf: string, more: string)
    requires NewlineIn(buf) < |buf| <= MAX_TOKEN
    ensures var i := NewlineIn(buf);
      NextToken(buf + more) == Scan(Token(DropCR(buf[..i])), buf[i + 1..] + more)
  {
    hide NewlineIn, DropCR;
    NewlineInConcat(buf, more);
    CutConcat(buf, more, NewlineIn(buf));
  }

  /** A full buffer without one is an error. */
  lemma BufferFull(buf: string, more: string)
    requires NewlineIn(buf) == |buf| >= MAX_TOKEN
    ensures NextToken(buf + more).outcome == TooLong
  {
    NewlineInConcat(buf, more);
  }

  lemma InputEnds(buf: string)
    requires NewlineIn(buf) == |buf| < MAX_TOKEN
    ensures NextToken(buf + "") == Scan(if buf == "" then Eof else Token(DropCR(buf)), "")
  {
    assert buf + "" == buf;
  }

  datatype Reading = Reading(tokens: seq<string>, end: Outcome)

  /** Everything the decoder finds in a stream, and how it stops. */
  function ReadAll(r: string): Reading
    decreases |r|
  {
    var n := NextToken(r);
    if !n.outcome.Token? then Reading([], n.outcome)
    else
      var more := ReadAll(n.rest);
      Reading([n.outcome.data] + more.tokens, more.end)
  }

  /** What an encoder puts on the wire: each frame and a newline. */
  function Stream(frames: seq<string>): string {
    if frames == [] then "" else frames[0] + "\n" + Stream(frames[1..])
  }

  /** A line the scanner hands back as it is. */
  predicate IsLine(f: string) {
    NewlineIn(f) == |f| && DropCR(f) == f
  }

  lemma FrameIsRead(f: string, rest: string)
    requires IsLine(f)
    ensures NextToken(f + "\n" + rest) == if |f| < 1048576 then Scan(Token(f), rest) else Scan(TooLong, "")
  {
    var s := f + "\n" + rest;
    assert s == f + ("\n" + rest);
    NewlineInConcat(f, "\n" + rest);
    assert ("\n" + rest)[0] == '\n';
    assert s[..|f|] == f && s[|f| + 1..] == rest;
  }

  lemma LineIsRead(g: string, rest: string)
    requires NewlineIn(g) == |g| < MAX_TOKEN
    ensures NextToken(g + "\n" + rest) == Scan(Token(DropCR(g)), rest)
  {
    NewlineInConcat(g, "\n" + rest);
    NewlineFirst(rest);
    hide NewlineIn, DropCR;
    LineAndRest(g, '\n', rest);
  }

  lemma NewlineFirst(rest: string)
    ensures NewlineIn("\n" + rest) == 0
  {
    assert ("\n" + rest)[0] == '\n';
  }

  lemma LineAndRest<T>(g: seq<T>, x: T, rest: seq<T>)
    ensures var s := g + [x] + rest; s == g + ([x] + rest) && s[..|g|] == g && s[|g| + 1..] == rest && |s| > |g|
  {
  }

  /** A carriage return before the newline is not part of the token. */
  lemma CrlfIsRead(f: string, rest: string)
    requires NewlineIn(f) == |f| && |f| + 1 < 1048576
    ensures NextToken(f + "\r" + "\n" + rest) == Scan(Token(f), rest)
  {
    NewlineInConcat(f, "\r");
    assert NewlineIn("\r") == 1;
    hide NewlineIn, NextToken;
    LineIsRead(f + "\r", rest);
    assert (f + "\r")[..|f|] == f;
  }

  /** Frames below 1 MiB come back exactly, and then the end of the input. */
  lemma {:induction false} StreamRoundTrip(frames: seq<string>)
    requires forall i :: 0 <= i < |frames| ==> IsLine(frames[i]) && |frames[i]| < MAX_TOKEN
    ensures ReadAll(Stream(frames)) == Reading(frames, Eof)
  {
    hide NextToken, IsLine;
    if frames == [] {
      NothingLeft();
    } else {
      FrameIsRead(frames[0], Stream(frames[1..]));
      StreamRoundTrip(frames[1..]);
    }
  }

  lemma NothingLeft()
    ensures NextToken("") == Scan(Eof, "")
  {
  }

  /** One frame of 1 MiB or more ends the reading there: what came before is read, nothing after it. */
  lemma {:induction false} LongFrameEndsReading(frames: seq<string>, f: string, rest: seq<string>)
    requires forall i :: 0 <= i < |frames| ==> IsLine(frames[i]) && |frames[i]| < MAX_TOKEN
    requires IsLine(f) && |f| >= MAX_TOKEN
    ensures ReadAll(Stream(frames + [f] + rest)) == Reading(frames, TooLong)
  {
    hide NextToken, IsLine;
    var all := frames + [f] + rest;
    if frames == [] {
      assert all[0] == f;
      FrameIsRead(f, Stream(all[1..]));
    } else {
      assert all[0] == frames[0] && all[1..] == frames[1..] + [f] + rest;
      FrameIsRead(frames[0], Stream(all[1..]));
      LongFrameEndsReading(frames[1..], f, rest);
    }
  }

  lemma {:induction false} NoControlsNoNewline(s: string)
    requires NoControls(s)
    ensures NewlineIn(s) == |s|
  {
    if s != "" { NoControlsNoNewline(s[1..]); }
  }

  lemma FrameIsLine(m: Message)
    ensures IsLine(Frame(m))
  {
    hide PrintObject, Fields;
    ObjectIsOneLine(Fields(m));
    NoControlsNoNewline(Frame(m));
  }

  /** What can be sent: integers of their Go width, and a frame below the scanner's limit. */
  predicate Fits(m: Message) {
    InRange(m) && |Frame(m)| < MAX_TOKEN
  }

  function FrameOf(): Message -> string {
    (m: Message) => Frame(m)
  }

  /**
   Framing round trip: whatever the messages, a reader of their stream, which ReadMessages shows may be cut up
   in any way, gets exactly these frames and then the end of the input, and each decodes to its message as
   UTF-8 allows.
  */
  lemma FramingRoundTrip(ms: seq<Message>)
    requires forall i :: 0 <= i < |ms| ==> Fits(ms[i])
    ensures var r := ReadAll(Stream(Map(ms, FrameOf())));
      && r.end == Eof && |r.tokens| == |ms|
      && forall i :: 0 <= i < |ms| ==>
           && DecodeMessage(r.tokens[i]) == Some(CleanMessage(ms[i]))
           && (DecodeMessage(r.tokens[i]) == Some(ms[i]) <==> AllValid(ms[i]))
  {
    hide Frame, IsLine, DecodeMessage, CleanMessage, AllValid, InRange, ReadAll;
    assert forall i :: 0 <= i < |ms| ==> InRange(ms[i]) && |Frame(ms[i])| < MAX_TOKEN by {
      forall i | 0 <= i < |ms| ensures InRange(ms[i]) && |Frame(ms[i])| < MAX_TOKEN {
        assert Fits(ms[i]);
      }
    }
    var frames := Map(ms, FrameOf());
    forall i | 0 <= i < |ms| ensures IsLine(frames[i]) && |frames[i]| < MAX_TOKEN && frames[i] == Frame(ms[i]) {
      FrameIsLine(ms[i]);
    }
    StreamRoundTrip(frames);
    forall i | 0 <= i < |ms|
      ensures DecodeMessage(frames[i]) == Some(CleanMessage(ms[i]))
      ensures DecodeMessage(frames[i]) == Some(ms[i]) <==> AllValid(ms[i])
    {
      MessageRoundTrip(ms[i]);
    }
  }

  lemma {:induction false} StreamSnoc(frames: seq<string>, f: string)
    ensures Stream(frames + [f]) == Stream(frames) + (f + "\n")
  {
    if frames == [] {
      assert [f][1..] == [] && [] + [f] == [f];
    } else {
      assert (frames + [f])[1..] == frames[1..] + [f];
      StreamSnoc(frames[1..], f);
    }
  }

  class Encoder {
    var out: string

    constructor ()
      ensures out == ""
    {
      out := "";
    }

    /** One Write: the connection takes the whole frame and its newline, or fails after the first `reach` bytes. */
    method Encode(m: Message, reach: nat) returns (ok: bool)
      modifies this
      ensures ok <==> reach > |Frame(m)|
      ensures out == old(out) + if ok then Frame(m) + "\n" else Frame(m)[..reach]
    {
      hide PrintObject, Fields;
      var data := PrintObject(Fields(m)) + "\n";
      ok := reach >= |data|;
      if ok {
        out := out + data;
      } else {
        assert data[..reach] == Frame(m)[..reach];
        out := out + data[..reach];
      }
    }
  }

  method EncodeAll(ms: seq<Message>) returns (out: string)
    ensures out == Stream(Map(ms, FrameOf()))
  {
    hide Frame;
    var enc := new Encoder();
    for i := 0 to |ms|
      invariant enc.out == Stream(Map(ms[..i], FrameOf()))
    {
      var ok := enc.Encode(ms[i], |Frame(ms[i])| + 1);
      assert Map(ms[..i + 1], FrameOf()) == Map(ms[..i], FrameOf()) + [Frame(ms[i])];
      StreamSnoc(Map(ms[..i], FrameOf()), Frame(ms[i]));
    }
    assert ms[..|ms|] == ms;
    out := enc.out;
  }

  class Decoder {
    var chunks: seq<string>   // what the connection will deliver, read by read
    var buf: string           // read, not consumed
    var size: nat             // the scanner's buffer, which doubles up to MAX_TOKEN
    var failed: bool

    ghost predicate Valid()
      reads this
    {
      && (forall i :: 0 <= i < |chunks| ==> chunks[i] != "")
      && |buf| <= size && FIRST_BUFFER <= size <= MAX_TOKEN
      && (failed ==> NewlineIn(buf) == |buf|)
    }

    ghost function Pending(): string
      reads this
    {
      buf + Flatten(chunks)
    }

    constructor (chunks: seq<string>)
      requires forall i :: 0 <= i < |chunks| ==> chunks[i] != ""
      ensures Valid() && !failed && Pending() == Flatten(chunks)
    {
      this.chunks, buf, size, failed := chunks, "", FIRST_BUFFER, false;
    }

    method Read(space: nat)
      requires Valid() && !failed && chunks != [] && 0 < space <= size - |buf|
      modifies this`chunks, this`buf
      ensures Valid() && Pending() == old(Pending())
      ensures |Flatten(chunks)| < |old(Flatten(chunks))|
      ensures exists more :: buf == old(buf) + more
    {
      var n := Min(space, |chunks[0]|);
      var first, others := chunks[0], chunks[1..];
      assert first[..n] + (first[n..] + Flatten(others)) == first + Flatten(others);
      buf := buf + first[..n];
      if n == |first| {
        chunks := others;
        assert first[n..] == "";
      } else {
        chunks := [first[n..]] + others;
        assert chunks[1..] == others;
      }
      assert old(buf) + first[..n] + (first[n..] + Flatten(others)) == old(buf) + (first + Flatten(others));
    }

    /**
     bufio.Scanner.Scan: what it finds depends on the bytes alone, not on how they were delivered. After an error the
     split function gets what is left in the buffer, once.
    */
    method Scan() returns (outcome: Outcome)
      requires Valid()
      modifies this
      ensures Valid()
      ensures old(failed) ==>
          && outcome == (if old(buf) == "" then TooLong else Token(DropCR(old(buf))))
          && failed && buf == "" && chunks == old(chunks)
      ensures !old(failed) ==>
          && outcome == NextToken(old(Pending())).outcome
          && failed == outcome.TooLong?
          && (!failed ==> Pending() == NextToken(old(Pending())).rest)
    {
      hide NextToken, DropCR;
      if failed {
        outcome, buf := if buf == "" then TooLong else Token(DropCR(buf)), "";
        return;
      }
      while true
        invariant Valid() && !failed && Pending() == old(Pending())
        decreases |Flatten(chunks)|
      {
        var i := NewlineIn(buf);
        if i < |buf| {
          TokenFound(buf, Flatten(chunks));
          outcome, buf := Token(DropCR(buf[..i])), buf[i + 1..];
          return;
        }
        if |buf| == size {
          if size >= MAX_TOKEN {
            BufferFull(buf, Flatten(chunks));
            failed := true;
            return TooLong;
          }
          size := Min(size * 2, MAX_TOKEN);
        }
        if chunks == [] {
          InputEnds(buf);
          outcome, buf := if buf == "" then Eof else Token(DropCR(buf)), "";
          return;
        }
        Read(size - |buf|);
      }
    }
  }

  /** How many frames come before the first that is not JSON. */
  function JsonRun(frames: seq<string>): (n: nat)
    ensures n <= |frames|
    ensures forall i :: 0 <= i < n ==> DecodeJson(frames[i]).Some?
    ensures n < |frames| ==> DecodeJson(frames[n]).None?
  {
    if frames == [] || DecodeJson(frames[0]).None? then 0 else 1 + JsonRun(frames[1..])
  }

  lemma {:induction false} JsonRunIs(frames: seq<string>, n: nat)
    requires n <= |frames| && forall i :: 0 <= i < n ==> DecodeJson(frames[i]).Some?
    requires n < |frames| ==> DecodeJson(frames[n]).None?
    ensures JsonRun(frames) == n
  {
    hide DecodeJson;
    if n > 0 {
      JsonRunIs(frames[1..], n - 1);
    }
  }

  /** The read loop of a connection: it ends with the input, at an overlong frame, or at a frame that is not JSON. */
  method ReadMessages(chunks: seq<string>) returns (messages: seq<Option<Message>>, end: Outcome)
    requires forall i :: 0 <= i < |chunks| ==> chunks[i] != ""
    ensures var r := ReadAll(Flatten(chunks)); var n := JsonRun(r.tokens);
      && |messages| == n && (forall i :: 0 <= i < n ==> messages[i] == DecodeMessage(r.tokens[i]))
      && end == if n < |r.tokens| then Token(r.tokens[n]) else r.end
  {
    hide NextToken, DecodeMessage, DecodeJson;
    var dec := new Decoder(chunks);
    messages := [];
    ghost var tokens := [];
    ghost var all := Flatten(chunks);
    end := dec.Scan();
    ghost var rest := NextToken(all).rest;
    while end.Token? && DecodeJson(end.data).Some?
      invariant fresh(dec) && dec.Valid() && dec.failed == end.TooLong?
      invariant !dec.failed ==> dec.Pending() == rest
      invariant |messages| == |tokens| && forall i :: 0 <= i < |messages| ==> messages[i] == DecodeMessage(tokens[i])
      invariant forall i :: 0 <= i < |tokens| ==> DecodeJson(tokens[i]).Some?
      invariant ReadAll(all) ==
          if end.Token? then Reading(tokens + [end.data] + ReadAll(rest).tokens, ReadAll(rest).end) else Reading(tokens, end)
      decreases if end.Token? then 1 + |rest| else 0
    {
      messages, tokens := messages + [DecodeMessage(end.data)], tokens + [end.data];
      ghost var n := NextToken(rest);
      assert n.outcome.Token? ==> tokens + ([n.outcome.data] + ReadAll(n.rest).tokens)
                                  == tokens + [n.outcome.data] + ReadAll(n.rest).tokens;
      end := dec.Scan();
      rest := n.rest;
    }
    JsonRunIs(ReadAll(all).tokens, |tokens|);
  }
}
