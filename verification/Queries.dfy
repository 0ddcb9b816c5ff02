/**
 The SELECTs of internal/storage/storage.go. ORDER BY timestamp DESC leaves rows of equal timestamp in
 an order of the engine's choosing; `tie` ranks row IDs and stands for that choice.
 */
module Queries {
  import opened Seqs
  import opened Records
  import opened Storage
  import opened Likes

  type Tie = nat -> int

  /** Does row a come before row b in the answer? */
  predicate Before(a: Row, b: Row, tie: Tie) {
    || a.rec.timestamp > b.rec.timestamp
    || (a.rec.timestamp == b.rec.timestamp
        && (tie(a.id) > tie(b.id) || (tie(a.id) == tie(b.id) && a.id > b.id)))
  }

  ghost predicate Descending(rows: seq<Row>, tie: Tie) {
    forall i, j :: 0 <= i < j < |rows| ==> Before(rows[i], rows[j], tie)
  }

  function Place(x: Row, sorted: seq<Row>, tie: Tie): (r: seq<Row>)
    ensures multiset(r) == multiset(sorted) + multiset{x}
  {
    if sorted == [] || Before(x, sorted[0], tie) then [x] + sorted
    else
      assert sorted == [sorted[0]] + sorted[1..];
      [sorted[0]] + Place(x, sorted[1..], tie)
  }

  function SortDesc(rows: seq<Row>, tie: Tie): (r: seq<Row>)
    ensures multiset(r) == multiset(rows)
  {
    if rows == [] then []
    else
      assert rows == rows[..|rows| - 1] + [rows[|rows| - 1]];
      Place(rows[|rows| - 1], SortDesc(rows[..|rows| - 1], tie), tie)
  }

  function Select(t: Tables, where: Row -> bool, tie: Tie): seq<Row> {
    SortDesc(Filter(t.events, where), tie)
  }

  function OfService(service: string): Row -> bool {
    (r: Row) => r.rec.service == service
  }

  function QueryRecentLogs(t: Tables, service: string, limit: nat, tie: Tie): seq<Row> {
    var rows := Select(t, OfService(service), tie);
    rows[..Min(limit, |rows|)]
  }

  predicate Since(since: int, r: Row) {
    since > 0 ==> r.rec.timestamp >= since
  }

  function Hits(service: string, query: string, since: int): Row -> bool {
    (r: Row) => r.rec.service == service && Like("%" + query + "%", r.rec.message) && Since(since, r)
  }

  function SearchLogs(t: Tables, service: string, query: string, since: int, tie: Tie): seq<Row> {
    Select(t, Hits(service, query, since), tie)
  }

  function Errors(service: string, since: int): Row -> bool {
    (r: Row) =>
      && r.rec.service == service
      && (r.rec.stream == "stderr" || Like("%error%", Lower(r.rec.level)))
      && Since(since, r)
  }

  function QueryErrors(t: Tables, service: string, since: int, tie: Tie): seq<Row> {
    Select(t, Errors(service, since), tie)
  }

  // ---------------------------------------------------------------------------------------------
  // What a SELECT returns

  lemma {:induction false} PlaceKeepsOrder(x: Row, sorted: seq<Row>, tie: Tie)
    requires Descending(sorted, tie) && forall r :: r in sorted ==> r.id != x.id
    ensures Descending(Place(x, sorted, tie), tie)
  {
    if sorted != [] && !Before(x, sorted[0], tie) {
      PlaceKeepsOrder(x, sorted[1..], tie);
      var rest := Place(x, sorted[1..], tie);
      forall j | 0 <= j < |rest| ensures Before(sorted[0], rest[j], tie) {
        assert rest[j] in multiset(rest);
        assert rest[j] == x || rest[j] in sorted[1..];
      }
    }
  }

  lemma {:induction false} SortIsDescending(rows: seq<Row>, tie: Tie)
    requires Increasing(rows)
    ensures Descending(SortDesc(rows, tie), tie)
  {
    if rows != [] {
      var init := rows[..|rows| - 1];
      SortIsDescending(init, tie);
      forall r | r in SortDesc(init, tie) ensures r.id != rows[|rows| - 1].id {
        assert r in multiset(init);
      }
      PlaceKeepsOrder(rows[|rows| - 1], SortDesc(init, tie), tie);
    }
  }

  /** Every SELECT of the program: exactly the rows that qualify, as often as stored, newest first. */
  lemma SelectIsCompleteAndSorted(t: Tables, where: Row -> bool, tie: Tie, r: Row)
    requires WellFormed(t)
    ensures Descending(Select(t, where, tie), tie)
    ensures multiset(Select(t, where, tie))[r] == if where(r) then multiset(t.events)[r] else 0
    ensures r in Select(t, where, tie) <==> r in t.events && where(r)
  {
    FilterIncreasing(t.events, where);
    SortIsDescending(Filter(t.events, where), tie);
    FilterCount(t.events, where, r);
    assert r in Select(t, where, tie) <==> r in multiset(Select(t, where, tie));
    assert r in t.events <==> r in multiset(t.events);
  }

  /** Search, end to end: complete, newest first, and by substring for every query free of wildcards. */
  lemma SearchFindsExactlyTheSubstringRows(
      t: Tables, service: string, query: string, since: int, tie: Tie, r: Row)
    requires WellFormed(t) && IsPlain(query)
    ensures Descending(SearchLogs(t, service, query, since, tie), tie)
    ensures r in SearchLogs(t, service, query, since, tie) <==>
        && r in t.events
        && r.rec.service == service
        && Contains(r.rec.message, query)
        && (since <= 0 || r.rec.timestamp >= since)
  {
    SelectIsCompleteAndSorted(t, Hits(service, query, since), tie, r);
    LikeIsSubstring(query, r.rec.message);
  }

  /** With wildcards: exactly the rows in which the pieces of the query stand in order; so all that contain it, at least. */
  lemma SearchFindsThePiecesInRows(t: Tables, service: string, query: string, since: int, tie: Tie, r: Row)
    requires WellFormed(t)
    ensures r in SearchLogs(t, service, query, since, tie) <==>
        && r in t.events
        && r.rec.service == service
        && StandIn(Pieces(Chars(query)), Chars(r.rec.message))
        && (since <= 0 || r.rec.timestamp >= since)
    ensures (r in t.events && r.rec.service == service && Contains(r.rec.message, query)
             && (since <= 0 || r.rec.timestamp >= since)) ==> r in SearchLogs(t, service, query, since, tie)
  {
    SelectIsCompleteAndSorted(t, Hits(service, query, since), tie, r);
    SearchFindsThePieces(query, r.rec.message);
    if Contains(r.rec.message, query) {
      WhatContainsIsFound(query, r.rec.message);
    }
  }

  lemma LevelChars(level: string)
    requires level in {"fatal", "error", "warn", "info", "debug", ""}
    ensures |Chars(Lower(level))| == |level|
    ensures forall i :: 0 <= i < |level| ==> Chars(Lower(level))[i] == [level[i]]
  {
    AsciiChars(Lower(level));
  }

  lemma OtherLevel(level: string, i: nat)
    requires level in {"fatal", "warn", "info", "debug", ""}
    ensures !OccursAt(Chars("error"), Chars(Lower(level)), i)
  {
    LevelChars(level);
    LevelChars("error");
    assert Lower("error") == "error";
    hide Chars, Lower;
    var q, s := Chars("error"), Chars(Lower(level));
    if i + |q| <= |s| {
      assert i == 0 && level in {"fatal", "debug"};
      assert q[0] == ['e'] && s[0] == [level[0]];
      assert LowerChar('e') != LowerChar(level[0]) && ['e'][0] != [level[0]][0];
      assert !SameChar(q[0], s[0 + 0]);
    }
  }

  lemma ErrorLevel()
    ensures OccursAt(Chars("error"), Chars(Lower("error")), 0)
  {
    assert Lower("error") == "error";
  }

  /** The level test of the errors query singles out one of the six levels the broker stores. */
  lemma LikeErrorIsError(level: string)
    requires level in {"fatal", "error", "warn", "info", "debug", ""}
    ensures Like("%error%", Lower(level)) <==> level == "error"
  {
    hide Chars, Lower, Like, OccursAt;
    assert "%" + "error" + "%" == "%error%";
    PlainError();
    LikeIsSubstring("error", Lower(level));
    if level == "error" {
      ErrorLevel();
    } else {
      forall i: nat ensures !OccursAt(Chars("error"), Chars(Lower(level)), i) {
        OtherLevel(level, i);
      }
    }
  }

  lemma PlainError()
    ensures IsPlain("error")
  {
  }

  /**
   The errors query on rows the broker wrote: newest first, exactly the service's rows at or after a
   positive bound that came from stderr or whose line has an ERROR/ERR word and no FATAL/PANIC word.
  */
  lemma ErrorsQueryFindsExactlyTheErrorLines(
      t: Tables, service: string, since: int, tie: Tie, r: Row, m: LogMessage)
    requires WellFormed(t) && r.rec == ToRecord(m)
    ensures Descending(QueryErrors(t, service, since, tie), tie)
    ensures r in QueryErrors(t, service, since, tie) <==>
        && r in t.events
        && m.service == service
        && (m.stream == "stderr" || IsErrorLine(m.message))
        && (since <= 0 || m.timestamp >= since)
  {
    SelectIsCompleteAndSorted(t, Errors(service, since), tie, r);
    ErrorLevelMeaning(m);
    LikeErrorIsError(LevelOf(m));
  }

  // ---------------------------------------------------------------------------------------------
  // The newest rows

  ghost predicate Nondecreasing(rows: seq<Row>) {
    forall i, j :: 0 <= i < j < |rows| ==> rows[i].rec.timestamp <= rows[j].rec.timestamp
  }

  /** Ties resolved newest ID first, as a backwards scan of the (service, timestamp) index does. */
  function NewestFirst(): Tie {
    (id: nat) => id as int
  }

  lemma ReverseSnoc<T>(s: seq<T>, x: T)
    ensures Reverse(s + [x]) == [x] + Reverse(s)
  {
  }

  lemma {:induction false} SortReverses(rows: seq<Row>)
    requires Increasing(rows) && Nondecreasing(rows)
    ensures SortDesc(rows, NewestFirst()) == Reverse(rows)
  {
    if rows != [] {
      var init, x := rows[..|rows| - 1], rows[|rows| - 1];
      SortReverses(init);
      ReverseSnoc(init, x);
      assert rows == init + [x];
      assert init != [] ==> Reverse(init)[0] == rows[|rows| - 2] && Before(x, Reverse(init)[0], NewestFirst());
      hide Reverse;
    }
  }

  /** When time never runs backwards the DESC query is the table's order, newest row first. */
  lemma RecentLogsAreTheLastRows(t: Tables, service: string, limit: nat)
    requires Increasing(t.events) && Nondecreasing(Filter(t.events, OfService(service)))
    ensures Reverse(QueryRecentLogs(t, service, limit, NewestFirst())) ==
        LastN(Filter(t.events, OfService(service)), limit)
  {
    FilterIncreasing(t.events, OfService(service));
    SortReverses(Filter(t.events, OfService(service)));
    ReverseTake(Filter(t.events, OfService(service)), limit);
  }
}
