/**
 Restart: Start rebuilds the cache from the tables (warmCache in internal/broker/broker.go), and what the
 new broker then serves is compared with what the old one served before its clean Stop.
*/
module Restart {
  import opened Seqs
  import opened Records
  import opened Storage
  import opened Queries
  import opened LogCaches
  import opened BatchWriters
  import opened Lifecycle
  import opened LifecycleSafety
  import opened PipelineOrder

  const CACHE_SIZE := 10000

  /** The services warmCache knows about: those with a row in the sessions table, whatever log_events holds. */
  function ServicesOf(t: Tables): set<string> {
    set id | id in t.sessions :: t.sessions[id].service
  }

  predicate Precedes(a: string, b: string) {
    if b == "" then false
    else if a == "" then true
    else a[0] < b[0] || (a[0] == b[0] && Precedes(a[1..], b[1..]))
  }

  lemma {:induction false} PrecedesOrTotal(a: string, b: string)
    ensures a == b || Precedes(a, b) || Precedes(b, a)
  {
    if a != "" && b != "" && a[0] == b[0] {
      PrecedesOrTotal(a[1..], b[1..]);
      assert a[1..] == b[1..] ==> a == [a[0]] + a[1..] == [b[0]] + b[1..] == b;
    }
  }

  lemma {:induction false} PrecedesTransitive(a: string, b: string, c: string)
    requires Precedes(a, b) && Precedes(b, c)
    ensures Precedes(a, c)
  {
    if a != "" && a[0] == b[0] && b[0] == c[0] { PrecedesTransitive(a[1..], b[1..], c[1..]); }
  }

  ghost predicate Ascending(names: seq<string>) {
    forall i, j :: 0 <= i < j < |names| ==> Precedes(names[i], names[j])
  }

  /** Adds a name to an ordered list without repeating it. */
  function PutName(name: string, names: seq<string>): (r: seq<string>)
    ensures forall x :: x in r <==> x in names || x == name
  {
    if names == [] then [name]
    else if name == names[0] then names
    else if Precedes(name, names[0]) then [name] + names
    else [names[0]] + PutName(name, names[1..])
  }

  lemma {:induction false} PutKeepsOrder(name: string, names: seq<string>)
    requires Ascending(names)
    ensures Ascending(PutName(name, names))
  {
    if names != [] && name != names[0] {
      PrecedesOrTotal(name, names[0]);
      if Precedes(name, names[0]) {
        forall j | 0 <= j < |names| ensures Precedes(name, names[j]) {
          if j > 0 { PrecedesTransitive(name, names[0], names[j]); }
        }
      } else {
        PutKeepsOrder(name, names[1..]);
        var rest := PutName(name, names[1..]);
        forall j | 0 <= j < |rest| ensures Precedes(names[0], rest[j]) {
          assert rest[j] in names[1..] || rest[j] == name;
        }
      }
    }
  }

  /** SELECT DISTINCT service FROM sessions ORDER BY service. */
  method QueryServices(t: Tables) returns (services: seq<string>)
    requires WellFormed(t)
    ensures Ascending(services)
    ensures forall s :: s in services <==> s in ServicesOf(t)
  {
    services := [];
    for id := 0 to t.lastSession + 1
      invariant Ascending(services)
      invariant forall s :: s in services <==> exists k :: 0 <= k < id && k in t.sessions && t.sessions[k].service == s
    {
      if id in t.sessions {
        PutKeepsOrder(t.sessions[id].service, services);
        services := PutName(t.sessions[id].service, services);
      }
    }
  }

  function RecOf(): Row -> Record {
    (r: Row) => r.rec
  }

  /** What warming adds for one service: the newest rows, put back into chronological order. */
  function WarmRecords(t: Tables, service: string, tie: Tie): seq<Record> {
    Map(Reverse(QueryRecentLogs(t, service, CACHE_SIZE, tie)), RecOf())
  }

  function WarmHistory(t: Tables, service: string, tie: Tie): seq<Record> {
    if service in ServicesOf(t) then WarmRecords(t, service, tie) else []
  }

  lemma RecentLogsOfService(t: Tables, service: string, limit: nat, tie: Tie)
    ensures forall i :: 0 <= i < |QueryRecentLogs(t, service, limit, tie)| ==>
        QueryRecentLogs(t, service, limit, tie)[i].rec.service == service
  {
    var rows, kept := Select(t, OfService(service), tie), Filter(t.events, OfService(service));
    forall i | 0 <= i < |rows| ensures rows[i].rec.service == service {
      assert rows[i] in multiset(rows);
      assert rows[i] in kept;
    }
  }

  /** warm holds the service's rows, which arrive newest first, oldest first. */
  ghost predicate Backwards(events: seq<Row>, warm: seq<Record>, service: string) {
    && |warm| == |events|
    && forall i :: 0 <= i < |events| ==>
         events[i].rec.service == service && warm[|events| - 1 - i] == events[i].rec
  }

  lemma WarmIsBackwards(t: Tables, service: string, tie: Tie)
    ensures Backwards(QueryRecentLogs(t, service, CACHE_SIZE, tie), WarmRecords(t, service, tie), service)
  {
    RecentLogsOfService(t, service, CACHE_SIZE, tie);
  }

  /** The inner loop: rows arrive newest first and are added oldest first. */
  method AddReversed(events: seq<Row>, ghost warm: seq<Record>, service: string, cache: LogCache)
    requires cache.Valid() && Backwards(events, warm, service)
    modifies cache.Repr
    ensures cache.Valid() && fresh(cache.Repr - old(cache.Repr))
    ensures cache.History(service) == old(cache.History(service)) + warm
    ensures forall s :: s != service ==> cache.History(s) == old(cache.History(s))
  {
    hide LogCache.Valid, LogCache.History;
    for i := |events| downto 0
      invariant cache.Valid() && fresh(cache.Repr - old(cache.Repr))
      invariant cache.History(service) == old(cache.History(service)) + warm[..|events| - i]
      invariant forall s :: s != service ==> cache.History(s) == old(cache.History(s))
    {
      assert events[i].rec.service == service && warm[|events| - 1 - i] == events[i].rec;
      assert warm[..|events| - i] == warm[..|events| - i - 1] + [events[i].rec];
      cache.Add(events[i].rec);
    }
    assert warm[..|events|] == warm;
  }

  /** One service of the outer loop. */
  method WarmService(t: Tables, service: string, tie: Tie, cache: LogCache)
    requires cache.Valid()
    modifies cache.Repr
    ensures cache.Valid() && fresh(cache.Repr - old(cache.Repr))
    ensures cache.History(service) == old(cache.History(service)) + WarmRecords(t, service, tie)
    ensures forall s :: s != service ==> cache.History(s) == old(cache.History(s))
  {
    WarmIsBackwards(t, service, tie);
    var events := QueryRecentLogs(t, service, CACHE_SIZE, tie);
    AddReversed(events, WarmRecords(t, service, tie), service, cache);
  }

  function WarmedBy(t: Tables, services: seq<string>, tie: Tie, failing: set<string>, s: string): seq<Record> {
    if s in services && s !in failing then WarmRecords(t, s, tie) else []
  }

  /** warmCache on an empty cache: nothing when the services cannot be listed, and a service whose query fails is skipped. */
  method WarmCache(t: Tables, tie: Tie, listFails: bool, failing: set<string>) returns (cache: LogCache)
    requires WellFormed(t)
    ensures cache.Valid() && fresh(cache) && cache.bufferSize == 10000
    ensures forall s :: cache.History(s) == if listFails || s in failing then [] else WarmHistory(t, s, tie)
  {
    hide LogCache.Valid, LogCache.History;
    cache := new LogCache(CACHE_SIZE);
    if listFails {
      return;
    }
    var services := QueryServices(t);
    for i := 0 to |services|
      invariant cache.Valid() && fresh(cache) && fresh(cache.Repr) && cache.bufferSize == CACHE_SIZE
      invariant forall s :: cache.History(s) == WarmedBy(t, services[..i], tie, failing, s)
    {
      AscendingIsDistinct(services, i);
      assert forall s :: s in services[..i + 1] <==> s in services[..i] || s == services[i];
      if services[i] !in failing {
        WarmService(t, services[i], tie, cache);
      }
    }
    assert services[..|services|] == services;
  }

  lemma {:induction false} NotBeforeItself(a: string)
    ensures !Precedes(a, a)
  {
    if a != "" { NotBeforeItself(a[1..]); }
  }

  lemma AscendingIsDistinct(names: seq<string>, i: nat)
    requires Ascending(names) && i < |names|
    ensures names[i] !in names[..i]
  {
    NotBeforeItself(names[i]);
  }

  // ---------------------------------------------------------------------------------------------
  // What a restarted broker serves

  /** Recent(n) of a cache whose additions for the service were `history`. */
  function Served(history: seq<Record>, n: nat): seq<Record> {
    LastN(history, Min(n, CACHE_SIZE))
  }

  lemma ReverseOfPrefix<T>(s: seq<T>, n: nat)
    ensures LastN(Reverse(s), n) == Reverse(s[..Min(n, |s|)])
  {
    hide LastN, Reverse;
    var m, l := Min(n, |s|), LastN(Reverse(s), n);
    forall i | 0 <= i < m ensures l[i] == Reverse(s[..m])[i] {
      assert l[i] == Reverse(s)[|s| - m + i] == s[m - 1 - i];
      assert Reverse(s[..m])[i] == s[..m][m - 1 - i];
    }
  }

  /**
   A restarted broker serves the database: for a service with a sessions row, and any n the cache can hold,
   Recent(n) is the first n rows of the DESC query, oldest first, however the engine breaks ties.
  */
  lemma RestartServesTheTable(t: Tables, service: string, n: nat, tie: Tie)
    requires service in ServicesOf(t) && n <= 10000
    ensures Served(WarmHistory(t, service, tie), n) ==
        Map(Reverse(QueryRecentLogs(t, service, n, tie)), RecOf())
  {
    hide Select, SortDesc;
    var all := QueryRecentLogs(t, service, CACHE_SIZE, tie);
    assert QueryRecentLogs(t, service, n, tie) == all[..Min(n, |all|)];
    MapLastN(Reverse(all), RecOf(), n);
    ReverseOfPrefix(all, n);
  }

  /** A service whose last sessions row is gone is not warmed, whatever rows it still has. */
  lemma UnlistedServiceIsNotWarmed(t: Tables, service: string, tie: Tie)
    ensures service !in ServicesOf(t) ==> WarmHistory(t, service, tie) == []
    ensures WarmHistory(t, service, tie) == WarmRecords(t, service, tie)
        <==> service in ServicesOf(t) || Filter(t.events, OfService(service)) == []
  {
    var rows := Select(t, OfService(service), tie);
    assert |multiset(rows)| == |rows|;
    assert multiset(rows) == multiset(Filter(t.events, OfService(service)));
    assert |multiset(Filter(t.events, OfService(service)))| == |Filter(t.events, OfService(service))|;
  }

  function IsFor(service: string): Record -> bool {
    (r: Record) => r.service == service
  }

  /** The service's rows among the committed events, stripped of their IDs. */
  lemma RowsOfItems(items: seq<Item>, last: nat, service: string)
    ensures Map(Filter(Number(Map(items, RecordOf()), last), OfService(service)), RecOf()) ==
        Map(Filter(items, ForService(service)), RecordOf())
  {
    var recs := Map(items, RecordOf());
    var rows := Number(recs, last);
    assert Map(rows, RecOf()) == recs;
    FilterMap(rows, RecOf(), IsFor(service), OfService(service));
    FilterMap(items, RecordOf(), IsFor(service), ForService(service));
  }

  /** In time order with newest-first ties, warming restores the newest rows as they stand in the table. */
  lemma WarmRecordsAreTheLastRows(t: Tables, service: string)
    requires Increasing(t.events) && Nondecreasing(Filter(t.events, OfService(service)))
    ensures WarmRecords(t, service, NewestFirst()) ==
        LastN(Map(Filter(t.events, OfService(service)), RecOf()), CACHE_SIZE)
  {
    RecentLogsAreTheLastRows(t, service, CACHE_SIZE);
    MapLastN(Filter(t.events, OfService(service)), RecOf(), CACHE_SIZE);
  }

  lemma PrefixNondecreasing(a: seq<Row>, b: seq<Row>)
    requires Nondecreasing(a + b)
    ensures Nondecreasing(a)
  {
    forall i, j | 0 <= i < j < |a| ensures a[i].rec.timestamp <= a[j].rec.timestamp {
      assert (a + b)[i] == a[i] && (a + b)[j] == a[j];
    }
  }

  /** What the running broker's cache has been given for a service since it started. */
  function CacheHistory(b: Broker, service: string): seq<Record> {
    WarmHistory(b.start, service, NewestFirst()) + Map(Filter(b.pipe.cached, ForService(service)), RecordOf())
  }

  lemma SameServed(e0: seq<Record>, more: seq<Record>, n: nat)
    ensures Served(LastN(e0 + more, CACHE_SIZE), n) == Served(LastN(e0, CACHE_SIZE) + more, n)
  {
    LastNConcat(e0, more, CACHE_SIZE);
    LastNOfLastN(e0 + more, Min(n, CACHE_SIZE), CACHE_SIZE);
    LastNOfLastN(LastN(e0, CACHE_SIZE) + more, Min(n, CACHE_SIZE), CACHE_SIZE);
  }

  lemma FilterAllRows(b: Broker, service: string)
    ensures Map(Filter(AllRows(b), OfService(service)), RecOf()) ==
        Map(Filter(b.start.events, OfService(service)), RecOf())
        + Map(Filter(Persisted(b.pipe.flushes), ForService(service)), RecordOf())
  {
    var rows := Number(Map(Persisted(b.pipe.flushes), RecordOf()), b.start.lastEvent);
    FilterConcat(b.start.events, rows, OfService(service));
    MapConcat(Filter(b.start.events, OfService(service)), Filter(rows, OfService(service)), RecOf());
    RowsOfItems(Persisted(b.pipe.flushes), b.start.lastEvent, service);
  }

  /** The conditions of the round trip that concern one service. */
  ghost predicate Undisturbed(b: Broker, service: string) {
    && Filter(b.pipe.dropped, ForService(service)) == [] && b.cutoff.None?
    && Nondecreasing(Filter(b.desk.tables.events, OfService(service)))
    && Undisordered(b, service)
    && service in ServicesOf(b.desk.tables)
    && (service in ServicesOf(b.start) || Filter(b.start.events, OfService(service)) == [])
  }

  lemma RoundTripOfClosed(b: Broker, service: string, n: nat)
    requires Inv(b) && StoreIsClosed(b) && Clean(b) && Undisturbed(b, service)
    requires Filter(b.pipe.cached, ForService(service)) == Filter(b.pipe.accepted, ForService(service))
    ensures Served(WarmHistory(b.desk.tables, service, NewestFirst()), n) == Served(CacheHistory(b, service), n)
  {
    ClosedAndClean(b, Item(0, 0, LogMessage("", "", 0, "", "")), 0);
    var t, t0 := b.desk.tables, b.start;
    var rows := Number(Map(Persisted(b.pipe.flushes), RecordOf()), t0.lastEvent);
    FilterConcat(t0.events, rows, OfService(service));
    PrefixNondecreasing(Filter(t0.events, OfService(service)), Filter(rows, OfService(service)));
    WarmRecordsAreTheLastRows(t, service);
    StartWellFormed(b);
    WarmRecordsAreTheLastRows(t0, service);
    UnlistedServiceIsNotWarmed(t0, service, NewestFirst());
    FilterAllRows(b, service);
    SameServed(Map(Filter(t0.events, OfService(service)), RecOf()),
               Map(Filter(b.pipe.cached, ForService(service)), RecordOf()), n);
  }

  /** The tables a run began with were well formed: they are a prefix of what it ended with. */
  lemma StartWellFormed(b: Broker)
    requires Inv(b) && b.cutoff.None?
    ensures Increasing(b.start.events)
  {
    forall i, j | 0 <= i < j < |b.start.events| ensures b.start.events[i].id < b.start.events[j].id {
      assert AllRows(b)[i] == b.start.events[i] && AllRows(b)[j] == b.start.events[j];
    }
  }

  lemma ClosedTookAll(b: Broker, service: string)
    requires Inv(b) && StoreIsClosed(b) && Filter(b.pipe.dropped, ForService(service)) == []
    ensures AllTaken(b, service)
  {
    AllGone(b.handlers);
  }

  /**
   Restart round trip. After a clean Stop with no store error or prune, for a service in the sessions table
   with nothing dropped, no event overtaken on its way to the channel, and rows with nondecreasing timestamps,
   the new broker answers every Recent(n) exactly as the old one did.
  */
  lemma RestartRoundTrip(t: Tables, retention: bool, steps: seq<Step>, b: Broker, service: string, n: nat)
    requires WellFormed(t) && Reaches(Started(t, retention), steps, b) && StoreIsClosed(b)
    requires forall i :: 0 <= i < |steps| ==> !StoreFails(steps[i])
    requires Undisturbed(b, service)
    ensures Served(WarmHistory(b.desk.tables, service, NewestFirst()), n) == Served(CacheHistory(b, service), n)
  {
    ReachableInv(t, retention, steps, b);
    RunKeepsClean(Started(t, retention), steps, b);
    ReachableOvertaking(t, retention, steps, b);
    ClosedTookAll(b, service);
    hide Inv, Overtaking, Reaches, Clean;
    OneOrderIffNoneOvertaken(b, service);
    RoundTripOfClosed(b, service, n);
  }
}
