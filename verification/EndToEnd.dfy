/** From a frame on the socket through handleLog to the errors query. */
module EndToEnd {
  import opened Json
  import opened Records
  import opened Storage
  import opened Queries
  import opened LogCaches
  import opened BatchWriters
  import opened Lifecycle
  import opened LifecycleSafety
  import Codec
  import CutFrames
  import Likes
  import Levels

  // ---------------------------------------------------------------------------------------------
  // The read loop

  /**
   What one frame means to handleConnection: one that is not JSON ends the loop, a value that is no object, an
   unknown type or a mistyped field is logged and skipped, and only three kinds of message have an effect.
  */
  function OnFrame(data: string): Message {
    if DecodeJson(data).None? then Broken
    else
      var m := Codec.DecodeMessage(data);
      if m.None? then Other
      else if m.value.SessionStart? then SessionStart(m.value.start)
      else if m.value.Log? then Log(m.value.log)
      else if m.value.SessionEnd? then SessionEnd(m.value.session, m.value.timestamp)
      else Other
  }

  /** A client's messages reach the machine as they were sent when their strings are UTF-8, and cleaned otherwise. */
  lemma FrameReachesHandler(m: Codec.Message)
    requires Codec.InRange(m)
    ensures var clean := Codec.CleanMessage(m);
      OnFrame(Codec.Frame(m)) ==
        match clean
        case SessionStart(s) => SessionStart(s)
        case Log(l) => Log(l)
        case SessionEnd(session, ts, _) => SessionEnd(session, ts)
        case Query(_, _, _, _, _) => Other
        case SessionStartReply(_) => Other
    ensures Codec.CleanMessage(m) == m <==> Codec.AllValid(m)
  {
    Codec.MessageRoundTrip(m);
    Codec.CleanExactlyWhenValid(m);
    hide Codec.Frame, Codec.DecodeMessage, Codec.CleanMessage, Codec.AllValid, Codec.InRange, DecodeJson;
    CutFrames.FrameIsJson(m);
  }

  // ---------------------------------------------------------------------------------------------
  // handleLog

  /** The part of the Broker struct handleLog works on. */
  class EventSink {
    const cache: LogCache
    var queue: seq<Item>          // the buffered channel
    ghost var pipe: Pipe

    ghost predicate Valid()
      reads this, cache, cache.Repr
    {
      this !in cache.Repr && cache.Valid() && queue == pipe.queue && |queue| <= EVENT_CH_SIZE
    }

    constructor (bufferSize: int)
      ensures Valid() && fresh(cache) && fresh(cache.Repr) && cache.bufferSize == bufferSize
      ensures pipe == Pipe([], [], [], [], [], []) && forall s :: cache.History(s) == []
    {
      cache := new LogCache(bufferSize);
      queue, pipe := [], Pipe([], [], [], [], [], []);
    }

    /** First into the cache, then onto the channel unless it is full; the client never waits. */
    method HandleLog(it: Item) returns (sent: bool)
      requires Valid()
      modifies this, cache.Repr
      ensures Valid() && fresh(cache.Repr - old(cache.Repr))
      ensures sent <==> |old(queue)| < EVENT_CH_SIZE
      ensures forall s :: cache.History(s) == old(cache.History(s)) + if s == it.msg.service then [ToRecord(it.msg)] else []
      ensures cache.History(it.msg.service) == old(cache.History(it.msg.service)) + [
          Record(Decimal.ParseInt(it.msg.session).value, it.msg.timestamp, it.msg.stream, LevelOf(it.msg),
                 it.msg.message, it.msg.service)]
      ensures pipe == old(pipe).(
          cached := old(pipe).cached + [it],
          queue := if sent then old(pipe).queue + [it] else old(pipe).queue,
          accepted := if sent then old(pipe).accepted + [it] else old(pipe).accepted,
          dropped := if sent then old(pipe).dropped else old(pipe).dropped + [it])
    {
      hide LogCache.Valid, LogCache.History, Levels.Detect, Decimal.ParseInt;
      var sessID := Decimal.ParseInt(it.msg.session).value;
      var detected := Levels.Detect(it.msg.message);
      if detected == "" && it.msg.stream == "stderr" {
        detected := "error";
      }
      cache.Add(Record(sessID, it.msg.timestamp, it.msg.stream, detected, it.msg.message, it.msg.service));
      pipe := pipe.(cached := pipe.cached + [it]);
      sent := |queue| < EVENT_CH_SIZE;
      if sent {
        queue := queue + [it];
        pipe := pipe.(queue := queue, accepted := pipe.accepted + [it]);
      } else {
        pipe := pipe.(dropped := pipe.dropped + [it]);
      }
    }
  }

  /** The two steps of the machine, taken back to back by one handler, do to the pipe what HandleLog does. */
  lemma HandleLogIsTwoSteps(b: Broker, c: Conn, m: LogMessage)
    requires c < |b.handlers| && b.handlers[c].pc.Reading? && !ChannelIsClosed(b)
    ensures var it := Item(c, b.handlers[c].logs, m); var b' := Offer(CachedLog(b, c, m), c);
      var sent := |b.pipe.queue| < EVENT_CH_SIZE;
      b'.pipe == b.pipe.(
        cached := b.pipe.cached + [it],
        queue := if sent then b.pipe.queue + [it] else b.pipe.queue,
        accepted := if sent then b.pipe.accepted + [it] else b.pipe.accepted,
        dropped := if sent then b.pipe.dropped else b.pipe.dropped + [it])
  {
  }

  // ---------------------------------------------------------------------------------------------
  // The errors query

  lemma {:induction false} PersistedIsFlushed(flushes: seq<InsertCall>, it: Item)
    requires it in Persisted(flushes)
    ensures it in Flushed(flushes)
  {
    if flushes != [] && it in Persisted(flushes[..|flushes| - 1]) {
      PersistedIsFlushed(flushes[..|flushes| - 1], it);
    }
  }

  lemma PersistedIsCached(b: Broker, it: Item)
    requires FlowInv(b.pipe) && CountInv(b.pipe, b.handlers) && it in Persisted(b.pipe.flushes)
    ensures it in b.pipe.accepted && it in b.pipe.cached
  {
    PersistedIsFlushed(b.pipe.flushes, it);
    assert InFlight(b.handlers, it) || !InFlight(b.handlers, it);
    assert it in multiset(b.pipe.accepted);
    assert it in multiset(b.pipe.cached);
  }

  /** A row this run stored came through the cache and the channel. */
  lemma RowCameThrough(b: Broker, r: Row) returns (it: Item)
    requires Inv(b) && r in b.desk.tables.events && r.id > b.start.lastEvent && WellFormed(b.start)
    ensures it in b.pipe.accepted && it in b.pipe.cached && r.rec == ToRecord(it.msg)
    ensures r.rec.message == it.msg.message && r.rec.stream == it.msg.stream
    ensures r.rec.timestamp == it.msg.timestamp && r.rec.service == it.msg.service
    ensures r.rec.sessionId == Decimal.ParseInt(it.msg.session).value && r.rec.level == LevelOf(it.msg)
  {
    hide LifeInv, CountInv, OrderInv, FlowInv, DeskInv;
    var done, before := Persisted(b.pipe.flushes), b.start.events;
    assert r in AllRows(b);
    var i :| 0 <= i < |AllRows(b)| && AllRows(b)[i] == r;
    if i < |before| {
      assert false;
    }
    it := done[i - |before|];
    PersistedIsCached(b, it);
  }

  /**
   Errors end to end: for a row that came through the broker, the errors query returns it exactly when its
   line was on stderr, or has an ERROR or ERR word and no FATAL or PANIC word, and it is of the service and
   not older than a positive bound; and the entry cached for the same line carries the same level.
  */
  lemma ErrorsEndToEnd(t: Tables, retention: bool, steps: seq<Step>, b: Broker,
                       service: string, since: int, tie: Tie, r: Row) returns (it: Item)
    requires WellFormed(t) && Reaches(Started(t, retention), steps, b)
    requires r in b.desk.tables.events && r.id > t.lastEvent
    ensures it in b.pipe.cached && it in b.pipe.accepted && r.rec == ToRecord(it.msg)
    ensures r.rec.level == LevelOf(it.msg)
    ensures r in QueryErrors(b.desk.tables, service, since, tie) <==>
        && it.msg.service == service
        && (it.msg.stream == "stderr" || IsErrorLine(it.msg.message))
        && (since <= 0 || it.msg.timestamp >= since)
    ensures Descending(QueryErrors(b.desk.tables, service, since, tie), tie)
  {
    ReachableInv(t, retention, steps, b);
    it := RowCameThrough(b, r);
    ErrorsQueryFindsExactlyTheErrorLines(b.desk.tables, service, since, tie, r, it.msg);
  }

  /**
   Search end to end: for a row that came through the broker, a search for a query without wildcards returns it exactly
   when the line as it was sent contains the query, it is of the service, and it is not older than a positive bound; and
   whatever contains the query is returned for any query.
  */
  lemma SearchEndToEnd(t: Tables, retention: bool, steps: seq<Step>, b: Broker,
                       service: string, query: string, since: int, tie: Tie, r: Row) returns (it: Item)
    requires WellFormed(t) && Reaches(Started(t, retention), steps, b)
    requires r in b.desk.tables.events && r.id > t.lastEvent
    ensures it in b.pipe.cached && it in b.pipe.accepted
    ensures Likes.IsPlain(query) ==> (r in SearchLogs(b.desk.tables, service, query, since, tie) <==>
        && it.msg.service == service
        && Likes.Contains(it.msg.message, query)
        && (since <= 0 || it.msg.timestamp >= since))
    ensures (it.msg.service == service && Likes.Contains(it.msg.message, query)
             && (since <= 0 || it.msg.timestamp >= since)) ==> r in SearchLogs(b.desk.tables, service, query, since, tie)
    ensures Descending(SearchLogs(b.desk.tables, service, query, since, tie), tie)
  {
    ReachableInv(t, retention, steps, b);
    it := RowCameThrough(b, r);
    WellFormedTables(b);
    hide Reaches, Likes.Contains, Likes.StandIn, SearchLogs;
    SearchFindsThePiecesInRows(b.desk.tables, service, query, since, tie, r);
    SearchIsSorted(b.desk.tables, service, query, since, tie, r);
    if Likes.IsPlain(query) {
      SearchFindsExactlyTheSubstringRows(b.desk.tables, service, query, since, tie, r);
    }
  }

  lemma WellFormedTables(b: Broker)
    requires Inv(b)
    ensures WellFormed(b.desk.tables)
  {
  }

  lemma SearchIsSorted(t: Tables, service: string, query: string, since: int, tie: Tie, r: Row)
    requires WellFormed(t)
    ensures Descending(SearchLogs(t, service, query, since, tie), tie)
  {
    SelectIsCompleteAndSorted(t, Hits(service, query, since), tie, r);
  }
}
