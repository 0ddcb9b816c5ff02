/** What every reachable state of the broker satisfies: module Lifecycle's invariants and main theorems. */
module LifecycleSafety {
  import opened Seqs
  import opened Decimal
  import opened Records
  import opened Storage
  import opened BatchWriters
  import opened Lifecycle
  import O = Ownership

  // ---------------------------------------------------------------------------------------------
  // Goroutines, wait groups and phases

  function Live(handlers: seq<Handler>): nat {
    if handlers == [] then 0
    else Live(handlers[..|handlers| - 1]) + if handlers[|handlers| - 1].pc.Gone? then 0 else 1
  }

  lemma {:induction false} LiveUpdate(handlers: seq<Handler>, c: Conn, h: Handler)
    requires c < |handlers|
    ensures Live(handlers[c := h]) ==
        Live(handlers) - (if handlers[c].pc.Gone? then 0 else 1) + (if h.pc.Gone? then 0 else 1)
  {
    var n := |handlers| - 1;
    if c == n {
      assert handlers[c := h][..n] == handlers[..n];
    } else {
      LiveUpdate(handlers[..n], c, h);
      assert handlers[c := h][..n] == handlers[..n][c := h];
    }
  }

  lemma LiveSnoc(handlers: seq<Handler>, h: Handler)
    ensures Live(handlers + [h]) == Live(handlers) + if h.pc.Gone? then 0 else 1
  {
    assert (handlers + [h])[..|handlers|] == handlers;
  }

  lemma {:induction false} LiveZero(handlers: seq<Handler>, c: Conn)
    requires c < |handlers| && !handlers[c].pc.Gone?
    ensures Live(handlers) > 0
  {
    if c < |handlers| - 1 { LiveZero(handlers[..|handlers| - 1], c); }
  }

  ghost predicate LifeInv(b: Broker) {
    && b.connWg == (if b.accepting then 1 else 0) + Live(b.handlers)
    && b.writerWg == (if b.writing then 1 else 0)
    && (Rank(b.phase) >= 3 ==> !b.accepting && Live(b.handlers) == 0)
    && (!b.writing ==> ChannelIsClosed(b) && b.pipe.queue == [] && b.pipe.batch == [])
    && (Rank(b.phase) >= 5 ==> !b.writing)
    && !b.fault
  }

  /** A live handler holds Stop at its first wait: the channel and the store are still open. */
  lemma LiveHandlerHoldsStop(b: Broker, c: Conn)
    requires LifeInv(b) && c < |b.handlers| && !b.handlers[c].pc.Gone?
    ensures Rank(b.phase) < 3 && b.connWg > 0
  {
    LiveZero(b.handlers, c);
  }

  lemma LifeOfHandler(b: Broker, c: Conn, b': Broker)
    requires LifeInv(b) && c < |b.handlers| == |b'.handlers| && !b'.handlers[c].pc.Gone?
    requires b'.handlers == b.handlers[c := b'.handlers[c]] && !b.handlers[c].pc.Gone?
    requires b'.connWg == b.connWg && b'.accepting == b.accepting && b'.phase == b.phase
    requires b'.writing == b.writing && b'.writerWg == b.writerWg && b'.fault == b.fault
    ensures LifeInv(b')
  {
    LiveHandlerHoldsStop(b, c);
    LiveUpdate(b.handlers, c, b'.handlers[c]);
  }

  lemma LifeAfterRead(b: Broker, c: Conn, host: string, now: int, fails: bool)
    requires LifeInv(b) && At(b, c, Reading) && b.handlers[c].peer.inbox != []
    ensures LifeInv(ReadNext(b, c, host, now, fails))
  {
    LiveHandlerHoldsStop(b, c);
    var b1, m := Consumed(b, c), b.handlers[c].peer.inbox[0];
    LifeOfHandler(b, c, b1);
    if m.SessionStart? {
      assert LifeInv(Registered(b1, c, m.start, host, now, fails));
    } else if m.SessionEnd? {
      LifeAfterEnd(b1, c, m.session, m.timestamp, fails);
    } else if m.Log? {
      LifeOfHandler(b1, c, CachedLog(b1, c, m.msg));
    } else if m.Broken? {
      LifeOfHandler(b1, c, Moved(b1, c, Leaving));
    }
  }

  lemma LifeAfterEnd(b: Broker, c: Conn, s: string, ts: int, fails: bool)
    requires LifeInv(b) && Rank(b.phase) < 3
    ensures LifeInv(Ended(b, c, s, ts, fails))
  {
  }

  lemma LifeStepOfHandler(b: Broker, step: Step)
    requires LifeInv(b) && Enabled(b, step) && (step.Send? || step.Eof? || step.CleanUp?)
    ensures LifeInv(Next(b, step))
  {
    LiveHandlerHoldsStop(b, step.c);
    LifeOfHandler(b, step.c, Next(b, step));
  }

  lemma LifeStepOfExit(b: Broker, c: Conn)
    requires LifeInv(b) && At(b, c, Cleaned)
    ensures LifeInv(Exited(b, c))
  {
    LiveHandlerHoldsStop(b, c);
    LiveUpdate(b.handlers, c, b.handlers[c].(pc := Gone));
  }

  lemma LifeStepOfClient(b: Broker, c: Conn, h: Handler)
    requires LifeInv(b) && c < |b.handlers| && h.pc == b.handlers[c].pc
    ensures LifeInv(WithHandler(b, c, h))
  {
    LiveUpdate(b.handlers, c, h);
  }

  lemma LifeStepOfWriter(b: Broker, step: Step)
    requires LifeInv(b) && Enabled(b, step) && IsWriterStep(step)
    ensures LifeInv(Next(b, step))
  {
  }

  lemma LifeStep(b: Broker, step: Step)
    requires LifeInv(b) && Enabled(b, step)
    ensures LifeInv(Next(b, step))
  {
    if step.ClientSends? || step.ClientCloses? {
      LifeStepOfClient(b, step.c, Next(b, step).handlers[step.c]);
    } else if step.Read? {
      LifeAfterRead(b, step.c, step.host, step.now, step.fails);
    } else if step.Exit? {
      LifeStepOfExit(b, step.c);
    } else if IsHandlerStep(step) {
      LifeStepOfHandler(b, step);
    } else if IsWriterStep(step) {
      LifeStepOfWriter(b, step);
    } else if step.Accept? {
      LiveSnoc(b.handlers, Handler(b.backlog[0], Reading, 0));
    }
  }

  // ---------------------------------------------------------------------------------------------
  // The event pipeline

  /** Channel order is batch by batch what was flushed, then the current batch, then the queue. */
  ghost predicate FlowInv(p: Pipe) {
    && |p.queue| <= EVENT_CH_SIZE
    && Sized(p.batch, p.flushes)
    && p.accepted == Flushed(p.flushes) + p.batch + p.queue
  }

  lemma FlowReceive(b: Broker, fails: bool)
    requires FlowInv(b.pipe) && b.pipe.queue != []
    ensures FlowInv(Received(b, fails).pipe)
  {
    var p, p' := b.pipe, Received(b, fails).pipe;
    MessageFacts(WriterOf(b), p.queue[0], fails);
    assert p.queue == [p.queue[0]] + p.queue[1..];
    assert p'.accepted == (Flushed(p'.flushes) + p'.batch) + p'.queue;
  }

  lemma FlowFlush(b: Broker, fails: bool)
    requires FlowInv(b.pipe)
    ensures FlowInv(WithWriter(b, FlushBatch(WriterOf(b), fails)).pipe)
  {
    FlushFacts(WriterOf(b), fails);
  }

  lemma FlowOffer(b: Broker, c: Conn)
    requires FlowInv(b.pipe) && c < |b.handlers| && b.handlers[c].pc.Sending?
    ensures FlowInv(Offer(b, c).pipe)
  {
    var p, it := b.pipe, b.handlers[c].pc.item;
    assert p.accepted + [it] == Flushed(p.flushes) + p.batch + (p.queue + [it]);
  }

  lemma FlowRead(b: Broker, c: Conn, host: string, now: int, fails: bool)
    requires FlowInv(b.pipe) && At(b, c, Reading) && b.handlers[c].peer.inbox != []
    ensures FlowInv(ReadNext(b, c, host, now, fails).pipe)
  {
  }

  lemma FlowStep(b: Broker, step: Step)
    requires FlowInv(b.pipe) && Enabled(b, step)
    ensures FlowInv(Next(b, step).pipe)
  {
    hide ReadNext, O.Cleanup;
    if step.Read? {
      FlowRead(b, step.c, step.host, step.now, step.fails);
    } else if step.Send? {
      FlowOffer(b, step.c);
    } else if step.Receive? {
      FlowReceive(b, step.fails);
    } else if IsWriterStep(step) {
      FlowFlush(b, step.fails);
    }
  }

  /** Every event ever cached is accepted, dropped, or between its Add and its send: exactly one of these. */
  ghost predicate CountInv(p: Pipe, handlers: seq<Handler>) {
    forall it: Item {:trigger InFlight(handlers, it)} ::
      multiset(p.cached)[it] ==
        multiset(p.accepted)[it] + multiset(p.dropped)[it] + if InFlight(handlers, it) then 1 else 0
  }

  /** Two events of one connection appear in the order the connection sent them, and never twice. */
  ghost predicate InOrder(s: seq<Item>) {
    forall i, j :: 0 <= i < j < |s| && s[i].conn == s[j].conn ==> s[i].n < s[j].n
  }

  /** An event that was read, and is no longer on its way to the channel. */
  predicate Read(handlers: seq<Handler>, it: Item) {
    it.conn < |handlers| && it.n < handlers[it.conn].logs
  }

  predicate Settled(handlers: seq<Handler>, it: Item) {
    Read(handlers, it) && (handlers[it.conn].pc.Sending? ==> it.n + 1 < handlers[it.conn].logs)
  }

  ghost predicate OrderInv(p: Pipe, handlers: seq<Handler>) {
    && InOrder(p.cached) && InOrder(p.accepted)
    && (forall c :: 0 <= c < |handlers| && handlers[c].pc.Sending? ==>
          var it := handlers[c].pc.item; it.conn == c && it.n + 1 == handlers[c].logs)
    && (forall it :: it in p.cached ==> Read(handlers, it))
    && (forall it :: it in p.accepted ==> Settled(handlers, it))
  }

  /** Nothing about events in flight changed: only read loops starting, ending or waiting. */
  ghost predicate Calm(handlers: seq<Handler>, handlers': seq<Handler>) {
    && |handlers| <= |handlers'|
    && (forall c :: 0 <= c < |handlers| ==>
          && handlers'[c].logs == handlers[c].logs
          && (handlers'[c].pc == handlers[c].pc || (!handlers[c].pc.Sending? && !handlers'[c].pc.Sending?)))
    && (forall c :: |handlers| <= c < |handlers'| ==> !handlers'[c].pc.Sending?)
  }

  lemma CalmKeepsCount(p: Pipe, handlers: seq<Handler>, handlers': seq<Handler>)
    requires CountInv(p, handlers) && Calm(handlers, handlers')
    ensures CountInv(p, handlers')
  {
    forall it: Item ensures InFlight(handlers', it) <==> InFlight(handlers, it) {
    }
  }

  lemma InOrderSnoc(s: seq<Item>, x: Item)
    requires InOrder(s) && forall it :: it in s && it.conn == x.conn ==> it.n < x.n
    ensures InOrder(s + [x])
  {
    assert forall i :: 0 <= i < |s| ==> s[i] in s;
  }

  lemma CachedKeeps(p: Pipe, handlers: seq<Handler>, c: Conn, h': Handler, it: Item)
    requires OrderInv(p, handlers) && CountInv(p, handlers)
    requires c < |handlers| && handlers[c].pc.Reading? && it.conn == c && it.n == handlers[c].logs
    requires h'.pc == Sending(it) && h'.logs == handlers[c].logs + 1
    ensures OrderInv(p.(cached := p.cached + [it]), handlers[c := h'])
    ensures CountInv(p.(cached := p.cached + [it]), handlers[c := h'])
  {
    var p', hs := p.(cached := p.cached + [it]), handlers[c := h'];
    forall x | x in p.cached ensures Read(hs, x) && (x.conn == c ==> x.n < it.n) {
      assert Read(handlers, x);
    }
    forall x | x in p.accepted ensures Settled(hs, x) {
      assert Settled(handlers, x);
    }
    InOrderSnoc(p.cached, it);
    CachedCounts(p, handlers, c, h', it);
    assert OrderInv(p', hs);
  }

  lemma CachedCounts(p: Pipe, handlers: seq<Handler>, c: Conn, h': Handler, it: Item)
    requires CountInv(p, handlers) && c < |handlers| && handlers[c].pc.Reading? && it.conn == c && h'.pc == Sending(it)
    ensures CountInv(p.(cached := p.cached + [it]), handlers[c := h'])
  {
    var p', hs := p.(cached := p.cached + [it]), handlers[c := h'];
    forall x: Item ensures multiset(p'.cached)[x] ==
        multiset(p'.accepted)[x] + multiset(p'.dropped)[x] + if InFlight(hs, x) then 1 else 0 {
      assert InFlight(hs, x) <==> InFlight(handlers, x) || x == it;
      assert !InFlight(handlers, it);
    }
  }

  /** The offered event leaves its handler; `sent` says whether the channel took it. */
  lemma OfferedKeeps(p: Pipe, handlers: seq<Handler>, c: Conn, h': Handler, it: Item, sent: bool, p': Pipe)
    requires OrderInv(p, handlers) && CountInv(p, handlers)
    requires c < |handlers| && handlers[c].pc == Sending(it) && h'.pc.Reading? && h'.logs == handlers[c].logs
    requires p'.cached == p.cached
    requires p'.accepted == if sent then p.accepted + [it] else p.accepted
    requires p'.dropped == if sent then p.dropped else p.dropped + [it]
    ensures OrderInv(p', handlers[c := h']) && CountInv(p', handlers[c := h'])
  {
    var hs := handlers[c := h'];
    forall x | x in p.cached ensures Read(hs, x) {
      assert Read(handlers, x);
    }
    forall x | x in p.accepted ensures Settled(hs, x) && (x.conn == c ==> x.n < it.n) {
      assert Settled(handlers, x);
    }
    InOrderSnoc(p.accepted, it);
    assert OrderInv(p', hs);
    OfferedCounts(p, handlers, c, h', it, sent, p');
  }

  lemma OfferedCounts(p: Pipe, handlers: seq<Handler>, c: Conn, h': Handler, it: Item, sent: bool, p': Pipe)
    requires CountInv(p, handlers) && it.conn == c
    requires c < |handlers| && handlers[c].pc == Sending(it) && h'.pc.Reading?
    requires p'.cached == p.cached
    requires p'.accepted == if sent then p.accepted + [it] else p.accepted
    requires p'.dropped == if sent then p.dropped else p.dropped + [it]
    ensures CountInv(p', handlers[c := h'])
  {
    var hs := handlers[c := h'];
    forall x: Item ensures multiset(p'.cached)[x] ==
        multiset(p'.accepted)[x] + multiset(p'.dropped)[x] + if InFlight(hs, x) then 1 else 0 {
      assert InFlight(hs, x) <==> InFlight(handlers, x) && x != it;
    }
  }

  lemma PipeAfterSend(b: Broker, c: Conn)
    requires LifeInv(b) && OrderInv(b.pipe, b.handlers) && CountInv(b.pipe, b.handlers)
    requires c < |b.handlers| && b.handlers[c].pc.Sending?
    ensures OrderInv(Offer(b, c).pipe, Offer(b, c).handlers) && CountInv(Offer(b, c).pipe, Offer(b, c).handlers)
  {
    LiveHandlerHoldsStop(b, c);
    var it, sent, b' := b.handlers[c].pc.item, |b.pipe.queue| < EVENT_CH_SIZE, Offer(b, c);
    OfferedKeeps(b.pipe, b.handlers, c, b'.handlers[c], it, sent, b'.pipe);
  }

  lemma PipeAfterLog(b: Broker, c: Conn, m: LogMessage)
    requires OrderInv(b.pipe, b.handlers) && CountInv(b.pipe, b.handlers)
    requires c < |b.handlers| && b.handlers[c].pc.Reading?
    ensures var b' := CachedLog(b, c, m); OrderInv(b'.pipe, b'.handlers) && CountInv(b'.pipe, b'.handlers)
  {
    var b' := CachedLog(b, c, m);
    CachedKeeps(b.pipe, b.handlers, c, b'.handlers[c], Item(c, b.handlers[c].logs, m));
  }

  lemma PipeCalm(b: Broker, b': Broker)
    requires OrderInv(b.pipe, b.handlers) && CountInv(b.pipe, b.handlers)
    requires Calm(b.handlers, b'.handlers) && SameHistory(b.pipe, b'.pipe)
    ensures OrderInv(b'.pipe, b'.handlers) && CountInv(b'.pipe, b'.handlers)
  {
    CalmKeepsCount(b.pipe, b.handlers, b'.handlers);
  }

  lemma PipeAfterRead(b: Broker, c: Conn, host: string, now: int, fails: bool)
    requires OrderInv(b.pipe, b.handlers) && CountInv(b.pipe, b.handlers)
    requires At(b, c, Reading) && b.handlers[c].peer.inbox != []
    ensures var b' := ReadNext(b, c, host, now, fails);
      OrderInv(b'.pipe, b'.handlers) && CountInv(b'.pipe, b'.handlers)
  {
    var b1 := Consumed(b, c);
    PipeCalm(b, b1);
    match b.handlers[c].peer.inbox[0] {
      case Log(m) => PipeAfterLog(b1, c, m);
      case Broken => PipeCalm(b1, Moved(b1, c, Leaving));
      case _ =>
    }
  }

  lemma PipeStep(b: Broker, step: Step)
    requires LifeInv(b) && OrderInv(b.pipe, b.handlers) && CountInv(b.pipe, b.handlers) && Enabled(b, step)
    ensures OrderInv(Next(b, step).pipe, Next(b, step).handlers)
    ensures CountInv(Next(b, step).pipe, Next(b, step).handlers)
  {
    if step.Send? {
      PipeAfterSend(b, step.c);
    } else if step.Read? {
      PipeAfterRead(b, step.c, step.host, step.now, step.fails);
    } else {
      OthersAreCalm(b, step);
      PipeCalm(b, Next(b, step));
    }
  }

  /** The cache and channel histories move only when a log is read and when it is offered. */
  predicate SameHistory(p: Pipe, p': Pipe) {
    p'.cached == p.cached && p'.accepted == p.accepted && p'.dropped == p.dropped
  }

  lemma ClientsAreCalm(b: Broker, step: Step)
    requires Enabled(b, step) && IsClientStep(step)
    ensures Calm(b.handlers, Next(b, step).handlers) && Next(b, step).pipe == b.pipe
  {
  }

  lemma HandlersAreCalm(b: Broker, step: Step)
    requires Enabled(b, step) && IsHandlerStep(step) && !step.Send? && !step.Read?
    ensures Calm(b.handlers, Next(b, step).handlers) && Next(b, step).pipe == b.pipe
  {
    hide ReadNext, Offer, O.Cleanup;
  }

  lemma OthersAreCalm(b: Broker, step: Step)
    requires Enabled(b, step) && !step.Send? && !step.Read?
    ensures Calm(b.handlers, Next(b, step).handlers) && SameHistory(b.pipe, Next(b, step).pipe)
  {
    if IsClientStep(step) {
      ClientsAreCalm(b, step);
    } else if IsHandlerStep(step) {
      HandlersAreCalm(b, step);
    }
  }

  // ---------------------------------------------------------------------------------------------
  // The tables

  /** Every event row this database has had: those of earlier runs, then this run's committed batches. */
  function AllRows(b: Broker): seq<Row> {
    b.start.events + Number(Map(Persisted(b.pipe.flushes), RecordOf()), b.start.lastEvent)
  }

  ghost predicate TableInv(b: Broker) {
    && b.desk.tables.lastEvent == b.start.lastEvent + |Persisted(b.pipe.flushes)|
    && Holds(b.desk.tables.events, AllRows(b), b.cutoff)
  }

  /** A committed batch extends both the table and the record of all rows. */
  lemma TableAfterCommit(b: Broker, batch: seq<Item>, b': Broker)
    requires TableInv(b) && b'.start == b.start && b'.cutoff == b.cutoff
    requires b'.pipe.flushes == b.pipe.flushes + [InsertCall(batch, true)]
    requires b'.desk.tables == WithEvents(b.desk.tables, Map(batch, RecordOf()))
    ensures TableInv(b')
  {
    hide Persisted, Holds, Number, RecordOf;
    FlushedSnoc(b.pipe.flushes, InsertCall(batch, true));
    var done, more := Map(Persisted(b.pipe.flushes), RecordOf()), Map(batch, RecordOf());
    var rows := Number(more, b.desk.tables.lastEvent);
    MapConcat(Persisted(b.pipe.flushes), batch, RecordOf());
    NumberConcat(done, more, b.start.lastEvent);
    assert b.start.events + (Number(done, b.start.lastEvent) + rows) == AllRows(b) + rows;
    RowsAppended(b.desk.tables.events, AllRows(b), rows, b.cutoff);
  }

  lemma NumberConcat(a: seq<Record>, c: seq<Record>, last: nat)
    ensures Number(a + c, last) == Number(a, last) + Number(c, last + |a|)
  {
  }

  ghost predicate Holds(events: seq<Row>, all: seq<Row>, cutoff: Option<int>) {
    && (cutoff.None? ==> events == all)
    && (forall r :: r in events ==> r in all)
    && (forall r :: r in all && (cutoff.None? || r.rec.timestamp >= cutoff.value) ==> r in events)
  }

  lemma RowsAppended(events: seq<Row>, all: seq<Row>, rows: seq<Row>, cutoff: Option<int>)
    requires Holds(events, all, cutoff)
    ensures Holds(events + rows, all + rows, cutoff)
  {
  }

  lemma TableAfterFlush(b: Broker, w: Writer, fails: bool, b': Broker)
    requires TableInv(b) && w.tables == b.desk.tables && w.flushes == b.pipe.flushes
    requires b'.start == b.start && b'.cutoff == b.cutoff
    requires b'.pipe.flushes == FlushBatch(w, fails).flushes && b'.desk.tables == FlushBatch(w, fails).tables
    ensures TableInv(b')
  {
    if w.batch != [] {
      if fails {
        FlushedSnoc(b.pipe.flushes, InsertCall(w.batch, false));
        assert Persisted(b.pipe.flushes) + [] == Persisted(b.pipe.flushes);
      } else {
        TableAfterCommit(b, w.batch, b');
      }
    }
  }

  lemma {:induction false} CloseAllKeepsEvents(d: O.Desk, ids: seq<int>, now: int, fails: set<int>)
    ensures O.CloseAll(d, ids, now, fails).tables.events == d.tables.events
    ensures O.CloseAll(d, ids, now, fails).tables.lastEvent == d.tables.lastEvent
  {
    if ids != [] { CloseAllKeepsEvents(d, ids[..|ids| - 1], now, fails); }
  }

  /** The rows on disk, and what the run has written, stay as they were. */
  predicate SameRows(b: Broker, b': Broker) {
    && b'.desk.tables.events == b.desk.tables.events && b'.desk.tables.lastEvent == b.desk.tables.lastEvent
    && b'.pipe.flushes == b.pipe.flushes && b'.start == b.start && b'.cutoff == b.cutoff
  }

  lemma SameRowsKeeps(b: Broker, b': Broker)
    requires TableInv(b) && SameRows(b, b')
    ensures TableInv(b')
  {
  }

  lemma StartLeavesRows(b: Broker, c: Conn, m: O.StartMessage, host: string, now: int, fails: bool)
    ensures SameRows(b, Registered(b, c, m, host, now, fails))
  {
  }

  lemma EndLeavesRows(b: Broker, c: Conn, s: string, ts: int, fails: bool)
    ensures SameRows(b, Ended(b, c, s, ts, fails))
  {
  }

  lemma ReadLeavesRows(b: Broker, c: Conn, host: string, now: int, fails: bool)
    requires At(b, c, Reading) && b.handlers[c].peer.inbox != []
    ensures SameRows(b, ReadNext(b, c, host, now, fails))
  {
    var b1, m := Consumed(b, c), b.handlers[c].peer.inbox[0];
    assert SameRows(b, b1);
    if m.SessionStart? {
      StartLeavesRows(b1, c, m.start, host, now, fails);
    } else if m.SessionEnd? {
      EndLeavesRows(b1, c, m.session, m.timestamp, fails);
    }
  }

  lemma CleanupLeavesRows(b: Broker, c: Conn, now: int, failing: set<int>)
    requires At(b, c, Leaving)
    ensures SameRows(b, CleanedUp(b, c, now, failing))
  {
    CloseAllKeepsEvents(b.desk.(tracked := b.desk.tracked - {c}), O.Listed(b.desk, c), now, failing);
  }

  lemma TableStepOfPrune(b: Broker, cutoff: int)
    requires TableInv(b)
    ensures TableInv(b.(desk := b.desk.(tables := Pruned(b.desk.tables, cutoff)), cutoff := Highest(b.cutoff, cutoff)))
  {
  }

  lemma TableStepOfWriter(b: Broker, step: Step)
    requires TableInv(b) && Enabled(b, step) && IsWriterStep(step)
    ensures TableInv(Next(b, step))
  {
    var b' := Next(b, step);
    if step.Receive? {
      var w := WriterOf(b).(batch := b.pipe.batch + [b.pipe.queue[0]]);
      if |w.batch| >= BATCH_SIZE {
        TableAfterFlush(b, w, step.fails, b');
      } else {
        SameRowsKeeps(b, b');
      }
    } else {
      TableAfterFlush(b, WriterOf(b), step.fails, b');
    }
  }

  lemma TableStep(b: Broker, step: Step)
    requires TableInv(b) && Enabled(b, step)
    ensures TableInv(Next(b, step))
  {
    if IsWriterStep(step) {
      TableStepOfWriter(b, step);
    } else if step.RetentionTick? {
      if !step.fails && !StoreIsClosed(b) { TableStepOfPrune(b, step.cutoff); }
    } else if step.Read? {
      ReadLeavesRows(b, step.c, step.host, step.now, step.fails);
      SameRowsKeeps(b, Next(b, step));
    } else if step.CleanUp? {
      CleanupLeavesRows(b, step.c, step.now, step.failing);
      SameRowsKeeps(b, Next(b, step));
    } else {
      OthersAreQuiet(b, step);
      SameRowsKeeps(b, Next(b, step));
    }
  }

  /** Connections may come, and only cleaned-up ones go. */
  predicate KeepsConnections(handlers: seq<Handler>, handlers': seq<Handler>) {
    && |handlers| <= |handlers'|
    && forall c :: 0 <= c < |handlers| ==>
         (handlers'[c].pc.Gone? || handlers'[c].pc.Cleaned? ==> handlers[c].pc.Gone? || handlers[c].pc.Cleaned?)
  }

  /** Nothing was done to the store, the manager or the tracker. */
  predicate Quiet(b: Broker, b': Broker) {
    && b'.desk == b.desk && b'.start == b.start && b'.cutoff == b.cutoff && b'.pipe.flushes == b.pipe.flushes
    && KeepsConnections(b.handlers, b'.handlers)
  }

  lemma ClientsAreQuiet(b: Broker, step: Step)
    requires Enabled(b, step) && IsClientStep(step)
    ensures Quiet(b, Next(b, step))
  {
  }

  lemma OfferIsQuiet(b: Broker, c: Conn)
    requires c < |b.handlers| && b.handlers[c].pc.Sending?
    ensures Quiet(b, Offer(b, c))
  {
    hide Behind;
  }

  lemma HandlersAreQuiet(b: Broker, step: Step)
    requires Enabled(b, step) && (step.Send? || step.Eof? || step.Exit?)
    ensures Quiet(b, Next(b, step))
  {
    hide ReadNext, CleanedUp, Offer;
    if step.Send? {
      OfferIsQuiet(b, step.c);
    }
  }

  lemma OthersAreQuiet(b: Broker, step: Step)
    requires Enabled(b, step) && !IsWriterStep(step) && !step.RetentionTick? && !step.Read? && !step.CleanUp?
    ensures Quiet(b, Next(b, step))
  {
    if IsClientStep(step) {
      ClientsAreQuiet(b, step);
    } else if IsHandlerStep(step) {
      HandlersAreQuiet(b, step);
    }
  }

  // ---------------------------------------------------------------------------------------------
  // Sessions

  /** The three stores agree, and only live connections are tracked. */
  ghost predicate DeskInv(b: Broker) {
    && O.Agree(b.desk) && b.desk.base == b.start.lastSession
    && (forall c :: c in b.desk.tracked ==>
          c < |b.handlers| && !b.handlers[c].pc.Gone? && !b.handlers[c].pc.Cleaned?)
  }

  lemma DeskAfterFlush(b: Broker, w: Writer, fails: bool)
    requires DeskInv(b) && w.tables == b.desk.tables
    ensures O.Agree(b.desk.(tables := FlushBatch(w, fails).tables))
  {
    assert b.desk.(tables := b.desk.tables) == b.desk;
  }

  lemma DeskAfterStart(b: Broker, c: Conn, m: O.StartMessage, host: string, now: int, fails: bool)
    requires DeskInv(b) && c < |b.handlers| && b.handlers[c].pc.Reading?
    ensures DeskInv(Registered(b, c, m, host, now, fails))
  {
    if !fails { O.StartKeeps(b.desk, c, m, host, now); }
  }

  lemma DeskAfterEnd(b: Broker, c: Conn, s: string, ts: int, fails: bool)
    requires DeskInv(b)
    ensures DeskInv(Ended(b, c, s, ts, fails))
  {
    if ParseInt(s).ok { O.EndKeeps(b.desk, c, ParseInt(s).value, ts, fails); }
  }

  lemma DeskQuiet(b: Broker, b': Broker)
    requires DeskInv(b) && Quiet(b, b')
    ensures DeskInv(b')
  {
  }

  lemma DeskAfterRead(b: Broker, c: Conn, host: string, now: int, fails: bool)
    requires DeskInv(b) && At(b, c, Reading) && b.handlers[c].peer.inbox != []
    ensures DeskInv(ReadNext(b, c, host, now, fails))
  {
    hide DeskInv, Registered, Ended;
    var b1, m := Consumed(b, c), b.handlers[c].peer.inbox[0];
    DeskQuiet(b, b1);
    if m.SessionStart? {
      DeskAfterStart(b1, c, m.start, host, now, fails);
    } else if m.SessionEnd? {
      DeskAfterEnd(b1, c, m.session, m.timestamp, fails);
    } else {
      DeskQuiet(b1, ReadNext(b, c, host, now, fails));
    }
  }

  lemma DeskAfterCleanup(b: Broker, c: Conn, now: int, failing: set<int>)
    requires DeskInv(b) && At(b, c, Leaving)
    ensures DeskInv(CleanedUp(b, c, now, failing))
  {
    hide O.CloseAll, WellFormed;
    O.CleanupKeeps(b.desk, c, now, failing);
    O.CloseAllKeeps(b.desk.(tracked := b.desk.tracked - {c}), O.Listed(b.desk, c), now, failing);
    O.StepKeepsBase(b.desk, O.DoCleanup(c, now, failing));
  }

  lemma DeskStepOfWriter(b: Broker, step: Step)
    requires DeskInv(b) && Enabled(b, step) && IsWriterStep(step)
    ensures DeskInv(Next(b, step))
  {
    var w := if step.Receive? then WriterOf(b).(batch := b.pipe.batch + [b.pipe.queue[0]]) else WriterOf(b);
    DeskAfterFlush(b, w, step.fails);
    assert b.desk.(tables := b.desk.tables) == b.desk;
  }

  lemma DeskStep(b: Broker, step: Step)
    requires DeskInv(b) && Enabled(b, step)
    ensures DeskInv(Next(b, step))
  {
    if IsWriterStep(step) {
      DeskStepOfWriter(b, step);
    } else if step.RetentionTick? {
      O.StepKeeps(b.desk, O.DoPrune(step.cutoff));
    } else if step.Read? {
      DeskAfterRead(b, step.c, step.host, step.now, step.fails);
    } else if step.CleanUp? {
      DeskAfterCleanup(b, step.c, step.now, step.failing);
    } else {
      OthersAreQuiet(b, step);
      DeskQuiet(b, Next(b, step));
    }
  }

  // ---------------------------------------------------------------------------------------------
  // Whole runs

  ghost predicate Inv(b: Broker) {
    && LifeInv(b) && FlowInv(b.pipe) && OrderInv(b.pipe, b.handlers) && CountInv(b.pipe, b.handlers)
    && TableInv(b) && DeskInv(b)
  }

  lemma StepKeepsInv(b: Broker, step: Step)
    requires Inv(b) && Enabled(b, step)
    ensures Inv(Next(b, step)) && Next(b, step).start == b.start
  {
    hide LifeInv, FlowInv, CountInv, OrderInv, TableInv, DeskInv, Next, Enabled;
    LifeStep(b, step);
    FlowStep(b, step);
    PipeStep(b, step);
    TableStep(b, step);
    DeskStep(b, step);
    StepKeepsStart(b, step);
  }

  lemma StepKeepsStart(b: Broker, step: Step)
    requires Enabled(b, step)
    ensures Next(b, step).start == b.start
  {
    hide ReadNext;
    if step.Read? {
      ReadLeavesRows(b, step.c, step.host, step.now, step.fails);
    }
  }

  lemma {:induction false} RunKeepsInv(b: Broker, steps: seq<Step>, b': Broker)
    requires Inv(b) && Reaches(b, steps, b')
    ensures Inv(b') && b'.start == b.start
    decreases |steps|
  {
    hide Inv, Next, Enabled;
    if steps != [] {
      StepKeepsInv(b, steps[0]);
      RunKeepsInv(Next(b, steps[0]), steps[1..], b');
    }
  }

  lemma StartedTable(b: Broker, t: Tables)
    requires b.start == t && b.desk.tables == t && b.pipe.flushes == [] && b.cutoff == None
    ensures TableInv(b)
  {
    assert Map<Item, Record>([], RecordOf()) == [] && Number([], t.lastEvent) == [];
    assert AllRows(b) == t.events;
  }

  lemma StartedPipe(p: Pipe)
    requires p == Pipe([], [], [], [], [], [])
    ensures FlowInv(p) && OrderInv(p, []) && CountInv(p, [])
  {
  }

  lemma StartedDesk(b: Broker, t: Tables)
    requires WellFormed(t) && b.desk == O.NewDesk(t) && b.start == t
    ensures DeskInv(b)
  {
  }

  lemma StartedInv(t: Tables, retention: bool)
    requires WellFormed(t)
    ensures Inv(Started(t, retention))
  {
    hide TableInv, FlowInv, OrderInv, CountInv, DeskInv;
    StartedTable(Started(t, retention), t);
    StartedPipe(Started(t, retention).pipe);
    StartedDesk(Started(t, retention), t);
  }

  lemma ReachableInv(t: Tables, retention: bool, steps: seq<Step>, b: Broker)
    requires WellFormed(t) && Reaches(Started(t, retention), steps, b)
    ensures Inv(b) && b.start == t
  {
    hide Inv, Reaches;
    StartedInv(t, retention);
    RunKeepsInv(Started(t, retention), steps, b);
  }

  function ForService(service: string): Item -> bool {
    (it: Item) => it.msg.service == service
  }

  /**
   Conservation under every interleaving. Per service, whatever was ever cached was accepted by the
   channel, dropped because it was full, or is between its Add and its send, and never two of these; the
   accepted events are, in channel order, the flushed batches, the current batch and the queue; and both
   the cache and the channel keep each connection's own order.
  */
  lemma PipelineConserves(t: Tables, retention: bool, steps: seq<Step>, b: Broker, service: string, it: Item)
    requires WellFormed(t) && Reaches(Started(t, retention), steps, b)
    ensures multiset(Filter(b.pipe.cached, ForService(service)))[it] ==
        multiset(Filter(b.pipe.accepted, ForService(service)))[it]
        + multiset(Filter(b.pipe.dropped, ForService(service)))[it]
        + (if it.msg.service == service && InFlight(b.handlers, it) then 1 else 0)
    ensures b.pipe.accepted == Flushed(b.pipe.flushes) + b.pipe.batch + b.pipe.queue
    ensures InOrder(b.pipe.cached) && InOrder(b.pipe.accepted)
    ensures multiset(b.pipe.cached)[it] <= 1
  {
    ReachableInv(t, retention, steps, b);
    FilterCount(b.pipe.cached, ForService(service), it);
    FilterCount(b.pipe.accepted, ForService(service), it);
    FilterCount(b.pipe.dropped, ForService(service), it);
    assert InFlight(b.handlers, it) || !InFlight(b.handlers, it);
    InOrderOnce(b.pipe.cached, it);
  }

  lemma {:induction false} InOrderOnce(s: seq<Item>, it: Item)
    requires InOrder(s)
    ensures multiset(s)[it] <= 1
  {
    if s != [] {
      var n := |s| - 1;
      assert s == s[..n] + [s[n]];
      InOrderOnce(s[..n], it);
      assert s[n] == it ==> it !in s[..n];
    }
  }

  /** Every insert call gets 1 to 500 events, and accepted events wait within fixed bounds. */
  lemma DurabilityLagIsBounded(t: Tables, retention: bool, steps: seq<Step>, b: Broker)
    requires WellFormed(t) && Reaches(Started(t, retention), steps, b)
    ensures |b.pipe.batch| <= 499 && |b.pipe.queue| <= 10000
    ensures forall i :: 0 <= i < |b.pipe.flushes| ==> 1 <= |b.pipe.flushes[i].items| <= 500
    ensures |b.pipe.accepted| - |Flushed(b.pipe.flushes)| <= 10499
  {
    ReachableInv(t, retention, steps, b);
  }

  /** The machine's writer takes the turns of the loop: a message off the channel, a tick, and the final flush. */
  lemma WriterTakesTurns(b: Broker, step: Step)
    requires Enabled(b, step) && IsWriterStep(step)
    ensures WriterOf(Next(b, step)) ==
        Turn(WriterOf(b), if step.Receive? then Message(b.pipe.queue[0], step.fails) else Ticked(step.fails))
  {
    hide FlushBatch;
  }

  /**
   After a tick, in any reachable state, nothing accepted waits in the batch: all of it is still in the channel or went to
   an insert call; and what this tick flushed is in the table, unless the call failed, each line with its own text.
  */
  lemma TickEmptiesTheBatch(t: Tables, retention: bool, steps: seq<Step>, b: Broker, fails: bool)
    requires WellFormed(t) && Reaches(Started(t, retention), steps, b) && b.writing
    ensures var b' := Next(b, Tick(fails));
      && b'.pipe.batch == [] && b'.pipe.accepted == Flushed(b'.pipe.flushes) + b'.pipe.queue
      && (!fails ==> |b'.desk.tables.events| == |b.desk.tables.events| + |b.pipe.batch|)
      && (!fails ==> forall i :: 0 <= i < |b.pipe.batch| ==>
            var rec, m := b'.desk.tables.events[|b.desk.tables.events| + i].rec, b.pipe.batch[i].msg;
            rec.message == m.message && rec.service == m.service && rec.stream == m.stream && rec.timestamp == m.timestamp)
  {
    ReachableInv(t, retention, steps, b);
    FlowOfInv(b);
    hide Inv, Reaches, Next, FlushBatch, Started;
    var b' := Next(b, Tick(fails));
    FlowStep(b, Tick(fails));
    TickStores(b, fails);
    assert Flushed(b'.pipe.flushes) + [] + b'.pipe.queue == Flushed(b'.pipe.flushes) + b'.pipe.queue;
  }

  lemma FlowOfInv(b: Broker)
    requires Inv(b)
    ensures FlowInv(b.pipe)
  {
  }

  lemma TickStores(b: Broker, fails: bool)
    requires b.writing
    ensures var b', n := Next(b, Tick(fails)), |b.desk.tables.events|;
      && b'.pipe.batch == []
      && (!fails ==> |b'.desk.tables.events| == n + |b.pipe.batch|)
      && (!fails ==> forall i :: 0 <= i < |b.pipe.batch| ==> b'.desk.tables.events[n + i].rec == ToRecord(b.pipe.batch[i].msg))
  {
    hide ToRecord;
  }

  /** The calls to the store in this step, if any, return an error. */
  predicate StoreFails(step: Step) {
    || (step.Read? && step.fails)
    || (step.CleanUp? && step.failing != {})
    || (IsWriterStep(step) && step.fails)
  }

  /** No trace of a store error: nothing stranded, every insert committed. */
  ghost predicate Clean(b: Broker) {
    b.desk.stranded == {} && forall i :: 0 <= i < |b.pipe.flushes| ==> b.pipe.flushes[i].ok
  }

  lemma StepKeepsClean(b: Broker, step: Step)
    requires Clean(b) && Enabled(b, step) && !StoreFails(step)
    ensures Clean(Next(b, step))
  {
    hide ReadNext, Offer;
    if step.Read? {
      ReadKeepsClean(b, step.c, step.host, step.now);
    } else if step.CleanUp? {
      O.StepKeepsBase(b.desk, O.DoCleanup(step.c, step.now, {}));
    } else if !IsWriterStep(step) && !step.RetentionTick? {
      OthersAreQuiet(b, step);
    }
  }

  lemma ReadKeepsClean(b: Broker, c: Conn, host: string, now: int)
    requires Clean(b) && At(b, c, Reading) && b.handlers[c].peer.inbox != []
    ensures Clean(ReadNext(b, c, host, now, false))
  {
    ReadLeavesRows(b, c, host, now, false);
  }

  lemma {:induction false} RunKeepsClean(b: Broker, steps: seq<Step>, b': Broker)
    requires Clean(b) && Reaches(b, steps, b') && forall i :: 0 <= i < |steps| ==> !StoreFails(steps[i])
    ensures Clean(b')
    decreases |steps|
  {
    if steps != [] {
      StepKeepsClean(b, steps[0]);
      RunKeepsClean(Next(b, steps[0]), steps[1..], b');
    }
  }

  lemma {:induction false} AllGone(handlers: seq<Handler>)
    requires Live(handlers) == 0
    ensures forall c :: 0 <= c < |handlers| ==> handlers[c].pc.Gone?
  {
    if handlers != [] { AllGone(handlers[..|handlers| - 1]); }
  }

  lemma WorkMeansOpen(b: Broker, step: Step)
    requires LifeInv(b) && Enabled(b, step) && (IsHandlerStep(step) || IsWriterStep(step))
    ensures !StoreIsClosed(b) && (IsHandlerStep(step) ==> !ChannelIsClosed(b))
  {
    if IsHandlerStep(step) {
      LiveHandlerHoldsStop(b, step.c);
    }
  }

  /**
   Over every run: no fault has happened, and none is ever possible next: whenever a handler can step,
   to send or anything else, the channel and the store are open, and whenever the writer can step the
   store is.
  */
  lemma NeverAFault(t: Tables, retention: bool, steps: seq<Step>, b: Broker, step: Step)
    requires WellFormed(t) && Reaches(Started(t, retention), steps, b)
    ensures !b.fault
    ensures Enabled(b, step) && IsHandlerStep(step) ==> !ChannelIsClosed(b) && !StoreIsClosed(b)
    ensures Enabled(b, step) && IsWriterStep(step) ==> !StoreIsClosed(b)
  {
    ReachableInv(t, retention, steps, b);
    if Enabled(b, step) && (IsHandlerStep(step) || IsWriterStep(step)) {
      WorkMeansOpen(b, step);
    }
  }

  /** Once the handlers are waited for, no connection is tracked and no session is active. */
  lemma NobodyLeft(b: Broker)
    requires LifeInv(b) && DeskInv(b) && Rank(b.phase) >= 3
    ensures b.desk.active == map[] && b.desk.tracked == map[]
    ensures forall id :: id > b.start.lastSession && O.IsOpen(b.desk.tables, id) ==> id in b.desk.stranded
  {
    AllGone(b.handlers);
    assert b.desk.tracked.Keys == {};
    assert O.ActiveIsListed(b.desk) && O.RowsAgree(b.desk);
    forall id: int ensures id !in b.desk.active {
    }
    assert b.desk.active.Keys == {};
  }

  /**
   Once the store is closed, and so when Wait returns: nothing is queued or batched, every accepted event
   went to an insert call, nothing is active or tracked, and no session of this run is open unless the
   very call that should have ended it failed.
  */
  lemma ShutdownLeavesNothing(t: Tables, retention: bool, steps: seq<Step>, b: Broker)
    requires WellFormed(t) && Reaches(Started(t, retention), steps, b) && StoreIsClosed(b)
    ensures b.pipe.queue == [] && b.pipe.batch == [] && b.pipe.accepted == Flushed(b.pipe.flushes)
    ensures b.desk.active == map[] && b.desk.tracked == map[]
    ensures forall id :: id > t.lastSession && O.IsOpen(b.desk.tables, id) ==> id in b.desk.stranded
  {
    ReachableInv(t, retention, steps, b);
    NobodyLeft(b);
    assert b.pipe.accepted == Flushed(b.pipe.flushes) + [] + [];
  }

  lemma ClosedAndClean(b: Broker, it: Item, id: nat)
    requires Inv(b) && StoreIsClosed(b) && Clean(b)
    ensures b.pipe.accepted == Persisted(b.pipe.flushes)
    ensures it in b.pipe.accepted && NotPruned(b, it) ==>
        exists r :: r in b.desk.tables.events && r.rec == ToRecord(it.msg)
    ensures id in b.desk.tables.sessions && id > b.start.lastSession ==> b.desk.tables.sessions[id].endedAt.Some?
  {
    NobodyLeft(b);
    AllCommitted(b.pipe.flushes);
    assert b.pipe.accepted == Flushed(b.pipe.flushes) + [] + [] == Persisted(b.pipe.flushes);
    if it in b.pipe.accepted && NotPruned(b, it) {
      PersistedIsStored(b, it);
    }
    assert O.IsOpen(b.desk.tables, id) || !O.IsOpen(b.desk.tables, id);
  }

  /**
   And without store errors: every accepted event was committed, its row is in the table unless a prune's
   cutoff passed it, and every session this run created has its end recorded.
  */
  lemma ShutdownIsComplete(t: Tables, retention: bool, steps: seq<Step>, b: Broker, it: Item, id: nat)
    requires WellFormed(t) && Reaches(Started(t, retention), steps, b) && StoreIsClosed(b)
    requires forall i :: 0 <= i < |steps| ==> !StoreFails(steps[i])
    ensures b.pipe.accepted == Persisted(b.pipe.flushes)
    ensures it in b.pipe.accepted && NotPruned(b, it) ==>
        exists r :: r in b.desk.tables.events && r.rec == ToRecord(it.msg)
    ensures id in b.desk.tables.sessions && id > t.lastSession ==> b.desk.tables.sessions[id].endedAt.Some?
  {
    ReachableInv(t, retention, steps, b);
    RunKeepsClean(Started(t, retention), steps, b);
    ClosedAndClean(b, it, id);
  }

  predicate NotPruned(b: Broker, it: Item) {
    b.cutoff.None? || it.msg.timestamp >= b.cutoff.value
  }

  lemma PersistedIsStored(b: Broker, it: Item)
    requires TableInv(b) && it in Persisted(b.pipe.flushes)
    requires NotPruned(b, it)
    ensures exists r :: r in b.desk.tables.events && r.rec == ToRecord(it.msg)
  {
    var done := Persisted(b.pipe.flushes);
    var k :| 0 <= k < |done| && done[k] == it;
    var rows := Number(Map(done, RecordOf()), b.start.lastEvent);
    assert rows[k].rec == ToRecord(it.msg);
    assert rows[k] in rows && rows[k] in AllRows(b);
  }

  lemma Then(b: Broker, step: Step, steps: seq<Step>, b': Broker)
    requires Enabled(b, step) && Reaches(Next(b, step), steps, b')
    ensures Reaches(b, [step] + steps, b')
  {
    assert ([step] + steps)[1..] == steps;
  }
}
