/** Retention over the life of a database (PruneByAge and retentionLoop), with the clients and brokers that fill it. */
module Retention {
  import opened Seqs
  import opened Records
  import opened Storage

  // One nondecreasing clock. Clients stamp lines when they read them and write them later, perhaps after a reconnect
  // and so under a newer session; connections drop, batches are committed or lost, and prunes happen at any moment
  // with any cutoff.

  type ClientId = int

  /** A line its client has stamped and not written: which session it will name is not settled yet. */
  datatype Stamped = Stamped(client: ClientId, line: Record)

  datatype World = World(
    clock: int,
    tables: Tables,
    owner: map<int, ClientId>,  // the client each session belongs to
    alive: set<int>,            // sessions whose connection is still up
    listed: set<int>,           // those the connection tracker still lists
    scanned: set<ClientId>,     // clients whose child has closed stdout and stderr
    pool: seq<Stamped>,         // stamped: being written, buffered, or in flight in a flush
    clientEnd: map<int, int>,   // the session_end timestamp a session's own client wrote
    wire: seq<Record>,          // written by a client, not read by the broker
    queue: seq<Record>,         // accepted, not committed
    ends: map<int, int>,        // history: the newest ended_at of each session
    cutoff: Option<int>)        // history: the highest cutoff pruned with

  const BEGINNING := World(0, EMPTY, map[], {}, {}, {}, [], map[], [], [], map[], None)

  datatype Step =
    | Tick(to: int)
    // a client
    | Stamp(client: ClientId, line: Record)
    | Scanned(client: ClientId)
    | Write(i: nat, session: int)
    | ClientEnds(id: int)
    // a broker
    | Mint(row: SessionRow, of: ClientId)
    | Accept(i: nat, full: bool)
    | ReadEnd(id: int, fails: bool)
    | ForeignEnd(id: int, ts: int, fails: bool)
    | Disconnect(id: int, fails: bool)
    | Commit(n: nat, fails: bool)
    | Prune(cutoff: int, fails: bool)

  predicate Enabled(w: World, step: Step) {
    match step
    case Tick(to) => w.clock <= to
    case Stamp(client, _) => client !in w.scanned
    case Scanned(_) => true
    case Write(i, session) =>
      i < |w.pool| && (Existed(w.tables, session) ==>
        session in w.alive && session in w.owner && w.owner[session] == w.pool[i].client)
    case ClientEnds(id) =>
      id in w.alive && id !in w.clientEnd && id in w.owner && w.owner[id] in w.scanned
    case Mint(row, _) => row.endedAt.None?
    case Accept(i, _) => i < |w.wire| && Deliverable(w, w.wire[i])
    case ReadEnd(id, _) => id in w.alive && id in w.clientEnd
    case ForeignEnd(_, _, _) => true
    case Disconnect(id, _) => id in w.alive
    case Commit(n, _) => n <= |w.queue|
    case Prune(_, _) => true
  }

  predicate Existed(t: Tables, id: int) {
    1 <= id <= t.lastSession
  }

  /** Whatever a dropped connection had not delivered never arrives. */
  predicate Deliverable(w: World, rec: Record) {
    Existed(w.tables, rec.sessionId) ==> rec.sessionId in w.alive
  }

  function EndedAt(w: World, id: int, ts: int): World {
    w.(tables := WithEnd(w.tables, id, ts),
       ends := if id in w.tables.sessions then w.ends[id := ts] else w.ends)
  }

  function RemovedAt<T>(s: seq<T>, i: nat): seq<T>
    requires i < |s|
  {
    s[..i] + s[i + 1..]
  }

  function Next(w: World, step: Step): World
    requires Enabled(w, step)
  {
    match step
    case Tick(to) => w.(clock := to)
    case Stamp(client, line) => w.(pool := w.pool + [Stamped(client, line.(timestamp := w.clock))])
    case Scanned(client) => w.(scanned := w.scanned + {client})
    case Write(i, session) =>
      w.(pool := RemovedAt(w.pool, i), wire := w.wire + [w.pool[i].line.(sessionId := session)])
    case ClientEnds(id) => w.(clientEnd := w.clientEnd[id := w.clock])
    case Mint(row, of) =>
      var id := w.tables.lastSession + 1;
      w.(tables := WithSession(w.tables, row), owner := w.owner[id := of],
         alive := w.alive + {id}, listed := w.listed + {id})
    case Accept(i, full) =>
      w.(wire := RemovedAt(w.wire, i), queue := if full then w.queue else w.queue + [w.wire[i]])
    case ReadEnd(id, fails) =>
      (if fails then w else EndedAt(w, id, w.clientEnd[id])).(listed := w.listed - {id})
    case ForeignEnd(id, ts, fails) => if fails then w else EndedAt(w, id, ts)
    case Disconnect(id, fails) =>
      (if id in w.listed && !fails then EndedAt(w, id, w.clock) else w).(
        alive := w.alive - {id}, listed := w.listed - {id})
    case Commit(n, fails) =>
      w.(tables := if fails then w.tables else WithEvents(w.tables, w.queue[..n]), queue := w.queue[n..])
    case Prune(cutoff, fails) =>
      if fails then w
      else w.(tables := Pruned(w.tables, cutoff), cutoff := Highest(w.cutoff, cutoff))
  }

  ghost predicate Reaches(w: World, steps: seq<Step>, w': World)
    decreases |steps|
  {
    if steps == [] then w == w'
    else Enabled(w, steps[0]) && Reaches(Next(w, steps[0]), steps[1..], w')
  }

  // ---------------------------------------------------------------------------------------------

  predicate InTime(w: World, rec: Record) {
    && rec.timestamp <= w.clock
    && (rec.sessionId in w.clientEnd ==> rec.timestamp <= w.clientEnd[rec.sessionId])
    && (rec.sessionId in w.ends ==> rec.timestamp <= w.ends[rec.sessionId])
  }

  ghost predicate EndsInv(w: World) {
    && WellFormed(w.tables)
    && (forall id :: id in w.tables.sessions ==>
          w.tables.sessions[id].endedAt == if id in w.ends then Some(w.ends[id]) else None)
    && (forall id :: 1 <= id <= w.tables.lastSession && id !in w.tables.sessions ==>
          id in w.ends && w.cutoff.Some? && w.ends[id] < w.cutoff.value)
    && (forall id :: id in w.alive || id in w.ends || id in w.clientEnd || id in w.owner ==> Existed(w.tables, id))
    && (forall id :: id in w.ends && id in w.alive ==> id in w.clientEnd && w.ends[id] == w.clientEnd[id])
  }

  /** A client that has ended a session reads no more lines: what it still holds was stamped before. */
  ghost predicate PoolInv(w: World) {
    && (forall id :: id in w.clientEnd ==> w.clientEnd[id] <= w.clock && id in w.owner && w.owner[id] in w.scanned)
    && (forall p :: p in w.pool ==> StampedInTime(w, p))
  }

  ghost predicate StampedInTime(w: World, p: Stamped) {
    && p.line.timestamp <= w.clock
    && forall id :: id in w.clientEnd && id in w.owner && w.owner[id] == p.client ==> p.line.timestamp <= w.clientEnd[id]
  }

  ghost predicate TimeInv(w: World) {
    && (forall rec :: rec in w.wire && Deliverable(w, rec) ==> InTime(w, rec))
    && (forall rec :: rec in w.queue ==> InTime(w, rec))
    && (forall r :: r in w.tables.events ==> InTime(w, r.rec))
  }

  ghost predicate Inv(w: World) {
    EndsInv(w) && PoolInv(w) && TimeInv(w)
  }

  predicate Recent(cutoff: Option<int>, rec: Record) {
    cutoff.Some? ==> rec.timestamp >= cutoff.value
  }

  /** Every stored event no older than the highest cutoff, if its session ever existed, still has it. */
  ghost predicate NoOrphans(t: Tables, cutoff: Option<int>) {
    forall r :: r in t.events && Existed(t, r.rec.sessionId) && Recent(cutoff, r.rec) ==>
        r.rec.sessionId in t.sessions
  }

  lemma EndKeepsEnds(w: World, id: int, ts: int)
    requires EndsInv(w) && (id in w.alive ==> id in w.clientEnd && ts == w.clientEnd[id])
    ensures EndsInv(EndedAt(w, id, ts))
  {
  }

  lemma PruneKeepsEnds(w: World, cutoff: int)
    requires EndsInv(w)
    ensures EndsInv(w.(tables := Pruned(w.tables, cutoff), cutoff := Highest(w.cutoff, cutoff)))
  {
    PrunedKeepsWellFormed(w.tables, cutoff);
  }

  lemma CommitKeepsEnds(w: World, n: nat)
    requires EndsInv(w) && n <= |w.queue|
    ensures EndsInv(w.(tables := WithEvents(w.tables, w.queue[..n]), queue := w.queue[n..]))
  {
  }

  lemma MintKeepsEnds(w: World, row: SessionRow, of: ClientId)
    requires EndsInv(w) && row.endedAt.None?
    ensures EndsInv(Next(w, Mint(row, of)))
  {
  }

  lemma StepKeepsEnds(w: World, step: Step)
    requires EndsInv(w) && Enabled(w, step) && !step.ForeignEnd?
    ensures EndsInv(Next(w, step))
  {
    if step.Mint? {
      MintKeepsEnds(w, step.row, step.of);
    } else if step.ReadEnd? && !step.fails {
      EndKeepsEnds(w, step.id, w.clientEnd[step.id]);
    } else if step.Disconnect? {
      var w1 := w.(alive := w.alive - {step.id});
      if step.id in w.listed && !step.fails { EndKeepsEnds(w1, step.id, w.clock); }
    } else if step.Commit? && !step.fails {
      CommitKeepsEnds(w, step.n);
    } else if step.Prune? && !step.fails {
      PruneKeepsEnds(w, step.cutoff);
    }
  }

  /** A connection that drops takes its undelivered lines with it; the rest was stamped by now. */
  lemma DisconnectKeepsTime(w: World, id: int, fails: bool)
    requires EndsInv(w) && TimeInv(w) && id in w.alive
    ensures TimeInv(Next(w, Disconnect(id, fails)))
  {
    var w1 := w.(alive := w.alive - {id}, listed := w.listed - {id});
    forall rec | Deliverable(w1, rec) ensures Deliverable(w, rec) {}
    assert TimeInv(w1);
    if id in w.listed && !fails {
      EndedNowKeepsTime(w1, id);
    }
  }

  lemma EndedNowKeepsTime(w: World, id: int)
    requires TimeInv(w)
    ensures TimeInv(EndedAt(w, id, w.clock))
  {
    var w' := EndedAt(w, id, w.clock);
    forall rec ensures Deliverable(w', rec) == Deliverable(w, rec) && (InTime(w, rec) ==> InTime(w', rec)) {}
  }

  lemma CommitKeepsTime(w: World, n: nat, fails: bool)
    requires TimeInv(w) && n <= |w.queue|
    ensures TimeInv(Next(w, Commit(n, fails)))
  {
    forall rec | rec in w.queue[n..] ensures rec in w.queue {}
    var rows := Number(w.queue[..n], w.tables.lastEvent);
    forall r | r in rows ensures r.rec in w.queue {
      var i :| 0 <= i < n && rows[i] == r;
      assert r.rec == w.queue[i];
    }
  }

  lemma PruneKeepsTime(w: World, cutoff: int, fails: bool)
    requires TimeInv(w)
    ensures TimeInv(Next(w, Prune(cutoff, fails)))
  {
    forall r | r in Pruned(w.tables, cutoff).events ensures r in w.tables.events {}
  }

  lemma TickKeepsTime(w: World, to: int)
    requires TimeInv(w) && w.clock <= to
    ensures TimeInv(Next(w, Tick(to)))
  {
    forall rec | InTime(w, rec) ensures InTime(Next(w, Tick(to)), rec) {}
  }

  /** Whatever was written or stored before is older than the session_end. */
  lemma ClientEndsKeepsTime(w: World, id: int)
    requires TimeInv(w) && Enabled(w, ClientEnds(id))
    ensures TimeInv(Next(w, ClientEnds(id)))
  {
    forall rec | InTime(w, rec) ensures InTime(Next(w, ClientEnds(id)), rec) {}
  }

  lemma MintKeepsTime(w: World, row: SessionRow, of: ClientId)
    requires EndsInv(w) && TimeInv(w) && row.endedAt.None?
    ensures TimeInv(Next(w, Mint(row, of)))
  {
    var w' := Next(w, Mint(row, of));
    forall rec | Deliverable(w', rec) ensures Deliverable(w, rec) {}
  }

  lemma WriteKeepsTime(w: World, i: nat, session: int)
    requires EndsInv(w) && PoolInv(w) && TimeInv(w) && Enabled(w, Write(i, session))
    ensures TimeInv(Next(w, Write(i, session)))
  {
    var rec := w.pool[i].line.(sessionId := session);
    assert InTime(w, rec) by {
      assert w.pool[i] in w.pool;
    }
    forall r | r in w.wire + [rec] ensures r in w.wire || r == rec {}
  }

  lemma StampKeepsPool(w: World, client: ClientId, line: Record)
    requires PoolInv(w) && client !in w.scanned
    ensures PoolInv(Next(w, Stamp(client, line)))
  {
    var w' := Next(w, Stamp(client, line));
    forall p | p in w'.pool ensures StampedInTime(w', p) {
      assert p in w.pool || p == Stamped(client, line.(timestamp := w.clock));
    }
  }

  /** The client stamps nothing any more, and everything it still holds it stamped before. */
  lemma ClientEndsKeepsPool(w: World, id: int)
    requires PoolInv(w) && Enabled(w, ClientEnds(id))
    ensures PoolInv(Next(w, ClientEnds(id)))
  {
    var w' := Next(w, ClientEnds(id));
    forall p | p in w.pool ensures StampedInTime(w', p) {
      assert StampedInTime(w, p);
    }
  }

  lemma MintKeepsPool(w: World, row: SessionRow, of: ClientId)
    requires EndsInv(w) && PoolInv(w)
    ensures PoolInv(w.(owner := w.owner[w.tables.lastSession + 1 := of]))
  {
    var w' := w.(owner := w.owner[w.tables.lastSession + 1 := of]);
    forall p | p in w.pool ensures StampedInTime(w', p) {
      assert StampedInTime(w, p);
    }
  }

  /** Only the clock, what is stamped and who ended what matter to the lines still held. */
  lemma SamePool(w: World, w': World)
    requires PoolInv(w) && w'.clock >= w.clock && w'.scanned >= w.scanned
    requires w'.owner == w.owner && w'.clientEnd == w.clientEnd && forall p :: p in w'.pool ==> p in w.pool
    ensures PoolInv(w')
  {
    forall p | p in w'.pool ensures StampedInTime(w', p) {
      assert StampedInTime(w, p);
    }
  }

  lemma StepKeepsPool(w: World, step: Step)
    requires EndsInv(w) && PoolInv(w) && Enabled(w, step)
    ensures PoolInv(Next(w, step))
  {
    hide PoolInv, EndsInv, Pruned, WithEvents, Highest, WithEnd, WithSession;
    if step.Stamp? {
      StampKeepsPool(w, step.client, step.line);
    } else if step.ClientEnds? {
      ClientEndsKeepsPool(w, step.id);
    } else if step.Mint? {
      var w1 := w.(owner := w.owner[w.tables.lastSession + 1 := step.of]);
      MintKeepsPool(w, step.row, step.of);
      SamePool(w1, Next(w, step));
    } else {
      SamePool(w, Next(w, step));
    }
  }

  lemma AcceptKeepsTime(w: World, i: nat, full: bool)
    requires TimeInv(w) && i < |w.wire| && Deliverable(w, w.wire[i])
    ensures TimeInv(Next(w, Accept(i, full)))
  {
    forall r | r in RemovedAt(w.wire, i) ensures r in w.wire {}
  }

  lemma ReadEndKeepsTime(w: World, id: int, fails: bool)
    requires TimeInv(w) && Enabled(w, ReadEnd(id, fails))
    ensures TimeInv(Next(w, ReadEnd(id, fails)))
  {
  }

  lemma ReadingKeepsTime(w: World, step: Step)
    requires TimeInv(w) && Enabled(w, step) && (step.Stamp? || step.Scanned?)
    ensures TimeInv(Next(w, step))
  {
    var w' := Next(w, step);
    forall rec ensures Deliverable(w', rec) == Deliverable(w, rec) && InTime(w', rec) == InTime(w, rec) {}
  }

  lemma StepKeepsTime(w: World, step: Step)
    requires EndsInv(w) && PoolInv(w) && TimeInv(w) && Enabled(w, step) && !step.ForeignEnd?
    ensures TimeInv(Next(w, step))
  {
    hide TimeInv, EndsInv, PoolInv, Next;
    if step.Tick? {
      TickKeepsTime(w, step.to);
    } else if step.Stamp? || step.Scanned? {
      ReadingKeepsTime(w, step);
    } else if step.Write? {
      WriteKeepsTime(w, step.i, step.session);
    } else if step.ClientEnds? {
      ClientEndsKeepsTime(w, step.id);
    } else if step.Mint? {
      MintKeepsTime(w, step.row, step.of);
    } else if step.Accept? {
      AcceptKeepsTime(w, step.i, step.full);
    } else if step.ReadEnd? {
      ReadEndKeepsTime(w, step.id, step.fails);
    } else if step.Disconnect? {
      DisconnectKeepsTime(w, step.id, step.fails);
    } else if step.Commit? {
      CommitKeepsTime(w, step.n, step.fails);
    } else {
      PruneKeepsTime(w, step.cutoff, step.fails);
    }
  }

  lemma {:induction false} RunKeepsInv(w: World, steps: seq<Step>, w': World)
    requires Inv(w) && Reaches(w, steps, w') && forall i :: 0 <= i < |steps| ==> !steps[i].ForeignEnd?
    ensures Inv(w')
    decreases |steps|
  {
    hide EndsInv, PoolInv, TimeInv, Next, Enabled;
    if steps != [] {
      StepKeepsEnds(w, steps[0]);
      StepKeepsPool(w, steps[0]);
      StepKeepsTime(w, steps[0]);
      RunKeepsInv(Next(w, steps[0]), steps[1..], w');
    }
  }

  lemma InvNeverOrphans(w: World)
    requires Inv(w)
    ensures NoOrphans(w.tables, w.cutoff)
    ensures forall r :: r in w.tables.events && r.rec.sessionId in w.tables.sessions ==>
        var end := w.tables.sessions[r.rec.sessionId].endedAt; end.Some? ==> r.rec.timestamp <= end.value
  {
    forall r | r in w.tables.events && Existed(w.tables, r.rec.sessionId) && Recent(w.cutoff, r.rec)
      ensures r.rec.sessionId in w.tables.sessions
    {
      assert InTime(w, r.rec);
    }
  }

  /**
   Retention never orphans a recent event: after any mix of prunes, late flushes, lost batches and dropped
   connections, every stored event at or above the highest cutoff whose session ever existed still has it.
  */
  lemma RetentionNeverOrphans(steps: seq<Step>, w: World)
    requires Reaches(BEGINNING, steps, w) && forall i :: 0 <= i < |steps| ==> !steps[i].ForeignEnd?
    ensures NoOrphans(w.tables, w.cutoff)
    ensures forall r :: r in w.tables.events && r.rec.sessionId in w.tables.sessions ==>
        var end := w.tables.sessions[r.rec.sessionId].endedAt; end.Some? ==> r.rec.timestamp <= end.value
  {
    RunKeepsInv(BEGINNING, steps, w);
    InvNeverOrphans(w);
  }

  // ---------------------------------------------------------------------------------------------
  // One prune, and a foreign session_end

  predicate WithinSession(t: Tables, r: Row) {
    r.rec.sessionId in t.sessions && t.sessions[r.rec.sessionId].endedAt.Some? ==>
      r.rec.timestamp <= t.sessions[r.rec.sessionId].endedAt.value
  }

  /** This prune keeps the event and deletes the session it names. */
  predicate Orphans(t: Tables, cutoff: int, r: Row) {
    && r in t.events && r in Pruned(t, cutoff).events
    && r.rec.sessionId in t.sessions && r.rec.sessionId !in Pruned(t, cutoff).sessions
  }

  /** Some cutoff orphans an event exactly when the event is later than the end of its session. */
  lemma OrphanedExactlyWhenLate(t: Tables, r: Row)
    requires r in t.events
    ensures (exists cutoff :: Orphans(t, cutoff, r)) <==> !WithinSession(t, r)
  {
    if !WithinSession(t, r) {
      assert Orphans(t, r.rec.timestamp, r);
    }
  }

  lemma {:induction false} OneMore(w: World, steps: seq<Step>, w': World, step: Step)
    requires Reaches(w, steps, w') && Enabled(w', step)
    ensures Reaches(w, steps + [step], Next(w', step))
    decreases |steps|
  {
    hide Next, Enabled;
    if steps == [] {
      assert [step][1..] == [];
      assert Reaches(Next(w, step), [], Next(w', step));
    } else {
      assert (steps + [step])[1..] == steps[1..] + [step];
      OneMore(Next(w, steps[0]), steps[1..], w', step);
    }
  }

  /** The session was ended early by somebody else; its client then read a line, and the line reached the queue. */
  function EndedEarly(row: SessionRow, rec: Record): World {
    World(10, WithEnd(WithSession(EMPTY, row), 1, 5), map[1 := 0], {1}, {1}, {}, [], map[], [], [rec], map[1 := 5], None)
  }

  lemma ReachesEndedEarly(row: SessionRow, rec: Record) returns (steps: seq<Step>)
    requires row.endedAt.None? && rec.sessionId == 1 && rec.timestamp == 10
    ensures Reaches(BEGINNING, steps, EndedEarly(row, rec))
  {
    var mint, foreign, tick, stamp := Mint(row, 0), ForeignEnd(1, 5, false), Tick(10), Stamp(0, rec);
    var write, accept := Write(0, 1), Accept(0, false);
    OneMore(BEGINNING, [], BEGINNING, mint);
    var w1 := Next(BEGINNING, mint);
    OneMore(BEGINNING, [] + [mint], w1, foreign);
    var w2 := Next(w1, foreign);
    OneMore(BEGINNING, [] + [mint] + [foreign], w2, tick);
    var w3 := w2.(clock := 10);
    OneMore(BEGINNING, [] + [mint] + [foreign] + [tick], w3, stamp);
    var w4 := Next(w3, stamp);
    OneMore(BEGINNING, [] + [mint] + [foreign] + [tick] + [stamp], w4, write);
    var w5 := Next(w4, write);
    assert w5 == w3.(wire := [rec]);
    OneMore(BEGINNING, [] + [mint] + [foreign] + [tick] + [stamp] + [write], w5, accept);
    steps := [] + [mint] + [foreign] + [tick] + [stamp] + [write] + [accept];
    assert w5.queue + [rec] == [rec] && RemovedAt(w5.wire, 0) == [];
    assert w5.alive == {1} && w5.listed == {1} && w5.ends == map[1 := 5] && w5.owner == map[1 := 0];
    assert Next(w5, accept) == EndedEarly(row, rec);
  }

  /** The late line is stored, and nothing has been pruned yet. */
  function StoredLate(row: SessionRow, rec: Record): World {
    EndedEarly(row, rec).(tables := WithEvents(EndedEarly(row, rec).tables, [rec]), queue := [])
  }

  lemma ReachesStoredLate(row: SessionRow, rec: Record) returns (steps: seq<Step>)
    requires row.endedAt.None? && rec.sessionId == 1 && rec.timestamp == 10
    ensures Reaches(BEGINNING, steps, StoredLate(row, rec))
  {
    var early, commit := EndedEarly(row, rec), Commit(1, false);
    steps := ReachesEndedEarly(row, rec);
    OneMore(BEGINNING, steps, early, commit);
    assert early.queue[..1] == [rec] && early.queue[1..] == [];
    steps := steps + [commit];
  }

  /** When somebody else ends a session, its own client can still log under it, and the next prune orphans that. */
  lemma ForeignEndMayOrphan(service: string, message: string) returns (steps: seq<Step>, w: World)
    ensures Reaches(BEGINNING, steps, w) && !NoOrphans(w.tables, w.cutoff)
  {
    var row := SessionRow(service, 1, "", 0, None, "");
    var rec := Record(1, 10, "stdout", "", message, service);
    var stored, prune := StoredLate(row, rec), Prune(10, false);
    steps := ReachesStoredLate(row, rec);
    OneMore(BEGINNING, steps, stored, prune);
    w, steps := Next(stored, prune), steps + [prune];
  }
}
