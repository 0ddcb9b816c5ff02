/** The broker of Lifecycle filling the database of Retention, over any number of broker runs on one database. */
module RetentionRuns {
  import opened Seqs
  import opened Decimal
  import opened Records
  import opened Storage
  import opened BatchWriters
  import R = Retention
  import L = Lifecycle
  import LS = LifecycleSafety
  import O = Ownership

  // The world keeps the clients and the clock, the broker its own state, and the two share the tables: what a step of
  // the broker does to them is a run of the world.

  datatype Act =
    | Outside(deed: R.Step)                                  // the clock or a client
    | Inside(step: L.Step, client: R.ClientId, at: nat)      // the broker, for that client, taking that line off the wire
    | Restarts(retention: bool)                              // a new broker, once Stop has finished

  predicate IsOutside(deed: R.Step) {
    deed.Tick? || deed.Stamp? || deed.Scanned? || deed.Write? || deed.ClientEnds?
  }

  /** One database, the same events accepted and not committed, and every tracked session known to be up. */
  ghost predicate Sees(w: R.World, b: L.Broker) {
    && w.tables == b.desk.tables
    && w.queue == Map(b.pipe.batch + b.pipe.queue, RecordOf())
    && forall c, id :: c in b.desk.tracked && id in b.desk.tracked[c] ==> id in w.listed && id in w.alive
  }

  predicate OwnEnd(w: R.World, d: O.Desk, c: O.Conn, id: int, ts: int) {
    && id in d.owner && d.owner[id] == c
    && id in w.alive && id in w.clientEnd && w.clientEnd[id] == ts
  }

  /** The broker's time is the world's, and what it hears is what the world's clients wrote. */
  predicate Heard(w: R.World, b: L.Broker, step: L.Step, at: nat)
    requires L.Enabled(b, step)
  {
    if step.CleanUp? then step.now == w.clock
    else if step.Send? then
      && at < |w.wire| && w.wire[at] == ToRecord(b.handlers[step.c].pc.item.msg) && R.Deliverable(w, w.wire[at])
    else if step.Read? && b.handlers[step.c].peer.inbox[0].SessionEnd? then
      var m := b.handlers[step.c].peer.inbox[0];
      var id := ParseInt(m.session);
      id.ok ==> OwnEnd(w, b.desk, step.c, id.value, m.timestamp)
    else true
  }

  /** How many events the step hands to an insert call. */
  function Inserted(b: L.Broker, step: L.Step): nat {
    if !step.Receive? then |b.pipe.batch|
    else if |b.pipe.batch| + 1 >= BATCH_SIZE then |b.pipe.batch| + 1
    else 0
  }

  function Disconnects(ids: seq<int>, failing: set<int>): seq<R.Step> {
    seq(|ids|, i requires 0 <= i < |ids| => R.Disconnect(ids[i], ids[i] in failing))
  }

  function ReadMirror(b: L.Broker, step: L.Step, client: R.ClientId): seq<R.Step>
    requires step.Read? && L.Enabled(b, step)
  {
    match b.handlers[step.c].peer.inbox[0]
    case SessionStart(m) =>
      if step.fails then []
      else [R.Mint(SessionRow(m.service, m.pid, m.command, step.now, None, step.host), client)]
    case SessionEnd(session, _) =>
      var id := ParseInt(session);
      if id.ok then [R.ReadEnd(id.value, step.fails)] else []
    case _ => []
  }

  /** What a step of the broker does in the world: flushes commit, a cleanup disconnects, a retention tick prunes. */
  function Mirror(b: L.Broker, step: L.Step, client: R.ClientId, at: nat): seq<R.Step>
    requires L.Enabled(b, step)
  {
    if L.IsWriterStep(step) then (if Inserted(b, step) == 0 then [] else [R.Commit(Inserted(b, step), step.fails)])
    else if step.Read? then ReadMirror(b, step, client)
    else if step.Send? then [R.Accept(at, |b.pipe.queue| >= EVENT_CH_SIZE)]
    else if step.CleanUp? then Disconnects(O.Listed(b.desk, step.c), step.failing)
    else if step.RetentionTick? then (if L.StoreIsClosed(b) then [] else [R.Prune(step.cutoff, step.fails)])
    else []
  }

  // ---------------------------------------------------------------------------------------------
  // Each step of the broker is a run of the world

  lemma OneStep(w: R.World, step: R.Step)
    requires R.Enabled(w, step)
    ensures R.Reaches(w, [step], R.Next(w, step))
  {
    hide R.Next, R.Enabled;
    assert [step][1..] == [];
    assert R.Reaches(R.Next(w, step), [], R.Next(w, step));
  }

  /** The batch at the moment of the flush, and what stays in the channel. */
  function Taken(b: L.Broker, step: L.Step): seq<Item>
    requires L.IsWriterStep(step) && L.Enabled(b, step)
  {
    if step.Receive? then b.pipe.batch + [b.pipe.queue[0]] else b.pipe.batch
  }

  function Left(b: L.Broker, step: L.Step): seq<Item>
    requires L.IsWriterStep(step) && L.Enabled(b, step)
  {
    if step.Receive? then b.pipe.queue[1..] else b.pipe.queue
  }

  lemma NothingSkipped(b: L.Broker, step: L.Step)
    requires L.IsWriterStep(step) && L.Enabled(b, step)
    ensures b.pipe.batch + b.pipe.queue == Taken(b, step) + Left(b, step)
    ensures [] + Left(b, step) == Left(b, step)
  {
  }

  lemma AfterWriter(b: L.Broker, step: L.Step)
    requires L.IsWriterStep(step) && L.Enabled(b, step)
    ensures var b', n := L.Next(b, step), Inserted(b, step);
      && b'.desk.tracked == b.desk.tracked && b'.pipe.queue == Left(b, step)
      && (n > 0 ==> n == |Taken(b, step)|)
      && b'.pipe.batch == (if n == 0 then Taken(b, step) else [])
      && b'.desk.tables == if n == 0 || step.fails then b.desk.tables
                           else WithEvents(b.desk.tables, Map(Taken(b, step), RecordOf()))
  {
    hide WithEvents, Map, RecordOf;
  }

  lemma CommitStep(w: R.World, taken: seq<Item>, left: seq<Item>, fails: bool)
    requires w.queue == Map(taken + left, RecordOf())
    ensures var commit := R.Commit(|taken|, fails);
      && R.Enabled(w, commit) && R.Reaches(w, [commit], R.Next(w, commit))
      && R.Next(w, commit) == w.(
          tables := if fails then w.tables else WithEvents(w.tables, Map(taken, RecordOf())),
          queue := Map(left, RecordOf()))
  {
    hide WithEvents;
    MapConcat(taken, left, RecordOf());
    assert w.queue[..|taken|] == Map(taken, RecordOf()) && w.queue[|taken|..] == Map(left, RecordOf());
    OneStep(w, R.Commit(|taken|, fails));
  }

  /** A flush of the batch, by size, by tick or at the end, is one commit of what waited longest. */
  lemma FlushIsCommit(w: R.World, b: L.Broker, step: L.Step) returns (w': R.World)
    requires Sees(w, b) && L.IsWriterStep(step) && L.Enabled(b, step)
    ensures R.Reaches(w, Mirror(b, step, 0, 0), w') && Sees(w', L.Next(b, step))
  {
    hide WithEvents, L.Next, L.Enabled, R.Next, R.Enabled, Taken, Left, Inserted;
    AfterWriter(b, step);
    var taken, left := Taken(b, step), Left(b, step);
    NothingSkipped(b, step);
    if Inserted(b, step) == 0 {
      w' := w;
    } else {
      CommitStep(w, taken, left, step.fails);
      w' := R.Next(w, R.Commit(|taken|, step.fails));
    }
  }

  /** A tick of the retention loop is one prune. */
  lemma TickIsPrune(w: R.World, b: L.Broker, step: L.Step) returns (w': R.World)
    requires Sees(w, b) && step.RetentionTick? && L.Enabled(b, step)
    ensures R.Reaches(w, Mirror(b, step, 0, 0), w') && Sees(w', L.Next(b, step))
  {
    hide Pruned;
    w' := w;
    if !L.StoreIsClosed(b) {
      OneStep(w, R.Prune(step.cutoff, step.fails));
      w' := R.Next(w, R.Prune(step.cutoff, step.fails));
    }
  }

  /** The cleanup of a connection is a disconnect of each session still listed under it. */
  lemma {:induction false} ClosingIsDisconnecting(
      w: R.World, d: O.Desk, ids: seq<int>, failing: set<int>) returns (w': R.World)
    requires w.tables == d.tables && Distinct(ids)
    requires forall id :: id in ids ==> id in w.listed && id in w.alive
    ensures R.Reaches(w, Disconnects(ids, failing), w')
    ensures w'.tables == O.CloseAll(d, ids, w.clock, failing).tables
    ensures w'.queue == w.queue && w'.clock == w.clock
    ensures forall id :: id !in ids ==> (id in w.listed ==> id in w'.listed) && (id in w.alive ==> id in w'.alive)
  {
    hide WithEnd, R.Enabled;
    w' := w;
    if ids != [] {
      var n := |ids| - 1;
      var step := R.Disconnect(ids[n], ids[n] in failing);
      var before := ClosingIsDisconnecting(w, d, ids[..n], failing);
      assert Disconnects(ids, failing) == Disconnects(ids[..n], failing) + [step];
      assert ids[n] !in ids[..n] && ids[n] in before.alive && ids[n] in before.listed;
      DisconnectIsEnabled(before, step);
      R.OneMore(w, Disconnects(ids[..n], failing), before, step);
      w' := R.Next(before, step);
      assert ids == ids[..n] + [ids[n]];
    }
  }

  lemma DisconnectIsEnabled(w: R.World, step: R.Step)
    requires step.Disconnect? && step.id in w.alive
    ensures R.Enabled(w, step)
  {
  }

  lemma CleanupIsDisconnects(w: R.World, b: L.Broker, step: L.Step) returns (w': R.World)
    requires Sees(w, b) && O.Agree(b.desk) && step.CleanUp? && L.Enabled(b, step) && step.now == w.clock
    ensures R.Reaches(w, Mirror(b, step, 0, 0), w') && Sees(w', L.Next(b, step))
  {
    hide O.CloseAll, R.Reaches;
    var ids, d1 := O.Listed(b.desk, step.c), b.desk.(tracked := b.desk.tracked - {step.c});
    w' := ClosingIsDisconnecting(w, d1, ids, step.failing);
    O.CloseAllForgets(d1, ids, step.now, step.failing);
    var d' := L.Next(b, step).desk;
    assert d' == O.CloseAll(d1, ids, step.now, step.failing);
    forall c, id | c in d'.tracked && id in d'.tracked[c] ensures id in w'.listed && id in w'.alive {
      assert c != step.c && b.desk.owner[id] == c && id !in ids;
    }
  }

  function DeskAfter(d: O.Desk, step: L.Step, m: L.Message): O.Desk
    requires step.Read?
  {
    match m
    case SessionStart(start) => O.Start(d, step.c, start, step.host, step.now, step.fails)
    case SessionEnd(session, ts) =>
      var id := ParseInt(session);
      if id.ok then O.End(d, step.c, id.value, ts, step.fails) else d
    case _ => d
  }

  lemma AfterReadNext(b: L.Broker, step: L.Step)
    requires step.Read? && L.At(b, step.c, L.Reading) && b.handlers[step.c].peer.inbox != []
    ensures var b', m := L.ReadNext(b, step.c, step.host, step.now, step.fails), b.handlers[step.c].peer.inbox[0];
      && b'.pipe.queue == b.pipe.queue && b'.pipe.batch == b.pipe.batch && b'.desk == DeskAfter(b.desk, step, m)
  {
    hide O.Start, O.End, ParseInt;
    assert L.Consumed(b, step.c).pipe == b.pipe && L.Consumed(b, step.c).desk == b.desk;
    hide L.Consumed;
  }

  lemma AfterRead(b: L.Broker, step: L.Step)
    requires step.Read? && L.Enabled(b, step)
    ensures var b', m := L.Next(b, step), b.handlers[step.c].peer.inbox[0];
      && b'.pipe.queue == b.pipe.queue && b'.pipe.batch == b.pipe.batch && b'.desk == DeskAfter(b.desk, step, m)
  {
    hide L.ReadNext, DeskAfter;
    AfterReadNext(b, step);
  }

  lemma StartIsMint(w: R.World, b: L.Broker, step: L.Step, client: R.ClientId) returns (w': R.World)
    requires Sees(w, b) && step.Read? && L.Enabled(b, step) && b.handlers[step.c].peer.inbox[0].SessionStart?
    ensures R.Reaches(w, Mirror(b, step, client, 0), w') && Sees(w', L.Next(b, step))
  {
    AfterRead(b, step);
    hide WithSession, L.Next;
    var m := b.handlers[step.c].peer.inbox[0].start;
    w' := w;
    if !step.fails {
      var mint := R.Mint(SessionRow(m.service, m.pid, m.command, step.now, None, step.host), client);
      OneStep(w, mint);
      w' := R.Next(w, mint);
      StartLists(b.desk, step.c, m, step.host, step.now);
    }
  }

  lemma StartLists(d: O.Desk, c: O.Conn, m: O.StartMessage, host: string, now: int)
    ensures var d' := O.Start(d, c, m, host, now, false);
      forall k, x :: k in d'.tracked && x in d'.tracked[k] ==>
        x == d.tables.lastSession + 1 || (k in d.tracked && x in d.tracked[k])
  {
  }

  /** The session_end of a session's own client. */
  lemma EndIsReadEnd(w: R.World, b: L.Broker, step: L.Step, client: R.ClientId) returns (w': R.World)
    requires Sees(w, b) && O.Agree(b.desk) && L.Enabled(b, step) && Heard(w, b, step, 0)
    requires step.Read? && b.handlers[step.c].peer.inbox[0].SessionEnd?
    ensures R.Reaches(w, Mirror(b, step, client, 0), w') && Sees(w', L.Next(b, step))
  {
    AfterRead(b, step);
    hide WithEnd, ParseInt, L.Next, O.Agree, R.Reaches;
    var m := b.handlers[step.c].peer.inbox[0];
    var id := ParseInt(m.session);
    w' := w;
    if id.ok {
      OneStep(w, R.ReadEnd(id.value, step.fails));
      w' := R.Next(w, R.ReadEnd(id.value, step.fails));
      EndDelists(b.desk, step.c, id.value, m.timestamp, step.fails);
    }
  }

  lemma EndDelists(d: O.Desk, c: O.Conn, id: int, ts: int, fails: bool)
    requires O.Agree(d) && id in d.owner && d.owner[id] == c
    ensures var d' := O.End(d, c, id, ts, fails);
      forall k, x :: k in d'.tracked && x in d'.tracked[k] ==> x != id && k in d.tracked && x in d.tracked[k]
  {
    if c in d.tracked {
      O.WithoutKeeps(d.tracked[c], id);
    }
  }

  lemma AcceptStep(w: R.World, waiting: seq<Item>, item: Item, at: nat, full: bool)
    requires w.queue == Map(waiting, RecordOf())
    requires at < |w.wire| && w.wire[at] == ToRecord(item.msg) && R.Deliverable(w, w.wire[at])
    ensures var accept := R.Accept(at, full);
      && R.Enabled(w, accept) && R.Reaches(w, [accept], R.Next(w, accept))
      && R.Next(w, accept) == w.(
          wire := R.RemovedAt(w.wire, at),
          queue := if full then w.queue else Map(waiting + [item], RecordOf()))
  {
    MapConcat(waiting, [item], RecordOf());
    assert Map([item], RecordOf()) == [ToRecord(item.msg)];
    OneStep(w, R.Accept(at, full));
  }

  lemma AfterSend(b: L.Broker, step: L.Step)
    requires step.Send? && L.Enabled(b, step) && !L.ChannelIsClosed(b)
    ensures var b', item := L.Next(b, step), b.handlers[step.c].pc.item;
      && b'.desk == b.desk && b'.pipe.batch == b.pipe.batch
      && b'.pipe.queue == if |b.pipe.queue| >= EVENT_CH_SIZE then b.pipe.queue else b.pipe.queue + [item]
  {
    hide L.Behind;
  }

  lemma MirrorOfSend(w: R.World, b: L.Broker, step: L.Step, at: nat)
    requires step.Send? && L.Enabled(b, step) && Heard(w, b, step, at)
    ensures step.c < |b.handlers| && b.handlers[step.c].pc.Sending?
    ensures Mirror(b, step, 0, at) == [R.Accept(at, |b.pipe.queue| >= EVENT_CH_SIZE)]
    ensures at < |w.wire| && w.wire[at] == ToRecord(b.handlers[step.c].pc.item.msg) && R.Deliverable(w, w.wire[at])
  {
    hide ToRecord, R.Deliverable;
  }

  lemma SendIsAccept(w: R.World, b: L.Broker, step: L.Step, at: nat) returns (w': R.World)
    requires Sees(w, b) && step.Send? && L.Enabled(b, step) && Heard(w, b, step, at) && !L.ChannelIsClosed(b)
    ensures R.Reaches(w, Mirror(b, step, 0, at), w') && Sees(w', L.Next(b, step))
  {
    hide L.Next, L.Enabled, R.Next, R.Deliverable, R.Enabled, R.Reaches, Heard, Mirror, ToRecord, L.ChannelIsClosed;
    AfterSend(b, step);
    MirrorOfSend(w, b, step, at);
    var item, full, waiting := b.handlers[step.c].pc.item, |b.pipe.queue| >= EVENT_CH_SIZE, b.pipe.batch + b.pipe.queue;
    AcceptStep(w, waiting, item, at, full);
    w' := R.Next(w, R.Accept(at, full));
    assert Sees(w', L.Next(b, step)) by {
      assert waiting + [item] == b.pipe.batch + (b.pipe.queue + [item]);
    }
  }

  lemma OthersAreNothing(w: R.World, b: L.Broker, step: L.Step)
    requires Sees(w, b) && L.Enabled(b, step) && !L.IsWriterStep(step) && !step.RetentionTick?
    requires !step.Read? && !step.Send? && !step.CleanUp?
    ensures Sees(w, L.Next(b, step))
  {
  }

  lemma OtherReadsAreNothing(w: R.World, b: L.Broker, step: L.Step)
    requires Sees(w, b) && L.Enabled(b, step) && step.Read?
    requires var m := b.handlers[step.c].peer.inbox[0]; !m.SessionStart? && !m.SessionEnd?
    ensures Sees(w, L.Next(b, step))
  {
    AfterRead(b, step);
    hide L.Next;
  }

  /** Whatever the broker does is a run of the world that ends in the broker's own tables. */
  lemma StepIsMirrored(w: R.World, b: L.Broker, step: L.Step, client: R.ClientId, at: nat) returns (w': R.World)
    requires Sees(w, b) && LS.Inv(b) && L.Enabled(b, step) && Heard(w, b, step, at)
    ensures R.Reaches(w, Mirror(b, step, client, at), w') && Sees(w', L.Next(b, step))
  {
    InvFacts(b, step);
    hide LS.Inv, Sees, L.Next, L.Enabled, O.Agree;
    if L.IsWriterStep(step) {
      w' := FlushIsCommit(w, b, step);
    } else if step.RetentionTick? {
      w' := TickIsPrune(w, b, step);
    } else if step.CleanUp? {
      w' := CleanupIsDisconnects(w, b, step);
    } else if step.Send? {
      w' := SendIsAccept(w, b, step, at);
    } else if !step.Read? {
      OthersAreNothing(w, b, step);
      w' := w;
    } else if b.handlers[step.c].peer.inbox[0].SessionStart? {
      w' := StartIsMint(w, b, step, client);
    } else if b.handlers[step.c].peer.inbox[0].SessionEnd? {
      w' := EndIsReadEnd(w, b, step, client);
    } else {
      OtherReadsAreNothing(w, b, step);
      w' := w;
    }
  }

  lemma InvFacts(b: L.Broker, step: L.Step)
    requires LS.Inv(b) && L.Enabled(b, step)
    ensures O.Agree(b.desk) && (step.Send? ==> !L.ChannelIsClosed(b))
    ensures step.Read? ==> step.c < |b.handlers| && b.handlers[step.c].peer.inbox != []
  {
    if step.Send? {
      LS.LiveHandlerHoldsStop(b, step.c);
    }
  }

  // ---------------------------------------------------------------------------------------------
  // Whole runs, over any number of brokers

  ghost predicate Goes(w: R.World, b: L.Broker, act: Act, w': R.World, b': L.Broker) {
    match act
    case Outside(deed) => IsOutside(deed) && R.Enabled(w, deed) && w' == R.Next(w, deed) && b' == b
    case Inside(step, client, at) =>
      && L.Enabled(b, step) && Heard(w, b, step, at) && b' == L.Next(b, step)
      && R.Reaches(w, Mirror(b, step, client, at), w')
    case Restarts(retention) => b.phase == L.Quit && b' == L.Started(b.desk.tables, retention) && w' == w
  }

  ghost predicate Runs(w: R.World, b: L.Broker, acts: seq<Act>, w': R.World, b': L.Broker)
    decreases |acts|
  {
    if acts == [] then w == w' && b == b'
    else exists w1, b1 :: Goes(w, b, acts[0], w1, b1) && Runs(w1, b1, acts[1..], w', b')
  }

  lemma {:induction false} OneWay(w: R.World, steps: seq<R.Step>, w1: R.World, w2: R.World)
    requires R.Reaches(w, steps, w1) && R.Reaches(w, steps, w2)
    ensures w1 == w2
    decreases |steps|
  {
    hide R.Next, R.Enabled;
    if steps != [] {
      OneWay(R.Next(w, steps[0]), steps[1..], w1, w2);
    }
  }

  lemma NoForeignMirror(b: L.Broker, step: L.Step, client: R.ClientId, at: nat)
    requires L.Enabled(b, step)
    ensures var m := Mirror(b, step, client, at); forall i :: 0 <= i < |m| ==> !m[i].ForeignEnd?
  {
  }

  lemma OutsideKeeps(w: R.World, b: L.Broker, deed: R.Step)
    requires R.Inv(w) && Sees(w, b) && IsOutside(deed) && R.Enabled(w, deed)
    ensures R.Inv(R.Next(w, deed)) && Sees(R.Next(w, deed), b)
  {
    OneStep(w, deed);
    hide R.EndsInv, R.PoolInv, R.TimeInv;
    R.RunKeepsInv(w, [deed], R.Next(w, deed));
  }

  lemma RestartKeeps(w: R.World, b: L.Broker, retention: bool)
    requires Sees(w, b) && LS.Inv(b) && b.phase == L.Quit
    ensures LS.Inv(L.Started(b.desk.tables, retention)) && Sees(w, L.Started(b.desk.tables, retention))
  {
    LS.NobodyLeft(b);
    LS.StartedInv(b.desk.tables, retention);
    hide LS.Inv;
    assert b.pipe.batch == [] && b.pipe.queue == [];
  }

  lemma GoesKeeps(w: R.World, b: L.Broker, act: Act, w': R.World, b': L.Broker)
    requires R.Inv(w) && LS.Inv(b) && Sees(w, b) && Goes(w, b, act, w', b')
    ensures R.Inv(w') && LS.Inv(b') && Sees(w', b')
  {
    hide R.Inv, LS.Inv, Sees, R.Next, R.Enabled, L.Next, L.Enabled, R.Reaches, Mirror, Heard;
    match act
    case Outside(deed) => OutsideKeeps(w, b, deed);
    case Inside(step, client, at) =>
      var w1 := StepIsMirrored(w, b, step, client, at);
      OneWay(w, Mirror(b, step, client, at), w', w1);
      NoForeignMirror(b, step, client, at);
      R.RunKeepsInv(w, Mirror(b, step, client, at), w');
      LS.StepKeepsInv(b, step);
    case Restarts(retention) => RestartKeeps(w, b, retention);
  }

  lemma {:induction false} RunsKeep(w: R.World, b: L.Broker, acts: seq<Act>, w': R.World, b': L.Broker)
    requires R.Inv(w) && LS.Inv(b) && Sees(w, b) && Runs(w, b, acts, w', b')
    ensures R.Inv(w') && LS.Inv(b') && Sees(w', b')
    decreases |acts|
  {
    hide R.Inv, LS.Inv, Sees, Goes;
    if acts != [] {
      var w1, b1 :| Goes(w, b, acts[0], w1, b1) && Runs(w1, b1, acts[1..], w', b');
      GoesKeeps(w, b, acts[0], w1, b1);
      RunsKeep(w1, b1, acts[1..], w', b');
    }
  }

  lemma BeginningSees(retention: bool)
    ensures R.Inv(R.BEGINNING) && Sees(R.BEGINNING, L.Started(EMPTY, retention))
  {
    assert Map<Item, Record>([] + [], RecordOf()) == [];
  }

  /**
   The broker's own tables: over any number of broker runs on one database, with clients that flush late, batches that
   are lost and prunes at any moment, every stored event at or above the highest cutoff whose session ever existed
   still has it.
  */
  lemma BrokersNeverOrphan(retention: bool, acts: seq<Act>, w: R.World, b: L.Broker)
    requires Runs(R.BEGINNING, L.Started(EMPTY, retention), acts, w, b)
    ensures R.NoOrphans(b.desk.tables, w.cutoff)
  {
    LS.StartedInv(EMPTY, retention);
    hide LS.Inv, Runs, R.Inv, R.NoOrphans;
    BeginningSees(retention);
    RunsKeep(R.BEGINNING, L.Started(EMPTY, retention), acts, w, b);
    R.InvNeverOrphans(w);
  }

  /** Nothing of that is held up by the world: every step the broker can take, hearing its clients, goes somewhere. */
  lemma NothingIsHeldUp(w: R.World, b: L.Broker, step: L.Step, client: R.ClientId, at: nat)
    requires LS.Inv(b) && Sees(w, b) && L.Enabled(b, step) && Heard(w, b, step, at)
    ensures exists w' :: Goes(w, b, Inside(step, client, at), w', L.Next(b, step))
  {
    hide LS.Inv, Sees, Mirror, R.Reaches, L.Next;
    var w' := StepIsMirrored(w, b, step, client, at);
    assert Goes(w, b, Inside(step, client, at), w', L.Next(b, step));
  }
}
