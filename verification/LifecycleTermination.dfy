/**
 Shutdown ends. From the moment `done` is closed, with the clients gone, every step of the broker's own
 goroutines other than an empty tick makes a measure smaller, and until Stop returns one is possible.
*/
module LifecycleTermination {
  import opened Records
  import opened Storage
  import opened Lifecycle
  import opened LifecycleSafety
  import O = Ownership
  import Decimal

  /** What a handler still has to do; each unread frame may become a cached, queued and batched event. */
  function Weight(h: Handler): nat {
    match h.pc
    case Reading => 3 + 4 * |h.peer.inbox|
    case Sending(_) => 6 + 4 * |h.peer.inbox|
    case Leaving => 2
    case Cleaned => 1
    case Gone => 0
  }

  function HandlersWeight(handlers: seq<Handler>): nat {
    if handlers == [] then 0
    else HandlersWeight(handlers[..|handlers| - 1]) + Weight(handlers[|handlers| - 1])
  }

  function BacklogWeight(backlog: seq<Peer>): nat {
    if backlog == [] then 0 else 4 + 4 * |backlog[0].inbox| + BacklogWeight(backlog[1..])
  }

  function Bit(x: bool): nat { if x then 1 else 0 }

  function Measure(b: Broker): nat {
    BacklogWeight(b.backlog) + HandlersWeight(b.handlers) + 2 * |b.pipe.queue| + |b.pipe.batch|
    + Bit(b.accepting) + Bit(b.writing) + Bit(b.retaining) + (7 - Rank(b.phase))
  }

  /** Steps of the clients, of the retention ticker, and ticks that find nothing to flush. */
  predicate IsIdle(b: Broker, step: Step) {
    IsClientStep(step) || step.RetentionTick? || (step.Tick? && b.pipe.batch == [])
  }

  lemma {:induction false} WeightUpdate(handlers: seq<Handler>, c: nat, h: Handler)
    requires c < |handlers|
    ensures HandlersWeight(handlers[c := h]) + Weight(handlers[c]) == HandlersWeight(handlers) + Weight(h)
  {
    var n := |handlers| - 1;
    if c == n {
      assert handlers[c := h][..n] == handlers[..n];
    } else {
      WeightUpdate(handlers[..n], c, h);
      assert handlers[c := h][..n] == handlers[..n][c := h];
    }
  }

  /** Everything the measure counts besides one handler and the queue is as it was. */
  predicate OnlyHandler(b: Broker, c: nat, b': Broker) {
    && c < |b.handlers| == |b'.handlers| && b'.handlers == b.handlers[c := b'.handlers[c]]
    && b'.backlog == b.backlog && b'.pipe.batch == b.pipe.batch && b'.phase == b.phase
    && b'.accepting == b.accepting && b'.writing == b.writing && b'.retaining == b.retaining
  }

  lemma HandlerEffect(b: Broker, c: nat, b': Broker)
    requires OnlyHandler(b, c, b')
    requires Weight(b'.handlers[c]) + 2 * |b'.pipe.queue| < Weight(b.handlers[c]) + 2 * |b.pipe.queue|
    ensures Measure(b') < Measure(b)
  {
    WeightUpdate(b.handlers, c, b'.handlers[c]);
  }

  /** A step of one handler that costs at most `cost` and leaves the queue alone. */
  predicate Costs(b: Broker, c: nat, b': Broker, cost: nat) {
    OnlyHandler(b, c, b') && b'.pipe.queue == b.pipe.queue && Weight(b'.handlers[c]) <= Weight(b.handlers[c]) + cost
  }

  lemma StartCosts(b: Broker, c: nat, m: O.StartMessage, host: string, now: int, fails: bool)
    requires At(b, c, Reading)
    ensures Costs(b, c, Registered(b, c, m, host, now, fails), 0)
  {
  }

  lemma EndCosts(b: Broker, c: nat, s: string, ts: int, fails: bool)
    requires At(b, c, Reading)
    ensures Costs(b, c, Ended(b, c, s, ts, fails), 0)
  {
  }

  lemma LogCosts(b: Broker, c: nat, m: LogMessage)
    requires At(b, c, Reading)
    ensures Costs(b, c, CachedLog(b, c, m), 3)
  {
  }

  lemma ReadCosts(b: Broker, c: nat, host: string, now: int, fails: bool)
    requires At(b, c, Reading) && b.handlers[c].peer.inbox != []
    ensures Costs(Consumed(b, c), c, ReadNext(b, c, host, now, fails), 3)
  {
    var b1, m := Consumed(b, c), b.handlers[c].peer.inbox[0];
    assert At(b1, c, Reading);
    if m.SessionStart? {
      StartCosts(b1, c, m.start, host, now, fails);
    } else if m.SessionEnd? {
      EndCosts(b1, c, m.session, m.timestamp, fails);
    } else if m.Log? {
      LogCosts(b1, c, m.msg);
    }
  }

  lemma ReadDecreases(b: Broker, c: nat, host: string, now: int, fails: bool)
    requires At(b, c, Reading) && b.handlers[c].peer.inbox != []
    ensures Measure(ReadNext(b, c, host, now, fails)) < Measure(b)
  {
    ReadCosts(b, c, host, now, fails);
    HandlerEffect(b, c, ReadNext(b, c, host, now, fails));
  }

  lemma OfferEffect(b: Broker, c: nat)
    requires c < |b.handlers| && b.handlers[c].pc.Sending?
    ensures OnlyHandler(b, c, Offer(b, c)) && |Offer(b, c).pipe.queue| <= |b.pipe.queue| + 1
    ensures Weight(Offer(b, c).handlers[c]) == Weight(b.handlers[c]) - 3
  {
  }

  lemma HandlerDecreases(b: Broker, step: Step)
    requires Enabled(b, step) && IsHandlerStep(step) && !step.Read?
    ensures Measure(Next(b, step)) < Measure(b)
  {
    if step.Send? {
      OfferEffect(b, step.c);
    }
    HandlerEffect(b, step.c, Next(b, step));
  }

  lemma WriterDecreases(b: Broker, step: Step)
    requires Enabled(b, step) && IsWriterStep(step) && !IsIdle(b, step)
    ensures Measure(Next(b, step)) < Measure(b)
  {
  }

  lemma AcceptDecreases(b: Broker)
    requires b.backlog != []
    ensures Measure(Accepted(b)) < Measure(b)
  {
    var h := Handler(b.backlog[0], Reading, 0);
    assert (b.handlers + [h])[..|b.handlers|] == b.handlers;
  }

  /** Every step of the broker itself, once Stop has begun, decreases the measure. */
  lemma StepDecreases(b: Broker, step: Step)
    requires Enabled(b, step) && DoneIsClosed(b) && !IsIdle(b, step)
    ensures Measure(Next(b, step)) < Measure(b)
  {
    if step.Read? {
      ReadDecreases(b, step.c, step.host, step.now, step.fails);
    } else if IsHandlerStep(step) {
      HandlerDecreases(b, step);
    } else if IsWriterStep(step) {
      WriterDecreases(b, step);
    } else if step.Accept? {
      AcceptDecreases(b);
    }
  }

  lemma IdleKeepsMeasure(b: Broker, step: Step)
    requires Enabled(b, step) && IsIdle(b, step) && !IsClientStep(step)
    ensures Measure(Next(b, step)) == Measure(b)
  {
  }

  /** The number of steps of a run that were not idle when taken. */
  ghost function Work(b: Broker, steps: seq<Step>): nat
    decreases |steps|
  {
    if steps == [] || !Enabled(b, steps[0]) then 0
    else Bit(!IsIdle(b, steps[0])) + Work(Next(b, steps[0]), steps[1..])
  }

  /** Only Stop moves its own phase. */
  lemma StepPhase(b: Broker, step: Step)
    requires Enabled(b, step)
    ensures Next(b, step).phase == if step.StopNext? then StopPhase(b, step.fails) else b.phase
  {
    if step.Read? {
      ReadCosts(b, step.c, step.host, step.now, step.fails);
    }
  }

  /** However ticks and prunes are mixed in, a shutdown can only do so much work. */
  lemma {:induction false} ShutdownIsBounded(b: Broker, steps: seq<Step>, b': Broker)
    requires DoneIsClosed(b) && Reaches(b, steps, b')
    requires forall i :: 0 <= i < |steps| ==> !IsClientStep(steps[i])
    ensures Work(b, steps) + Measure(b') <= Measure(b)
    decreases |steps|
  {
    if steps != [] {
      var b1 := Next(b, steps[0]);
      StepPhase(b, steps[0]);
      if IsIdle(b, steps[0]) {
        IdleKeepsMeasure(b, steps[0]);
      } else {
        StepDecreases(b, steps[0]);
      }
      ShutdownIsBounded(b1, steps[1..], b');
    }
  }

  /** Every client has hung up, accepted or not; what they sent may still be unread. */
  predicate ClientsGone(b: Broker) {
    && (forall c :: 0 <= c < |b.handlers| ==> !b.handlers[c].peer.connected)
    && (forall i :: 0 <= i < |b.backlog| ==> !b.backlog[i].connected)
  }

  /**
   A handler that will wait for its client: it is reading, or will be again, the connection is up, and nothing
   unread will make it give up. Stop never closes a connection, so it waits with it.
  */
  predicate Stays(h: Handler) {
    (h.pc.Reading? || h.pc.Sending?) && h.peer.connected && Broken !in h.peer.inbox
  }

  predicate NobodyStays(b: Broker) {
    forall c :: 0 <= c < |b.handlers| ==> !Stays(b.handlers[c])
  }

  lemma {:induction false} FindLive(handlers: seq<Handler>) returns (c: nat)
    requires Live(handlers) > 0
    ensures c < |handlers| && !handlers[c].pc.Gone?
  {
    c := |handlers| - 1;
    if handlers[c].pc.Gone? {
      c := FindLive(handlers[..c]);
    }
  }

  /** A live handler that does not stay always has its next step. */
  function NextOfHandler(h: Handler, c: nat): Step
    requires !h.pc.Gone?
  {
    match h.pc
    case Reading => if h.peer.inbox != [] then Read(c, "", 0, false) else Eof(c)
    case Sending(_) => Send(c)
    case Leaving => CleanUp(c, 0, {})
    case Cleaned => Exit(c)
  }

  /** When no handler stays, Stop is never stuck before it returns; in particular when the clients are gone. */
  lemma ShutdownNeverStuck(b: Broker) returns (step: Step)
    requires LifeInv(b) && DoneIsClosed(b) && NobodyStays(b)
    requires b.phase != Quit && b.phase != CloseFailed
    ensures Enabled(b, step) && !IsIdle(b, step) && (step.StopNext? ==> !step.fails)
    ensures !step.Accept? && !step.RetentionExit?
  {
    if b.phase == Unlistened && b.connWg != 0 {
      if b.accepting {
        step := AcceptFails;
      } else {
        var c := FindLive(b.handlers);
        step := NextOfHandler(b.handlers[c], c);
      }
    } else if b.phase == ChannelClosed && b.writerWg != 0 {
      step := if b.pipe.queue != [] then Receive(false) else Drained(false);
    } else {
      step := StopNext(false);
    }
  }

  lemma ReadKeepsClients(b: Broker, c: nat, host: string, now: int, fails: bool)
    requires ClientsGone(b) && At(b, c, Reading) && b.handlers[c].peer.inbox != []
    ensures ClientsGone(ReadNext(b, c, host, now, fails))
  {
    var b1 := Consumed(b, c);
    assert ClientsGone(b1);
    ReadCosts(b, c, host, now, fails);
    assert ReadNext(b, c, host, now, fails).handlers[c].peer == b1.handlers[c].peer;
  }

  lemma StepKeepsClientsGone(b: Broker, step: Step)
    requires ClientsGone(b) && Enabled(b, step) && !IsClientStep(step)
    ensures ClientsGone(Next(b, step))
  {
    hide ReadNext, ClientsGone, ByHandler;
    if step.Read? {
      ReadKeepsClients(b, step.c, step.host, step.now, step.fails);
      NextIsRead(b, step);
    } else if IsHandlerStep(step) {
      HandlerKeepsPeers(b, step);
      PeersStay(b, Next(b, step));
    } else if step.Accept? {
      AcceptKeepsGone(b);
    } else {
      PeersStay(b, Next(b, step));
    }
  }

  lemma NextIsRead(b: Broker, step: Step)
    requires step.Read? && Enabled(b, step)
    ensures At(b, step.c, Reading) && Next(b, step) == ReadNext(b, step.c, step.host, step.now, step.fails)
  {
    hide ReadNext;
  }

  ghost predicate SamePeers(b: Broker, b': Broker) {
    && b'.backlog == b.backlog && |b'.handlers| == |b.handlers|
    && forall c :: 0 <= c < |b.handlers| ==> b'.handlers[c].peer == b.handlers[c].peer
  }

  lemma PeersStay(b: Broker, b': Broker)
    requires ClientsGone(b) && SamePeers(b, b')
    ensures ClientsGone(b')
  {
  }

  lemma HandlerKeepsPeers(b: Broker, step: Step)
    requires Enabled(b, step) && IsHandlerStep(step) && !step.Read?
    ensures SamePeers(b, Next(b, step))
  {
    hide ReadNext, O.Cleanup, Behind;
  }

  lemma AcceptKeepsGone(b: Broker)
    requires ClientsGone(b) && b.backlog != []
    ensures ClientsGone(Accepted(b))
  {
    assert !b.backlog[0].connected;
  }

  lemma {:induction false} RunKeepsShutdown(b: Broker, steps: seq<Step>, b': Broker)
    requires ClientsGone(b) && LifeInv(b) && DoneIsClosed(b) && Reaches(b, steps, b')
    requires forall i :: 0 <= i < |steps| ==> !IsClientStep(steps[i])
    ensures ClientsGone(b') && LifeInv(b') && DoneIsClosed(b')
    decreases |steps|
  {
    if steps != [] {
      StepKeepsClientsGone(b, steps[0]);
      LifeStep(b, steps[0]);
      StepPhase(b, steps[0]);
      RunKeepsShutdown(Next(b, steps[0]), steps[1..], b');
    }
  }

  /**
   Shutdown terminates. Take any reachable state in which Stop has begun and the clients have hung up,
   and any way the broker runs on from there, with ticks and prunes mixed in at will: it does at most
   Measure(b) steps of work, and when no work is possible any more Stop has returned.
  */
  lemma ShutdownEnds(t: Tables, retention: bool, before: seq<Step>, b: Broker, steps: seq<Step>, b': Broker)
    requires WellFormed(t) && Reaches(Started(t, retention), before, b)
    requires DoneIsClosed(b) && ClientsGone(b) && Reaches(b, steps, b')
    requires forall i :: 0 <= i < |steps| ==> !IsClientStep(steps[i])
    ensures Work(b, steps) <= Measure(b)
    ensures (forall step :: Enabled(b', step) ==> IsIdle(b', step)) ==> b'.phase == Quit || b'.phase == CloseFailed
  {
    ReachableInv(t, retention, before, b);
    ShutdownIsBounded(b, steps, b');
    RunKeepsShutdown(b, steps, b');
    if b'.phase != Quit && b'.phase != CloseFailed {
      var step := ShutdownNeverStuck(b');
      assert Enabled(b', step) && !IsIdle(b', step);
    }
  }

  lemma ReadKeepsNobody(b: Broker, c: nat, host: string, now: int, fails: bool)
    requires NobodyStays(b) && At(b, c, Reading) && b.handlers[c].peer.inbox != []
    ensures NobodyStays(ReadNext(b, c, host, now, fails))
  {
    var b1, inbox := Consumed(b, c), b.handlers[c].peer.inbox;
    assert inbox == [inbox[0]] + inbox[1..];
    ReadCosts(b, c, host, now, fails);
    assert ReadNext(b, c, host, now, fails).handlers[c].peer == b1.handlers[c].peer;
  }

  lemma StepKeepsNobody(b: Broker, step: Step)
    requires NobodyStays(b) && Enabled(b, step) && !IsClientStep(step) && !step.Accept?
    ensures NobodyStays(Next(b, step))
  {
    hide ReadNext;
    if step.Read? {
      ReadKeepsNobody(b, step.c, step.host, step.now, step.fails);
    } else if IsHandlerStep(step) {
      var b' := Next(b, step);
      assert b'.handlers == b.handlers[step.c := b'.handlers[step.c]];
    }
  }

  /** And then it can always be driven to a full stop: with Close working, quit is reached within the measure. */
  lemma {:induction false} ShutdownReachesQuit(b: Broker) returns (steps: seq<Step>, b': Broker)
    requires LifeInv(b) && DoneIsClosed(b) && NobodyStays(b) && b.phase != CloseFailed
    ensures Reaches(b, steps, b') && b'.phase == Quit && |steps| <= Measure(b) && ByItself(steps)
    ensures b'.retaining == b.retaining
    decreases Measure(b)
  {
    hide NobodyStays, LifeInv, Next, Measure;
    if b.phase == Quit {
      steps, b' := [], b;
    } else {
      var step := ShutdownNeverStuck(b);
      StepDecreases(b, step);
      StepKeepsNobody(b, step);
      LifeStep(b, step);
      StepPhase(b, step);
      RetentionIsItsOwn(b, step);
      var rest;
      rest, b' := ShutdownReachesQuit(Next(b, step));
      Then(b, step, rest, b');
      steps := [step] + rest;
    }
  }

  /** No client does anything. */
  predicate ByItself(steps: seq<Step>) {
    forall i :: 0 <= i < |steps| ==> !IsClientStep(steps[i])
  }

  /** A handler that stays keeps staying until its client acts. */
  lemma StaysUntilItsClientActs(b: Broker, c: nat, step: Step)
    requires c < |b.handlers| && Stays(b.handlers[c]) && Enabled(b, step) && !IsClientStep(step)
    ensures c < |Next(b, step).handlers| && Stays(Next(b, step).handlers[c])
  {
    hide ReadNext;
    if step.Read? {
      var b1, inbox := Consumed(b, step.c), b.handlers[step.c].peer.inbox;
      assert inbox == [inbox[0]] + inbox[1..];
      ReadStays(b, step.c, step.host, step.now, step.fails, c);
    } else if IsHandlerStep(step) {
      var b' := Next(b, step);
      assert b'.handlers == b.handlers[step.c := b'.handlers[step.c]];
    }
  }

  lemma ReadStays(b: Broker, r: nat, host: string, now: int, fails: bool, c: nat)
    requires At(b, r, Reading) && b.handlers[r].peer.inbox != []
    requires c < |b.handlers| && Stays(b.handlers[c])
    ensures var b' := ReadNext(b, r, host, now, fails); c < |b'.handlers| && Stays(b'.handlers[c])
  {
    var inbox := b.handlers[r].peer.inbox;
    assert inbox[0] in inbox && forall m :: m in inbox[1..] ==> m in inbox;
    var b1 := Consumed(b, r);
    assert Stays(b1.handlers[c]);
    ReadCosts(b, r, host, now, fails);
  }

  lemma {:induction false} StaysForever(b: Broker, c: nat, steps: seq<Step>, b': Broker)
    requires LifeInv(b) && c < |b.handlers| && Stays(b.handlers[c])
    requires Reaches(b, steps, b') && ByItself(steps)
    ensures Rank(b'.phase) < 3
    decreases |steps|
  {
    hide Next, Enabled;
    LiveHandlerHoldsStop(b, c);
    if steps != [] {
      StaysUntilItsClientActs(b, c, steps[0]);
      LifeStep(b, steps[0]);
      StaysForever(Next(b, steps[0]), c, steps[1..], b');
    }
  }

  /**
   Exactly when Stop can return: from any reachable state with done closed and Close not failed, the broker can
   reach quit without a client doing anything iff no handler is left waiting for its client.
  */
  lemma StopReturnsIffNobodyStays(t: Tables, retention: bool, before: seq<Step>, b: Broker)
    requires WellFormed(t) && Reaches(Started(t, retention), before, b)
    requires DoneIsClosed(b) && b.phase != CloseFailed
    ensures (exists steps, b' :: Reaches(b, steps, b') && ByItself(steps) && b'.phase == Quit) <==> NobodyStays(b)
  {
    ReachableInv(t, retention, before, b);
    if NobodyStays(b) {
      var steps, b' := ShutdownReachesQuit(b);
      assert Reaches(b, steps, b');
    } else {
      var c :| 0 <= c < |b.handlers| && Stays(b.handlers[c]);
      forall steps, b' | Reaches(b, steps, b') && ByItself(steps) ensures b'.phase != Quit {
        StaysForever(b, c, steps, b');
      }
    }
  }

  // ---------------------------------------------------------------------------------------------
  // The retention loop, which nothing waits for

  /** Only its own exit ends the retention loop, and nothing starts it later. */
  lemma RetentionIsItsOwn(b: Broker, step: Step)
    requires Enabled(b, step)
    ensures Next(b, step).retaining == (b.retaining && !step.RetentionExit?)
  {
    if step.Read? {
      ReadCosts(b, step.c, step.host, step.now, step.fails);
    }
  }

  lemma {:induction false} NeverRetaining(b: Broker, steps: seq<Step>, b': Broker)
    requires !b.retaining && Reaches(b, steps, b')
    ensures !b'.retaining
    decreases |steps|
  {
    hide Next, Enabled;
    if steps != [] {
      RetentionIsItsOwn(b, steps[0]);
      NeverRetaining(Next(b, steps[0]), steps[1..], b');
    }
  }

  lemma NotConfigured(t: Tables, steps: seq<Step>, b: Broker)
    requires Reaches(Started(t, false), steps, b)
    ensures !b.retaining
  {
    NeverRetaining(Started(t, false), steps, b);
  }

  lemma StopFromTheStart(t: Tables) returns (steps: seq<Step>, b: Broker)
    requires WellFormed(t)
    ensures Reaches(Started(t, true), steps, b) && b.phase == Quit && b.retaining
  {
    var b0, stop := Started(t, true), StopNext(false);
    var b1 := Next(b0, stop);
    assert b1 == b0.(phase := Signalled) && LifeInv(b1);
    steps, b := ShutdownReachesQuit(b1);
    Then(b0, stop, steps, b);
    steps := [stop] + steps;
  }

  /**
   retentionLoop is in no WaitGroup: a shutdown can complete with the loop still alive exactly when the broker
   was started with retention.
  */
  lemma RetentionMayOutliveStopIffConfigured(t: Tables, retention: bool)
    requires WellFormed(t)
    ensures (exists steps, b :: Reaches(Started(t, retention), steps, b) && b.phase == Quit && b.retaining) <==> retention
  {
    hide Started, Next, Enabled;
    if retention {
      var steps, b := StopFromTheStart(t);
      assert Reaches(Started(t, true), steps, b);
    } else {
      forall steps, b | Reaches(Started(t, false), steps, b) ensures !b.retaining {
        NotConfigured(t, steps, b);
      }
    }
  }

  /**
   What is left running does no harm: once the store is closed no step of any run changes the tables, the
   manager or the tracker, least of all a prune that comes late.
  */
  lemma {:induction false} ClosedStoreIsFrozen(b: Broker, steps: seq<Step>, b': Broker)
    requires LifeInv(b) && StoreIsClosed(b) && Reaches(b, steps, b')
    ensures b'.desk == b.desk
    decreases |steps|
  {
    hide Next, Enabled, LifeInv;
    if steps != [] {
      FrozenStep(b, steps[0]);
      LifeStep(b, steps[0]);
      ClosedStoreIsFrozen(Next(b, steps[0]), steps[1..], b');
    }
  }

  lemma FrozenStep(b: Broker, step: Step)
    requires LifeInv(b) && StoreIsClosed(b) && Enabled(b, step)
    ensures Next(b, step).desk == b.desk && StoreIsClosed(Next(b, step))
  {
    hide ReadNext;
    if IsHandlerStep(step) || IsWriterStep(step) {
      WorkMeansOpen(b, step);
    }
  }

  /** From Start on: a RetentionTick in any reachable state with the store closed leaves the tables alone. */
  lemma LatePruneChangesNothing(
      t: Tables, retention: bool, before: seq<Step>, b: Broker, steps: seq<Step>, b': Broker)
    requires WellFormed(t) && Reaches(Started(t, retention), before, b) && StoreIsClosed(b)
    requires Reaches(b, steps, b')
    ensures b'.desk == b.desk
  {
    ReachableInv(t, retention, before, b);
    ClosedStoreIsFrozen(b, steps, b');
  }

  // ---------------------------------------------------------------------------------------------
  // Before Stop, and when Close fails

  ghost predicate Alive(b: Broker, retention: bool) {
    !DoneIsClosed(b) ==> b.accepting && b.writing && (b.retaining <==> retention)
  }

  lemma StepKeepsAlive(b: Broker, retention: bool, step: Step)
    requires Alive(b, retention) && Enabled(b, step)
    ensures Alive(Next(b, step), retention)
  {
    hide ReadNext, O.Cleanup, Behind;
    if step.Read? {
      ReadKeepsAlive(b, step.c, step.host, step.now, step.fails);
    }
  }

  lemma ReadKeepsAlive(b: Broker, c: Conn, host: string, now: int, fails: bool)
    requires At(b, c, Reading) && b.handlers[c].peer.inbox != []
    ensures var b' := ReadNext(b, c, host, now, fails);
      b'.phase == b.phase && b'.accepting == b.accepting && b'.writing == b.writing && b'.retaining == b.retaining
  {
    hide O.Start, O.End, Decimal.ParseInt, Decimal.FormatInt;
    var b1 := Consumed(b, c);
    assert b1.phase == b.phase && b1.accepting == b.accepting && b1.writing == b.writing && b1.retaining == b.retaining;
    hide Consumed;
  }

  lemma {:induction false} RunKeepsAlive(b: Broker, retention: bool, steps: seq<Step>, b': Broker)
    requires Alive(b, retention) && Reaches(b, steps, b')
    ensures Alive(b', retention)
    decreases |steps|
  {
    hide Alive, Next, Enabled;
    if steps != [] {
      StepKeepsAlive(b, retention, steps[0]);
      RunKeepsAlive(Next(b, steps[0]), retention, steps[1..], b');
    }
  }

  /** Until Stop is called, whatever accepts, reads and inserts fail, the accept loop, the writer and the retention loop live. */
  lemma AliveUntilStop(t: Tables, retention: bool, steps: seq<Step>, b: Broker)
    requires Reaches(Started(t, retention), steps, b) && b.phase == Running
    ensures b.accepting && b.writing && (b.retaining <==> retention)
  {
    RunKeepsAlive(Started(t, retention), retention, steps, b);
  }

  /**
   A running broker holds nobody up: clients can dial, whoever has dialled can be accepted, whatever has arrived can be
   read, whatever is queued received; ticks, prunes (when configured) and Stop can come at any moment.
  */
  lemma RunningHoldsNobodyUp(t: Tables, retention: bool, steps: seq<Step>, b: Broker, c: Conn)
    requires Reaches(Started(t, retention), steps, b) && b.phase == Running
    ensures forall peer :: Enabled(b, Dial(peer))
    ensures Enabled(b, Accept) <==> b.backlog != []
    ensures forall host, now, fails :: Enabled(b, Read(c, host, now, fails)) <==>
        c < |b.handlers| && b.handlers[c].pc.Reading? && b.handlers[c].peer.inbox != []
    ensures Enabled(b, Send(c)) <==> c < |b.handlers| && b.handlers[c].pc.Sending?
    ensures forall fails :: (Enabled(b, Receive(fails)) <==> b.pipe.queue != []) && Enabled(b, Tick(fails))
    ensures forall cutoff, fails :: Enabled(b, RetentionTick(cutoff, fails)) <==> retention
    ensures forall fails :: Enabled(b, StopNext(fails))
  {
    AliveUntilStop(t, retention, steps, b);
    hide Reaches, Started, Enabled;
    ClientsAndHandlersGoOn(b, c);
    LoopsGoOn(b);
  }

  lemma ClientsAndHandlersGoOn(b: Broker, c: Conn)
    requires b.phase == Running && b.accepting
    ensures forall peer :: Enabled(b, Dial(peer))
    ensures Enabled(b, Accept) <==> b.backlog != []
    ensures forall host, now, fails :: Enabled(b, Read(c, host, now, fails)) <==>
        c < |b.handlers| && b.handlers[c].pc.Reading? && b.handlers[c].peer.inbox != []
    ensures Enabled(b, Send(c)) <==> c < |b.handlers| && b.handlers[c].pc.Sending?
  {
  }

  lemma LoopsGoOn(b: Broker)
    requires b.phase == Running && b.writing
    ensures forall fails :: (Enabled(b, Receive(fails)) <==> b.pipe.queue != []) && Enabled(b, Tick(fails))
    ensures forall cutoff, fails :: Enabled(b, RetentionTick(cutoff, fails)) <==> b.retaining
    ensures forall fails :: Enabled(b, StopNext(fails))
  {
  }

  /** Stop came to closing the store, and that failed. */
  ghost predicate CloseFails(b: Broker, steps: seq<Step>)
    decreases |steps|
  {
    steps != [] && Enabled(b, steps[0]) &&
    ((steps[0].StopNext? && steps[0].fails && b.phase == WriterDone) || CloseFails(Next(b, steps[0]), steps[1..]))
  }

  lemma PhaseStep(b: Broker, step: Step)
    requires Enabled(b, step)
    ensures Next(b, step).phase == if step.StopNext? then StopPhase(b, step.fails) else b.phase
  {
    hide ReadNext, O.Cleanup, Behind, StopPhase;
    if step.Read? {
      ReadKeepsAlive(b, step.c, step.host, step.now, step.fails);
    }
  }

  lemma {:induction false} OnceFailedStaysFailed(b: Broker, steps: seq<Step>, b': Broker)
    requires b.phase == CloseFailed && Reaches(b, steps, b')
    ensures b'.phase == CloseFailed
    decreases |steps|
  {
    if steps != [] {
      PhaseStep(b, steps[0]);
      hide Next, Enabled;
      OnceFailedStaysFailed(Next(b, steps[0]), steps[1..], b');
    }
  }

  lemma {:induction false} FailedIffCloseFails(b: Broker, steps: seq<Step>, b': Broker)
    requires b.phase != CloseFailed && Reaches(b, steps, b')
    ensures b'.phase == CloseFailed <==> CloseFails(b, steps)
    decreases |steps|
  {
    if steps != [] {
      var step, b1 := steps[0], Next(b, steps[0]);
      PhaseStep(b, step);
      StopsOnlyThere(b, step);
      hide Next, Enabled, StopPhase;
      if b1.phase == CloseFailed {
        OnceFailedStaysFailed(b1, steps[1..], b');
      } else {
        FailedIffCloseFails(b1, steps[1..], b');
      }
    }
  }

  lemma StopsOnlyThere(b: Broker, step: Step)
    requires b.phase != CloseFailed
    ensures step.StopNext? ==> (StopPhase(b, step.fails) == CloseFailed <==> step.fails && b.phase == WriterDone)
  {
  }

  /** Stop returns early, for good and with quit never closed, exactly when closing the store failed. */
  lemma StopFailsIffCloseFails(t: Tables, retention: bool, steps: seq<Step>, b: Broker)
    requires Reaches(Started(t, retention), steps, b)
    ensures b.phase == CloseFailed <==> CloseFails(Started(t, retention), steps)
    ensures b.phase == Quit ==> !CloseFails(Started(t, retention), steps)
  {
    FailedIffCloseFails(Started(t, retention), steps, b);
  }
}
