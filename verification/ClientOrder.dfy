/** Order: what the client keeps of it across a reconnect, where it loses it, and when a line is left behind. */
module ClientOrder {
  import opened Seqs
  import opened LineBuffers
  import opened Clients
  import opened ClientSafety

  // ---------------------------------------------------------------------------------------------
  // Order

  function Out(ws: seq<Write>, via: Via): seq<Line> {
    if ws == [] then []
    else
      var rest := Out(ws[..|ws| - 1], via);
      if ws[|ws| - 1].via == via then rest + [ws[|ws| - 1].line] else rest
  }

  lemma {:induction false} OutIsWritten(ws: seq<Write>, via: Via)
    ensures forall x :: x in Out(ws, via) ==> x in Lines(ws)
    ensures forall i :: 0 <= i < |ws| && ws[i].via == via ==> ws[i].line in Out(ws, via)
  {
    if ws != [] {
      var n := |ws| - 1;
      OutIsWritten(ws[..n], via);
      assert Lines(ws) == Lines(ws[..n]) + [ws[n].line];
      forall i | 0 <= i < |ws| && ws[i].via == via ensures ws[i].line in Out(ws, via) {
        assert i < n ==> ws[..n][i] == ws[i];
      }
    }
  }

  /** The number the caller's next settled line will have at least: one whose push is pending is not settled. */
  function Newest(caller: Caller): int {
    if caller.pc.Failed? then caller.pc.line.n else caller.sent
  }

  predicate Settled(callers: seq<Caller>, x: Line) {
    x.caller < |callers| && x.n < Newest(callers[x.caller])
  }

  ghost predicate Before(a: seq<Line>, b: seq<Line>) {
    forall x, y :: x in a && y in b && x.caller == y.caller ==> x.n < y.n
  }

  /** The lines that went, are going and will go through the buffer. */
  ghost predicate InTurn(out: seq<Line>, flight: seq<Line>, buf: seq<Line>) {
    && Numbered(out) && Numbered(flight) && Numbered(buf)
    && Before(out, flight) && Before(out, buf) && Before(flight, buf)
  }

  ghost predicate AllSettled(callers: seq<Caller>, s: seq<Line>) {
    forall x :: x in s ==> Settled(callers, x)
  }

  ghost predicate Ordered(
      out: seq<Line>, direct: seq<Line>, flight: seq<Line>, buf: seq<Line>, callers: seq<Caller>)
  {
    && InTurn(out, flight, buf) && Numbered(direct)
    && AllSettled(callers, out) && AllSettled(callers, direct)
    && AllSettled(callers, flight) && AllSettled(callers, buf)
  }

  ghost predicate OrderInv(c: Client) {
    Ordered(Out(c.link.written, Flushed), Out(c.link.written, Direct), c.stock.flight, c.stock.buf, c.callers)
  }

  lemma SettledSnoc(callers: seq<Caller>, s: seq<Line>, x: Line)
    requires AllSettled(callers, s) && Settled(callers, x)
    ensures AllSettled(callers, s + [x])
  {
  }

  lemma SettledAfter(c: Client, t: nat, caller: Caller)
    requires OrderInv(c) && t < |c.callers| && Newest(c.callers[t]) <= Newest(caller)
    ensures OrderInv(WithCaller(c, t, caller))
  {
  }

  lemma DirectIsNewest(callers: seq<Caller>, out: seq<Line>, line: Line)
    requires Numbered(out) && AllSettled(callers, out)
    requires line.caller < |callers| && callers[line.caller].pc.Idle? && callers[line.caller].sent == line.n
    ensures Numbered(out + [line])
  {
    NumberedSnoc(out, line);
  }

  lemma OrderSent(c: Client, t: nat, line: Line)
    requires OrderInv(c) && t < |c.callers| && c.callers[t].pc.Idle?
    requires line.caller == t && line.n == c.callers[t].sent
    ensures OrderInv(Sent(c, t, line))
  {
    var w, out := Write(c.link.encoder, c.link.session, line, Direct), Out(c.link.written, Direct);
    DirectIsNewest(c.callers, out, line);
    SettledAfter(c, t, Caller(Idle, line.n + 1));
    OrderOneMoreDirect(Out(c.link.written, Flushed), out, c.stock.flight, c.stock.buf,
                       c.callers[t := Caller(Idle, line.n + 1)], line);
    hide Ordered;
  }

  lemma OrderOneMoreDirect(out: seq<Line>, direct: seq<Line>, flight: seq<Line>, buf: seq<Line>,
                           callers: seq<Caller>, line: Line)
    requires Ordered(out, direct, flight, buf, callers)
    requires Numbered(direct + [line]) && Settled(callers, line)
    ensures Ordered(out, direct + [line], flight, buf, callers)
  {
    SettledSnoc(callers, direct, line);
  }

  lemma TurnAfterPush(out: seq<Line>, flight: seq<Line>, buf: seq<Line>, line: Line)
    requires InTurn(out, flight, buf)
    requires Before(out, [line]) && Before(flight, [line]) && Before(buf, [line])
    ensures InTurn(out, flight, LastN(buf + [line], CAPACITY))
  {
    NumberedSnoc(buf, line);
    forall x | x in LastN(buf + [line], CAPACITY) ensures x in buf || x == line {}
  }

  lemma OrderPushed(c: Client, t: nat)
    requires OrderInv(c) && NumberInv(c.callers, c.stock.submitted)
    requires t < |c.callers| && c.callers[t].pc.Failed?
    ensures OrderInv(Buffered(c, t))
  {
    var k, line, caller := c.stock, c.callers[t].pc.line, c.callers[t].(pc := Pushed(c.drains));
    var out := Out(c.link.written, Flushed);
    SettledAfter(c, t, caller);
    hide InTurn, Before, Numbered;
    TurnAfterPush(out, k.flight, k.buf, line);
    SettledSnoc(c.callers[t := caller], k.buf, line);
  }

  lemma OrderFlushed(c: Client, i: nat)
    requires OrderInv(c) && i < |c.loops| && c.stock.flight != []
    ensures OrderInv(FlushedOne(c, i, true))
  {
    hide Ordered;
    var k, ws := c.stock, c.link.written;
    var w := Write(c.link.encoder, c.link.session, k.flight[0], Flushed);
    assert FlushedOne(c, i, true).link.written == ws + [w] && (ws + [w])[..|ws|] == ws;
    OrderOneMoreFlushed(Out(ws, Flushed), Out(ws, Direct), k.flight, k.buf, c.callers);
  }

  lemma OrderOneMoreFlushed(out: seq<Line>, direct: seq<Line>, flight: seq<Line>, buf: seq<Line>, callers: seq<Caller>)
    requires Ordered(out, direct, flight, buf, callers) && flight != []
    ensures Ordered(out + [flight[0]], direct, flight[1..], buf, callers)
  {
    hide InTurn, Numbered;
    TurnAfterFlush(out, flight, buf);
    SettledSnoc(callers, out, flight[0]);
  }

  lemma TurnAfterFlush(out: seq<Line>, flight: seq<Line>, buf: seq<Line>)
    requires InTurn(out, flight, buf) && flight != []
    ensures InTurn(out + [flight[0]], flight[1..], buf)
  {
    var x := flight[0];
    NumberedSnoc(out, x);
    assert Before(out + [x], buf);
    forall y, z | y in out + [x] && z in flight[1..] && y.caller == z.caller ensures y.n < z.n {
      if y !in out {
        var j :| 1 <= j < |flight| && flight[j] == z;
        assert flight[0].caller == flight[j].caller;
      }
    }
  }

  lemma OrderFlushing(c: Client, i: nat, ok: bool)
    requires OrderInv(c) && LoopInv(c) && i < |c.loops| && c.loops[i] != Dead && !IsConnecting(c.loops[i])
    ensures OrderInv(Flushing(c, i, ok))
  {
    OnlyTheLastMoves(c, i);
    if c.loops[i].InFlush? && c.stock.flight != [] && ok {
      OrderFlushed(c, i);
    }
  }

  /** A step that moves at most one caller on, and no line. */
  lemma OrderAfterMove(c: Client, t: nat, caller: Caller, c': Client)
    requires OrderInv(c) && t < |c.callers| && Newest(c.callers[t]) <= Newest(caller)
    requires c'.link.written == c.link.written && c'.callers == c.callers[t := caller]
    requires c'.stock.flight == c.stock.flight && c'.stock.buf == c.stock.buf
    ensures OrderInv(c')
  {
    SettledAfter(c, t, caller);
  }

  lemma OrderIsOfLines(c: Client, c': Client)
    requires OrderInv(c) && c'.link.written == c.link.written && c'.callers == c.callers && c'.stock == c.stock
    ensures OrderInv(c')
  {
  }

  lemma StepKeepsOrder(c: Client, step: Step)
    requires OrderInv(c) && LoopInv(c) && NumberInv(c.callers, c.stock.submitted) && Enabled(c, step)
    ensures OrderInv(Next(c, step))
  {
    hide LoopInv, OrderInv, Buffered, Connecting, Flushing;
    if IsQuiet(c, step) {
      QuietSteps(c, step);
      OrderIsOfLines(c, Next(c, step));
    } else if step.Send? {
      var line := NextLine(c, step);
      if step.ok {
        OrderSent(c, step.t, line);
      } else {
        OrderAfterMove(c, step.t, Caller(Failed(line), line.n + 1), Next(c, step));
      }
    } else if step.Push? {
      OrderPushed(c, step.t);
    } else if step.TryFlag? {
      OrderAfterMove(c, step.t, c.callers[step.t].(pc := Idle), Next(c, step));
    } else {
      OrderFlushing(c, step.i, step.ok);
    }
  }

  // ---------------------------------------------------------------------------------------------
  // Where a direct write overtakes a buffered line

  /** Among the first n writes is a later line of x's caller. */
  ghost predicate Later(ws: seq<Write>, n: nat, x: Line) {
    exists i :: 0 <= i < n && i < |ws| && ws[i].line.caller == x.caller && ws[i].line.n > x.n
  }

  /** The write at j comes after a later line of its caller. */
  ghost predicate OutOfOrder(ws: seq<Write>, j: nat) {
    j < |ws| && Later(ws, j, ws[j].line)
  }

  ghost predicate OvertakeInv(ws: seq<Write>, k: Stock) {
    && (forall x :: x in k.overtaken ==> Later(ws, |ws|, x))
    && (forall x :: x in k.flight || x in k.buf ==> (Later(ws, |ws|, x) ==> x in k.overtaken))
    && (forall j :: 0 <= j < |ws| ==> (OutOfOrder(ws, j) <==> ws[j].line in k.overtaken))
  }

  lemma LaterSnoc(ws: seq<Write>, w: Write, n: nat, x: Line)
    requires n <= |ws|
    ensures Later(ws + [w], n, x) <==> Later(ws, n, x)
    ensures Later(ws + [w], |ws| + 1, x) <==> Later(ws, |ws|, x) || (w.line.caller == x.caller && w.line.n > x.n)
  {
    if Later(ws, n, x) {
      var i :| 0 <= i < n && i < |ws| && ws[i].line.caller == x.caller && ws[i].line.n > x.n;
      assert (ws + [w])[i] == ws[i];
    }
    if Later(ws, |ws|, x) {
      var i :| 0 <= i < |ws| && ws[i].line.caller == x.caller && ws[i].line.n > x.n;
      assert (ws + [w])[i] == ws[i];
    }
    if w.line.caller == x.caller && w.line.n > x.n {
      assert (ws + [w])[|ws|] == w;
    }
  }

  lemma OutOfOrderSnoc(ws: seq<Write>, w: Write, j: nat)
    requires j <= |ws|
    ensures OutOfOrder(ws + [w], j) <==> if j < |ws| then OutOfOrder(ws, j) else Later(ws, |ws|, w.line)
  {
    LaterSnoc(ws, w, j, (ws + [w])[j].line);
  }

  /** A direct write: everything its caller still has waiting is overtaken, nothing else. */
  lemma OvertakeDirect(ws: seq<Write>, w: Write, k: Stock)
    requires OvertakeInv(ws, k) && !Later(ws, |ws|, w.line)
    requires forall x :: x in k.flight || x in k.buf ==> x !in Lines(ws)
    requires forall x :: (x in k.flight || x in k.buf) && x.caller == w.line.caller ==> x.n < w.line.n
    ensures OvertakeInv(ws + [w], Overtook(k, w.line))
  {
    var ws', k' := ws + [w], Overtook(k, w.line);
    forall x | x in k'.overtaken ensures Later(ws', |ws'|, x) {
      LaterSnoc(ws, w, 0, x);
    }
    forall x | (x in k'.flight || x in k'.buf) && Later(ws', |ws'|, x) ensures x in k'.overtaken {
      LaterSnoc(ws, w, 0, x);
    }
    forall j | 0 <= j < |ws'| ensures OutOfOrder(ws', j) <==> ws'[j].line in k'.overtaken {
      OutOfOrderSnoc(ws, w, j);
      if j < |ws| {
        assert ws[j].line == Lines(ws)[j];
      }
    }
  }

  lemma OvertakeFlushed(ws: seq<Write>, w: Write, k: Stock)
    requires OvertakeInv(ws, k) && k.flight != [] && w.line == k.flight[0]
    requires forall x :: (x in k.flight[1..] || x in k.buf) && x.caller == w.line.caller ==> w.line.n < x.n
    ensures OvertakeInv(ws + [w], OneOut(k))
  {
    var ws', k' := ws + [w], OneOut(k);
    forall x | x in k'.overtaken ensures Later(ws', |ws'|, x) {
      LaterSnoc(ws, w, 0, x);
    }
    forall x | (x in k'.flight || x in k'.buf) && Later(ws', |ws'|, x) ensures x in k'.overtaken {
      LaterSnoc(ws, w, 0, x);
    }
    forall j | 0 <= j < |ws'| ensures OutOfOrder(ws', j) <==> ws'[j].line in k'.overtaken {
      OutOfOrderSnoc(ws, w, j);
    }
  }

  lemma WrittenIsSettled(c: Client, i: nat)
    requires OrderInv(c) && i < |c.link.written|
    ensures Settled(c.callers, c.link.written[i].line)
  {
    OutIsWritten(c.link.written, Direct);
    OutIsWritten(c.link.written, Flushed);
  }

  /** No write is later than a line its caller is only now settling. */
  lemma NewestIsNotLater(c: Client, x: Line)
    requires OrderInv(c) && x.caller < |c.callers| && Newest(c.callers[x.caller]) <= x.n
    ensures !Later(c.link.written, |c.link.written|, x)
  {
    forall i | 0 <= i < |c.link.written| && c.link.written[i].line.caller == x.caller
      ensures c.link.written[i].line.n <= x.n
    {
      WrittenIsSettled(c, i);
    }
  }

  lemma WaitingIsNotWritten(c: Client, x: Line)
    requires CountInv(c) && NumberInv(c.callers, c.stock.submitted)
    requires x in c.stock.flight || x in c.stock.buf
    ensures x !in Lines(c.link.written)
  {
    NumberedOnce(c.stock.submitted, x);
    assert Balanced(c.link.written, c.callers, c.stock, x);
    assert x in c.stock.flight ==> x in multiset(c.stock.flight);
    assert x in c.stock.buf ==> x in multiset(c.stock.buf);
    assert x in Lines(c.link.written) ==> x in multiset(Lines(c.link.written));
  }

  lemma OvertakeSent(c: Client, t: nat, line: Line)
    requires Inv(c) && OrderInv(c) && OvertakeInv(c.link.written, c.stock)
    requires t < |c.callers| && c.callers[t].pc.Idle? && line.caller == t && line.n == c.callers[t].sent
    ensures OvertakeInv(Sent(c, t, line).link.written, Sent(c, t, line).stock)
  {
    hide OvertakeInv, LoopInv, LinkInv, WireInv;
    forall x | x in c.stock.flight || x in c.stock.buf ensures x !in Lines(c.link.written) {
      WaitingIsNotWritten(c, x);
    }
    NewestIsNotLater(c, line);
    OvertakeDirect(c.link.written, Write(c.link.encoder, c.link.session, line, Direct), c.stock);
  }

  lemma OvertakeFlushing(c: Client, i: nat, ok: bool)
    requires OrderInv(c) && OvertakeInv(c.link.written, c.stock) && LoopInv(c)
    requires i < |c.loops| && c.loops[i] != Dead && !IsConnecting(c.loops[i])
    ensures OvertakeInv(Flushing(c, i, ok).link.written, Flushing(c, i, ok).stock)
  {
    OnlyTheLastMoves(c, i);
    var k := c.stock;
    if c.loops[i].InFlush? && k.flight != [] && ok {
      hide OvertakeInv;
      OvertakeFlushed(c.link.written, Write(c.link.encoder, c.link.session, k.flight[0], Flushed), k);
    }
  }

  lemma OvertakePushed(c: Client, t: nat)
    requires OrderInv(c) && OvertakeInv(c.link.written, c.stock) && NumberInv(c.callers, c.stock.submitted)
    requires t < |c.callers| && c.callers[t].pc.Failed?
    ensures OvertakeInv(Buffered(c, t).link.written, Buffered(c, t).stock)
  {
    var line := c.callers[t].pc.line;
    NewestIsNotLater(c, line);
    hide OrderInv, Later;
    forall x | x in WithPush(c.stock, line).buf ensures x in c.stock.buf || x == line {}
  }

  lemma FlagLeavesLines(c: Client, t: nat)
    requires t < |c.callers| && c.callers[t].pc.Pushed?
    ensures FlagTried(c, t).link == c.link && FlagTried(c, t).stock == c.stock
  {
  }

  lemma NotSentLeavesLines(c: Client, t: nat, line: Line)
    requires t < |c.callers| && OvertakeInv(c.link.written, c.stock)
    ensures OvertakeInv(NotSent(c, t, line).link.written, NotSent(c, t, line).stock)
  {
  }

  lemma StepKeepsOvertake(c: Client, step: Step)
    requires Inv(c) && OrderInv(c) && OvertakeInv(c.link.written, c.stock) && Enabled(c, step)
    ensures OvertakeInv(Next(c, step).link.written, Next(c, step).stock)
  {
    hide OvertakeInv, OrderInv, LoopInv, LinkInv, WireInv, CountInv, NumberInv;
    hide Sent, NotSent, Buffered, FlagTried, Connecting, Flushing;
    if IsQuiet(c, step) {
      QuietSteps(c, step);
    } else if step.Send? {
      var line := NextLine(c, step);
      if step.ok { OvertakeSent(c, step.t, line); } else { NotSentLeavesLines(c, step.t, line); }
    } else if step.Push? {
      OvertakePushed(c, step.t);
    } else if step.TryFlag? {
      FlagLeavesLines(c, step.t);
    } else {
      OvertakeFlushing(c, step.i, step.ok);
    }
  }

  // ---------------------------------------------------------------------------------------------
  // Lines left behind in the buffer

  /** A caller pushed since the last drain and has yet to try the flag. */
  ghost predicate SomebodyPushed(callers: seq<Caller>, drains: nat) {
    exists t :: 0 <= t < |callers| && callers[t].pc == Pushed(drains)
  }

  /** A buffered line has someone to fetch it: a loop that will drain, or a caller about to try the flag. */
  ghost predicate StrandInv(c: Client) {
    && (c.late || SomebodyPushed(c.callers, c.drains) ==> c.stock.buf != [])
    && (forall t :: 0 <= t < |c.callers| && c.callers[t].pc.Pushed? ==> c.callers[t].pc.drains <= c.drains)
    && (c.stock.buf != [] ==>
          || c.cancelled || c.late
          || (Live(c) != Dead && !PastDrain(Live(c)))
          || SomebodyPushed(c.callers, c.drains))
  }

  lemma StrandAfterMove(callers: seq<Caller>, t: nat, caller: Caller, drains: nat)
    requires t < |callers| && callers[t].pc != Pushed(drains) && caller.pc != Pushed(drains)
    ensures SomebodyPushed(callers[t := caller], drains) <==> SomebodyPushed(callers, drains)
  {
    if SomebodyPushed(callers, drains) {
      var p :| 0 <= p < |callers| && callers[p].pc == Pushed(drains);
      assert callers[t := caller][p].pc == Pushed(drains);
    }
    if SomebodyPushed(callers[t := caller], drains) {
      var p :| 0 <= p < |callers| && callers[t := caller][p].pc == Pushed(drains);
      assert callers[p].pc == Pushed(drains);
    }
  }

  lemma StrandPushed(c: Client, t: nat)
    requires StrandInv(c) && t < |c.callers| && c.callers[t].pc.Failed?
    ensures StrandInv(Buffered(c, t))
  {
    assert Buffered(c, t).callers[t].pc == Pushed(c.drains);
  }

  lemma StrandFlag(c: Client, t: nat)
    requires LoopInv(c) && StrandInv(c) && t < |c.callers| && c.callers[t].pc.Pushed?
    ensures StrandInv(FlagTried(c, t))
  {
    if c.callers[t].pc.drains == c.drains {
      assert SomebodyPushed(c.callers, c.drains);
    } else {
      StrandAfterMove(c.callers, t, c.callers[t].(pc := Idle), c.drains);
    }
  }

  lemma StrandConnecting(c: Client, i: nat, ok: bool, reply: string)
    requires LoopInv(c) && StrandInv(c) && i < |c.loops| && IsConnecting(c.loops[i])
    ensures StrandInv(Connecting(c, i, ok, reply))
  {
    OnlyTheLastMoves(c, i);
    LiveAt(c, i, Live(Connecting(c, i, ok, reply)));
    ConnectingIsQuiet(c, i, ok, reply);
  }

  lemma StrandFlushing(c: Client, i: nat, ok: bool)
    requires LoopInv(c) && StrandInv(c) && i < |c.loops| && c.loops[i] != Dead && !IsConnecting(c.loops[i])
    ensures StrandInv(Flushing(c, i, ok))
  {
    OnlyTheLastMoves(c, i);
    LiveAt(c, i, Live(Flushing(c, i, ok)));
    FlushingLeavesCallers(c, i, ok);
  }

  lemma StrandSend(c: Client, step: Step)
    requires StrandInv(c) && step.Send? && Enabled(c, step)
    ensures StrandInv(Next(c, step))
  {
    StrandAfterMove(c.callers, step.t, Next(c, step).callers[step.t], c.drains);
  }

  lemma StepKeepsStrand(c: Client, step: Step)
    requires LoopInv(c) && StrandInv(c) && Enabled(c, step)
    ensures StrandInv(Next(c, step))
  {
    hide LoopInv, Buffered, FlagTried, Connecting, Flushing;
    if step.Send? {
      StrandSend(c, step);
    } else if step.Push? {
      StrandPushed(c, step.t);
    } else if step.TryFlag? {
      StrandFlag(c, step.t);
    } else if step.Advance? {
      if IsConnecting(c.loops[step.i]) {
        StrandConnecting(c, step.i, step.ok, step.reply);
      } else {
        StrandFlushing(c, step.i, step.ok);
      }
    }
  }

  // ---------------------------------------------------------------------------------------------
  // Over whole runs

  ghost predicate FullInv(c: Client) {
    Inv(c) && OrderInv(c) && OvertakeInv(c.link.written, c.stock) && StrandInv(c)
  }

  lemma {:induction false} RunKeepsFullInv(c: Client, steps: seq<Step>, c': Client)
    requires FullInv(c) && Reaches(c, steps, c')
    ensures FullInv(c')
    decreases |steps|
  {
    hide LoopInv, LinkInv, WireInv, CountInv, NumberInv, OrderInv, OvertakeInv, StrandInv, Next, Enabled;
    if steps != [] {
      StepKeepsInv(c, steps[0]);
      StepKeepsOrder(c, steps[0]);
      StepKeepsOvertake(c, steps[0]);
      StepKeepsStrand(c, steps[0]);
      RunKeepsFullInv(Next(c, steps[0]), steps[1..], c');
    }
  }

  lemma ReachableFullInv(callers: nat, registers: bool, session: string, steps: seq<Step>, c: Client)
    requires Reaches(Started(callers, registers, session), steps, c)
    ensures FullInv(c)
  {
    StartedInv(callers, registers, session);
    RunKeepsFullInv(Started(callers, registers, session), steps, c);
  }

  /** Per caller, direct writes come out in order, and so do flushed ones. */
  lemma EachPathKeepsOrder(callers: nat, registers: bool, session: string, steps: seq<Step>, c: Client)
    requires Reaches(Started(callers, registers, session), steps, c)
    ensures Numbered(Out(c.link.written, Direct)) && Numbered(Out(c.link.written, Flushed))
  {
    ReachableFullInv(callers, registers, session, steps, c);
  }

  /**
   The two together do not. A write is out of its caller's order exactly when its line was still in the
   buffer, or drained and unsent, while a later SendLog of the same caller wrote straight to the new connection.
  */
  lemma OutOfOrderExactlyWhenOvertaken(
      callers: nat, registers: bool, session: string, steps: seq<Step>, c: Client, j: nat)
    requires Reaches(Started(callers, registers, session), steps, c) && j < |c.link.written|
    ensures OutOfOrder(c.link.written, j) <==> c.link.written[j].line in c.stock.overtaken
  {
    ReachableFullInv(callers, registers, session, steps, c);
  }

  /** So the wire keeps every caller's order exactly when no line on it was overtaken. */
  lemma OrderExactlyWhenNothingOvertaken(
      callers: nat, registers: bool, session: string, steps: seq<Step>, c: Client)
    requires Reaches(Started(callers, registers, session), steps, c)
    ensures Numbered(Lines(c.link.written)) <==>
        forall j :: 0 <= j < |c.link.written| ==> c.link.written[j].line !in c.stock.overtaken
  {
    ReachableFullInv(callers, registers, session, steps, c);
    var ws := c.link.written;
    hide FullInv, OrderInv, StrandInv;
    if Numbered(Lines(ws)) {
      forall j | 0 <= j < |ws| ensures !OutOfOrder(ws, j) {
        assert Lines(ws)[j] == ws[j].line;
        forall i | 0 <= i < j ensures ws[i].line.caller == ws[j].line.caller ==> ws[i].line.n < ws[j].line.n {
          assert Lines(ws)[i] == ws[i].line;
        }
      }
    } else if forall j :: 0 <= j < |ws| ==> ws[j].line !in c.stock.overtaken {
      forall i, j | 0 <= i < j < |ws| && ws[i].line.caller == ws[j].line.caller ensures ws[i].line.n < ws[j].line.n {
        assert !OutOfOrder(ws, j);
        TwoWritesTwoLines(c, i, j);
      }
    }
  }

  lemma {:induction false} TwiceIsTwo(s: seq<Line>, i: nat, j: nat)
    requires i < j < |s| && s[i] == s[j]
    ensures Count(s, s[i]) >= 2
  {
    var a, b := s[..j], s[j..];
    assert s == a + b && a[i] == s[i] && b[0] == s[j];
    CountConcat(a, b, s[i]);
  }

  lemma TwoWritesTwoLines(c: Client, i: nat, j: nat)
    requires Inv(c) && i < j < |c.link.written|
    ensures var x, y := c.link.written[i].line, c.link.written[j].line; x.caller == y.caller ==> x.n != y.n
  {
    var x, y := c.link.written[i].line, c.link.written[j].line;
    WrittenWasSubmitted(c, i);
    WrittenWasSubmitted(c, j);
    if x.caller == y.caller && x.n == y.n {
      TwiceIsTwo(Lines(c.link.written), i, j);
      WrittenAtMostOnce(c, x);
      assert false;
    }
  }

  lemma WrittenAtMostOnce(c: Client, x: Line)
    requires Inv(c)
    ensures Count(Lines(c.link.written), x) <= 1
  {
    NumberedOnce(c.stock.submitted, x);
    assert Balanced(c.link.written, c.callers, c.stock, x);
  }

  lemma WrittenWasSubmitted(c: Client, i: nat)
    requires Inv(c) && i < |c.link.written|
    ensures c.link.written[i].line in c.stock.submitted
  {
    var x := c.link.written[i].line;
    assert Lines(c.link.written)[i] == x;
    NumberedOnce(c.stock.submitted, x);
    assert Balanced(c.link.written, c.callers, c.stock, x);
  }

  predicate AllIdle(c: Client) {
    !c.reconnecting && forall t :: 0 <= t < |c.callers| ==> c.callers[t].pc.Idle?
  }

  /**
   With nobody sending or reconnecting and the context not cancelled, lines are left in the buffer exactly
   when some caller pushed after the last drain and then found the flag of that drain's loop still set.
  */
  lemma LeftBehindExactlyWhenLate(callers: nat, registers: bool, session: string, steps: seq<Step>, c: Client)
    requires Reaches(Started(callers, registers, session), steps, c)
    requires AllIdle(c) && !c.cancelled
    ensures c.stock.buf != [] <==> c.late
  {
    ReachableFullInv(callers, registers, session, steps, c);
  }

  /** Such lines wait for the next SendLog that fails; nothing else moves them. */
  lemma {:induction false} LeftUntilTheNextFailure(c: Client, steps: seq<Step>, c': Client)
    requires AllIdle(c) && LoopInv(c) && Reaches(c, steps, c')
    requires forall i :: 0 <= i < |steps| && steps[i].Send? ==> steps[i].ok
    ensures c'.stock.buf == c.stock.buf
    decreases |steps|
  {
    hide Next, Enabled;
    if steps != [] {
      StepKeepsLoop(c, steps[0]);
      StaysIdle(c, steps[0]);
      LeftUntilTheNextFailure(Next(c, steps[0]), steps[1..], c');
    }
  }

  lemma StaysIdle(c: Client, step: Step)
    requires AllIdle(c) && LoopInv(c) && Enabled(c, step) && (step.Send? ==> step.ok)
    ensures AllIdle(Next(c, step)) && Next(c, step).stock.buf == c.stock.buf
  {
    if step.Advance? {
      OnlyTheLastMoves(c, step.i);
      assert false;
    }
  }
}
