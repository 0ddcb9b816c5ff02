/** What every run of the client machine keeps: one reconnect loop, one session per connection, every line accounted for. */
module ClientSafety {
  import opened Seqs
  import opened LineBuffers
  import opened Clients

  // ---------------------------------------------------------------------------------------------
  // One loop at a time

  ghost predicate LoopInv(c: Client) {
    && (forall i :: 0 <= i < |c.loops| - 1 ==> c.loops[i] == Dead)
    && (c.reconnecting <==> Live(c) != Dead)
    && (c.locked <==> Live(c).InFlush?)
    && (c.stock.flight != [] ==> Live(c).Locking? || Live(c).InFlush?)
  }

  lemma OnlyTheLastMoves(c: Client, i: nat)
    requires LoopInv(c) && i < |c.loops| && c.loops[i] != Dead
    ensures i == |c.loops| - 1 && c.loops[i] == Live(c)
  {
  }

  lemma LiveAt(c: Client, i: nat, pc: LoopPc)
    requires LoopInv(c) && i == |c.loops| - 1
    ensures Live(At(c, i, pc)) == pc
    ensures forall j :: 0 <= j < |At(c, i, pc).loops| - 1 ==> At(c, i, pc).loops[j] == Dead
  {
  }

  lemma ConnectingKeepsLoop(c: Client, i: nat, ok: bool, reply: string)
    requires LoopInv(c) && i < |c.loops| && IsConnecting(c.loops[i])
    ensures LoopInv(Connecting(c, i, ok, reply))
  {
    OnlyTheLastMoves(c, i);
    LiveAt(c, i, Live(Connecting(c, i, ok, reply)));
  }

  lemma FlushingKeepsLoop(c: Client, i: nat, ok: bool)
    requires LoopInv(c) && i < |c.loops| && c.loops[i] != Dead && !IsConnecting(c.loops[i])
    ensures LoopInv(Flushing(c, i, ok))
  {
    OnlyTheLastMoves(c, i);
    LiveAt(c, i, Live(Flushing(c, i, ok)));
  }

  lemma FlagKeepsLoop(c: Client, t: nat)
    requires LoopInv(c) && t < |c.callers| && c.callers[t].pc.Pushed?
    ensures LoopInv(FlagTried(c, t))
  {
  }

  lemma StepKeepsLoop(c: Client, step: Step)
    requires LoopInv(c) && Enabled(c, step)
    ensures LoopInv(Next(c, step))
  {
    if step.Advance? {
      if IsConnecting(c.loops[step.i]) {
        ConnectingKeepsLoop(c, step.i, step.ok, step.reply);
      } else {
        FlushingKeepsLoop(c, step.i, step.ok);
      }
    } else if step.TryFlag? {
      FlagKeepsLoop(c, step.t);
    }
  }

  // ---------------------------------------------------------------------------------------------
  // Connections and the sessions minted on them

  /** A message on connection k carries the session ID the broker replied with on k, on the first one even if none. */
  predicate Bound(registers: bool, minted: map<Conn, string>, k: Conn, s: string) {
    && (registers ==> k in minted)
    && (k in minted && (minted[k] != "" || k == 0) ==> s == minted[k])
  }

  ghost predicate Links(l: Link, registers: bool, conns: nat, minted: map<Conn, string>, live: LoopPc) {
    && l.encoder < conns
    && (if l.conn.Some? then l.conn.value == l.encoder else l.encoder in l.closed)
    && (forall k :: k in l.closed ==> k < conns)
    && (forall k :: k in minted ==> registers && k < conns)
    && (live.Registering? ==> registers && l.encoder < live.conn < conns && live.conn !in minted)
    && (live.Swapping? ==>
          && l.encoder < live.to < conns
          && if registers then live.to in minted && minted[live.to] == live.reply else live.reply == "")
  }

  ghost predicate LinkInv(c: Client) {
    Links(c.link, c.registers, c.conns, c.minted, Live(c))
  }

  /** What went out on each connection, and that connections took turns in the order they were dialled. */
  ghost predicate WireInv(registers: bool, minted: map<Conn, string>, l: Link) {
    && Bound(registers, minted, l.encoder, l.session)
    && (forall i :: 0 <= i < |l.written| ==>
          l.written[i].conn <= l.encoder && Bound(registers, minted, l.written[i].conn, l.written[i].session))
    && (forall i :: 0 <= i < |l.ended| ==>
          l.ended[i].conn <= l.encoder && Bound(registers, minted, l.ended[i].conn, l.ended[i].session))
    && (forall i, j :: 0 <= i < j < |l.written| ==> l.written[i].conn <= l.written[j].conn)
  }

  lemma ConnectingKeepsLink(c: Client, i: nat, ok: bool, reply: string)
    requires LoopInv(c) && LinkInv(c) && i < |c.loops| && IsConnecting(c.loops[i])
    ensures LinkInv(Connecting(c, i, ok, reply))
  {
    OnlyTheLastMoves(c, i);
    LiveAt(c, i, Live(Connecting(c, i, ok, reply)));
  }

  lemma FlushingKeepsLink(c: Client, i: nat, ok: bool)
    requires LoopInv(c) && LinkInv(c) && i < |c.loops| && c.loops[i] != Dead && !IsConnecting(c.loops[i])
    ensures LinkInv(Flushing(c, i, ok))
  {
    OnlyTheLastMoves(c, i);
    LiveAt(c, i, Live(Flushing(c, i, ok)));
  }

  lemma FlagKeepsLink(c: Client, t: nat)
    requires LoopInv(c) && LinkInv(c) && t < |c.callers| && c.callers[t].pc.Pushed?
    ensures LinkInv(FlagTried(c, t))
  {
    assert Live(c).Dead? ==> Live(FlagTried(c, t)).Head?;
  }

  lemma OthersKeepLink(c: Client, step: Step)
    requires LinkInv(c) && Enabled(c, step) && !step.Advance? && !step.TryFlag?
    ensures LinkInv(Next(c, step))
  {
    assert Live(Next(c, step)) == Live(c);
  }

  lemma StepKeepsLink(c: Client, step: Step)
    requires LoopInv(c) && LinkInv(c) && Enabled(c, step)
    ensures LinkInv(Next(c, step))
  {
    hide LinkInv, LoopInv;
    if step.TryFlag? {
      FlagKeepsLink(c, step.t);
    } else if !step.Advance? {
      OthersKeepLink(c, step);
    } else if IsConnecting(c.loops[step.i]) {
      ConnectingKeepsLink(c, step.i, step.ok, step.reply);
    } else {
      FlushingKeepsLink(c, step.i, step.ok);
    }
  }

  lemma EncodeKeepsWire(registers: bool, minted: map<Conn, string>, l: Link, line: Line, via: Via)
    requires WireInv(registers, minted, l)
    ensures WireInv(registers, minted, Encoded(l, line, via))
  {
  }

  lemma SwapKeepsWire(registers: bool, minted: map<Conn, string>, l: Link, k: Conn, reply: string)
    requires WireInv(registers, minted, l) && l.encoder < k
    requires if registers then k in minted && minted[k] == reply else k !in minted && reply == ""
    ensures WireInv(registers, minted, Swapped(l, k, reply))
  {
  }

  lemma MintKeepsWire(registers: bool, minted: map<Conn, string>, l: Link, k: Conn, reply: string)
    requires WireInv(registers, minted, l) && l.encoder < k
    ensures WireInv(registers, minted[k := reply], l)
  {
  }

  lemma EndKeepsWire(registers: bool, minted: map<Conn, string>, l: Link, ts: int)
    requires WireInv(registers, minted, l)
    ensures WireInv(registers, minted, EndEncoded(l, ts))
  {
  }

  lemma ClosingKeepsWire(registers: bool, minted: map<Conn, string>, l: Link, l': Link)
    requires WireInv(registers, minted, l) && l' == l.(conn := l'.conn, closed := l'.closed)
    ensures WireInv(registers, minted, l')
  {
  }

  lemma ConnectingKeepsWire(c: Client, i: nat, ok: bool, reply: string)
    requires LoopInv(c) && LinkInv(c) && WireInv(c.registers, c.minted, c.link) && i < |c.loops| && IsConnecting(c.loops[i])
    ensures var c' := Connecting(c, i, ok, reply); WireInv(c'.registers, c'.minted, c'.link)
  {
    hide WireInv;
    OnlyTheLastMoves(c, i);
    var pc := c.loops[i];
    if pc.Registering? && ok {
      MintKeepsWire(c.registers, c.minted, c.link, pc.conn, reply);
    } else if pc.Swapping? {
      SwapKeepsWire(c.registers, c.minted, c.link, pc.to, pc.reply);
    } else {
      ClosingKeepsWire(c.registers, c.minted, c.link, Connecting(c, i, ok, reply).link);
    }
  }

  lemma StepKeepsWire(c: Client, step: Step)
    requires LoopInv(c) && LinkInv(c) && WireInv(c.registers, c.minted, c.link) && Enabled(c, step)
    ensures var c' := Next(c, step); WireInv(c'.registers, c'.minted, c'.link)
  {
    hide WireInv, LoopInv, LinkInv, Connecting, Flushing;
    if step.Push? || step.TryFlag? || step.Cancel? || (step.Send? && !step.ok) {
      return;
    }
    if step.Send? {
      EncodeKeepsWire(c.registers, c.minted, c.link, NextLine(c, step), Direct);
    } else if step.End? {
      EndKeepsWire(c.registers, c.minted, c.link, step.timestamp);
    } else if step.Close? {
      ClosingKeepsWire(c.registers, c.minted, c.link, Shut(c.link));
    } else if step.Advance? {
      if IsConnecting(c.loops[step.i]) {
        ConnectingKeepsWire(c, step.i, step.ok, step.reply);
      } else {
        FlushingKeepsWire(c, step.i, step.ok);
      }
    }
  }

  lemma FlushingKeepsWire(c: Client, i: nat, ok: bool)
    requires WireInv(c.registers, c.minted, c.link) && i < |c.loops| && c.loops[i] != Dead && !IsConnecting(c.loops[i])
    ensures var c' := Flushing(c, i, ok); WireInv(c'.registers, c'.minted, c'.link)
  {
    hide WireInv;
    if c.loops[i].InFlush? && c.stock.flight != [] {
      EncodeKeepsWire(c.registers, c.minted, c.link, c.stock.flight[0], Flushed);
    }
  }

  // ---------------------------------------------------------------------------------------------
  // Every line is somewhere

  function Lines(ws: seq<Write>): seq<Line> {
    seq(|ws|, i requires 0 <= i < |ws| => ws[i].line)
  }

  function Count(s: seq<Line>, x: Line): nat {
    multiset(s)[x]
  }

  lemma CountConcat(a: seq<Line>, b: seq<Line>, x: Line)
    ensures Count(a + b, x) == Count(a, x) + Count(b, x)
  {
  }

  lemma CountWritten(ws: seq<Write>, w: Write, x: Line)
    ensures Count(Lines(ws + [w]), x) == Count(Lines(ws), x) + if x == w.line then 1 else 0
  {
    assert Lines(ws + [w]) == Lines(ws) + [w.line];
  }

  function Holds(caller: Caller, x: Line): nat {
    if caller.pc.Failed? && caller.pc.line == x then 1 else 0
  }

  /** How often x is a line whose Encode failed and whose push is still to come. */
  function Pending(callers: seq<Caller>, x: Line): nat {
    if callers == [] then 0
    else Pending(callers[..|callers| - 1], x) + Holds(callers[|callers| - 1], x)
  }

  lemma {:induction false} PendingUpdate(callers: seq<Caller>, t: nat, caller: Caller, x: Line)
    requires t < |callers|
    ensures Pending(callers[t := caller], x) + Holds(callers[t], x) == Pending(callers, x) + Holds(caller, x)
  {
    var n := |callers| - 1;
    if t < n {
      assert callers[t := caller][..n] == callers[..n][t := caller];
      PendingUpdate(callers[..n], t, caller, x);
    } else {
      assert callers[t := caller][..n] == callers[..n];
    }
  }

  predicate Balanced(ws: seq<Write>, callers: seq<Caller>, k: Stock, x: Line) {
    Count(k.submitted, x) ==
      Count(Lines(ws), x) + Pending(callers, x) + Count(k.buf, x) + Count(k.flight, x)
      + Count(k.overwritten, x) + Count(k.dropped, x)
  }

  /** Every line ever submitted is accounted for, as often as it was submitted. */
  ghost predicate CountInv(c: Client) {
    forall x :: Balanced(c.link.written, c.callers, c.stock, x)
  }

  lemma CountSent(c: Client, t: nat, line: Line, x: Line)
    requires CountInv(c) && t < |c.callers| && c.callers[t].pc.Idle?
    ensures var c' := Sent(c, t, line); Balanced(c'.link.written, c'.callers, c'.stock, x)
  {
    assert Balanced(c.link.written, c.callers, c.stock, x);
    PendingUpdate(c.callers, t, Caller(Idle, c.callers[t].sent + 1), x);
    CountWritten(c.link.written, Write(c.link.encoder, c.link.session, line, Direct), x);
  }

  lemma CountNotSent(c: Client, t: nat, line: Line, x: Line)
    requires CountInv(c) && t < |c.callers| && c.callers[t].pc.Idle?
    ensures var c' := NotSent(c, t, line); Balanced(c'.link.written, c'.callers, c'.stock, x)
  {
    assert Balanced(c.link.written, c.callers, c.stock, x);
    PendingUpdate(c.callers, t, Caller(Failed(line), c.callers[t].sent + 1), x);
  }

  /** The buffer keeps everything of buf and line but the one line it overwrites. */
  lemma PushSqueezes(buf: seq<Line>, line: Line)
    requires |buf| <= CAPACITY
    ensures SqueezedOut(buf) + LastN(buf + [line], CAPACITY) == buf + [line]
  {
  }

  lemma CountPushed(c: Client, t: nat, x: Line)
    requires CountInv(c) && |c.stock.buf| <= CAPACITY && t < |c.callers| && c.callers[t].pc.Failed?
    ensures var c' := Buffered(c, t); Balanced(c'.link.written, c'.callers, c'.stock, x)
  {
    var k, line := c.stock, c.callers[t].pc.line;
    assert Balanced(c.link.written, c.callers, k, x);
    PendingUpdate(c.callers, t, c.callers[t].(pc := Pushed(c.drains)), x);
    PushSqueezes(k.buf, line);
    CountConcat(SqueezedOut(k.buf), LastN(k.buf + [line], CAPACITY), x);
    CountConcat(k.overwritten, SqueezedOut(k.buf), x);
  }

  lemma CountFlag(c: Client, t: nat, x: Line)
    requires CountInv(c) && t < |c.callers| && c.callers[t].pc.Pushed?
    ensures var c' := FlagTried(c, t); Balanced(c'.link.written, c'.callers, c'.stock, x)
  {
    assert Balanced(c.link.written, c.callers, c.stock, x);
    PendingUpdate(c.callers, t, c.callers[t].(pc := Idle), x);
  }

  lemma CountFlushing(c: Client, i: nat, ok: bool, x: Line)
    requires LoopInv(c) && CountInv(c) && i < |c.loops| && c.loops[i] != Dead && !IsConnecting(c.loops[i])
    ensures var c' := Flushing(c, i, ok); Balanced(c'.link.written, c'.callers, c'.stock, x)
  {
    var k := c.stock;
    assert Balanced(c.link.written, c.callers, k, x);
    OnlyTheLastMoves(c, i);
    if c.loops[i].Draining? {
      assert k.flight == [];
    } else if c.loops[i].InFlush? && k.flight != [] {
      if ok {
        CountWritten(c.link.written, Write(c.link.encoder, c.link.session, k.flight[0], Flushed), x);
        assert k.flight == [k.flight[0]] + k.flight[1..];
        CountConcat([k.flight[0]], k.flight[1..], x);
      } else {
        CountConcat(k.dropped, k.flight, x);
      }
    }
  }

  /** Steps that touch no line. */
  predicate IsQuiet(c: Client, step: Step) {
    step.End? || step.Close? || step.Cancel? || (step.Advance? && step.i < |c.loops| && IsConnecting(c.loops[step.i]))
  }

  lemma ConnectingIsQuiet(c: Client, i: nat, ok: bool, reply: string)
    requires i < |c.loops| && IsConnecting(c.loops[i])
    ensures var c' := Connecting(c, i, ok, reply);
      c'.link.written == c.link.written && c'.link.ended == c.link.ended && c'.callers == c.callers && c'.stock == c.stock
      && c'.registers == c.registers
  {
    var pc := c.loops[i];
    if pc.Closing? {
      assert Connecting(c, i, ok, reply).link == Dropped(c.link);
    } else if pc.Registering? {
      assert Connecting(c, i, ok, reply) == Registered(c, i, ok, reply);
    } else if pc.Dialing? {
      assert Connecting(c, i, ok, reply) == Dialled(c, i, ok);
    } else if pc.Swapping? {
      assert Connecting(c, i, ok, reply).link == Swapped(c.link, pc.to, pc.reply);
    }
  }

  lemma QuietSteps(c: Client, step: Step)
    requires Enabled(c, step) && IsQuiet(c, step)
    ensures var c' := Next(c, step);
      && c'.link.written == c.link.written && c'.callers == c.callers && c'.stock == c.stock
      && c'.registers == c.registers
  {
    hide Connecting;
    if step.Advance? {
      ConnectingIsQuiet(c, step.i, step.ok, step.reply);
    }
  }

  lemma StepKeepsBalance(c: Client, step: Step, x: Line)
    requires LoopInv(c) && CountInv(c) && |c.stock.buf| <= CAPACITY && Enabled(c, step)
    ensures var c' := Next(c, step); Balanced(c'.link.written, c'.callers, c'.stock, x)
  {
    assert Balanced(c.link.written, c.callers, c.stock, x);
    hide Balanced, CountInv, LoopInv, Sent, NotSent, Buffered, FlagTried, Connecting, Flushing;
    if IsQuiet(c, step) {
      QuietSteps(c, step);
    } else if step.Send? {
      if step.ok { CountSent(c, step.t, NextLine(c, step), x); } else { CountNotSent(c, step.t, NextLine(c, step), x); }
    } else if step.Push? {
      CountPushed(c, step.t, x);
    } else if step.TryFlag? {
      CountFlag(c, step.t, x);
    } else {
      CountFlushing(c, step.i, step.ok, x);
    }
  }

  lemma BufferIsBounded(c: Client, step: Step)
    requires LoopInv(c) && |c.stock.buf| <= CAPACITY && Enabled(c, step)
    ensures |Next(c, step).stock.buf| <= CAPACITY
  {
    hide Connecting, LoopInv;
    if IsQuiet(c, step) {
      QuietSteps(c, step);
    }
  }

  lemma StepKeepsCount(c: Client, step: Step)
    requires LoopInv(c) && CountInv(c) && |c.stock.buf| <= CAPACITY && Enabled(c, step)
    ensures CountInv(Next(c, step))
  {
    hide Balanced, LoopInv, Next, Enabled;
    forall x ensures var c' := Next(c, step); Balanced(c'.link.written, c'.callers, c'.stock, x) {
      StepKeepsBalance(c, step, x);
    }
  }

  // ---------------------------------------------------------------------------------------------
  // Lines are numbered by their callers, so no two are the same

  /** Each caller's lines come in the order it handed them over. */
  ghost predicate Numbered(s: seq<Line>) {
    forall i, j :: 0 <= i < j < |s| && s[i].caller == s[j].caller ==> s[i].n < s[j].n
  }

  /** Callers number their own lines. */
  ghost predicate NumberInv(callers: seq<Caller>, submitted: seq<Line>) {
    && (forall t :: 0 <= t < |callers| && callers[t].pc.Failed? ==>
          callers[t].pc.line.caller == t && callers[t].pc.line.n == callers[t].sent - 1)
    && (forall x :: x in submitted ==> x.caller < |callers| && x.n < callers[x.caller].sent)
    && Numbered(submitted)
  }

  lemma NumberedSnoc(s: seq<Line>, x: Line)
    requires Numbered(s) && forall y :: y in s && y.caller == x.caller ==> y.n < x.n
    ensures Numbered(s + [x])
  {
  }

  lemma FlushingLeavesCallers(c: Client, i: nat, ok: bool)
    requires i < |c.loops| && c.loops[i] != Dead && !IsConnecting(c.loops[i])
    ensures var c' := Flushing(c, i, ok);
      c'.callers == c.callers && c'.stock.submitted == c.stock.submitted && c'.registers == c.registers
  {
    var pc := c.loops[i];
    if pc.Draining? {
      assert Flushing(c, i, ok).stock == WithDrain(c.stock);
    } else if pc.InFlush? {
      assert Flushing(c, i, ok) == FlushedOne(c, i, ok);
      if c.stock.flight != [] {
        assert FlushedOne(c, i, ok).stock == if ok then OneOut(c.stock) else GivenUp(c.stock);
      }
    }
  }

  lemma NumbersAfterMove(callers: seq<Caller>, submitted: seq<Line>, t: nat, pc: CallerPc)
    requires NumberInv(callers, submitted) && t < |callers| && !pc.Failed?
    ensures NumberInv(callers[t := callers[t].(pc := pc)], submitted)
  {
  }

  lemma StepKeepsNumbers(c: Client, step: Step)
    requires NumberInv(c.callers, c.stock.submitted) && Enabled(c, step)
    ensures var c' := Next(c, step); NumberInv(c'.callers, c'.stock.submitted) && c'.registers == c.registers
  {
    hide Connecting, Flushing, NumberInv;
    if IsQuiet(c, step) {
      QuietSteps(c, step);
    } else if step.Advance? {
      FlushingLeavesCallers(c, step.i, step.ok);
    } else if step.Push? {
      NumbersAfterMove(c.callers, c.stock.submitted, step.t, Pushed(c.drains));
    } else if step.TryFlag? {
      NumbersAfterMove(c.callers, c.stock.submitted, step.t, Idle);
    } else {
      var line := NextLine(c, step);
      NumbersAfterSend(c.callers, c.stock.submitted, step.t, line,
                       Caller(if step.ok then Idle else Failed(line), line.n + 1));
    }
  }

  lemma NumbersAfterSend(callers: seq<Caller>, submitted: seq<Line>, t: nat, line: Line, caller: Caller)
    requires NumberInv(callers, submitted) && t < |callers|
    requires line.caller == t && line.n == callers[t].sent
    requires caller == Caller(Idle, line.n + 1) || caller == Caller(Failed(line), line.n + 1)
    ensures NumberInv(callers[t := caller], submitted + [line])
  {
    NumberedSnoc(submitted, line);
    forall x | x in submitted + [line]
      ensures x.caller < |callers| && x.n < callers[t := caller][x.caller].sent
    {
      assert x in submitted || x == line;
    }
  }

  lemma {:induction false} NumberedOnce(s: seq<Line>, x: Line)
    requires Numbered(s)
    ensures Count(s, x) == if x in s then 1 else 0
  {
    if s != [] {
      var rest, last := s[..|s| - 1], s[|s| - 1];
      assert s == rest + [last];
      NumberedOnce(rest, x);
    }
  }

  // ---------------------------------------------------------------------------------------------
  // All of it, over whole runs

  ghost predicate Inv(c: Client) {
    && LoopInv(c) && LinkInv(c) && WireInv(c.registers, c.minted, c.link)
    && |c.stock.buf| <= CAPACITY && CountInv(c) && NumberInv(c.callers, c.stock.submitted)
  }

  lemma StepKeepsInv(c: Client, step: Step)
    requires Inv(c) && Enabled(c, step)
    ensures Inv(Next(c, step)) && Next(c, step).registers == c.registers
  {
    hide LoopInv, LinkInv, WireInv, CountInv, NumberInv, Next, Enabled;
    StepKeepsLoop(c, step);
    StepKeepsLink(c, step);
    StepKeepsWire(c, step);
    BufferIsBounded(c, step);
    StepKeepsCount(c, step);
    StepKeepsNumbers(c, step);
  }

  lemma {:induction false} RunKeepsInv(c: Client, steps: seq<Step>, c': Client)
    requires Inv(c) && Reaches(c, steps, c')
    ensures Inv(c') && c'.registers == c.registers
    decreases |steps|
  {
    hide Inv, Next, Enabled;
    if steps != [] {
      StepKeepsInv(c, steps[0]);
      RunKeepsInv(Next(c, steps[0]), steps[1..], c');
    }
  }

  lemma {:induction false} NobodyPending(callers: seq<Caller>, x: Line)
    requires forall t :: 0 <= t < |callers| ==> callers[t].pc.Idle?
    ensures Pending(callers, x) == 0
  {
    if callers != [] {
      NobodyPending(callers[..|callers| - 1], x);
    }
  }

  lemma StartedInv(callers: nat, registers: bool, session: string)
    ensures Inv(Started(callers, registers, session))
  {
    var c := Started(callers, registers, session);
    forall x ensures Balanced(c.link.written, c.callers, c.stock, x) {
      NobodyPending(c.callers, x);
    }
  }

  lemma ReachableInv(callers: nat, registers: bool, session: string, steps: seq<Step>, c: Client)
    requires Reaches(Started(callers, registers, session), steps, c)
    ensures Inv(c) && c.registers == registers
  {
    StartedInv(callers, registers, session);
    RunKeepsInv(Started(callers, registers, session), steps, c);
  }

  /** The flag is set exactly while one reconnectLoop runs, and never two, so swaps cannot overlap. */
  lemma OneReconnectLoop(callers: nat, registers: bool, session: string, steps: seq<Step>, c: Client)
    requires Reaches(Started(callers, registers, session), steps, c)
    ensures c.reconnecting <==> exists i :: 0 <= i < |c.loops| && c.loops[i] != Dead
    ensures forall i, j :: 0 <= i < j < |c.loops| ==> c.loops[i] == Dead || c.loops[j] == Dead
  {
    ReachableInv(callers, registers, session, steps, c);
    if c.reconnecting {
      assert c.loops[|c.loops| - 1] != Dead;
    }
  }

  /**
   From the close of the old connection to the swap, no SendLog, session_end or flush writes anything:
   whatever SendLog is given then goes to the buffer.
  */
  lemma NothingIsWrittenWhileDown(
      callers: nat, registers: bool, session: string, steps: seq<Step>, c: Client, step: Step)
    requires Reaches(Started(callers, registers, session), steps, c) && c.link.conn.None?
    requires Enabled(c, step)
    ensures var c' := Next(c, step); c'.link.written == c.link.written && c'.link.ended == c.link.ended
    ensures step.Send? ==> Next(c, step).callers[step.t].pc == Failed(NextLine(c, step))
  {
    ReachableInv(callers, registers, session, steps, c);
    assert !MayEncode(c.link);
    hide Inv, Connecting, Flushing, FlagTried, MayEncode;
    if step.Advance? {
      if IsConnecting(c.loops[step.i]) {
        ConnectingIsQuiet(c, step.i, step.ok, step.reply);
      } else {
        FlushingWhileDown(c, step.i, step.ok);
      }
    } else if step.TryFlag? {
      FlagLeavesLink(c, step.t);
    }
  }

  lemma FlagLeavesLink(c: Client, t: nat)
    requires t < |c.callers| && c.callers[t].pc.Pushed?
    ensures FlagTried(c, t).link == c.link
  {
  }

  lemma FlushingWhileDown(c: Client, i: nat, ok: bool)
    requires i < |c.loops| && c.loops[i] != Dead && !IsConnecting(c.loops[i])
    requires LoopEnabled(c, c.loops[i], ok) && !MayEncode(c.link)
    ensures Flushing(c, i, ok).link == c.link
  {
    if c.loops[i].InFlush? {
      assert Flushing(c, i, ok) == FlushedOne(c, i, ok);
    }
  }

  /** Every log and session_end on a connection carries the session ID the broker minted on it. */
  lemma SessionBinding(callers: nat, registers: bool, session: string, steps: seq<Step>, c: Client)
    requires Reaches(Started(callers, registers, session), steps, c)
    ensures forall i :: 0 <= i < |c.link.written| ==>
        Bound(c.registers, c.minted, c.link.written[i].conn, c.link.written[i].session)
    ensures forall i :: 0 <= i < |c.link.ended| ==>
        Bound(c.registers, c.minted, c.link.ended[i].conn, c.link.ended[i].session)
    ensures forall i, j :: 0 <= i < j < |c.link.written| ==> c.link.written[i].conn <= c.link.written[j].conn
  {
    ReachableInv(callers, registers, session, steps, c);
  }

  /**
   Line conservation. Each line ever handed to SendLog is in exactly one place, once: on the wire of one
   connection, failed but not pushed yet, buffered, drained and in flight, overwritten, or given up by a
   failed flush. Nothing else is in any of them, so no line is ever written twice.
  */
  lemma EveryLineInOnePlace(
      callers: nat, registers: bool, session: string, steps: seq<Step>, c: Client, x: Line)
    requires Reaches(Started(callers, registers, session), steps, c)
    ensures Count(Lines(c.link.written), x) + Pending(c.callers, x) + Count(c.stock.buf, x)
            + Count(c.stock.flight, x) + Count(c.stock.overwritten, x) + Count(c.stock.dropped, x)
            == if x in c.stock.submitted then 1 else 0
  {
    ReachableInv(callers, registers, session, steps, c);
    NumberedOnce(c.stock.submitted, x);
    assert Balanced(c.link.written, c.callers, c.stock, x);
  }

  /** When nobody is sending or reconnecting, the buffer is empty, and no line was lost, all of them are on the wire. */
  lemma NothingLost(callers: nat, registers: bool, session: string, steps: seq<Step>, c: Client)
    requires Reaches(Started(callers, registers, session), steps, c)
    requires !c.reconnecting && c.stock.buf == [] && forall t :: 0 <= t < |c.callers| ==> c.callers[t].pc.Idle?
    requires c.stock.overwritten == [] && c.stock.dropped == []
    ensures forall x :: x in c.stock.submitted ==> Count(Lines(c.link.written), x) == 1
  {
    ReachableInv(callers, registers, session, steps, c);
    forall x | x in c.stock.submitted ensures Count(Lines(c.link.written), x) == 1 {
      EveryLineInOnePlace(callers, registers, session, steps, c, x);
      NobodyPending(c.callers, x);
    }
  }

  /** The only two ways to lose a line: the oldest of a full buffer, and the rest of a flush that failed. */
  lemma TwoWaysToLose(c: Client, step: Step)
    requires Inv(c) && Enabled(c, step)
    ensures Next(c, step).stock.overwritten ==
        if step.Push? && |c.stock.buf| == CAPACITY then c.stock.overwritten + [c.stock.buf[0]] else c.stock.overwritten
    ensures Next(c, step).stock.dropped ==
        if step.Advance? && c.loops[step.i].InFlush? && !step.ok then c.stock.dropped + c.stock.flight else c.stock.dropped
  {
    hide Connecting, LinkInv, WireInv, CountInv, NumberInv;
    if IsQuiet(c, step) {
      QuietSteps(c, step);
    } else if step.Push? {
      assert |c.stock.buf| == CAPACITY ==> c.stock.buf[..1] == [c.stock.buf[0]];
    }
  }
}
