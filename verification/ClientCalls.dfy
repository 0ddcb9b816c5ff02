/** What the callers of the client asked for, and what the machine made of it: every call, with its own contents. */
module ClientCalls {
  import opened Seqs
  import opened Clients
  import opened ClientSafety
  import opened ClientOrder

  /** The arguments of one SendLog. */
  datatype Call = Call(caller: nat, stream: string, message: string, timestamp: int)

  function CallOf(l: Line): Call {
    Call(l.caller, l.stream, l.message, l.timestamp)
  }

  /** The SendLog calls of a run in order, or only those whose Encode succeeded at once. */
  function SendCalls(steps: seq<Step>, all: bool): seq<Call>
    decreases |steps|
  {
    if steps == [] then []
    else
      var s := steps[0];
      (if s.Send? && (all || s.ok) then [Call(s.t, s.stream, s.message, s.timestamp)] else []) + SendCalls(steps[1..], all)
  }

  /** When the EndSession calls of a run that succeeded were made. */
  function EndCalls(steps: seq<Step>): seq<int>
    decreases |steps|
  {
    if steps == [] then []
    else (if steps[0].End? && steps[0].ok then [steps[0].timestamp] else []) + EndCalls(steps[1..])
  }

  function Calls(lines: seq<Line>): seq<Call> {
    seq(|lines|, i requires 0 <= i < |lines| => CallOf(lines[i]))
  }

  function Times(ends: seq<EndWrite>): seq<int> {
    seq(|ends|, i requires 0 <= i < |ends| => ends[i].timestamp)
  }

  /** What one step adds to the lines handed over, written directly, and to the session_ends written. */
  lemma StepAdds(c: Client, step: Step)
    requires Enabled(c, step)
    ensures var c' := Next(c, step);
      && Calls(c'.stock.submitted) == Calls(c.stock.submitted) + SendCalls([step], true)
      && Calls(Out(c'.link.written, Direct)) == Calls(Out(c.link.written, Direct)) + SendCalls([step], false)
      && Times(c'.link.ended) == Times(c.link.ended) + EndCalls([step])
  {
    assert [step][1..] == [];
    if step.Send? {
      SendAdds(c, step);
    } else if step.Advance? {
      AdvanceAdds(c, step);
    } else {
      hide Out;
      QuietAdds(c, step);
    }
  }

  lemma SendAdds(c: Client, step: Step)
    requires Enabled(c, step) && step.Send?
    ensures var c', call := Next(c, step), Call(step.t, step.stream, step.message, step.timestamp);
      && Calls(c'.stock.submitted) == Calls(c.stock.submitted) + [call]
      && Calls(Out(c'.link.written, Direct)) == Calls(Out(c.link.written, Direct)) + (if step.ok then [call] else [])
      && c'.link.ended == c.link.ended
  {
    var c', line := Next(c, step), NextLine(c, step);
    assert c'.stock.submitted == c.stock.submitted + [line];
    if step.ok {
      assert c'.link.written[..|c.link.written|] == c.link.written;
    }
  }

  lemma AdvanceAdds(c: Client, step: Step)
    requires Enabled(c, step) && step.Advance?
    ensures var c' := Next(c, step);
      && c'.stock.submitted == c.stock.submitted && c'.link.ended == c.link.ended
      && Out(c'.link.written, Direct) == Out(c.link.written, Direct)
  {
    hide Connecting, Flushing;
    if IsConnecting(c.loops[step.i]) {
      ConnectingIsQuiet(c, step.i, step.ok, step.reply);
    } else {
      FlushingLeavesCallers(c, step.i, step.ok);
      FlushingWrites(c, step.i, step.ok);
    }
  }

  lemma FlushedLeavesDirect(l: Link, line: Line)
    ensures Out(Encoded(l, line, Flushed).written, Direct) == Out(l.written, Direct)
  {
    assert Encoded(l, line, Flushed).written[..|l.written|] == l.written;
  }

  lemma FlushingWrites(c: Client, i: nat, ok: bool)
    requires i < |c.loops| && c.loops[i] != Dead && !IsConnecting(c.loops[i])
    ensures var c' := Flushing(c, i, ok);
      c'.link.ended == c.link.ended && Out(c'.link.written, Direct) == Out(c.link.written, Direct)
  {
    hide Out, WithDrain, GivenUp, OneOut;
    if c.loops[i].InFlush? && c.stock.flight != [] {
      FlushedLeavesDirect(c.link, c.stock.flight[0]);
    }
  }

  lemma QuietAdds(c: Client, step: Step)
    requires Enabled(c, step) && !step.Send? && !step.Advance?
    ensures var c' := Next(c, step);
      && c'.stock.submitted == c.stock.submitted && c'.link.written == c.link.written
      && Times(c'.link.ended) == Times(c.link.ended) + (if step.End? && step.ok then [step.timestamp] else [])
  {
    hide WithPush, FlagTried;
    if step.TryFlag? {
      FlagLeavesRest(c, step.t);
    } else if step.Push? {
      PushLeavesRest(c, step.t);
    }
  }

  lemma FlagLeavesRest(c: Client, t: nat)
    requires t < |c.callers| && c.callers[t].pc.Pushed?
    ensures FlagTried(c, t).stock == c.stock && FlagTried(c, t).link == c.link
  {
  }

  lemma PushLeavesRest(c: Client, t: nat)
    requires t < |c.callers| && c.callers[t].pc.Failed?
    ensures Buffered(c, t).stock.submitted == c.stock.submitted && Buffered(c, t).link == c.link
  {
  }

  lemma FirstCall(steps: seq<Step>)
    requires steps != []
    ensures forall all :: SendCalls(steps, all) == SendCalls([steps[0]], all) + SendCalls(steps[1..], all)
    ensures EndCalls(steps) == EndCalls([steps[0]]) + EndCalls(steps[1..])
  {
    assert [steps[0]][1..] == [];
  }

  lemma Then<T>(a: seq<T>, b: seq<T>, x: seq<T>, y: seq<T>, c: seq<T>)
    requires b == a + x && c == b + y
    ensures c == a + (x + y)
  {
  }

  lemma {:induction false} RunAdds(c: Client, steps: seq<Step>, c': Client)
    requires Reaches(c, steps, c')
    ensures Calls(c'.stock.submitted) == Calls(c.stock.submitted) + SendCalls(steps, true)
    ensures Calls(Out(c'.link.written, Direct)) == Calls(Out(c.link.written, Direct)) + SendCalls(steps, false)
    ensures Times(c'.link.ended) == Times(c.link.ended) + EndCalls(steps)
    decreases |steps|
  {
    if steps != [] {
      FirstCall(steps);
      hide Next, Enabled, Calls, Times, Out, SendCalls, EndCalls;
      var c1, first, rest := Next(c, steps[0]), [steps[0]], steps[1..];
      StepAdds(c, steps[0]);
      RunAdds(c1, rest, c');
      Then(Calls(c.stock.submitted), Calls(c1.stock.submitted), SendCalls(first, true), SendCalls(rest, true),
           Calls(c'.stock.submitted));
      Then(Calls(Out(c.link.written, Direct)), Calls(Out(c1.link.written, Direct)), SendCalls(first, false),
           SendCalls(rest, false), Calls(Out(c'.link.written, Direct)));
      Then(Times(c.link.ended), Times(c1.link.ended), EndCalls(first), EndCalls(rest), Times(c'.link.ended));
    }
  }

  /**
   In every run: the lines handed over are the SendLog calls with their own stream, text and time; the direct writes are
   exactly those of the calls that succeeded, in order; and the session_ends on the wire carry exactly the times of the
   EndSession calls that succeeded, in order.
  */
  lemma WireCarriesTheCalls(callers: nat, registers: bool, session: string, steps: seq<Step>, c: Client)
    requires Reaches(Started(callers, registers, session), steps, c)
    ensures Calls(c.stock.submitted) == SendCalls(steps, true)
    ensures Calls(Out(c.link.written, Direct)) == SendCalls(steps, false)
    ensures Times(c.link.ended) == EndCalls(steps)
  {
    RunAdds(Started(callers, registers, session), steps, c);
  }

  /** And whatever is on the wire, flushed lines included, was handed over by some call as it is. */
  lemma EveryWriteIsACall(callers: nat, registers: bool, session: string, steps: seq<Step>, c: Client, w: Write)
    requires Reaches(Started(callers, registers, session), steps, c) && w in c.link.written
    ensures CallOf(w.line) in SendCalls(steps, true)
  {
    EveryLineInOnePlace(callers, registers, session, steps, c, w.line);
    WireCarriesTheCalls(callers, registers, session, steps, c);
    hide Reaches, Pending, SendCalls, Out;
    var i :| 0 <= i < |c.link.written| && c.link.written[i] == w;
    assert Lines(c.link.written)[i] == w.line && w.line in multiset(Lines(c.link.written));
    var j :| 0 <= j < |c.stock.submitted| && c.stock.submitted[j] == w.line;
    assert Calls(c.stock.submitted)[j] == CallOf(w.line);
  }

  // ---------------------------------------------------------------------------------------------
  // Connections and the context

  /** Every connection ever dialled is closed, in use, or in the hands of the loop that is setting it up. */
  ghost predicate NoneLeaks(c: Client) {
    && (Live(c).Dialing? || Live(c).Registering? || Live(c).Swapping? ==> c.link.conn.None?)
    && forall k: Conn :: k < c.conns ==>
      || k in c.link.closed || c.link.conn == Some(k)
      || (Live(c).Registering? && Live(c).conn == k) || (Live(c).Swapping? && Live(c).to == k)
  }

  lemma ConnectingLeaksNone(c: Client, i: nat, ok: bool, reply: string)
    requires LoopInv(c) && LinkInv(c) && NoneLeaks(c) && i < |c.loops| && IsConnecting(c.loops[i])
    ensures NoneLeaks(Connecting(c, i, ok, reply))
  {
    OnlyTheLastMoves(c, i);
    LiveAt(c, i, Live(Connecting(c, i, ok, reply)));
  }

  lemma FlushingLeaksNone(c: Client, i: nat, ok: bool)
    requires LoopInv(c) && NoneLeaks(c) && i < |c.loops| && c.loops[i] != Dead && !IsConnecting(c.loops[i])
    ensures NoneLeaks(Flushing(c, i, ok))
  {
    OnlyTheLastMoves(c, i);
    LiveAt(c, i, Live(Flushing(c, i, ok)));
  }

  lemma OthersLeakNone(c: Client, step: Step)
    requires LoopInv(c) && NoneLeaks(c) && Enabled(c, step) && !step.Advance?
    ensures NoneLeaks(Next(c, step))
  {
  }

  lemma StepLeaksNone(c: Client, step: Step)
    requires LoopInv(c) && LinkInv(c) && NoneLeaks(c) && Enabled(c, step)
    ensures NoneLeaks(Next(c, step))
  {
    hide LoopInv, LinkInv, NoneLeaks, Connecting, Flushing;
    if !step.Advance? {
      OthersLeakNone(c, step);
    } else if IsConnecting(c.loops[step.i]) {
      ConnectingLeaksNone(c, step.i, step.ok, step.reply);
    } else {
      FlushingLeaksNone(c, step.i, step.ok);
    }
  }

  lemma {:induction false} RunLeaksNone(c: Client, steps: seq<Step>, c': Client)
    requires Inv(c) && NoneLeaks(c) && Reaches(c, steps, c')
    ensures NoneLeaks(c')
    decreases |steps|
  {
    hide LoopInv, LinkInv, WireInv, CountInv, NumberInv, NoneLeaks, Next, Enabled;
    if steps != [] {
      StepLeaksNone(c, steps[0]);
      StepKeepsInv(c, steps[0]);
      RunLeaksNone(Next(c, steps[0]), steps[1..], c');
    }
  }

  /** No run leaks a connection, however dials, registrations and closes turn out. */
  lemma NoConnectionLeaks(callers: nat, registers: bool, session: string, steps: seq<Step>, c: Client)
    requires Reaches(Started(callers, registers, session), steps, c)
    ensures NoneLeaks(c)
  {
    StartedInv(callers, registers, session);
    RunLeaksNone(Started(callers, registers, session), steps, c);
  }

  /** Whether a loop has passed its check of the context and has still to dial. */
  function AboutToDial(c: Client): nat {
    if Live(c).Closing? || Live(c).Dialing? then 1 else 0
  }

  lemma CancelledStep(c: Client, step: Step)
    requires LoopInv(c) && Enabled(c, step) && c.cancelled
    ensures var c' := Next(c, step); c'.cancelled && c'.conns + AboutToDial(c') <= c.conns + AboutToDial(c)
  {
    if step.Advance? {
      OnlyTheLastMoves(c, step.i);
      if IsConnecting(c.loops[step.i]) {
        CancelledConnecting(c, step.i, step.ok, step.reply);
      } else {
        CancelledFlushing(c, step.i, step.ok);
      }
    } else {
      CancelledOther(c, step);
    }
  }

  lemma CancelledConnecting(c: Client, i: nat, ok: bool, reply: string)
    requires LoopInv(c) && i < |c.loops| && IsConnecting(c.loops[i]) && c.cancelled
    ensures var c' := Connecting(c, i, ok, reply); c'.cancelled && c'.conns + AboutToDial(c') <= c.conns + AboutToDial(c)
  {
    OnlyTheLastMoves(c, i);
    LiveAt(c, i, Live(Connecting(c, i, ok, reply)));
  }

  lemma CancelledFlushing(c: Client, i: nat, ok: bool)
    requires LoopInv(c) && i < |c.loops| && c.loops[i] != Dead && !IsConnecting(c.loops[i]) && c.cancelled
    ensures var c' := Flushing(c, i, ok); c'.cancelled && c'.conns + AboutToDial(c') <= c.conns + AboutToDial(c)
  {
    OnlyTheLastMoves(c, i);
    LiveAt(c, i, Live(Flushing(c, i, ok)));
  }

  lemma CancelledOther(c: Client, step: Step)
    requires LoopInv(c) && Enabled(c, step) && c.cancelled && !step.Advance?
    ensures var c' := Next(c, step); c'.cancelled && c'.conns + AboutToDial(c') <= c.conns + AboutToDial(c)
  {
    hide Overtook, Submitted, Encoded, WithPush, Shut;
  }

  /** Once the context is cancelled, no run dials again, but for the one dial a loop may be on its way to. */
  lemma {:induction false} CancelledStopsDialling(c: Client, steps: seq<Step>, c': Client)
    requires Inv(c) && c.cancelled && Reaches(c, steps, c')
    ensures c'.conns + AboutToDial(c') <= c.conns + AboutToDial(c)
    decreases |steps|
  {
    hide LoopInv, LinkInv, WireInv, CountInv, NumberInv, AboutToDial, Next, Enabled;
    if steps != [] {
      CancelledStep(c, steps[0]);
      StepKeepsInv(c, steps[0]);
      CancelledStopsDialling(Next(c, steps[0]), steps[1..], c');
    }
  }
}
