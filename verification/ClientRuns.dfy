/**
 Two runs of the client, step by step, at the two places where its promises end. In the first a SendLog that
 comes right after the swap writes its line before the flush has written the line its caller handed over earlier
 (internal/client/client.go:132-135). In the second a caller buffers its line after the drain and finds the flag
 still set, so that nobody comes back for the line (internal/client/client.go:122-136). Both are built from small
 runs joined end to end.
 */
module ClientRuns {
  import opened Clients
  import opened ClientOrder

  function Go(i: nat): Step {
    Advance(i, true, "")
  }

  /** A SendLog fails on a healthy-looking connection and starts the reconnect loop. */
  function DownBy(c: Client, t: nat, line: Line): Client
    requires t < |c.callers| && c.callers[t].pc.Idle? && !c.reconnecting
  {
    FlagTried(Buffered(NotSent(c, t, line), t), t)
  }

  lemma Fails(c0: Client, steps: seq<Step>, c: Client, t: nat, m: string) returns (more: seq<Step>)
    requires Reaches(c0, steps, c) && t < |c.callers| && c.callers[t].pc.Idle? && !c.locked && !c.reconnecting
    ensures Reaches(c0, more, DownBy(c, t, Line(t, c.callers[t].sent, "stdout", m, 0)))
  {
    var line := Line(t, c.callers[t].sent, "stdout", m, 0);
    var send := Send(t, "stdout", m, 0, false);
    var a := NotSent(c, t, line);
    Further(c0, steps, c, send);
    var b := Buffered(a, t);
    Further(c0, steps + [send], a, Push(t));
    Further(c0, steps + [send] + [Push(t)], b, TryFlag(t));
    more := steps + [send] + [Push(t)] + [TryFlag(t)];
  }

  /** The loop closes, dials and swaps without a hitch. */
  function UpAgain(c: Client, i: nat): Client
    requires i < |c.loops|
  {
    At(c, i, Draining).(link := Swapped(Dropped(c.link), c.conns, ""), conns := c.conns + 1)
  }

  lemma Reconnects(c0: Client, steps: seq<Step>, c: Client, i: nat) returns (more: seq<Step>)
    requires Reaches(c0, steps, c) && i < |c.loops| && c.loops[i].Head? && !c.cancelled && !c.locked && !c.registers
    ensures Reaches(c0, more, UpAgain(c, i))
  {
    var c1 := At(c, i, Closing);
    Further(c0, steps, c, Go(i));
    var c2 := At(c, i, Dialing).(link := Dropped(c.link));
    assert c1.loops[i := Dialing] == c.loops[i := Dialing];
    Further(c0, steps + [Go(i)], c1, Go(i));
    var c3 := At(c2, i, Swapping(c.conns, "")).(conns := c.conns + 1);
    Further(c0, steps + [Go(i)] + [Go(i)], c2, Go(i));
    assert c3.loops[i := Draining] == c.loops[i := Draining];
    Further(c0, steps + [Go(i)] + [Go(i)] + [Go(i)], c3, Go(i));
    more := steps + [Go(i)] + [Go(i)] + [Go(i)] + [Go(i)];
  }

  /** The first caller's line failed and the loop is about to drain it. */
  function ReadyToDrain(callers: nat, m: string): Client
    requires 0 < callers
  {
    UpAgain(DownBy(Started(callers, false, ""), 0, Line(0, 0, "stdout", m, 0)), 0)
  }

  lemma DownThenUp(callers: nat, m: string) returns (steps: seq<Step>)
    requires 0 < callers
    ensures Reaches(Started(callers, false, ""), steps, ReadyToDrain(callers, m))
  {
    var c0 := Started(callers, false, "");
    steps := Fails(c0, [], c0, 0, m);
    steps := Reconnects(c0, steps, DownBy(c0, 0, Line(0, 0, "stdout", m, 0)), 0);
  }

  /** The loop drains one line and writes it. */
  lemma DrainsAndWrites(c0: Client, steps: seq<Step>, c: Client, line: Line) returns (more: seq<Step>, d: Client)
    requires Reaches(c0, steps, c) && c.loops == [Draining] && !c.locked && MayEncode(c.link) && c.stock.buf == [line]
    ensures Reaches(c0, more, d)
    ensures d.link.written == c.link.written + [Write(c.link.encoder, c.link.session, line, Flushed)]
  {
    Further(c0, steps, c, Go(0));
    d := At(c, 0, Locking).(stock := WithDrain(c.stock), drains := c.drains + 1, late := false);
    Further(c0, steps + [Go(0)], d, Go(0));
    d := At(d, 0, InFlush).(locked := true);
    Further(c0, steps + [Go(0)] + [Go(0)], d, Go(0));
    d := FlushedOne(d, 0, true);
    more := steps + [Go(0)] + [Go(0)] + [Go(0)];
  }

  /**
   Right after the swap a SendLog of the same caller goes out directly, and only then does the flush write
   the earlier line.
  */
  lemma SendLogMayOvertakeTheFlush(m: string, k: string) returns (steps: seq<Step>, c: Client)
    ensures Reaches(Started(1, false, ""), steps, c)
    ensures c.link.written ==
        [Write(1, "", Line(0, 1, "stdout", k, 0), Direct), Write(1, "", Line(0, 0, "stdout", m, 0), Flushed)]
  {
    var c0, first, second := Started(1, false, ""), Line(0, 0, "stdout", m, 0), Line(0, 1, "stdout", k, 0);
    hide ReadyToDrain;
    steps := DownThenUp(1, m);
    c := ReadyToDrain(1, m);
    Further(c0, steps, c, Send(0, "stdout", k, 0, true));
    c, steps := Sent(c, 0, second), steps + [Send(0, "stdout", k, 0, true)];
    assert c.link.written == [Write(1, "", second, Direct)];
    steps, c := DrainsAndWrites(c0, steps, c, first);
  }

  /** While the loop is between drain and flush, a SendLog fails and leaves its line in the buffer. */
  lemma FailsBehindTheDrain(c0: Client, steps: seq<Step>, c: Client, t: nat, k: string)
      returns (more: seq<Step>, d: Client)
    requires Reaches(c0, steps, c) && t < |c.callers| && c.callers[t] == Caller(Idle, 0)
    requires !c.locked && c.reconnecting && c.stock.buf == []
    ensures Reaches(c0, more, d)
    ensures d == c.(callers := c.callers[t := Caller(Idle, 1)], stock := d.stock, late := d.late)
    ensures d.stock.flight == c.stock.flight && d.stock.buf == [Line(t, 0, "stdout", k, 0)]
  {
    var send := Send(t, "stdout", k, 0, false);
    Further(c0, steps, c, send);
    d := NotSent(c, t, Line(t, 0, "stdout", k, 0));
    Further(c0, steps + [send], d, Push(t));
    d := Buffered(d, t);
    Further(c0, steps + [send] + [Push(t)], d, TryFlag(t));
    d := FlagTried(d, t);
    more := steps + [send] + [Push(t)] + [TryFlag(t)];
  }

  /** Drained, but the connection fails again for a second caller before the flush takes the mutex. */
  lemma PushAfterDrain(m: string, k: string) returns (steps: seq<Step>, c: Client)
    ensures Reaches(Started(2, false, ""), steps, c)
    ensures c.loops == [Locking] && !c.locked && c.reconnecting && !c.cancelled && MayEncode(c.link)
    ensures c.stock.flight == [Line(0, 0, "stdout", m, 0)] && c.stock.buf == [Line(1, 0, "stdout", k, 0)]
    ensures forall t :: 0 <= t < |c.callers| ==> c.callers[t].pc.Idle?
  {
    var c0, first := Started(2, false, ""), Line(0, 0, "stdout", m, 0);
    hide ReadyToDrain;
    steps := DownThenUp(2, m);
    c := ReadyToDrain(2, m);
    Further(c0, steps, c, Go(0));
    c, steps := At(c, 0, Locking).(stock := WithDrain(c.stock), drains := c.drains + 1, late := false), steps + [Go(0)];
    steps, c := FailsBehindTheDrain(c0, steps, c, 1, k);
  }

  /** The loop finishes its flush, clears the flag and is gone; the second caller's line stays where it is. */
  lemma ALineMayBeLeftBehind(m: string, k: string) returns (steps: seq<Step>, c: Client)
    ensures Reaches(Started(2, false, ""), steps, c)
    ensures AllIdle(c) && !c.cancelled && c.stock.buf == [Line(1, 0, "stdout", k, 0)]
  {
    var c0 := Started(2, false, "");
    steps, c := PushAfterDrain(m, k);
    Further(c0, steps, c, Go(0));
    c := At(c, 0, InFlush).(locked := true);
    Further(c0, steps + [Go(0)], c, Go(0));
    c := FlushedOne(c, 0, true);
    Further(c0, steps + [Go(0)] + [Go(0)], c, Go(0));
    c := FlushedOne(c, 0, true);
    Further(c0, steps + [Go(0)] + [Go(0)] + [Go(0)], c, Go(0));
    steps := steps + [Go(0)] + [Go(0)] + [Go(0)] + [Go(0)];
    c := At(c, 0, Dead).(reconnecting := false);
  }
}
