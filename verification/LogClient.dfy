/**
 The Client struct itself (internal/client/client.go). Its methods change the same fields in the same order as the
 source, and each contract gives the new fields outright, in the terms of the state machine: how the link looks
 after a SendLog, after one attempt to reconnect with any outcome, and after a flush that fails at any line.
 Below the class, each of these outcomes is shown to be a run of the machine, which ties the theorems about all
 runs to the methods.
 */
module LogClients {
  import opened Seqs
  import opened LineBuffers
  import opened Clients

  /** The link after these lines were flushed. */
  function WroteAll(l: Link, lines: seq<Line>): Link {
    if lines == [] then l else Encoded(WroteAll(l, lines[..|lines| - 1]), lines[|lines| - 1], Flushed)
  }

  /** Each of them once, in order, on the current connection with the current session. */
  lemma {:induction false} WroteEachLine(l: Link, lines: seq<Line>)
    ensures WroteAll(l, lines) == l.(written := l.written +
        seq(|lines|, i requires 0 <= i < |lines| => Write(l.encoder, l.session, lines[i], Flushed)))
  {
    if lines != [] {
      var n := |lines| - 1;
      WroteEachLine(l, lines[..n]);
      var ws := seq(|lines|, i requires 0 <= i < |lines| => Write(l.encoder, l.session, lines[i], Flushed));
      assert ws == ws[..n] + [ws[n]];
      assert ws[..n] == seq(n, i requires 0 <= i < n => Write(l.encoder, l.session, lines[..n][i], Flushed));
    }
  }

  /** The machine after a whole SendLog call that nothing interrupted. */
  function AfterSendLog(c: Client, t: nat, line: Line, ok: bool): Client
    requires t < |c.callers|
  {
    if ok then Sent(c, t, line) else FlagTried(Buffered(NotSent(c, t, line), t), t)
  }

  /** The link after one attempt to reconnect, on connection k: dialled or not, and answered or not. */
  function LinkAfter(l: Link, k: Conn, registers: bool, dialled: bool, answered: bool, reply: string): Link {
    if !dialled then Dropped(l)
    else if !registers then Swapped(Dropped(l), k, "")
    else if !answered then Dropped(l).(closed := Dropped(l).closed + {k})
    else Swapped(Dropped(l), k, reply)
  }

  function AfterReconnect(c: Client, i: nat, dialled: bool, answered: bool, reply: string): Client
    requires i < |c.loops|
  {
    At(c, i, if dialled && (c.registers ==> answered) then Draining else Head).(
      link := LinkAfter(c.link, c.conns, c.registers, dialled, answered, reply),
      conns := if dialled then c.conns + 1 else c.conns,
      minted := if dialled && c.registers && answered then c.minted[c.conns := reply] else c.minted)
  }

  /** The machine after flushBuffer, when the first n Encode calls succeed and the next one fails. */
  function AfterFlush(c: Client, i: nat, n: nat): Client
    requires i < |c.loops|
  {
    var lines, m := c.stock.buf, Min(n, |c.stock.buf|);
    At(c, i, Leaving).(
      link := WroteAll(c.link, lines[..m]),
      stock := c.stock.(buf := [], flight := [], dropped := c.stock.dropped + lines[m..]),
      drains := c.drains + 1,
      late := false)
  }

  class LogClient {
    var conn: Option<Conn>
    var encoder: Option<Conn>    // nil until Connect
    var sessionID: string
    var pid: int
    var reconnecting: bool
    const buf: LineBuffer<Line>
    ghost var closed: set<Conn>
    ghost var written: seq<Write>
    ghost var ended: seq<EndWrite>

    /** The fields the mutex guards, as the machine sees them. */
    ghost function Link(): Link
      reads this
      requires encoder.Some?
    {
      Clients.Link.Link(conn, encoder.value, sessionID, closed, written, ended)
    }

    ghost predicate Valid()
      reads this, buf, buf.buf
    {
      buf.Valid()
    }

    /** New: not connected, not registered. */
    constructor ()
      ensures Valid() && fresh(buf) && fresh(buf.buf) && buf.pushed == [] && !reconnecting
      ensures conn == None && encoder == None && sessionID == "" && pid == 0
      ensures closed == {} && written == [] && ended == []
    {
      conn, encoder, sessionID, pid := None, None, "", 0;
      reconnecting, closed, written, ended := false, {}, [], [];
      buf := new LineBuffer<Line>();
    }

    /** The first dial; on a new client the link is then that of a client that does not register. */
    method Connect(dialled: bool) returns (ok: bool)
      modifies this`conn, this`encoder
      ensures ok == dialled
      ensures conn == (if ok then Some(0) else old(conn)) && encoder == (if ok then Some(0) else old(encoder))
    {
      if !dialled {
        return false;
      }
      conn, encoder := Some(0), Some(0);
      return true;
    }

    /**
     The reply is read on the same connection. A failure is not fatal to the caller, who goes on without a session
     ID; every later connection registers again, because the PID is set either way.
    */
    method RegisterSession(pid: int, answered: bool, reply: string) returns (session: string, ok: bool)
      requires encoder.Some?
      modifies this`pid, this`sessionID
      ensures ok == answered && session == (if ok then reply else "")
      ensures this.pid == pid && sessionID == if ok then reply else old(sessionID)
    {
      this.pid := pid;
      if !answered {
        return "", false;
      }
      sessionID := reply;
      return sessionID, true;
    }

    /** ok is how Encode fares; a failed line is buffered, and one caller gets to start the loop. */
    method SendLog(line: Line, ok: bool) returns (spawn: bool)
      requires Valid() && encoder.Some? && (ok ==> MayEncode(Link()))
      modifies this`written, this`reconnecting, buf, buf.buf
      ensures Valid()
      ensures Link() == if ok then Encoded(old(Link()), line, Direct) else old(Link())
      ensures written == old(written) + if ok then [Write(encoder.value, sessionID, line, Direct)] else []
      ensures buf.pushed == if ok then old(buf.pushed) else old(buf.pushed) + [line]
      ensures spawn <==> !ok && !old(reconnecting)
      ensures reconnecting <==> old(reconnecting) || spawn
    {
      if ok {
        written := written + [Write(encoder.value, sessionID, line, Direct)];
        return false;
      }
      buf.Push(line);
      spawn := !reconnecting;
      if spawn {
        reconnecting := true;
      }
    }

    /** k is the connection a successful dial yields. */
    method Reconnect(k: Conn, dialled: bool, answered: bool, reply: string) returns (up: bool)
      requires encoder.Some?
      modifies this`conn, this`encoder, this`sessionID, this`closed
      ensures encoder.Some?
      ensures Link() == LinkAfter(old(Link()), k, pid != 0, dialled, answered, reply)
      ensures up <==> dialled && (pid != 0 ==> answered)
      ensures conn == (if up then Some(k) else None) && encoder == (if up then Some(k) else old(encoder))
      ensures sessionID == if up && pid != 0 && reply != "" then reply else old(sessionID)
      ensures closed == old(closed) + (if old(conn).Some? then {old(conn).value} else {})
                                    + (if dialled && !up then {k} else {})
    {
      if conn.Some? {
        closed := closed + {conn.value};
        conn := None;
      }
      if !dialled {
        return false;
      }
      var newSessionID := "";
      if pid != 0 {
        if !answered {
          closed := closed + {k};
          return false;
        }
        newSessionID := reply;
      }
      conn, encoder := Some(k), Some(k);
      if newSessionID != "" {
        sessionID := newSessionID;
      }
      return true;
    }

    /** n is how many Encode calls succeed before one fails. */
    method FlushBuffer(n: nat)
      requires Valid() && encoder.Some? && (n > 0 ==> MayEncode(Link()))
      modifies this`written, buf
      ensures Valid() && buf.pushed == []
      ensures Link() == WroteAll(old(Link()), old(buf.Contents())[..Min(n, |old(buf.Contents())|)])
    {
      var lines := buf.Drain();
      if |lines| == 0 {
        return;
      }
      for j := 0 to |lines|
        invariant Link() == WroteAll(old(Link()), lines[..j]) && j <= n
        modifies this`written
      {
        if j == n {
          return;
        }
        written := written + [Write(encoder.value, sessionID, lines[j], Flushed)];
        assert lines[..j + 1][..j] == lines[..j];
      }
      assert lines[..|lines|] == lines;
    }

    method EndSession(timestamp: int, ok: bool)
      requires encoder.Some? && (ok ==> MayEncode(Link()))
      modifies this`ended
      ensures Link() == if ok then EndEncoded(old(Link()), timestamp) else old(Link())
      ensures ended == old(ended) + if ok then [EndWrite(encoder.value, sessionID, timestamp)] else []
    {
      if ok {
        ended := ended + [EndWrite(encoder.value, sessionID, timestamp)];
      }
    }

    method Close()
      requires encoder.Some?
      modifies this`closed
      ensures Link() == Shut(old(Link()))
      ensures closed == old(closed) + if conn.Some? then {conn.value} else {}
    {
      if conn.Some? {
        closed := closed + {conn.value};
      }
    }
  }

  /** What runner.go does before the child's first line: the machine's first state, whether or not the broker answers. */
  method Open(pid: int, answered: bool, reply: string) returns (c: LogClient)
    requires pid != 0
    ensures fresh(c) && fresh(c.buf) && fresh(c.buf.buf) && c.Valid() && c.buf.pushed == [] && !c.reconnecting
    ensures c.pid == pid && c.encoder.Some?
    ensures c.Link() == Started(0, true, if answered then reply else "").link
  {
    c := new LogClient();
    var connected := c.Connect(true);
    var session, ok := c.RegisterSession(pid, answered, reply);
  }

  // ---------------------------------------------------------------------------------------------
  // Each call is a run of the machine

  lemma SendLogIsARun(c: Client, t: nat, stream: string, message: string, timestamp: int, ok: bool)
      returns (steps: seq<Step>)
    requires t < |c.callers| && c.callers[t].pc.Idle? && !c.locked && (ok ==> MayEncode(c.link))
    ensures Reaches(c, steps, AfterSendLog(c, t, Line(t, c.callers[t].sent, stream, message, timestamp), ok))
  {
    var line, send := Line(t, c.callers[t].sent, stream, message, timestamp), Send(t, stream, message, timestamp, ok);
    Further(c, [], c, send);
    steps := [] + [send];
    if !ok {
      var d := NotSent(c, t, line);
      Further(c, steps, d, Push(t));
      Further(c, steps + [Push(t)], Buffered(d, t), TryFlag(t));
      steps := steps + [Push(t)] + [TryFlag(t)];
    }
  }

  /** EndSession and Close, in any state in which nobody holds the mutex. */
  lemma EndAndCloseAreRuns(c: Client, timestamp: int, ok: bool)
    requires !c.locked && (ok ==> MayEncode(c.link))
    ensures Reaches(c, [End(timestamp, ok)], if ok then c.(link := EndEncoded(c.link, timestamp)) else c)
    ensures Reaches(c, [Clients.Step.Close], c.(link := Shut(c.link)))
  {
    Further(c, [], c, End(timestamp, ok));
    Further(c, [], c, Clients.Step.Close);
    assert [] + [End(timestamp, ok)] == [End(timestamp, ok)] && [] + [Clients.Step.Close] == [Clients.Step.Close];
  }

  lemma DialFails(c: Client, i: nat) returns (steps: seq<Step>)
    requires i < |c.loops| && c.loops[i].Closing? && !c.locked
    ensures Reaches(c, steps, At(c, i, Head).(link := Dropped(c.link)))
  {
    var close, dial := Advance(i, true, ""), Advance(i, false, "");
    var down := At(c, i, Dialing).(link := Dropped(c.link));
    Further(c, [], c, close);
    Further(c, [] + [close], down, dial);
    assert down.loops[i := Head] == c.loops[i := Head];
    steps := [] + [close] + [dial];
  }

  lemma DialWorks(c: Client, i: nat) returns (steps: seq<Step>)
    requires i < |c.loops| && c.loops[i].Closing? && !c.locked
    ensures Reaches(c, steps, At(c, i, if c.registers then Registering(c.conns) else Swapping(c.conns, "")).(
                                link := Dropped(c.link), conns := c.conns + 1))
  {
    var close, dial := Advance(i, true, ""), Advance(i, true, "");
    var down := At(c, i, Dialing).(link := Dropped(c.link));
    Further(c, [], c, close);
    Further(c, [] + [close], down, dial);
    var pc := if c.registers then Registering(c.conns) else Swapping(c.conns, "");
    assert down.loops[i := pc] == c.loops[i := pc];
    steps := [] + [close] + [dial];
  }

  lemma ReconnectIsARun(c: Client, i: nat, dialled: bool, answered: bool, reply: string)
      returns (steps: seq<Step>)
    requires i < |c.loops| && c.loops[i].Closing? && !c.locked
    ensures Reaches(c, steps, AfterReconnect(c, i, dialled, answered, reply))
  {
    if !dialled {
      steps := DialFails(c, i);
      return;
    }
    steps := DialWorks(c, i);
    var d := At(c, i, if c.registers then Registering(c.conns) else Swapping(c.conns, "")).(
      link := Dropped(c.link), conns := c.conns + 1);
    var swap := Advance(i, true, "");
    if c.registers {
      var register := Advance(i, answered, reply);
      Further(c, steps, d, register);
      steps := steps + [register];
      if !answered {
        assert d.loops[i := Head] == c.loops[i := Head];
        return;
      }
      var e := d.(loops := c.loops[i := Swapping(c.conns, reply)], minted := c.minted[c.conns := reply]);
      assert d.loops[i := Swapping(c.conns, reply)] == e.loops && e.loops[i := Draining] == c.loops[i := Draining];
      Further(c, steps, e, swap);
    } else {
      assert d.loops[i := Draining] == c.loops[i := Draining];
      Further(c, steps, d, swap);
    }
    steps := steps + [swap];
  }

  /** The flush loop after m successful turns. */
  function AfterTurns(c: Client, m: nat): Client
    requires m <= |c.stock.flight|
  {
    c.(link := WroteAll(c.link, c.stock.flight[..m]), stock := c.stock.(flight := c.stock.flight[m..]))
  }

  lemma {:induction false} FlushTurns(c0: Client, steps: seq<Step>, c: Client, i: nat, m: nat)
      returns (more: seq<Step>)
    requires Reaches(c0, steps, c)
    requires i < |c.loops| && c.loops[i].InFlush? && m <= |c.stock.flight| && (m > 0 ==> MayEncode(c.link))
    ensures Reaches(c0, more, AfterTurns(c, m))
    ensures AfterTurns(c, m).link == c.link.(written := AfterTurns(c, m).link.written)
  {
    more := steps;
    var lines := c.stock.flight;
    if m == 0 {
      assert lines[0..] == lines;
    } else {
      more := FlushTurns(c0, steps, c, i, m - 1);
      assert lines[..m][..m - 1] == lines[..m - 1] && lines[m - 1..][1..] == lines[m..];
      Further(c0, more, AfterTurns(c, m - 1), Advance(i, true, ""));
      more := more + [Advance(i, true, "")];
    }
  }

  function InsideFlush(c: Client, i: nat): Client
    requires i < |c.loops|
  {
    At(c, i, InFlush).(stock := WithDrain(c.stock), drains := c.drains + 1, late := false, locked := true)
  }

  lemma EntersFlush(c: Client, i: nat) returns (steps: seq<Step>)
    requires i < |c.loops| && c.loops[i].Draining? && !c.locked && c.stock.buf != []
    ensures Reaches(c, steps, InsideFlush(c, i))
  {
    var go := Advance(i, true, "");
    Further(c, [], c, go);
    var d := At(c, i, Locking).(stock := WithDrain(c.stock), drains := c.drains + 1, late := false);
    Further(c, [] + [go], d, go);
    assert d.loops[i := InFlush] == c.loops[i := InFlush];
    steps := [] + [go] + [go];
  }

  lemma LeavesFlush(c0: Client, steps: seq<Step>, c: Client, i: nat)
    requires Reaches(c0, steps, c) && i < |c.loops| && c.loops[i].InFlush?
    ensures Reaches(c0, steps + [Advance(i, false, "")],
                    At(c, i, Leaving).(locked := false, stock := GivenUp(c.stock)))
  {
    assert c.stock.flight == [] ==> GivenUp(c.stock) == c.stock by {
      assert c.stock.dropped + [] == c.stock.dropped;
    }
    Further(c0, steps, c, Advance(i, false, ""));
  }

  /** From the drain to the unlock. */
  lemma FlushIsARun(c: Client, i: nat, n: nat) returns (steps: seq<Step>)
    requires i < |c.loops| && c.loops[i].Draining? && !c.locked && c.stock.flight == [] && (n > 0 ==> MayEncode(c.link))
    ensures Reaches(c, steps, AfterFlush(c, i, n))
  {
    var lines, m := c.stock.buf, Min(n, |c.stock.buf|);
    if lines == [] {
      assert c.stock.dropped + lines[m..] == c.stock.dropped && lines[..m] == [];
      var go := Advance(i, true, "");
      Further(c, [], c, go);
      steps := [] + [go];
    } else {
      var d := InsideFlush(c, i);
      steps := EntersFlush(c, i);
      steps := FlushTurns(c, steps, d, i, m);
      LeavesFlush(c, steps, AfterTurns(d, m), i);
      steps := steps + [Advance(i, false, "")];
      assert d.loops[i := Leaving] == c.loops[i := Leaving];
    }
  }
}
