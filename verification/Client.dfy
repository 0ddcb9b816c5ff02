/** The client wrapper (internal/client/client.go) as a state machine. */
module Clients {
  import opened Seqs
  import opened LineBuffers

  // Concurrent SendLog callers, a flag that lets one reconnectLoop run, the swap of connection, encoder and session
  // ID under the mutex, and the flush of the lines buffered meanwhile. Every step is one critical section or one
  // piece of I/O; an Encode writes its message whole or fails. The machine starts once Connect has worked
  // and RegisterSession has returned, with or without a reply.

  type Conn = nat      // connections in the order they were dialled

  /** The n-th line its caller hands to SendLog. */
  datatype Line = Line(caller: nat, n: nat, stream: string, message: string, timestamp: int)

  datatype Via = Direct | Flushed

  /** A log message on the wire. */
  datatype Write = Write(conn: Conn, session: string, line: Line, via: Via)

  /** A session_end on the wire. */
  datatype EndWrite = EndWrite(conn: Conn, session: string, timestamp: int)

  /** What the mutex guards, and what went out through it. */
  datatype Link = Link(
    conn: Option<Conn>,          // nil from the close of the old connection to the swap
    encoder: Conn,               // the connection the encoder writes to
    session: string,
    closed: set<Conn>,           // connections closed on this side
    written: seq<Write>,         // history, in wire order
    ended: seq<EndWrite>)        // history

  /** Encoding on a connection this side has closed always fails. */
  predicate MayEncode(l: Link) {
    l.encoder !in l.closed
  }

  function Encoded(l: Link, line: Line, via: Via): Link {
    l.(written := l.written + [Write(l.encoder, l.session, line, via)])
  }

  function EndEncoded(l: Link, ts: int): Link {
    l.(ended := l.ended + [EndWrite(l.encoder, l.session, ts)])
  }

  /** The first thing reconnect does. */
  function Dropped(l: Link): Link {
    if l.conn.None? then l else l.(conn := None, closed := l.closed + {l.conn.value})
  }

  /** Close at the end of the program leaves the field set. */
  function Shut(l: Link): Link {
    if l.conn.None? then l else l.(closed := l.closed + {l.conn.value})
  }

  function Swapped(l: Link, k: Conn, reply: string): Link {
    l.(conn := Some(k), encoder := k, session := if reply != "" then reply else l.session)
  }

  datatype CallerPc =
    | Idle
    | Failed(line: Line)     // Encode failed, the line is not in the buffer yet
    | Pushed(drains: nat)    // the line is in the buffer, the flag not tried yet; how many drains came before it

  datatype Caller = Caller(pc: CallerPc, sent: nat)

  datatype LoopPc =
    | Head
    | Closing
    | Dialing
    | Registering(conn: Conn)
    | Swapping(to: Conn, reply: string)
    | Draining
    | Locking                // drained, the mutex not taken yet
    | InFlush                // inside flushBuffer, holding the mutex
    | Leaving                // the deferred reset of the flag is still to come
    | Dead

  /** The lines not on the wire yet, and the history of all of them. */
  datatype Stock = Stock(
    buf: seq<Line>,
    flight: seq<Line>,               // drained, not written yet
    submitted: seq<Line>,            // history: every line handed to SendLog
    overwritten: seq<Line>,          // history: pushed out of the full buffer
    dropped: seq<Line>,              // history: given up by a failed flush
    overtaken: set<Line>)            // history: still waiting when a later line of its caller went out directly

  datatype Client = Client(
    link: Link,
    registers: bool,                 // pid is set: every new connection registers first
    conns: nat,                      // history: connections dialled so far
    minted: map<Conn, string>,       // history: the session ID the broker replied with on a connection; "" for
                                     // connection 0 when RegisterSession failed
    cancelled: bool,                 // the context
    reconnecting: bool,
    locked: bool,                    // the mutex is held across steps, which only a flush does
    callers: seq<Caller>,
    loops: seq<LoopPc>,              // every reconnectLoop ever started
    stock: Stock,
    drains: nat,                     // history: how often the buffer was drained
    late: bool)                      // history: a caller that pushed after the last drain found the flag of that
                                     // drain's loop still set

  datatype Step =
    | Send(t: nat, stream: string, message: string, timestamp: int, ok: bool)
    | Push(t: nat)
    | TryFlag(t: nat)
    | Advance(i: nat, ok: bool, reply: string)
    | End(timestamp: int, ok: bool)
    | Close
    | Cancel

  /** The newest reconnectLoop. */
  function Live(c: Client): LoopPc {
    if c.loops == [] then Dead else c.loops[|c.loops| - 1]
  }

  predicate PastDrain(pc: LoopPc) {
    pc.Locking? || pc.InFlush? || pc.Leaving?
  }

  predicate Enabled(c: Client, step: Step) {
    if step.Send? then
      && step.t < |c.callers| && c.callers[step.t].pc.Idle? && !c.locked
      && (step.ok ==> MayEncode(c.link))
    else if step.Push? then step.t < |c.callers| && c.callers[step.t].pc.Failed?
    else if step.TryFlag? then step.t < |c.callers| && c.callers[step.t].pc.Pushed?
    else if step.Advance? then step.i < |c.loops| && LoopEnabled(c, c.loops[step.i], step.ok)
    else if step.End? then !c.locked && (step.ok ==> MayEncode(c.link))
    else if step.Close? then !c.locked
    else true
  }

  predicate LoopEnabled(c: Client, pc: LoopPc, ok: bool) {
    && !pc.Dead?
    && (pc.Closing? || pc.Swapping? || pc.Locking? ==> !c.locked)
    && (pc.InFlush? && c.stock.flight != [] && ok ==> MayEncode(c.link))
  }

  function WithCaller(c: Client, t: nat, caller: Caller): Client
    requires t < |c.callers|
  {
    c.(callers := c.callers[t := caller])
  }

  function NextLine(c: Client, step: Step): Line
    requires step.Send? && step.t < |c.callers|
  {
    Line(step.t, c.callers[step.t].sent, step.stream, step.message, step.timestamp)
  }

  function Submitted(k: Stock, line: Line): Stock {
    k.(submitted := k.submitted + [line])
  }

  function Overtook(k: Stock, line: Line): Stock {
    k.(submitted := k.submitted + [line],
       overtaken := k.overtaken + set x | x in k.buf + k.flight && x.caller == line.caller)
  }

  function Sent(c: Client, t: nat, line: Line): Client
    requires t < |c.callers|
  {
    WithCaller(c, t, Caller(Idle, c.callers[t].sent + 1)).(
      link := Encoded(c.link, line, Direct), stock := Overtook(c.stock, line))
  }

  function NotSent(c: Client, t: nat, line: Line): Client
    requires t < |c.callers|
  {
    WithCaller(c, t, Caller(Failed(line), c.callers[t].sent + 1)).(stock := Submitted(c.stock, line))
  }

  /** What a push squeezes out of a full buffer. */
  function SqueezedOut(buf: seq<Line>): seq<Line> {
    if |buf| < CAPACITY then [] else buf[..1]
  }

  function WithPush(k: Stock, line: Line): Stock {
    k.(buf := LastN(k.buf + [line], CAPACITY), overwritten := k.overwritten + SqueezedOut(k.buf))
  }

  function Buffered(c: Client, t: nat): Client
    requires t < |c.callers| && c.callers[t].pc.Failed?
  {
    WithCaller(c, t, c.callers[t].(pc := Pushed(c.drains))).(stock := WithPush(c.stock, c.callers[t].pc.line))
  }

  /** The compare-and-swap, and the goroutine it starts when it wins. */
  function FlagTried(c: Client, t: nat): Client
    requires t < |c.callers| && c.callers[t].pc.Pushed?
  {
    var c' := WithCaller(c, t, c.callers[t].(pc := Idle));
    if !c.reconnecting then c'.(reconnecting := true, loops := c.loops + [Head])
    else c'.(late := c.late || (c.callers[t].pc.drains == c.drains && PastDrain(Live(c))))
  }

  function At(c: Client, i: nat, pc: LoopPc): Client
    requires i < |c.loops|
  {
    c.(loops := c.loops[i := pc])
  }

  function Dialled(c: Client, i: nat, ok: bool): Client
    requires i < |c.loops|
  {
    if !ok then At(c, i, Head)
    else At(c, i, if c.registers then Registering(c.conns) else Swapping(c.conns, "")).(conns := c.conns + 1)
  }

  /** A connection that could not register is closed again. */
  function Registered(c: Client, i: nat, ok: bool, reply: string): Client
    requires i < |c.loops| && c.loops[i].Registering?
  {
    var k := c.loops[i].conn;
    if !ok then At(c, i, Head).(link := c.link.(closed := c.link.closed + {k}))
    else At(c, i, Swapping(k, reply)).(minted := c.minted[k := reply])
  }

  predicate IsConnecting(pc: LoopPc) {
    pc.Head? || pc.Closing? || pc.Dialing? || pc.Registering? || pc.Swapping?
  }

  /** reconnectLoop and reconnect, up to the swap. */
  function Connecting(c: Client, i: nat, ok: bool, reply: string): Client
    requires i < |c.loops| && IsConnecting(c.loops[i])
  {
    var pc := c.loops[i];
    if pc.Head? then At(c, i, if c.cancelled then Leaving else Closing)
    else if pc.Closing? then At(c, i, Dialing).(link := Dropped(c.link))
    else if pc.Dialing? then Dialled(c, i, ok)
    else if pc.Registering? then Registered(c, i, ok, reply)
    else At(c, i, Draining).(link := Swapped(c.link, pc.to, pc.reply))
  }

  function WithDrain(k: Stock): Stock {
    k.(flight := k.buf, buf := [])
  }

  function GivenUp(k: Stock): Stock {
    k.(flight := [], dropped := k.dropped + k.flight)
  }

  function OneOut(k: Stock): Stock
    requires k.flight != []
  {
    k.(flight := k.flight[1..])
  }

  /** One turn of the flush loop; a failed Encode gives up everything not written yet. */
  function FlushedOne(c: Client, i: nat, ok: bool): Client
    requires i < |c.loops|
  {
    if c.stock.flight == [] then At(c, i, Leaving).(locked := false)
    else if !ok then At(c, i, Leaving).(locked := false, stock := GivenUp(c.stock))
    else c.(link := Encoded(c.link, c.stock.flight[0], Flushed), stock := OneOut(c.stock))
  }

  /** flushBuffer, and the deferred reset of the flag. */
  function Flushing(c: Client, i: nat, ok: bool): Client
    requires i < |c.loops|
  {
    var pc := c.loops[i];
    if pc.Draining? then
      At(c, i, if c.stock.buf == [] then Leaving else Locking).(
        stock := WithDrain(c.stock), drains := c.drains + 1, late := false)
    else if pc.Locking? then At(c, i, InFlush).(locked := true)
    else if pc.InFlush? then FlushedOne(c, i, ok)
    else At(c, i, Dead).(reconnecting := false)
  }

  function Next(c: Client, step: Step): Client
    requires Enabled(c, step)
  {
    if step.Send? then
      var line := NextLine(c, step);
      if step.ok then Sent(c, step.t, line) else NotSent(c, step.t, line)
    else if step.Push? then Buffered(c, step.t)
    else if step.TryFlag? then FlagTried(c, step.t)
    else if step.Advance? then
      if IsConnecting(c.loops[step.i]) then Connecting(c, step.i, step.ok, step.reply)
      else Flushing(c, step.i, step.ok)
    else if step.End? then (if step.ok then c.(link := EndEncoded(c.link, step.timestamp)) else c)
    else if step.Close? then c.(link := Shut(c.link))
    else c.(cancelled := true)
  }

  /** Connected on connection 0 and, when the client registers, holding the session ID minted there, or "" for none. */
  function Started(callers: nat, registers: bool, session: string): Client {
    Client(Link(Some(0), 0, if registers then session else "", {}, [], []), registers, 1,
           if registers then map[0 := session] else map[], false, false, false,
           seq(callers, _ => Caller(Idle, 0)), [], Stock([], [], [], [], [], {}), 0, false)
  }

  ghost predicate Reaches(c: Client, steps: seq<Step>, c': Client)
    decreases |steps|
  {
    if steps == [] then c == c'
    else Enabled(c, steps[0]) && Reaches(Next(c, steps[0]), steps[1..], c')
  }

  lemma {:induction false} Further(c: Client, steps: seq<Step>, d: Client, step: Step)
    requires Reaches(c, steps, d) && Enabled(d, step)
    ensures Reaches(c, steps + [step], Next(d, step))
    decreases |steps|
  {
    hide Next, Enabled;
    if steps == [] {
      assert [step][1..] == [];
      assert Reaches(Next(c, step), [], Next(d, step));
    } else {
      assert (steps + [step])[1..] == steps[1..] + [step];
      Further(Next(c, steps[0]), steps[1..], d, step);
    }
  }
}
