/**
 The running broker (internal/broker/broker.go) as a state machine: the accept loop, any number of
 connection handlers, the batch writer, the retention loop, the phases of one Stop, and the clients
 outside, all interleaving. handleLog is two steps, a cache Add and then a non-blocking send.
 */
module Lifecycle {
  import opened Seqs
  import opened Decimal
  import opened Records
  import opened Storage
  import opened BatchWriters
  import O = Ownership

  type Conn = O.Conn

  /** What the broker reads from a connection. Other has no effect; Broken ends the read loop. */
  datatype Message =
    | SessionStart(start: O.StartMessage)
    | Log(msg: LogMessage)
    | SessionEnd(session: string, timestamp: int)
    | Other
    | Broken

  /** The client's side of a connection: what it sent and the broker has not read, and whether it is still up. */
  datatype Peer = Peer(inbox: seq<Message>, connected: bool)

  datatype Pc =
    | Reading
    | Sending(item: Item)   // cached, not yet offered to the channel
    | Leaving               // the read loop returned
    | Cleaned               // cleanupConnection done, connWg.Done() still to come
    | Gone

  datatype Handler = Handler(peer: Peer, pc: Pc, logs: nat)

  /** How far Stop has come. CloseFailed: store.Close failed, Stop returned early and quit stays open. */
  datatype Phase =
    | Running | Signalled | Unlistened | HandlersDone | ChannelClosed | WriterDone | StoreClosed | Quit | CloseFailed

  function Rank(p: Phase): nat {
    match p
    case Running => 0
    case Signalled => 1
    case Unlistened => 2
    case HandlersDone => 3
    case ChannelClosed => 4
    case WriterDone => 5
    case StoreClosed => 6
    case Quit => 7
    case CloseFailed => 7
  }

  /** The event pipeline with its history. */
  datatype Pipe = Pipe(
    queue: seq<Item>,            // eventCh
    batch: seq<Item>,            // the batch writer's slice
    cached: seq<Item>,           // every cache Add of this run, in order
    accepted: seq<Item>,         // every successful send, in channel order
    dropped: seq<Item>,          // every send that found the channel full
    flushes: seq<InsertCall>)    // every insert call

  /** What the broker wrote back on a connection. */
  datatype Reply = Reply(conn: Conn, session: string)

  datatype Broker = Broker(
    phase: Phase,
    accepting: bool,             // the accept loop is alive
    connWg: int,
    handlers: seq<Handler>,      // indexed by connection
    backlog: seq<Peer>,          // dialled, not accepted
    writing: bool,               // the batch writer is alive
    writerWg: int,
    retaining: bool,             // the retention loop is alive
    pipe: Pipe,
    desk: O.Desk,                // tables, session manager, connection tracker
    start: Tables,               // history: the tables this run began with
    cutoff: Option<int>,         // history: the highest cutoff pruned with
    fault: bool,                 // history: a send on the closed channel, a handler or writer store call
                                 // after Close, or a misused WaitGroup
    overtaken: set<Item>,        // history: still on its way when the channel took an event of its service that
                                 // was cached after it
    replies: seq<Reply>)         // history: every reply to a session_start

  predicate DoneIsClosed(b: Broker) { Rank(b.phase) >= 1 }
  predicate Listening(b: Broker) { Rank(b.phase) < 2 }
  predicate ChannelIsClosed(b: Broker) { Rank(b.phase) >= 4 }
  predicate StoreIsClosed(b: Broker) { Rank(b.phase) >= 6 }

  datatype Step =
    // clients
    | Dial(peer: Peer)
    | ClientSends(c: Conn, m: Message)
    | ClientCloses(c: Conn)
    // the accept loop
    | Accept
    | AcceptFails
    // a connection handler
    | Read(c: Conn, host: string, now: int, fails: bool)
    | Send(c: Conn)
    | Eof(c: Conn)
    | CleanUp(c: Conn, now: int, failing: set<int>)
    | Exit(c: Conn)
    // the batch writer
    | Receive(fails: bool)
    | Tick(fails: bool)
    | Drained(fails: bool)
    // retention
    | RetentionTick(cutoff: int, fails: bool)
    | RetentionExit
    // Stop
    | StopNext(fails: bool)

  predicate At(b: Broker, c: Conn, pc: Pc) {
    c < |b.handlers| && b.handlers[c].pc == pc
  }

  predicate IsClientStep(step: Step) {
    step.Dial? || step.ClientSends? || step.ClientCloses?
  }

  predicate IsHandlerStep(step: Step) {
    step.Read? || step.Send? || step.Eof? || step.CleanUp? || step.Exit?
  }

  predicate IsWriterStep(step: Step) {
    step.Receive? || step.Tick? || step.Drained?
  }

  predicate Enabled(b: Broker, step: Step) {
    if IsClientStep(step) then
      if step.Dial? then Listening(b) else step.c < |b.handlers| && b.handlers[step.c].peer.connected
    else if IsHandlerStep(step) then HandlerEnabled(b, step)
    else if IsWriterStep(step) then
      && b.writing
      && (step.Receive? ==> b.pipe.queue != [])
      && (step.Drained? ==> b.pipe.queue == [] && ChannelIsClosed(b))
    else if step.Accept? then b.accepting && Listening(b) && b.backlog != []
    else if step.AcceptFails? then b.accepting
    else if step.RetentionTick? then b.retaining
    else if step.RetentionExit? then b.retaining && DoneIsClosed(b)
    else
      && b.phase != Quit && b.phase != CloseFailed
      && (b.phase == Unlistened ==> b.connWg == 0)
      && (b.phase == ChannelClosed ==> b.writerWg == 0)
  }

  predicate HandlerEnabled(b: Broker, step: Step)
    requires IsHandlerStep(step)
  {
    && step.c < |b.handlers|
    && var h := b.handlers[step.c];
       if step.Read? then h.pc.Reading? && h.peer.inbox != []
       else if step.Eof? then h.pc.Reading? && h.peer.inbox == [] && !h.peer.connected
       else if step.Send? then h.pc.Sending?
       else if step.CleanUp? then h.pc.Leaving?
       else h.pc.Cleaned?
  }

  function WriterOf(b: Broker): Writer {
    Writer(b.pipe.batch, b.desk.tables, b.pipe.flushes)
  }

  /** The broker after the writer did w; touching the store once it is closed is a fault. */
  function WithWriter(b: Broker, w: Writer): Broker {
    b.(pipe := b.pipe.(batch := w.batch, flushes := w.flushes),
       desk := b.desk.(tables := w.tables),
       fault := b.fault || (StoreIsClosed(b) && w.flushes != b.pipe.flushes))
  }

  function WithHandler(b: Broker, c: Conn, h: Handler): Broker
    requires c < |b.handlers|
  {
    b.(handlers := b.handlers[c := h])
  }

  /** The next frame is off the wire. */
  function Consumed(b: Broker, c: Conn): Broker
    requires c < |b.handlers| && b.handlers[c].peer.inbox != []
  {
    var h := b.handlers[c];
    WithHandler(b, c, h.(peer := h.peer.(inbox := h.peer.inbox[1..])))
  }

  function Registered(b: Broker, c: Conn, m: O.StartMessage, host: string, now: int, fails: bool): Broker {
    b.(desk := O.Start(b.desk, c, m, host, now, fails),
       fault := b.fault || StoreIsClosed(b),
       replies := if fails then b.replies else b.replies + [Reply(c, FormatInt(b.desk.tables.lastSession + 1))])
  }

  function CachedLog(b: Broker, c: Conn, m: LogMessage): Broker
    requires c < |b.handlers|
  {
    var item := Item(c, b.handlers[c].logs, m);
    var h := b.handlers[c].(pc := Sending(item), logs := b.handlers[c].logs + 1);
    WithHandler(b, c, h).(pipe := b.pipe.(cached := b.pipe.cached + [item]))
  }

  /** An ID that does not parse is ignored. */
  function Ended(b: Broker, c: Conn, session: string, ts: int, fails: bool): Broker {
    var id := ParseInt(session);
    if !id.ok then b
    else b.(desk := O.End(b.desk, c, id.value, ts, fails), fault := b.fault || StoreIsClosed(b))
  }

  function Moved(b: Broker, c: Conn, pc: Pc): Broker
    requires c < |b.handlers|
  {
    WithHandler(b, c, b.handlers[c].(pc := pc))
  }

  function ReadNext(b: Broker, c: Conn, host: string, now: int, fails: bool): Broker
    requires At(b, c, Reading) && b.handlers[c].peer.inbox != []
  {
    var b' := Consumed(b, c);
    match b.handlers[c].peer.inbox[0]
    case SessionStart(m) => Registered(b', c, m, host, now, fails)
    case Log(m) => CachedLog(b', c, m)
    case SessionEnd(s, ts) => Ended(b', c, s, ts, fails)
    case Other => b'
    case Broken => Moved(b', c, Leaving)
  }

  predicate InFlight(handlers: seq<Handler>, it: Item) {
    it.conn < |handlers| && handlers[it.conn].pc == Sending(it)
  }

  /** The events of the item's service that were cached before it and have not been offered yet. */
  function Behind(b: Broker, it: Item): set<Item> {
    set x | x in b.pipe.cached && InFlight(b.handlers, x) && x.msg.service == it.msg.service
            && ComesBefore(b.pipe.cached, x, it)
  }

  /** The select with a default branch; on a closed channel it panics. */
  function Offer(b: Broker, c: Conn): Broker
    requires c < |b.handlers| && b.handlers[c].pc.Sending?
  {
    var item := b.handlers[c].pc.item;
    var b' := Moved(b, c, Reading);
    if ChannelIsClosed(b) then b'.(fault := true)
    else if |b.pipe.queue| < EVENT_CH_SIZE then
      b'.(pipe := b.pipe.(queue := b.pipe.queue + [item], accepted := b.pipe.accepted + [item]),
          overtaken := b.overtaken + Behind(b, item))
    else b'.(pipe := b.pipe.(dropped := b.pipe.dropped + [item]))
  }

  function Accepted(b: Broker): Broker
    requires b.backlog != []
  {
    b.(backlog := b.backlog[1..],
       handlers := b.handlers + [Handler(b.backlog[0], Reading, 0)],
       connWg := b.connWg + 1,
       fault := b.fault || b.connWg <= 0)
  }

  /** A failed Accept ends the loop once done is closed, and is retried before. */
  function NotAccepted(b: Broker): Broker {
    if DoneIsClosed(b)
    then b.(accepting := false, connWg := b.connWg - 1, fault := b.fault || b.connWg <= 0)
    else b
  }

  function CleanedUp(b: Broker, c: Conn, now: int, failing: set<int>): Broker
    requires c < |b.handlers|
  {
    Moved(b, c, Cleaned).(
      desk := O.Cleanup(b.desk, c, now, failing),
      fault := b.fault || (StoreIsClosed(b) && O.Listed(b.desk, c) != []))
  }

  function Exited(b: Broker, c: Conn): Broker
    requires c < |b.handlers|
  {
    Moved(b, c, Gone).(connWg := b.connWg - 1, fault := b.fault || b.connWg <= 0)
  }

  function Received(b: Broker, fails: bool): Broker
    requires b.pipe.queue != []
  {
    var b' := WithWriter(b, OnMessage(WriterOf(b), b.pipe.queue[0], fails));
    b'.(pipe := b'.pipe.(queue := b.pipe.queue[1..]))
  }

  function StopPhase(b: Broker, fails: bool): Phase {
    match b.phase
    case Running => Signalled
    case Signalled => Unlistened
    case Unlistened => HandlersDone
    case HandlersDone => ChannelClosed
    case ChannelClosed => WriterDone
    case WriterDone => if fails then CloseFailed else StoreClosed
    case StoreClosed => Quit
    case _ => b.phase
  }

  function ByClient(b: Broker, step: Step): Broker
    requires IsClientStep(step) && Enabled(b, step)
  {
    if step.Dial? then b.(backlog := b.backlog + [step.peer])
    else
      var h := b.handlers[step.c];
      var peer := if step.ClientSends? then h.peer.(inbox := h.peer.inbox + [step.m])
                  else h.peer.(connected := false);
      WithHandler(b, step.c, h.(peer := peer))
  }

  function ByHandler(b: Broker, step: Step): Broker
    requires IsHandlerStep(step) && Enabled(b, step)
  {
    if step.Read? then ReadNext(b, step.c, step.host, step.now, step.fails)
    else if step.Send? then Offer(b, step.c)
    else if step.Eof? then Moved(b, step.c, Leaving)
    else if step.CleanUp? then CleanedUp(b, step.c, step.now, step.failing)
    else Exited(b, step.c)
  }

  function ByWriter(b: Broker, step: Step): Broker
    requires IsWriterStep(step) && Enabled(b, step)
  {
    if step.Receive? then Received(b, step.fails)
    else
      var b' := WithWriter(b, FlushBatch(WriterOf(b), step.fails));
      if step.Tick? then b' else b'.(writing := false, writerWg := b.writerWg - 1)
  }

  /** A prune after Close only gets an error back. */
  function PrunedBy(b: Broker, cutoff: int, fails: bool): Broker {
    if fails || StoreIsClosed(b) then b
    else b.(desk := b.desk.(tables := Pruned(b.desk.tables, cutoff)), cutoff := Highest(b.cutoff, cutoff))
  }

  function Next(b: Broker, step: Step): Broker
    requires Enabled(b, step)
  {
    if IsClientStep(step) then ByClient(b, step)
    else if IsHandlerStep(step) then ByHandler(b, step)
    else if IsWriterStep(step) then ByWriter(b, step)
    else if step.Accept? then Accepted(b)
    else if step.AcceptFails? then NotAccepted(b)
    else if step.RetentionTick? then PrunedBy(b, step.cutoff, step.fails)
    else if step.RetentionExit? then b.(retaining := false)
    else b.(phase := StopPhase(b, step.fails))
  }

  /** Start, after the cache was warmed. */
  function Started(t: Tables, retention: bool): Broker {
    Broker(Running, true, 1, [], [], true, 1, retention, Pipe([], [], [], [], [], []), O.NewDesk(t), t, None, false, {}, [])
  }

  ghost predicate Reaches(b: Broker, steps: seq<Step>, b': Broker)
    decreases |steps|
  {
    if steps == [] then b == b'
    else Enabled(b, steps[0]) && Reaches(Next(b, steps[0]), steps[1..], b')
  }
}
