/** From what a client sent to what was cached: the read loop takes every frame, once, in order. */
module ReadLoop {
  import opened Seqs
  import opened Records
  import opened Storage
  import opened BatchWriters
  import opened Lifecycle
  import O = Ownership

  // Everything here is measured against the clients' own steps: Transcript collects from a run alone what was sent on
  // each connection, in the order the connections were dialled.

  /** What had been sent on each connection, after one more step. */
  function Heard(got: seq<seq<Message>>, step: Step): seq<seq<Message>> {
    if step.Dial? then got + [step.peer.inbox]
    else if step.ClientSends? && step.c < |got| then got[step.c := got[step.c] + [step.m]]
    else got
  }

  function Transcript(got: seq<seq<Message>>, steps: seq<Step>): seq<seq<Message>>
    decreases |steps|
  {
    if steps == [] then got else Transcript(Heard(got, steps[0]), steps[1..])
  }

  function LogsOf(ms: seq<Message>): seq<LogMessage> {
    if ms == [] then []
    else
      var last := ms[|ms| - 1];
      LogsOf(ms[..|ms| - 1]) + if last.Log? then [last.msg] else []
  }

  /** The frames before the first that is not JSON. */
  function Readable(ms: seq<Message>): seq<Message> {
    if ms == [] || ms[0].Broken? then [] else [ms[0]] + Readable(ms[1..])
  }

  function OnConn(c: Conn): Item -> bool {
    (it: Item) => it.conn == c
  }

  /** The events of connection c that carry these messages. */
  function Events(c: Conn, logs: seq<LogMessage>): seq<Item> {
    seq(|logs|, i requires 0 <= i < |logs| => Item(c, i, logs[i]))
  }

  /** The frames taken off the wire: what was sent less what is still unread. */
  function Taken(h: Handler, sent: seq<Message>): seq<Message>
    requires |h.peer.inbox| <= |sent|
  {
    sent[..|sent| - |h.peer.inbox|]
  }

  predicate InLoop(pc: Pc) {
    pc.Reading? || pc.Sending?
  }

  /** The loop goes on until a frame is not JSON, or the client has hung up and everything is read. */
  ghost predicate LoopEnds(h: Handler, taken: seq<Message>) {
    if InLoop(h.pc) then Broken !in taken
    else if Broken in taken then taken[|taken| - 1] == Broken && Broken !in taken[..|taken| - 1]
    else h.peer.inbox == [] && !h.peer.connected
  }

  ghost predicate ConnInv(c: Conn, h: Handler, cached: seq<Item>, sent: seq<Message>) {
    && |h.peer.inbox| <= |sent| && sent == Taken(h, sent) + h.peer.inbox
    && Filter(cached, OnConn(c)) == Events(c, LogsOf(Taken(h, sent))) && h.logs == |LogsOf(Taken(h, sent))|
    && LoopEnds(h, Taken(h, sent))
  }

  ghost predicate IntakeInv(b: Broker, got: seq<seq<Message>>) {
    && |got| == |b.handlers| + |b.backlog|
    && (forall c :: 0 <= c < |b.handlers| ==> ConnInv(c, b.handlers[c], b.pipe.cached, got[c]))
    && (forall i :: 0 <= i < |b.backlog| ==> got[|b.handlers| + i] == b.backlog[i].inbox)
    && (forall it :: it in b.pipe.cached ==> it.conn < |b.handlers|)
  }

  lemma LogsSnoc(ms: seq<Message>, m: Message)
    ensures LogsOf(ms + [m]) == LogsOf(ms) + if m.Log? then [m.msg] else []
  {
    assert (ms + [m])[..|ms|] == ms;
  }

  /** One connection moved on, nothing was cached, and nothing arrived. */
  lemma OneConnMoved(b: Broker, got: seq<seq<Message>>, b': Broker, c: Conn)
    requires IntakeInv(b, got) && c < |b.handlers| && b'.backlog == b.backlog && b'.pipe.cached == b.pipe.cached
    requires |b'.handlers| == |b.handlers| && b'.handlers == b.handlers[c := b'.handlers[c]]
    requires ConnInv(c, b'.handlers[c], b.pipe.cached, got[c])
    ensures IntakeInv(b', got)
  {
  }

  lemma IntakeUntouched(b: Broker, got: seq<seq<Message>>, b': Broker)
    requires IntakeInv(b, got)
    requires b'.backlog == b.backlog && b'.pipe.cached == b.pipe.cached && b'.handlers == b.handlers
    ensures IntakeInv(b', got)
  {
  }

  lemma DialIntake(b: Broker, got: seq<seq<Message>>, peer: Peer)
    requires IntakeInv(b, got)
    ensures IntakeInv(b.(backlog := b.backlog + [peer]), got + [peer.inbox])
  {
  }

  lemma ArrivedIntake(b: Broker, got: seq<seq<Message>>, c: Conn, peer: Peer, sent: seq<Message>)
    requires IntakeInv(b, got) && c < |b.handlers|
    requires var h := b.handlers[c]; ConnInv(c, h.(peer := peer), b.pipe.cached, sent)
    ensures IntakeInv(WithHandler(b, c, b.handlers[c].(peer := peer)), got[c := sent])
  {
  }

  lemma ClientIntake(b: Broker, got: seq<seq<Message>>, step: Step)
    requires IntakeInv(b, got) && Enabled(b, step) && IsClientStep(step)
    ensures IntakeInv(Next(b, step), Heard(got, step))
  {
    if step.Dial? {
      DialIntake(b, got, step.peer);
    } else {
      var h, sent := b.handlers[step.c], got[step.c];
      var peer' := Next(b, step).handlers[step.c].peer;
      var sent' := if step.ClientSends? then sent + [step.m] else sent;
      assert ConnInv(step.c, h, b.pipe.cached, sent);
      assert Taken(h.(peer := peer'), sent') == Taken(h, sent);
      ArrivedIntake(b, got, step.c, peer', sent');
      assert got[step.c := sent] == got;
    }
  }

  lemma {:induction false} NoneOnConn(cached: seq<Item>, c: Conn)
    requires forall it :: it in cached ==> it.conn != c
    ensures Filter(cached, OnConn(c)) == []
  {
    if cached != [] {
      NoneOnConn(cached[..|cached| - 1], c);
    }
  }

  lemma AcceptIntake(b: Broker, got: seq<seq<Message>>)
    requires IntakeInv(b, got) && b.backlog != []
    ensures IntakeInv(Accepted(b), got)
  {
    var b', n := Accepted(b), |b.handlers|;
    NoneOnConn(b.pipe.cached, n);
    assert got[n + 0] == b.backlog[0].inbox;
    assert Taken(b'.handlers[n], got[n]) == [];
    assert ConnInv(n, b'.handlers[n], b.pipe.cached, got[n]);
    forall i | 0 <= i < |b'.backlog| ensures got[|b'.handlers| + i] == b'.backlog[i].inbox {
      assert got[n + (i + 1)] == b.backlog[i + 1].inbox;
    }
  }

  /** The next frame: taken, and cached when it is a log. */
  lemma TakenOne(c: Conn, h: Handler, sent: seq<Message>, inbox: seq<Message>)
    requires h.peer.inbox != [] && |h.peer.inbox| <= |sent| && sent == Taken(h, sent) + h.peer.inbox
    requires inbox == h.peer.inbox[1..]
    ensures sent[..|sent| - |inbox|] == Taken(h, sent) + [h.peer.inbox[0]]
    ensures sent == sent[..|sent| - |inbox|] + inbox
  {
    assert h.peer.inbox == [h.peer.inbox[0]] + inbox;
  }

  lemma EventsSnoc(c: Conn, logs: seq<LogMessage>, m: LogMessage)
    ensures Events(c, logs + [m]) == Events(c, logs) + [Item(c, |logs|, m)]
  {
  }

  lemma CachedOne(cached: seq<Item>, it: Item, c: Conn)
    ensures Filter(cached + [it], OnConn(c)) == Filter(cached, OnConn(c)) + if it.conn == c then [it] else []
  {
    assert (cached + [it])[..|cached|] == cached;
  }

  lemma LogHandler(b: Broker, c: Conn, host: string, now: int, fails: bool)
    requires At(b, c, Reading) && b.handlers[c].peer.inbox != [] && b.handlers[c].peer.inbox[0].Log?
    ensures var b', h := ReadNext(b, c, host, now, fails), b.handlers[c];
      var it := Item(c, h.logs, h.peer.inbox[0].msg);
      && b'.backlog == b.backlog && b'.pipe.cached == b.pipe.cached + [it]
      && b'.handlers == b.handlers[c := h.(peer := h.peer.(inbox := h.peer.inbox[1..]),
                                           pc := Sending(it), logs := h.logs + 1)]
  {
  }

  lemma ConnAfterLog(c: Conn, h: Handler, h': Handler, cached: seq<Item>, it: Item, sent: seq<Message>)
    requires ConnInv(c, h, cached, sent) && InLoop(h.pc) && h.peer.inbox != [] && h.peer.inbox[0].Log?
    requires it == Item(c, h.logs, h.peer.inbox[0].msg)
    requires h' == h.(peer := h.peer.(inbox := h.peer.inbox[1..]), pc := Sending(it), logs := h.logs + 1)
    ensures ConnInv(c, h', cached + [it], sent)
  {
    hide Filter, LogsOf;
    TakenOne(c, h, sent, h'.peer.inbox);
    LogsSnoc(Taken(h, sent), h.peer.inbox[0]);
    EventsSnoc(c, LogsOf(Taken(h, sent)), it.msg);
    CachedOne(cached, it, c);
  }

  lemma LogIntake(b: Broker, got: seq<seq<Message>>, c: Conn, host: string, now: int, fails: bool)
    requires IntakeInv(b, got) && At(b, c, Reading) && b.handlers[c].peer.inbox != [] && b.handlers[c].peer.inbox[0].Log?
    ensures IntakeInv(ReadNext(b, c, host, now, fails), got)
  {
    LogHandler(b, c, host, now, fails);
    hide ReadNext, Filter, Events, LogsOf, LoopEnds;
    var h, b' := b.handlers[c], ReadNext(b, c, host, now, fails);
    var it := Item(c, h.logs, h.peer.inbox[0].msg);
    ConnAfterLog(c, h, b'.handlers[c], b.pipe.cached, it, got[c]);
    forall d | 0 <= d < |b.handlers| && d != c ensures ConnInv(d, b'.handlers[d], b'.pipe.cached, got[d]) {
      assert ConnInv(d, b.handlers[d], b.pipe.cached, got[d]);
      CachedOne(b.pipe.cached, it, d);
    }
  }

  lemma OtherIntake(b: Broker, got: seq<seq<Message>>, c: Conn, host: string, now: int, fails: bool)
    requires IntakeInv(b, got) && At(b, c, Reading) && b.handlers[c].peer.inbox != [] && !b.handlers[c].peer.inbox[0].Log?
    ensures IntakeInv(ReadNext(b, c, host, now, fails), got)
  {
    var h, b', m := b.handlers[c], ReadNext(b, c, host, now, fails), b.handlers[c].peer.inbox[0];
    assert ConnInv(c, h, b.pipe.cached, got[c]);
    OtherHandler(b, c, host, now, fails);
    hide ReadNext;
    TakenOne(c, h, got[c], h.peer.inbox[1..]);
    LogsSnoc(Taken(h, got[c]), m);
    assert ConnInv(c, b'.handlers[c], b.pipe.cached, got[c]);
    OneConnMoved(b, got, b', c);
  }

  lemma OtherHandler(b: Broker, c: Conn, host: string, now: int, fails: bool)
    requires At(b, c, Reading) && b.handlers[c].peer.inbox != [] && !b.handlers[c].peer.inbox[0].Log?
    ensures var b', h := ReadNext(b, c, host, now, fails), b.handlers[c];
      && b'.backlog == b.backlog && b'.pipe == b.pipe
      && b'.handlers == b.handlers[c := h.(peer := h.peer.(inbox := h.peer.inbox[1..]),
                                           pc := if h.peer.inbox[0].Broken? then Leaving else Reading)]
  {
    hide O.Start, O.End;
  }

  lemma HandlerIntake(b: Broker, got: seq<seq<Message>>, step: Step)
    requires IntakeInv(b, got) && Enabled(b, step) && IsHandlerStep(step) && !step.Read?
    ensures IntakeInv(Next(b, step), got)
  {
    HandlerMoves(b, step);
    hide Next;
    var h, h' := b.handlers[step.c], Next(b, step).handlers[step.c];
    assert ConnInv(step.c, h, b.pipe.cached, got[step.c]);
    assert Taken(h', got[step.c]) == Taken(h, got[step.c]);
    OneConnMoved(b, got, Next(b, step), step.c);
  }

  lemma OfferMoves(b: Broker, c: Conn)
    requires c < |b.handlers| && b.handlers[c].pc.Sending?
    ensures var b' := Offer(b, c);
      b'.backlog == b.backlog && b'.pipe.cached == b.pipe.cached && b'.handlers == Moved(b, c, Reading).handlers
  {
    hide Behind;
  }

  lemma HandlerMoves(b: Broker, step: Step)
    requires Enabled(b, step) && IsHandlerStep(step) && !step.Read?
    ensures var b', h := Next(b, step), b.handlers[step.c];
      && b'.backlog == b.backlog && b'.pipe.cached == b.pipe.cached && |b'.handlers| == |b.handlers|
      && b'.handlers == b.handlers[step.c := b'.handlers[step.c]]
      && b'.handlers[step.c].peer == h.peer && b'.handlers[step.c].logs == h.logs
      && (InLoop(b'.handlers[step.c].pc) <==> InLoop(h.pc) && !step.Eof?)
  {
    hide ReadNext, O.Cleanup, Offer;
    if step.Send? {
      OfferMoves(b, step.c);
    }
  }

  lemma OthersIntake(b: Broker, step: Step)
    requires Enabled(b, step) && !IsClientStep(step) && !IsHandlerStep(step) && !step.Accept?
    ensures var b' := Next(b, step);
      b'.backlog == b.backlog && b'.pipe.cached == b.pipe.cached && b'.handlers == b.handlers
  {
  }

  lemma StepKeepsIntake(b: Broker, got: seq<seq<Message>>, step: Step)
    requires IntakeInv(b, got) && Enabled(b, step)
    ensures IntakeInv(Next(b, step), Heard(got, step))
  {
    hide IntakeInv, ReadNext;
    if IsClientStep(step) {
      ClientIntake(b, got, step);
    } else if step.Read? {
      if b.handlers[step.c].peer.inbox[0].Log? {
        LogIntake(b, got, step.c, step.host, step.now, step.fails);
      } else {
        OtherIntake(b, got, step.c, step.host, step.now, step.fails);
      }
    } else if IsHandlerStep(step) {
      HandlerIntake(b, got, step);
    } else if step.Accept? {
      AcceptIntake(b, got);
    } else {
      OthersIntake(b, step);
      IntakeUntouched(b, got, Next(b, step));
    }
  }

  lemma {:induction false} RunKeepsIntake(b: Broker, got: seq<seq<Message>>, steps: seq<Step>, b': Broker)
    requires IntakeInv(b, got) && Reaches(b, steps, b')
    ensures IntakeInv(b', Transcript(got, steps))
    decreases |steps|
  {
    hide IntakeInv, Next, Enabled;
    if steps != [] {
      StepKeepsIntake(b, got, steps[0]);
      RunKeepsIntake(Next(b, steps[0]), Heard(got, steps[0]), steps[1..], b');
    }
  }

  lemma {:induction false} ReadableOfWhole(ms: seq<Message>)
    requires Broken !in ms
    ensures Readable(ms) == ms
  {
    if ms != [] {
      assert ms == [ms[0]] + ms[1..];
      ReadableOfWhole(ms[1..]);
    }
  }

  lemma {:induction false} ReadableStops(ms: seq<Message>, rest: seq<Message>)
    requires Broken !in ms
    ensures Readable(ms + [Broken] + rest) == ms
  {
    var all := ms + [Broken] + rest;
    if ms == [] {
      assert all[0] == Broken;
    } else {
      assert all[0] == ms[0] && all[1..] == ms[1..] + [Broken] + rest;
      ReadableStops(ms[1..], rest);
    }
  }

  /**
   In every reachable state: the frames a handler has taken are the first ones its client sent, none twice and none
   skipped, and what was cached of the connection is exactly the log messages among them, in order.
  */
  lemma EveryLogReadIsCached(t: Tables, retention: bool, steps: seq<Step>, b: Broker, c: Conn)
    requires Reaches(Started(t, retention), steps, b) && c < |b.handlers|
    ensures var h := b.handlers[c];
      && c < |Transcript([], steps)| && |h.peer.inbox| <= |Transcript([], steps)[c]|
      && var sent := Transcript([], steps)[c]; var taken := sent[..|sent| - |h.peer.inbox|];
         && sent == taken + h.peer.inbox
         && Filter(b.pipe.cached, OnConn(c)) == Events(c, LogsOf(taken)) && h.logs == |LogsOf(taken)|
  {
    RunKeepsIntake(Started(t, retention), [], steps, b);
  }

  /** And once the read loop has ended nothing readable is left out: every log sent before the first bad frame is cached. */
  lemma EverySentLogIsCached(t: Tables, retention: bool, steps: seq<Step>, b: Broker, c: Conn)
    requires Reaches(Started(t, retention), steps, b) && c < |b.handlers| && !InLoop(b.handlers[c].pc)
    ensures c < |Transcript([], steps)|
    ensures Filter(b.pipe.cached, OnConn(c)) == Events(c, LogsOf(Readable(Transcript([], steps)[c])))
  {
    RunKeepsIntake(Started(t, retention), [], steps, b);
    hide Reaches;
    var h, sent := b.handlers[c], Transcript([], steps)[c];
    assert ConnInv(c, h, b.pipe.cached, sent);
    var taken := Taken(h, sent);
    if Broken in taken {
      var init := taken[..|taken| - 1];
      assert sent == init + [Broken] + h.peer.inbox;
      ReadableStops(init, h.peer.inbox);
      LogsSnoc(init, Broken);
      assert taken == init + [Broken];
    } else {
      assert sent == taken;
      ReadableOfWhole(taken);
    }
  }
}
