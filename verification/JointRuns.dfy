/** Any number of clients, each as in Clients, and outsiders, joined with one run of the broker as in Lifecycle. */
module JointRuns {
  import opened Seqs
  import opened Decimal
  import opened Records
  import opened Storage
  import opened SessionBindings
  import C = Clients
  import CS = ClientSafety
  import L = Lifecycle
  import LS = LifecycleSafety
  import O = Ownership
  import BatchWriters

  /**
   A devlog client: the wrapper once Connect and RegisterSession have returned, None before; its service; and which
   of its connections reached this broker, as which of the broker's connections. The others went to brokers before.
  */
  datatype Member = Member(client: Option<C.Client>, service: string, at: map<C.Conn, O.Conn>)

  datatype System = System(broker: L.Broker, members: seq<Member>)

  datatype Move =
    | BrokerMoves(step: L.Step)                         // the broker, and outsiders on connections of their own
    | Arrives(service: string)                          // a new client's Connect
    | Registers(p: nat, callers: nat, reply: string)    // its RegisterSession has the reply, or failed ("")
    | Acts(p: nat, action: C.Step, here: bool)          // a dial in a reconnect finds this broker or another
    | Delivers(p: nat, k: C.Conn, m: L.Message)         // something written on connection k arrives

  ghost function Mine(s: System): set<O.Conn> {
    set p, k | 0 <= p < |s.members| && k in s.members[p].at :: s.members[p].at[k]
  }

  function NewConn(b: L.Broker): O.Conn {
    |b.handlers| + |b.backlog|
  }

  function DialStep(): L.Step {
    L.Dial(L.Peer([], true))
  }

  function WireMessage(service: string, w: C.Write): LogMessage {
    LogMessage(service, w.session, w.line.timestamp, w.line.stream, w.line.message)
  }

  /** What connection k can hand to the broker: a log or a session_end written on it, a session_start, or broken bytes. */
  ghost predicate Carries(mb: Member, k: C.Conn, m: L.Message) {
    match m
    case Log(x) =>
      && mb.client.Some?
      && exists w :: w in mb.client.value.link.written && w.conn == k && x == WireMessage(mb.service, w)
    case SessionEnd(session, ts) =>
      && mb.client.Some?
      && exists e :: e in mb.client.value.link.ended && e.conn == k && session == e.session && ts == e.timestamp
    case SessionStart(start) => start.service == mb.service
    case Other => false
    case Broken => true
  }

  predicate DialsIn(c: C.Client, step: C.Step) {
    step.Advance? && step.i < |c.loops| && c.loops[step.i].Dialing? && step.ok
  }

  predicate GetsReply(c: C.Client, step: C.Step) {
    step.Advance? && step.i < |c.loops| && c.loops[step.i].Registering? && step.ok
  }

  ghost predicate CanAct(s: System, p: nat, step: C.Step, here: bool) {
    && p < |s.members| && s.members[p].client.Some?
    && var mb := s.members[p];
       var c := mb.client.value;
       && C.Enabled(c, step)
       && (here ==> DialsIn(c, step) && L.Listening(s.broker))
       && (GetsReply(c, step) && c.loops[step.i].conn in mb.at ==>
             L.Reply(mb.at[c.loops[step.i].conn], step.reply) in s.broker.replies)
  }

  ghost predicate Enabled(s: System, move: Move) {
    match move
    case BrokerMoves(step) => L.Enabled(s.broker, step) && (step.ClientSends? ==> step.c !in Mine(s))
    case Arrives(_) => L.Listening(s.broker)
    case Registers(p, _, reply) =>
      && p < |s.members| && s.members[p].client.None? && 0 in s.members[p].at
      && (reply == "" || L.Reply(s.members[p].at[0], reply) in s.broker.replies)
    case Acts(p, step, here) => CanAct(s, p, step, here)
    case Delivers(p, k, m) =>
      && p < |s.members| && k in s.members[p].at && Carries(s.members[p], k, m)
      && L.Enabled(s.broker, L.ClientSends(s.members[p].at[k], m))
  }

  ghost function Next(s: System, move: Move): System
    requires Enabled(s, move)
  {
    match move
    case BrokerMoves(step) => s.(broker := L.Next(s.broker, step))
    case Arrives(service) =>
      System(L.Next(s.broker, DialStep()), s.members + [Member(None, service, map[0 := NewConn(s.broker)])])
    case Registers(p, callers, reply) =>
      s.(members := s.members[p := s.members[p].(client := Some(C.Started(callers, true, reply)))])
    case Acts(p, step, here) =>
      var mb := s.members[p];
      var c := mb.client.value;
      var mb' := mb.(client := Some(C.Next(c, step)));
      if here then
        System(L.Next(s.broker, DialStep()), s.members[p := mb'.(at := mb.at[c.conns := NewConn(s.broker)])])
      else s.(members := s.members[p := mb'])
    case Delivers(p, k, m) => s.(broker := L.Next(s.broker, L.ClientSends(s.members[p].at[k], m)))
  }

  /** A client that was there before this broker, in any state a run of its own can leave it in. */
  ghost predicate FromBefore(mb: Member) {
    && mb.at == map[] && mb.client.Some?
    && exists callers, session, steps :: C.Reaches(C.Started(callers, true, session), steps, mb.client.value)
  }

  ghost predicate Initial(s: System) {
    && (exists t, retention :: WellFormed(t) && s.broker == L.Started(t, retention))
    && forall p :: 0 <= p < |s.members| ==> FromBefore(s.members[p])
  }

  ghost predicate Reaches(s: System, moves: seq<Move>, s': System)
    decreases |moves|
  {
    if moves == [] then s == s'
    else Enabled(s, moves[0]) && Reaches(Next(s, moves[0]), moves[1..], s')
  }

  // ---------------------------------------------------------------------------------------------

  ghost predicate HeldFor(session: string, k: C.Conn, c: O.Conn, d: O.Desk) {
    IssuedOn(session, c, d) || (k == 0 && session == "")
  }

  /** The IDs a client holds from this broker were minted on the connections it holds them for. */
  ghost predicate MemberInv(mb: Member, d: O.Desk) {
    if mb.client.None? then mb.at.Keys == {0}
    else
      var c := mb.client.value;
      && CS.Inv(c) && c.registers
      && forall k :: k in mb.at ==> k < c.conns && (k in c.minted ==> HeldFor(c.minted[k], k, mb.at[k], d))
  }

  ghost predicate AllMine(b: L.Broker, mine: set<O.Conn>) {
    forall c: O.Conn :: c < NewConn(b) ==> c in mine
  }

  ghost predicate Inv(s: System) {
    && LS.Inv(s.broker) && RepliesIssued(s.broker.replies, s.broker.desk)
    && OwnTraffic(s.broker, Mine(s), s.broker.desk)
    && (AllMine(s.broker, Mine(s)) ==> s.broker.desk.foreign == {})
    && forall p :: 0 <= p < |s.members| ==> MemberInv(s.members[p], s.broker.desk)
  }

  lemma MemberStays(mb: Member, d: O.Desk, d': O.Desk)
    requires MemberInv(mb, d) && OwnerGrows(d, d')
    ensures MemberInv(mb, d')
  {
    hide CS.Inv, IssuedOn, OwnerGrows;
    if mb.client.Some? {
      var c := mb.client.value;
      forall k | k in mb.at && k in c.minted ensures HeldFor(c.minted[k], k, mb.at[k], d') {
        if IssuedOn(c.minted[k], mb.at[k], d) {
          IssuedStays(c.minted[k], mb.at[k], d, d');
        }
      }
    }
  }

  // ---------------------------------------------------------------------------------------------
  // No client's session_end is foreign

  /** The ID was minted on the connection. */
  predicate Owns(d: O.Desk, c: O.Conn, id: int) {
    id in d.owner && d.owner[id] == c
  }

  /** The ID a text names is the one it was printed from, or it does not parse at all. */
  lemma IssuedParses(session: string, c: O.Conn, d: O.Desk)
    requires Named(session, c, d) && O.ListsAgree(d)
    ensures var id := ParseInt(session); id.ok ==> Owns(d, c, id.value)
    ensures d.tables.lastSession <= MAX_INT64 && session != "" ==> ParseInt(session).ok
    ensures session == "" ==> ParseInt(session) == Parsed(0, false)
  {
    if session == "" {
      return;
    }
    var id :| id in d.owner && d.owner[id] == c && session == FormatInt(id);
    assert d.base < id <= d.tables.lastSession;
    ParseOfFormat(id);
  }

  lemma ReadKeepsForeign(b: L.Broker, c: O.Conn, host: string, now: int, fails: bool)
    requires O.ListsAgree(b.desk) && L.At(b, c, L.Reading) && b.handlers[c].peer.inbox != []
    requires var m := b.handlers[c].peer.inbox[0]; m.SessionEnd? ==> Named(m.session, c, b.desk)
    ensures L.ReadNext(b, c, host, now, fails).desk.foreign == b.desk.foreign
  {
    hide O.ListsAgree, IssuedOn;
    var m := b.handlers[c].peer.inbox[0];
    if m.SessionEnd? {
      IssuedParses(m.session, c, b.desk);
    }
  }

  lemma StepKeepsForeign(b: L.Broker, step: L.Step)
    requires O.ListsAgree(b.desk) && L.Enabled(b, step)
    requires step.Read? && b.handlers[step.c].peer.inbox[0].SessionEnd? ==>
               Named(b.handlers[step.c].peer.inbox[0].session, step.c, b.desk)
    ensures L.Next(b, step).desk.foreign == b.desk.foreign
  {
    hide L.ReadNext, O.ListsAgree, IssuedOn;
    if step.CleanUp? {
      O.CloseAllForgets(b.desk.(tracked := b.desk.tracked - {step.c}), O.Listed(b.desk, step.c), step.now, step.failing);
    } else if step.Read? {
      ReadKeepsForeign(b, step.c, step.host, step.now, step.fails);
    }
  }

  lemma NoneForeignAfter(b: L.Broker, mine: set<O.Conn>, step: L.Step)
    requires LS.Inv(b) && OwnTraffic(b, mine, b.desk) && L.Enabled(b, step)
    requires AllMine(b, mine) && b.desk.foreign == {}
    ensures L.Next(b, step).desk.foreign == {}
  {
    hide LS.Inv, L.Next;
    AgreeOf(b);
    if step.Read? {
      HeadIsOwn(b, mine, step.c, b.desk);
    }
    StepKeepsForeign(b, step);
  }

  lemma AgreeOf(b: L.Broker)
    requires LS.Inv(b)
    ensures O.Agree(b.desk) && O.ListsAgree(b.desk)
  {
  }

  // ---------------------------------------------------------------------------------------------
  // Each move keeps the invariant

  lemma ReadKeepsConns(b: L.Broker, c: O.Conn, host: string, now: int, fails: bool)
    requires L.At(b, c, L.Reading) && b.handlers[c].peer.inbox != []
    ensures NewConn(L.ReadNext(b, c, host, now, fails)) == NewConn(b)
  {
    hide O.Start, O.End, ParseInt;
  }

  /** Connections are never forgotten. */
  lemma ConnsStay(b: L.Broker, step: L.Step)
    requires L.Enabled(b, step)
    ensures NewConn(L.Next(b, step)) == NewConn(b) + if step.Dial? then 1 else 0
  {
    hide L.ReadNext, O.Cleanup, L.Behind;
    if step.Read? {
      ReadKeepsConns(b, step.c, step.host, step.now, step.fails);
    }
  }

  /** A step of the broker, or of anyone outside who sends nothing on a client's connection but its own messages. */
  lemma BrokerStepKeeps(s: System, step: L.Step)
    requires Inv(s) && L.Enabled(s.broker, step)
    requires step.ClientSends? && step.c in Mine(s) ==> OwnMessage(step.m, step.c, s.broker.desk)
    ensures Inv(s.(broker := L.Next(s.broker, step)))
  {
    var b, mine := s.broker, Mine(s);
    var b' := L.Next(b, step);
    hide LS.Inv, OwnTraffic, RepliesIssued, OwnerGrows, OwnMessage, MemberInv, L.Next, L.Enabled;
    AgreeOf(b);
    LS.StepKeepsInv(b, step);
    StepKeepsReplies(b, step);
    StepKeepsTraffic(b, mine, step);
    StepGrowsOwner(b, step);
    ConnsStay(b, step);
    if AllMine(b', mine) {
      NoneForeignAfter(b, mine, step);
    }
    forall p | 0 <= p < |s.members| ensures MemberInv(s.members[p], b'.desk) {
      MemberStays(s.members[p], b.desk, b'.desk);
    }
    assert Mine(s.(broker := b')) == mine;
  }

  /** A new connection belongs to a client from the start. */
  lemma DialKeepsTraffic(b: L.Broker, mine: set<O.Conn>)
    requires LS.Inv(b) && OwnTraffic(b, mine, b.desk) && L.Listening(b)
    ensures var b' := L.Next(b, DialStep());
      OwnTraffic(b', mine + {NewConn(b)}, b'.desk) && b'.desk == b.desk && NewConn(b') == NewConn(b) + 1
  {
    var b' := L.Next(b, DialStep());
    CachedIsRead(b);
    hide LS.Inv;
    forall i | 0 <= i < |b'.backlog| && |b'.handlers| + i in mine + {NewConn(b)} ensures b'.backlog[i].inbox == [] {
      assert i < |b.backlog| ==> b'.backlog[i] == b.backlog[i];
    }
  }

  lemma CachedIsRead(b: L.Broker)
    requires LS.Inv(b)
    ensures forall it :: it in b.pipe.cached ==> it.conn < |b.handlers|
  {
    assert LS.OrderInv(b.pipe, b.handlers);
  }

  lemma DialKeepsRest(s: System, s': System)
    requires Inv(s) && L.Listening(s.broker) && s'.broker == L.Next(s.broker, DialStep())
    requires Mine(s') == Mine(s) + {NewConn(s.broker)}
    requires forall p :: 0 <= p < |s'.members| ==> MemberInv(s'.members[p], s.broker.desk)
    ensures Inv(s')
  {
    var b := s.broker;
    hide LS.Inv, OwnTraffic, MemberInv, RepliesIssued, L.Next, Mine;
    DialKeepsTraffic(b, Mine(s));
    LS.StepKeepsInv(b, DialStep());
    DialKeepsReplies(b);
    if AllMine(s'.broker, Mine(s')) {
      forall c: O.Conn | c < NewConn(b) ensures c in Mine(s) {
        assert c in Mine(s');
      }
    }
  }

  lemma DialKeepsReplies(b: L.Broker)
    requires L.Listening(b)
    ensures L.Enabled(b, DialStep()) && L.Next(b, DialStep()).replies == b.replies
  {
  }

  lemma ArrivesKeeps(s: System, service: string)
    requires Inv(s) && Enabled(s, Arrives(service))
    ensures Inv(Next(s, Arrives(service)))
  {
    hide LS.Inv, L.Next, OwnTraffic, RepliesIssued;
    var s', n := Next(s, Arrives(service)), |s.members|;
    var mine, added := Mine(s), NewConn(s.broker);
    forall c: O.Conn ensures c in Mine(s') <==> c in mine + {added} {
      if c in mine {
        var p, k :| 0 <= p < n && k in s.members[p].at && s.members[p].at[k] == c;
        assert s'.members[p] == s.members[p];
      }
      assert 0 in s'.members[n].at && s'.members[n].at[0] == added;
    }
    DialKeepsRest(s, s');
  }

  lemma RegistersKeeps(s: System, p: nat, callers: nat, reply: string)
    requires Inv(s) && Enabled(s, Registers(p, callers, reply))
    ensures Inv(Next(s, Registers(p, callers, reply)))
  {
    hide LS.Inv, OwnTraffic, CS.Inv, IssuedOn;
    var s' := Next(s, Registers(p, callers, reply));
    CS.StartedInv(callers, true, reply);
    SameConnections(s, s');
  }

  /** Moves that bring no new connection leave the clients' connections what they were. */
  lemma SameConnections(s: System, s': System)
    requires |s'.members| == |s.members| && forall p :: 0 <= p < |s.members| ==> s'.members[p].at == s.members[p].at
    ensures Mine(s') == Mine(s)
  {
    forall c: O.Conn ensures c in Mine(s') <==> c in Mine(s) {
      if c in Mine(s) {
        var p, k :| 0 <= p < |s.members| && k in s.members[p].at && s.members[p].at[k] == c;
        assert k in s'.members[p].at && s'.members[p].at[k] == c;
      }
    }
  }

  function MintedAfter(c: C.Client, pc: C.LoopPc, ok: bool, reply: string): map<C.Conn, string> {
    if pc.Registering? && ok then c.minted[pc.conn := reply] else c.minted
  }

  lemma DialledStep(c: C.Client, i: nat, ok: bool)
    requires i < |c.loops|
    ensures var c' := C.Dialled(c, i, ok); c'.conns == c.conns + (if ok then 1 else 0) && c'.minted == c.minted
  {
  }

  lemma RegisteredStep(c: C.Client, i: nat, ok: bool, reply: string)
    requires i < |c.loops| && c.loops[i].Registering?
    ensures var c' := C.Registered(c, i, ok, reply);
      c'.conns == c.conns && c'.minted == MintedAfter(c, c.loops[i], ok, reply)
  {
  }

  lemma ConnectingStep(c: C.Client, i: nat, ok: bool, reply: string)
    requires i < |c.loops| && C.IsConnecting(c.loops[i])
    ensures var c' := C.Connecting(c, i, ok, reply);
      && c'.conns == c.conns + (if c.loops[i].Dialing? && ok then 1 else 0)
      && c'.minted == MintedAfter(c, c.loops[i], ok, reply)
  {
    hide C.Dropped, C.Swapped, C.Dialled, C.Registered;
    if c.loops[i].Dialing? {
      DialledStep(c, i, ok);
    } else if c.loops[i].Registering? {
      RegisteredStep(c, i, ok, reply);
    }
  }

  lemma FlushingStep(c: C.Client, i: nat, ok: bool)
    requires i < |c.loops|
    ensures var c' := C.Flushing(c, i, ok); c'.conns == c.conns && c'.minted == c.minted
  {
    hide C.FlushedOne, C.WithDrain;
    FlushedOneStep(c, i, ok);
  }

  lemma FlushedOneStep(c: C.Client, i: nat, ok: bool)
    requires i < |c.loops|
    ensures var c' := C.FlushedOne(c, i, ok); c'.conns == c.conns && c'.minted == c.minted
  {
  }

  /** What one step of a client does to its connections and to the IDs it holds for them. */
  lemma ClientStep(c: C.Client, step: C.Step)
    requires C.Enabled(c, step)
    ensures step.Advance? ==> step.i < |c.loops|
    ensures var c' := C.Next(c, step);
      && c'.conns == c.conns + (if DialsIn(c, step) then 1 else 0)
      && c'.minted == if step.Advance? then MintedAfter(c, c.loops[step.i], step.ok, step.reply) else c.minted
  {
    hide C.Connecting, C.Flushing, C.Encoded, C.EndEncoded, C.Shut, C.WithPush, C.Overtook, C.Submitted;
    if step.Advance? {
      if C.IsConnecting(c.loops[step.i]) {
        ConnectingStep(c, step.i, step.ok, step.reply);
      } else {
        FlushingStep(c, step.i, step.ok);
      }
    }
  }

  lemma ActKeepsMember(s: System, p: nat, step: C.Step, here: bool)
    requires CanAct(s, p, step, here) && MemberInv(s.members[p], s.broker.desk)
    requires RepliesIssued(s.broker.replies, s.broker.desk)
    ensures MemberInv(Next(s, Acts(p, step, here)).members[p], s.broker.desk)
  {
    hide L.Next, L.Enabled, C.Next, C.Enabled, IssuedOn;
    var mb := s.members[p];
    var c := mb.client.value;
    MintedAreDialled(c);
    hide CS.Inv;
    ClientStep(c, step);
    CS.StepKeepsInv(c, step);
    if GetsReply(c, step) && c.loops[step.i].conn in mb.at {
      var r := L.Reply(mb.at[c.loops[step.i].conn], step.reply);
      assert r in s.broker.replies && IssuedOn(r.session, r.conn, s.broker.desk);
    }
  }

  lemma MintedAreDialled(c: C.Client)
    requires CS.Inv(c)
    ensures CS.LoopInv(c) && forall k :: k in c.minted ==> k < c.conns
  {
  }

  /** Moves of the clients alone need only look at the clients. */
  lemma MembersKeep(s: System, s': System)
    requires Inv(s) && s'.broker == s.broker && Mine(s') == Mine(s)
    requires forall p :: 0 <= p < |s'.members| ==> MemberInv(s'.members[p], s.broker.desk)
    ensures Inv(s')
  {
    hide LS.Inv, OwnTraffic, MemberInv, RepliesIssued, Mine;
  }

  lemma ActsKeeps(s: System, p: nat, step: C.Step, here: bool)
    requires Inv(s) && Enabled(s, Acts(p, step, here))
    ensures Inv(Next(s, Acts(p, step, here)))
  {
    hide LS.Inv, L.Next, L.Enabled, C.Next, C.Enabled, OwnTraffic, RepliesIssued, MemberInv, Mine;
    var s' := Next(s, Acts(p, step, here));
    ActKeepsMember(s, p, step, here);
    assert forall q :: 0 <= q < |s.members| && q != p ==> s'.members[q] == s.members[q];
    if here {
      NewDialIsMine(s, p, step);
      DialKeepsRest(s, s');
    } else {
      SameConnections(s, s');
      MembersKeep(s, s');
    }
  }

  lemma NewDialIsMine(s: System, p: nat, step: C.Step)
    requires CanAct(s, p, step, true) && MemberInv(s.members[p], s.broker.desk)
    ensures Mine(Next(s, Acts(p, step, true))) == Mine(s) + {NewConn(s.broker)}
  {
    hide L.Next, C.Next, C.Enabled, CS.Inv;
    var s' := Next(s, Acts(p, step, true));
    var k, added := s.members[p].client.value.conns, NewConn(s.broker);
    assert k !in s.members[p].at && s'.members[p].at == s.members[p].at[k := added];
    forall c: O.Conn ensures c in Mine(s') <==> c in Mine(s) + {added} {
      if c in Mine(s) {
        var q, j :| 0 <= q < |s.members| && j in s.members[q].at && s.members[q].at[j] == c;
        assert j in s'.members[q].at && s'.members[q].at[j] == c;
      }
      assert k in s'.members[p].at && s'.members[p].at[k] == added;
    }
  }

  /** What a client writes on a connection to this broker names a session of that connection. */
  lemma CarriedIsOwn(mb: Member, k: C.Conn, m: L.Message, d: O.Desk)
    requires MemberInv(mb, d) && k in mb.at && Carries(mb, k, m)
    ensures OwnMessage(m, mb.at[k], d)
  {
    if m.Log? || m.SessionEnd? {
      var c := mb.client.value;
      assert CS.WireInv(c.registers, c.minted, c.link);
      if k in c.minted {
        HeldIsPinned(c.minted[k], k, mb.at[k], d);
      }
    }
  }

  lemma HeldIsPinned(session: string, k: C.Conn, c: O.Conn, d: O.Desk)
    requires HeldFor(session, k, c, d)
    ensures session != "" || k == 0
  {
  }

  lemma DeliversKeeps(s: System, p: nat, k: C.Conn, m: L.Message)
    requires Inv(s) && Enabled(s, Delivers(p, k, m))
    ensures Inv(Next(s, Delivers(p, k, m)))
  {
    hide LS.Inv, L.Next, L.Enabled, Carries, OwnMessage, MemberInv, OwnTraffic, RepliesIssued, Mine;
    CarriedIsOwn(s.members[p], k, m, s.broker.desk);
    BrokerStepKeeps(s, L.ClientSends(s.members[p].at[k], m));
  }

  lemma MoveKeepsInv(s: System, move: Move)
    requires Inv(s) && Enabled(s, move)
    ensures Inv(Next(s, move))
  {
    hide Inv, L.Next, L.Enabled, C.Next, CanAct, Carries;
    match move
    case BrokerMoves(step) => BrokerStepKeeps(s, step);
    case Arrives(service) => ArrivesKeeps(s, service);
    case Registers(p, callers, reply) => RegistersKeeps(s, p, callers, reply);
    case Acts(p, step, here) => ActsKeeps(s, p, step, here);
    case Delivers(p, k, m) => DeliversKeeps(s, p, k, m);
  }

  lemma FromBeforeInv(mb: Member, d: O.Desk)
    requires FromBefore(mb)
    ensures MemberInv(mb, d)
  {
    var callers, session, steps :| C.Reaches(C.Started(callers, true, session), steps, mb.client.value);
    hide CS.Inv, C.Reaches;
    CS.ReachableInv(callers, true, session, steps, mb.client.value);
  }

  lemma InitialInv(s: System)
    requires Initial(s)
    ensures Inv(s)
  {
    var t, retention :| WellFormed(t) && s.broker == L.Started(t, retention);
    hide LS.Inv, MemberInv, FromBefore;
    LS.StartedInv(t, retention);
    forall p | 0 <= p < |s.members| ensures MemberInv(s.members[p], s.broker.desk) && s.members[p].at == map[] {
      FromBeforeInv(s.members[p], s.broker.desk);
      EarlierHasNone(s.members[p]);
    }
    assert Mine(s) == {};
  }

  lemma EarlierHasNone(mb: Member)
    requires FromBefore(mb)
    ensures mb.at == map[]
  {
  }

  lemma {:induction false} RunKeepsInv(s: System, moves: seq<Move>, s': System)
    requires Inv(s) && Reaches(s, moves, s')
    ensures Inv(s')
    decreases |moves|
  {
    hide Inv, Next, Enabled;
    if moves != [] {
      MoveKeepsInv(s, moves[0]);
      RunKeepsInv(Next(s, moves[0]), moves[1..], s');
    }
  }

  // ---------------------------------------------------------------------------------------------
  // Whole joint runs

  /**
   In every joint run, every event of a client's connection that the broker ever cached, and so every one it ever
   accepted, becomes a record of a session minted on that connection; or of no session (0) if the client had to go on
   without an ID.
  */
  lemma EventsNameTheirConnectionsSession(s0: System, moves: seq<Move>, s: System)
    requires Initial(s0) && Reaches(s0, moves, s) && s.broker.desk.tables.lastSession <= MAX_INT64
    ensures forall it :: (it in s.broker.pipe.cached || it in s.broker.pipe.accepted) && it.conn in Mine(s) ==>
        if it.msg.session == "" then ToRecord(it.msg).sessionId == 0
        else Owns(s.broker.desk, it.conn, ToRecord(it.msg).sessionId)
  {
    InitialInv(s0);
    RunKeepsInv(s0, moves, s);
    var b := s.broker;
    hide Reaches, Initial, LS.Inv, Mine, ParseInt;
    AgreeOf(b);
    forall it | (it in b.pipe.cached || it in b.pipe.accepted) && it.conn in Mine(s)
      ensures if it.msg.session == "" then ToRecord(it.msg).sessionId == 0
              else Owns(b.desk, it.conn, ToRecord(it.msg).sessionId)
    {
      AcceptedIsCached(b, it);
      IssuedParses(it.msg.session, it.conn, b.desk);
    }
  }

  lemma AcceptedIsCached(b: L.Broker, it: BatchWriters.Item)
    requires LS.Inv(b)
    ensures it in b.pipe.accepted ==> it in b.pipe.cached
  {
    assert LS.CountInv(b.pipe, b.handlers);
    assert L.InFlight(b.handlers, it) || !L.InFlight(b.handlers, it);
  }

  /**
   In every joint run, every session_end waiting on a client's connection names a session minted on it, or nothing that
   parses, and then it is ignored.
  */
  lemma EndsNameTheirConnectionsSession(s0: System, moves: seq<Move>, s: System, c: O.Conn, m: L.Message)
    requires Initial(s0) && Reaches(s0, moves, s)
    requires c in Mine(s) && c < |s.broker.handlers| && m in s.broker.handlers[c].peer.inbox && m.SessionEnd?
    ensures ParseInt(m.session).ok ==> Owns(s.broker.desk, c, ParseInt(m.session).value)
    ensures s.broker.desk.tables.lastSession <= MAX_INT64 && m.session != "" ==> ParseInt(m.session).ok
  {
    InitialInv(s0);
    RunKeepsInv(s0, moves, s);
    hide Reaches, Initial, LS.Inv, Mine;
    AgreeOf(s.broker);
    assert OwnMessage(m, c, s.broker.desk);
    IssuedParses(m.session, c, s.broker.desk);
  }

  /**
   While only clients have connected, no session_end was ever foreign: every ID the tracker lists is one the manager
   still holds, and no line is orphaned by another connection's session_end.
  */
  lemma ClientsAloneNeverEndForeign(s0: System, moves: seq<Move>, s: System)
    requires Initial(s0) && Reaches(s0, moves, s) && AllMine(s.broker, Mine(s))
    ensures s.broker.desk.foreign == {}
  {
    InitialInv(s0);
    RunKeepsInv(s0, moves, s);
  }
}
