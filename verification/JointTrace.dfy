/** In joint runs, what the broker caches and the ends it stores are what some client was asked to send. */
module JointTrace {
  import opened Decimal
  import opened Records
  import opened Storage
  import opened JointRuns
  import opened SessionBindings
  import CC = ClientCalls
  import BW = BatchWriters
  import C = Clients
  import CS = ClientSafety
  import L = Lifecycle
  import LS = LifecycleSafety
  import RL = ReadLoop
  import O = Ownership

  // ---------------------------------------------------------------------------------------------
  // Who sent it

  /** One of the clients wrote the message on what the broker knows as connection c. */
  ghost predicate SentBy(mb: Member, c: O.Conn, m: L.Message) {
    exists k :: k in mb.at && mb.at[k] == c && Carries(mb, k, m)
  }

  ghost predicate FromMember(ms: seq<Member>, c: O.Conn, m: L.Message) {
    exists p :: 0 <= p < |ms| && SentBy(ms[p], c, m)
  }

  /** Everything unread and everything cached on the clients' connections was written by them. */
  ghost predicate TrafficInv(b: L.Broker, ms: seq<Member>, mine: set<O.Conn>) {
    && (forall c, m :: c in mine && c < |b.handlers| && m in b.handlers[c].peer.inbox ==> FromMember(ms, c, m))
    && (forall it :: it in b.pipe.cached && it.conn in mine ==> FromMember(ms, it.conn, L.Log(it.msg)))
  }

  /** A session_end with this time was written on the session's own connection. */
  ghost predicate ClientEnded(ms: seq<Member>, c: O.Conn, id: int, ts: int) {
    exists session :: ParseInt(session) == Parsed(id, true) && FromMember(ms, c, L.SessionEnd(session, ts))
  }

  predicate NotCleanedUp(b: L.Broker, c: O.Conn) {
    c < |b.handlers| && !b.handlers[c].pc.Cleaned? && !b.handlers[c].pc.Gone?
  }

  /** The session is one whose end the client alone can have set. */
  predicate OwnBusiness(b: L.Broker, mine: set<O.Conn>, id: int) {
    && id in b.desk.owner && b.desk.owner[id] in mine && id !in b.desk.foreign && NotCleanedUp(b, b.desk.owner[id])
    && id in b.desk.tables.sessions && b.desk.tables.sessions[id].endedAt.Some?
  }

  ghost predicate EndInv(b: L.Broker, ms: seq<Member>, mine: set<O.Conn>) {
    && (forall id :: id in b.desk.owner ==> b.desk.owner[id] < |b.handlers|)
    && forall id :: OwnBusiness(b, mine, id) ==>
         ClientEnded(ms, b.desk.owner[id], id, b.desk.tables.sessions[id].endedAt.value)
  }

  // ---------------------------------------------------------------------------------------------
  // Steps of the broker

  lemma HeadIsFrom(b: L.Broker, ms: seq<Member>, mine: set<O.Conn>, c: O.Conn)
    requires TrafficInv(b, ms, mine) && c < |b.handlers| && b.handlers[c].peer.inbox != [] && c in mine
    ensures FromMember(ms, c, b.handlers[c].peer.inbox[0])
  {
    assert b.handlers[c].peer.inbox[0] in b.handlers[c].peer.inbox;
  }

  lemma NothingNewIsTraced(b: L.Broker, b': L.Broker, ms: seq<Member>, mine: set<O.Conn>)
    requires TrafficInv(b, ms, mine) && NothingNew(b, b')
    ensures TrafficInv(b', ms, mine)
  {
    hide FromMember;
  }

  lemma CachedIsTraced(b: L.Broker, ms: seq<Member>, mine: set<O.Conn>, c: O.Conn, m: LogMessage)
    requires TrafficInv(b, ms, mine) && c < |b.handlers| && (c in mine ==> FromMember(ms, c, L.Log(m)))
    ensures TrafficInv(L.CachedLog(b, c, m), ms, mine)
  {
    hide FromMember;
    var b' := L.CachedLog(b, c, m);
    forall it | it in b'.pipe.cached && it.conn in mine ensures FromMember(ms, it.conn, L.Log(it.msg)) {
      assert it in b.pipe.cached || (it.conn == c && it.msg == m);
    }
  }

  lemma ReadIsTraced(b: L.Broker, ms: seq<Member>, mine: set<O.Conn>, c: O.Conn, host: string, now: int, fails: bool)
    requires TrafficInv(b, ms, mine) && L.At(b, c, L.Reading) && b.handlers[c].peer.inbox != []
    ensures TrafficInv(L.ReadNext(b, c, host, now, fails), ms, mine)
  {
    hide TrafficInv, FromMember;
    var b1, m := L.Consumed(b, c), b.handlers[c].peer.inbox[0];
    if c in mine {
      HeadIsFrom(b, ms, mine, c);
    }
    ConsumedIsNothingNew(b, c);
    NothingNewIsTraced(b, b1, ms, mine);
    if m.Log? {
      CachedIsTraced(b1, ms, mine, c, m.msg);
    } else {
      NothingNewIsTraced(b1, L.ReadNext(b, c, host, now, fails), ms, mine);
    }
  }

  lemma ClientIsTraced(b: L.Broker, ms: seq<Member>, mine: set<O.Conn>, step: L.Step)
    requires TrafficInv(b, ms, mine) && L.Enabled(b, step) && L.IsClientStep(step)
    requires step.ClientSends? && step.c in mine ==> FromMember(ms, step.c, step.m)
    ensures TrafficInv(L.Next(b, step), ms, mine)
  {
    hide FromMember;
    if !step.Dial? {
      var b' := L.Next(b, step);
      forall c, m | c in mine && c < |b'.handlers| && m in b'.handlers[c].peer.inbox ensures FromMember(ms, c, m) {
        assert m in b.handlers[c].peer.inbox || (step.ClientSends? && c == step.c && m == step.m);
      }
    }
  }

  lemma AcceptIsTraced(b: L.Broker, ms: seq<Member>, mine: set<O.Conn>)
    requires TrafficInv(b, ms, mine) && OwnTraffic(b, mine, b.desk) && b.backlog != []
    ensures TrafficInv(L.Accepted(b), ms, mine)
  {
    hide FromMember;
    assert |b.handlers| + 0 in mine ==> b.backlog[0].inbox == [];
  }

  lemma OtherIsTraced(b: L.Broker, ms: seq<Member>, mine: set<O.Conn>, step: L.Step)
    requires TrafficInv(b, ms, mine) && L.Enabled(b, step)
    requires !L.IsHandlerStep(step) && !L.IsClientStep(step) && !step.Accept?
    ensures TrafficInv(L.Next(b, step), ms, mine)
  {
    hide FromMember;
  }

  lemma StepIsTraced(b: L.Broker, ms: seq<Member>, mine: set<O.Conn>, step: L.Step)
    requires TrafficInv(b, ms, mine) && OwnTraffic(b, mine, b.desk) && L.Enabled(b, step)
    requires step.ClientSends? && step.c in mine ==> FromMember(ms, step.c, step.m)
    ensures TrafficInv(L.Next(b, step), ms, mine)
  {
    hide TrafficInv, OwnTraffic, FromMember, L.ReadNext;
    if L.IsClientStep(step) {
      ClientIsTraced(b, ms, mine, step);
    } else if step.Read? {
      ReadIsTraced(b, ms, mine, step.c, step.host, step.now, step.fails);
    } else if L.IsHandlerStep(step) {
      HandlerIsNothingNew(b, step);
      NothingNewIsTraced(b, L.Next(b, step), ms, mine);
    } else if step.Accept? {
      AcceptIsTraced(b, ms, mine);
    } else {
      OtherIsTraced(b, ms, mine, step);
    }
  }

  // ---------------------------------------------------------------------------------------------
  // The stored ends

  lemma {:induction false} CloseAllLeaves(d: O.Desk, ids: seq<int>, now: int, fails: set<int>, id: int)
    requires id !in ids
    ensures var t, t' := d.tables, O.CloseAll(d, ids, now, fails).tables;
      (id in t'.sessions <==> id in t.sessions) && (id in t.sessions ==> t'.sessions[id] == t.sessions[id])
  {
    if ids != [] {
      CloseAllLeaves(d, ids[..|ids| - 1], now, fails, id);
    }
  }

  /** What no step but a session_end and a cleanup does: an end that was not there. */
  ghost predicate SameEnds(b: L.Broker, b': L.Broker) {
    && |b'.handlers| >= |b.handlers|
    && (forall c: O.Conn :: c < |b.handlers| && NotCleanedUp(b', c) ==> NotCleanedUp(b, c))
    && (forall id :: id in b'.desk.owner ==> id in b.desk.owner || b'.desk.owner[id] < |b'.handlers|)
    && (forall id :: id in b'.desk.owner && id in b.desk.owner ==> b'.desk.owner[id] == b.desk.owner[id])
    && (forall id :: id in b.desk.foreign ==> id in b'.desk.foreign)
    && (forall id :: id in b'.desk.owner && id in b'.desk.tables.sessions && b'.desk.tables.sessions[id].endedAt.Some? ==>
          id in b.desk.owner && id in b.desk.tables.sessions
          && b.desk.tables.sessions[id].endedAt == b'.desk.tables.sessions[id].endedAt)
  }

  lemma SameEndsKeep(b: L.Broker, b': L.Broker, ms: seq<Member>, mine: set<O.Conn>)
    requires EndInv(b, ms, mine) && SameEnds(b, b')
    ensures EndInv(b', ms, mine)
  {
    hide ClientEnded;
    forall id | OwnBusiness(b', mine, id)
      ensures ClientEnded(ms, b'.desk.owner[id], id, b'.desk.tables.sessions[id].endedAt.value)
    {
      assert OwnBusiness(b, mine, id);
    }
  }

  lemma StartSameEnds(b: L.Broker, b': L.Broker, c: O.Conn, m: O.StartMessage, host: string, now: int, fails: bool)
    requires O.Agree(b.desk) && c < |b.handlers| && b'.desk == O.Start(b.desk, c, m, host, now, fails)
    requires |b'.handlers| == |b.handlers| && forall k :: 0 <= k < |b.handlers| ==> b'.handlers[k].pc == b.handlers[k].pc
    ensures SameEnds(b, b')
  {
    var id := b.desk.tables.lastSession + 1;
    assert id !in b.desk.owner && id !in b.desk.tables.sessions;
  }

  lemma CleanedKeepsEnds(b: L.Broker, step: L.Step, ms: seq<Member>, mine: set<O.Conn>)
    requires EndInv(b, ms, mine) && O.Agree(b.desk) && L.Enabled(b, step) && step.CleanUp?
    ensures EndInv(L.Next(b, step), ms, mine)
  {
    var b', ids := L.Next(b, step), O.Listed(b.desk, step.c);
    var d1 := b.desk.(tracked := b.desk.tracked - {step.c});
    assert b'.desk == O.CloseAll(d1, ids, step.now, step.failing);
    assert b'.handlers == b.handlers[step.c := b.handlers[step.c].(pc := L.Cleaned)];
    O.CloseAllForgets(d1, ids, step.now, step.failing);
    hide ClientEnded, L.Next, O.CloseAll;
    forall id | OwnBusiness(b', mine, id)
      ensures ClientEnded(ms, b'.desk.owner[id], id, b'.desk.tables.sessions[id].endedAt.value)
    {
      assert b.desk.owner[id] != step.c;
      assert id !in ids;
      CloseAllLeaves(d1, ids, step.now, step.failing, id);
      assert OwnBusiness(b, mine, id);
    }
  }

  lemma EndKeepsEnds(b: L.Broker, b': L.Broker, c: O.Conn, session: string, ts: int, fails: bool,
                     ms: seq<Member>, mine: set<O.Conn>)
    requires EndInv(b, ms, mine) && ParseInt(session).ok
    requires b'.desk == O.End(b.desk, c, ParseInt(session).value, ts, fails)
    requires |b'.handlers| == |b.handlers| && forall k :: 0 <= k < |b.handlers| ==> b'.handlers[k].pc == b.handlers[k].pc
    requires c in mine ==> FromMember(ms, c, L.SessionEnd(session, ts))
    ensures EndInv(b', ms, mine)
  {
    hide FromMember;
    var ended := ParseInt(session).value;
    hide ParseInt;
    forall id | OwnBusiness(b', mine, id)
      ensures ClientEnded(ms, b'.desk.owner[id], id, b'.desk.tables.sessions[id].endedAt.value)
    {
      if id == ended && !fails {
        assert b.desk.owner[id] == c && b'.desk.tables.sessions[id].endedAt == Seqs.Some(ts);
        assert ParseInt(session) == Parsed(id, true);
      } else {
        assert OwnBusiness(b, mine, id);
      }
    }
  }

  lemma ReadShape(b: L.Broker, c: O.Conn, host: string, now: int, fails: bool)
    requires L.At(b, c, L.Reading) && b.handlers[c].peer.inbox != []
    ensures var b', m := L.ReadNext(b, c, host, now, fails), b.handlers[c].peer.inbox[0];
      && |b'.handlers| == |b.handlers|
      && (forall k :: 0 <= k < |b.handlers| && k != c ==> b'.handlers[k].pc == b.handlers[k].pc)
      && !b'.handlers[c].pc.Cleaned? && !b'.handlers[c].pc.Gone?
      && (m.SessionStart? || m.SessionEnd? ==> b'.handlers[c].pc == b.handlers[c].pc)
      && (m.SessionStart? ==> b'.desk == O.Start(b.desk, c, m.start, host, now, fails))
      && (m.SessionEnd? && ParseInt(m.session).ok ==>
            b'.desk == O.End(b.desk, c, ParseInt(m.session).value, m.timestamp, fails))
      && (!m.SessionStart? && !(m.SessionEnd? && ParseInt(m.session).ok) ==> b'.desk == b.desk)
  {
    hide ParseInt, FormatInt, O.Start, O.End;
    var b1 := L.Consumed(b, c);
    assert b1.desk == b.desk && |b1.handlers| == |b.handlers|;
    assert forall k :: 0 <= k < |b.handlers| ==> b1.handlers[k].pc == b.handlers[k].pc;
    hide L.Consumed, L.NotAccepted;
    if b.handlers[c].peer.inbox[0].Log? {
      hide L.Registered, L.Ended;
    } else {
      hide L.CachedLog;
    }
  }

  lemma ReadKeepsEnds(b: L.Broker, ms: seq<Member>, mine: set<O.Conn>, c: O.Conn, host: string, now: int, fails: bool)
    requires EndInv(b, ms, mine) && TrafficInv(b, ms, mine) && O.Agree(b.desk)
    requires L.At(b, c, L.Reading) && b.handlers[c].peer.inbox != []
    ensures EndInv(L.ReadNext(b, c, host, now, fails), ms, mine)
  {
    ReadShape(b, c, host, now, fails);
    if c in mine {
      HeadIsFrom(b, ms, mine, c);
    }
    hide EndInv, L.ReadNext, FromMember, ParseInt, O.Start, O.End, O.Agree, TrafficInv;
    var b', m := L.ReadNext(b, c, host, now, fails), b.handlers[c].peer.inbox[0];
    if m.SessionStart? {
      StartSameEnds(b, b', c, m.start, host, now, fails);
      SameEndsKeep(b, b', ms, mine);
    } else if m.SessionEnd? && ParseInt(m.session).ok {
      EndKeepsEnds(b, b', c, m.session, m.timestamp, fails, ms, mine);
    } else {
      QuietSameEnds(b, b');
      SameEndsKeep(b, b', ms, mine);
    }
  }

  lemma QuietSameEnds(b: L.Broker, b': L.Broker)
    requires b'.desk == b.desk && |b'.handlers| == |b.handlers|
    requires forall c: O.Conn :: c < |b.handlers| && NotCleanedUp(b', c) ==> NotCleanedUp(b, c)
    ensures SameEnds(b, b')
  {
  }

  lemma HandlerSameEnds(b: L.Broker, step: L.Step)
    requires L.Enabled(b, step) && (step.Send? || step.Eof? || step.Exit?)
    ensures var b' := L.Next(b, step);
      && b'.desk == b.desk && |b'.handlers| == |b.handlers|
      && forall c: O.Conn :: c < |b.handlers| && NotCleanedUp(b', c) ==> NotCleanedUp(b, c)
  {
    hide L.ReadNext, L.Offer, L.CleanedUp;
    if step.Send? {
      RL.OfferMoves(b, step.c);
      OfferMintsNothing(b, step.c);
    }
  }

  lemma OthersSameEnds(b: L.Broker, step: L.Step)
    requires L.Enabled(b, step) && !step.Read? && !step.CleanUp?
    requires forall id :: id in b.desk.owner ==> b.desk.owner[id] < |b.handlers|
    ensures SameEnds(b, L.Next(b, step))
  {
    hide L.ByHandler;
    if L.IsHandlerStep(step) {
      HandlerSameEnds(b, step);
      hide L.Next;
      QuietSameEnds(b, L.Next(b, step));
    }
  }

  lemma StepKeepsEnds(b: L.Broker, ms: seq<Member>, mine: set<O.Conn>, step: L.Step)
    requires EndInv(b, ms, mine) && TrafficInv(b, ms, mine) && O.Agree(b.desk) && L.Enabled(b, step)
    ensures EndInv(L.Next(b, step), ms, mine)
  {
    if step.Read? {
      hide EndInv, TrafficInv, O.Agree, L.ReadNext;
      ReadKeepsEnds(b, ms, mine, step.c, step.host, step.now, step.fails);
    } else if step.CleanUp? {
      CleanedKeepsEnds(b, step, ms, mine);
    } else {
      OthersSameEnds(b, step);
      hide L.Next, L.Enabled, SameEnds, OwnBusiness;
      SameEndsKeep(b, L.Next(b, step), ms, mine);
    }
  }

  // ---------------------------------------------------------------------------------------------
  // Moves of the clients

  /** A client only ever writes more, on more connections. */
  ghost predicate MemberGrows(mb: Member, mb': Member) {
    && mb'.service == mb.service && (forall k :: k in mb.at ==> k in mb'.at && mb'.at[k] == mb.at[k])
    && (mb.client.Some? ==>
          && mb'.client.Some?
          && (forall w :: w in mb.client.value.link.written ==> w in mb'.client.value.link.written)
          && (forall e :: e in mb.client.value.link.ended ==> e in mb'.client.value.link.ended))
  }

  ghost predicate MembersGrow(ms: seq<Member>, ms': seq<Member>) {
    |ms| <= |ms'| && forall p :: 0 <= p < |ms| ==> MemberGrows(ms[p], ms'[p])
  }

  lemma SentStaysSent(mb: Member, mb': Member, c: O.Conn, m: L.Message)
    requires MemberGrows(mb, mb') && SentBy(mb, c, m)
    ensures SentBy(mb', c, m)
  {
    var k :| k in mb.at && mb.at[k] == c && Carries(mb, k, m);
    assert Carries(mb', k, m);
  }

  lemma FromStays(ms: seq<Member>, ms': seq<Member>, c: O.Conn, m: L.Message)
    requires MembersGrow(ms, ms') && FromMember(ms, c, m)
    ensures FromMember(ms', c, m)
  {
    hide SentBy, MemberGrows;
    var p :| 0 <= p < |ms| && SentBy(ms[p], c, m);
    SentStaysSent(ms[p], ms'[p], c, m);
  }

  /** The broker is the same, and the connections that are new to the clients carry nothing yet. */
  lemma GrowthKeeps(b: L.Broker, ms: seq<Member>, ms': seq<Member>, mine: set<O.Conn>, mine': set<O.Conn>)
    requires MembersGrow(ms, ms') && TrafficInv(b, ms, mine) && EndInv(b, ms, mine)
    requires forall c :: c in mine' ==> c in mine || c >= |b.handlers|
    requires forall it :: it in b.pipe.cached ==> it.conn < |b.handlers|
    ensures TrafficInv(b, ms', mine') && EndInv(b, ms', mine')
  {
    hide FromMember, MembersGrow;
    forall c, m | FromMember(ms, c, m) ensures FromMember(ms', c, m) {
      FromStays(ms, ms', c, m);
    }
    forall id | OwnBusiness(b, mine', id)
      ensures ClientEnded(ms', b.desk.owner[id], id, b.desk.tables.sessions[id].endedAt.value)
    {
      assert OwnBusiness(b, mine, id);
      assert ClientEnded(ms, b.desk.owner[id], id, b.desk.tables.sessions[id].endedAt.value);
    }
  }

  /** The client's whole history: it is in the state some run of its own left it in. */
  ghost predicate Ran(c: C.Client, steps: seq<C.Step>) {
    exists callers, session :: C.Reaches(C.Started(callers, true, session), steps, c)
  }

  ghost predicate HasRun(mb: Member) {
    mb.client.Some? ==> exists steps :: Ran(mb.client.value, steps)
  }

  ghost predicate TraceInv(s: System) {
    && Inv(s) && TrafficInv(s.broker, s.members, Mine(s)) && EndInv(s.broker, s.members, Mine(s))
    && forall p :: 0 <= p < |s.members| ==> HasRun(s.members[p])
  }

  lemma WritesStay(c: C.Client, step: C.Step)
    requires C.Enabled(c, step)
    ensures var c' := C.Next(c, step);
      && (forall w :: w in c.link.written ==> w in c'.link.written)
      && (forall e :: e in c.link.ended ==> e in c'.link.ended)
  {
    hide C.Connecting, C.Flushing, C.FlagTried, C.WithPush, C.Overtook, C.Submitted;
    if step.Advance? {
      if C.IsConnecting(c.loops[step.i]) {
        CS.ConnectingIsQuiet(c, step.i, step.ok, step.reply);
      } else {
        FlushingWrites(c, step.i, step.ok);
      }
    } else if step.TryFlag? {
      CS.FlagLeavesLink(c, step.t);
    }
  }

  lemma FlushingWrites(c: C.Client, i: nat, ok: bool)
    requires i < |c.loops| && c.loops[i] != C.Dead && !C.IsConnecting(c.loops[i])
    ensures var c' := C.Flushing(c, i, ok);
      && (forall w :: w in c.link.written ==> w in c'.link.written)
      && (forall e :: e in c.link.ended ==> e in c'.link.ended)
  {
    hide C.OneOut, C.GivenUp, C.WithDrain;
  }

  lemma RanOn(c: C.Client, step: C.Step)
    requires (exists steps :: Ran(c, steps)) && C.Enabled(c, step)
    ensures exists steps :: Ran(C.Next(c, step), steps)
  {
    hide C.Next, C.Enabled;
    var steps :| Ran(c, steps);
    var callers, session :| C.Reaches(C.Started(callers, true, session), steps, c);
    C.Further(C.Started(callers, true, session), steps, c, step);
    assert Ran(C.Next(c, step), steps + [step]);
  }

  lemma StartedRan(callers: nat, session: string)
    ensures exists steps :: Ran(C.Started(callers, true, session), steps)
  {
    assert C.Reaches(C.Started(callers, true, session), [], C.Started(callers, true, session));
    assert Ran(C.Started(callers, true, session), []);
  }

  /** What a move of the clients does to the members. */
  lemma MoveGrows(s: System, move: Move)
    requires Enabled(s, move) && forall p :: 0 <= p < |s.members| ==> HasRun(s.members[p])
    requires forall p :: 0 <= p < |s.members| ==> MemberInv(s.members[p], s.broker.desk)
    ensures MembersGrow(s.members, Next(s, move).members)
    ensures forall p :: 0 <= p < |Next(s, move).members| ==> HasRun(Next(s, move).members[p])
  {
    hide L.Next, L.Enabled, C.Next, C.Enabled, CS.Inv, Carries, IssuedOn;
    match move
    case BrokerMoves(_) =>
    case Arrives(_) =>
    case Registers(p, callers, reply) => StartedRan(callers, reply);
    case Acts(p, step, here) =>
      WritesStay(s.members[p].client.value, step);
      RanOn(s.members[p].client.value, step);
    case Delivers(p, k, m) =>
  }

  lemma MineAfter(s: System, move: Move)
    requires Inv(s) && Enabled(s, move)
    ensures forall c :: c in Mine(Next(s, move)) ==> c in Mine(s) || c >= |s.broker.handlers|
  {
    hide LS.Inv, OwnTraffic, RepliesIssued, L.Next, C.Next, C.Enabled, CS.Inv, IssuedOn, Carries;
    var s' := Next(s, move);
    forall c | c in Mine(s') ensures c in Mine(s) || c >= |s.broker.handlers| {
      var p, k :| 0 <= p < |s'.members| && k in s'.members[p].at && s'.members[p].at[k] == c;
      if p < |s.members| && k in s.members[p].at && s.members[p].at[k] == c {
      } else {
        assert c == NewConn(s.broker);
      }
    }
  }

  lemma DialStays(b: L.Broker, ms: seq<Member>, mine: set<O.Conn>)
    requires TrafficInv(b, ms, mine) && EndInv(b, ms, mine) && L.Listening(b)
    ensures L.Enabled(b, DialStep())
    ensures TrafficInv(L.Next(b, DialStep()), ms, mine) && EndInv(L.Next(b, DialStep()), ms, mine)
  {
    hide FromMember, ClientEnded;
    var b' := L.Next(b, DialStep());
    assert b'.handlers == b.handlers && b'.desk == b.desk && b'.pipe == b.pipe;
    forall id | OwnBusiness(b', mine, id) ensures OwnBusiness(b, mine, id) {}
  }

  lemma MoveIsTraced(s: System, move: Move)
    requires TraceInv(s) && Enabled(s, move)
    ensures TraceInv(Next(s, move))
  {
    var s', b, mine := Next(s, move), s.broker, Mine(s);
    MoveKeepsInv(s, move);
    MoveGrows(s, move);
    MineAfter(s, move);
    CachedIsRead(b);
    AgreeOf(b);
    hide Inv, LS.Inv, TrafficInv, EndInv, MembersGrow, HasRun, Mine, L.Next, L.Enabled, C.Next, CanAct, O.Agree;
    GrowthKeeps(b, s.members, s'.members, mine, Mine(s'));
    BrokerPart(s, move);
  }

  lemma OwnTrafficOf(s: System)
    requires Inv(s)
    ensures OwnTraffic(s.broker, Mine(s), s.broker.desk)
  {
  }

  /** And what it does to the broker. */
  lemma BrokerPart(s: System, move: Move)
    requires Inv(s) && Enabled(s, move)
    requires var s' := Next(s, move);
      TrafficInv(s.broker, s'.members, Mine(s')) && EndInv(s.broker, s'.members, Mine(s'))
    ensures var s' := Next(s, move);
      TrafficInv(s'.broker, s'.members, Mine(s')) && EndInv(s'.broker, s'.members, Mine(s'))
  {
    var s' := Next(s, move);
    OwnTrafficOf(s);
    AgreeOfInv(s);
    hide Inv, LS.Inv, TrafficInv, EndInv, Mine, L.Next, L.Enabled, C.Next, CanAct, O.Agree, Carries;
    match move
    case BrokerMoves(step) => BrokerMoveIsTraced(s, step);
    case Arrives(service) => DialStays(s.broker, s'.members, Mine(s'));
    case Registers(p, callers, reply) =>
    case Acts(p, step, here) =>
      if here {
        ActsListening(s, p, step);
        DialStays(s.broker, s'.members, Mine(s'));
      }
    case Delivers(p, k, m) => DeliverIsTraced(s, p, k, m);
  }

  lemma AgreeOfInv(s: System)
    requires Inv(s)
    ensures O.Agree(s.broker.desk)
  {
    AgreeOf(s.broker);
  }

  lemma ActsListening(s: System, p: nat, step: C.Step)
    requires CanAct(s, p, step, true)
    ensures L.Listening(s.broker)
  {
  }

  lemma BrokerMoveIsTraced(s: System, step: L.Step)
    requires Enabled(s, BrokerMoves(step)) && O.Agree(s.broker.desk) && OwnTraffic(s.broker, Mine(s), s.broker.desk)
    requires TrafficInv(s.broker, s.members, Mine(s)) && EndInv(s.broker, s.members, Mine(s))
    ensures var s' := Next(s, BrokerMoves(step));
      TrafficInv(s'.broker, s'.members, Mine(s')) && EndInv(s'.broker, s'.members, Mine(s'))
  {
    hide TrafficInv, EndInv, OwnTraffic, L.Next, L.Enabled, O.Agree;
    SameConnections(s, Next(s, BrokerMoves(step)));
    StepIsTraced(s.broker, s.members, Mine(s), step);
    StepKeepsEnds(s.broker, s.members, Mine(s), step);
  }

  lemma DeliverIsTraced(s: System, p: nat, k: C.Conn, m: L.Message)
    requires Enabled(s, Delivers(p, k, m)) && O.Agree(s.broker.desk) && OwnTraffic(s.broker, Mine(s), s.broker.desk)
    requires TrafficInv(s.broker, s.members, Mine(s)) && EndInv(s.broker, s.members, Mine(s))
    ensures var s' := Next(s, Delivers(p, k, m));
      TrafficInv(s'.broker, s'.members, Mine(s')) && EndInv(s'.broker, s'.members, Mine(s'))
  {
    hide TrafficInv, EndInv, OwnTraffic, L.Next, L.Enabled, O.Agree, Carries;
    var step := L.ClientSends(s.members[p].at[k], m);
    assert SentBy(s.members[p], step.c, m);
    SameConnections(s, Next(s, Delivers(p, k, m)));
    StepIsTraced(s.broker, s.members, Mine(s), step);
    StepKeepsEnds(s.broker, s.members, Mine(s), step);
  }

  lemma InitialTrace(s: System)
    requires Initial(s)
    ensures TraceInv(s)
  {
    InitialInv(s);
    hide Inv, LS.Inv, C.Reaches;
    var t, retention :| WellFormed(t) && s.broker == L.Started(t, retention);
    forall p | 0 <= p < |s.members| ensures HasRun(s.members[p]) {
      var callers, session, steps :| C.Reaches(C.Started(callers, true, session), steps, s.members[p].client.value);
      assert Ran(s.members[p].client.value, steps);
    }
  }

  lemma {:induction false} RunIsTraced(s: System, moves: seq<Move>, s': System)
    requires TraceInv(s) && Reaches(s, moves, s')
    ensures TraceInv(s')
    decreases |moves|
  {
    hide TraceInv, Next, Enabled;
    if moves != [] {
      MoveIsTraced(s, moves[0]);
      RunIsTraced(Next(s, moves[0]), moves[1..], s');
    }
  }

  // ---------------------------------------------------------------------------------------------
  // Whole joint runs

  /** The log message is one of the client's SendLog calls: its service, and the call's own stream, text and time. */
  ghost predicate IsCallOf(mb: Member, m: LogMessage) {
    && mb.client.Some? && m.service == mb.service
    && exists steps, t :: Ran(mb.client.value, steps)
         && CC.Call(t, m.stream, m.message, m.timestamp) in CC.SendCalls(steps, true)
  }

  lemma CarriedIsCall(mb: Member, k: C.Conn, m: LogMessage)
    requires HasRun(mb) && Carries(mb, k, L.Log(m))
    ensures IsCallOf(mb, m)
  {
    var c := mb.client.value;
    var w :| w in c.link.written && w.conn == k && m == WireMessage(mb.service, w);
    var steps :| Ran(c, steps);
    var callers, session :| C.Reaches(C.Started(callers, true, session), steps, c);
    hide C.Reaches, CC.SendCalls;
    CC.EveryWriteIsACall(callers, true, session, steps, c, w);
    assert CC.CallOf(w.line) == CC.Call(w.line.caller, m.stream, m.message, m.timestamp);
  }

  lemma WhoseCall(ms: seq<Member>, c: O.Conn, m: LogMessage)
    requires FromMember(ms, c, L.Log(m)) && forall p :: 0 <= p < |ms| ==> HasRun(ms[p])
    ensures exists p :: 0 <= p < |ms| && IsCallOf(ms[p], m)
  {
    hide IsCallOf, Carries;
    var p :| 0 <= p < |ms| && SentBy(ms[p], c, L.Log(m));
    var k :| k in ms[p].at && ms[p].at[k] == c && Carries(ms[p], k, L.Log(m));
    CarriedIsCall(ms[p], k, m);
  }

  /**
   In every joint run, every event cached or accepted from a client's connection is a line some client was handed: a
   SendLog call of its own history, with that stream, text and time, under the client's service.
  */
  lemma EventsAreClientLines(s0: System, moves: seq<Move>, s: System, it: BW.Item)
    requires Initial(s0) && Reaches(s0, moves, s) && it.conn in Mine(s)
    requires it in s.broker.pipe.cached || it in s.broker.pipe.accepted
    ensures exists p :: 0 <= p < |s.members| && IsCallOf(s.members[p], it.msg)
  {
    InitialTrace(s0);
    RunIsTraced(s0, moves, s);
    hide Reaches, Initial, Inv, Mine, IsCallOf, EndInv, FromMember, HasRun;
    AcceptedWasCached(s, it);
    WhoseCall(s.members, it.conn, it.msg);
  }

  lemma AcceptedWasCached(s: System, it: BW.Item)
    requires Inv(s)
    ensures it in s.broker.pipe.accepted ==> it in s.broker.pipe.cached
  {
    AcceptedIsCached(s.broker, it);
  }

  /** The time is that of one of the client's EndSession calls. */
  ghost predicate IsEndOf(mb: Member, ts: int) {
    mb.client.Some? && exists steps :: Ran(mb.client.value, steps) && ts in CC.EndCalls(steps)
  }

  lemma CarriedIsEnd(mb: Member, k: C.Conn, session: string, ts: int)
    requires HasRun(mb) && Carries(mb, k, L.SessionEnd(session, ts))
    ensures IsEndOf(mb, ts)
  {
    var c := mb.client.value;
    var e :| e in c.link.ended && e.conn == k && session == e.session && ts == e.timestamp;
    var steps :| Ran(c, steps);
    var callers, first :| C.Reaches(C.Started(callers, true, first), steps, c);
    hide C.Reaches, CC.EndCalls;
    CC.WireCarriesTheCalls(callers, true, first, steps, c);
    var i :| 0 <= i < |c.link.ended| && c.link.ended[i] == e;
    assert CC.Times(c.link.ended)[i] == ts;
  }

  lemma WhoseEnd(ms: seq<Member>, c: O.Conn, id: int, ts: int)
    requires ClientEnded(ms, c, id, ts) && forall p :: 0 <= p < |ms| ==> HasRun(ms[p])
    ensures exists p :: 0 <= p < |ms| && IsEndOf(ms[p], ts)
  {
    hide IsEndOf, Carries, ParseInt;
    var session :| ParseInt(session) == Parsed(id, true) && FromMember(ms, c, L.SessionEnd(session, ts));
    var p :| 0 <= p < |ms| && SentBy(ms[p], c, L.SessionEnd(session, ts));
    var k :| k in ms[p].at && ms[p].at[k] == c && Carries(ms[p], k, L.SessionEnd(session, ts));
    CarriedIsEnd(ms[p], k, session, ts);
  }

  /**
   In every joint run: until the connection of a client's session is cleaned up, an ended_at the table holds for the
   session is the time of an EndSession call of some client, unless a session_end came from another connection.
  */
  lemma StoredEndsAreEndSessions(s0: System, moves: seq<Move>, s: System, id: int)
    requires Initial(s0) && Reaches(s0, moves, s) && OwnBusiness(s.broker, Mine(s), id)
    ensures exists p :: 0 <= p < |s.members| && IsEndOf(s.members[p], s.broker.desk.tables.sessions[id].endedAt.value)
  {
    InitialTrace(s0);
    RunIsTraced(s0, moves, s);
    hide Reaches, Initial, Inv, Mine, IsEndOf, TrafficInv, HasRun, ClientEnded;
    WhoseEnd(s.members, s.broker.desk.owner[id], id, s.broker.desk.tables.sessions[id].endedAt.value);
  }
}
