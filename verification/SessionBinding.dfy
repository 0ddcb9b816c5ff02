/**
 The client's side and the broker's side of a session, in one machine: any number of clients, each running as in
 Clients, against one run of the broker as in Lifecycle, with outsiders on connections of their own.
*/
module SessionBindings {
  import opened Decimal
  import opened Records
  import L = Lifecycle
  import LS = LifecycleSafety
  import O = Ownership
  import opened Storage

  // ---------------------------------------------------------------------------------------------
  // The broker's side

  /** The text is the ID of a session minted on connection c. */
  ghost predicate IssuedOn(session: string, c: O.Conn, d: O.Desk) {
    exists id :: id in d.owner && d.owner[id] == c && session == FormatInt(id)
  }

  /** What a client may call its session on a connection: "" is that of a client whose RegisterSession failed. */
  ghost predicate Named(session: string, c: O.Conn, d: O.Desk) {
    session == "" || IssuedOn(session, c, d)
  }

  ghost predicate OwnMessage(m: L.Message, c: O.Conn, d: O.Desk) {
    && (m.Log? ==> Named(m.msg.session, c, d))
    && (m.SessionEnd? ==> Named(m.session, c, d))
  }

  /** No ID is taken away from its connection. */
  ghost predicate OwnerGrows(d: O.Desk, d': O.Desk) {
    forall id :: id in d.owner ==> id in d'.owner && d'.owner[id] == d.owner[id]
  }

  ghost predicate RepliesIssued(replies: seq<L.Reply>, d: O.Desk) {
    forall r :: r in replies ==> IssuedOn(r.session, r.conn, d)
  }

  /** What arrives, waits and was cached on the connections in `mine` names sessions of those connections. */
  ghost predicate OwnTraffic(b: L.Broker, mine: set<O.Conn>, d: O.Desk) {
    && (forall c :: c in mine ==> c < |b.handlers| + |b.backlog|)
    && (forall c, m :: c in mine && c < |b.handlers| && m in b.handlers[c].peer.inbox ==> OwnMessage(m, c, d))
    && (forall i :: 0 <= i < |b.backlog| && |b.handlers| + i in mine ==> b.backlog[i].inbox == [])
    && (forall it :: it in b.pipe.cached && it.conn in mine ==> Named(it.msg.session, it.conn, d))
  }

  lemma {:induction false} CloseAllKeepsOwner(d: O.Desk, ids: seq<int>, now: int, fails: set<int>)
    ensures O.CloseAll(d, ids, now, fails).owner == d.owner
  {
    if ids != [] { CloseAllKeepsOwner(d, ids[..|ids| - 1], now, fails); }
  }

  lemma StartGrowsOwner(d: O.Desk, c: O.Conn, m: O.StartMessage, host: string, now: int, fails: bool)
    requires O.Agree(d)
    ensures OwnerGrows(d, O.Start(d, c, m, host, now, fails))
    ensures !fails ==> IssuedOn(FormatInt(d.tables.lastSession + 1), c, O.Start(d, c, m, host, now, fails))
  {
    var d', id := O.Start(d, c, m, host, now, fails), d.tables.lastSession + 1;
    forall i | i in d.owner ensures i in d'.owner && d'.owner[i] == d.owner[i] {
      assert i <= d.tables.lastSession;
    }
    assert !fails ==> id in d'.owner && d'.owner[id] == c;
  }

  lemma IssuedStays(session: string, c: O.Conn, d: O.Desk, d': O.Desk)
    requires IssuedOn(session, c, d) && OwnerGrows(d, d')
    ensures IssuedOn(session, c, d')
  {
    var id :| id in d.owner && d.owner[id] == c && session == FormatInt(id);
    assert id in d'.owner && d'.owner[id] == c;
  }

  lemma ReadGrowsOwner(b: L.Broker, c: O.Conn, host: string, now: int, fails: bool)
    requires O.Agree(b.desk) && L.At(b, c, L.Reading) && b.handlers[c].peer.inbox != []
    ensures OwnerGrows(b.desk, L.ReadNext(b, c, host, now, fails).desk)
  {
    var m := b.handlers[c].peer.inbox[0];
    if m.SessionStart? {
      StartGrowsOwner(b.desk, c, m.start, host, now, fails);
    }
  }

  lemma StepGrowsOwner(b: L.Broker, step: L.Step)
    requires O.Agree(b.desk) && L.Enabled(b, step)
    ensures OwnerGrows(b.desk, L.Next(b, step).desk)
  {
    hide L.ReadNext, O.Agree;
    if step.Read? {
      ReadGrowsOwner(b, step.c, step.host, step.now, step.fails);
    } else if step.CleanUp? {
      CloseAllKeepsOwner(b.desk.(tracked := b.desk.tracked - {step.c}), O.Listed(b.desk, step.c), step.now, step.failing);
    }
  }

  lemma TrafficStays(b: L.Broker, mine: set<O.Conn>, d: O.Desk, d': O.Desk)
    requires OwnTraffic(b, mine, d) && OwnerGrows(d, d')
    ensures OwnTraffic(b, mine, d')
  {
    forall session, c | Named(session, c, d) ensures Named(session, c, d') {
      if session != "" {
        IssuedStays(session, c, d, d');
      }
    }
  }

  lemma RepliesStay(replies: seq<L.Reply>, d: O.Desk, d': O.Desk)
    requires RepliesIssued(replies, d) && OwnerGrows(d, d')
    ensures RepliesIssued(replies, d')
  {
    forall r | r in replies ensures IssuedOn(r.session, r.conn, d') {
      IssuedStays(r.session, r.conn, d, d');
    }
  }

  /** Nothing new arrived or was cached, at most something was read. */
  ghost predicate NothingNew(b: L.Broker, b': L.Broker) {
    && b'.backlog == b.backlog && b'.pipe.cached == b.pipe.cached && |b'.handlers| == |b.handlers|
    && forall c, m :: 0 <= c < |b.handlers| && m in b'.handlers[c].peer.inbox ==> m in b.handlers[c].peer.inbox
  }

  lemma NothingNewKeeps(b: L.Broker, b': L.Broker, mine: set<O.Conn>, d: O.Desk)
    requires OwnTraffic(b, mine, d) && NothingNew(b, b')
    ensures OwnTraffic(b', mine, d)
  {
  }

  lemma ConsumedIsNothingNew(b: L.Broker, c: O.Conn)
    requires c < |b.handlers| && b.handlers[c].peer.inbox != []
    ensures NothingNew(b, L.Consumed(b, c))
  {
    var inbox := b.handlers[c].peer.inbox;
    assert forall m :: m in inbox[1..] ==> m in inbox;
  }

  lemma CachedTraffic(b: L.Broker, mine: set<O.Conn>, c: O.Conn, m: LogMessage, d: O.Desk)
    requires OwnTraffic(b, mine, d) && c < |b.handlers| && (c in mine ==> Named(m.session, c, d))
    ensures OwnTraffic(L.CachedLog(b, c, m), mine, d)
  {
    var b' := L.CachedLog(b, c, m);
    forall it | it in b'.pipe.cached && it.conn in mine ensures Named(it.msg.session, it.conn, d) {
      assert it in b.pipe.cached || (it.conn == c && it.msg == m);
    }
  }

  lemma HeadIsOwn(b: L.Broker, mine: set<O.Conn>, c: O.Conn, d: O.Desk)
    requires OwnTraffic(b, mine, d) && c < |b.handlers| && b.handlers[c].peer.inbox != []
    ensures c in mine ==> OwnMessage(b.handlers[c].peer.inbox[0], c, d)
  {
    assert b.handlers[c].peer.inbox[0] in b.handlers[c].peer.inbox;
  }

  lemma TrafficAfterRead(b: L.Broker, mine: set<O.Conn>, c: O.Conn, host: string, now: int, fails: bool)
    requires OwnTraffic(b, mine, b.desk) && L.At(b, c, L.Reading) && b.handlers[c].peer.inbox != []
    ensures OwnTraffic(L.ReadNext(b, c, host, now, fails), mine, b.desk)
  {
    hide OwnTraffic;
    var b1, m := L.Consumed(b, c), b.handlers[c].peer.inbox[0];
    HeadIsOwn(b, mine, c, b.desk);
    ConsumedIsNothingNew(b, c);
    NothingNewKeeps(b, b1, mine, b.desk);
    if m.Log? {
      CachedTraffic(b1, mine, c, m.msg, b.desk);
    } else {
      NothingNewKeeps(b1, L.ReadNext(b, c, host, now, fails), mine, b.desk);
    }
  }

  lemma TrafficAfterAccept(b: L.Broker, mine: set<O.Conn>)
    requires OwnTraffic(b, mine, b.desk) && b.backlog != []
    ensures OwnTraffic(L.Accepted(b), mine, b.desk)
  {
    var b' := L.Accepted(b);
    assert |b.handlers| + 0 in mine ==> b.backlog[0].inbox == [];
    forall i | 0 <= i < |b'.backlog| && |b'.handlers| + i in mine ensures b'.backlog[i].inbox == [] {
      assert |b.handlers| + (i + 1) in mine;
    }
  }

  lemma TrafficAfterClient(b: L.Broker, mine: set<O.Conn>, step: L.Step)
    requires OwnTraffic(b, mine, b.desk) && L.Enabled(b, step) && L.IsClientStep(step)
    requires step.ClientSends? && step.c in mine ==> OwnMessage(step.m, step.c, b.desk)
    ensures OwnTraffic(L.Next(b, step), mine, b.desk)
  {
    if !step.Dial? {
      var b' := L.Next(b, step);
      forall c, m | c in mine && c < |b'.handlers| && m in b'.handlers[c].peer.inbox ensures OwnMessage(m, c, b.desk) {
        assert m in b.handlers[c].peer.inbox || (step.ClientSends? && c == step.c && m == step.m);
      }
    }
  }

  lemma HandlerIsNothingNew(b: L.Broker, step: L.Step)
    requires L.Enabled(b, step) && L.IsHandlerStep(step) && !step.Read?
    ensures NothingNew(b, L.Next(b, step))
  {
    hide L.ReadNext, O.Cleanup, L.Behind;
    var b' := L.Next(b, step);
    assert b'.handlers == b.handlers[step.c := b'.handlers[step.c]];
  }

  lemma TrafficAfterHandler(b: L.Broker, mine: set<O.Conn>, step: L.Step)
    requires OwnTraffic(b, mine, b.desk) && L.Enabled(b, step) && L.IsHandlerStep(step)
    ensures OwnTraffic(L.Next(b, step), mine, b.desk)
  {
    hide L.ReadNext;
    if step.Read? {
      TrafficAfterRead(b, mine, step.c, step.host, step.now, step.fails);
    } else {
      HandlerIsNothingNew(b, step);
      hide OwnTraffic, NothingNew, L.Next;
      NothingNewKeeps(b, L.Next(b, step), mine, b.desk);
    }
  }

  lemma TrafficAfterOther(b: L.Broker, mine: set<O.Conn>, step: L.Step)
    requires OwnTraffic(b, mine, b.desk) && L.Enabled(b, step)
    requires !L.IsHandlerStep(step) && !L.IsClientStep(step) && !step.Accept?
    ensures OwnTraffic(L.Next(b, step), mine, b.desk)
  {
  }

  lemma StepKeepsTraffic(b: L.Broker, mine: set<O.Conn>, step: L.Step)
    requires O.Agree(b.desk) && OwnTraffic(b, mine, b.desk) && L.Enabled(b, step)
    requires step.ClientSends? && step.c in mine ==> OwnMessage(step.m, step.c, b.desk)
    ensures OwnTraffic(L.Next(b, step), mine, L.Next(b, step).desk)
  {
    hide OwnTraffic, O.Agree, OwnerGrows, L.ByClient, L.ByHandler, L.ByWriter;
    if L.IsClientStep(step) {
      TrafficAfterClient(b, mine, step);
    } else if L.IsHandlerStep(step) {
      TrafficAfterHandler(b, mine, step);
    } else if step.Accept? {
      TrafficAfterAccept(b, mine);
    } else {
      TrafficAfterOther(b, mine, step);
    }
    StepGrowsOwner(b, step);
    TrafficStays(L.Next(b, step), mine, b.desk, L.Next(b, step).desk);
  }

  lemma RepliesAfterRead(b: L.Broker, c: O.Conn, host: string, now: int, fails: bool)
    requires O.Agree(b.desk) && RepliesIssued(b.replies, b.desk)
    requires L.At(b, c, L.Reading) && b.handlers[c].peer.inbox != []
    ensures var b' := L.ReadNext(b, c, host, now, fails); RepliesIssued(b'.replies, b'.desk)
  {
    hide O.Agree, O.Start, O.End, ParseInt, OwnerGrows;
    var m, b' := b.handlers[c].peer.inbox[0], L.ReadNext(b, c, host, now, fails);
    ReadGrowsOwner(b, c, host, now, fails);
    RepliesStay(b.replies, b.desk, b'.desk);
    if m.SessionStart? {
      StartGrowsOwner(b.desk, c, m.start, host, now, fails);
    } else {
      assert b'.replies == b.replies;
    }
  }

  lemma StepKeepsReplies(b: L.Broker, step: L.Step)
    requires O.Agree(b.desk) && RepliesIssued(b.replies, b.desk) && L.Enabled(b, step)
    ensures RepliesIssued(L.Next(b, step).replies, L.Next(b, step).desk)
  {
    hide L.ReadNext, O.Agree, RepliesIssued, OwnerGrows;
    if step.Read? {
      RepliesAfterRead(b, step.c, step.host, step.now, step.fails);
    } else {
      StepGrowsOwner(b, step);
      RepliesStay(b.replies, b.desk, L.Next(b, step).desk);
    }
  }

  lemma {:induction false} RunKeepsReplies(b: L.Broker, steps: seq<L.Step>, b': L.Broker)
    requires LS.Inv(b) && RepliesIssued(b.replies, b.desk) && L.Reaches(b, steps, b')
    ensures RepliesIssued(b'.replies, b'.desk)
    decreases |steps|
  {
    hide RepliesIssued, L.Next, L.Enabled, LS.LifeInv, LS.FlowInv, LS.OrderInv, LS.CountInv, LS.TableInv, O.Agree;
    if steps != [] {
      StepKeepsReplies(b, steps[0]);
      LS.StepKeepsInv(b, steps[0]);
      RunKeepsReplies(L.Next(b, steps[0]), steps[1..], b');
    }
  }

  /** In every reachable state of a broker, each reply it sent is the decimal ID of a session minted on that connection. */
  lemma RepliesNameTheirConnection(t: Tables, retention: bool, steps: seq<L.Step>, b: L.Broker)
    requires WellFormed(t) && L.Reaches(L.Started(t, retention), steps, b)
    ensures forall r :: r in b.replies ==> IssuedOn(r.session, r.conn, b.desk)
  {
    LS.StartedInv(t, retention);
    hide LS.Inv;
    RunKeepsReplies(L.Started(t, retention), steps, b);
  }

  // ---------------------------------------------------------------------------------------------
  // One reply for each session minted

  /** The reply is the session's own: on its connection, with its ID. */
  ghost predicate Answers(r: L.Reply, d: O.Desk, id: int) {
    id in d.owner && r == L.Reply(d.owner[id], FormatInt(id))
  }

  /** The sessions of this run were minted one by one, each on a connection, and answered there with its ID. */
  ghost predicate Answered(d: O.Desk, replies: seq<L.Reply>) {
    && d.base + |replies| == d.tables.lastSession
    && forall i :: 0 <= i < |replies| ==> Answers(replies[i], d, d.base + 1 + i)
  }

  lemma StartIsAnswered(d: O.Desk, replies: seq<L.Reply>, c: O.Conn, m: O.StartMessage, host: string, now: int)
    requires Answered(d, replies)
    ensures Answered(O.Start(d, c, m, host, now, false), replies + [L.Reply(c, FormatInt(d.tables.lastSession + 1))])
  {
    hide FormatInt;
    var d', replies' := O.Start(d, c, m, host, now, false), replies + [L.Reply(c, FormatInt(d.tables.lastSession + 1))];
    forall i | 0 <= i < |replies'| ensures Answers(replies'[i], d', d'.base + 1 + i) {
      if i < |replies| {
        assert Answers(replies[i], d, d.base + 1 + i);
      }
    }
  }

  lemma SameMints(d: O.Desk, d': O.Desk, replies: seq<L.Reply>)
    requires Answered(d, replies)
    requires d'.base == d.base && d'.owner == d.owner && d'.tables.lastSession == d.tables.lastSession
    ensures Answered(d', replies)
  {
    hide FormatInt;
    forall i | 0 <= i < |replies| ensures Answers(replies[i], d', d'.base + 1 + i) {
      assert Answers(replies[i], d, d.base + 1 + i);
    }
  }

  lemma {:induction false} CloseAllMintsNothing(d: O.Desk, ids: seq<int>, now: int, fails: set<int>)
    ensures var d' := O.CloseAll(d, ids, now, fails);
      d'.base == d.base && d'.owner == d.owner && d'.tables.lastSession == d.tables.lastSession
  {
    if ids != [] { CloseAllMintsNothing(d, ids[..|ids| - 1], now, fails); }
  }

  lemma ReadEffect(b: L.Broker, c: O.Conn, host: string, now: int, fails: bool)
    requires L.At(b, c, L.Reading) && b.handlers[c].peer.inbox != []
    ensures var b', m := L.ReadNext(b, c, host, now, fails), b.handlers[c].peer.inbox[0];
      if m.SessionStart? && !fails then
        && b'.desk == O.Start(b.desk, c, m.start, host, now, false)
        && b'.replies == b.replies + [L.Reply(c, FormatInt(b.desk.tables.lastSession + 1))]
      else
        && b'.replies == b.replies && b'.desk.base == b.desk.base && b'.desk.owner == b.desk.owner
        && b'.desk.tables.lastSession == b.desk.tables.lastSession
  {
    hide ParseInt, FormatInt;
    var b1 := L.Consumed(b, c);
    assert b1.desk == b.desk && b1.replies == b.replies;
    hide L.Consumed;
    if b.handlers[c].peer.inbox[0].SessionEnd? {
      hide L.CachedLog, L.Registered, L.Moved;
    } else {
      hide O.Start, O.End;
    }
  }

  lemma ReadMints(b: L.Broker, c: O.Conn, host: string, now: int, fails: bool)
    requires Answered(b.desk, b.replies) && L.At(b, c, L.Reading) && b.handlers[c].peer.inbox != []
    ensures var b' := L.ReadNext(b, c, host, now, fails);
      Answered(b'.desk, b'.replies) && b'.desk.base == b.desk.base
  {
    ReadEffect(b, c, host, now, fails);
    hide Answered, L.ReadNext, FormatInt;
    var m, b' := b.handlers[c].peer.inbox[0], L.ReadNext(b, c, host, now, fails);
    if m.SessionStart? && !fails {
      StartIsAnswered(b.desk, b.replies, c, m.start, host, now);
    } else {
      SameMints(b.desk, b'.desk, b.replies);
    }
  }

  lemma OfferMintsNothing(b: L.Broker, c: O.Conn)
    requires c < |b.handlers| && b.handlers[c].pc.Sending?
    ensures L.Offer(b, c).replies == b.replies && L.Offer(b, c).desk == b.desk
  {
    hide L.Behind;
  }

  lemma CleanUpMintsNothing(b: L.Broker, step: L.Step)
    requires L.Enabled(b, step) && step.CleanUp?
    ensures var b' := L.Next(b, step);
      && b'.replies == b.replies && b'.desk.base == b.desk.base && b'.desk.owner == b.desk.owner
      && b'.desk.tables.lastSession == b.desk.tables.lastSession
  {
    CloseAllMintsNothing(b.desk.(tracked := b.desk.tracked - {step.c}), O.Listed(b.desk, step.c), step.now, step.failing);
  }

  lemma OthersMintNothing(b: L.Broker, step: L.Step)
    requires L.Enabled(b, step) && !step.Read?
    ensures var b' := L.Next(b, step);
      && b'.replies == b.replies && b'.desk.base == b.desk.base && b'.desk.owner == b.desk.owner
      && b'.desk.tables.lastSession == b.desk.tables.lastSession
  {
    hide L.ReadNext, L.Offer, L.CleanedUp;
    if step.CleanUp? {
      CleanUpMintsNothing(b, step);
    } else if step.Send? {
      OfferMintsNothing(b, step.c);
    }
  }

  lemma StepKeepsAnswered(b: L.Broker, step: L.Step)
    requires Answered(b.desk, b.replies) && L.Enabled(b, step)
    ensures Answered(L.Next(b, step).desk, L.Next(b, step).replies) && L.Next(b, step).desk.base == b.desk.base
  {
    hide Answered, L.ReadNext;
    if step.Read? {
      ReadMints(b, step.c, step.host, step.now, step.fails);
    } else {
      OthersMintNothing(b, step);
      SameMints(b.desk, L.Next(b, step).desk, b.replies);
    }
  }

  lemma {:induction false} RunKeepsAnswered(b: L.Broker, steps: seq<L.Step>, b': L.Broker)
    requires Answered(b.desk, b.replies) && L.Reaches(b, steps, b')
    ensures Answered(b'.desk, b'.replies) && b'.desk.base == b.desk.base
    decreases |steps|
  {
    hide Answered, L.Next, L.Enabled;
    if steps != [] {
      StepKeepsAnswered(b, steps[0]);
      RunKeepsAnswered(L.Next(b, steps[0]), steps[1..], b');
    }
  }

  /**
   In every reachable state of a broker its replies are the sessions of this run, one each and in the order of their
   IDs: every session minted was answered, on its own connection, with its own ID, and nothing else was.
  */
  lemma EverySessionIsAnswered(t: Tables, retention: bool, steps: seq<L.Step>, b: L.Broker)
    requires L.Reaches(L.Started(t, retention), steps, b)
    ensures t.lastSession + |b.replies| == b.desk.tables.lastSession
    ensures forall i :: 0 <= i < |b.replies| ==> Answers(b.replies[i], b.desk, t.lastSession + 1 + i)
  {
    hide L.Reaches, Answers;
    assert Answered(L.Started(t, retention).desk, []);
    RunKeepsAnswered(L.Started(t, retention), steps, b);
  }
}
