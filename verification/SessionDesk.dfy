/**
 The mutable side of session ownership: internal/session/session.go, internal/broker/conntracker.go and
 the three broker handlers that drive them, each proved to do what module Ownership says.
 */
module SessionDesks {
  import opened Decimal
  import opened Seqs
  import opened Storage
  import O = Ownership

  type Conn = O.Conn

  class Manager {
    var sessions: map<int, O.Session>

    ghost predicate Valid()
      reads this
    {
      forall id :: id in sessions ==> sessions[id].id == id
    }

    constructor ()
      ensures Valid() && sessions == map[]
    {
      sessions := map[];
    }

    method Register(s: O.Session)
      requires Valid()
      modifies this
      ensures Valid() && sessions == old(sessions)[s.id := s]
    {
      sessions := sessions[s.id := s];
    }

    method Deregister(id: int)
      requires Valid()
      modifies this
      ensures Valid() && sessions == old(sessions) - {id}
    {
      sessions := sessions - {id};
    }

    method Count() returns (n: nat)
      ensures n == |sessions|
    {
      n := |sessions|;
    }

    /** The active sessions of a service, each exactly once, in whatever order the map is walked. */
    method ActiveForService(service: string) returns (result: seq<O.Session>)
      requires Valid()
      ensures Distinct(result)
      ensures forall s :: s in result <==> s.id in sessions && sessions[s.id] == s && s.service == service
    {
      result := [];
      var todo := sessions.Keys;
      while exists id :: id in todo
        invariant todo <= sessions.Keys
        invariant Distinct(result)
        invariant forall s :: s in result <==>
            s.id in sessions && s.id !in todo && sessions[s.id] == s && s.service == service
        decreases todo
      {
        var id :| id in todo;
        todo := todo - {id};
        if sessions[id].service == service {
          result := result + [sessions[id]];
        }
      }
    }
  }

  lemma {:induction false} WithoutAt(ids: seq<int>, i: nat)
    requires i < |ids| && forall k :: 0 <= k < i ==> ids[k] != ids[i]
    ensures O.Without(ids, ids[i]) == ids[..i] + ids[i + 1..]
  {
    if i > 0 {
      WithoutAt(ids[1..], i - 1);
      assert [ids[0]] + (ids[1..][..i - 1] + ids[1..][i..]) == ids[..i] + ids[i + 1..];
    }
  }

  /**
   append(ids[:i], ids[i+1:]...) as it happens in memory: the tail of the slice moves down over the slot
   of the first occurrence, inside the same backing array. Slots past the new length keep what they had.
  */
  method SpliceOut(backing: array<int>, len: nat, id: int) returns (len': nat)
    requires len <= backing.Length
    modifies backing
    ensures len' <= len && backing[..len'] == O.Without(old(backing[..len]), id)
    ensures backing[len..] == old(backing[len..])
  {
    ghost var ids := backing[..len];
    for i := 0 to len
      invariant backing[..] == old(backing[..])
      invariant forall k :: 0 <= k < i ==> ids[k] != id
    {
      if backing[i] == id {
        WithoutAt(ids, i);
        for j := i to len - 1
          invariant forall k :: 0 <= k < i || j < k < backing.Length ==> backing[k] == old(backing[k])
          invariant forall k :: i <= k < j ==> backing[k] == old(backing[k + 1])
        {
          backing[j] := backing[j + 1];
        }
        assert backing[..len - 1] == ids[..i] + ids[i + 1..];
        return len - 1;
      }
    }
    return len;
  }

  class ConnTracker {
    var conns: map<Conn, seq<int>>

    constructor ()
      ensures conns == map[]
    {
      conns := map[];
    }

    /** A missing key reads as an empty slice; append is what puts it into the map. */
    method Register(c: Conn, id: int)
      modifies this
      ensures conns == old(conns)[c := (if c in old(conns) then old(conns)[c] else []) + [id]]
    {
      conns := conns[c := (if c in conns then conns[c] else []) + [id]];
    }

    /** Removes the first occurrence of the ID from this connection's own list, if it is there. */
    method UnregisterSession(c: Conn, id: int)
      modifies this
      ensures conns == if c in old(conns) then old(conns)[c := O.Without(old(conns)[c], id)] else old(conns)
    {
      var ids := if c in conns then conns[c] else [];
      for i := 0 to |ids|
        invariant conns == old(conns)
        invariant forall k :: 0 <= k < i ==> ids[k] != id
      {
        if ids[i] == id {
          WithoutAt(ids, i);
          conns := conns[c := ids[..i] + ids[i + 1..]];
          return;
        }
      }
      assert id !in ids;
    }

    /** Forgets the connection and hands back what was still listed under it. */
    method Deregister(c: Conn) returns (ids: seq<int>)
      modifies this
      ensures conns == old(conns) - {c}
      ensures ids == if c in old(conns) then old(conns)[c] else []
    {
      ids := if c in conns then conns[c] else [];
      conns := conns - {c};
    }

    method Count() returns (n: nat)
      ensures n == |conns|
    {
      n := |conns|;
    }
  }

  /** The part of the broker that owns sessions (internal/broker/broker.go). */
  class SessionDesk {
    const store: Store
    const sessions: Manager
    const connTracker: ConnTracker
    ghost var base: nat
    ghost var owner: map<int, Conn>
    ghost var stranded: set<int>
    ghost var foreign: set<int>

    ghost predicate Valid()
      reads sessions
    {
      sessions.Valid()
    }

    ghost function Desk(): O.Desk
      reads this, store, sessions, connTracker
    {
      O.Desk(store.Contents(), sessions.sessions, connTracker.conns, base, owner, stranded, foreign)
    }

    constructor (t: Tables)
      ensures Valid() && fresh(store) && fresh(sessions) && fresh(connTracker)
      ensures Desk() == O.NewDesk(t)
    {
      store := new Store(t);
      sessions := new Manager();
      connTracker := new ConnTracker();
      base, owner, stranded, foreign := t.lastSession, map[], {}, {};
    }

    /** Row, manager, tracker, in that order; the reply carries the ID only when the row was created. */
    method HandleSessionStart(m: O.StartMessage, c: Conn, hostname: string, now: int, fails: bool)
      returns (reply: Option<nat>)
      requires Valid()
      modifies this, store, sessions, connTracker
      ensures Valid()
      ensures Desk() == O.Start(old(Desk()), c, m, hostname, now, fails)
      ensures reply == if fails then None else Some(old(store.lastSession) + 1)
      ensures !fails ==>
        && sessions.sessions == old(sessions.sessions)[
             reply.value := O.Session(reply.value, m.service, m.pid, m.command, m.timestamp, hostname)]
        && store.sessions == old(store.sessions)[
             reply.value := SessionRow(m.service, m.pid, m.command, now, None, hostname)]
        && connTracker.conns == old(connTracker.conns)[
             c := (if c in old(connTracker.conns) then old(connTracker.conns)[c] else []) + [reply.value]]
    {
      var id, ok := store.CreateSession(m.service, m.pid, m.command, hostname, now, fails);
      if !ok {
        return None;
      }
      sessions.Register(O.Session(id, m.service, m.pid, m.command, m.timestamp, hostname));
      owner := owner[id := c];
      connTracker.Register(c, id);
      reply := Some(id);
    }

    /** The two calls a session_end and a cleanup share. */
    method CloseSession(id: int, timestamp: int, fails: bool)
      requires Valid()
      modifies this, store, sessions
      ensures Valid() && Desk() == O.Close(old(Desk()), id, timestamp, fails)
      ensures base == old(base) && owner == old(owner) && foreign == old(foreign)
    {
      stranded := O.Close(Desk(), id, timestamp, fails).stranded;
      var _ := store.EndSession(id, timestamp, fails);
      sessions.Deregister(id);
    }

    /** An ID that does not parse is logged and nothing happens. */
    method HandleSessionEnd(sessionID: string, timestamp: int, c: Conn, fails: bool)
      requires Valid()
      modifies this, store, sessions, connTracker
      ensures Valid()
      ensures Desk() == if ParseInt(sessionID).ok
                        then O.End(old(Desk()), c, ParseInt(sessionID).value, timestamp, fails)
                        else old(Desk())
    {
      var id := ParseInt(sessionID);
      if !id.ok {
        return;
      }
      if id.value in owner && owner[id.value] != c {
        foreign := foreign + {id.value};
      }
      CloseSession(id.value, timestamp, fails);
      connTracker.UnregisterSession(c, id.value);
    }

    /** The active_sessions of a status reply: this run's open sessions, less those a failed call left open. */
    method ActiveSessions() returns (n: nat)
      requires O.Agree(Desk())
      ensures n == |O.OpenHere(Desk())|
    {
      O.ActiveIsOpenHere(Desk());
      n := sessions.Count();
    }

    /** Every session the dropped connection still owned is ended, whether or not its store call works. */
    method CleanupConnection(c: Conn, now: int, failing: set<int>)
      requires Valid()
      modifies this, store, sessions, connTracker
      ensures Valid()
      ensures Desk() == O.Cleanup(old(Desk()), c, now, failing)
    {
      var orphaned := connTracker.Deregister(c);
      ghost var gone := Desk();
      if |orphaned| == 0 {
        return;
      }
      for i := 0 to |orphaned|
        invariant Valid()
        invariant Desk() == O.CloseAll(gone, orphaned[..i], now, failing)
      {
        assert orphaned[..i + 1][..i] == orphaned[..i];
        CloseSession(orphaned[i], now, orphaned[i] in failing);
      }
      assert orphaned[..|orphaned|] == orphaned;
    }
  }
}
