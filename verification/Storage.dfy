/**
 internal/storage/storage.go: the two tables and the operations that change them. Each operation is
 one atomic statement or transaction that succeeds or fails as a whole; whether it fails is an input.
 */
module Storage {
  import opened Seqs
  import opened Records

  datatype SessionRow = SessionRow(
    service: string, pid: int, command: string, startedAt: int, endedAt: Option<int>, hostname: string)

  /** Both tables with their AUTOINCREMENT counters. */
  datatype Tables = Tables(
    sessions: map<nat, SessionRow>, events: seq<Row>, lastSession: nat, lastEvent: nat)

  const EMPTY := Tables(map[], [], 0, 0)

  /** Rows in insertion order, IDs strictly increasing and never above the counters. */
  ghost predicate WellFormed(t: Tables) {
    && (forall id :: id in t.sessions ==> 1 <= id <= t.lastSession)
    && (forall r :: r in t.events ==> 1 <= r.id <= t.lastEvent)
    && Increasing(t.events)
  }

  ghost predicate Increasing(rows: seq<Row>) {
    forall i, j :: 0 <= i < j < |rows| ==> rows[i].id < rows[j].id
  }

  function WithSession(t: Tables, row: SessionRow): Tables {
    t.(sessions := t.sessions[t.lastSession + 1 := row], lastSession := t.lastSession + 1)
  }

  /** UPDATE ... WHERE id = ?: overwrites an earlier end, and does nothing when the row is missing. */
  function WithEnd(t: Tables, id: int, endedAt: int): Tables {
    if id in t.sessions
    then t.(sessions := t.sessions[id := t.sessions[id].(endedAt := Some(endedAt))])
    else t
  }

  /** The rows a batch becomes when the counter stands at `last`. */
  function Number(recs: seq<Record>, last: nat): (rows: seq<Row>)
    ensures |rows| == |recs|
    ensures forall i :: 0 <= i < |recs| ==> rows[i] == Row(last + 1 + i, recs[i])
  {
    seq(|recs|, i requires 0 <= i < |recs| => Row(last + 1 + i, recs[i]))
  }

  function WithEvents(t: Tables, recs: seq<Record>): Tables {
    t.(events := t.events + Number(recs, t.lastEvent), lastEvent := t.lastEvent + |recs|)
  }

  predicate Expired(row: SessionRow, cutoff: int) {
    row.endedAt.Some? && row.endedAt.value < cutoff
  }

  function AtLeast(cutoff: int): Row -> bool {
    (r: Row) => r.rec.timestamp >= cutoff
  }

  function Older(cutoff: int): Row -> bool {
    (r: Row) => r.rec.timestamp < cutoff
  }

  function Pruned(t: Tables, cutoff: int): Tables {
    t.(events := Filter(t.events, AtLeast(cutoff)),
       sessions := map id | id in t.sessions && !Expired(t.sessions[id], cutoff) :: t.sessions[id])
  }

  const DAY := 24 * 60 * 60 * 1000   // in milliseconds

  /**
   AddDate(0, 0, -days): the same time of day that many calendar days ago, in milliseconds; `shift` is how far the
   local time zone's offset has moved in between, 0 where there is no daylight saving.
  */
  function DaysBefore(now: int, days: int, shift: int): int {
    now - days * DAY + shift
  }

  /** The highest cutoff a database was pruned with, after one more prune. */
  function Highest(a: Option<int>, cutoff: int): Option<int> {
    if a.Some? && a.value >= cutoff then a else Some(cutoff)
  }

  lemma PrunedKeepsWellFormed(t: Tables, cutoff: int)
    requires WellFormed(t)
    ensures WellFormed(Pruned(t, cutoff))
  {
    FilterIncreasing(t.events, AtLeast(cutoff));
  }

  lemma {:induction false} FilterIncreasing(rows: seq<Row>, keep: Row -> bool)
    requires Increasing(rows)
    ensures Increasing(Filter(rows, keep))
  {
    if rows != [] {
      var init := rows[..|rows| - 1];
      FilterIncreasing(init, keep);
      var f := Filter(init, keep);
      forall i | 0 <= i < |f| ensures f[i].id < rows[|rows| - 1].id {
        assert f[i] in init;
      }
    }
  }

  lemma {:induction false} FilterSplits<T(!new)>(s: seq<T>, p: T -> bool, q: T -> bool)
    requires forall x :: p(x) <==> !q(x)
    ensures |Filter(s, p)| + |Filter(s, q)| == |s|
  {
    if s != [] { FilterSplits(s[..|s| - 1], p, q); }
  }

  function ExpiredSessions(t: Tables, cutoff: int): map<nat, SessionRow> {
    map id | id in t.sessions && Expired(t.sessions[id], cutoff) :: t.sessions[id]
  }

  lemma SessionsSplit(t: Tables, cutoff: int)
    ensures |Pruned(t, cutoff).sessions| + |ExpiredSessions(t, cutoff)| == |t.sessions|
  {
    var kept, gone := Pruned(t, cutoff).sessions, ExpiredSessions(t, cutoff);
    forall id ensures id in t.sessions.Keys <==> id in kept.Keys + gone.Keys {}
    KeysSplit(t.sessions, kept, gone);
  }

  lemma KeysSplit<V>(m: map<nat, V>, kept: map<nat, V>, gone: map<nat, V>)
    requires (forall id :: id in m.Keys <==> id in kept.Keys + gone.Keys) && kept.Keys !! gone.Keys
    ensures |kept| + |gone| == |m|
  {
    assert m.Keys == kept.Keys + gone.Keys;
    assert |m| == |m.Keys| && |kept| == |kept.Keys| && |gone| == |gone.Keys|;
  }

  class Store {
    var sessions: map<nat, SessionRow>
    var events: seq<Row>
    var lastSession: nat
    var lastEvent: nat

    function Contents(): Tables
      reads this
    {
      Tables(sessions, events, lastSession, lastEvent)
    }

    constructor (t: Tables)
      ensures Contents() == t
    {
      sessions, events, lastSession, lastEvent := t.sessions, t.events, t.lastSession, t.lastEvent;
    }

    method CreateSession(service: string, pid: int, command: string, hostname: string, now: int, fails: bool)
      returns (id: nat, ok: bool)
      modifies this
      ensures ok == !fails
      ensures fails ==> Contents() == old(Contents()) && id == 0
      ensures !fails ==> id == old(lastSession) + 1
      ensures !fails ==>
        Contents() == WithSession(old(Contents()), SessionRow(service, pid, command, now, None, hostname))
      ensures !fails ==>
        && sessions == old(sessions)[id := SessionRow(service, pid, command, now, None, hostname)] && lastSession == id
        && events == old(events) && lastEvent == old(lastEvent)
    {
      if fails {
        return 0, false;
      }
      lastSession := lastSession + 1;
      sessions := sessions[lastSession := SessionRow(service, pid, command, now, None, hostname)];
      return lastSession, true;
    }

    method EndSession(id: int, endedAt: int, fails: bool) returns (ok: bool)
      modifies this
      ensures ok == !fails
      ensures Contents() == if fails then old(Contents()) else WithEnd(old(Contents()), id, endedAt)
      ensures sessions == if fails || id !in old(sessions) then old(sessions)
                          else old(sessions)[id := old(sessions)[id].(endedAt := Some(endedAt))]
      ensures events == old(events) && lastEvent == old(lastEvent) && lastSession == old(lastSession)
    {
      if fails {
        return false;
      }
      if id in sessions {
        sessions := sessions[id := sessions[id].(endedAt := Some(endedAt))];
      }
      return true;
    }

    /**
     One transaction: statement number `failsAt` fails (the commit, when it equals the batch size), and
     then everything inserted before it is rolled back; any larger value means success.
     */
    method InsertLogEvents(batch: seq<Record>, failsAt: nat) returns (ok: bool)
      modifies this
      ensures ok == (batch == [] || failsAt > |batch|)
      ensures Contents() == if ok then WithEvents(old(Contents()), batch) else old(Contents())
      ensures ok ==> |events| == |old(events)| + |batch| && events[..|old(events)|] == old(events)
      ensures ok ==> forall i :: 0 <= i < |batch| ==> events[|old(events)| + i] == Row(old(lastEvent) + 1 + i, batch[i])
      ensures ok ==> lastEvent == old(lastEvent) + |batch| && sessions == old(sessions)
    {
      if |batch| == 0 {
        return true;
      }
      var saved, savedLast := events, lastEvent;
      for i := 0 to |batch|
        invariant failsAt >= i
        invariant Contents() == WithEvents(old(Contents()), batch[..i])
      {
        if i == failsAt {
          events, lastEvent := saved, savedLast;
          return false;
        }
        lastEvent := lastEvent + 1;
        events := events + [Row(lastEvent, batch[i])];
      }
      if failsAt == |batch| {
        events, lastEvent := saved, savedLast;
        return false;
      }
      assert batch[..|batch|] == batch;
      return true;
    }

    /** Deletes old events and closed sessions; the count it returns is exactly the rows removed. */
    method PruneByAge(maxAgeDays: int, now: int, shift: int, fails: bool) returns (deleted: int, ok: bool)
      modifies this
      ensures ok == !fails
      ensures Contents() ==
          if fails then old(Contents()) else Pruned(old(Contents()), now - maxAgeDays * 86400000 + shift)
      ensures !fails ==> forall r :: r in events <==>
          r in old(events) && r.rec.timestamp >= now - maxAgeDays * 86400000 + shift
      ensures !fails ==> forall id :: id in sessions ==> id in old(sessions) && sessions[id] == old(sessions)[id]
      ensures !fails ==> forall id :: id in old(sessions) ==>
          var end := old(sessions)[id].endedAt;
          (id in sessions <==> end.None? || end.value >= now - maxAgeDays * 86400000 + shift)
      ensures deleted == |old(events)| - |events| + |old(sessions)| - |sessions|
    {
      if fails {
        return 0, false;
      }
      var cutoff := DaysBefore(now, maxAgeDays, shift);
      var t := Contents();
      deleted := |Filter(events, Older(cutoff))| + |ExpiredSessions(t, cutoff)|;
      FilterSplits(events, AtLeast(cutoff), Older(cutoff));
      SessionsSplit(t, cutoff);
      events := Pruned(t, cutoff).events;
      sessions := Pruned(t, cutoff).sessions;
      ok := true;
    }
  }
}
