/** Who owns which session: table, manager and tracker, and what each session handler does to all three. */
module Ownership {
  import opened Seqs
  import opened Storage

  // Three stores must agree: the sessions table, the in-memory manager (internal/session/session.go) and the
  // connection tracker (internal/broker/conntracker.go). This is the value-level meaning of the broker's session
  // handlers, each one step here; module SessionDesks refines it in place.

  type Conn = nat

  datatype Session = Session(
    id: int, service: string, pid: int, command: string, startedAt: int, hostname: string)

  datatype StartMessage = StartMessage(service: string, pid: int, command: string, timestamp: int)

  datatype Desk = Desk(
    tables: Tables,
    active: map<int, Session>,        // session.Manager
    tracked: map<Conn, seq<int>>,     // connTracker
    base: nat,                        // history: the newest session ID when this run started
    owner: map<int, Conn>,            // history: the connection each ID of this run was minted on
    stranded: set<int>,               // history: IDs still open because their EndSession call failed
    foreign: set<int>)                // history: IDs a session_end named on a connection not their own

  function NewDesk(t: Tables): Desk {
    Desk(t, map[], map[], t.lastSession, map[], {}, {})
  }

  predicate IsOpen(t: Tables, id: int) {
    id in t.sessions && t.sessions[id].endedAt.None?
  }

  function Listed(d: Desk, c: Conn): seq<int> {
    if c in d.tracked then d.tracked[c] else []
  }

  /** The list without the first occurrence of id. */
  function Without(ids: seq<int>, id: int): (r: seq<int>)
    ensures id !in ids ==> r == ids
    ensures forall x :: x in r ==> x in ids
  {
    if ids == [] then []
    else if ids[0] == id then ids[1..]
    else [ids[0]] + Without(ids[1..], id)
  }

  function Start(d: Desk, c: Conn, m: StartMessage, host: string, now: int, fails: bool): Desk {
    if fails then d
    else
      var id := d.tables.lastSession + 1;
      d.(tables := WithSession(d.tables, SessionRow(m.service, m.pid, m.command, now, None, host)),
         active := d.active[id := Session(id, m.service, m.pid, m.command, m.timestamp, host)],
         tracked := d.tracked[c := Listed(d, c) + [id]],
         owner := d.owner[id := c])
  }

  /** The two steps shared by a session_end and a cleanup: end the row, then forget the session. */
  function Close(d: Desk, id: int, ts: int, fails: bool): Desk {
    d.(tables := if fails then d.tables else WithEnd(d.tables, id, ts),
       active := d.active - {id},
       stranded := if !fails then d.stranded - {id}
                   else if IsOpen(d.tables, id) && id > d.base then d.stranded + {id}
                   else d.stranded)
  }

  /** A session_end names any ID at all, whichever connection it arrives on. */
  function End(d: Desk, c: Conn, id: int, ts: int, fails: bool): Desk {
    var closed := Close(d, id, ts, fails).(
      foreign := if id in d.owner && d.owner[id] != c then d.foreign + {id} else d.foreign);
    if c in d.tracked then closed.(tracked := d.tracked[c := Without(d.tracked[c], id)]) else closed
  }

  function CloseAll(d: Desk, ids: seq<int>, now: int, fails: set<int>): Desk {
    if ids == [] then d
    else
      var n := |ids| - 1;
      Close(CloseAll(d, ids[..n], now, fails), ids[n], now, ids[n] in fails)
  }

  /** The connection is gone: everything still listed under it is ended at the broker's time. */
  function Cleanup(d: Desk, c: Conn, now: int, fails: set<int>): Desk {
    CloseAll(d.(tracked := d.tracked - {c}), Listed(d, c), now, fails)
  }

  datatype Step =
    | DoStart(c: Conn, m: StartMessage, host: string, now: int, fails: bool)
    | DoEnd(c: Conn, id: int, ts: int, fails: bool)
    | DoCleanup(c: Conn, now: int, failing: set<int>)
    | DoPrune(cutoff: int)

  function Apply(d: Desk, step: Step): Desk {
    match step
    case DoStart(c, m, host, now, fails) => Start(d, c, m, host, now, fails)
    case DoEnd(c, id, ts, fails) => End(d, c, id, ts, fails)
    case DoCleanup(c, now, failing) => Cleanup(d, c, now, failing)
    case DoPrune(cutoff) => d.(tables := Pruned(d.tables, cutoff))
  }

  function Run(d: Desk, steps: seq<Step>): Desk {
    if steps == [] then d else Apply(Run(d, steps[..|steps| - 1]), steps[|steps| - 1])
  }

  predicate StoreCallFails(step: Step) {
    match step
    case DoStart(_, _, _, _, fails) => fails
    case DoEnd(_, _, _, fails) => fails
    case DoCleanup(_, _, failing) => failing != {}
    case DoPrune(_) => false
  }

  // ---------------------------------------------------------------------------------------------

  /** The manager holds exactly the open rows of this run, up to those a failed call left open. */
  ghost predicate RowsAgree(d: Desk) {
    && WellFormed(d.tables) && d.base <= d.tables.lastSession
    && (forall id :: id in d.active <==> id > d.base && IsOpen(d.tables, id) && id !in d.stranded)
    && (forall id :: id in d.stranded ==> id > d.base && IsOpen(d.tables, id))
    && (forall id :: id in d.active ==> d.active[id].id == id)
  }

  /** An ID is listed at most once, and only under the connection it was minted on. */
  ghost predicate ListsAgree(d: Desk) {
    && (forall c :: c in d.tracked ==> Distinct(d.tracked[c]))
    && (forall c, id :: c in d.tracked && id in d.tracked[c] ==> id in d.owner && d.owner[id] == c)
    && (forall id :: id in d.owner ==> d.base < id <= d.tables.lastSession)
  }

  /** Everything the manager holds is listed. */
  ghost predicate ActiveIsListed(d: Desk) {
    forall id :: id in d.active ==>
      id in d.owner && d.owner[id] in d.tracked && id in d.tracked[d.owner[id]]
  }

  ghost predicate Agree(d: Desk) {
    RowsAgree(d) && ListsAgree(d) && ActiveIsListed(d)
  }

  lemma {:induction false} WithoutKeeps(ids: seq<int>, id: int)
    requires Distinct(ids)
    ensures Distinct(Without(ids, id))
    ensures forall x :: x in Without(ids, id) <==> x in ids && x != id
  {
    if ids != [] {
      assert ids == [ids[0]] + ids[1..];
      WithoutKeeps(ids[1..], id);
      if ids[0] == id {
        assert forall x :: x in ids[1..] <==> x in ids && x != id;
      } else {
        forall i | 0 <= i < |Without(ids[1..], id)| ensures Without(ids[1..], id)[i] != ids[0] {
          assert Without(ids[1..], id)[i] in ids[1..];
        }
      }
    }
  }

  lemma DistinctSnoc(ids: seq<int>, id: int)
    requires Distinct(ids) && id !in ids
    ensures Distinct(ids + [id])
    ensures forall x :: x in ids + [id] <==> x in ids || x == id
  {
  }

  lemma StartKeepsLists(d: Desk, c: Conn, m: StartMessage, host: string, now: int)
    requires ListsAgree(d) && d.base <= d.tables.lastSession
    ensures ListsAgree(Start(d, c, m, host, now, false))
  {
    var d' := Start(d, c, m, host, now, false);
    var id := d.tables.lastSession + 1;
    var ids := Listed(d, c);
    assert id !in d.owner && id !in ids;
    DistinctSnoc(ids, id);
    forall c', x | c' in d'.tracked && x in d'.tracked[c'] ensures x in d'.owner && d'.owner[x] == c' {
      assert x == id || x in Listed(d, c');
    }
    forall c' | c' in d'.tracked ensures Distinct(d'.tracked[c']) {
    }
  }

  lemma StartKeeps(d: Desk, c: Conn, m: StartMessage, host: string, now: int)
    requires Agree(d)
    ensures Agree(Start(d, c, m, host, now, false))
  {
    StartKeepsLists(d, c, m, host, now);
    assert RowsAgree(Start(d, c, m, host, now, false));
  }

  lemma CloseKeepsRows(d: Desk, id: int, ts: int, fails: bool)
    requires RowsAgree(d)
    ensures RowsAgree(Close(d, id, ts, fails))
  {
  }

  lemma EndKeeps(d: Desk, c: Conn, id: int, ts: int, fails: bool)
    requires Agree(d)
    ensures Agree(End(d, c, id, ts, fails))
  {
    CloseKeepsRows(d, id, ts, fails);
    var d' := End(d, c, id, ts, fails);
    if c in d.tracked {
      WithoutKeeps(d.tracked[c], id);
    }
    assert RowsAgree(d');
    assert ListsAgree(d');
  }

  lemma {:induction false} CloseAllKeeps(d: Desk, ids: seq<int>, now: int, fails: set<int>)
    requires RowsAgree(d) && ListsAgree(d)
    ensures var d' := CloseAll(d, ids, now, fails);
      && RowsAgree(d') && ListsAgree(d') && d'.tracked == d.tracked && d'.owner == d.owner
      && (forall id :: id in d'.active <==> id in d.active && id !in ids)
      && (forall id :: id in d'.active ==> d'.active[id] == d.active[id])
  {
    hide RowsAgree, IsOpen;
    if ids != [] {
      var n := |ids| - 1;
      CloseAllKeeps(d, ids[..n], now, fails);
      CloseKeepsRows(CloseAll(d, ids[..n], now, fails), ids[n], now, ids[n] in fails);
      assert ids == ids[..n] + [ids[n]];
    }
  }

  lemma CleanupKeeps(d: Desk, c: Conn, now: int, fails: set<int>)
    requires Agree(d)
    ensures Agree(Cleanup(d, c, now, fails))
    ensures c !in Cleanup(d, c, now, fails).tracked
    ensures forall id :: id in Cleanup(d, c, now, fails).active ==> id in d.active && d.owner[id] != c
  {
    var gone := d.(tracked := d.tracked - {c});
    CloseAllKeeps(gone, Listed(d, c), now, fails);
  }

  lemma StepKeeps(d: Desk, step: Step)
    requires Agree(d)
    ensures Agree(Apply(d, step))
  {
    match step {
      case DoStart(c, m, host, now, fails) => if !fails { StartKeeps(d, c, m, host, now); }
      case DoEnd(c, id, ts, fails) => EndKeeps(d, c, id, ts, fails);
      case DoCleanup(c, now, failing) => CleanupKeeps(d, c, now, failing);
      case DoPrune(cutoff) => PrunedKeepsWellFormed(d.tables, cutoff);
    }
  }

  lemma {:induction false} RunKeeps(d: Desk, steps: seq<Step>)
    requires Agree(d)
    ensures Agree(Run(d, steps)) && Run(d, steps).base == d.base
  {
    if steps != [] {
      RunKeeps(d, steps[..|steps| - 1]);
      StepKeeps(Run(d, steps[..|steps| - 1]), steps[|steps| - 1]);
      StepKeepsBase(Run(d, steps[..|steps| - 1]), steps[|steps| - 1]);
    }
  }

  lemma {:induction false} CloseAllStranded(d: Desk, ids: seq<int>, now: int, fails: set<int>)
    ensures CloseAll(d, ids, now, fails).base == d.base
    ensures fails == {} && d.stranded == {} ==> CloseAll(d, ids, now, fails).stranded == {}
  {
    if ids != [] { CloseAllStranded(d, ids[..|ids| - 1], now, fails); }
  }

  lemma StepKeepsBase(d: Desk, step: Step)
    ensures Apply(d, step).base == d.base
    ensures !StoreCallFails(step) && d.stranded == {} ==> Apply(d, step).stranded == {}
  {
    if step.DoCleanup? {
      CloseAllStranded(d.(tracked := d.tracked - {step.c}), Listed(d, step.c), step.now, step.failing);
    }
  }

  lemma {:induction false} NoFailureNoneStranded(d: Desk, steps: seq<Step>)
    requires d.stranded == {} && forall i :: 0 <= i < |steps| ==> !StoreCallFails(steps[i])
    ensures Run(d, steps).stranded == {}
  {
    if steps != [] {
      NoFailureNoneStranded(d, steps[..|steps| - 1]);
      StepKeepsBase(Run(d, steps[..|steps| - 1]), steps[|steps| - 1]);
    }
  }

  predicate ListedAt(d: Desk, c: Conn, i: nat, id: int) {
    c in d.tracked && i < |d.tracked[c]| && d.tracked[c][i] == id
  }

  lemma ListedAtMostOnce(d: Desk, id: int, c: Conn, c': Conn, i: nat, j: nat)
    requires ListsAgree(d) && ListedAt(d, c, i, id) && ListedAt(d, c', j, id)
    ensures c == c' && i == j
  {
    assert id in d.tracked[c] && d.owner[id] == c;
    assert id in d.tracked[c'] && d.owner[id] == c';
    assert Distinct(d.tracked[c]);
    assert i < j || j < i || i == j;
  }

  /**
   Over every run of starts, ends (from any connection, naming any ID), cleanups and prunes, with any
   store calls failing: an ID is in the manager exactly when it was minted in this run, its row is open,
   and no failed call left it open; and then it is listed exactly once, under its own connection.
  */
  lemma ThreeStoresAgree(t: Tables, steps: seq<Step>, id: int)
    requires WellFormed(t)
    ensures var d := Run(NewDesk(t), steps);
      && (id in d.active <==> id > t.lastSession && IsOpen(d.tables, id) && id !in d.stranded)
      && (id in d.active ==>
            id in d.owner && d.owner[id] in d.tracked && id in d.tracked[d.owner[id]])
      && (forall c, c', i, j :: ListedAt(d, c, i, id) && ListedAt(d, c', j, id) ==> c == c' && i == j)
      && ((forall i :: 0 <= i < |steps| ==> !StoreCallFails(steps[i])) ==> id !in d.stranded)
  {
    RunKeeps(NewDesk(t), steps);
    var d := Run(NewDesk(t), steps);
    if forall i :: 0 <= i < |steps| ==> !StoreCallFails(steps[i]) {
      NoFailureNoneStranded(NewDesk(t), steps);
    }
    forall c, c', i, j | ListedAt(d, c, i, id) && ListedAt(d, c', j, id) ensures c == c' && i == j {
      ListedAtMostOnce(d, id, c, c', i, j);
    }
  }

  /** The step of one table to another that never un-ends a session and never reuses an ID. */
  ghost predicate EndedStays(t: Tables, t': Tables) {
    && t.lastSession <= t'.lastSession
    && (forall id :: id in t.sessions && !IsOpen(t, id) ==> !IsOpen(t', id))
    && (forall id :: id <= t.lastSession && id !in t.sessions ==> id !in t'.sessions)
  }

  lemma {:induction false} CloseAllEndedStays(d: Desk, ids: seq<int>, now: int, fails: set<int>)
    ensures EndedStays(d.tables, CloseAll(d, ids, now, fails).tables)
    ensures CloseAll(d, ids, now, fails).tables.sessions.Keys == d.tables.sessions.Keys
  {
    if ids != [] { CloseAllEndedStays(d, ids[..|ids| - 1], now, fails); }
  }

  /** Over every run: once ended_at is set it never returns to NULL, and a pruned ID never comes back. */
  lemma {:induction false} EndIsForever(d: Desk, steps: seq<Step>)
    requires WellFormed(d.tables)
    ensures EndedStays(d.tables, Run(d, steps).tables)
  {
    if steps != [] {
      var d0, last := Run(d, steps[..|steps| - 1]), steps[|steps| - 1];
      EndIsForever(d, steps[..|steps| - 1]);
      if last.DoCleanup? {
        CloseAllEndedStays(d0.(tracked := d0.tracked - {last.c}), Listed(d0, last.c), last.now, last.failing);
      }
    }
  }

  /** A session_end that arrives on another connection ends the row and leaves only the listing behind. */
  lemma ForeignEnd(d: Desk, c: Conn, id: int, ts: int)
    requires Agree(d) && id in d.active && d.owner[id] != c
    ensures var d' := End(d, c, id, ts, false);
      && Agree(d') && id !in d'.active && d'.tables.sessions[id].endedAt == Some(ts)
      && id in Listed(d', d.owner[id])
  {
    EndKeeps(d, c, id, ts, false);
    if c in d.tracked {
      WithoutKeeps(d.tracked[c], id);
    }
  }

  lemma {:induction false} CloseAllEnds(d: Desk, ids: seq<int>, now: int, id: int)
    requires id in d.tables.sessions
    ensures var t := CloseAll(d, ids, now, {}).tables;
      && t.sessions.Keys == d.tables.sessions.Keys
      && t.sessions[id].endedAt == if id in ids then Some(now) else d.tables.sessions[id].endedAt
  {
    if ids != [] {
      assert ids == ids[..|ids| - 1] + [ids[|ids| - 1]];
      CloseAllEnds(d, ids[..|ids| - 1], now, id);
    }
  }

  /** And when the owner's connection goes, its cleanup ends the row again: the broker's time replaces the sender's. */
  lemma ForeignEndIsOverwritten(d: Desk, c: Conn, id: int, ts: int, now: int)
    requires Agree(d) && id in d.active && d.owner[id] != c
    ensures var d' := Cleanup(End(d, c, id, ts, false), d.owner[id], now, {});
      id in d'.tables.sessions && d'.tables.sessions[id].endedAt == Some(now)
  {
    ForeignEnd(d, c, id, ts);
    var d1, o := End(d, c, id, ts, false), d.owner[id];
    CloseAllEnds(d1.(tracked := d1.tracked - {o}), Listed(d1, o), now, id);
  }

  /** A listed ID is one the manager has forgotten exactly when another connection has ended it. */
  ghost predicate ForeignInv(d: Desk) {
    && (forall id :: id in d.foreign ==> id in d.owner)
    && (forall c, id :: c in d.tracked && id in d.tracked[c] ==> (id !in d.active <==> id in d.foreign))
  }

  lemma {:induction false} CloseAllForgets(d: Desk, ids: seq<int>, now: int, fails: set<int>)
    ensures var d' := CloseAll(d, ids, now, fails);
      && d'.tracked == d.tracked && d'.owner == d.owner && d'.foreign == d.foreign
      && (forall id :: id in d'.active <==> id in d.active && id !in ids)
  {
    if ids != [] {
      var n := |ids| - 1;
      assert ids == ids[..n] + [ids[n]];
      CloseAllForgets(d, ids[..n], now, fails);
    }
  }

  lemma EndKeepsForeign(d: Desk, c: Conn, id: int, ts: int, fails: bool)
    requires ListsAgree(d) && ForeignInv(d)
    ensures ForeignInv(End(d, c, id, ts, fails))
  {
    if c in d.tracked {
      WithoutKeeps(d.tracked[c], id);
    }
  }

  lemma StepKeepsForeign(d: Desk, step: Step)
    requires Agree(d) && ForeignInv(d)
    ensures ForeignInv(Apply(d, step))
  {
    if step.DoEnd? {
      EndKeepsForeign(d, step.c, step.id, step.ts, step.fails);
    } else if step.DoCleanup? {
      CloseAllForgets(d.(tracked := d.tracked - {step.c}), Listed(d, step.c), step.now, step.failing);
    } else if step.DoStart? && !step.fails {
      var id, d' := d.tables.lastSession + 1, Apply(d, step);
      assert id !in d.owner;
      forall c, x | c in d'.tracked && x in d'.tracked[c] ensures x !in d'.active <==> x in d'.foreign {
        assert x == id || (c in d.tracked && x in d.tracked[c]);
      }
    }
  }

  lemma {:induction false} RunKeepsForeign(t: Tables, steps: seq<Step>)
    requires WellFormed(t)
    ensures ForeignInv(Run(NewDesk(t), steps))
  {
    if steps != [] {
      var before := steps[..|steps| - 1];
      RunKeepsForeign(t, before);
      RunKeeps(NewDesk(t), before);
      StepKeepsForeign(Run(NewDesk(t), before), steps[|steps| - 1]);
    }
  }

  /** Over every run: a listed ID is not active exactly when another connection's session_end named it. */
  lemma ListedButForgottenIffForeign(t: Tables, steps: seq<Step>, c: Conn, id: int)
    requires WellFormed(t)
    ensures var d := Run(NewDesk(t), steps);
      id in Listed(d, c) ==> (id !in d.active <==> id in d.foreign)
  {
    RunKeepsForeign(t, steps);
  }

  /** The connection registered a session, and has not been cleaned up since. */
  predicate Registers(steps: seq<Step>, c: Conn) {
    if steps == [] then false
    else
      var last := steps[|steps| - 1];
      if last.DoStart? && last.c == c && !last.fails then true
      else if last.DoCleanup? && last.c == c then false
      else Registers(steps[..|steps| - 1], c)
  }

  /** What the tracker counts: the connections with a session of this run that have not been cleaned up. */
  lemma {:induction false} TrackedUntilCleanup(t: Tables, steps: seq<Step>, c: Conn)
    ensures c in Run(NewDesk(t), steps).tracked <==> Registers(steps, c)
  {
    if steps != [] {
      var before, last := steps[..|steps| - 1], steps[|steps| - 1];
      TrackedUntilCleanup(t, before, c);
      if last.DoCleanup? {
        var d := Run(NewDesk(t), before);
        CloseAllForgets(d.(tracked := d.tracked - {last.c}), Listed(d, last.c), last.now, last.failing);
      }
    }
  }

  /** What the manager counts: the sessions of this run that are open in the table and were not stranded there. */
  function OpenHere(d: Desk): set<int> {
    set id: int | id in d.tables.sessions && id > d.base && IsOpen(d.tables, id) && id !in d.stranded
  }

  lemma ActiveIsOpenHere(d: Desk)
    requires RowsAgree(d)
    ensures |d.active| == |OpenHere(d)|
  {
    forall id: int ensures id in d.active <==> id in OpenHere(d) {
      assert IsOpen(d.tables, id) ==> id in d.tables.sessions;
    }
    assert d.active.Keys == OpenHere(d) && |d.active| == |d.active.Keys|;
  }

  /** The manager's entry and the table's row say the same; when it started, only the client's and the broker's clock. */
  predicate Describes(s: Session, row: SessionRow) {
    s.service == row.service && s.pid == row.pid && s.command == row.command && s.hostname == row.hostname
  }

  ghost predicate DetailsAgree(d: Desk) {
    forall id :: id in d.active && id in d.tables.sessions ==> Describes(d.active[id], d.tables.sessions[id])
  }

  lemma CloseKeepsDetails(d: Desk, id: int, ts: int, fails: bool)
    requires DetailsAgree(d)
    ensures DetailsAgree(Close(d, id, ts, fails))
  {
  }

  lemma {:induction false} CloseAllKeepsDetails(d: Desk, ids: seq<int>, now: int, fails: set<int>)
    requires DetailsAgree(d)
    ensures DetailsAgree(CloseAll(d, ids, now, fails))
  {
    hide DetailsAgree, Close;
    if ids != [] {
      var n := |ids| - 1;
      CloseAllKeepsDetails(d, ids[..n], now, fails);
      CloseKeepsDetails(CloseAll(d, ids[..n], now, fails), ids[n], now, ids[n] in fails);
    }
  }

  lemma StepKeepsDetails(d: Desk, step: Step)
    requires DetailsAgree(d)
    ensures DetailsAgree(Apply(d, step))
  {
    match step
    case DoStart(c, m, host, now, fails) =>
    case DoEnd(c, id, ts, fails) => CloseKeepsDetails(d, id, ts, fails);
    case DoCleanup(c, now, failing) =>
      CloseAllKeepsDetails(d.(tracked := d.tracked - {c}), Listed(d, c), now, failing);
    case DoPrune(cutoff) =>
  }

  lemma {:induction false} RunKeepsDetails(d: Desk, steps: seq<Step>)
    requires DetailsAgree(d)
    ensures DetailsAgree(Run(d, steps))
  {
    hide DetailsAgree, Apply;
    if steps != [] {
      RunKeepsDetails(d, steps[..|steps| - 1]);
      StepKeepsDetails(Run(d, steps[..|steps| - 1]), steps[|steps| - 1]);
    }
  }

  /** Over every run, an active session is in the table, open, and described there by the same service, PID, command and host. */
  lemma ActiveDescribesItsRow(t: Tables, steps: seq<Step>, id: int)
    requires WellFormed(t) && id in Run(NewDesk(t), steps).active
    ensures var d := Run(NewDesk(t), steps);
      id in d.tables.sessions && Describes(d.active[id], d.tables.sessions[id]) && d.active[id].id == id
  {
    RunKeepsDetails(NewDesk(t), steps);
    RunKeeps(NewDesk(t), steps);
  }

  /** After a cleanup without store errors nothing the connection owned is active or open. */
  lemma CleanupEndsEverything(d: Desk, c: Conn, now: int, id: int)
    requires Agree(d) && id in d.owner && d.owner[id] == c && id !in d.stranded
    ensures var d' := Cleanup(d, c, now, {});
      c !in d'.tracked && id !in d'.active && !IsOpen(d'.tables, id)
  {
    CleanupKeeps(d, c, now, {});
    var gone := d.(tracked := d.tracked - {c});
    CloseAllKeeps(gone, Listed(d, c), now, {});
    CloseAllStrandedSubset(gone, Listed(d, c), now);
  }

  lemma {:induction false} CloseAllStrandedSubset(d: Desk, ids: seq<int>, now: int)
    ensures CloseAll(d, ids, now, {}).stranded <= d.stranded
  {
    if ids != [] { CloseAllStrandedSubset(d, ids[..|ids| - 1], now); }
  }
}
