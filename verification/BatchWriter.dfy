/** The batch writer (internal/broker/broker.go): functions on values, then the loop over one reused array. */
module BatchWriters {
  import opened Seqs
  import opened Records
  import opened Storage
  import O = Ownership
  import Decimal

  const BATCH_SIZE := 500
  const EVENT_CH_SIZE := 10000

  /** An event with its origin: the n-th log message read from connection `conn`. */
  datatype Item = Item(conn: O.Conn, n: nat, msg: LogMessage)

  /** One insert call: what it was given and whether the transaction committed. */
  datatype InsertCall = InsertCall(items: seq<Item>, ok: bool)

  datatype Writer = Writer(batch: seq<Item>, tables: Tables, flushes: seq<InsertCall>)

  function RecordOf(): Item -> Record {
    (it: Item) => ToRecord(it.msg)
  }

  function FlushBatch(w: Writer, fails: bool): Writer {
    if w.batch == [] then w
    else Writer([],
                if fails then w.tables else WithEvents(w.tables, Map(w.batch, RecordOf())),
                w.flushes + [InsertCall(w.batch, !fails)])
  }

  function OnMessage(w: Writer, it: Item, fails: bool): Writer {
    var w' := w.(batch := w.batch + [it]);
    if |w'.batch| >= BATCH_SIZE then FlushBatch(w', fails) else w'
  }

  /** What one turn of the select loop woke up to, and what the store will answer if it is asked. */
  datatype Wake = Message(item: Item, fails: bool) | Ticked(fails: bool)

  function Turn(w: Writer, wake: Wake): Writer {
    match wake
    case Message(it, fails) => OnMessage(w, it, fails)
    case Ticked(fails) => FlushBatch(w, fails)
  }

  /** The loop up to the close of the channel. */
  function Turns(w: Writer, wakes: seq<Wake>): Writer {
    if wakes == [] then w
    else
      Turn(Turns(w, wakes[..|wakes| - 1]), wakes[|wakes| - 1])
  }

  function Items(wakes: seq<Wake>): seq<Item> {
    if wakes == [] then []
    else Items(wakes[..|wakes| - 1]) + (match wakes[|wakes| - 1] case Message(it, _) => [it] case Ticked(_) => [])
  }

  /** All events handed to insert calls, in order; and those whose call committed. */
  function Flushed(flushes: seq<InsertCall>): seq<Item> {
    if flushes == [] then [] else Flushed(flushes[..|flushes| - 1]) + flushes[|flushes| - 1].items
  }

  function Persisted(flushes: seq<InsertCall>): seq<Item> {
    if flushes == [] then []
    else
      var last := flushes[|flushes| - 1];
      Persisted(flushes[..|flushes| - 1]) + if last.ok then last.items else []
  }

  lemma {:induction false} FlushedSnoc(flushes: seq<InsertCall>, f: InsertCall)
    ensures Flushed(flushes + [f]) == Flushed(flushes) + f.items
    ensures Persisted(flushes + [f]) == Persisted(flushes) + if f.ok then f.items else []
  {
    assert (flushes + [f])[..|flushes|] == flushes;
  }

  lemma {:induction false} AllCommitted(flushes: seq<InsertCall>)
    requires forall i :: 0 <= i < |flushes| ==> flushes[i].ok
    ensures Persisted(flushes) == Flushed(flushes)
  {
    if flushes != [] { AllCommitted(flushes[..|flushes| - 1]); }
  }

  /** A batch is never empty when inserted, never above the limit, and below it at the loop head. */
  predicate Sized(batch: seq<Item>, flushes: seq<InsertCall>) {
    |batch| < BATCH_SIZE && CallsSized(flushes)
  }

  predicate CallsSized(flushes: seq<InsertCall>) {
    forall i :: 0 <= i < |flushes| ==> 1 <= |flushes[i].items| <= BATCH_SIZE
  }

  lemma FlushFacts(w: Writer, fails: bool)
    ensures var w' := FlushBatch(w, fails);
      && Flushed(w'.flushes) + w'.batch == Flushed(w.flushes) + w.batch
      && w'.batch == []
      && (|w.batch| <= BATCH_SIZE && CallsSized(w.flushes) ==> Sized(w'.batch, w'.flushes))
  {
    FlushedSnoc(w.flushes, InsertCall(w.batch, !fails));
  }

  lemma MessageFacts(w: Writer, it: Item, fails: bool)
    requires Sized(w.batch, w.flushes)
    ensures var w' := OnMessage(w, it, fails);
      && Flushed(w'.flushes) + w'.batch == Flushed(w.flushes) + w.batch + [it]
      && Sized(w'.batch, w'.flushes)
  {
    FlushFacts(w.(batch := w.batch + [it]), fails);
    assert Flushed(w.flushes) + (w.batch + [it]) == Flushed(w.flushes) + w.batch + [it];
  }

  /** The rows of the table are the committed batches and nothing else, numbered on from where it stood. */
  ghost predicate TableHolds(w: Writer, t0: Tables) {
    && w.tables == WithEvents(t0, Map(Persisted(w.flushes), RecordOf()))
  }

  lemma WithEventsTwice(t: Tables, a: seq<Record>, b: seq<Record>)
    ensures WithEvents(WithEvents(t, a), b) == WithEvents(t, a + b)
  {
    assert Number(a, t.lastEvent) + Number(b, t.lastEvent + |a|) == Number(a + b, t.lastEvent);
  }

  lemma FlushKeepsTable(w: Writer, t0: Tables, fails: bool)
    requires TableHolds(w, t0)
    ensures TableHolds(FlushBatch(w, fails), t0)
  {
    FlushedSnoc(w.flushes, InsertCall(w.batch, !fails));
    var done := Persisted(w.flushes);
    WithEventsTwice(t0, Map(done, RecordOf()), Map(w.batch, RecordOf()));
    MapConcat(done, w.batch, RecordOf());
    assert done + [] == done;
  }

  /**
   Every run of the loop: events leave in channel order, in batches of 1 to 500; the table gains exactly
   the committed batches; and once the channel is closed nothing is left behind.
  */
  lemma {:induction false} WriterConserves(t0: Tables, wakes: seq<Wake>)
    ensures var w := Turns(Writer([], t0, []), wakes);
      Sized(w.batch, w.flushes) && TableHolds(w, t0) && Flushed(w.flushes) + w.batch == Items(wakes)
  {
    var start := Writer([], t0, []);
    if wakes == [] {
      assert Map<Item, Record>([], RecordOf()) == [];
      assert Number([], t0.lastEvent) == [];
    } else {
      var init, last := wakes[..|wakes| - 1], wakes[|wakes| - 1];
      WriterConserves(t0, init);
      var w := Turns(start, init);
      match last {
        case Message(it, fails) =>
          MessageFacts(w, it, fails);
          FlushKeepsTable(w.(batch := w.batch + [it]), t0, fails);
        case Ticked(fails) =>
          FlushFacts(w, fails);
          FlushKeepsTable(w, t0, fails);
      }
    }
  }

  lemma FinalFlushLeavesNothing(t0: Tables, wakes: seq<Wake>, fails: bool)
    ensures var w := FlushBatch(Turns(Writer([], t0, []), wakes), fails);
      w.batch == [] && Flushed(w.flushes) == Items(wakes) && TableHolds(w, t0)
  {
    WriterConserves(t0, wakes);
    var w := Turns(Writer([], t0, []), wakes);
    FlushFacts(w, fails);
    FlushKeepsTable(w, t0, fails);
    assert Flushed(FlushBatch(w, fails).flushes) + [] == Flushed(FlushBatch(w, fails).flushes);
  }

  predicate NoneFails(wakes: seq<Wake>) {
    forall i :: 0 <= i < |wakes| ==> !wakes[i].fails
  }

  predicate NoneLost(flushes: seq<InsertCall>) {
    forall i :: 0 <= i < |flushes| ==> flushes[i].ok
  }

  lemma TurnLosesNone(w: Writer, wake: Wake)
    requires !wake.fails && NoneLost(w.flushes)
    ensures NoneLost(Turn(w, wake).flushes)
  {
  }

  lemma {:induction false} NoCallFails(t0: Tables, wakes: seq<Wake>)
    requires NoneFails(wakes)
    ensures NoneLost(Turns(Writer([], t0, []), wakes).flushes)
  {
    if wakes != [] {
      var n := |wakes| - 1;
      NoCallFails(t0, wakes[..n]);
      assert !wakes[n].fails;
      TurnLosesNone(Turns(Writer([], t0, []), wakes[..n]), wakes[n]);
    }
  }

  /**
   A tick leaves nothing waiting: after any schedule that ends in one the batch is empty, everything received so far went
   to an insert call, and if no call failed it is in the table, every event with its own contents.
  */
  lemma TickLeavesNothing(t0: Tables, wakes: seq<Wake>, fails: bool)
    ensures var w := Turns(Writer([], t0, []), wakes + [Ticked(fails)]);
      && w.batch == [] && Flushed(w.flushes) == Items(wakes)
      && (NoneFails(wakes) && !fails ==> w.tables == WithEvents(t0, Map(Items(wakes), RecordOf())))
  {
    var all := wakes + [Ticked(fails)];
    assert all[..|wakes|] == wakes;
    assert Items(all) == Items(wakes) + [];
    WriterConserves(t0, all);
    var w := Turns(Writer([], t0, []), all);
    assert w.batch == [] by { TickEmpties(t0, wakes, fails); }
    assert Flushed(w.flushes) + [] == Flushed(w.flushes);
    if NoneFails(wakes) && !fails {
      NoCallFails(t0, all);
      AllCommitted(w.flushes);
    }
  }

  lemma TickEmpties(t0: Tables, wakes: seq<Wake>, fails: bool)
    ensures Turns(Writer([], t0, []), wakes + [Ticked(fails)]).batch == []
  {
    assert (wakes + [Ticked(fails)])[..|wakes|] == wakes;
  }

  lemma TurnsSnoc(w: Writer, wakes: seq<Wake>, wake: Wake)
    ensures Turns(w, wakes + [wake]) == Turn(Turns(w, wakes), wake)
  {
    assert (wakes + [wake])[..|wakes|] == wakes;
  }

  /** And whatever comes later, nothing received before a tick is ever waiting again. */
  lemma {:induction false} NothingWaitsPastATick(t0: Tables, before: seq<Wake>, fails: bool, after: seq<Wake>)
    ensures var f := Flushed(Turns(Writer([], t0, []), before + [Ticked(fails)] + after).flushes);
      |Items(before)| <= |f| && f[..|Items(before)|] == Items(before)
  {
    var upTo := before + [Ticked(fails)];
    if after == [] {
      assert upTo + after == upTo;
      TickLeavesNothing(t0, before, fails);
    } else {
      var n := |after| - 1;
      assert upTo + after == upTo + after[..n] + [after[n]];
      NothingWaitsPastATick(t0, before, fails, after[..n]);
      hide Turn, Flushed, Items;
      var w := Turns(Writer([], t0, []), upTo + after[..n]);
      TurnsSnoc(Writer([], t0, []), upTo + after[..n], after[n]);
      FlushedGrows(w, after[n]);
      PrefixOfPrefix(Flushed(w.flushes), Flushed(Turn(w, after[n]).flushes), |Items(before)|);
    }
  }

  lemma PrefixOfPrefix<T>(a: seq<T>, b: seq<T>, n: nat)
    requires n <= |a| <= |b| && b[..|a|] == a
    ensures b[..n] == a[..n]
  {
  }

  lemma FlushedGrows(w: Writer, wake: Wake)
    ensures var f, f' := Flushed(w.flushes), Flushed(Turn(w, wake).flushes); |f| <= |f'| && f'[..|f|] == f
  {
    var batch := if wake.Message? then w.batch + [wake.item] else w.batch;
    FlushedSnoc(w.flushes, InsertCall(batch, !wake.fails));
  }

  // ---------------------------------------------------------------------------------------------

  /** The goroutine itself: one array of 500 records, reused for every batch. */
  class BatchWriter {
    const store: Store
    const slots: array<Record>
    var len: nat
    ghost var items: seq<Item>
    ghost var flushes: seq<InsertCall>

    ghost predicate Valid()
      reads this, slots
    {
      && slots.Length == BATCH_SIZE
      && len == |items| <= BATCH_SIZE
      && slots[..len] == Map(items, RecordOf())
    }

    ghost function Abs(): Writer
      reads this, store
    {
      Writer(items, store.Contents(), flushes)
    }

    constructor (store: Store)
      ensures Valid() && fresh(slots) && this.store == store && items == [] && flushes == []
    {
      this.store := store;
      slots := new Record[BATCH_SIZE](_ => Record(0, 0, "", "", "", ""));
      len, items, flushes := 0, [], [];
    }

    method Flush(fails: bool)
      requires Valid()
      modifies this, store
      ensures Valid() && Abs() == FlushBatch(old(Abs()), fails)
      ensures len == 0 && items == []
      ensures flushes == if old(len) == 0 then old(flushes) else old(flushes) + [InsertCall(old(items), !fails)]
    {
      if len == 0 {
        return;
      }
      var ok := store.InsertLogEvents(slots[..len], if fails then len else len + 1);
      flushes := flushes + [InsertCall(items, ok)];
      items := [];
      len := 0;
    }

    /** Appending never runs past the end of the array, so the batch is never reallocated. */
    method Receive(it: Item, fails: bool)
      requires Valid() && len < BATCH_SIZE
      modifies this, store, slots
      ensures Valid() && len < BATCH_SIZE && Abs() == OnMessage(old(Abs()), it, fails)
      ensures slots[old(len)] == Record(Decimal.ParseInt(it.msg.session).value, it.msg.timestamp, it.msg.stream,
                                        LevelOf(it.msg), it.msg.message, it.msg.service)
      ensures if old(len) + 1 < 500 then len == old(len) + 1 && flushes == old(flushes)
              else len == 0 && flushes == old(flushes) + [InsertCall(old(items) + [it], !fails)]
    {
      slots[len] := ToRecord(it.msg);
      len := len + 1;
      items := items + [it];
      assert slots[..len] == old(slots[..len]) + [ToRecord(it.msg)];
      if len >= BATCH_SIZE {
        Flush(fails);
      }
    }

    /** batchWriter: the select loop until the channel is closed and drained, then a final flush. */
    method Loop(wakes: seq<Wake>, lastFails: bool)
      requires Valid() && len == 0
      modifies this, store, slots
      ensures Valid() && Abs() == FlushBatch(Turns(old(Abs()), wakes), lastFails)
    {
      for i := 0 to |wakes|
        invariant Valid() && len < BATCH_SIZE && Abs() == Turns(old(Abs()), wakes[..i])
      {
        assert wakes[..i + 1][..i] == wakes[..i];
        match wakes[i] {
          case Message(it, fails) => Receive(it, fails);
          case Ticked(fails) => Flush(fails);
        }
      }
      assert wakes[..|wakes|] == wakes;
      Flush(lastFails);
    }
  }
}
