/** internal/cache/ringbuffer.go: a fixed-capacity circular buffer. */
module RingBuffers {
  import opened Seqs

  /** Index arithmetic of the circular array, free of division for the solver. */
  lemma ModOnce(x: nat, cap: nat)
    requires 0 < cap && x < 2 * cap
    ensures x % cap == if x < cap then x else x - cap
  {
    if x >= cap {
      assert x == 1 * cap + (x - cap);
    }
  }

  function Clamp(capacity: int): (cap: nat)
    ensures cap >= 1
  {
    if capacity < 1 then 1 else capacity
  }

  /** What a caller may do to a buffer, for speaking about whole runs. */
  datatype Op<+T> = Push(item: T) | Clear

  /** Everything pushed since the last Clear of a run. */
  function SinceClear<T>(ops: seq<Op<T>>): seq<T> {
    if ops == [] then []
    else
      match ops[|ops| - 1]
      case Push(x) => SinceClear(ops[..|ops| - 1]) + [x]
      case Clear => []
  }

  /** The slot that holds the k-th newest item (k = 1 is the newest). */
  function Slot(head: nat, cap: nat, k: nat): (i: nat)
    requires head < cap && 1 <= k <= cap
    ensures i < cap
  {
    if k <= head then head - k else head + cap - k
  }

  class RingBuffer<T(0)> {
    const buf: array<T>
    const cap: nat
    var head: nat
    var count: nat
    /** Everything pushed since the last Clear, however much of it has been overwritten. */
    ghost var history: seq<T>

    ghost predicate Valid()
      reads this, buf
    {
      && 1 <= cap == buf.Length
      && head < cap
      && count == Min(|history|, cap)
      && forall k :: 1 <= k <= count ==> buf[Slot(head, cap, k)] == history[|history| - k]
    }

    constructor (capacity: int)
      ensures Valid() && fresh(buf) && cap == Clamp(capacity) && history == []
    {
      cap := Clamp(capacity);
      buf := new T[Clamp(capacity)];
      head, count, history := 0, 0, [];
    }

    method Push(item: T)
      requires Valid()
      modifies this, buf
      ensures Valid() && history == old(history) + [item]
    {
      ModOnce(head + 1, cap);
      buf[head] := item;
      head := (head + 1) % cap;
      if count < cap {
        count := count + 1;
      }
      history := history + [item];
      assert forall k :: 2 <= k <= count ==> Slot(head, cap, k) == Slot(old(head), cap, k - 1) != old(head);
    }

    /** The last min(n, count) items pushed, oldest first; nothing for n <= 0. */
    method Recent(n: int) returns (result: seq<T>)
      requires Valid()
      ensures result == if n <= 0 then [] else LastN(history, Min(n, cap))
    {
      if n <= 0 {
        return [];
      }
      var m := if n > count then count else n;
      var items := new T[m];
      var start := (head - m + cap) % cap;
      ModOnce(head - m + cap, cap);
      for i := 0 to m
        invariant forall j :: 0 <= j < i ==> items[j] == history[|history| - m + j]
      {
        ModOnce(start + i, cap);
        assert (start + i) % cap == Slot(head, cap, m - i);
        items[i] := buf[(start + i) % cap];
      }
      result := items[..];
    }

    method Len() returns (n: nat)
      requires Valid()
      ensures n == Min(|history|, cap)
    {
      n := count;
    }

    method Clear(zero: T)
      requires Valid()
      modifies this, buf
      ensures Valid() && history == []
      ensures forall i :: 0 <= i < cap ==> buf[i] == zero
    {
      for i := 0 to buf.Length
        invariant forall j :: 0 <= j < i ==> buf[j] == zero
      {
        buf[i] := zero;
      }
      head, count, history := 0, 0, [];
    }
  }

  /** Whole runs: any pushes and clears on a buffer of any requested capacity, then Recent(n). */
  method Drive<T(0)>(capacity: int, ops: seq<Op<T>>, n: int, zero: T) returns (recent: seq<T>, len: nat)
    ensures recent == if n <= 0 then [] else LastN(SinceClear(ops), Min(n, Clamp(capacity)))
    ensures len == Min(|SinceClear(ops)|, Clamp(capacity))
  {
    var r := new RingBuffer<T>(capacity);
    for i := 0 to |ops|
      invariant fresh(r) && fresh(r.buf) && r.Valid() && r.cap == Clamp(capacity)
      invariant r.history == SinceClear(ops[..i])
    {
      assert ops[..i + 1][..i] == ops[..i];
      match ops[i] {
        case Push(x) => r.Push(x);
        case Clear => r.Clear(zero);
      }
    }
    assert ops[..|ops|] == ops;
    recent := r.Recent(n);
    len := r.Len();
  }
}
