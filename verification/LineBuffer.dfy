/** internal/client/linebuffer.go: the client's ring of unsent lines during broker downtime. */
module LineBuffers {
  import opened Seqs
  import opened RingBuffers

  const CAPACITY := 1000

  datatype LineOp<+L> = PushLine(line: L) | Drain

  /** The lines pushed since the last drain of a run. */
  function SinceDrain<L>(ops: seq<LineOp<L>>): seq<L> {
    if ops == [] then []
    else
      match ops[|ops| - 1]
      case PushLine(l) => SinceDrain(ops[..|ops| - 1]) + [l]
      case Drain => []
  }

  /** What each drain of a run hands back: at most the newest CAPACITY lines since the one before. */
  function Drained<L>(ops: seq<LineOp<L>>): seq<seq<L>> {
    if ops == [] then []
    else
      var before := ops[..|ops| - 1];
      match ops[|ops| - 1]
      case PushLine(_) => Drained(before)
      case Drain => Drained(before) + [LastN(SinceDrain(before), CAPACITY)]
  }

  class LineBuffer<L(0)> {
    const buf: array<L>
    var head: nat
    var count: nat
    /** The lines pushed since the last drain, including those already overwritten. */
    ghost var pushed: seq<L>

    ghost predicate Valid()
      reads this, buf
    {
      && buf.Length == CAPACITY
      && head < CAPACITY
      && count == Min(|pushed|, CAPACITY)
      && forall k :: 1 <= k <= count ==> buf[Slot(head, CAPACITY, k)] == pushed[|pushed| - k]
    }

    /** The lines a drain would return now. */
    ghost function Contents(): seq<L>
      reads this
    {
      LastN(pushed, CAPACITY)
    }

    constructor ()
      ensures Valid() && fresh(buf) && pushed == []
    {
      buf := new L[CAPACITY];
      head, count, pushed := 0, 0, [];
    }

    method Push(line: L)
      requires Valid()
      modifies this, buf
      ensures Valid() && pushed == old(pushed) + [line]
    {
      ModOnce(head + 1, CAPACITY);
      buf[head] := line;
      head := (head + 1) % CAPACITY;
      if count < CAPACITY {
        count := count + 1;
      }
      pushed := pushed + [line];
      assert forall k :: 2 <= k <= count ==>
          Slot(head, CAPACITY, k) == Slot(old(head), CAPACITY, k - 1) != old(head);
    }

    method Drain() returns (lines: seq<L>)
      requires Valid()
      modifies this
      ensures Valid() && pushed == []
      ensures lines == old(Contents()) == LastN(old(pushed), 1000)
    {
      if count == 0 {
        return [];
      }
      var result := new L[count];
      var start := (head - count + CAPACITY) % CAPACITY;
      for i := 0 to count
        invariant head == old(head) && count == old(count) && pushed == old(pushed) && Valid()
        invariant forall j :: 0 <= j < i ==> result[j] == pushed[|pushed| - count + j]
      {
        assert (start + i) % CAPACITY == Slot(head, CAPACITY, count - i);
        result[i] := buf[(start + i) % CAPACITY];
      }
      lines := result[..];
      head, count, pushed := 0, 0, [];
    }

    method Len() returns (n: nat)
      requires Valid()
      ensures n == |Contents()|
    {
      n := count;
    }
  }

  /** Whole runs of pushes and drains: every drain returns exactly the bounded suffix it should. */
  method Drive<L(0)>(ops: seq<LineOp<L>>) returns (drains: seq<seq<L>>)
    ensures drains == Drained(ops)
  {
    var lb := new LineBuffer<L>();
    drains := [];
    for i := 0 to |ops|
      invariant fresh(lb) && fresh(lb.buf) && lb.Valid()
      invariant lb.pushed == SinceDrain(ops[..i])
      invariant drains == Drained(ops[..i])
    {
      assert ops[..i + 1][..i] == ops[..i];
      match ops[i] {
        case PushLine(l) => lb.Push(l);
        case Drain =>
          var lines := lb.Drain();
          drains := drains + [lines];
      }
    }
    assert ops[..|ops|] == ops;
  }
}
