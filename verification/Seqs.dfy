/** Sequence vocabulary shared by the whole model. */
module Seqs {

  datatype Option<+T> = None | Some(value: T)

  function Min(a: int, b: int): int {
    if a <= b then a else b
  }

  /** The last `n` elements of `s`, or all of it when it is shorter. */
  function LastN<T>(s: seq<T>, n: nat): (r: seq<T>)
    ensures |r| == Min(|s|, n)
    ensures forall i :: 0 <= i < |r| ==> r[i] == s[|s| - |r| + i]
  {
    if |s| <= n then s else s[|s| - n..]
  }

  function Reverse<T>(s: seq<T>): (r: seq<T>)
    ensures |r| == |s|
    ensures forall i :: 0 <= i < |s| ==> r[i] == s[|s| - 1 - i]
  {
    seq(|s|, i requires 0 <= i < |s| => s[|s| - 1 - i])
  }

  /** The elements of `s` that satisfy `keep`, in order. */
  function Filter<T(!new)>(s: seq<T>, keep: T -> bool): (r: seq<T>)
    ensures |r| <= |s|
    ensures forall x :: x in r <==> x in s && keep(x)
  {
    if s == [] then []
    else
      var rest := Filter(s[..|s| - 1], keep);
      var x := s[|s| - 1];
      assert s == s[..|s| - 1] + [x];
      if keep(x) then rest + [x] else rest
  }

  function Map<T, U>(s: seq<T>, f: T -> U): (r: seq<U>)
    ensures |r| == |s|
    ensures forall i :: 0 <= i < |s| ==> r[i] == f(s[i])
  {
    seq(|s|, i requires 0 <= i < |s| => f(s[i]))
  }

  function Flatten<T>(parts: seq<seq<T>>): seq<T> {
    if parts == [] then [] else parts[0] + Flatten(parts[1..])
  }

  /** Some x stands before some y. */
  predicate ComesBefore<T(==)>(s: seq<T>, x: T, y: T) {
    exists i, j :: 0 <= i < j < |s| && s[i] == x && s[j] == y
  }

  predicate Distinct<T(==)>(s: seq<T>) {
    forall i, j :: 0 <= i < j < |s| ==> s[i] != s[j]
  }

  lemma {:induction false} FilterConcat<T(!new)>(a: seq<T>, b: seq<T>, keep: T -> bool)
    ensures Filter(a + b, keep) == Filter(a, keep) + Filter(b, keep)
  {
    if b == [] {
      assert a + b == a;
    } else {
      assert (a + b)[..|a + b| - 1] == a + b[..|b| - 1];
      FilterConcat(a, b[..|b| - 1], keep);
    }
  }

  /** Keeping part of a sequence keeps the multiplicity of what is kept. */
  lemma {:induction false} FilterCount<T(!new)>(s: seq<T>, keep: T -> bool, x: T)
    ensures multiset(Filter(s, keep))[x] == if keep(x) then multiset(s)[x] else 0
  {
    if s != [] {
      FilterCount(s[..|s| - 1], keep, x);
      assert s == s[..|s| - 1] + [s[|s| - 1]];
    }
  }

  lemma {:induction false} FilterMap<T(!new), U(!new)>(s: seq<T>, f: T -> U, keep: U -> bool, keep': T -> bool)
    requires forall x :: x in s ==> keep(f(x)) == keep'(x)
    ensures Filter(Map(s, f), keep) == Map(Filter(s, keep'), f)
  {
    if s != [] {
      var n := |s| - 1;
      assert s[..n] + [s[n]] == s;
      FilterMap(s[..n], f, keep, keep');
      assert Map(s, f)[..n] == Map(s[..n], f);
    }
  }

  lemma ReverseTake<T>(s: seq<T>, n: nat)
    ensures Reverse(Reverse(s)[..Min(n, |s|)]) == LastN(s, n)
  {
    var m := Min(n, |s|);
    assert Reverse(s)[..m] == Reverse(LastN(s, m)) by {
      forall i | 0 <= i < m ensures Reverse(s)[..m][i] == Reverse(LastN(s, m))[i] {
      }
    }
  }

  /** Truncating early or late to the last `n` elements makes no difference. */
  lemma LastNConcat<T>(a: seq<T>, b: seq<T>, n: nat)
    ensures LastN(LastN(a, n) + b, n) == LastN(a + b, n)
  {
    var l, r := LastN(LastN(a, n) + b, n), LastN(a + b, n);
    assert |l| == |r|;
    forall i | 0 <= i < |l| ensures l[i] == r[i] {
      var j := |a + b| - |r| + i;
      assert r[i] == (a + b)[j];
      if j >= |a| {
        assert r[i] == b[j - |a|];
      }
    }
  }

  lemma LastNOfLastN<T>(s: seq<T>, n: nat, m: nat)
    requires n <= m
    ensures LastN(LastN(s, m), n) == LastN(s, n)
  {
  }

  lemma MapConcat<T, U>(a: seq<T>, b: seq<T>, f: T -> U)
    ensures Map(a + b, f) == Map(a, f) + Map(b, f)
  {
  }

  lemma MapLastN<T, U>(s: seq<T>, f: T -> U, n: nat)
    ensures LastN(Map(s, f), n) == Map(LastN(s, n), f)
  {
  }
}
