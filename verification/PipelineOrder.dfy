/** Cache order and channel order: exactly when two handlers of one service make them differ. */
module PipelineOrder {
  import opened Seqs
  import opened Records
  import opened Storage
  import opened BatchWriters
  import opened Lifecycle
  import opened LifecycleSafety
  import O = Ownership

  /** Among the first n events the channel took is one of x's service that was cached after x. */
  ghost predicate Passed(cached: seq<Item>, accepted: seq<Item>, n: nat, x: Item) {
    exists i :: 0 <= i < n && i < |accepted| && accepted[i].msg.service == x.msg.service
                && ComesBefore(cached, x, accepted[i])
  }

  /** The event accepted at j follows, in the channel, one of its service that was cached after it. */
  ghost predicate OutOfOrder(p: Pipe, j: nat) {
    j < |p.accepted| && Passed(p.cached, p.accepted, j, p.accepted[j])
  }

  ghost predicate OvertakeInv(cached: seq<Item>, accepted: seq<Item>, handlers: seq<Handler>, overtaken: set<Item>) {
    && (forall x :: x in overtaken ==> Passed(cached, accepted, |accepted|, x))
    && (forall x :: InFlight(handlers, x) ==> (Passed(cached, accepted, |accepted|, x) ==> x in overtaken))
    && (forall j :: 0 <= j < |accepted| ==> (Passed(cached, accepted, j, accepted[j]) <==> accepted[j] in overtaken))
  }

  lemma BeforeSnoc(s: seq<Item>, z: Item, x: Item, y: Item)
    requires z !in s && y != z
    ensures ComesBefore(s + [z], x, y) <==> ComesBefore(s, x, y)
  {
    var t := s + [z];
    if ComesBefore(s, x, y) {
      var i, j :| 0 <= i < j < |s| && s[i] == x && s[j] == y;
      assert t[i] == x && t[j] == y;
    }
    if ComesBefore(t, x, y) {
      var i, j :| 0 <= i < j < |t| && t[i] == x && t[j] == y;
      assert j < |s| && s[i] == x && s[j] == y;
    }
  }

  lemma PassedAfterCache(cached: seq<Item>, accepted: seq<Item>, n: nat, x: Item, it: Item)
    requires it !in cached && it !in accepted
    ensures Passed(cached + [it], accepted, n, x) <==> Passed(cached, accepted, n, x)
  {
    forall i | 0 <= i < |accepted|
      ensures ComesBefore(cached + [it], x, accepted[i]) <==> ComesBefore(cached, x, accepted[i])
    {
      BeforeSnoc(cached, it, x, accepted[i]);
    }
  }

  lemma PassedAfterSend(cached: seq<Item>, accepted: seq<Item>, n: nat, x: Item, it: Item)
    requires n <= |accepted|
    ensures Passed(cached, accepted + [it], n, x) <==> Passed(cached, accepted, n, x)
    ensures Passed(cached, accepted + [it], |accepted| + 1, x) <==>
        Passed(cached, accepted, |accepted|, x) || (it.msg.service == x.msg.service && ComesBefore(cached, x, it))
  {
    var longer := accepted + [it];
    forall i | 0 <= i < |accepted| ensures longer[i] == accepted[i] {}
    if Passed(cached, accepted, |accepted|, x) {
      var i :| 0 <= i < |accepted| && accepted[i].msg.service == x.msg.service && ComesBefore(cached, x, accepted[i]);
      assert longer[i] == accepted[i];
    }
    if it.msg.service == x.msg.service && ComesBefore(cached, x, it) {
      assert longer[|accepted|] == it;
    }
  }

  lemma OvertakeAfterCache(cached: seq<Item>, accepted: seq<Item>, handlers: seq<Handler>, handlers': seq<Handler>,
                           overtaken: set<Item>, it: Item)
    requires OvertakeInv(cached, accepted, handlers, overtaken) && it !in cached && it !in accepted
    requires forall x :: InFlight(handlers', x) <==> InFlight(handlers, x) || x == it
    ensures OvertakeInv(cached + [it], accepted, handlers', overtaken)
  {
    forall n: nat, x ensures Passed(cached + [it], accepted, n, x) <==> Passed(cached, accepted, n, x) {
      PassedAfterCache(cached, accepted, n, x, it);
    }
    assert !Passed(cached, accepted, |accepted|, it);
  }

  /** The channel takes `it`: whatever is behind it is overtaken, nothing else. */
  lemma OvertakeAfterSend(cached: seq<Item>, accepted: seq<Item>, handlers: seq<Handler>, handlers': seq<Handler>,
                          overtaken: set<Item>, it: Item, behind: set<Item>)
    requires OvertakeInv(cached, accepted, handlers, overtaken)
    requires InFlight(handlers, it) && !ComesBefore(cached, it, it)
    requires forall j :: 0 <= j < |accepted| ==> !InFlight(handlers, accepted[j])
    requires forall x :: InFlight(handlers', x) <==> InFlight(handlers, x) && x != it
    requires forall x :: x in behind <==>
        InFlight(handlers, x) && x.msg.service == it.msg.service && ComesBefore(cached, x, it)
    ensures OvertakeInv(cached, accepted + [it], handlers', overtaken + behind)
  {
    var longer, over := accepted + [it], overtaken + behind;
    forall x ensures x in over ==> Passed(cached, longer, |longer|, x) {
      PassedAfterSend(cached, accepted, 0, x, it);
    }
    forall x | InFlight(handlers', x) && Passed(cached, longer, |longer|, x) ensures x in over {
      PassedAfterSend(cached, accepted, 0, x, it);
    }
    forall j | 0 <= j < |longer| ensures Passed(cached, longer, j, longer[j]) <==> longer[j] in over {
      PassedAfterSend(cached, accepted, j, longer[j], it);
    }
  }

  lemma OvertakeCalm(cached: seq<Item>, accepted: seq<Item>, handlers: seq<Handler>, handlers': seq<Handler>,
                     overtaken: set<Item>)
    requires OvertakeInv(cached, accepted, handlers, overtaken)
    requires forall x :: InFlight(handlers', x) ==> InFlight(handlers, x)
    ensures OvertakeInv(cached, accepted, handlers', overtaken)
  {
  }

  ghost predicate Overtaking(b: Broker) {
    OvertakeInv(b.pipe.cached, b.pipe.accepted, b.handlers, b.overtaken)
  }

  lemma CachedOnce(b: Broker, x: Item)
    requires OrderInv(b.pipe, b.handlers)
    ensures !ComesBefore(b.pipe.cached, x, x)
  {
  }

  lemma AcceptedIsNotInFlight(b: Broker, j: nat)
    requires OrderInv(b.pipe, b.handlers) && CountInv(b.pipe, b.handlers) && j < |b.pipe.accepted|
    ensures !InFlight(b.handlers, b.pipe.accepted[j])
  {
    var x := b.pipe.accepted[j];
    InOrderOnce(b.pipe.cached, x);
    assert x in multiset(b.pipe.accepted);
    assert InFlight(b.handlers, x) || !InFlight(b.handlers, x);
  }

  lemma OfferTakesItOut(b: Broker, c: Conn)
    requires OrderInv(b.pipe, b.handlers) && c < |b.handlers| && b.handlers[c].pc.Sending?
    ensures var it := b.handlers[c].pc.item;
      InFlight(b.handlers, it) && forall x :: InFlight(Offer(b, c).handlers, x) <==> InFlight(b.handlers, x) && x != it
  {
    assert b.handlers[c].pc.item.conn == c;
  }

  lemma SendKeepsOvertaking(b: Broker, c: Conn)
    requires Inv(b) && Overtaking(b) && c < |b.handlers| && b.handlers[c].pc.Sending?
    ensures Overtaking(Offer(b, c))
  {
    hide OvertakeInv, InFlight, Behind;
    var it, b' := b.handlers[c].pc.item, Offer(b, c);
    LiveHandlerHoldsStop(b, c);
    OfferTakesItOut(b, c);
    if |b.pipe.queue| < EVENT_CH_SIZE {
      CachedOnce(b, it);
      forall j | 0 <= j < |b.pipe.accepted| ensures !InFlight(b.handlers, b.pipe.accepted[j]) {
        AcceptedIsNotInFlight(b, j);
      }
      BehindMeans(b, it);
      OvertakeAfterSend(b.pipe.cached, b.pipe.accepted, b.handlers, b'.handlers, b.overtaken, it, Behind(b, it));
    } else {
      OvertakeCalm(b.pipe.cached, b.pipe.accepted, b.handlers, b'.handlers, b.overtaken);
    }
  }

  lemma BehindMeans(b: Broker, it: Item)
    ensures forall x :: x in Behind(b, it) <==>
        InFlight(b.handlers, x) && x.msg.service == it.msg.service && ComesBefore(b.pipe.cached, x, it)
  {
  }

  lemma LogKeepsOvertaking(b: Broker, c: Conn, m: LogMessage)
    requires OrderInv(b.pipe, b.handlers) && CountInv(b.pipe, b.handlers) && Overtaking(b)
    requires c < |b.handlers| && b.handlers[c].pc.Reading?
    ensures Overtaking(CachedLog(b, c, m))
  {
    var it, b' := Item(c, b.handlers[c].logs, m), CachedLog(b, c, m);
    assert !LifecycleSafety.Read(b.handlers, it);
    assert it !in b.pipe.cached && it !in b.pipe.accepted;
    forall x ensures InFlight(b'.handlers, x) <==> InFlight(b.handlers, x) || x == it {}
    OvertakeAfterCache(b.pipe.cached, b.pipe.accepted, b.handlers, b'.handlers, b.overtaken, it);
  }

  /** A handler that does not take up an event. */
  lemma HandlerKeepsOvertaking(b: Broker, c: Conn, h: Handler)
    requires Overtaking(b) && c < |b.handlers| && (h.pc == b.handlers[c].pc || !h.pc.Sending?)
    ensures Overtaking(WithHandler(b, c, h))
  {
    var hs := b.handlers[c := h];
    forall x | InFlight(hs, x) ensures InFlight(b.handlers, x) {}
    OvertakeCalm(b.pipe.cached, b.pipe.accepted, b.handlers, hs, b.overtaken);
  }

  lemma ReadKeepsOvertaking(b: Broker, c: Conn, host: string, now: int, fails: bool)
    requires OrderInv(b.pipe, b.handlers) && CountInv(b.pipe, b.handlers) && Overtaking(b)
    requires At(b, c, Reading) && b.handlers[c].peer.inbox != []
    ensures Overtaking(ReadNext(b, c, host, now, fails))
  {
    hide OvertakeInv;
    var b1, m := Consumed(b, c), b.handlers[c].peer.inbox[0];
    HandlerKeepsOvertaking(b, c, b1.handlers[c]);
    if m.Log? {
      PipeCalm(b, b1);
      LogKeepsOvertaking(b1, c, m.msg);
    } else if m.Broken? {
      HandlerKeepsOvertaking(b1, c, b1.handlers[c].(pc := Leaving));
    }
  }

  lemma NothingOvertaken(b: Broker, step: Step)
    requires Enabled(b, step) && !step.Send? && !step.Read?
    ensures Next(b, step).overtaken == b.overtaken
  {
    hide ReadNext, Offer, O.Cleanup, FlushBatch, OnMessage, Pruned;
  }

  lemma OthersKeepOvertaking(b: Broker, step: Step)
    requires Overtaking(b) && Enabled(b, step) && !step.Send? && !step.Read?
    ensures Overtaking(Next(b, step))
  {
    var b' := Next(b, step);
    OthersAreCalm(b, step);
    NothingOvertaken(b, step);
    hide OvertakeInv, Next, Enabled;
    forall x | InFlight(b'.handlers, x) ensures InFlight(b.handlers, x) {}
    OvertakeCalm(b.pipe.cached, b.pipe.accepted, b.handlers, b'.handlers, b.overtaken);
  }

  lemma StepKeepsOvertaking(b: Broker, step: Step)
    requires Inv(b) && Overtaking(b) && Enabled(b, step)
    ensures Overtaking(Next(b, step))
  {
    hide Overtaking, ReadNext, Offer, LifeInv, FlowInv, OrderInv, CountInv, TableInv, DeskInv;
    if step.Send? {
      SendKeepsOvertaking(b, step.c);
    } else if step.Read? {
      ReadKeepsOvertaking(b, step.c, step.host, step.now, step.fails);
    } else {
      OthersKeepOvertaking(b, step);
    }
  }

  lemma {:induction false} RunKeepsOvertaking(b: Broker, steps: seq<Step>, b': Broker)
    requires Inv(b) && Overtaking(b) && Reaches(b, steps, b')
    ensures Overtaking(b')
    decreases |steps|
  {
    hide Inv, Overtaking, Next, Enabled;
    if steps != [] {
      StepKeepsOvertaking(b, steps[0]);
      StepKeepsInv(b, steps[0]);
      RunKeepsOvertaking(Next(b, steps[0]), steps[1..], b');
    }
  }

  lemma ReachableOvertaking(t: Tables, retention: bool, steps: seq<Step>, b: Broker)
    requires WellFormed(t) && Reaches(Started(t, retention), steps, b)
    ensures Overtaking(b)
  {
    hide Inv;
    StartedInv(t, retention);
    RunKeepsOvertaking(Started(t, retention), steps, b);
  }

  /**
   In every reachable state an accepted event follows one of its service that was cached after it exactly when it
   was still between its Add and its send while the channel took such an event.
  */
  lemma OutOfOrderExactlyWhenOvertaken(t: Tables, retention: bool, steps: seq<Step>, b: Broker, j: nat)
    requires WellFormed(t) && Reaches(Started(t, retention), steps, b) && j < |b.pipe.accepted|
    ensures OutOfOrder(b.pipe, j) <==> b.pipe.accepted[j] in b.overtaken
  {
    ReachableOvertaking(t, retention, steps, b);
  }

  /** No accepted event of the service was overtaken: a condition on the schedule of the sends alone. */
  ghost predicate Undisordered(b: Broker, service: string) {
    forall j :: 0 <= j < |b.pipe.accepted| && b.pipe.accepted[j].msg.service == service ==>
        b.pipe.accepted[j] !in b.overtaken
  }

  /** What the channel took of the service, it took in the order of the cache. */
  ghost predicate InCacheOrder(cached: seq<Item>, taken: seq<Item>) {
    forall i, j :: 0 <= i < j < |taken| ==> ComesBefore(cached, taken[i], taken[j])
  }

  /** A filtered sequence keeps the order of what it was filtered from, place by place. */
  lemma {:induction false} FilterPlaces(s: seq<Item>, keep: Item -> bool, i: nat, j: nat) returns (i': nat, j': nat)
    requires i < j < |Filter(s, keep)|
    ensures i' < j' < |s| && s[i'] == Filter(s, keep)[i] && s[j'] == Filter(s, keep)[j]
  {
    var n := |s| - 1;
    if keep(s[n]) && j == |Filter(s, keep)| - 1 {
      j' := n;
      assert Filter(s, keep)[i] in Filter(s[..n], keep);
      i' :| 0 <= i' < n && s[i'] == Filter(s, keep)[i];
    } else {
      i', j' := FilterPlaces(s[..n], keep, i, j);
    }
  }

  lemma {:induction false} FilterHasPlaces(s: seq<Item>, keep: Item -> bool, i: nat, j: nat) returns (i': nat, j': nat)
    requires i < j < |s| && keep(s[i]) && keep(s[j])
    ensures i' < j' < |Filter(s, keep)| && Filter(s, keep)[i'] == s[i] && Filter(s, keep)[j'] == s[j]
  {
    var n := |s| - 1;
    if j == n {
      assert s[i] in s[..n];
      j' := |Filter(s[..n], keep)|;
      i' :| 0 <= i' < j' && Filter(s[..n], keep)[i'] == s[i];
    } else {
      i', j' := FilterHasPlaces(s[..n], keep, i, j);
    }
  }

  /** Of two different events that were both cached, one was cached before the other. */
  lemma OneIsFirst(s: seq<Item>, x: Item, y: Item)
    requires x in s && y in s && x != y
    ensures ComesBefore(s, x, y) || ComesBefore(s, y, x)
  {
    var i :| 0 <= i < |s| && s[i] == x;
    var j :| 0 <= j < |s| && s[j] == y;
    assert i < j || j < i;
  }

  lemma NotBothWays(b: Broker, x: Item, y: Item)
    requires OrderInv(b.pipe, b.handlers) && ComesBefore(b.pipe.cached, x, y)
    ensures !ComesBefore(b.pipe.cached, y, x)
  {
    var s := b.pipe.cached;
    var i, j :| 0 <= i < j < |s| && s[i] == x && s[j] == y;
    if ComesBefore(s, y, x) {
      var k, l :| 0 <= k < l < |s| && s[k] == y && s[l] == x;
      SamePlace(s, k, j);
      SamePlace(s, i, l);
      assert false;
    }
  }

  lemma SamePlace(s: seq<Item>, i: nat, j: nat)
    requires InOrder(s) && i < |s| && j < |s| && s[i] == s[j]
    ensures i == j
  {
  }

  lemma AcceptedWasCached(b: Broker, j: nat)
    requires CountInv(b.pipe, b.handlers) && j < |b.pipe.accepted|
    ensures b.pipe.accepted[j] in b.pipe.cached
  {
    var x := b.pipe.accepted[j];
    assert x in multiset(b.pipe.accepted);
    assert InFlight(b.handlers, x) || !InFlight(b.handlers, x);
    assert x in multiset(b.pipe.cached);
  }

  /** Two accepted events of one service, in channel order. */
  lemma PairInOrder(b: Broker, i: nat, j: nat)
    requires Inv(b) && i < j < |b.pipe.accepted|
    requires b.pipe.accepted[i].msg.service == b.pipe.accepted[j].msg.service && !OutOfOrder(b.pipe, j)
    ensures ComesBefore(b.pipe.cached, b.pipe.accepted[i], b.pipe.accepted[j])
  {
    AcceptedWasCached(b, i);
    AcceptedWasCached(b, j);
    OneIsFirst(b.pipe.cached, b.pipe.accepted[i], b.pipe.accepted[j]);
  }

  lemma InOrderIffNoneOvertaken(b: Broker, service: string)
    requires Inv(b) && Overtaking(b)
    ensures InCacheOrder(b.pipe.cached, Filter(b.pipe.accepted, ForService(service))) <==> Undisordered(b, service)
  {
    var all, taken := b.pipe.accepted, Filter(b.pipe.accepted, ForService(service));
    hide Inv, LifeInv, FlowInv, CountInv, OrderInv, TableInv, DeskInv;
    if Undisordered(b, service) {
      forall i, j | 0 <= i < j < |taken| ensures ComesBefore(b.pipe.cached, taken[i], taken[j]) {
        var i', j' := FilterPlaces(all, ForService(service), i, j);
        assert taken[i] in taken && taken[j] in taken;
        assert !OutOfOrder(b.pipe, j');
        PairInOrder(b, i', j');
      }
    }
    if InCacheOrder(b.pipe.cached, taken) {
      forall j | 0 <= j < |all| && all[j].msg.service == service ensures all[j] !in b.overtaken {
        forall i | 0 <= i < j && all[i].msg.service == service ensures !ComesBefore(b.pipe.cached, all[j], all[i]) {
          var i', j' := FilterHasPlaces(all, ForService(service), i, j);
          assert ComesBefore(b.pipe.cached, taken[i'], taken[j']);
          NotBothWaysOf(b, all[i], all[j]);
        }
        assert !OutOfOrder(b.pipe, j);
      }
    }
  }

  lemma NotBothWaysOf(b: Broker, x: Item, y: Item)
    requires Inv(b) && ComesBefore(b.pipe.cached, x, y)
    ensures !ComesBefore(b.pipe.cached, y, x)
  {
    NotBothWays(b, x, y);
  }

  /** In every reachable state: the channel keeps a service's cache order iff none of its accepted events was overtaken. */
  lemma CacheOrderKeptIffNoneOvertaken(t: Tables, retention: bool, steps: seq<Step>, b: Broker, service: string)
    requires WellFormed(t) && Reaches(Started(t, retention), steps, b)
    ensures InCacheOrder(b.pipe.cached, Filter(b.pipe.accepted, ForService(service))) <==> Undisordered(b, service)
  {
    ReachableInv(t, retention, steps, b);
    ReachableOvertaking(t, retention, steps, b);
    InOrderIffNoneOvertaken(b, service);
  }

  // ---------------------------------------------------------------------------------------------
  // When nothing of the service is dropped or on its way, that makes the two sequences equal

  lemma NothingAfterTheLast(a: seq<Item>, y: Item)
    requires a != [] && Distinct(a)
    ensures !ComesBefore(a, a[|a| - 1], y)
  {
  }

  lemma LastOfTheLast(a: seq<Item>, b: seq<Item>)
    requires a != [] && b != [] && Distinct(a) && InCacheOrder(a, b) && a[|a| - 1] in b
    ensures b[|b| - 1] == a[|a| - 1]
  {
    NothingAfterTheLast(a, b[|b| - 1]);
    var i :| 0 <= i < |b| && b[i] == a[|a| - 1];
  }

  lemma ShorterOrder(a: seq<Item>, b: seq<Item>)
    requires a != [] && b != [] && Distinct(a) && Distinct(b) && InCacheOrder(a, b) && a[|a| - 1] == b[|b| - 1]
    ensures InCacheOrder(a[..|a| - 1], b[..|b| - 1])
  {
    var m, n := |a| - 1, |b| - 1;
    forall i, j | 0 <= i < j < n ensures ComesBefore(a[..m], b[i], b[j]) {
      assert ComesBefore(a, b[i], b[j]);
      var k, l :| 0 <= k < l < |a| && a[k] == b[i] && a[l] == b[j];
      assert l != m;
      assert a[..m][k] == a[k] && a[..m][l] == a[l];
    }
  }

  lemma ButTheLast(a: seq<Item>, b: seq<Item>)
    requires a != [] && b != [] && multiset(a) == multiset(b) && a[|a| - 1] == b[|b| - 1]
    ensures multiset(a[..|a| - 1]) == multiset(b[..|b| - 1])
  {
    var m, n := |a| - 1, |b| - 1;
    assert a == a[..m] + [a[m]] && b == b[..n] + [b[n]];
    assert multiset(a[..m]) == multiset(a) - multiset{a[m]};
  }

  /** Two sequences without repetition, with the same members, one in the order of the other. */
  lemma {:induction false} SameOrderSameSeq(a: seq<Item>, b: seq<Item>)
    requires Distinct(a) && Distinct(b) && InCacheOrder(a, b) && multiset(a) == multiset(b)
    ensures a == b
  {
    hide InCacheOrder;
    assert |multiset(a)| == |a| && |multiset(b)| == |b|;
    if a != [] {
      var m := |a| - 1;
      assert a[m] in multiset(b);
      LastOfTheLast(a, b);
      ShorterOrder(a, b);
      ButTheLast(a, b);
      SameOrderSameSeq(a[..m], b[..m]);
      assert a == a[..m] + [a[m]] && b == b[..m] + [b[m]];
    }
  }

  lemma BeforeInFilter(s: seq<Item>, keep: Item -> bool, x: Item, y: Item)
    requires ComesBefore(s, x, y) && keep(x) && keep(y)
    ensures ComesBefore(Filter(s, keep), x, y)
  {
    var i, j :| 0 <= i < j < |s| && s[i] == x && s[j] == y;
    var i', j' := FilterHasPlaces(s, keep, i, j);
  }

  lemma {:induction false} FilterDistinct(s: seq<Item>, keep: Item -> bool)
    requires Distinct(s)
    ensures Distinct(Filter(s, keep))
  {
    forall i, j | 0 <= i < j < |Filter(s, keep)| ensures Filter(s, keep)[i] != Filter(s, keep)[j] {
      var i', j' := FilterPlaces(s, keep, i, j);
    }
  }

  /** Nothing of the service was dropped, and nothing of it is between its Add and its send. */
  ghost predicate AllTaken(b: Broker, service: string) {
    && Filter(b.pipe.dropped, ForService(service)) == []
    && forall it :: InFlight(b.handlers, it) ==> it.msg.service != service
  }

  lemma SameMembers(b: Broker, service: string)
    requires CountInv(b.pipe, b.handlers) && AllTaken(b, service)
    ensures multiset(Filter(b.pipe.cached, ForService(service))) == multiset(Filter(b.pipe.accepted, ForService(service)))
  {
    var keep := ForService(service);
    forall it ensures multiset(Filter(b.pipe.cached, keep))[it] == multiset(Filter(b.pipe.accepted, keep))[it] {
      FilterCount(b.pipe.cached, keep, it);
      FilterCount(b.pipe.accepted, keep, it);
      FilterCount(b.pipe.dropped, keep, it);
      assert InFlight(b.handlers, it) || !InFlight(b.handlers, it);
    }
  }

  /** Then the service's cached and accepted events are one sequence iff no accepted one was overtaken. */
  lemma OneOrderIffNoneOvertaken(b: Broker, service: string)
    requires Inv(b) && Overtaking(b) && AllTaken(b, service)
    ensures Filter(b.pipe.cached, ForService(service)) == Filter(b.pipe.accepted, ForService(service))
        <==> Undisordered(b, service)
  {
    var keep := ForService(service);
    var cached, taken := Filter(b.pipe.cached, keep), Filter(b.pipe.accepted, keep);
    SameMembers(b, service);
    OnceEach(b);
    InOrderIffNoneOvertaken(b, service);
    FilterDistinct(b.pipe.cached, keep);
    FilterDistinct(b.pipe.accepted, keep);
    hide Inv, Overtaking, Undisordered, AllTaken;
    if InCacheOrder(b.pipe.cached, taken) {
      forall i, j | 0 <= i < j < |taken| ensures ComesBefore(cached, taken[i], taken[j]) {
        assert taken[i] in taken && taken[j] in taken;
        BeforeInFilter(b.pipe.cached, keep, taken[i], taken[j]);
      }
      SameOrderSameSeq(cached, taken);
    }
    if cached == taken {
      forall i, j | 0 <= i < j < |taken| ensures ComesBefore(b.pipe.cached, taken[i], taken[j]) {
        var i', j' := FilterPlaces(b.pipe.cached, keep, i, j);
      }
    }
  }

  lemma OnceEach(b: Broker)
    requires Inv(b)
    ensures Distinct(b.pipe.cached) && Distinct(b.pipe.accepted)
  {
  }

  /** When one connection feeds the service none of its events is overtaken, so cache and channel agree. */
  lemma OneConnectionOneOrder(t: Tables, retention: bool, steps: seq<Step>, b: Broker, service: string, c: Conn)
    requires WellFormed(t) && Reaches(Started(t, retention), steps, b)
    requires forall it :: it in b.pipe.cached && it.msg.service == service ==> it.conn == c
    ensures Undisordered(b, service)
    ensures InCacheOrder(b.pipe.cached, Filter(b.pipe.accepted, ForService(service)))
    ensures AllTaken(b, service) ==>
        Filter(b.pipe.cached, ForService(service)) == Filter(b.pipe.accepted, ForService(service))
  {
    ReachableInv(t, retention, steps, b);
    ReachableOvertaking(t, retention, steps, b);
    forall j | 0 <= j < |b.pipe.accepted| && b.pipe.accepted[j].msg.service == service
      ensures b.pipe.accepted[j] !in b.overtaken
    {
      OneConnectionIsNotPassed(b, service, c, j);
    }
    hide Inv, Overtaking;
    InOrderIffNoneOvertaken(b, service);
    if AllTaken(b, service) {
      OneOrderIffNoneOvertaken(b, service);
    }
  }

  lemma OneConnectionIsNotPassed(b: Broker, service: string, c: Conn, j: nat)
    requires Inv(b) && j < |b.pipe.accepted| && b.pipe.accepted[j].msg.service == service
    requires forall it :: it in b.pipe.cached && it.msg.service == service ==> it.conn == c
    ensures !OutOfOrder(b.pipe, j)
  {
    forall i | 0 <= i < j && b.pipe.accepted[i].msg.service == service
      ensures !ComesBefore(b.pipe.cached, b.pipe.accepted[j], b.pipe.accepted[i])
    {
      AcceptedWasCached(b, i);
      AcceptedWasCached(b, j);
      InOrderMeans(b.pipe.cached, b.pipe.accepted[j], b.pipe.accepted[i]);
      assert b.pipe.accepted[i].n < b.pipe.accepted[j].n;
    }
  }

  lemma InOrderMeans(s: seq<Item>, x: Item, y: Item)
    requires InOrder(s) && x.conn == y.conn
    ensures ComesBefore(s, x, y) ==> x.n < y.n
  {
  }

  // ---------------------------------------------------------------------------------------------
  // A run with two connections: both read, and the one that cached second sends first

  function CrossBroker(t: Tables, backlog: seq<Peer>, handlers: seq<Handler>, pipe: Pipe): Broker {
    Started(t, false).(backlog := backlog, handlers := handlers, connWg := 1 + |handlers|, pipe := pipe)
  }

  lemma CrossConnect(t: Tables, p: Peer, q: Peer, rest: seq<Step>, b: Broker)
    requires Reaches(CrossBroker(t, [], [Handler(p, Reading, 0), Handler(q, Reading, 0)], Started(t, false).pipe), rest, b)
    ensures Reaches(Started(t, false), [Dial(p)] + ([Dial(q)] + ([Accept] + ([Accept] + rest))), b)
  {
    var pipe, hp, hq := Started(t, false).pipe, Handler(p, Reading, 0), Handler(q, Reading, 0);
    assert [q][1..] == [] && [hp] + [hq] == [hp, hq];
    Then(CrossBroker(t, [q], [hp], pipe), Accept, rest, b);
    assert [p, q][1..] == [q] && [] + [hp] == [hp];
    Then(CrossBroker(t, [p, q], [], pipe), Accept, [Accept] + rest, b);
    assert [p] + [q] == [p, q] && [] + [p] == [p];
    Then(CrossBroker(t, [p], [], pipe), Dial(q), [Accept] + ([Accept] + rest), b);
    Then(CrossBroker(t, [], [], pipe), Dial(p), [Dial(q)] + ([Accept] + ([Accept] + rest)), b);
  }

  lemma CrossOne(t: Tables, h: seq<Handler>, c: Conn, m: LogMessage, pipe: Pipe)
    requires c < |h| && h[c] == Handler(Peer([Log(m)], true), Reading, 0)
    ensures var b := CrossBroker(t, [], h, pipe);
      && Enabled(b, Read(c, "", 0, false))
      && Next(b, Read(c, "", 0, false))
         == CrossBroker(t, [], h[c := Handler(Peer([], true), Sending(Item(c, 0, m)), 1)],
                        pipe.(cached := pipe.cached + [Item(c, 0, m)]))
  {
    var b := CrossBroker(t, [], h, pipe);
    assert [Log(m)][1..] == [];
    var b' := Consumed(b, c);
    assert b'.handlers[c] == Handler(Peer([], true), Reading, 0);
    assert ReadNext(b, c, "", 0, false) == CachedLog(b', c, m);
    var h' := Handler(Peer([], true), Sending(Item(c, 0, m)), 1);
    assert b'.handlers[c := h'] == h[c := h'];
  }

  lemma CrossRead(t: Tables, m: LogMessage, k: LogMessage, rest: seq<Step>, b: Broker)
    requires var x, y := Item(0, 0, m), Item(1, 0, k);
      Reaches(CrossBroker(t, [], [Handler(Peer([], true), Sending(x), 1), Handler(Peer([], true), Sending(y), 1)],
                          Pipe([], [], [x, y], [], [], [])), rest, b)
    ensures Reaches(CrossBroker(t, [], [Handler(Peer([Log(m)], true), Reading, 0),
                                        Handler(Peer([Log(k)], true), Reading, 0)],
                                Pipe([], [], [], [], [], [])),
                    [Read(0, "", 0, false)] + ([Read(1, "", 0, false)] + rest), b)
  {
    var x, y := Item(0, 0, m), Item(1, 0, k);
    var hx, hy := Handler(Peer([], true), Sending(x), 1), Handler(Peer([], true), Sending(y), 1);
    var hm, hk := Handler(Peer([Log(m)], true), Reading, 0), Handler(Peer([Log(k)], true), Reading, 0);
    var pipe := Pipe([], [], [], [], [], []);
    assert [x] + [y] == [x, y] && [] + [x] == [x];
    assert [hx, hk][1 := hy] == [hx, hy] && [hm, hk][0 := hx] == [hx, hk];
    CrossOne(t, [hx, hk], 1, k, pipe.(cached := [x]));
    Then(CrossBroker(t, [], [hx, hk], pipe.(cached := [x])), Read(1, "", 0, false), rest, b);
    CrossOne(t, [hm, hk], 0, m, pipe);
    Then(CrossBroker(t, [], [hm, hk], pipe), Read(0, "", 0, false), [Read(1, "", 0, false)] + rest, b);
  }

  lemma CrossSend(t: Tables, x: Item, y: Item) returns (b: Broker)
    requires x.conn == 0 && y.conn == 1
    ensures Reaches(CrossBroker(t, [], [Handler(Peer([], true), Sending(x), 1), Handler(Peer([], true), Sending(y), 1)],
                                Pipe([], [], [x, y], [], [], [])), [Send(1)] + [Send(0)], b)
    ensures b.pipe.cached == [x, y] && b.pipe.accepted == [y, x]
  {
    var hx, idle := Handler(Peer([], true), Sending(x), 1), Handler(Peer([], true), Reading, 1);
    var first := CrossBroker(t, [], [hx, Handler(Peer([], true), Sending(y), 1)], Pipe([], [], [x, y], [], [], []));
    var mid := CrossBroker(t, [], [hx, idle], Pipe([y], [], [x, y], [y], [], [])).(overtaken := Behind(first, y));
    b := Next(mid, Send(0));
    assert [y] + [x] == [y, x];
    Then(mid, Send(0), [], b);
    assert first.handlers[1 := idle] == [hx, idle] && {} + Behind(first, y) == Behind(first, y);
    Then(first, Send(1), [Send(0)], b);
  }

  /** Two handlers feeding one service may cache in one order and enqueue in the other. */
  lemma CacheAndChannelMayDisagree(t: Tables, m: LogMessage, k: LogMessage)
      returns (steps: seq<Step>, b: Broker)
    requires m.service == k.service
    ensures Reaches(Started(t, false), steps, b)
    ensures b.pipe.cached == [Item(0, 0, m), Item(1, 0, k)] && b.pipe.accepted == [Item(1, 0, k), Item(0, 0, m)]
  {
    b := CrossSend(t, Item(0, 0, m), Item(1, 0, k));
    steps := [Send(1)] + [Send(0)];
    CrossRead(t, m, k, steps, b);
    steps := [Read(0, "", 0, false)] + ([Read(1, "", 0, false)] + steps);
    CrossConnect(t, Peer([Log(m)], true), Peer([Log(k)], true), steps, b);
    steps := [Dial(Peer([Log(m)], true))] + ([Dial(Peer([Log(k)], true))] + ([Accept] + ([Accept] + steps)));
  }
}
