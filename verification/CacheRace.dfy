/** Concurrent LogCache.Add (internal/cache/cache.go). */
module CacheRace {
  import opened Seqs
  import opened Records

  // Every thread probes under the read lock, rechecks under the write lock when it found nothing, and then pushes
  // under the buffer's own lock. Any number of threads interleave these three critical sections in any order.

  type Thread = nat

  datatype Pc =
    | Idle
    | Probing(entry: Record)               // about to take the read lock
    | Missed(entry: Record)                // saw no buffer, about to take the write lock
    | Holding(entry: Record, buffer: nat)  // has its buffer, about to push

  /** One call of Add, by the thread that made it. */
  datatype Act = Act(t: Thread, entry: Record)

  datatype State = State(
    buffers: map<string, nat>,      // the installed buffers
    contents: seq<seq<Record>>,     // what was pushed into each buffer ever allocated
    owner: seq<string>,             // the service each buffer was allocated for
    threads: map<Thread, Pc>,
    log: seq<Record>,               // all pushes, in the order they happened
    begun: seq<Act>,                // history: every Add ever called
    landed: seq<Act>)               // history: whose Add each push of the log was

  datatype Step = Begin(t: Thread, entry: Record) | Probe(t: Thread) | Recheck(t: Thread) | Push(t: Thread)

  const INIT := State(map[], [], [], map[], [], [], [])

  function PcOf(s: State, t: Thread): Pc {
    if t in s.threads then s.threads[t] else Idle
  }

  predicate Enabled(s: State, step: Step) {
    match step
    case Begin(t, _) => PcOf(s, t).Idle?
    case Probe(t) => PcOf(s, t).Probing?
    case Recheck(t) => PcOf(s, t).Missed?
    case Push(t) => PcOf(s, t).Holding? && PcOf(s, t).buffer < |s.contents|
  }

  function Next(s: State, step: Step): State
    requires Enabled(s, step)
  {
    var t := step.t;
    match step
    case Begin(_, e) => s.(threads := s.threads[t := Probing(e)], begun := s.begun + [Act(t, e)])
    case Probe(_) =>
      var e := s.threads[t].entry;
      var pc := if e.service in s.buffers then Holding(e, s.buffers[e.service]) else Missed(e);
      s.(threads := s.threads[t := pc])
    case Recheck(_) =>
      var e := s.threads[t].entry;
      if e.service in s.buffers then
        s.(threads := s.threads[t := Holding(e, s.buffers[e.service])])
      else
        s.(threads := s.threads[t := Holding(e, |s.contents|)],
           buffers := s.buffers[e.service := |s.contents|],
           contents := s.contents + [[]],
           owner := s.owner + [e.service])
    case Push(_) =>
      var Holding(e, b) := s.threads[t];
      s.(threads := s.threads[t := Idle],
         contents := s.contents[b := s.contents[b] + [e]],
         log := s.log + [e],
         landed := s.landed + [Act(t, e)])
  }

  ghost predicate Reaches(s: State, steps: seq<Step>, s': State)
    decreases |steps|
  {
    if steps == [] then s == s'
    else Enabled(s, steps[0]) && Reaches(Next(s, steps[0]), steps[1..], s')
  }

  function OfService(service: string): Record -> bool {
    (r: Record) => r.service == service
  }

  ghost predicate Inv(s: State) {
    && |s.owner| == |s.contents|
    && (forall b :: 0 <= b < |s.owner| ==> s.owner[b] in s.buffers && s.buffers[s.owner[b]] == b)
    && (forall v :: v in s.buffers ==> s.buffers[v] < |s.owner| && s.owner[s.buffers[v]] == v)
    && (forall t :: t in s.threads && s.threads[t].Holding? ==>
          var Holding(e, b) := s.threads[t]; e.service in s.buffers && s.buffers[e.service] == b)
    && (forall b :: 0 <= b < |s.owner| ==> s.contents[b] == Filter(s.log, OfService(s.owner[b])))
    && (forall r :: r in s.log ==> r.service in s.buffers)
  }

  lemma {:induction false} FilterNone(log: seq<Record>, service: string)
    requires forall r :: r in log ==> r.service != service
    ensures Filter(log, OfService(service)) == []
  {
    if log != [] { FilterNone(log[..|log| - 1], service); }
  }

  lemma PushKeepsInv(s: State, t: Thread)
    requires Inv(s) && Enabled(s, Push(t))
    ensures Inv(Next(s, Push(t)))
  {
    var s' := Next(s, Push(t));
    var Holding(e, b) := s.threads[t];
    forall c | 0 <= c < |s'.owner| ensures s'.contents[c] == Filter(s'.log, OfService(s'.owner[c])) {
      FilterConcat(s.log, [e], OfService(s.owner[c]));
      assert Filter([e], OfService(s.owner[c])) == if s.owner[c] == e.service then [e] else [];
    }
  }

  lemma StepKeepsInv(s: State, step: Step)
    requires Inv(s) && Enabled(s, step)
    ensures Inv(Next(s, step))
  {
    var s' := Next(s, step);
    match step {
      case Begin(_, _) =>
      case Probe(_) =>
      case Recheck(t) =>
        var e := s.threads[t].entry;
        if e.service !in s.buffers {
          FilterNone(s.log, e.service);
        }
      case Push(t) => PushKeepsInv(s, t);
    }
  }

  lemma {:induction false} RunKeepsInv(s: State, steps: seq<Step>, s': State)
    requires Inv(s) && Reaches(s, steps, s')
    ensures Inv(s')
    decreases |steps|
  {
    if steps != [] {
      StepKeepsInv(s, steps[0]);
      RunKeepsInv(Next(s, steps[0]), steps[1..], s');
    }
  }

  /**
   Over every interleaving: no service is ever given a second buffer, nobody holds a buffer other than
   the installed one, and the installed buffer has received exactly the service's pushes in their order,
   whatever the other services did; the ring then shows the tail of that sequence.
  */
  lemma NoAddIsLost(steps: seq<Step>, s: State, service: string)
    requires Reaches(INIT, steps, s)
    ensures Distinct(s.owner)
    ensures forall t :: t in s.threads && s.threads[t].Holding? ==>
        var Holding(e, b) := s.threads[t]; e.service in s.buffers && s.buffers[e.service] == b < |s.contents|
    ensures Filter(s.log, OfService(service)) ==
        if service in s.buffers && s.buffers[service] < |s.contents| then s.contents[s.buffers[service]] else []
  {
    RunKeepsInv(INIT, steps, s);
    if service !in s.buffers {
      FilterNone(s.log, service);
    }
  }

  function By(t: Thread): Act -> bool {
    (a: Act) => a.t == t
  }

  function EntryOf(): Act -> Record {
    (a: Act) => a.entry
  }

  /** The Add a thread is in the middle of. */
  function AtWork(s: State, t: Thread): seq<Act> {
    if PcOf(s, t).Idle? then [] else [Act(t, s.threads[t].entry)]
  }

  ghost predicate CallsInv(s: State) {
    && s.log == Map(s.landed, EntryOf())
    && forall t :: Filter(s.begun, By(t)) == Filter(s.landed, By(t)) + AtWork(s, t)
  }

  lemma ActSnoc(acts: seq<Act>, a: Act, t: Thread)
    ensures Filter(acts + [a], By(t)) == Filter(acts, By(t)) + if a.t == t then [a] else []
  {
    FilterConcat(acts, [a], By(t));
    assert Filter([a], By(t)) == if a.t == t then [a] else [];
  }

  lemma StepKeepsCalls(s: State, step: Step)
    requires CallsInv(s) && Enabled(s, step)
    ensures CallsInv(Next(s, step))
  {
    var s' := Next(s, step);
    forall t ensures Filter(s'.begun, By(t)) == Filter(s'.landed, By(t)) + AtWork(s', t) {
      assert Filter(s.begun, By(t)) == Filter(s.landed, By(t)) + AtWork(s, t);
      if step.Begin? {
        ActSnoc(s.begun, Act(step.t, step.entry), t);
      } else if step.Push? {
        ActSnoc(s.landed, Act(step.t, s.threads[step.t].entry), t);
      }
    }
    if step.Push? {
      MapConcat(s.landed, [Act(step.t, s.threads[step.t].entry)], EntryOf());
    }
  }

  lemma {:induction false} RunKeepsCalls(s: State, steps: seq<Step>, s': State)
    requires CallsInv(s) && Reaches(s, steps, s')
    ensures CallsInv(s')
    decreases |steps|
  {
    hide CallsInv, Next, Enabled;
    if steps != [] {
      StepKeepsCalls(s, steps[0]);
      RunKeepsCalls(Next(s, steps[0]), steps[1..], s');
    }
  }

  /**
   Over every interleaving: each thread's Adds are, in its own order, those whose entry is in the log and then
   the one it is in the middle of, if any; so no Add is lost and none is pushed twice.
  */
  lemma AddsAreConserved(steps: seq<Step>, s: State, t: Thread)
    requires Reaches(INIT, steps, s)
    ensures Filter(s.begun, By(t)) == Filter(s.landed, By(t)) + AtWork(s, t)
    ensures s.log == Map(s.landed, EntryOf())
  {
    RunKeepsCalls(INIT, steps, s);
  }

  lemma Then(s: State, step: Step, steps: seq<Step>, s': State)
    requires Enabled(s, step) && Reaches(Next(s, step), steps, s')
    ensures Reaches(s, [step] + steps, s')
  {
    assert ([step] + steps)[1..] == steps;
  }

  /** A started Add is never stuck, and its two or three sections put its entry in the log. */
  lemma AddLands(s: State, t: Thread) returns (steps: seq<Step>, s': State)
    requires Inv(s) && PcOf(s, t).Probing?
    ensures |steps| <= 3 && Reaches(s, steps, s')
    ensures PcOf(s', t).Idle? && s'.log == s.log + [s.threads[t].entry]
  {
    var s1 := Next(s, Probe(t));
    StepKeepsInv(s, Probe(t));
    if s1.threads[t].Holding? {
      s' := Next(s1, Push(t));
      Then(s1, Push(t), [], s');
      Then(s, Probe(t), [Push(t)], s');
      steps := [Probe(t)] + [Push(t)];
    } else {
      var s2 := Next(s1, Recheck(t));
      StepKeepsInv(s1, Recheck(t));
      s' := Next(s2, Push(t));
      Then(s2, Push(t), [], s');
      Then(s1, Recheck(t), [Push(t)], s');
      Then(s, Probe(t), [Recheck(t)] + [Push(t)], s');
      steps := [Probe(t)] + ([Recheck(t)] + [Push(t)]);
    }
  }
}
