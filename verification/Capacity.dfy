/** The global concurrency cap: permits in use are exactly the goroutines
    between the semaphore send and the deferred receive. */
module Capacity {
  import opened Store
  import opened Protocol

  // ----- sums over the goroutines -----

  function Sum(ts: seq<Thread>, w: Thread -> nat): nat {
    if ts == [] then 0 else Sum(ts[..|ts| - 1], w) + w(ts[|ts| - 1])
  }

  lemma SumFork(ts: seq<Thread>, t: Thread, w: Thread -> nat)
    ensures Sum(ts + [t], w) == Sum(ts, w) + w(t)
  {
  }

  lemma {:induction false} SumPut(ts: seq<Thread>, i: nat, t: Thread, w: Thread -> nat)
    requires i < |ts|
    ensures Sum(ts[i := t], w) + w(ts[i]) == Sum(ts, w) + w(t)
  {
    var n := |ts| - 1;
    if i == n {
      assert ts[i := t][..n] == ts[..n];
    } else {
      SumPut(ts[..n], i, t, w);
      assert ts[i := t][..n] == ts[..n][i := t];
    }
  }

  lemma SumTake(s: State, i: nat, e: Effect, w: Thread -> nat)
    requires i < |s.threads|
    ensures Sum(Take(s, i, e).threads, w) + w(s.threads[i])
         == Sum(s.threads, w) + w(e.thread) + if e.child.Some? then w(e.child.value) else 0
  {
    SumPut(s.threads, i, e.thread, w);
    if e.child.Some? {
      SumFork(s.threads[i := e.thread], e.child.value, w);
    }
  }

  /** Only events that start a goroutine add to a sum. */
  lemma SumHappen(s: State, e: Event, w: Thread -> nat)
    requires CanHappen(s, e)
    ensures var ts := Happen(s, e).threads;
            Sum(ts, w) == Sum(s.threads, w) + if |ts| > |s.threads| then w(ts[|s.threads|]) else 0
  {
  }

  lemma {:induction false} SumZero(ts: seq<Thread>, w: Thread -> nat)
    ensures Sum(ts, w) == 0 <==> forall i :: 0 <= i < |ts| ==> w(ts[i]) == 0
  {
    if ts != [] {
      var n := |ts| - 1;
      SumZero(ts[..n], w);
      assert ts == ts[..n] + [ts[n]];
    }
  }

  lemma {:induction false} SumBelow(ts: seq<Thread>, v: Thread -> nat, w: Thread -> nat, x: Thread -> nat)
    requires forall i :: 0 <= i < |ts| ==> v(ts[i]) <= w(ts[i]) + x(ts[i])
    ensures Sum(ts, v) <= Sum(ts, w) + Sum(ts, x)
  {
    if ts != [] {
      SumBelow(ts[..|ts| - 1], v, w, x);
    }
  }

  // ----- the shape of the goroutines -----

  /** Which phases each kind of goroutine passes through. */
  predicate Shape(t: Thread) {
    match t.kind
    case External =>
      t.phase.Routing? || t.phase.Routed? || t.phase.Spawning? || t.phase.Adopting? || t.phase.Gone?
    case Run => !t.phase.Adopting?
    case Adopted =>
      t.phase.Triggering? || t.phase.Polling? || t.phase.Finishing? || t.phase.Routing? || t.phase.Routed?
      || t.phase.Spawning? || t.phase.Exiting? || t.phase.Gone?
  }

  ghost predicate Shaped(s: State) {
    forall i :: 0 <= i < |s.threads| ==> Shape(s.threads[i])
  }

  lemma ActionShape(s: State, t: Thread, a: Action)
    requires Shape(t) && Ready(s, t, a)
    ensures var e := Do(s, t, a);
            Shape(e.thread) && (e.child.Some? ==> Shape(e.child.value))
  {
  }

  lemma ShapedStep(s: State, step: Step)
    requires Shaped(s) && Enabled(s, step)
    ensures Shaped(Apply(s, step))
  {
    if step.Go? {
      ActionShape(s, s.threads[step.i], step.action);
    }
  }

  // ----- permits -----

  /** Between the semaphore send and the deferred receive. */
  predicate HoldsPermit(t: Thread) {
    && t.kind.Run?
    && (t.phase.Holding? || t.phase.Triggering? || t.phase.Polling? || t.phase.Finishing?
        || t.phase.Routing? || t.phase.Routed? || t.phase.Spawning? || t.phase.Releasing?)
  }

  function Permit(t: Thread): nat {
    if HoldsPermit(t) then 1 else 0
  }

  function LiveRun(t: Thread): nat {
    if Live(t) then 1 else 0
  }

  /** Adopted runs that have not finished yet; they take no permit. */
  function AdoptedRun(t: Thread): nat {
    if t.kind.Adopted? && Live(t) then 1 else 0
  }

  ghost predicate Capped(s: State) {
    Shaped(s) && s.permits == Sum(s.threads, Permit) && s.permits <= s.max
  }

  lemma ActionPermits(s: State, t: Thread, a: Action)
    requires Shape(t) && Ready(s, t, a) && s.permits <= s.max
    ensures var e := Do(s, t, a);
            && e.permits + Permit(t) == s.permits + Permit(e.thread)
            && e.permits <= s.max
            && (e.child.Some? ==> Permit(e.child.value) == 0)
  {
  }

  lemma CappedStep(s: State, step: Step)
    requires Capped(s) && Enabled(s, step)
    ensures Capped(Apply(s, step))
  {
    ShapedStep(s, step);
    match step
    case Env(e) => SumHappen(s, e, Permit);
    case Go(i, a) =>
      ActionPermits(s, s.threads[i], a);
      SumTake(s, i, Do(s, s.threads[i], a), Permit);
  }

  /** In every state of every run, under any faults: permits in use equal the
      goroutines holding one and never exceed MaxConcurrent, and the runs in
      flight are at most MaxConcurrent plus the adopted ones. */
  lemma {:induction false} ConcurrencyCap(s: State, steps: seq<Step>)
    requires Capped(s) && Legal(s, steps)
    ensures var s' := Exec(s, steps);
            && Capped(s')
            && s'.permits == Sum(s'.threads, Permit) <= s'.max == s.max
            && Sum(s'.threads, LiveRun) <= s.max + Sum(s'.threads, AdoptedRun)
    decreases |steps|
  {
    if steps == [] {
      SumBelow(s.threads, LiveRun, Permit, AdoptedRun);
    } else {
      CappedStep(s, steps[0]);
      ConcurrencyCap(Apply(s, steps[0]), steps[1..]);
    }
  }

  lemma BootCapped(repos: Repos, handles: map<string, string>, max: nat, router: Router)
    ensures Capped(Boot(repos, handles, max, router))
  {
  }

  // ----- one FinishRun per run -----

  /** How often goroutine i did something of the given sort. */
  function Made(steps: seq<Step>, i: nat, sort: Action -> bool): nat {
    if steps == [] then 0 else
    (if steps[0].Go? && steps[0].i == i && sort(steps[0].action) then 1 else 0) + Made(steps[1..], i, sort)
  }

  predicate EndsRun(a: Action) {
    a.Finish? || a.AbortFinish?
  }

  predicate TakesPermit(a: Action) {
    a.Acquire?
  }

  predicate GivesPermit(a: Action) {
    a.Release?
  }

  /** The goroutine stands between its start and its FinishRun. */
  function Owes(t: Thread): nat {
    if t.phase.Debouncing? || t.phase.Waiting? || t.phase.Aborting? || t.phase.Holding? || Live(t) || t.phase.Finishing?
    then 1 else 0
  }

  lemma ActionOwes(s: State, t: Thread, a: Action)
    requires Ready(s, t, a) && Shape(t)
    ensures var t' := Do(s, t, a).thread;
            && Shape(t')
            && Owes(t) == Owes(t') + (if EndsRun(a) then 1 else 0)
            && Permit(t) + (if a.Acquire? then 1 else 0) == Permit(t') + (if a.Release? then 1 else 0)
  {
  }

  lemma StepKeepsThread(s: State, step: Step, i: nat)
    requires Enabled(s, step) && i < |s.threads|
    ensures var s' := Apply(s, step);
            && i < |s'.threads|
            && s'.threads[i] == if step.Go? && step.i == i then Do(s, s.threads[i], step.action).thread else s.threads[i]
  {
  }

  /** Over every run, faults included: a goroutine calls FinishRun at most once,
      exactly once if it has come to its end, and gives back exactly the permits
      it took. */
  lemma {:induction false} FinishesOnce(s: State, steps: seq<Step>, i: nat)
    requires Legal(s, steps) && i < |s.threads| && Shape(s.threads[i])
    ensures var s' := Exec(s, steps);
            && i < |s'.threads|
            && Made(steps, i, EndsRun) + Owes(s'.threads[i]) == Owes(s.threads[i])
            && Permit(s.threads[i]) + Made(steps, i, TakesPermit)
               == Permit(s'.threads[i]) + Made(steps, i, GivesPermit)
    decreases |steps|
  {
    if steps != [] {
      StepKeepsThread(s, steps[0], i);
      if steps[0].Go? && steps[0].i == i {
        ActionOwes(s, s.threads[i], steps[0].action);
      }
      FinishesOnce(Apply(s, steps[0]), steps[1..], i);
    }
  }
}
