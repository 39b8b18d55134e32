/** Without new events the dispatcher always comes to rest: every step of a
    goroutine, failed store calls included, lowers one measure, and a goroutine
    can always move as long as one is left. */
module Progress {
  import opened Store
  import opened Protocol
  import opened Lifecycle
  import opened Capacity

  /** Work left in a goroutine: its own steps, plus those of the run it may spawn. */
  function Weight(t: Thread): nat {
    match t.phase
    case Gone => 0
    case Exiting => 1
    case Releasing => 2
    case Aborting => 3
    case Finishing => 5
    case Polling => 6
    case Triggering => 7
    case Holding => 8
    case Adopting(_) => 8
    case Waiting => 9
    case Debouncing => 10
    case Spawning => 13
    case Routed => 23
    case Routing => 24
  }

  /** Work in a rerun flag, which FinishRun turns into a call of Enqueue. */
  const FLAG := 20

  function PendingKeys(repos: Repos): set<string> {
    set k | k in repos && repos[k].pendingRerun
  }

  function Measure(s: State): nat {
    Sum(s.threads, Weight) + FLAG * |PendingKeys(s.repos)|
  }

  function Flag(repos: Repos, key: string): nat {
    if Pending(repos, key) then 1 else 0
  }

  lemma DropCard(ks: set<string>, key: string)
    ensures |ks| == |ks - {key}| + if key in ks then 1 else 0
  {
  }

  lemma PendingElsewhere(s: State, key: string, e: Effect)
    requires OnlyKey(s, key, e)
    ensures PendingKeys(s.repos) - {key} == PendingKeys(e.repos) - {key}
  {
    forall k | k != key ensures k in PendingKeys(s.repos) <==> k in PendingKeys(e.repos) {
      assert k in e.repos <==> k in s.repos;
    }
  }

  lemma PendingCard(s: State, key: string, e: Effect)
    requires OnlyKey(s, key, e)
    ensures |PendingKeys(e.repos)| + Flag(s.repos, key) == |PendingKeys(s.repos)| + Flag(e.repos, key)
  {
    PendingElsewhere(s, key, e);
    DropCard(PendingKeys(s.repos), key);
    DropCard(PendingKeys(e.repos), key);
  }

  lemma ActionLowers(s: State, t: Thread, a: Action)
    requires Shape(t) && Ready(s, t, a)
    ensures var e := Do(s, t, a);
            Weight(e.thread) + (if e.child.Some? then Weight(e.child.value) else 0) + FLAG * Flag(e.repos, t.key)
            < Weight(t) + FLAG * Flag(s.repos, t.key)
  {
  }

  lemma StepLowers(s: State, i: nat, a: Action)
    requires Shaped(s) && Enabled(s, Go(i, a))
    ensures Measure(Apply(s, Go(i, a))) < Measure(s)
  {
    var t := s.threads[i];
    var e := Do(s, t, a);
    ActionLowers(s, t, a);
    ActionOnlyKey(s, t, a);
    PendingCard(s, t.key, e);
    SumTake(s, i, e, Weight);
  }

  /** No goroutine is left. */
  ghost predicate Quiescent(s: State) {
    forall i :: 0 <= i < |s.threads| ==> s.threads[i].phase.Gone?
  }

  predicate AllInternal(steps: seq<Step>) {
    forall j :: 0 <= j < |steps| ==> steps[j].Go?
  }

  /** Runs without new events are finite, with an explicit bound. */
  lemma {:induction false} RunsAreBounded(s: State, steps: seq<Step>)
    requires Shaped(s) && Legal(s, steps) && AllInternal(steps)
    ensures |steps| + Measure(Exec(s, steps)) <= Measure(s)
    ensures Shaped(Exec(s, steps))
    decreases |steps|
  {
    if steps != [] {
      StepLowers(s, steps[0].i, steps[0].action);
      ShapedStep(s, steps[0]);
      RunsAreBounded(Apply(s, steps[0]), steps[1..]);
    }
  }

  /** An action the goroutine can take on its own; only a wait for a permit has none. */
  function NextAction(t: Thread): Action
    requires !t.phase.Gone? && !t.phase.Waiting?
  {
    match t.phase
    case Routing => Load
    case Routed => Queue(NoFault)
    case Spawning => Spawn
    case Adopting(_) => SpawnAdopted
    case Debouncing => Timer
    case Aborting => AbortFinish(NoFault)
    case Holding => Start(NoFault)
    case Triggering => Return
    case Polling => Delete(NoFault)
    case Finishing => Finish(NoFault)
    case Releasing => Release
    case Exiting => Exit
  }

  lemma CanMove(s: State, i: nat)
    requires Capped(s) && i < |s.threads| && !s.threads[i].phase.Gone? && !s.threads[i].phase.Waiting?
    ensures Enabled(s, Go(i, NextAction(s.threads[i])))
  {
    if s.threads[i].phase.Releasing? {
      SumZero(s.threads, Permit);
      assert Permit(s.threads[i]) == 1;
    }
  }

  /** No deadlock: as long as a goroutine is left, some goroutine can step. A
      goroutine that waits for a permit is let in, or finds another one that
      holds a permit and can itself move; that holds as well while a finished
      run re-enqueues its repo with the last permit in hand. */
  lemma NoDeadlock(s: State) returns (step: Step)
    requires Capped(s) && s.max >= 1 && !Quiescent(s)
    ensures step.Go? && Enabled(s, step) && FaultFree(step)
  {
    var i :| 0 <= i < |s.threads| && !s.threads[i].phase.Gone?;
    if s.threads[i].phase.Waiting? {
      if s.permits < s.max {
        return Go(i, Acquire);
      }
      SumZero(s.threads, Permit);
      var j :| 0 <= j < |s.threads| && Permit(s.threads[j]) != 0;
      assert HoldsPermit(s.threads[j]);
      CanMove(s, j);
      return Go(j, NextAction(s.threads[j]));
    }
    CanMove(s, i);
    step := Go(i, NextAction(s.threads[i]));
  }

  /** A run that cannot be continued has brought every goroutine to its end. */
  lemma StuckIsQuiescent(s: State)
    requires Capped(s) && s.max >= 1
    ensures (forall step :: Enabled(s, step) ==> step.Env?) <==> Quiescent(s)
  {
    if !Quiescent(s) {
      var step := NoDeadlock(s);
      assert Enabled(s, step) && !step.Env?;
    }
  }

  /** From every state the goroutines alone can reach rest, within the bound. */
  lemma {:induction false} Drains(s: State) returns (steps: seq<Step>)
    requires Capped(s) && s.max >= 1
    ensures AllInternal(steps) && Legal(s, steps) && |steps| <= Measure(s)
    ensures Quiescent(Exec(s, steps)) && Capped(Exec(s, steps))
    ensures forall j :: 0 <= j < |steps| ==> FaultFree(steps[j])
    decreases Measure(s)
  {
    if Quiescent(s) {
      return [];
    }
    var step := NoDeadlock(s);
    StepLowers(s, step.i, step.action);
    CappedStep(s, step);
    var rest := Drains(Apply(s, step));
    steps := [step] + rest;
    assert steps[1..] == rest;
  }

  predicate Only(steps: seq<Step>, i: nat) {
    forall j :: 0 <= j < |steps| ==> steps[j].Go? && steps[j].i == i
  }

  /** After cancellation no goroutine waits for another: each can reach its end
      by its own steps alone, whatever the permits and the others do. */
  lemma {:induction false} CancelledEndsAlone(s: State, i: nat) returns (steps: seq<Step>)
    requires Capped(s) && s.cancelled && i < |s.threads|
    ensures Only(steps, i) && Legal(s, steps) && i < |Exec(s, steps).threads| && Exec(s, steps).threads[i].phase.Gone?
    decreases Measure(s)
  {
    if s.threads[i].phase.Gone? {
      return [];
    }
    var a := if s.threads[i].phase.Waiting? then Abort else NextAction(s.threads[i]);
    if !s.threads[i].phase.Waiting? {
      CanMove(s, i);
    }
    StepLowers(s, i, a);
    CappedStep(s, Go(i, a));
    var rest := CancelledEndsAlone(Apply(s, Go(i, a)), i);
    steps := [Go(i, a)] + rest;
    assert steps[1..] == rest;
  }

  /** At rest all permits are free and the store holds at most what an earlier
      process left behind. */
  lemma RestIsEmpty(s: State)
    requires Capped(s) && Inv(s) && Quiescent(s)
    ensures s.permits == 0
    ensures s.repos.Keys == Unowned(s)
    ensures Unowned(s) == {} ==> s.repos == map[] && s.handles == map[]
  {
    SumZero(s.threads, Permit);
    assert forall k :: k in s.repos ==> !Owned(s, k);
    if Unowned(s) == {} {
      assert forall k :: k in s.handles ==> Sane(s.repos, s.handles, k);
      assert s.repos.Keys == {};
    }
  }
}
