/** The dispatcher object: Enqueue, Adopt, run and finish in program order, each
    with a scheduling point before every access to shared state. */
module Dispatcher {
  import opened RepoKey
  import opened Store
  import opened Protocol
  import opened Lifecycle
  import opened Capacity

  /** What the process is doing: adoption and recovery run in the main goroutine,
      before the reload handler, cron and the server exist. */
  datatype Stage = Adoption | Recovery | Serving

  predicate During(stage: Stage, step: Step) {
    match stage
    case Serving => true
    case Recovery =>
      !(step.Env? && (step.event.Adopt? || step.event.TakeSnapshot? || step.event.SetRouter? || step.event.Forget?))
    case Adoption =>
      step.Go? || step.event.Adopt? || step.event.Forget? || step.event.Cancel? || step.event.Tick?
  }

  /** Only the main goroutine does this, at startup. */
  predicate MainOnly(step: Step) {
    step.Env? && (step.event.Adopt? || step.event.Forget? || step.event.TakeSnapshot? || step.event.Recover?)
  }

  /** A run so far: where it started and the steps taken since, by anyone. */
  datatype Past = Past(start: State, stage: Stage, steps: seq<Step>) {
    function Plus(step: Step): Past {
      this.(steps := steps + [step])
    }
  }

  /** Everything so far was clean and fits the stage, and led to s. */
  ghost predicate LeadsTo(p: Past, s: State) {
    && CleanRun(p.start, p.steps) && Legal(p.start, p.steps) && s == Exec(p.start, p.steps) && Capped(s)
    && forall j :: 0 <= j < |p.steps| ==> During(p.stage, p.steps[j])
  }

  /** q continues p. */
  ghost predicate Later(p: Past, q: Past, s: State) {
    LeadsTo(q, s) && q.start == p.start && q.stage == p.stage
  }

  lemma {:induction false} Join(s: State, a: seq<Step>, b: seq<Step>)
    requires CleanRun(s, a) && Legal(s, a) && CleanRun(Exec(s, a), b) && Legal(Exec(s, a), b)
    ensures CleanRun(s, a + b) && Legal(s, a + b) && Exec(s, a + b) == Exec(Exec(s, a), b)
    decreases |a|
  {
    if a == [] {
      assert a + b == b;
    } else {
      assert (a + b)[1..] == a[1..] + b && (a + b)[0] == a[0];
      Join(Apply(s, a[0]), a[1..], b);
    }
  }

  /** One more step of our own. */
  lemma Onwards(p: Past, s: State, step: Step)
    requires LeadsTo(p, s) && Enabled(s, step) && Clean(s, step) && During(p.stage, step)
    ensures LeadsTo(p.Plus(step), Apply(s, step))
  {
    var one := [step];
    assert one[1..] == [];
    assert CleanRun(Apply(s, step), []) && Legal(Apply(s, step), []);
    assert CleanRun(s, one) && Legal(s, one) && Exec(s, one) == Apply(s, step);
    Join(p.start, p.steps, one);
    CappedStep(s, step);
  }

  predicate LeavesAlone(steps: seq<Step>, i: nat) {
    forall j :: 0 <= j < |steps| && steps[j].Go? ==> steps[j].i != i
  }

  lemma {:induction false} OthersKeep(s: State, steps: seq<Step>, i: nat)
    requires Legal(s, steps) && LeavesAlone(steps, i) && i < |s.threads|
    ensures var s' := Exec(s, steps); i < |s'.threads| && s'.threads[i] == s.threads[i]
    decreases |steps|
  {
    if steps != [] {
      StepKeepsThread(s, steps[0], i);
      OthersKeep(Apply(s, steps[0]), steps[1..], i);
    }
  }

  class Dispatcher {
    const store: Memory
    const max: nat             // capacity of the semaphore channel
    var sem: nat               // permits taken
    var router: Router
    var cancelled: bool
    var threads: seq<Thread>   // goroutines, finished ones included
    var recovering: set<string>  // what the startup loop still has to visit
    var now: nat
    var log: seq<Obs>          // history

    ghost function View(): State
      reads this, store
    {
      State(store.repos, store.handles, threads, sem, max, router, cancelled, recovering, now, log)
    }

    constructor (st: Memory, router: Router, max: nat)
      ensures store == st && View() == Boot(st.repos, st.handles, max, router) && Capped(View())
    {
      store, this.max, this.router := st, max, router;
      sem, cancelled, threads, recovering, now, log := 0, false, [], {}, 0, [];
    }

    // ----- scheduling points -----

    /** Others run. This body is the schedule in which none of them does; callers
        rely on the contract alone, which admits every clean run of the rest of
        the process that leaves goroutine i alone. */
    method Yield(i: nat, ghost stage: Stage) returns (ghost others: seq<Step>)
      modifies this, store
      ensures CleanRun(old(View()), others) && Legal(old(View()), others) && View() == Exec(old(View()), others)
      ensures LeavesAlone(others, i)
      ensures forall j :: 0 <= j < |others| ==> During(stage, others[j]) && (stage.Serving? || !MainOnly(others[j]))
    {
      others := [];
    }

    /** What goroutine i finds after others have run: itself where it was. */
    method Pause(i: nat, ghost p: Past) returns (ghost q: Past)
      requires LeadsTo(p, View()) && i < |threads|
      modifies this, store
      ensures Later(p, q, View())
      ensures i < |threads| && threads[i] == old(threads[i])
    {
      ghost var s := View();
      ghost var others := Yield(i, p.stage);
      OthersKeep(s, others, i);
      ConcurrencyCap(s, others);
      Join(p.start, p.steps, others);
      q := p.(steps := p.steps + others);
    }

    // ----- Enqueue -----

    method EnqueueCall(repo: Repo, reason: string, ghost p: Past) returns (ghost q: Past)
      requires LeadsTo(p, View()) && !p.stage.Adoption?
      modifies this
      ensures q == p.Plus(Env(Call(repo, reason))) && LeadsTo(q, View())
      ensures View() == Apply(old(View()), Env(Call(repo, reason)))
    {
      q := p.Plus(Env(Call(repo, reason)));
      Onwards(p, View(), Env(Call(repo, reason)));
      threads := threads + [Thread(repo, repo.Key(), reason, "", External, Routing, 0)];
    }

    method EnqueueLoad(i: nat, ghost p: Past) returns (ghost q: Past)
      requires LeadsTo(p, View()) && Enabled(View(), Go(i, Load))
      modifies this
      ensures q == p.Plus(Go(i, Load)) && LeadsTo(q, View())
      ensures |threads| >= |old(threads)| && threads[i].kind == old(threads[i].kind)
      ensures match old(router(threads[i].repo.fullName))
              case To(executor) => threads[i] == old(threads[i]).(exec := executor, phase := Routed)
              case Disabled => threads[i] == old(threads[i]).(phase := AfterCall(threads[i].kind)) && |threads| == |old(threads)|
    {
      q := p.Plus(Go(i, Load));
      Onwards(p, View(), Go(i, Load));
      var t := threads[i];
      var route := router(t.repo.fullName);
      if route.Disabled? {
        threads := threads[i := t.(phase := AfterCall(t.kind))];
        if !t.kind.External? {
          log := log + [Dropped(t.key, t.minted)];
        }
        return;
      }
      threads := threads[i := t.(exec := route.executor, phase := Routed)];
    }

    method EnqueueQueue(i: nat, ghost p: Past) returns (ghost q: Past)
      requires LeadsTo(p, View()) && Enabled(View(), Go(i, Queue(NoFault)))
      modifies this, store
      ensures q == p.Plus(Go(i, Queue(NoFault))) && LeadsTo(q, View())
      ensures |threads| >= |old(threads)| && threads[i].kind == old(threads[i].kind)
      ensures threads[i].phase.Spawning? || threads[i].phase == AfterCall(threads[i].kind)
    {
      q := p.Plus(Go(i, Queue(NoFault)));
      Onwards(p, View(), Go(i, Queue(NoFault)));
      var t := threads[i];
      var again := t.key in store.repos && store.repos[t.key].pendingRerun;
      var r := store.Queue(t.key, t.reason, now);
      match r {
        case Queued => threads := threads[i := t.(phase := Spawning)];
        case Coalesced => threads := threads[i := t.(phase := AfterCall(t.kind))];
        case Deferred => threads := threads[i := t.(phase := AfterCall(t.kind))];
      }
      log := log + [Asked(t.key, t.kind.External?, r, again)];
    }

    method EnqueueSpawn(i: nat, ghost p: Past) returns (ghost q: Past)
      requires LeadsTo(p, View()) && Enabled(View(), Go(i, Spawn))
      modifies this
      ensures q == p.Plus(Go(i, Spawn)) && LeadsTo(q, View())
      ensures |threads| >= |old(threads)| && threads[i] == old(threads[i]).(phase := AfterCall(threads[i].kind))
    {
      q := p.Plus(Go(i, Spawn));
      Onwards(p, View(), Go(i, Spawn));
      var t := threads[i];
      threads := threads[i := t.(phase := AfterCall(t.kind))];
      threads := threads + [Thread(t.repo, t.key, t.reason, t.exec, Run, Debouncing, 0)];
      log := log + [Spawned(t.key)];
    }

    /** A call of Enqueue from the router load to its end: whatever happens in
        between, the caller comes back to where a returned call leaves it. */
    method EnqueueRest(i: nat, ghost p: Past) returns (ghost q: Past)
      requires LeadsTo(p, View()) && i < |threads| && threads[i].phase.Routing?
      modifies this, store
      ensures Later(p, q, View())
      ensures i < |threads| && threads[i].kind == old(threads[i].kind) && threads[i].phase == AfterCall(threads[i].kind)
    {
      q := Pause(i, p);
      q := EnqueueLoad(i, q);
      if threads[i].phase.Routed? {
        q := Pause(i, q);
        q := EnqueueQueue(i, q);
        if threads[i].phase.Spawning? {
          q := Pause(i, q);
          q := EnqueueSpawn(i, q);
        }
      }
    }

    /** Enqueue, whoever else runs: a clean run at whose end the call is over. */
    method Enqueue(repo: Repo, reason: string) returns (ghost q: Past)
      requires Capped(View())
      modifies this, store
      ensures q.start == Apply(old(View()), Env(Call(repo, reason))) && LeadsTo(q, View())
      ensures |old(threads)| < |threads| && threads[|old(threads)|].phase.Gone?
    {
      var i := |threads|;
      ghost var _ := EnqueueCall(repo, reason, Past(View(), Serving, []));
      q := EnqueueRest(i, Past(View(), Serving, []));
    }

    // ----- Adopt -----

    method AdoptStore(repo: Repo, resume: bool, ghost p: Past) returns (ghost q: Past)
      requires LeadsTo(p, View()) && Clean(View(), Env(Protocol.Adopt(repo, resume, NoFault))) && !p.stage.Recovery?
      modifies this, store
      ensures q == p.Plus(Env(Protocol.Adopt(repo, resume, NoFault))) && LeadsTo(q, View())
      ensures View() == Apply(old(View()), Env(Protocol.Adopt(repo, resume, NoFault)))
    {
      q := p.Plus(Env(Protocol.Adopt(repo, resume, NoFault)));
      Onwards(p, View(), Env(Protocol.Adopt(repo, resume, NoFault)));
      store.Adopt(repo.Key(), RERUN, now);
      threads := threads + [Thread(repo, repo.Key(), RERUN, "", External, Adopting(resume), 0)];
    }

    method AdoptSpawn(i: nat, ghost p: Past) returns (ghost q: Past)
      requires LeadsTo(p, View()) && Enabled(View(), Go(i, SpawnAdopted))
      modifies this
      ensures q == p.Plus(Go(i, SpawnAdopted)) && LeadsTo(q, View())
      ensures |threads| >= |old(threads)| && threads[i] == old(threads[i]).(phase := Gone)
    {
      q := p.Plus(Go(i, SpawnAdopted));
      Onwards(p, View(), Go(i, SpawnAdopted));
      var t := threads[i];
      threads := threads[i := t.(phase := Gone)];
      threads := threads + [t.(kind := Adopted, phase := if t.phase.resume then Polling else Triggering)];
    }

    /** Adopt: lock the repo, then start the goroutine that waits. */
    method Adopt(repo: Repo, resume: bool, ghost p: Past) returns (ghost q: Past, ghost others: seq<Step>)
      requires LeadsTo(p, View()) && Clean(View(), Env(Protocol.Adopt(repo, resume, NoFault))) && !p.stage.Recovery?
      modifies this, store
      ensures q == p.(steps := p.steps + [Env(Protocol.Adopt(repo, resume, NoFault))] + others + [Go(|old(threads)|, SpawnAdopted)])
      ensures LeadsTo(q, View())
      ensures forall j :: 0 <= j < |others| ==> During(p.stage, others[j]) && (p.stage.Serving? || !MainOnly(others[j]))
    {
      var i := |threads|;
      q := AdoptStore(repo, resume, p);
      ghost var s := View();
      others := Yield(i, p.stage);
      OthersKeep(s, others, i);
      ConcurrencyCap(s, others);
      Join(q.start, q.steps, others);
      q := q.(steps := q.steps + others);
      q := AdoptSpawn(i, q);
    }

    // ----- run -----

    method DebounceElapsed(i: nat, ghost p: Past) returns (ghost q: Past)
      requires LeadsTo(p, View()) && Enabled(View(), Go(i, Timer))
      modifies this
      ensures q == p.Plus(Go(i, Timer)) && LeadsTo(q, View())
      ensures |threads| >= |old(threads)| && threads[i] == old(threads[i]).(phase := Waiting)
    {
      q := p.Plus(Go(i, Timer));
      Onwards(p, View(), Go(i, Timer));
      threads := threads[i := threads[i].(phase := Waiting)];
    }

    method ContextDone(i: nat, ghost p: Past) returns (ghost q: Past)
      requires LeadsTo(p, View()) && Enabled(View(), Go(i, Abort))
      modifies this
      ensures q == p.Plus(Go(i, Abort)) && LeadsTo(q, View())
      ensures |threads| >= |old(threads)| && threads[i] == old(threads[i]).(phase := Aborting)
    {
      q := p.Plus(Go(i, Abort));
      Onwards(p, View(), Go(i, Abort));
      threads := threads[i := threads[i].(phase := Aborting)];
    }

    method ClearAborted(i: nat, ghost p: Past) returns (ghost q: Past)
      requires LeadsTo(p, View()) && Enabled(View(), Go(i, AbortFinish(NoFault)))
      modifies this, store
      ensures q == p.Plus(Go(i, AbortFinish(NoFault))) && LeadsTo(q, View())
      ensures |threads| >= |old(threads)| && threads[i] == old(threads[i]).(phase := Exiting)
    {
      q := p.Plus(Go(i, AbortFinish(NoFault)));
      Onwards(p, View(), Go(i, AbortFinish(NoFault)));
      var t := threads[i];
      var _ := store.FinishRun(t.key);
      threads := threads[i := t.(phase := Exiting)];
      log := log + [Cancelled(t.key)];
    }

    method AcquirePermit(i: nat, ghost p: Past) returns (ghost q: Past)
      requires LeadsTo(p, View()) && Enabled(View(), Go(i, Acquire))
      modifies this
      ensures q == p.Plus(Go(i, Acquire)) && LeadsTo(q, View())
      ensures |threads| >= |old(threads)| && threads[i] == old(threads[i]).(phase := Holding)
    {
      q := p.Plus(Go(i, Acquire));
      Onwards(p, View(), Go(i, Acquire));
      sem := sem + 1;
      threads := threads[i := threads[i].(phase := Holding)];
    }

    method StartRun(i: nat, ghost p: Past) returns (ghost q: Past)
      requires LeadsTo(p, View()) && Enabled(View(), Go(i, Start(NoFault)))
      modifies this, store
      ensures q == p.Plus(Go(i, Start(NoFault))) && LeadsTo(q, View())
      ensures |threads| >= |old(threads)| && threads[i] == old(threads[i]).(phase := Triggering)
    {
      q := p.Plus(Go(i, Start(NoFault)));
      Onwards(p, View(), Go(i, Start(NoFault)));
      var t := threads[i];
      store.StartRun(t.key, now);
      threads := threads[i := t.(phase := Triggering)];
      log := log + [Began(t.key, t.exec, t.reason)];
    }

    method PipelineTriggered(i: nat, data: string, ghost p: Past) returns (ghost q: Past)
      requires LeadsTo(p, View()) && Enabled(View(), Go(i, Save(data, NoFault)))
      modifies this, store
      ensures q == p.Plus(Go(i, Save(data, NoFault))) && LeadsTo(q, View())
      ensures |threads| >= |old(threads)| && threads[i] == old(threads[i]).(phase := Polling)
    {
      q := p.Plus(Go(i, Save(data, NoFault)));
      Onwards(p, View(), Go(i, Save(data, NoFault)));
      var t := threads[i];
      store.SaveRunHandle(t.key, data);
      threads := threads[i := t.(phase := Polling)];
    }

    method PollReturned(i: nat, ghost p: Past) returns (ghost q: Past)
      requires LeadsTo(p, View()) && Enabled(View(), Go(i, Delete(NoFault)))
      modifies this, store
      ensures q == p.Plus(Go(i, Delete(NoFault))) && LeadsTo(q, View())
      ensures |threads| >= |old(threads)| && threads[i] == old(threads[i]).(phase := Finishing)
    {
      q := p.Plus(Go(i, Delete(NoFault)));
      Onwards(p, View(), Go(i, Delete(NoFault)));
      var t := threads[i];
      store.DeleteRunHandle(t.key);
      threads := threads[i := t.(phase := Finishing)];
    }

    method ExecutorReturned(i: nat, ghost p: Past) returns (ghost q: Past)
      requires LeadsTo(p, View()) && Enabled(View(), Go(i, Return))
      modifies this
      ensures q == p.Plus(Go(i, Return)) && LeadsTo(q, View())
      ensures |threads| >= |old(threads)| && threads[i] == old(threads[i]).(phase := Finishing)
    {
      q := p.Plus(Go(i, Return));
      Onwards(p, View(), Go(i, Return));
      threads := threads[i := threads[i].(phase := Finishing)];
    }

    method FinishRun(i: nat, ghost p: Past) returns (ghost q: Past)
      requires LeadsTo(p, View()) && Enabled(View(), Go(i, Finish(NoFault)))
      modifies this, store
      ensures q == p.Plus(Go(i, Finish(NoFault))) && LeadsTo(q, View())
      ensures |threads| >= |old(threads)| && threads[i].kind == old(threads[i].kind)
      ensures threads[i].phase.Routing? || threads[i].phase == AfterCall(threads[i].kind)
    {
      q := p.Plus(Go(i, Finish(NoFault)));
      Onwards(p, View(), Go(i, Finish(NoFault)));
      var t := threads[i];
      var rerun := store.FinishRun(t.key);
      if rerun {
        threads := threads[i := t.(phase := Routing, reason := RERUN, minted := |log|)];
      } else {
        threads := threads[i := t.(phase := AfterCall(t.kind))];
      }
      log := log + [Ended(t.key, rerun)];
    }

    method ReleasePermit(i: nat, ghost p: Past) returns (ghost q: Past)
      requires LeadsTo(p, View()) && Enabled(View(), Go(i, Release))
      modifies this
      ensures q == p.Plus(Go(i, Release)) && LeadsTo(q, View())
      ensures |threads| >= |old(threads)| && threads[i] == old(threads[i]).(phase := Exiting)
    {
      q := p.Plus(Go(i, Release));
      Onwards(p, View(), Go(i, Release));
      sem := sem - 1;
      threads := threads[i := threads[i].(phase := Exiting)];
    }

    method WaitGroupDone(i: nat, ghost p: Past) returns (ghost q: Past)
      requires LeadsTo(p, View()) && Enabled(View(), Go(i, Exit))
      modifies this
      ensures q == p.Plus(Go(i, Exit)) && LeadsTo(q, View())
      ensures |threads| >= |old(threads)| && threads[i] == old(threads[i]).(phase := Gone)
    {
      q := p.Plus(Go(i, Exit));
      Onwards(p, View(), Go(i, Exit));
      threads := threads[i := threads[i].(phase := Gone)];
    }

    /** finish: FinishRun, and Enqueue again if a rerun was deferred. */
    method FinishTask(i: nat, ghost p: Past) returns (ghost q: Past)
      requires LeadsTo(p, View()) && i < |threads| && threads[i].phase.Finishing?
      modifies this, store
      ensures Later(p, q, View())
      ensures i < |threads| && threads[i].kind == old(threads[i].kind) && threads[i].phase == AfterCall(threads[i].kind)
    {
      q := Pause(i, p);
      q := FinishRun(i, q);
      if threads[i].phase.Routing? {
        q := EnqueueRest(i, q);
      }
    }

    /** The cancelled ends of run: the entry is cleared and no permit is held. */
    method Abandon(i: nat, ghost p: Past) returns (ghost q: Past)
      requires LeadsTo(p, View()) && Enabled(View(), Go(i, Abort))
      modifies this, store
      ensures Later(p, q, View()) && i < |threads| && threads[i].phase.Gone?
    {
      q := ContextDone(i, p);
      q := Pause(i, q);
      q := ClearAborted(i, q);
      q := Pause(i, q);
      q := WaitGroupDone(i, q);
    }

    /** The executor's Run or the adopted Wait, seen from the store: it may save a
        handle once it has triggered its pipeline, and deletes the one it has. */
    method CallExecutor(i: nat, data: Option<string>, ghost p: Past) returns (ghost q: Past)
      requires LeadsTo(p, View()) && i < |threads| && Live(threads[i])
      modifies this, store
      ensures Later(p, q, View())
      ensures i < |threads| && threads[i] == old(threads[i]).(phase := Finishing)
    {
      q := Pause(i, p);
      if threads[i].phase.Triggering? && data.Some? {
        q := PipelineTriggered(i, data.value, q);
        q := Pause(i, q);
      }
      if threads[i].phase.Polling? {
        q := PollReturned(i, q);
      } else {
        q := ExecutorReturned(i, q);
      }
    }

    /** run from the permit on. */
    method Execute(i: nat, data: Option<string>, ghost p: Past) returns (ghost q: Past)
      requires LeadsTo(p, View()) && Enabled(View(), Go(i, Acquire)) && threads[i].kind.Run?
      modifies this, store
      ensures Later(p, q, View()) && i < |threads| && threads[i].phase.Gone?
    {
      q := AcquirePermit(i, p);
      q := Pause(i, q);
      q := StartRun(i, q);
      q := CallExecutor(i, data, q);
      q := FinishTask(i, q);
      q := Leave(i, q);
    }

    /** The deferred release of the permit, after any rerun has been enqueued. */
    method Leave(i: nat, ghost p: Past) returns (ghost q: Past)
      requires LeadsTo(p, View()) && i < |threads| && threads[i].kind.Run? && threads[i].phase.Releasing?
      modifies this, store
      ensures Later(p, q, View()) && i < |threads| && threads[i].phase.Gone?
    {
      q := Pause(i, p);
      HolderIsCounted(View(), i);
      q := ReleasePermit(i, q);
      q := Pause(i, q);
      q := WaitGroupDone(i, q);
    }

    /** The select on the semaphore and the context, tried a number of times. */
    method AwaitPermit(i: nat, data: Option<string>, patience: nat, ghost p: Past) returns (done: bool, ghost q: Past)
      requires LeadsTo(p, View()) && i < |threads| && threads[i].kind.Run? && threads[i].phase.Waiting?
      modifies this, store
      ensures Later(p, q, View()) && i < |threads|
      ensures if done then threads[i].phase.Gone? else threads[i].phase.Waiting? && sem == max && !cancelled
    {
      q := Pause(i, p);
      var turns := patience;
      while sem >= max && !cancelled && turns > 0
        invariant Later(p, q, View()) && i < |threads|
        invariant threads[i].phase.Waiting? && threads[i].kind.Run?
        decreases turns
      {
        q := Pause(i, q);
        turns := turns - 1;
      }
      var chosen: bool := *;
      done := sem < max || cancelled;
      if sem < max && (!cancelled || chosen) {
        q := Execute(i, data, q);
      } else if cancelled {
        q := Abandon(i, q);
      }
    }

    /** run, whoever else runs: on every path the goroutine calls FinishRun
        exactly once, gives back the permit it took and ends; unless it is still
        blocked, with all permits taken and no cancellation, when patience ends. */
    method RunTask(i: nat, data: Option<string>, patience: nat) returns (done: bool, ghost q: Past)
      requires Capped(View()) && i < |threads| && threads[i].kind.Run? && threads[i].phase.Debouncing?
      modifies this, store
      ensures q.start == old(View()) && LeadsTo(q, View()) && i < |threads|
      ensures done ==> threads[i].phase.Gone? && Made(q.steps, i, EndsRun) == 1
      ensures done ==> Made(q.steps, i, TakesPermit) == Made(q.steps, i, GivesPermit)
      ensures !done ==> threads[i].phase.Waiting? && sem == max && !cancelled && Made(q.steps, i, EndsRun) == 0
    {
      ghost var s := View();
      assert Shape(threads[i]);
      q := Pause(i, Past(View(), Serving, []));
      var elapsed: bool := *;
      if cancelled && !elapsed {
        q := Abandon(i, q);
        done := true;
      } else {
        q := DebounceElapsed(i, q);
        done, q := AwaitPermit(i, data, patience, q);
      }
      FinishesOnce(s, q.steps, i);
    }

    /** The goroutine of an adopted run, whoever else runs: one FinishRun, no
        permit, and it ends. */
    method AdoptedTask(i: nat, data: Option<string>) returns (ghost q: Past)
      requires Capped(View()) && i < |threads| && threads[i].kind.Adopted? && Live(threads[i])
      modifies this, store
      ensures q.start == old(View()) && LeadsTo(q, View()) && i < |threads| && threads[i].phase.Gone?
      ensures Made(q.steps, i, EndsRun) == 1 && Made(q.steps, i, TakesPermit) == Made(q.steps, i, GivesPermit)
    {
      ghost var s := View();
      assert Shape(threads[i]);
      q := CallExecutor(i, data, Past(View(), Serving, []));
      q := FinishTask(i, q);
      q := Pause(i, q);
      q := WaitGroupDone(i, q);
      FinishesOnce(s, q.steps, i);
    }

    // ----- recovery -----

    /** Recovery reads the queued keys. */
    method ReadQueued()
      requires recovering == {}
      modifies this
      ensures View() == Apply(old(View()), Env(TakeSnapshot(QueuedKeys(old(store.repos)))))
    {
      var snapshot := store.Snapshot();
      recovering := set k | k in snapshot && snapshot[k].state.StateQueued? && ':' in k;
    }

    /** Recovery clears one stale entry. */
    method ClearStale(key: string, ghost p: Past) returns (ghost q: Past)
      requires LeadsTo(p, View()) && Enabled(View(), Env(Recover(key, NoFault))) && !p.stage.Adoption?
      modifies this, store
      ensures q == p.Plus(Env(Recover(key, NoFault))) && LeadsTo(q, View())
      ensures View() == Apply(old(View()), Env(Recover(key, NoFault)))
    {
      q := p.Plus(Env(Recover(key, NoFault)));
      Onwards(p, View(), Env(Recover(key, NoFault)));
      var _ := store.FinishRun(key);
      recovering := recovering - {key};
      var repo := SplitKey(key).value;
      threads := threads + [Thread(repo, repo.Key(), RERUN, "", External, Routing, 0)];
    }
  }

  /** A permit holder is among the permits in use. */
  lemma HolderIsCounted(s: State, i: nat)
    requires Capped(s) && i < |s.threads| && HoldsPermit(s.threads[i])
    ensures s.permits > 0
  {
    SumZero(s.threads, Permit);
    assert Permit(s.threads[i]) == 1;
  }
}
