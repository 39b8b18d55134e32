/** Crash and restart: adoption of the runs found in flight, then recovery of
    the queued repos, over whatever the previous process left in the store. */
module Restart {
  import opened RepoKey
  import opened Store
  import opened Protocol
  import opened Exclusion
  import opened Lifecycle
  import opened Capacity
  import opened Progress
  import opened Triggers
  import opened Hazards

  // ----- startup over any store, with store faults -----

  /** A schedule for the time up to the recovery snapshot: each key is adopted at
      most once and no Adopt of an absent key is lost; no owned entry expires;
      adopted waits run and end, but nobody calls Queue yet. */
  ghost predicate StartupStep(s: State, step: Step, todo: set<string>) {
    match step
    case Env(Adopt(repo, _, f)) => repo.Key() in todo && (f.LostRequest? ==> repo.Key() in s.repos)
    case Env(TakeSnapshot(_)) => false
    case Env(Expire(keys)) => forall k :: k in keys ==> !Owned(s, k)
    case Go(_, Queue(_)) => false
    case _ => true
  }

  function Remaining(step: Step, todo: set<string>): set<string> {
    match step
    case Env(Adopt(repo, _, _)) => todo - {repo.Key()}
    case _ => todo
  }

  ghost predicate StartupRun(s: State, steps: seq<Step>, todo: set<string>)
    decreases |steps|
  {
    steps == [] || (&& Enabled(s, steps[0]) && StartupStep(s, steps[0], todo)
                    && StartupRun(Apply(s, steps[0]), steps[1..], Remaining(steps[0], todo)))
  }

  /** The keys a run leaves to adopt. */
  function LeftOver(steps: seq<Step>, todo: set<string>): set<string> {
    if steps == [] then todo else LeftOver(steps[1..], Remaining(steps[0], todo))
  }

  /** No key to adopt is stored as queued, and every owner so far has adopted
      one of them. */
  ghost predicate Booting(s: State, todo: set<string>, keys: set<string>) {
    && FailClosed(s) && s.recover == {} && todo <= keys && keys !! QueuedKeys(s.repos)
    && forall i :: 0 <= i < |s.threads| && Owns(s.threads[i]) ==> Started(s.threads[i]) && s.threads[i].key in keys - todo
  }

  lemma StartupIsBenign(s: State, step: Step, todo: set<string>, keys: set<string>)
    requires Booting(s, todo, keys) && Enabled(s, step) && StartupStep(s, step, todo)
    ensures Benign(s, step)
  {
  }

  lemma ActionWhileBooting(s: State, t: Thread, a: Action)
    requires Ready(s, t, a) && !a.Queue? && (Owns(t) ==> Started(t))
    ensures var e := Do(s, t, a);
            && e.thread.key == t.key && (Owns(e.thread) ==> Owns(t) && Started(e.thread))
            && (e.child.Some? ==> Owns(t) && Started(e.child.value) && e.child.value.key == t.key)
            && (e.repos == s.repos || (Owns(t) && e.repos == s.repos - {t.key}))
            && forall k :: k != t.key || !Owns(t) ==> (k in e.handles <==> k in s.handles)
  {
  }

  lemma BootingStep(s: State, step: Step, todo: set<string>, keys: set<string>)
    requires Booting(s, todo, keys) && Enabled(s, step) && StartupStep(s, step, todo)
    ensures Booting(Apply(s, step), Remaining(step, todo), keys)
  {
    StartupIsBenign(s, step, todo, keys);
    FailClosedStep(s, step);
    match step
    case Env(e) => BootingEvent(s, e, todo, keys);
    case Go(i, a) => BootingAction(s, i, a, todo, keys);
  }

  lemma BootingAction(s: State, i: nat, a: Action, todo: set<string>, keys: set<string>)
    requires Booting(s, todo, keys) && Enabled(s, Go(i, a)) && !a.Queue? && FailClosed(Apply(s, Go(i, a)))
    ensures Booting(Apply(s, Go(i, a)), todo, keys)
  {
    var s' := Apply(s, Go(i, a));
    ActionWhileBooting(s, s.threads[i], a);
    assert QueuedKeys(s'.repos) <= QueuedKeys(s.repos);
    forall j | 0 <= j < |s'.threads| && Owns(s'.threads[j])
      ensures Started(s'.threads[j]) && s'.threads[j].key in keys - todo
    {
      assert j < |s.threads| && j != i ==> s'.threads[j] == s.threads[j];
    }
  }

  lemma BootingEvent(s: State, e: Event, todo: set<string>, keys: set<string>)
    requires Booting(s, todo, keys) && CanHappen(s, e) && StartupStep(s, Env(e), todo) && FailClosed(Happen(s, e))
    ensures Booting(Happen(s, e), Remaining(Env(e), todo), keys)
  {
    var s' := Happen(s, e);
    assert QueuedKeys(s'.repos) <= QueuedKeys(s.repos);
    forall j | 0 <= j < |s'.threads| && Owns(s'.threads[j])
      ensures Started(s'.threads[j]) && s'.threads[j].key in keys - Remaining(Env(e), todo)
    {
      assert j < |s.threads| ==> s'.threads[j] == s.threads[j];
    }
  }

  lemma {:induction false} BootingRun(s: State, steps: seq<Step>, todo: set<string>, keys: set<string>)
    requires Booting(s, todo, keys) && StartupRun(s, steps, todo)
    ensures Legal(s, steps) && Booting(Exec(s, steps), LeftOver(steps, todo), keys)
    decreases |steps|
  {
    if steps != [] {
      BootingStep(s, steps[0], todo, keys);
      BootingRun(Apply(s, steps[0]), steps[1..], Remaining(steps[0], todo), keys);
    }
  }

  // ----- when nobody calls Queue before the snapshot -----

  /** What main lets happen up to the snapshot. The server and cron start later,
      so no event comes in; the goroutines of adopted runs are free to do
      whatever they do, Queue included. */
  ghost predicate MainStep(s: State, step: Step, todo: set<string>) {
    match step
    case Env(Call(_, _)) => false
    case Env(_) => StartupStep(s, step, todo)
    case Go(_, _) => true
  }

  ghost predicate MainRun(s: State, steps: seq<Step>, todo: set<string>)
    decreases |steps|
  {
    steps == [] || (&& Enabled(s, steps[0]) && MainStep(s, steps[0], todo)
                    && MainRun(Apply(s, steps[0]), steps[1..], Remaining(steps[0], todo)))
  }

  /** None of the keys has a deferred rerun stored. */
  predicate Unflagged(repos: Repos, keys: set<string>) {
    forall k :: k in keys && ':' in k ==> !Pending(repos, k)
  }

  /** Nobody is inside Enqueue, and no adopted run will be. */
  ghost predicate Settling(s: State, todo: set<string>, keys: set<string>) {
    && Booting(s, todo, keys) && Unflagged(s.repos, keys)
    && forall i :: 0 <= i < |s.threads| ==> Outside(s.threads[i])
  }

  predicate Outside(t: Thread) {
    !t.phase.Routing? && !t.phase.Routed? && !t.phase.Spawning? && (Owns(t) ==> ':' in t.key)
  }

  lemma ActionStaysOutside(s: State, t: Thread, a: Action)
    requires Ready(s, t, a) && Outside(t) && (Owns(t) ==> Started(t) && !Pending(s.repos, t.key))
    ensures var e := Do(s, t, a);
            !a.Queue? && Outside(e.thread) && (e.child.Some? ==> Outside(e.child.value))
  {
  }

  lemma SettlingAction(s: State, i: nat, a: Action, todo: set<string>, keys: set<string>)
    requires Settling(s, todo, keys) && Enabled(s, Go(i, a))
    ensures !a.Queue? && Settling(Apply(s, Go(i, a)), todo, keys)
  {
    var s' := Apply(s, Go(i, a));
    ActionStaysOutside(s, s.threads[i], a);
    ActionWhileBooting(s, s.threads[i], a);
    BootingStep(s, Go(i, a), todo, keys);
    forall j | 0 <= j < |s'.threads| ensures Outside(s'.threads[j]) {
      assert j < |s.threads| && j != i ==> s'.threads[j] == s.threads[j];
    }
  }

  lemma SettlingEvent(s: State, e: Event, todo: set<string>, keys: set<string>)
    requires Settling(s, todo, keys) && CanHappen(s, e) && MainStep(s, Env(e), todo)
    ensures Settling(Happen(s, e), Remaining(Env(e), todo), keys)
  {
    var s' := Happen(s, e);
    BootingStep(s, Env(e), todo, keys);
    forall j | 0 <= j < |s'.threads| ensures Outside(s'.threads[j]) {
      assert j < |s.threads| ==> s'.threads[j] == s.threads[j];
      assert e.Adopt? ==> ':' in e.repo.Key();
    }
  }

  /** If no key to adopt is stored as queued or flagged, no schedule and no fault
      gets anyone to Queue before the snapshot. */
  lemma {:induction false} MainIsStartup(s: State, steps: seq<Step>, todo: set<string>, keys: set<string>)
    requires Settling(s, todo, keys) && MainRun(s, steps, todo)
    ensures StartupRun(s, steps, todo) && Legal(s, steps) && Settling(Exec(s, steps), LeftOver(steps, todo), keys)
    decreases |steps|
  {
    if steps != [] {
      match steps[0] {
        case Env(e) => SettlingEvent(s, e, todo, keys);
        case Go(i, a) => SettlingAction(s, i, a, todo, keys);
      }
      MainIsStartup(Apply(s, steps[0]), steps[1..], Remaining(steps[0], todo), keys);
    }
  }

  // ----- exclusion across a restart, and exactly when it holds -----

  /** Adopt any of the keys, each once, with the goroutines of the adopted runs
      doing what they like; take the snapshot, then let anything benign happen:
      no repo has two runs in flight. */
  ghost predicate RestartSafe(s0: State, keys: set<string>) {
    forall startup, seen ::
      MainRun(s0, startup, keys) && Legal(s0, startup) && Enabled(Exec(s0, startup), Env(TakeSnapshot(seen))) ==>
        StaysExclusive(Apply(Exec(s0, startup), Env(TakeSnapshot(seen))))
  }

  /** The same for schedules in which nobody calls Queue before the snapshot. */
  ghost predicate QuietRestartSafe(s0: State, keys: set<string>) {
    forall startup, seen ::
      StartupRun(s0, startup, keys) && Legal(s0, startup) && Enabled(Exec(s0, startup), Env(TakeSnapshot(seen))) ==>
        StaysExclusive(Apply(Exec(s0, startup), Env(TakeSnapshot(seen))))
  }

  /** Over any store whatever, with any adopted keys none of which is stored as
      queued, nobody calling Queue before the snapshot, and store calls failing
      in any way except a lost Adopt of an absent key: the snapshot leaves one
      owner per key and an entry for every owner, and so does every benign run
      after it. */
  lemma {:induction false} RestartExcludes(
    repos: Repos, handles: map<string, string>, keys: set<string>, max: nat, router: Router,
    startup: seq<Step>, seen: set<string>, later: seq<Step>)
    requires keys !! QueuedKeys(repos) && StartupRun(Boot(repos, handles, max, router), startup, keys)
    ensures var s0 := Boot(repos, handles, max, router);
            && Legal(s0, startup)
            && var s1, snapshot := Exec(s0, startup), Env(TakeSnapshot(seen));
               (Enabled(s1, snapshot) <==> seen <= QueuedKeys(s1.repos))
               && (Enabled(s1, snapshot) && BenignRun(Apply(s1, snapshot), later) ==>
                     var s2 := Apply(s1, snapshot);
                     && FailClosed(s2) && Legal(s2, later)
                     && FailClosed(Exec(s2, later)) && Exclusive(Exec(s2, later)))
  {
    var s0 := Boot(repos, handles, max, router);
    BootingRun(s0, startup, keys, keys);
    var s1, snapshot := Exec(s0, startup), Env(TakeSnapshot(seen));
    if Enabled(s1, snapshot) && BenignRun(Apply(s1, snapshot), later) {
      FailClosedStep(s1, snapshot);
      ExclusionUnderFaults(Apply(s1, snapshot), later);
    }
  }

  /** A key that is stored as queued and adopted all the same is cleared by
      recovery under the adopted run. */
  lemma QueuedAdoptionDoubles(s: State, key: string, resume: bool)
    requires s.recover == {} && key in QueuedKeys(s.repos) && AllEnabled(s.router) && s.permits < s.max
    ensures var s1 := Apply(s, Env(Adopt(SplitKey(key).value, resume, NoFault)));
            && Enabled(s1, Env(TakeSnapshot({key})))
            && CanDouble(Apply(s1, Env(TakeSnapshot({key}))))
  {
    RecoveryDoubles(Apply(s, Env(Adopt(SplitKey(key).value, resume, NoFault))), |s.threads|, {key});
  }

  lemma SafeAfterSnapshot(
    repos: Repos, handles: map<string, string>, keys: set<string>, max: nat, router: Router, startup: seq<Step>, seen: set<string>)
    requires keys !! QueuedKeys(repos) && StartupRun(Boot(repos, handles, max, router), startup, keys)
    requires Legal(Boot(repos, handles, max, router), startup)
    requires Enabled(Exec(Boot(repos, handles, max, router), startup), Env(TakeSnapshot(seen)))
    ensures StaysExclusive(Apply(Exec(Boot(repos, handles, max, router), startup), Env(TakeSnapshot(seen))))
  {
    RestartExcludes(repos, handles, keys, max, router, startup, seen, []);
    FailClosedStaysExclusive(Apply(Exec(Boot(repos, handles, max, router), startup), Env(TakeSnapshot(seen))));
  }

  lemma UnqueuedIsSafe(repos: Repos, handles: map<string, string>, keys: set<string>, max: nat, router: Router)
    requires keys !! QueuedKeys(repos)
    ensures var s0 := Boot(repos, handles, max, router);
            QuietRestartSafe(s0, keys) && (Unflagged(repos, keys) ==> RestartSafe(s0, keys))
  {
    var s0 := Boot(repos, handles, max, router);
    forall startup, seen |
      StartupRun(s0, startup, keys) && Legal(s0, startup) && Enabled(Exec(s0, startup), Env(TakeSnapshot(seen)))
      ensures StaysExclusive(Apply(Exec(s0, startup), Env(TakeSnapshot(seen))))
    {
      SafeAfterSnapshot(repos, handles, keys, max, router, startup, seen);
    }
    if Unflagged(repos, keys) {
      forall startup, seen |
        MainRun(s0, startup, keys) && Legal(s0, startup) && Enabled(Exec(s0, startup), Env(TakeSnapshot(seen)))
        ensures StaysExclusive(Apply(Exec(s0, startup), Env(TakeSnapshot(seen))))
      {
        MainIsStartup(s0, startup, keys, keys);
        SafeAfterSnapshot(repos, handles, keys, max, router, startup, seen);
      }
    }
  }

  /** As long as nobody calls Queue before the snapshot, restart is safe if and
      only if no adopted key is stored as queued. */
  lemma QuietRestartIsExact(repos: Repos, handles: map<string, string>, keys: set<string>, max: nat, router: Router)
    requires max >= 1 && AllEnabled(router)
    ensures QuietRestartSafe(Boot(repos, handles, max, router), keys) <==> keys !! QueuedKeys(repos)
  {
    if k :| k in keys && k in QueuedKeys(repos) {
      QueuedIsUnsafe(Boot(repos, handles, max, router), keys, k);
    } else {
      UnqueuedIsSafe(repos, handles, keys, max, router);
    }
  }

  /** Restart is safe, for every schedule that main allows, if and only if no
      adopted key is stored as queued or with a deferred rerun. Both can be read
      off the store before the process starts. */
  lemma RestartIsExact(repos: Repos, handles: map<string, string>, keys: set<string>, max: nat, router: Router)
    requires max >= 2 && AllEnabled(router)
    ensures RestartSafe(Boot(repos, handles, max, router), keys) <==> keys !! QueuedKeys(repos) && Unflagged(repos, keys)
  {
    if k :| k in keys && k in QueuedKeys(repos) {
      QueuedIsUnsafe(Boot(repos, handles, max, router), keys, k);
    } else if Unflagged(repos, keys) {
      UnqueuedIsSafe(repos, handles, keys, max, router);
    } else {
      var k :| k in keys && ':' in k && Pending(repos, k);
      FlaggedIsUnsafe(Boot(repos, handles, max, router), keys, k);
    }
  }

  lemma QueuedIsUnsafe(s: State, keys: set<string>, k: string)
    requires s.recover == {} && k in keys && k in QueuedKeys(s.repos) && AllEnabled(s.router) && s.permits < s.max
    ensures !RestartSafe(s, keys) && !QuietRestartSafe(s, keys)
  {
    var adopt := Env(Adopt(SplitKey(k).value, true, NoFault));
    QueuedAdoptionDoubles(s, k, true);
    CanDoubleIsUnsafe(Apply(Apply(s, adopt), Env(TakeSnapshot({k}))));
    Extend(s, [], adopt);
    assert [] + [adopt] == [adopt];
    assert StartupRun(Apply(s, adopt), [], Remaining(adopt, keys)) && MainRun(Apply(s, adopt), [], Remaining(adopt, keys));
    assert StartupRun(s, [adopt], keys) && MainRun(s, [adopt], keys);
  }

  lemma {:induction false} InternalIsMain(s: State, steps: seq<Step>, todo: set<string>)
    requires Legal(s, steps) && AllInternal(steps)
    ensures MainRun(s, steps, todo)
    decreases |steps|
  {
    if steps != [] {
      InternalIsMain(Apply(s, steps[0]), steps[1..], todo);
    }
  }

  /** The adopted run ends, finds its rerun flag and is queued again before the
      snapshot is taken. */
  lemma FlaggedIsUnsafe(s: State, keys: set<string>, k: string)
    requires s.threads == [] && s.recover == {} && k in keys && ':' in k && Pending(s.repos, k)
    requires AllEnabled(s.router) && s.permits + 2 <= s.max
    ensures !RestartSafe(s, keys)
  {
    var repo := SplitKey(k).value;
    var adopt := Env(Adopt(repo, true, NoFault));
    var rest := AdoptThenRerun(s, repo);
    InternalIsMain(Apply(s, adopt), rest, Remaining(adopt, keys));
    var startup := [adopt] + rest;
    assert startup[1..] == rest;
    assert MainRun(s, startup, keys) && Legal(s, startup) && Exec(s, startup) == Exec(Apply(s, adopt), rest);
    CanDoubleIsUnsafe(Apply(Exec(s, startup), Env(TakeSnapshot(QueuedKeys(Exec(s, startup).repos)))));
  }

  lemma AdoptThenRerun(s: State, repo: Repo) returns (rest: seq<Step>)
    requires s.threads == [] && s.recover == {} && Pending(s.repos, repo.Key())
    requires AllEnabled(s.router) && s.permits + 2 <= s.max
    ensures rest == [Go(0, SpawnAdopted), Go(1, Delete(NoFault)), Go(1, Finish(NoFault)), Go(1, Load), Go(1, Queue(NoFault))]
    ensures var s1 := Apply(s, Env(Adopt(repo, true, NoFault)));
            && Legal(s1, rest)
            && var s', snapshot := Exec(s1, rest), Env(TakeSnapshot(QueuedKeys(Exec(s1, rest).repos)));
               Enabled(s', snapshot) && CanDouble(Apply(s', snapshot))
  {
    var s1 := Apply(s, Env(Adopt(repo, true, NoFault)));
    assert s1.threads == [Caller(repo, RERUN, Adopting(true))];
    rest := AdoptedRerun(s1);
    RequeuedIsSeen(Exec(s1, rest), repo);
  }

  /** The four steps of an event that finds its repo untracked. */
  lemma FirstEvent(s: State, repo: Repo, reason: string) returns (steps: seq<Step>)
    requires s.threads == [] && s.repos == map[] && s.router(repo.fullName).To?
    ensures steps == [Env(Call(repo, reason)), Go(0, Load), Go(0, Queue(NoFault)), Go(0, Spawn)] && Legal(s, steps)
    ensures var s' := Exec(s, steps);
            && |s'.threads| == 2 && s'.threads[1].phase.Debouncing? && s'.threads[1].key == repo.Key()
            && s'.repos == map[repo.Key() := RepoState(StateQueued, reason, s.now, false)]
            && s'.permits == s.permits && s'.max == s.max
  {
    steps := [];
    Extend(s, steps, Env(Call(repo, reason)));
    steps := steps + [Env(Call(repo, reason))];
    Extend(s, steps, Go(0, Load));
    steps := steps + [Go(0, Load)];
    Extend(s, steps, Go(0, Queue(NoFault)));
    steps := steps + [Go(0, Queue(NoFault))];
    Extend(s, steps, Go(0, Spawn));
    steps := steps + [Go(0, Spawn)];
  }

  /** The goroutine runs, its StartRun lost, and saves its handle. */
  lemma RunUnstarted(s0: State, before: seq<Step>, data: string) returns (steps: seq<Step>)
    requires Legal(s0, before)
    requires var s := Exec(s0, before); |s.threads| == 2 && s.threads[1].phase.Debouncing? && s.permits < s.max
    ensures steps == before + [Go(1, Timer), Go(1, Acquire), Go(1, Start(LostRequest)), Go(1, Save(data, NoFault))]
    ensures Legal(s0, steps)
    ensures var s, s' := Exec(s0, before), Exec(s0, steps);
            s'.repos == s.repos && s'.handles == s.handles[s.threads[1].key := data]
  {
    steps := before;
    Extend(s0, steps, Go(1, Timer));
    steps := steps + [Go(1, Timer)];
    Extend(s0, steps, Go(1, Acquire));
    steps := steps + [Go(1, Acquire)];
    Extend(s0, steps, Go(1, Start(LostRequest)));
    steps := steps + [Go(1, Start(LostRequest))];
    Extend(s0, steps, Go(1, Save(data, NoFault)));
    steps := steps + [Go(1, Save(data, NoFault))];
  }

  /** So a lost StartRun fails open across a restart. The run goes on and saves
      its handle over an entry that still says queued; the next process adopts
      the run from the handle and recovers the entry. */
  lemma LostStartDoubles(repo: Repo, reason: string, data: string, max: nat, router: Router) returns (steps: seq<Step>)
    requires max >= 1 && AllEnabled(router)
    ensures var s0 := Boot(map[], map[], max, router);
            && BenignRun(s0, steps) && Legal(s0, steps)
            && (forall j :: 0 <= j < |steps| && !FaultFree(steps[j]) ==> steps[j] == Go(1, Start(LostRequest)))
            && var s := Exec(s0, steps);
               && repo.Key() in s.handles && repo.Key() in QueuedKeys(s.repos)
               && !RestartSafe(Boot(s.repos, s.handles, max, router), s.handles.Keys)
               && !QuietRestartSafe(Boot(s.repos, s.handles, max, router), s.handles.Keys)
  {
    var s0 := Boot(map[], map[], max, router);
    var first := FirstEvent(s0, repo, reason);
    steps := RunUnstarted(s0, first, data);
    PlainIsBenign(s0, steps);
    var s := Exec(s0, steps);
    assert ':' in repo.Key() && repo.Key() in QueuedKeys(s.repos);
    QueuedIsUnsafe(Boot(s.repos, s.handles, max, router), s.handles.Keys, repo.Key());
  }

  /** And so does a lost DeleteRunHandle, from any state in which a run polls: its
      entry goes, its handle stays, and the next event queues the repo. */
  lemma LostDeleteDoubles(s: State, i: nat, reason: string) returns (steps: seq<Step>)
    requires i < |s.threads| && s.threads[i].phase.Polling? && s.threads[i].key in s.handles
    requires s.threads[i].key == s.threads[i].repo.Key() && s.max >= 1 && AllEnabled(s.router)
    ensures steps == [Go(i, Delete(LostRequest)), Go(i, Finish(NoFault)), Env(Call(s.threads[i].repo, reason)),
                      Go(|s.threads|, Load), Go(|s.threads|, Queue(NoFault))]
    ensures BenignRun(s, steps) && Legal(s, steps)
    ensures var s' := Exec(s, steps);
            && !RestartSafe(Boot(s'.repos, s'.handles, s.max, s.router), s'.handles.Keys)
            && !QuietRestartSafe(Boot(s'.repos, s'.handles, s.max, s.router), s'.handles.Keys)
  {
    var t, n := s.threads[i], |s.threads|;
    steps := [];
    Extend(s, steps, Go(i, Delete(LostRequest)));
    steps := steps + [Go(i, Delete(LostRequest))];
    Extend(s, steps, Go(i, Finish(NoFault)));
    steps := steps + [Go(i, Finish(NoFault))];
    steps := QueueAnew(s, steps, t.repo, reason);
    PlainIsBenign(s, steps);
    var s' := Exec(s, steps);
    assert ':' in t.key && t.key in QueuedKeys(s'.repos);
    QueuedIsUnsafe(Boot(s'.repos, s'.handles, s.max, s.router), s'.handles.Keys, t.key);
  }

  /** An event for an enabled repo without an entry, up to its Queue. */
  lemma QueueAnew(s0: State, before: seq<Step>, repo: Repo, reason: string) returns (steps: seq<Step>)
    requires Legal(s0, before)
    requires var s := Exec(s0, before); repo.Key() !in s.repos && s.router(repo.fullName).To?
    ensures var n := |Exec(s0, before).threads|;
            steps == before + [Env(Call(repo, reason)), Go(n, Load), Go(n, Queue(NoFault))]
    ensures Legal(s0, steps)
    ensures var s, s' := Exec(s0, before), Exec(s0, steps);
            s'.handles == s.handles && s'.repos == s.repos[repo.Key() := RepoState(StateQueued, reason, s.now, false)]
  {
    var n := |Exec(s0, before).threads|;
    steps := before;
    Extend(s0, steps, Env(Call(repo, reason)));
    steps := steps + [Env(Call(repo, reason))];
    Extend(s0, steps, Go(n, Load));
    steps := steps + [Go(n, Load)];
    Extend(s0, steps, Go(n, Queue(NoFault)));
    steps := steps + [Go(n, Queue(NoFault))];
  }

  /** Nor may an adopted run re-enqueue itself before the snapshot: over a store
      that a healthy process leaves behind, without any fault, the snapshot then
      sees a repo queued by this process, and recovery doubles it. */
  lemma EarlyRerunDoubles(repos: Repos, handles: map<string, string>, repo: Repo, max: nat, router: Router)
    returns (steps: seq<Step>)
    requires Running(repos, repo.Key()) && Pending(repos, repo.Key()) && repo.Key() in handles
    requires max >= 2 && AllEnabled(router)
    ensures var s0 := Boot(repos, handles, max, router);
            && steps == [Env(Adopt(repo, true, NoFault)), Go(0, SpawnAdopted), Go(1, Delete(NoFault)),
                         Go(1, Finish(NoFault)), Go(1, Load), Go(1, Queue(NoFault))]
            && CleanRun(s0, steps) && Legal(s0, steps)
            && var s, snapshot := Exec(s0, steps), Env(TakeSnapshot(QueuedKeys(Exec(s0, steps).repos)));
               Enabled(s, snapshot) && CanDouble(Apply(s, snapshot))
  {
    var s0, adopt := Boot(repos, handles, max, router), Env(Adopt(repo, true, NoFault));
    var s1 := Apply(s0, adopt);
    var rest := AdoptThenRerun(s0, repo);
    InternalRunIsClean(s1, rest);
    steps := [adopt] + rest;
    assert steps[1..] == rest && Exec(s0, steps) == Exec(s1, rest);
  }

  lemma RequeuedIsSeen(s: State, repo: Repo)
    requires Doubles(s, 1) && s.threads[1].key == repo.Key() && s.recover == {} && s.permits + 2 <= s.max
    requires repo.Key() in s.repos && s.repos[repo.Key()].state.StateQueued?
    ensures Enabled(s, Env(TakeSnapshot(QueuedKeys(s.repos)))) && CanDouble(Apply(s, Env(TakeSnapshot(QueuedKeys(s.repos)))))
  {
    assert ':' in repo.Key();
    RecoveryDoubles(s, 1, QueuedKeys(s.repos));
  }

  /** An adopted run ends with its rerun flag set and queues its repo again. */
  lemma AdoptedRerun(s: State) returns (steps: seq<Step>)
    requires |s.threads| == 1 && s.threads[0].phase == Adopting(true) && Pending(s.repos, s.threads[0].key)
    requires AllEnabled(s.router)
    ensures steps == [Go(0, SpawnAdopted), Go(1, Delete(NoFault)), Go(1, Finish(NoFault)), Go(1, Load), Go(1, Queue(NoFault))]
    ensures Legal(s, steps)
    ensures var s', key := Exec(s, steps), s.threads[0].key;
            && |s'.threads| == 2 && s'.threads[1].phase.Spawning?
            && s'.threads[1].key == key && s'.threads[1].repo == s.threads[0].repo
            && key in s'.repos && s'.repos[key].state.StateQueued?
            && s'.recover == s.recover && s'.permits == s.permits && s'.max == s.max && s'.router == s.router
  {
    steps := [];
    Extend(s, steps, Go(0, SpawnAdopted));
    steps := steps + [Go(0, SpawnAdopted)];
    Extend(s, steps, Go(1, Delete(NoFault)));
    steps := steps + [Go(1, Delete(NoFault))];
    Extend(s, steps, Go(1, Finish(NoFault)));
    steps := steps + [Go(1, Finish(NoFault))];
    Extend(s, steps, Go(1, Load));
    steps := steps + [Go(1, Load)];
    Extend(s, steps, Go(1, Queue(NoFault)));
    steps := steps + [Go(1, Queue(NoFault))];
  }

  // ----- a restart without store faults keeps the full invariant -----

  /** No call fails; an adopted run resumes its handle if it has one; corrupt
      handles, and no others, are deleted; nothing expires. */
  predicate Tidy(s: State, step: Step, keys: set<string>) {
    FaultFree(step) &&
    match step
    case Env(Adopt(repo, resume, _)) => resume <==> repo.Key() in s.handles
    case Env(Forget(k)) => k !in keys
    case Env(Expire(_)) => false
    case _ => true
  }

  predicate TidyRun(s: State, steps: seq<Step>, keys: set<string>)
    decreases |steps|
  {
    steps == [] || (&& Enabled(s, steps[0]) && Tidy(s, steps[0], keys)
                    && TidyRun(Apply(s, steps[0]), steps[1..], keys))
  }

  /** Entries of other keys are as they were. */
  ghost predicate Untouched(a: Repos, b: Repos, keys: set<string>) {
    forall k :: k !in keys ==> (k in a <==> k in b) && (k in a ==> k in b && a[k] == b[k])
  }

  /** A key that is not left to adopt has an owner, or its run has ended. */
  ghost predicate Taken(s: State, keys: set<string>) {
    forall k :: k in keys ==> Owned(s, k) || k !in s.repos
  }

  ghost predicate TidyBooting(s: State, todo: set<string>, keys: set<string>) {
    Booting(s, todo, keys) && Inv(s) && Taken(s, keys - todo)
  }

  lemma TidyIsClean(s: State, step: Step, todo: set<string>, keys: set<string>)
    requires Booting(s, todo, keys) && Enabled(s, step) && StartupStep(s, step, todo) && Tidy(s, step, keys)
    ensures Clean(s, step)
  {
    StartupIsBenign(s, step, todo, keys);
    if step.Env? && step.event.Adopt? {
      assert ':' in step.event.repo.Key();
    }
  }

  lemma TidyStep(s: State, step: Step, todo: set<string>, keys: set<string>)
    requires TidyBooting(s, todo, keys) && Enabled(s, step) && StartupStep(s, step, todo) && Tidy(s, step, keys)
    ensures Clean(s, step) && TidyBooting(Apply(s, step), Remaining(step, todo), keys)
    ensures Untouched(s.repos, Apply(s, step).repos, keys)
    ensures forall k :: k in Remaining(step, todo) ==> (k in Apply(s, step).handles <==> k in s.handles)
  {
    TidyIsClean(s, step, todo, keys);
    BootingStep(s, step, todo, keys);
    InvStep(s, step);
    UnownedShrinks(s, step);
    StartupEntries(s, step, todo, keys);
    var s' := Apply(s, step);
    forall k | k in keys - Remaining(step, todo) ensures Owned(s', k) || k !in s'.repos {
      if step.Env? && step.event.Adopt? && k == step.event.repo.Key() {
        assert Owns(s'.threads[|s.threads|]) && s'.threads[|s.threads|].key == k;
      } else {
        assert k !in Unowned(s) && k !in Unowned(s');
      }
    }
  }

  lemma StartupEntries(s: State, step: Step, todo: set<string>, keys: set<string>)
    requires Booting(s, todo, keys) && Enabled(s, step) && StartupStep(s, step, todo) && Tidy(s, step, keys)
    ensures Untouched(s.repos, Apply(s, step).repos, keys)
    ensures forall k :: k in Remaining(step, todo) ==> (k in Apply(s, step).handles <==> k in s.handles)
  {
    if step.Go? {
      ActionWhileBooting(s, s.threads[step.i], step.action);
    }
  }

  lemma {:induction false} TidyStartup(s: State, steps: seq<Step>, todo: set<string>, keys: set<string>)
    requires TidyBooting(s, todo, keys) && StartupRun(s, steps, todo) && TidyRun(s, steps, keys)
    ensures CleanRun(s, steps) && Legal(s, steps)
    ensures var s' := Exec(s, steps);
            && TidyBooting(s', LeftOver(steps, todo), keys) && Untouched(s.repos, s'.repos, keys)
            && forall k :: k in LeftOver(steps, todo) ==> (k in s'.handles <==> k in s.handles)
    decreases |steps|
  {
    if steps != [] {
      TidyStep(s, steps[0], todo, keys);
      TidyStartup(Apply(s, steps[0]), steps[1..], Remaining(steps[0], todo), keys);
      LeftOverShrinks(steps[1..], Remaining(steps[0], todo));
    }
  }

  lemma {:induction false} LeftOverShrinks(steps: seq<Step>, todo: set<string>)
    ensures LeftOver(steps, todo) <= todo
  {
    if steps != [] {
      LeftOverShrinks(steps[1..], Remaining(steps[0], todo));
    }
  }

  /** An entry left running by a process that crashed before it saved a handle. */
  ghost predicate LockedOut(s: State, key: string) {
    Running(s.repos, key) && !Owned(s, key) && key !in s.recover
  }

  /** Right after the snapshot: recovery will visit exactly the repos queued at
      the crash; an adopted key has an owner or its run has ended; every other
      stored repo is locked out. */
  ghost predicate Restarted(s: State, repos: Repos, keys: set<string>) {
    && Inv(s) && s.recover == QueuedKeys(repos) && Taken(s, keys)
    && (forall k :: k in repos && ':' in k && k !in keys && k !in s.recover ==> LockedOut(s, k))
  }

  lemma SnapshotRestarts(s: State, repos: Repos, keys: set<string>)
    requires TidyBooting(s, {}, keys) && Untouched(repos, s.repos, keys) && keys !! QueuedKeys(repos)
    ensures QueuedKeys(s.repos) == QueuedKeys(repos)
    ensures Restarted(Apply(s, Env(TakeSnapshot(QueuedKeys(s.repos)))), repos, keys)
  {
    var snapshot := Env(TakeSnapshot(QueuedKeys(s.repos)));
    InvStep(s, snapshot);
    var s' := Apply(s, snapshot);
    assert QueuedKeys(s.repos) == QueuedKeys(repos);
    assert s'.threads == s.threads && keys - {} == keys;
    forall k | k in repos && ':' in k && k !in keys && k !in s'.recover ensures LockedOut(s', k) {
      assert k in s.repos && s.repos[k] == repos[k];
    }
  }

  /** Crash in any state of a healthy process, keep only its store, adopt keys
      that are not queued, each once, and take the snapshot: the full invariant
      is back, the snapshot holds exactly the repos queued at the crash, and
      every clean run after it keeps one owner and one run per repo. */
  lemma {:induction false} RestartRestores(
    crashed: State, keys: set<string>, max: nat, router: Router, startup: seq<Step>, later: seq<Step>)
    requires Inv(crashed) && keys !! QueuedKeys(crashed.repos)
    requires var s0 := Boot(crashed.repos, crashed.handles, max, router);
             StartupRun(s0, startup, keys) && TidyRun(s0, startup, keys) && LeftOver(startup, keys) == {}
    ensures var s0 := Boot(crashed.repos, crashed.handles, max, router);
            && Legal(s0, startup)
            && var s1, snapshot := Exec(s0, startup), Env(TakeSnapshot(QueuedKeys(crashed.repos)));
               && Enabled(s1, snapshot)
               && var s2 := Apply(s1, snapshot);
                  && Restarted(s2, crashed.repos, keys)
                  && (CleanRun(s2, later) ==>
                        Legal(s2, later) && Inv(Exec(s2, later)) && Exclusive(Exec(s2, later)))
  {
    var s0 := Boot(crashed.repos, crashed.handles, max, router);
    CrashKeepsInv(crashed, max, router);
    TidyStartup(s0, startup, keys, keys);
    var s1 := Exec(s0, startup);
    SnapshotRestarts(s1, crashed.repos, keys);
    var s2 := Apply(s1, Env(TakeSnapshot(QueuedKeys(s1.repos))));
    if CleanRun(s2, later) {
      CleanRunKeeps(s2, later);
      FailClosedExclusive(Exec(s2, later));
    }
  }

  /** The store outlives the process: its entries and handles still agree, and
      a repo with a handle is not queued. */
  lemma CrashKeepsInv(s: State, max: nat, router: Router)
    requires Inv(s)
    ensures Inv(Boot(s.repos, s.handles, max, router)) && s.handles.Keys !! QueuedKeys(s.repos)
  {
    forall k | k in s.handles ensures k !in QueuedKeys(s.repos) {
      assert Sane(s.repos, s.handles, k);
    }
  }

  // ----- which faults endanger a restart -----

  /** A saved handle has a running entry that recovery leaves alone, and its owner
      polls; an owner past StartRun has a running entry. */
  ghost predicate HandlesRun(s: State) {
    && FailClosed(s)
    && (forall k :: k in s.handles ==> Running(s.repos, k) && k !in s.recover)
    && (forall i :: 0 <= i < |s.threads| && Owns(s.threads[i]) ==> HandleFits(s.repos, s.handles, s.threads[i]))
  }

  predicate HandleFits(repos: Repos, handles: map<string, string>, t: Thread) {
    (Started(t) ==> Running(repos, t.key)) && (t.key in handles ==> HasHandle(t))
  }

  /** Every store fault except a lost StartRun or DeleteRunHandle request; an
      adopted run is not stored as queued and resumes its handle; no entry
      expires before its handle. */
  ghost predicate KeepsHandles(s: State, step: Step) {
    Benign(s, step) &&
    match step
    case Env(Adopt(repo, resume, _)) =>
      (repo.Key() in s.repos ==> Running(s.repos, repo.Key())) && (resume <==> repo.Key() in s.handles)
    case Env(Expire(keys)) => keys !! s.handles.Keys
    case Go(_, Start(f)) => !f.LostRequest?
    case Go(_, Delete(f)) => !f.LostRequest?
    case _ => true
  }

  /** What an action does to the entry, the handle and the owner of its key. */
  predicate HandleEffect(s: State, t: Thread, e: Effect) {
    && (t.key in e.handles ==> Running(e.repos, t.key))
    && (Owns(e.thread) ==> HandleFits(e.repos, e.handles, e.thread))
    && (e.child.Some? ==> HandleFits(e.repos, e.handles, e.child.value))
    && (!Owns(t) ==> e.handles == s.handles)
    && (!Owns(t) && t.key in s.repos ==> t.key in e.repos && e.repos[t.key].state == s.repos[t.key].state)
  }

  lemma ActionHandles(s: State, i: nat, a: Action)
    requires Enabled(s, Go(i, a)) && KeepsHandles(s, Go(i, a))
    requires var t := s.threads[i];
             && (Owns(t) ==> t.key in s.repos && HandleFits(s.repos, s.handles, t))
             && (t.key in s.handles ==> Running(s.repos, t.key))
    ensures HandleEffect(s, s.threads[i], Do(s, s.threads[i], a))
  {
  }

  lemma HandlesRunAction(s: State, i: nat, a: Action)
    requires HandlesRun(s) && Enabled(s, Go(i, a)) && KeepsHandles(s, Go(i, a)) && FailClosed(Apply(s, Go(i, a)))
    ensures HandlesRun(Apply(s, Go(i, a)))
  {
    var t, e := s.threads[i], Do(s, s.threads[i], a);
    ActionHandles(s, i, a);
    ActionOnlyKey(s, t, a);
    ActionOwnerEffect(s, t, a);
    TakeHandles(s, i, e);
  }

  lemma TakeHandles(s: State, i: nat, e: Effect)
    requires HandlesRun(s) && i < |s.threads| && FailClosed(Take(s, i, e))
    requires OwnerEffect(s, s.threads[i], e) && OnlyKey(s, s.threads[i].key, e)
    requires HandleEffect(s, s.threads[i], e)
    ensures HandlesRun(Take(s, i, e))
  {
    var s' := Take(s, i, e);
    forall j | 0 <= j < |s'.threads| && Owns(s'.threads[j]) ensures HandleFits(s'.repos, s'.handles, s'.threads[j]) {
      if j < |s.threads| && j != i {
        assert s'.threads[j] == s.threads[j] && HandleFits(s.repos, s.handles, s.threads[j]);
      }
    }
  }

  lemma HandlesRunEvent(s: State, e: Event)
    requires HandlesRun(s) && CanHappen(s, e) && KeepsHandles(s, Env(e)) && FailClosed(Happen(s, e))
    ensures HandlesRun(Happen(s, e))
  {
    var s' := Happen(s, e);
    forall j | 0 <= j < |s'.threads| && Owns(s'.threads[j]) ensures HandleFits(s'.repos, s'.handles, s'.threads[j]) {
      if j < |s.threads| {
        assert s'.threads[j] == s.threads[j] && HandleFits(s.repos, s.handles, s.threads[j]);
      }
    }
  }

  ghost predicate KeepsHandlesRun(s: State, steps: seq<Step>)
    decreases |steps|
  {
    steps == [] || (Enabled(s, steps[0]) && KeepsHandles(s, steps[0]) && KeepsHandlesRun(Apply(s, steps[0]), steps[1..]))
  }

  lemma {:induction false} HandlesRunRun(s: State, steps: seq<Step>)
    requires HandlesRun(s) && KeepsHandlesRun(s, steps)
    ensures Legal(s, steps) && HandlesRun(Exec(s, steps))
    decreases |steps|
  {
    if steps != [] {
      FailClosedStep(s, steps[0]);
      match steps[0] {
        case Env(e) => HandlesRunEvent(s, e);
        case Go(i, a) => HandlesRunAction(s, i, a);
      }
      HandlesRunRun(Apply(s, steps[0]), steps[1..]);
    }
  }

  /** Only these two faults fail open across a restart. Start from any state in
      which handles have running entries (an empty store, say), let any other
      store calls fail in any way, crash anywhere and adopt from the saved
      handles: none of them is stored as queued, so the restart is safe as long
      as nobody calls Queue before the snapshot, and safe for every schedule if
      no adopted run has a deferred rerun. The next process starts out the same. */
  lemma {:induction false} OnlyTwoFaultsEndangerRestart(
    s0: State, steps: seq<Step>, keys: set<string>, max: nat, router: Router)
    requires HandlesRun(s0) && KeepsHandlesRun(s0, steps)
    ensures Legal(s0, steps)
    ensures var s := Exec(s0, steps);
            var next := Boot(s.repos, s.handles, max, router);
            keys <= s.handles.Keys ==>
              && HandlesRun(next) && QuietRestartSafe(next, keys)
              && (Unflagged(s.repos, keys) ==> RestartSafe(next, keys))
  {
    HandlesRunRun(s0, steps);
    var s := Exec(s0, steps);
    if keys <= s.handles.Keys {
      assert keys !! QueuedKeys(s.repos);
      UnqueuedIsSafe(s.repos, s.handles, keys, max, router);
    }
  }

  // ----- what recovery leaves alone -----

  predicate Spares(step: Step, key: string) {
    match step
    case Env(Adopt(repo, _, _)) => repo.Key() != key
    case Env(Expire(keys)) => key !in keys
    case _ => true
  }

  lemma LockedOutStep(s: State, step: Step, key: string)
    requires InvFor(s, key) && Enabled(s, step) && CleanFor(s, step, key) && LockedOut(s, key) && Spares(step, key)
    ensures LockedOut(Apply(s, step), key)
  {
    match step
    case Env(e) => LockedOutEvent(s, e, key);
    case Go(i, a) => LockedOutAction(s, i, a, key);
  }

  lemma LockedOutEvent(s: State, e: Event, key: string)
    requires CanHappen(s, e) && LockedOut(s, key) && Spares(Env(e), key)
    ensures LockedOut(Happen(s, e), key)
  {
  }

  lemma LockedOutAction(s: State, i: nat, a: Action, key: string)
    requires InvFor(s, key) && Enabled(s, Go(i, a)) && Faultless(s, Go(i, a), key) && LockedOut(s, key)
    ensures LockedOut(Apply(s, Go(i, a)), key)
  {
    var t, s' := s.threads[i], Apply(s, Go(i, a));
    ActionOwnerEffect(s, t, a);
    ActionOnlyKey(s, t, a);
    if t.key == key {
      ActionCleanEffect(s, i, a);
    }
    assert forall j :: 0 <= j < |s.threads| && j != i ==> s'.threads[j] == s.threads[j];
  }

  /** A locked-out repo stays locked out over every run that is clean for it:
      only its adoption or its expiry ends that, no number of events does. */
  lemma {:induction false} LockedOutRun(s: State, steps: seq<Step>, key: string)
    requires InvFor(s, key) && CleanRunFor(s, steps, key) && LockedOut(s, key)
    requires forall j :: 0 <= j < |steps| ==> Spares(steps[j], key)
    ensures Legal(s, steps) && LockedOut(Exec(s, steps), key)
    decreases |steps|
  {
    if steps != [] {
      InvForStep(s, steps[0], key);
      LockedOutStep(s, steps[0], key);
      LockedOutRun(Apply(s, steps[0]), steps[1..], key);
    }
  }

  // ----- what recovery brings back -----

  /** Whatever the rules, and whatever fails for other keys: once recovery has
      visited a key, its entry is gone or belongs to an owner of this process,
      and no rerun flag of it ever expires. */
  lemma {:induction false} VisitedRun(s: State, steps: seq<Step>, key: string)
    requires InvFor(s, key) && CleanRunFor(s, steps, key) && (key in s.recover || key !in Unowned(s))
    ensures Legal(s, steps) && LastsRun(s, steps, key)
    ensures var s' := Exec(s, steps); InvFor(s', key) && (key in s'.recover || key !in Unowned(s'))
    decreases |steps|
  {
    if steps != [] {
      InvForStep(s, steps[0], key);
      OnlyFaultsOrphan(s, steps[0], key);
      VisitedRun(Apply(s, steps[0]), steps[1..], key);
    }
  }

  predicate Runs(o: Obs, key: string) {
    o.key == key && (o.Began? || o.Cancelled?)
  }

  /** A run of the key began, or its owner was cancelled. */
  ghost predicate Ran(log: seq<Obs>, key: string) {
    exists j :: 0 <= j < |log| && Runs(log[j], key)
  }

  /** The goroutine will get the key to its run: a caller on its way to Queue, or
      an owner yet to begin. */
  predicate Carries(t: Thread, key: string) {
    OnItsWay(t, key) || (t.key == key && Owns(t) && !Started(t))
  }

  ghost predicate Carried(s: State, key: string) {
    exists i :: 0 <= i < |s.threads| && Carries(s.threads[i], key)
  }

  /** A queued repo is not dropped: recovery has still to visit it, or its run is
      on its way, or has begun. */
  ghost predicate Tracked(s: State, key: string) {
    && (forall i :: 0 <= i < |s.threads| && Owns(s.threads[i]) && Started(s.threads[i]) && s.threads[i].key == key ==>
                      Ran(s.log, key))
    && (key in s.recover || (key !in Unowned(s) && (Ran(s.log, key) || Carried(s, key))))
  }

  /** The rules go on to want the repo, and nobody adopts it. */
  predicate Favours(step: Step, key: string) {
    StaysWanted(step, key) && (step.Env? && step.event.Adopt? ==> step.event.repo.Key() != key)
  }

  /** What an action of a goroutine does for the key it carries. */
  predicate PassesOn(s: State, t: Thread, e: Effect) {
    StartsRunning(t, e) && (Carries(t, t.key) ==> HandsOn(s, t, e))
  }

  /** Whoever passes StartRun leaves a note of it. */
  predicate StartsRunning(t: Thread, e: Effect) {
    && (Owns(e.thread) && Started(e.thread) && !(Owns(t) && Started(t)) ==> e.note.Some? && Runs(e.note.value, t.key))
    && (e.child.Some? && Started(e.child.value) ==> Owns(t) && Started(t))
  }

  predicate HandsOn(s: State, t: Thread, e: Effect) {
    || Carries(e.thread, t.key) || (e.child.Some? && Carries(e.child.value, t.key))
    || (e.note.Some? && Runs(e.note.value, t.key))
    || (t.key in s.repos && !Owns(t))
  }

  lemma ActionStartsRunning(s: State, t: Thread, a: Action)
    requires Ready(s, t, a)
    ensures StartsRunning(t, Do(s, t, a))
  {
  }

  lemma OwnerHandsOn(s: State, t: Thread, a: Action)
    requires Ready(s, t, a) && Owns(t) && !Started(t)
    ensures HandsOn(s, t, Do(s, t, a))
  {
  }

  lemma CallerHandsOn(s: State, i: nat, a: Action)
    requires Enabled(s, Go(i, a)) && FaultFree(Go(i, a)) && Wanted(s.router, s.threads[i].key)
    requires OnItsWay(s.threads[i], s.threads[i].key)
    ensures HandsOn(s, s.threads[i], Do(s, s.threads[i], a))
  {
    ActionReturns(s, i, a, s.threads[i].key);
  }

  lemma ActionPassesOn(s: State, i: nat, a: Action)
    requires Enabled(s, Go(i, a)) && FaultFree(Go(i, a)) && Wanted(s.router, s.threads[i].key)
    ensures PassesOn(s, s.threads[i], Do(s, s.threads[i], a))
  {
    var t := s.threads[i];
    ActionStartsRunning(s, t, a);
    if OnItsWay(t, t.key) {
      CallerHandsOn(s, i, a);
    } else if Owns(t) && !Started(t) {
      OwnerHandsOn(s, t, a);
    }
  }

  lemma RanGrows(s: State, i: nat, e: Effect, key: string)
    requires i < |s.threads|
    requires Ran(s.log, key) || (e.note.Some? && Runs(e.note.value, key))
    ensures Ran(Take(s, i, e).log, key)
  {
    var log := Take(s, i, e).log;
    if Ran(s.log, key) {
      var j :| 0 <= j < |s.log| && Runs(s.log[j], key);
      assert log[j] == s.log[j];
    } else {
      assert log[|s.log|] == e.note.value;
    }
  }

  lemma TakeStarted(s: State, i: nat, e: Effect, key: string, j: nat)
    requires Tracked(s, key) && i < |s.threads| && OwnerEffect(s, s.threads[i], e) && PassesOn(s, s.threads[i], e)
    requires var t := Take(s, i, e).threads; j < |t| && Owns(t[j]) && Started(t[j]) && t[j].key == key
    ensures Ran(Take(s, i, e).log, key)
  {
    var s' := Take(s, i, e);
    assert j < |s.threads| && j != i ==> s'.threads[j] == s.threads[j];
    RanGrows(s, i, e, key);
  }

  lemma TakeCarries(s: State, i: nat, e: Effect, key: string)
    requires Tracked(s, key) && key !in s.recover && !Ran(s.log, key) && i < |s.threads|
    requires OwnerEffect(s, s.threads[i], e) && PassesOn(s, s.threads[i], e)
    ensures Ran(Take(s, i, e).log, key) || Carried(Take(s, i, e), key)
  {
    var t, s' := s.threads[i], Take(s, i, e);
    var j :| 0 <= j < |s.threads| && Carries(s.threads[j], key);
    assert s'.threads[i] == e.thread && (e.child.Some? ==> s'.threads[|s.threads|] == e.child.value);
    if j != i {
      assert s'.threads[j] == s.threads[j];
    } else if e.note.Some? && Runs(e.note.value, key) {
      RanGrows(s, i, e, key);
    } else if key in s.repos && !Owns(t) {
      assert key !in Unowned(s);
      var o :| 0 <= o < |s.threads| && Owns(s.threads[o]) && s.threads[o].key == key;
      assert Carries(s.threads[o], key) && s'.threads[o] == s.threads[o];
    }
  }

  lemma TrackedAction(s: State, i: nat, a: Action, key: string)
    requires FailClosed(s) && Tracked(s, key) && Wanted(s.router, key)
    requires Enabled(s, Go(i, a)) && Faultless(s, Go(i, a), key)
    ensures Tracked(Apply(s, Go(i, a)), key)
  {
    var t, e, s' := s.threads[i], Do(s, s.threads[i], a), Apply(s, Go(i, a));
    ActionOwnerEffect(s, t, a);
    OnlyFaultsOrphan(s, Go(i, a), key);
    if t.key == key {
      ActionPassesOn(s, i, a);
      forall j | 0 <= j < |s'.threads| && Owns(s'.threads[j]) && Started(s'.threads[j]) && s'.threads[j].key == key
        ensures Ran(s'.log, key)
      {
        TakeStarted(s, i, e, key, j);
      }
      if key !in s.recover && !Ran(s.log, key) {
        TakeCarries(s, i, e, key);
      } else if Ran(s.log, key) {
        RanGrows(s, i, e, key);
      }
    } else {
      TrackedElsewhere(s, i, e, key);
    }
  }

  lemma TrackedElsewhere(s: State, i: nat, e: Effect, key: string)
    requires Tracked(s, key) && i < |s.threads| && s.threads[i].key != key && OwnerEffect(s, s.threads[i], e)
    requires key in Unowned(Take(s, i, e)) ==> key in Unowned(s)
    ensures Tracked(Take(s, i, e), key)
  {
    var s' := Take(s, i, e);
    if Ran(s.log, key) {
      RanGrows(s, i, e, key);
    }
    forall j | 0 <= j < |s'.threads| && Owns(s'.threads[j]) && s'.threads[j].key == key
      ensures j < |s.threads| && s'.threads[j] == s.threads[j]
    {
    }
    if Carried(s, key) {
      var j :| 0 <= j < |s.threads| && Carries(s.threads[j], key);
      assert s'.threads[j] == s.threads[j];
    }
  }

  lemma TrackedRecover(s: State, key: string, f: Fault)
    requires FailClosed(s) && Tracked(s, key) && CanHappen(s, Recover(key, f)) && f.NoFault?
    ensures Tracked(Happen(s, Recover(key, f)), key)
  {
    var s' := Happen(s, Recover(key, f));
    assert forall j :: 0 <= j < |s.threads| ==> s'.threads[j] == s.threads[j];
    assert Carries(s'.threads[|s.threads|], key);
  }

  lemma TrackedEvent(s: State, e: Event, key: string)
    requires FailClosed(s) && Tracked(s, key) && CanHappen(s, e) && Faultless(s, Env(e), key) && Favours(Env(e), key)
    requires !(e.Recover? && e.key == key)
    ensures Tracked(Happen(s, e), key)
  {
    var s' := Happen(s, e);
    OnlyFaultsOrphan(s, Env(e), key);
    assert forall j :: 0 <= j < |s.threads| ==> s'.threads[j] == s.threads[j];
    if Carried(s, key) {
      var j :| 0 <= j < |s.threads| && Carries(s.threads[j], key);
      assert Carries(s'.threads[j], key);
    }
  }

  lemma TrackedStep(s: State, step: Step, key: string)
    requires FailClosed(s) && Tracked(s, key) && Wanted(s.router, key)
    requires Enabled(s, step) && Faultless(s, step, key) && Favours(step, key)
    ensures Tracked(Apply(s, step), key) && Wanted(Apply(s, step).router, key)
  {
    match step
    case Env(e) =>
      if e.Recover? && e.key == key {
        TrackedRecover(s, key, e.fault);
      } else {
        TrackedEvent(s, e, key);
      }
    case Go(i, a) => TrackedAction(s, i, a, key);
  }

  /** However recovery is interleaved with everything else, and whatever store
      calls fail for other keys, it drops nothing. */
  lemma {:induction false} TrackedRun(s: State, steps: seq<Step>, key: string)
    requires FailClosed(s) && Tracked(s, key) && Wanted(s.router, key) && CleanRunFor(s, steps, key)
    requires forall j :: 0 <= j < |steps| ==> Favours(steps[j], key)
    ensures Legal(s, steps) && Tracked(Exec(s, steps), key) && Wanted(Exec(s, steps).router, key)
    decreases |steps|
  {
    if steps != [] {
      TrackedStep(s, steps[0], key);
      FailClosedStep(s, steps[0]);
      TrackedRun(Apply(s, steps[0]), steps[1..], key);
    }
  }

  ghost predicate OneOwner(s: State, key: string) {
    exists i :: 0 <= i < |s.threads| && Owns(s.threads[i]) && s.threads[i].key == key
                && forall j :: 0 <= j < |s.threads| && Owns(s.threads[j]) && s.threads[j].key == key ==> j == i
  }

  /** A call of Enqueue for the key has yet to reach Queue. */
  ghost predicate BeforeQueue(s: State, key: string) {
    exists i :: 0 <= i < |s.threads| && s.threads[i].key == key && (s.threads[i].phase.Routing? || s.threads[i].phase.Routed?)
  }

  lemma TrackedMeans(s: State, key: string)
    requires FailClosed(s) && Tracked(s, key) && key !in s.recover
    ensures Ran(s.log, key) || BeforeQueue(s, key) || OneOwner(s, key)
    ensures Quiescent(s) ==> Ran(s.log, key)
  {
    if !Ran(s.log, key) {
      var i :| 0 <= i < |s.threads| && Carries(s.threads[i], key);
      if !BeforeQueue(s, key) {
        assert Owns(s.threads[i]);
      }
    }
  }

  /** Recovery across a crash: every repo that was queued when the process
      stopped and that the rules want is, in every state of the next process,
      still to be visited, inside Enqueue, or queued with exactly one owner, or
      its run has begun (or was cancelled); once visited and at rest, it has run.
      Nobody calls Queue before the snapshot, which MainIsStartup shows for
      adopted keys without a flag; after it, calls for other keys may fail. */
  lemma {:induction false} RestartRecovers(
    crashed: State, keys: set<string>, max: nat, router: Router, startup: seq<Step>, later: seq<Step>, key: string)
    requires Inv(crashed) && keys !! QueuedKeys(crashed.repos) && key in QueuedKeys(crashed.repos)
    requires var s0 := Boot(crashed.repos, crashed.handles, max, router);
             StartupRun(s0, startup, keys) && TidyRun(s0, startup, keys) && LeftOver(startup, keys) == {}
    ensures var s0 := Boot(crashed.repos, crashed.handles, max, router);
            && Legal(s0, startup)
            && var s1, snapshot := Exec(s0, startup), Env(TakeSnapshot(QueuedKeys(crashed.repos)));
               && Enabled(s1, snapshot)
               && var s2 := Apply(s1, snapshot);
                  (&& CleanRunFor(s2, later, key) && Wanted(s2.router, key)
                   && forall j :: 0 <= j < |later| ==> Favours(later[j], key)) ==>
                    && Legal(s2, later)
                    && var s := Exec(s2, later);
                       && (key in s.recover || Ran(s.log, key) || BeforeQueue(s, key) || OneOwner(s, key))
                       && (key !in s.recover && Quiescent(s) ==> Ran(s.log, key))
  {
    RestartRestores(crashed, keys, max, router, startup, []);
    var s1 := Exec(Boot(crashed.repos, crashed.handles, max, router), startup);
    var s2 := Apply(s1, Env(TakeSnapshot(QueuedKeys(crashed.repos))));
    if CleanRunFor(s2, later, key) && Wanted(s2.router, key) && forall j :: 0 <= j < |later| ==> Favours(later[j], key) {
      TrackedRun(s2, later, key);
      VisitedRun(s2, later, key);
      if key !in Exec(s2, later).recover {
        TrackedMeans(Exec(s2, later), key);
      }
    }
  }

  // ----- what becomes of events for a repo that was left queued -----

  predicate NoneAsked(log: seq<Obs>) {
    forall n :: 0 <= n < |log| ==> !log[n].Asked?
  }

  lemma {:induction false} StartupAsksNothing(s: State, steps: seq<Step>, todo: set<string>)
    requires NoneAsked(s.log) && StartupRun(s, steps, todo)
    ensures Legal(s, steps) && NoneAsked(Exec(s, steps).log)
    decreases |steps|
  {
    if steps != [] {
      StartupAsksNothing(Apply(s, steps[0]), steps[1..], Remaining(steps[0], todo));
    }
  }

  /** The event was settled, or its run is still to come: at rest it was settled. */
  lemma RestSettles(s: State, key: string)
    requires InvFor(s, key) && NothingLost(s, key, true) && Quiescent(s) && key !in s.recover && key !in Unowned(s)
    ensures forall n :: 0 <= n < |s.log| && s.log[n].Asked? && s.log[n].key == key ==> Settled(s.log, n, key)
  {
    forall n | 0 <= n < |s.log| && s.log[n].Asked? && s.log[n].key == key ensures Settled(s.log, n, key) {
      assert Minded(s, n, key, true);
    }
  }

  /** No trigger is lost for a repo that was left queued, either: events that come
      in before recovery has visited it are merged into the stale entry, and the
      run that recovery starts comes after them. */
  lemma {:induction false} RestartMindsTriggers(
    crashed: State, keys: set<string>, max: nat, router: Router, startup: seq<Step>, later: seq<Step>, key: string)
    requires Inv(crashed) && keys !! QueuedKeys(crashed.repos) && key in QueuedKeys(crashed.repos)
    requires var s0 := Boot(crashed.repos, crashed.handles, max, router);
             StartupRun(s0, startup, keys) && TidyRun(s0, startup, keys) && LeftOver(startup, keys) == {}
    ensures var s0 := Boot(crashed.repos, crashed.handles, max, router);
            && Legal(s0, startup)
            && var s1, snapshot := Exec(s0, startup), Env(TakeSnapshot(QueuedKeys(crashed.repos)));
               && Enabled(s1, snapshot)
               && var s2 := Apply(s1, snapshot);
                  (&& CleanRunFor(s2, later, key) && Wanted(s2.router, key)
                   && forall j :: 0 <= j < |later| ==> StaysWanted(later[j], key)) ==>
                    && Legal(s2, later)
                    && var s := Exec(s2, later);
                       && NothingLost(s, key, true)
                       && (key !in s.recover && Quiescent(s) ==>
                             forall n :: 0 <= n < |s.log| && s.log[n].Asked? && s.log[n].key == key ==> Settled(s.log, n, key))
  {
    var s0 := Boot(crashed.repos, crashed.handles, max, router);
    RestartRestores(crashed, keys, max, router, startup, []);
    StartupAsksNothing(s0, startup, keys);
    BootCapped(crashed.repos, crashed.handles, max, router);
    ConcurrencyCap(s0, startup);
    var s1 := Exec(s0, startup);
    var snapshot := Env(TakeSnapshot(QueuedKeys(crashed.repos)));
    var s2 := Apply(s1, snapshot);
    CappedStep(s1, snapshot);
    if CleanRunFor(s2, later, key) && Wanted(s2.router, key) && forall j :: 0 <= j < |later| ==> StaysWanted(later[j], key) {
      EventsAfterSnapshot(s2, later, key);
    }
  }

  lemma EventsAfterSnapshot(s: State, later: seq<Step>, key: string)
    requires InvFor(s, key) && Capped(s) && key in s.recover && NoneAsked(s.log) && Wanted(s.router, key)
    requires CleanRunFor(s, later, key) && forall j :: 0 <= j < |later| ==> StaysWanted(later[j], key)
    ensures Legal(s, later) && NothingLost(Exec(s, later), key, true)
    ensures var s' := Exec(s, later);
            key !in s'.recover && Quiescent(s') ==>
              forall n :: 0 <= n < |s'.log| && s'.log[n].Asked? && s'.log[n].key == key ==> Settled(s'.log, n, key)
  {
    VisitedRun(s, later, key);
    NothingLostRun(s, later, key, true);
    if key !in Exec(s, later).recover && Quiescent(Exec(s, later)) {
      RestSettles(Exec(s, later), key);
    }
  }
}
