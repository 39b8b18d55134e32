/** What the store and the goroutines agree on as long as no store call fails:
    the full correspondence between entries, run handles and owners. */
module Lifecycle {
  import opened RepoKey
  import opened Store
  import opened Protocol
  import opened Exclusion

  predicate Running(repos: Repos, key: string) {
    key in repos && repos[key].state.StateRunning?
  }

  predicate Pending(repos: Repos, key: string) {
    key in repos && repos[key].pendingRerun
  }

  /** The owner is inside a call that has a saved run handle to its name. */
  predicate HasHandle(t: Thread) {
    t.phase.Polling? || t.phase == Adopting(true)
  }

  /** The entry and the handle of the key, as its owner expects them. */
  predicate Agrees(repos: Repos, handles: map<string, string>, t: Thread) {
    && t.key in repos
    && (Running(repos, t.key) <==> Started(t))
    && (t.key in handles <==> HasHandle(t))
  }

  /** Only a running entry carries a rerun flag or a handle. */
  predicate Sane(repos: Repos, handles: map<string, string>, key: string) {
    Pending(repos, key) || key in handles ==> Running(repos, key)
  }

  ghost predicate OwnersAgree(s: State) {
    forall i :: 0 <= i < |s.threads| && Owns(s.threads[i]) ==> Agrees(s.repos, s.handles, s.threads[i])
  }

  ghost predicate EntriesAgree(s: State) {
    && (forall k :: Sane(s.repos, s.handles, k))
    && (forall k :: k in s.recover ==> k in s.repos && s.repos[k].state.StateQueued?)
  }

  /** One owner per key; the owner's entry is running exactly when the owner
      has passed StartRun, and has a run handle exactly while the owner polls;
      only running entries carry a rerun flag or a handle. */
  ghost predicate Inv(s: State) {
    FailClosed(s) && OwnersAgree(s) && EntriesAgree(s)
  }

  /** The same for one key. */
  ghost predicate InvFor(s: State, key: string) {
    && FailClosed(s) && Sane(s.repos, s.handles, key)
    && (forall i :: 0 <= i < |s.threads| && Owns(s.threads[i]) && s.threads[i].key == key ==>
                      Agrees(s.repos, s.handles, s.threads[i]))
    && (key in s.recover ==> key in s.repos && s.repos[key].state.StateQueued?)
  }

  lemma InvIsForAll(s: State)
    ensures Inv(s) <==> forall key :: InvFor(s, key)
  {
    if forall key :: InvFor(s, key) {
      assert InvFor(s, "");
      forall i | 0 <= i < |s.threads| && Owns(s.threads[i]) ensures Agrees(s.repos, s.handles, s.threads[i]) {
        assert InvFor(s, s.threads[i].key);
      }
      forall k ensures Sane(s.repos, s.handles, k) && (k in s.recover ==> k in s.repos && s.repos[k].state.StateQueued?) {
        assert InvFor(s, k);
      }
    }
  }

  /** A benign, fault-free step. An adopted run must not be stored as queued and
      resumes a saved handle exactly when there is one; a corrupt handle belongs
      to no owner; no entry expires before its handle. */
  ghost predicate Clean(s: State, step: Step) {
    && FaultFree(step) && Benign(s, step)
    && match step
       case Env(Adopt(repo, resume, _)) =>
         (repo.Key() in s.repos ==> Running(s.repos, repo.Key())) && (resume <==> repo.Key() in s.handles)
       case Env(Forget(key)) => key in s.handles ==> !Owned(s, key)
       case Env(Expire(keys)) => keys !! s.handles.Keys
       case _ => true
  }

  /** The step calls the store on behalf of the key. */
  predicate Concerns(s: State, step: Step, key: string) {
    match step
    case Env(Adopt(repo, _, _)) => repo.Key() == key
    case Env(Recover(k, _)) => k == key
    case Go(i, _) => i < |s.threads| && s.threads[i].key == key
    case _ => false
  }

  /** No call for the key fails in this step; calls for other keys may. */
  predicate Faultless(s: State, step: Step, key: string) {
    Concerns(s, step, key) ==> FaultFree(step)
  }

  /** Clean as far as the key goes. */
  ghost predicate CleanFor(s: State, step: Step, key: string) {
    && Benign(s, step) && Faultless(s, step, key)
    && match step
       case Env(Adopt(repo, resume, _)) =>
         repo.Key() == key ==> (key in s.repos ==> Running(s.repos, key)) && (resume <==> key in s.handles)
       case Env(Forget(k)) => k == key && key in s.handles ==> !Owned(s, key)
       case Env(Expire(keys)) => key in keys ==> key !in s.handles
       case _ => true
  }

  lemma CleanIsForAll(s: State, step: Step, key: string)
    requires Clean(s, step)
    ensures CleanFor(s, step, key)
  {
  }

  /** Entries and handles of other keys stay as they are. */
  ghost predicate OnlyKey(s: State, key: string, e: Effect) {
    && (forall k :: k != key ==> (k in e.repos <==> k in s.repos) && (k in e.handles <==> k in s.handles))
    && (forall k :: k != key && k in s.repos ==> e.repos[k] == s.repos[k])
  }

  /** How a fault-free action treats the key of its goroutine. */
  predicate CleanEffect(s: State, t: Thread, e: Effect) {
    && Sane(e.repos, e.handles, t.key)
    && (Owns(e.thread) ==> Agrees(e.repos, e.handles, e.thread))
    && (e.child.Some? ==> Agrees(e.repos, e.handles, e.child.value))
    && (!Owns(t) && t.key in s.repos ==>
          && t.key in e.repos && e.repos[t.key].state == s.repos[t.key].state
          && (t.key in e.handles <==> t.key in s.handles))
    && (Owns(t) && !Owns(e.thread) && e.child.None? ==> t.key !in e.repos)
  }

  lemma ActionOnlyKey(s: State, t: Thread, a: Action)
    requires Ready(s, t, a)
    ensures OnlyKey(s, t.key, Do(s, t, a))
  {
  }

  predicate WritesEntry(a: Action) {
    a.Queue? || a.Start? || a.Finish? || a.AbortFinish?
  }

  lemma EntryCleanEffect(s: State, i: nat, a: Action)
    requires Enabled(s, Go(i, a)) && FaultFree(Go(i, a)) && WritesEntry(a)
    requires Sane(s.repos, s.handles, s.threads[i].key)
    requires Owns(s.threads[i]) ==> Agrees(s.repos, s.handles, s.threads[i])
    ensures CleanEffect(s, s.threads[i], Do(s, s.threads[i], a))
  {
  }

  lemma ActionCleanEffect(s: State, i: nat, a: Action)
    requires Enabled(s, Go(i, a)) && FaultFree(Go(i, a)) && Sane(s.repos, s.handles, s.threads[i].key)
    requires Owns(s.threads[i]) ==> Agrees(s.repos, s.handles, s.threads[i])
    ensures CleanEffect(s, s.threads[i], Do(s, s.threads[i], a))
  {
    if WritesEntry(a) {
      EntryCleanEffect(s, i, a);
    }
  }

  lemma TakeKeepsInv(s: State, i: nat, e: Effect, key: string)
    requires InvFor(s, key) && i < |s.threads| && FailClosed(Take(s, i, e))
    requires OwnerEffect(s, s.threads[i], e) && OnlyKey(s, s.threads[i].key, e)
    requires s.threads[i].key == key ==> CleanEffect(s, s.threads[i], e)
    ensures InvFor(Take(s, i, e), key)
  {
    var s' := Take(s, i, e);
    forall j | 0 <= j < |s'.threads| && Owns(s'.threads[j]) && s'.threads[j].key == key
      ensures Agrees(s'.repos, s'.handles, s'.threads[j])
    {
      if j < |s.threads| && j != i {
        assert s'.threads[j] == s.threads[j] && Agrees(s.repos, s.handles, s.threads[j]);
      }
    }
  }

  lemma ActionKeepsInv(s: State, i: nat, a: Action, key: string)
    requires InvFor(s, key) && Enabled(s, Go(i, a)) && Faultless(s, Go(i, a), key) && FailClosed(Apply(s, Go(i, a)))
    ensures InvFor(Apply(s, Go(i, a)), key)
  {
    ActionOwnerEffect(s, s.threads[i], a);
    ActionOnlyKey(s, s.threads[i], a);
    if s.threads[i].key == key {
      ActionCleanEffect(s, i, a);
    }
    TakeKeepsInv(s, i, Do(s, s.threads[i], a), key);
  }

  lemma EventKeepsInv(s: State, e: Event, key: string)
    requires InvFor(s, key) && CanHappen(s, e) && CleanFor(s, Env(e), key) && FailClosed(Happen(s, e))
    ensures InvFor(Happen(s, e), key)
  {
    var s' := Happen(s, e);
    forall j | 0 <= j < |s'.threads| && Owns(s'.threads[j]) && s'.threads[j].key == key
      ensures Agrees(s'.repos, s'.handles, s'.threads[j])
    {
      if j < |s.threads| {
        assert s'.threads[j] == s.threads[j] && Agrees(s.repos, s.handles, s.threads[j]);
      }
    }
  }

  /** A step that is clean for a key keeps the invariant of that key, whatever
      store calls fail for other keys. */
  lemma InvForStep(s: State, step: Step, key: string)
    requires InvFor(s, key) && Enabled(s, step) && CleanFor(s, step, key)
    ensures InvFor(Apply(s, step), key)
  {
    FailClosedStep(s, step);
    match step
    case Env(e) => EventKeepsInv(s, e, key);
    case Go(i, a) => ActionKeepsInv(s, i, a, key);
  }

  lemma EventNeedsClean(s: State, e: Event)
    requires Inv(s) && CanHappen(s, e) && FaultFree(Env(e)) && Inv(Happen(s, e))
    ensures Clean(s, Env(e))
  {
    var s' := Happen(s, e);
    FailClosedStep(s, Env(e));
    match e
    case Adopt(repo, _, _) =>
      assert Agrees(s'.repos, s'.handles, s'.threads[|s.threads|]);
    case Forget(key) =>
      if Owned(s, key) {
        var i :| 0 <= i < |s.threads| && Owns(s.threads[i]) && s.threads[i].key == key;
        assert Agrees(s'.repos, s'.handles, s'.threads[i]) && Agrees(s.repos, s.handles, s.threads[i]);
      }
    case Expire(keys) =>
      forall k | k in keys ensures k !in s.handles {
        assert Sane(s'.repos, s'.handles, k);
      }
    case _ =>
  }

  /** A fault-free step keeps the invariant if and only if it is clean. */
  lemma InvStep(s: State, step: Step)
    requires Inv(s) && Enabled(s, step) && FaultFree(step)
    ensures Inv(Apply(s, step)) <==> Clean(s, step)
  {
    if Clean(s, step) {
      InvIsForAll(s);
      forall key ensures InvFor(Apply(s, step), key) {
        CleanIsForAll(s, step, key);
        InvForStep(s, step, key);
      }
      InvIsForAll(Apply(s, step));
    }
    if Inv(Apply(s, step)) && step.Env? {
      EventNeedsClean(s, step.event);
    }
  }

  // ----- whole runs -----

  ghost predicate CleanRun(s: State, steps: seq<Step>)
    decreases |steps|
  {
    steps == [] || (Enabled(s, steps[0]) && Clean(s, steps[0]) && CleanRun(Apply(s, steps[0]), steps[1..]))
  }

  /** Entries nobody owns: left behind by an earlier process. */
  ghost function Unowned(s: State): set<string> {
    set k | k in s.repos && !Owned(s, k)
  }

  /** How an action without a fault creates and leaves entries. */
  lemma ActionEntries(s: State, t: Thread, a: Action)
    requires Ready(s, t, a) && FaultFree(Go(0, a))
    ensures var e := Do(s, t, a);
            && (t.key in e.repos && t.key !in s.repos ==> Owns(e.thread))
            && (Owns(t) && !Owns(e.thread) && e.child.None? ==> t.key !in e.repos)
  {
  }

  lemma ActionUnowned(s: State, i: nat, a: Action, key: string)
    requires FailClosed(s) && Enabled(s, Go(i, a)) && Faultless(s, Go(i, a), key)
    requires key in Apply(s, Go(i, a)).repos && (key !in s.repos || Owned(s, key))
    ensures Owned(Apply(s, Go(i, a)), key)
  {
    var t, e, s' := s.threads[i], Do(s, s.threads[i], a), Apply(s, Go(i, a));
    ActionOwnerEffect(s, t, a);
    ActionOnlyKey(s, t, a);
    if t.key == key {
      ActionEntries(s, t, a);
    }
    assert s'.threads[i] == e.thread;
    assert e.child.Some? ==> s'.threads[|s.threads|] == e.child.value;
    if Owned(s, key) {
      var j :| 0 <= j < |s.threads| && Owns(s.threads[j]) && s.threads[j].key == key;
      assert j != i ==> s'.threads[j] == s.threads[j];
    }
  }

  lemma EventUnowned(s: State, e: Event, k: string)
    requires CanHappen(s, e) && k in Happen(s, e).repos && (k !in s.repos || Owned(s, k))
    ensures Owned(Happen(s, e), k)
  {
    var s' := Happen(s, e);
    if Owned(s, k) {
      var j :| 0 <= j < |s.threads| && Owns(s.threads[j]) && s.threads[j].key == k;
      assert s'.threads[j] == s.threads[j];
    } else {
      var n := |s.threads|;
      assert Owns(s'.threads[n]) && s'.threads[n].key == k;
    }
  }

  /** Only a failed call for the key itself can leave its entry without an
      owner: otherwise owners never lose their entry and entries never lose
      their owner. */
  lemma OnlyFaultsOrphan(s: State, step: Step, key: string)
    requires FailClosed(s) && Enabled(s, step) && Faultless(s, step, key)
    ensures key in Unowned(Apply(s, step)) ==> key in Unowned(s)
  {
    var s' := Apply(s, step);
    if key in s'.repos && (key !in s.repos || Owned(s, key)) {
      match step
      case Env(e) => EventUnowned(s, e, key);
      case Go(i, a) => ActionUnowned(s, i, a, key);
    }
  }

  /** So without faults the unowned entries can only become fewer. */
  lemma UnownedShrinks(s: State, step: Step)
    requires FailClosed(s) && Enabled(s, step) && FaultFree(step)
    ensures Unowned(Apply(s, step)) <= Unowned(s)
  {
    forall key | key in Unowned(Apply(s, step)) ensures key in Unowned(s) {
      OnlyFaultsOrphan(s, step, key);
    }
  }

  // ----- whole runs, faults on other keys included -----

  predicate FaultlessRun(s: State, steps: seq<Step>, key: string)
    decreases |steps|
  {
    steps == [] || (Enabled(s, steps[0]) && Faultless(s, steps[0], key) && FaultlessRun(Apply(s, steps[0]), steps[1..], key))
  }

  ghost predicate CleanRunFor(s: State, steps: seq<Step>, key: string)
    decreases |steps|
  {
    steps == [] || (Enabled(s, steps[0]) && CleanFor(s, steps[0], key) && CleanRunFor(Apply(s, steps[0]), steps[1..], key))
  }

  lemma {:induction false} CleanRunIsForAll(s: State, steps: seq<Step>, key: string)
    requires CleanRun(s, steps)
    ensures CleanRunFor(s, steps, key)
    decreases |steps|
  {
    if steps != [] {
      CleanRunIsForAll(Apply(s, steps[0]), steps[1..], key);
    }
  }

  /** Fail closed, key by key: over every benign run, an entry without an owner
      was there before or some call for its own key failed. */
  lemma {:induction false} OrphansNeedFaults(s: State, steps: seq<Step>, key: string)
    requires FailClosed(s) && BenignRun(s, steps) && FaultlessRun(s, steps, key)
    ensures Legal(s, steps) && (key in Unowned(Exec(s, steps)) ==> key in Unowned(s))
    decreases |steps|
  {
    if steps != [] {
      FailClosedStep(s, steps[0]);
      OnlyFaultsOrphan(s, steps[0], key);
      OrphansNeedFaults(Apply(s, steps[0]), steps[1..], key);
    }
  }

  /** The invariant of a key, over every run that is clean for that key. */
  lemma {:induction false} CleanRunForKeeps(s: State, steps: seq<Step>, key: string)
    requires InvFor(s, key) && CleanRunFor(s, steps, key)
    ensures Legal(s, steps) && InvFor(Exec(s, steps), key)
    ensures key in Unowned(Exec(s, steps)) ==> key in Unowned(s)
    decreases |steps|
  {
    if steps != [] {
      InvForStep(s, steps[0], key);
      OnlyFaultsOrphan(s, steps[0], key);
      CleanRunForKeeps(Apply(s, steps[0]), steps[1..], key);
    }
  }

  lemma {:induction false} CleanRunKeeps(s: State, steps: seq<Step>)
    requires Inv(s) && CleanRun(s, steps)
    ensures Legal(s, steps) && Inv(Exec(s, steps))
    ensures Unowned(Exec(s, steps)) <= Unowned(s)
    decreases |steps|
  {
    if steps != [] {
      InvStep(s, steps[0]);
      UnownedShrinks(s, steps[0]);
      CleanRunKeeps(Apply(s, steps[0]), steps[1..]);
    }
  }

  /** From an empty store, over every interleaving: an entry exists exactly for
      the keys that have an owner, and no repo has two owners. */
  lemma {:induction false} EntryIffOwner(max: nat, router: Router, steps: seq<Step>)
    requires CleanRun(Boot(map[], map[], max, router), steps)
    ensures Legal(Boot(map[], map[], max, router), steps)
    ensures var s := Exec(Boot(map[], map[], max, router), steps);
            && Inv(s) && Exclusive(s)
            && forall k :: k in s.repos <==> Owned(s, k)
  {
    var s0 := Boot(map[], map[], max, router);
    CleanRunKeeps(s0, steps);
    var s := Exec(s0, steps);
    assert forall k :: k in s.repos ==> k !in Unowned(s);
  }

  // ----- the store, one key at a time -----

  function EntryOf(repos: Repos, key: string): Option<RepoState> {
    if key in repos then Some(repos[key]) else None
  }

  /** The entry of one key across a step: a small automaton of its own, moved only
      by the calls for this key that reach the store. */
  function EntryAfter(s: State, step: Step, key: string, was: Option<RepoState>): Option<RepoState> {
    match step
    case Go(i, Queue(f)) =>
      if i >= |s.threads| || s.threads[i].key != key || f.LostRequest? then was
      else (match was
            case None => Some(RepoState(StateQueued, s.threads[i].reason, s.now, false))
            case Some(RepoState(StateRunning, reason, since, _)) => Some(RepoState(StateRunning, reason, since, true))
            case _ => was)
    case Go(i, Start(f)) =>
      if i >= |s.threads| || s.threads[i].key != key || f.LostRequest? then was
      else (match was
            case None => None
            case Some(RepoState(_, reason, _, flag)) => Some(RepoState(StateRunning, reason, s.now, flag)))
    case Go(i, Finish(f)) => if i < |s.threads| && s.threads[i].key == key && !f.LostRequest? then None else was
    case Go(i, AbortFinish(f)) => if i < |s.threads| && s.threads[i].key == key && !f.LostRequest? then None else was
    case Env(Adopt(repo, _, f)) =>
      if repo.Key() == key && !f.LostRequest? && was.None? then Some(RepoState(StateRunning, "rerun", s.now, false)) else was
    case Env(Recover(k, f)) => if k == key && !f.LostRequest? then None else was
    case Env(Expire(keys)) => if key in keys then None else was
    case _ => was
  }

  function EntryAfterRun(s: State, steps: seq<Step>, key: string, was: Option<RepoState>): Option<RepoState>
    requires Legal(s, steps)
    decreases |steps|
  {
    if steps == [] then was
    else EntryAfterRun(Apply(s, steps[0]), steps[1..], key, EntryAfter(s, steps[0], key, was))
  }

  lemma ActionEntry(s: State, i: nat, a: Action, key: string)
    requires Enabled(s, Go(i, a)) && s.threads[i].key == key
    ensures EntryOf(Do(s, s.threads[i], a).repos, key) == EntryAfter(s, Go(i, a), key, EntryOf(s.repos, key))
  {
  }

  lemma EventEntry(s: State, e: Event, key: string)
    requires CanHappen(s, e)
    ensures EntryOf(Happen(s, e).repos, key) == EntryAfter(s, Env(e), key, EntryOf(s.repos, key))
  {
  }

  lemma EntryStep(s: State, step: Step, key: string)
    requires Enabled(s, step)
    ensures EntryOf(Apply(s, step).repos, key) == EntryAfter(s, step, key, EntryOf(s.repos, key))
  {
    match step
    case Env(e) => EventEntry(s, e, key);
    case Go(i, a) =>
      if s.threads[i].key == key {
        ActionEntry(s, i, a, key);
      } else {
        ActionOnlyKey(s, s.threads[i], a);
      }
  }

  /** Keys do not interfere: over every run, whatever fails, the entry of a key,
      with its state, reason, time and flag, is what the calls for this key alone
      make of it. */
  lemma {:induction false} KeysDoNotInterfere(s: State, steps: seq<Step>, key: string)
    requires Legal(s, steps)
    ensures EntryOf(Exec(s, steps).repos, key) == EntryAfterRun(s, steps, key, EntryOf(s.repos, key))
    decreases |steps|
  {
    if steps != [] {
      EntryStep(s, steps[0], key);
      KeysDoNotInterfere(Apply(s, steps[0]), steps[1..], key);
    }
  }
}
