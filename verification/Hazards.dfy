/** Why each assumption is needed: whatever breaks it can be followed by an
    ordinary run to two runs of one repo in flight. */
module Hazards {
  import opened RepoKey
  import opened Protocol
  import opened Exclusion

  // ----- runs put together -----

  lemma {:induction false} Extend(s: State, steps: seq<Step>, step: Step)
    requires Legal(s, steps) && Enabled(Exec(s, steps), step)
    ensures Legal(s, steps + [step]) && Exec(s, steps + [step]) == Apply(Exec(s, steps), step)
    decreases |steps|
  {
    if steps == [] {
      assert steps + [step] == [step];
      assert Legal(Apply(s, step), [step][1..]);
    } else {
      Extend(Apply(s, steps[0]), steps[1..], step);
      assert (steps + [step])[1..] == steps[1..] + [step];
    }
  }

  // ----- ordinary runs -----

  /** New events, the recovery loop and the goroutines, without any store fault. */
  predicate Ordinary(step: Step) {
    match step
    case Env(Call(_, _)) => true
    case Env(Recover(_, f)) => f.NoFault?
    case Go(_, _) => FaultFree(step)
    case _ => false
  }

  ghost predicate OrdinaryRun(s: State, steps: seq<Step>) {
    Legal(s, steps) && forall j :: 0 <= j < |steps| ==> Ordinary(steps[j])
  }

  /** An ordinary run leads to two runs of one repo in flight. */
  ghost predicate CanDouble(s: State) {
    exists steps :: OrdinaryRun(s, steps) && !Exclusive(Exec(s, steps))
  }

  lemma Before(s: State, step: Step)
    requires Enabled(s, step) && Ordinary(step) && CanDouble(Apply(s, step))
    ensures CanDouble(s)
  {
    var rest :| OrdinaryRun(Apply(s, step), rest) && !Exclusive(Exec(Apply(s, step), rest));
    var steps := [step] + rest;
    assert steps[1..] == rest;
    assert OrdinaryRun(s, steps);
  }

  /** Events and goroutine steps, with any store fault. */
  predicate Plain(step: Step) {
    step.Go? || step.event.Call? || step.event.Recover?
  }

  lemma {:induction false} PlainIsBenign(s: State, steps: seq<Step>)
    requires Legal(s, steps) && forall j :: 0 <= j < |steps| ==> Plain(steps[j])
    ensures BenignRun(s, steps)
    decreases |steps|
  {
    if steps != [] {
      PlainIsBenign(Apply(s, steps[0]), steps[1..]);
    }
  }

  lemma TwoLive(s: State, i: nat, j: nat)
    requires i < |s.threads| && j < |s.threads| && i != j
    requires Live(s.threads[i]) && Live(s.threads[j]) && s.threads[i].key == s.threads[j].key
    ensures CanDouble(s)
  {
    assert OrdinaryRun(s, []) && !Exclusive(Exec(s, []));
  }

  // ----- owners on their way to the executor -----

  /** The owner is about to call FinishRun, not to run. */
  predicate GivesUp(t: Thread) {
    t.phase.Finishing? || t.phase.Aborting?
  }

  /** Steps to a call in flight. */
  function Distance(t: Thread): nat {
    match t.phase
    case Spawning => 4
    case Debouncing => 3
    case Waiting => 2
    case Holding => 1
    case Adopting(_) => 1
    case Finishing => 100
    case Aborting => 100
    case _ => 0
  }

  /** Permits the owner, or the run that replaces it, still has to take. */
  function Needs(t: Thread): nat {
    if Live(t) || t.phase.Holding? || t.phase.Adopting? then 0 else 1
  }

  function Onward(t: Thread): Action
    requires Owns(t) && !Live(t)
  {
    match t.phase
    case Spawning => Spawn
    case Adopting(_) => SpawnAdopted
    case Debouncing => Timer
    case Waiting => Acquire
    case Holding => Start(NoFault)
    case Finishing => Finish(NoFault)
    case Aborting => AbortFinish(NoFault)
  }

  /** An owner of the key whose repo the rules let in. */
  predicate Doubles(s: State, i: nat) {
    && i < |s.threads| && Owns(s.threads[i])
    && s.threads[i].key == s.threads[i].repo.Key() && s.router(s.threads[i].repo.fullName).To?
  }

  /** One step of an owner that is not giving up: it, or its child, is closer. */
  lemma Closer(s: State, i: nat) returns (i': nat)
    requires Doubles(s, i) && !Live(s.threads[i]) && !GivesUp(s.threads[i])
    requires s.permits + Needs(s.threads[i]) <= s.max
    ensures var step := Go(i, Onward(s.threads[i]));
            && Enabled(s, step)
            && var s' := Apply(s, step);
               && Doubles(s', i') && (i' == i || i' == |s.threads|)
               && s'.threads[i'].key == s.threads[i].key
               && Distance(s'.threads[i']) < Distance(s.threads[i])
               && s'.permits + Needs(s'.threads[i']) <= s.permits + Needs(s.threads[i])
               && |s.threads| <= |s'.threads| && s'.router == s.router && s'.max == s.max
               && forall j :: 0 <= j < |s.threads| && j != i ==> s'.threads[j] == s.threads[j]
  {
    i' := if s.threads[i].phase.Spawning? || s.threads[i].phase.Adopting? then |s.threads| else i;
  }

  /** Two owners of one key: drive both to their executors; one that gives up
      takes the entry of the other with it. */
  lemma {:induction false} TwoOwnersDouble(s: State, i: nat, j: nat)
    requires Doubles(s, i) && Doubles(s, j) && i != j && s.threads[i].key == s.threads[j].key
    requires s.permits + Needs(s.threads[i]) + Needs(s.threads[j]) <= s.max
    ensures CanDouble(s)
    decreases Distance(s.threads[i]) + Distance(s.threads[j])
  {
    if Live(s.threads[i]) && Live(s.threads[j]) {
      TwoLive(s, i, j);
    } else {
      var a, b := if Live(s.threads[i]) then j else i, if Live(s.threads[i]) then i else j;
      var step := Go(a, Onward(s.threads[a]));
      if GivesUp(s.threads[a]) {
        assert Apply(s, step).threads[b] == s.threads[b];
        MissingEntryDoubles(Apply(s, step), b);
      } else {
        var a' := Closer(s, a);
        TwoOwnersDouble(Apply(s, step), a', b);
      }
      Before(s, step);
    }
  }

  /** A caller for a repo without an entry is told Queued. */
  lemma CallerWins(s: State, repo: Repo) returns (s': State)
    requires repo.Key() !in s.repos && s.router(repo.fullName).To?
    ensures CanDouble(s') ==> CanDouble(s)
    ensures var n := |s.threads|;
            && |s'.threads| == n + 1 && (forall j :: 0 <= j < n ==> s'.threads[j] == s.threads[j])
            && s'.threads[n].phase.Spawning? && s'.threads[n].repo == repo && s'.threads[n].key == repo.Key()
            && s'.router == s.router && s'.permits == s.permits && s'.max == s.max && s'.recover == s.recover
  {
    var n := |s.threads|;
    var s1 := Apply(s, Env(Call(repo, RERUN)));
    assert s1.threads[n] == Caller(repo, RERUN, Routing);
    var s2 := Apply(s1, Go(n, Load));
    s' := Apply(s2, Go(n, Queue(NoFault)));
    if CanDouble(s') {
      Before(s2, Go(n, Queue(NoFault)));
      Before(s1, Go(n, Load));
      Before(s, Env(Call(repo, RERUN)));
    }
  }

  /** An owner without an entry, whatever it is doing: one event makes a second
      owner. */
  lemma {:induction false} MissingEntryDoubles(s: State, i: nat)
    requires Doubles(s, i) && s.threads[i].key !in s.repos && s.permits + Needs(s.threads[i]) + 1 <= s.max
    ensures CanDouble(s)
    decreases Distance(s.threads[i]) + 50
  {
    var s' := CallerWins(s, s.threads[i].repo);
    TwoOwnersDouble(s', i, |s.threads|);
  }

  // ----- the hazards -----

  /** Adopt leaves an existing entry untouched and waits anyway: adopting a key
      that has an owner can double the run. */
  lemma AdoptOwnedDoubles(s: State, i: nat, repo: Repo, resume: bool, f: Fault)
    requires Doubles(s, i) && s.threads[i].key == repo.Key() && s.router(repo.fullName).To?
    requires s.permits + Needs(s.threads[i]) <= s.max
    ensures CanDouble(Apply(s, Env(Adopt(repo, resume, f))))
  {
    var s' := Apply(s, Env(Adopt(repo, resume, f)));
    assert s'.threads[i] == s.threads[i];
    TwoOwnersDouble(s', i, |s.threads|);
  }

  /** A failed Adopt of a repo without an entry leaves the run unlocked. */
  lemma LostAdoptDoubles(s: State, repo: Repo, resume: bool)
    requires repo.Key() !in s.repos && s.router(repo.fullName).To? && s.permits < s.max
    ensures CanDouble(Apply(s, Env(Adopt(repo, resume, LostRequest))))
  {
    MissingEntryDoubles(Apply(s, Env(Adopt(repo, resume, LostRequest))), |s.threads|);
  }

  /** Recovery clears the entry of a key that has an owner. */
  lemma RecoverOwnedDoubles(s: State, i: nat)
    requires Doubles(s, i) && s.threads[i].key in s.recover && ':' in s.threads[i].key
    requires s.permits + Needs(s.threads[i]) + 1 <= s.max
    ensures CanDouble(s)
  {
    var clear := Env(Recover(s.threads[i].key, NoFault));
    assert Apply(s, clear).threads[i] == s.threads[i];
    MissingEntryDoubles(Apply(s, clear), i);
    Before(s, clear);
  }

  /** A recovery snapshot that sees a repo queued by a goroutine of this process
      clears and queues it a second time. */
  lemma RecoveryDoubles(s: State, i: nat, seen: set<string>)
    requires Doubles(s, i) && s.threads[i].key in seen && Enabled(s, Env(TakeSnapshot(seen)))
    requires s.permits + Needs(s.threads[i]) + 1 <= s.max
    ensures CanDouble(Apply(s, Env(TakeSnapshot(seen))))
  {
    RecoverOwnedDoubles(Apply(s, Env(TakeSnapshot(seen))), i);
  }

  /** An entry that expires under its owner lets a second run in. */
  lemma ExpiryDoubles(s: State, i: nat, keys: set<string>)
    requires Doubles(s, i) && s.threads[i].key in keys && Enabled(s, Env(Expire(keys)))
    requires s.permits + Needs(s.threads[i]) + 1 <= s.max
    ensures CanDouble(Apply(s, Env(Expire(keys))))
  {
    MissingEntryDoubles(Apply(s, Env(Expire(keys))), i);
  }

  /** An entry that expires before recovery has visited it: an event queues the
      repo afresh, and recovery clears what that event queued. */
  lemma ExpiryBeforeRecoveryDoubles(s: State, repo: Repo, keys: set<string>)
    requires repo.Key() in s.recover && repo.Key() in keys && Enabled(s, Env(Expire(keys)))
    requires s.router(repo.fullName).To? && s.permits + 2 <= s.max
    ensures CanDouble(Apply(s, Env(Expire(keys))))
  {
    var s1 := Apply(s, Env(Expire(keys)));
    var s2 := CallerWins(s1, repo);
    assert ':' in repo.Key();
    RecoverOwnedDoubles(s2, |s.threads|);
  }

  // ----- necessity -----

  /** What every run keeps: goroutines carry the key of their repo, and recovery
      visits keys that name one. */
  ghost predicate Keyed(s: State) {
    && (forall i :: 0 <= i < |s.threads| ==> s.threads[i].key == s.threads[i].repo.Key())
    && (forall k :: k in s.recover ==> ':' in k)
  }

  lemma ActionKeepsRepo(s: State, t: Thread, a: Action)
    requires Ready(s, t, a)
    ensures var e := Do(s, t, a);
            && e.thread.key == t.key && e.thread.repo == t.repo
            && (e.child.Some? ==> e.child.value.key == t.key && e.child.value.repo == t.repo)
  {
  }

  lemma KeyedStep(s: State, step: Step)
    requires Keyed(s) && Enabled(s, step)
    ensures Keyed(Apply(s, step))
  {
    match step
    case Env(e) => KeyedEvent(s, e);
    case Go(i, a) => ActionKeepsRepo(s, s.threads[i], a);
  }

  lemma KeyedEvent(s: State, e: Event)
    requires Keyed(s) && CanHappen(s, e)
    ensures Keyed(Happen(s, e))
  {
  }

  ghost predicate AllEnabled(router: Router) {
    forall name :: router(name).To?
  }

  lemma OwnedDoubles(s: State, key: string) returns (i: nat)
    requires Keyed(s) && AllEnabled(s.router) && Owned(s, key)
    ensures Doubles(s, i) && s.threads[i].key == key
  {
    i :| 0 <= i < |s.threads| && Owns(s.threads[i]) && s.threads[i].key == key;
  }

  lemma AdoptNeedsBenign(s: State, repo: Repo, resume: bool, f: Fault)
    requires FailClosed(s) && Keyed(s) && AllEnabled(s.router) && s.permits + 2 <= s.max
    requires !Benign(s, Env(Adopt(repo, resume, f)))
    ensures CanDouble(Apply(s, Env(Adopt(repo, resume, f))))
  {
    var key := repo.Key();
    if Owned(s, key) {
      var i := OwnedDoubles(s, key);
      AdoptOwnedDoubles(s, i, repo, resume, f);
    } else if key in s.recover {
      RecoverOwnedDoubles(Apply(s, Env(Adopt(repo, resume, f))), |s.threads|);
    } else {
      LostAdoptDoubles(s, repo, resume);
    }
  }

  /** With two permits free and every repo enabled, a step that is not benign can
      always be followed by an ordinary run that doubles a repo. */
  lemma NeedsBenign(s: State, step: Step)
    requires FailClosed(s) && Keyed(s) && AllEnabled(s.router) && s.permits + 2 <= s.max
    requires Enabled(s, step) && !Benign(s, step)
    ensures CanDouble(Apply(s, step))
  {
    match step
    case Env(Adopt(repo, resume, f)) => AdoptNeedsBenign(s, repo, resume, f);
    case Env(TakeSnapshot(seen)) =>
      var k :| k in seen && Owned(s, k);
      var i := OwnedDoubles(s, k);
      RecoveryDoubles(s, i, seen);
    case Env(Expire(keys)) =>
      var k :| k in keys && (Owned(s, k) || k in s.recover);
      if Owned(s, k) {
        var i := OwnedDoubles(s, k);
        ExpiryDoubles(s, i, keys);
      } else {
        ExpiryBeforeRecoveryDoubles(s, SplitKey(k).value, keys);
      }
  }

  /** No benign continuation has two runs of a repo in flight. */
  ghost predicate StaysExclusive(s: State) {
    forall steps :: BenignRun(s, steps) && Legal(s, steps) ==> Exclusive(Exec(s, steps))
  }

  /** The benign steps are exactly the safe ones: with two permits free and
      every repo enabled, a step is benign if and only if exclusion survives
      every benign continuation of it. */
  lemma BenignIsExact(s: State, step: Step)
    requires FailClosed(s) && Keyed(s) && AllEnabled(s.router) && s.permits + 2 <= s.max && Enabled(s, step)
    ensures Benign(s, step) <==> StaysExclusive(Apply(s, step))
  {
    if Benign(s, step) {
      FailClosedStep(s, step);
      FailClosedStaysExclusive(Apply(s, step));
    } else {
      NeedsBenign(s, step);
      CanDoubleIsUnsafe(Apply(s, step));
    }
  }

  lemma FailClosedStaysExclusive(s: State)
    requires FailClosed(s)
    ensures StaysExclusive(s)
  {
    forall steps | BenignRun(s, steps) && Legal(s, steps) ensures Exclusive(Exec(s, steps)) {
      ExclusionUnderFaults(s, steps);
    }
  }

  lemma CanDoubleIsUnsafe(s: State)
    requires CanDouble(s)
    ensures !StaysExclusive(s)
  {
    var steps :| OrdinaryRun(s, steps) && !Exclusive(Exec(s, steps));
    PlainIsBenign(s, steps);
  }
}
