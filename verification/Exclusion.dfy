/** Mutual exclusion per repo, over every interleaving and every store fault. */
module Exclusion {
  import opened RepoKey
  import opened Store
  import opened Protocol

  /** The headline guarantee: no repo has two runs in flight. */
  ghost predicate Exclusive(s: State) {
    forall i, j :: 0 <= i < j < |s.threads| && Live(s.threads[i]) && Live(s.threads[j]) ==>
                     s.threads[i].key != s.threads[j].key
  }

  /** What every step keeps, faults included: one owner per key, an entry for
      every owner, and a recovery loop that will clear only unowned entries. */
  ghost predicate FailClosed(s: State) {
    && (forall i, j :: 0 <= i < j < |s.threads| && Owns(s.threads[i]) && Owns(s.threads[j]) ==>
                         s.threads[i].key != s.threads[j].key)
    && (forall i :: 0 <= i < |s.threads| && Owns(s.threads[i]) ==>
                      s.threads[i].key in s.repos && s.threads[i].key !in s.recover)
    && s.recover <= s.repos.Keys
  }

  /** What the environment must not do. Only adoption, the recovery snapshot and
      lease expiry can hurt; everything else is free. */
  ghost predicate Benign(s: State, step: Step) {
    match step
    case Env(Adopt(repo, _, f)) =>
      !Owned(s, repo.Key()) && repo.Key() !in s.recover && (f.LostRequest? ==> repo.Key() in s.repos)
    case Env(TakeSnapshot(seen)) => forall k :: k in seen ==> !Owned(s, k)
    case Env(Expire(keys)) => forall k :: k in keys ==> !Owned(s, k) && k !in s.recover
    case _ => true
  }

  lemma FailClosedExclusive(s: State)
    requires FailClosed(s)
    ensures Exclusive(s)
  {
  }

  /** An effect as the invariant sees it: the key is never renamed; it changes
      hands, is won, is kept or is given up. */
  predicate OwnerEffect(s: State, t: Thread, e: Effect) {
    && e.thread.key == t.key
    && (e.child.Some? ==>
          e.child.value.key == t.key && Owns(t) && !Owns(e.thread) && Owns(e.child.value) && e.repos == s.repos)
    && (Owns(t) && e.child.None? && !Owns(e.thread) ==> e.repos == s.repos || e.repos == s.repos - {t.key})
    && (Owns(e.thread) || !Owns(t) ==> s.repos.Keys <= e.repos.Keys)
    && (Owns(e.thread) && !Owns(t) ==> t.key !in s.repos && t.key in e.repos)
  }

  lemma ActionOwnerEffect(s: State, t: Thread, a: Action)
    requires Ready(s, t, a)
    ensures OwnerEffect(s, t, Do(s, t, a))
  {
  }

  lemma TakeKeeps(s: State, i: nat, e: Effect)
    requires FailClosed(s) && i < |s.threads| && OwnerEffect(s, s.threads[i], e)
    ensures FailClosed(Take(s, i, e))
  {
  }

  lemma AdoptKeeps(s: State, repo: Repo, resume: bool, f: Fault)
    requires FailClosed(s)
    ensures var step := Env(Adopt(repo, resume, f));
            FailClosed(Apply(s, step)) <==> Benign(s, step)
  {
    var step := Env(Adopt(repo, resume, f));
    var s' := Apply(s, step);
    var n := |s.threads|;
    var key := repo.Key();
    assert s'.threads[n].key == key && Owns(s'.threads[n]);
    assert forall i :: 0 <= i < n ==> s'.threads[i] == s.threads[i];
    if Owned(s, key) {
      var i :| 0 <= i < n && Owns(s.threads[i]) && s.threads[i].key == key;
      assert s'.threads[i].key == s'.threads[n].key;
    }
  }

  lemma EventKeeps(s: State, e: Event)
    requires FailClosed(s) && CanHappen(s, e) && !e.Adopt?
    ensures FailClosed(Happen(s, e)) <==> Benign(s, Env(e))
  {
  }

  /** Benign is exactly what keeps the invariant: a step preserves it if and
      only if the step is benign. */
  lemma FailClosedStep(s: State, step: Step)
    requires FailClosed(s) && Enabled(s, step)
    ensures FailClosed(Apply(s, step)) <==> Benign(s, step)
  {
    match step
    case Go(i, a) =>
      ActionOwnerEffect(s, s.threads[i], a);
      TakeKeeps(s, i, Do(s, s.threads[i], a));
    case Env(Adopt(repo, resume, f)) => AdoptKeeps(s, repo, resume, f);
    case Env(e) => EventKeeps(s, e);
  }

  // ----- whole runs -----

  /** A run during which the environment stays benign. */
  ghost predicate BenignRun(s: State, steps: seq<Step>)
    decreases |steps|
  {
    steps == [] || (Enabled(s, steps[0]) && Benign(s, steps[0]) && BenignRun(Apply(s, steps[0]), steps[1..]))
  }

  /** Whatever store calls fail, with or without effect, and however the
      goroutines interleave: one owner per repo, an entry for every owner, and
      never two runs of a repo in flight. */
  lemma {:induction false} ExclusionUnderFaults(s: State, steps: seq<Step>)
    requires FailClosed(s) && BenignRun(s, steps)
    ensures Legal(s, steps)
    ensures FailClosed(Exec(s, steps)) && Exclusive(Exec(s, steps))
    decreases |steps|
  {
    if steps == [] {
      FailClosedExclusive(s);
    } else {
      FailClosedStep(s, steps[0]);
      ExclusionUnderFaults(Apply(s, steps[0]), steps[1..]);
    }
  }

  /** An empty process over any persisted store starts out fine. */
  lemma BootFailClosed(repos: Repos, handles: map<string, string>, max: nat, router: Router)
    ensures FailClosed(Boot(repos, handles, max, router))
  {
  }
}
