/** The startup of a process as a program: adoption of the runs in flight, then
    recovery of the queued repos, beside whatever else already runs. */
module Startup {
  import opened RepoKey
  import opened Store
  import opened Protocol
  import opened Exclusion
  import opened Lifecycle
  import opened Capacity
  import opened Hazards
  import opened Handles
  import opened Triggers
  import opened Restart
  import D = Dispatcher

  // ----- the handles stay filed under their own repo -----

  /** A run saves a handle that decodes to a record of its own repo. */
  predicate HonestSave(s: State, step: Step, decode: Decode) {
    step.Go? && step.action.Save? && step.i < |s.threads| ==>
      match decode(step.action.data)
      case None => false
      case Some(h) => h.platform == s.threads[step.i].repo.platform && h.repo == s.threads[step.i].repo.fullName
  }

  lemma FiledAction(s: State, i: nat, a: Action, decode: Decode)
    requires Keyed(s) && Filed(s.handles, decode) && Enabled(s, Go(i, a)) && HonestSave(s, Go(i, a), decode)
    ensures Filed(Apply(s, Go(i, a)).handles, decode)
  {
  }

  lemma FiledEvent(s: State, e: Event, decode: Decode)
    requires Keyed(s) && Filed(s.handles, decode) && CanHappen(s, e)
    ensures Filed(Happen(s, e).handles, decode)
  {
  }

  predicate HonestRun(s: State, steps: seq<Step>, decode: Decode)
    decreases |steps|
  {
    steps == [] || (&& Enabled(s, steps[0]) && HonestSave(s, steps[0], decode)
                    && HonestRun(Apply(s, steps[0]), steps[1..], decode))
  }

  /** Over every run in which runs save records of their own repo, every
      readable handle stays filed under the key of its repo: what adoption
      relies on after a crash at any point. */
  lemma {:induction false} HandlesStayFiled(s: State, steps: seq<Step>, decode: Decode)
    requires Keyed(s) && Filed(s.handles, decode) && HonestRun(s, steps, decode)
    ensures Legal(s, steps) && Keyed(Exec(s, steps)) && Filed(Exec(s, steps).handles, decode)
    decreases |steps|
  {
    if steps != [] {
      KeyedStep(s, steps[0]);
      match steps[0] {
        case Env(e) => FiledEvent(s, e, decode);
        case Go(i, a) => FiledAction(s, i, a, decode);
      }
      HandlesStayFiled(Apply(s, steps[0]), steps[1..], decode);
    }
  }

  // ----- a saved handle outlives the process -----

  function HandleOf(handles: map<string, string>, key: string): Option<string> {
    if key in handles then Some(handles[key]) else None
  }

  /** The handle of the key after a step, by what the step writes. */
  function Wrote(s: State, step: Step, key: string, before: Option<string>): Option<string> {
    match step
    case Go(i, Save(data, f)) => if i < |s.threads| && s.threads[i].key == key && !f.LostRequest? then Some(data) else before
    case Go(i, Delete(f)) => if i < |s.threads| && s.threads[i].key == key && !f.LostRequest? then None else before
    case Env(Forget(k)) => if k == key then None else before
    case _ => before
  }

  /** The last handle written for the key in a run, or what was there before. */
  function LastWrite(s: State, steps: seq<Step>, key: string, before: Option<string>): Option<string>
    requires Legal(s, steps)
    decreases |steps|
  {
    if steps == [] then before else LastWrite(Apply(s, steps[0]), steps[1..], key, Wrote(s, steps[0], key, before))
  }

  lemma ActionWrites(s: State, i: nat, a: Action, key: string)
    requires Enabled(s, Go(i, a)) && s.threads[i].key == key
    ensures HandleOf(Do(s, s.threads[i], a).handles, key) == Wrote(s, Go(i, a), key, HandleOf(s.handles, key))
  {
  }

  lemma ActionWritesElsewhere(s: State, i: nat, a: Action, key: string)
    requires Enabled(s, Go(i, a)) && s.threads[i].key != key
    ensures HandleOf(Do(s, s.threads[i], a).handles, key) == HandleOf(s.handles, key)
  {
  }

  lemma StepWrites(s: State, step: Step, key: string)
    requires Enabled(s, step)
    ensures HandleOf(Apply(s, step).handles, key) == Wrote(s, step, key, HandleOf(s.handles, key))
  {
    if step.Go? {
      if s.threads[step.i].key == key {
        ActionWrites(s, step.i, step.action, key);
      } else {
        ActionWritesElsewhere(s, step.i, step.action, key);
      }
    }
  }

  /** Over every run, whatever fails: the stored handle of a key is the last one
      that reached the store. */
  lemma {:induction false} HandlesAreLastWrites(s: State, steps: seq<Step>, key: string)
    requires Legal(s, steps)
    ensures HandleOf(Exec(s, steps).handles, key) == LastWrite(s, steps, key, HandleOf(s.handles, key))
    decreases |steps|
  {
    if steps != [] {
      StepWrites(s, steps[0], key);
      HandlesAreLastWrites(Apply(s, steps[0]), steps[1..], key);
    }
  }

  predicate Touches(s: State, step: Step, key: string) {
    match step
    case Go(i, a) => i < |s.threads| && s.threads[i].key == key && (a.Save? || a.Delete?)
    case Env(Forget(k)) => k == key
    case _ => false
  }

  /** No step of the run touches the handle of the key. */
  predicate Unwritten(s: State, steps: seq<Step>, key: string)
    requires Legal(s, steps)
    decreases |steps|
  {
    steps == [] || (!Touches(s, steps[0], key) && Unwritten(Apply(s, steps[0]), steps[1..], key))
  }

  lemma {:induction false} UnwrittenStays(s: State, steps: seq<Step>, key: string, before: Option<string>)
    requires Legal(s, steps) && Unwritten(s, steps, key)
    ensures LastWrite(s, steps, key, before) == before
    decreases |steps|
  {
    if steps != [] {
      UnwrittenStays(Apply(s, steps[0]), steps[1..], key, before);
    }
  }

  /** Save, crash, adopt: a run saves its record, anything happens that does not
      touch this handle, the process stops, and the next one loads the handles.
      The executor named in the record resumes the very pipeline that was saved,
      for the very repo, and nobody else adopts that repo. */
  lemma SaveCrashAdopt(
    s: State, i: nat, data: string, f: Fault, steps: seq<Step>, decode: Decode, h: RunHandle,
    all: map<string, seq<AdoptedRun>>)
    requires Enabled(s, Go(i, Save(data, f))) && !f.LostRequest? && s.threads[i].key == s.threads[i].repo.Key()
    requires decode(data) == Some(h) && h.platform == s.threads[i].repo.platform && h.repo == s.threads[i].repo.fullName
    requires var s1, key := Apply(s, Go(i, Save(data, f))), s.threads[i].key;
             Legal(s1, steps) && Unwritten(s1, steps, key)
    requires var handles := Exec(Apply(s, Go(i, Save(data, f))), steps).handles;
             Filed(handles, decode) && Partition(all, handles, decode) && h.executor in all
    ensures var repo, key := s.threads[i].repo, s.threads[i].key;
            && (exists j :: 0 <= j < |all[h.executor]| && all[h.executor][j] == AdoptedRun(repo, key, h.pipelineID))
            && (forall n, j :: n in all && 0 <= j < |all[n]| && all[n][j].repo == repo ==>
                                 n == h.executor && all[n][j] == AdoptedRun(repo, key, h.pipelineID))
  {
    var s1, key := Apply(s, Go(i, Save(data, f))), s.threads[i].key;
    StepWrites(s, Go(i, Save(data, f)), key);
    HandlesAreLastWrites(s1, steps, key);
    UnwrittenStays(s1, steps, key, Some(data));
    SavedIsResumed(all, Exec(s1, steps).handles, decode, h, key);
  }

  // ----- the startup loops -----

  function AdoptedKeys(runs: seq<AdoptedRun>): set<string> {
    set j | 0 <= j < |runs| :: runs[j].repo.Key()
  }

  predicate DistinctKeys(runs: seq<AdoptedRun>) {
    forall i, j :: 0 <= i < j < |runs| ==> runs[i].repo.Key() != runs[j].repo.Key()
  }

  /** The adopted runs of the executors, one executor after the other. */
  function Flatten(all: map<string, seq<AdoptedRun>>, order: seq<string>): seq<AdoptedRun>
    requires forall n :: n in order ==> n in all
  {
    if order == [] then [] else
    var last := |order| - 1;
    Flatten(all, order[..last]) + all[order[last]]
  }

  /** The handle under k names one of the executors. */
  predicate Named(handles: map<string, string>, decode: Decode, names: seq<string>, k: string) {
    k in handles && decode(handles[k]).Some? && decode(handles[k]).value.executor in names
  }

  /** Filed handles, whichever order the executors come in: the startup loop
      adopts exactly the repos whose handle names a configured executor, none
      of them twice. */
  lemma {:induction false} AdoptionIsExact(
    all: map<string, seq<AdoptedRun>>, handles: map<string, string>, decode: Decode, order: seq<string>)
    requires Partition(all, handles, decode) && Filed(handles, decode)
    requires forall n :: n in order ==> n in all
    requires forall i, j :: 0 <= i < j < |order| ==> order[i] != order[j]
    ensures var runs := Flatten(all, order);
            && DistinctKeys(runs)
            && (forall k :: k in AdoptedKeys(runs) <==> Named(handles, decode, order, k))
            && (forall j :: 0 <= j < |runs| ==> Resumes(runs[j], handles, decode) && runs[j].handleKey == runs[j].repo.Key())
    decreases |order|
  {
    if order != [] {
      var last := |order| - 1;
      var before, n := order[..last], order[last];
      AdoptionIsExact(all, handles, decode, before);
      var earlier, latest := Flatten(all, before), all[n];
      assert n in order && Adopts(latest, handles, decode, n, handles.Keys);
      OneExecutorIsExact(latest, handles, decode, n);
      assert n !in before && forall m :: m in order <==> m in before || m == n;
      JoinIsExact(earlier, latest, handles, decode, before, n);
      forall k ensures Named(handles, decode, order, k) <==> Named(handles, decode, before, k) || BelongsTo(handles, decode, k, n) {
      }
    }
  }

  lemma JoinIsExact(
    a: seq<AdoptedRun>, b: seq<AdoptedRun>, handles: map<string, string>, decode: Decode, names: seq<string>, n: string)
    requires n !in names
    requires DistinctKeys(a)
    requires DistinctKeys(b)
    requires forall k :: k in AdoptedKeys(a) <==> Named(handles, decode, names, k)
    requires forall k :: k in AdoptedKeys(b) <==> BelongsTo(handles, decode, k, n)
    ensures DistinctKeys(a + b)
    ensures forall k :: k in AdoptedKeys(a + b) <==> Named(handles, decode, names, k) || BelongsTo(handles, decode, k, n)
  {
    AppendKeys(a, b);
    forall i, j | 0 <= i < |a| && 0 <= j < |b| ensures a[i].repo.Key() != b[j].repo.Key() {
      var k, l := a[i].repo.Key(), b[j].repo.Key();
      assert k in AdoptedKeys(a) && l in AdoptedKeys(b);
      assert Named(handles, decode, names, k) && BelongsTo(handles, decode, l, n);
    }
    forall i, j | 0 <= i < j < |a + b| ensures (a + b)[i].repo.Key() != (a + b)[j].repo.Key() {
      if j >= |a| && i >= |a| {
        assert b[i - |a|].repo.Key() != b[j - |a|].repo.Key();
      } else if j >= |a| {
        assert a[i].repo.Key() != b[j - |a|].repo.Key();
      }
    }
  }

  lemma OneExecutorIsExact(runs: seq<AdoptedRun>, handles: map<string, string>, decode: Decode, n: string)
    requires Adopts(runs, handles, decode, n, handles.Keys) && Filed(handles, decode)
    ensures DistinctKeys(runs)
    ensures forall k :: k in AdoptedKeys(runs) <==> BelongsTo(handles, decode, k, n)
  {
  }

  lemma AppendKeys(a: seq<AdoptedRun>, b: seq<AdoptedRun>)
    ensures AdoptedKeys(a + b) == AdoptedKeys(a) + AdoptedKeys(b)
  {
    forall k | k in AdoptedKeys(a) ensures k in AdoptedKeys(a + b) {
      var j :| 0 <= j < |a| && a[j].repo.Key() == k;
      assert (a + b)[j].repo.Key() == k;
    }
    forall k | k in AdoptedKeys(b) ensures k in AdoptedKeys(a + b) {
      var j :| 0 <= j < |b| && b[j].repo.Key() == k;
      assert (a + b)[|a| + j].repo.Key() == k;
    }
  }

  /** Steps of the goroutines and of the clock while the main goroutine adopts. */
  predicate Quiet(step: Step) {
    D.During(D.Adoption, step) && !D.MainOnly(step)
  }

  lemma {:induction false} QuietIsMain(s: State, steps: seq<Step>, todo: set<string>, keys: set<string>)
    requires CleanRun(s, steps) && forall j :: 0 <= j < |steps| ==> Quiet(steps[j])
    ensures MainRun(s, steps, todo) && TidyRun(s, steps, keys) && LeftOver(steps, todo) == todo
    decreases |steps|
  {
    if steps != [] {
      QuietIsMain(Apply(s, steps[0]), steps[1..], todo, keys);
    }
  }

  lemma {:induction false} MainJoin(s: State, a: seq<Step>, b: seq<Step>, todo: set<string>, keys: set<string>)
    requires Legal(s, a) && MainRun(s, a, todo) && TidyRun(s, a, keys)
    requires MainRun(Exec(s, a), b, LeftOver(a, todo)) && TidyRun(Exec(s, a), b, keys)
    ensures MainRun(s, a + b, todo) && TidyRun(s, a + b, keys) && LeftOver(a + b, todo) == LeftOver(b, LeftOver(a, todo))
    decreases |a|
  {
    if a == [] {
      assert a + b == b;
    } else {
      assert (a + b)[1..] == a[1..] + b && (a + b)[0] == a[0];
      MainJoin(Apply(s, a[0]), a[1..], b, Remaining(a[0], todo), keys);
    }
  }

  /** One adoption, with what happened between its two halves. */
  lemma AdoptionPiece(s: State, repo: Repo, resume: bool, rest: seq<Step>, todo: set<string>, keys: set<string>)
    requires var adopt := Env(Adopt(repo, resume, NoFault));
             && CleanRun(s, [adopt] + rest) && repo.Key() in todo && (resume <==> repo.Key() in s.handles)
    requires forall j :: 0 <= j < |rest| ==> Quiet(rest[j])
    ensures var piece := [Env(Adopt(repo, resume, NoFault))] + rest;
            MainRun(s, piece, todo) && TidyRun(s, piece, keys) && LeftOver(piece, todo) == todo - {repo.Key()}
  {
    var adopt := Env(Adopt(repo, resume, NoFault));
    assert ([adopt] + rest)[1..] == rest;
    QuietIsMain(Apply(s, adopt), rest, todo - {repo.Key()}, keys);
  }

  /** The full invariant holds, and none of the keys is queued or flagged. */
  ghost predicate CanAdopt(s: State, keys: set<string>) {
    TidyBooting(s, keys, keys) && Settling(s, keys, keys) && Capped(s)
  }

  /** The steps up to s form a startup run that leaves todo to adopt. */
  ghost predicate AdoptedSoFar(s0: State, steps: seq<Step>, s: State, keys: set<string>, todo: set<string>) {
    && Legal(s0, steps) && CleanRun(s0, steps) && s == Exec(s0, steps) && Capped(s)
    && MainRun(s0, steps, keys) && TidyRun(s0, steps, keys) && LeftOver(steps, keys) == todo
    && forall j :: 0 <= j < |steps| ==> D.During(D.Adoption, steps[j])
  }

  method AdoptOne(
    d: D.Dispatcher, repo: Repo, ghost s0: State, ghost steps: seq<Step>, ghost keys: set<string>, ghost todo: set<string>)
    returns (ghost more: seq<Step>)
    requires CanAdopt(s0, keys) && AdoptedSoFar(s0, steps, d.View(), keys, todo) && repo.Key() in todo
    modifies d, d.store
    ensures AdoptedSoFar(s0, more, d.View(), keys, todo - {repo.Key()})
  {
    var resume := repo.Key() in d.store.handles;
    ghost var s, adopt, spawn := d.View(), Env(Adopt(repo, resume, NoFault)), Go(|d.threads|, SpawnAdopted);
    MainIsStartup(s0, steps, keys, keys);
    TidyStartup(s0, steps, keys, keys);
    TidyIsClean(s, adopt, todo, keys);
    ghost var q, others := d.Adopt(repo, resume, D.Past(s, D.Adoption, []));
    assert q.steps == [adopt] + (others + [spawn]);
    AdoptionPiece(s, repo, resume, others + [spawn], todo, keys);
    MainJoin(s0, steps, q.steps, keys, keys);
    D.Join(s0, steps, q.steps);
    more := steps + q.steps;
  }

  /** The adoption loop beside the adopted runs that already wait, end and are
      free to enqueue again: one of the startup runs of the restart theorems,
      adopting every run it was given. */
  method AdoptRuns(d: D.Dispatcher, runs: seq<AdoptedRun>) returns (ghost steps: seq<Step>)
    requires DistinctKeys(runs) && CanAdopt(d.View(), AdoptedKeys(runs))
    modifies d, d.store
    ensures AdoptedSoFar(old(d.View()), steps, d.View(), AdoptedKeys(runs), {})
  {
    ghost var s0, keys := d.View(), AdoptedKeys(runs);
    steps := [];
    for j := 0 to |runs|
      invariant AdoptedSoFar(s0, steps, d.View(), keys, AdoptedKeys(runs[j..]))
    {
      assert runs[j..][0] == runs[j];
      steps := AdoptOne(d, runs[j].repo, s0, steps, keys, AdoptedKeys(runs[j..]));
      TailKeys(runs, j);
    }
  }

  lemma TailKeys(runs: seq<AdoptedRun>, j: nat)
    requires j < |runs|
    requires DistinctKeys(runs)
    ensures AdoptedKeys(runs[j..]) - {runs[j].repo.Key()} == AdoptedKeys(runs[j + 1..])
  {
  }

  // ----- recovery -----

  lemma {:induction false} RecoveryShrinks(s: State, steps: seq<Step>)
    requires Legal(s, steps) && forall j :: 0 <= j < |steps| ==> D.During(D.Recovery, steps[j])
    ensures Exec(s, steps).recover <= s.recover
    decreases |steps|
  {
    if steps != [] {
      RecoveryShrinks(Apply(s, steps[0]), steps[1..]);
    }
  }

  lemma Concat(p: D.Past, s: State, q: D.Past, s': State) returns (r: D.Past)
    requires D.LeadsTo(p, s) && D.LeadsTo(q, s') && q.start == s && q.stage == p.stage
    ensures r == p.(steps := p.steps + q.steps) && D.LeadsTo(r, s')
  {
    D.Join(p.start, p.steps, q.steps);
    r := p.(steps := p.steps + q.steps);
  }

  /** The repo came back: its run has begun, or a call for it is on its way to
      Queue, or it is queued with exactly one owner. */
  ghost predicate Back(s: State, key: string) {
    Ran(s.log, key) || BeforeQueue(s, key) || OneOwner(s, key)
  }

  lemma RecoveredAll(s1: State, steps: seq<Step>, all: set<string>)
    requires Inv(s1) && s1.recover == all && CleanRun(s1, steps) && Legal(s1, steps)
    requires forall j :: 0 <= j < |steps| ==> D.During(D.Recovery, steps[j])
    requires Exec(s1, steps).recover == {}
    ensures var s := Exec(s1, steps);
            Inv(s) && forall k :: k in all ==> k !in Unowned(s) && (Wanted(s1.router, k) ==> Back(s, k))
  {
    var s := Exec(s1, steps);
    CleanRunKeeps(s1, steps);
    InvIsForAll(s1);
    forall k | k in all ensures k !in Unowned(s) && (Wanted(s1.router, k) ==> Back(s, k)) {
      CleanRunIsForAll(s1, steps, k);
      VisitedRun(s1, steps, k);
      if Wanted(s1.router, k) {
        TrackedRun(s1, steps, k);
        TrackedMeans(s, k);
      }
    }
  }

  /** The recovery loop, beside adopted runs that end and recovered runs that
      start: no queued entry is left without an owner, and every queued repo
      that the rules want has come back. */
  method RecoverQueued(d: D.Dispatcher) returns (ghost q: D.Past)
    requires Inv(d.View()) && Capped(d.View()) && d.recovering == {}
    requires forall k :: k in QueuedKeys(d.store.repos) ==> !Owned(d.View(), k)
    modifies d, d.store
    ensures q.start == Apply(old(d.View()), Env(TakeSnapshot(QueuedKeys(old(d.store.repos))))) && D.LeadsTo(q, d.View())
    ensures d.recovering == {} && Inv(d.View())
    ensures forall k :: k in QueuedKeys(old(d.store.repos)) ==>
                          k !in Unowned(d.View()) && (Wanted(old(d.router), k) ==> Back(d.View(), k))
  {
    ghost var all := QueuedKeys(d.store.repos);
    InvStep(d.View(), Env(TakeSnapshot(all)));
    CappedStep(d.View(), Env(TakeSnapshot(all)));
    d.ReadQueued();
    ghost var s1 := d.View();
    q := D.Past(s1, D.Recovery, []);
    while d.recovering != {}
      invariant q.start == s1 && q.stage == D.Recovery && D.LeadsTo(q, d.View())
      invariant d.recovering <= all
      decreases d.recovering
    {
      var key :| key in d.recovering;
      var i := |d.threads|;
      assert ':' in key;
      q := d.ClearStale(key, q);
      ghost var s := d.View();
      ghost var rest := d.EnqueueRest(i, D.Past(s, D.Recovery, []));
      RecoveryShrinks(s, rest.steps);
      q := Concat(q, s, rest, d.View());
    }
    RecoveredAll(s1, q.steps, all);
  }

  lemma {:induction false} RulesKept(s: State, steps: seq<Step>)
    requires Legal(s, steps) && forall j :: 0 <= j < |steps| ==> D.During(D.Adoption, steps[j])
    ensures Exec(s, steps).router == s.router
    decreases |steps|
  {
    if steps != [] {
      RulesKept(Apply(s, steps[0]), steps[1..]);
    }
  }

  /** The whole startup, over whatever a healthy process left in the store, on
      distinct runs none of which is stored as queued or with a deferred rerun
      (RestartIsExact: with one that is, it can end in two runs of a repo). Before
      every access to shared state the other goroutines make any clean run of
      theirs; no event comes in and no reload. The full invariant holds;
      every adopted repo has had its run adopted; of the repos queued at the
      crash none is left stale, and every one that the rules want has come back. */
  method StartProcess(st: Memory, router: Router, max: nat, runs: seq<AdoptedRun>)
    returns (d: D.Dispatcher, ghost adoption: seq<Step>, ghost recovery: D.Past)
    requires Inv(Boot(st.repos, st.handles, max, router))
    requires DistinctKeys(runs) && AdoptedKeys(runs) !! QueuedKeys(st.repos) && Unflagged(st.repos, AdoptedKeys(runs))
    modifies st
    ensures d.store == st && fresh(d) && Inv(d.View()) && Exclusive(d.View()) && d.recovering == {}
    ensures var s0 := old(Boot(st.repos, st.handles, max, router));
            && Legal(s0, adoption) && LeftOver(adoption, AdoptedKeys(runs)) == {}
            && Restarted(recovery.start, old(st.repos), AdoptedKeys(runs)) && D.LeadsTo(recovery, d.View())
    ensures forall k :: k in QueuedKeys(old(st.repos)) ==>
                          k !in Unowned(d.View()) && (Wanted(router, k) ==> Back(d.View(), k))
  {
    ghost var repos, keys := st.repos, AdoptedKeys(runs);
    d := new D.Dispatcher(st, router, max);
    ghost var s0 := d.View();
    adoption := AdoptRuns(d, runs);
    MainIsStartup(s0, adoption, keys, keys);
    TidyStartup(s0, adoption, keys, keys);
    RulesKept(s0, adoption);
    SnapshotRestarts(d.View(), repos, keys);
    recovery := RecoverQueued(d);
    FailClosedExclusive(d.View());
  }
}
