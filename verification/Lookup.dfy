/** What the routing rules decide: a repo they disable does not run, and a run
    has the executor and the reason that were given for its repo. */
module Lookup {
  import opened RepoKey
  import opened Protocol
  import opened Capacity
  import opened Hazards
  import R = Router

  // ----- what the labels of a run say -----

  /** The rules in force after a run: those of its last SetRouter. */
  function RulesAfter(rules: Router, steps: seq<Step>): Router {
    if steps == [] then rules
    else match steps[|steps| - 1]
      case Env(SetRouter(latest)) => latest
      case _ => RulesAfter(rules, steps[..|steps| - 1])
  }

  function TimePassed(steps: seq<Step>): nat {
    if steps == [] then 0
    else TimePassed(steps[..|steps| - 1]) + match steps[|steps| - 1] case Env(Tick(elapsed)) => elapsed case _ => 0
  }

  lemma {:induction false} LegalPrefix(s: State, steps: seq<Step>, k: nat)
    requires Legal(s, steps) && k < |steps|
    ensures Legal(s, steps[..k]) && Enabled(Exec(s, steps[..k]), steps[k])
    decreases |steps|
  {
    if k > 0 {
      LegalPrefix(Apply(s, steps[0]), steps[1..], k - 1);
      assert steps[..k][1..] == steps[1..][..k - 1];
    }
  }

  lemma LastStep(s: State, steps: seq<Step>)
    requires Legal(s, steps) && steps != []
    ensures var k := |steps| - 1;
            Legal(s, steps[..k]) && Enabled(Exec(s, steps[..k]), steps[k])
            && Exec(s, steps) == Apply(Exec(s, steps[..k]), steps[k])
  {
    var k := |steps| - 1;
    LegalPrefix(s, steps, k);
    Extend(s, steps[..k], steps[k]);
    assert steps[..k] + [steps[k]] == steps;
  }

  lemma StepLabels(s: State, step: Step)
    requires Enabled(s, step)
    ensures var s' := Apply(s, step);
            && s'.router == (match step case Env(SetRouter(latest)) => latest case _ => s.router)
            && s'.now == s.now + (match step case Env(Tick(elapsed)) => elapsed case _ => 0)
            && (s'.cancelled <==> s.cancelled || step == Env(Cancel))
  {
  }

  /** Over every run, whatever fails: the rules are those of the last reload, the
      clock has moved by what has passed, and the context is cancelled exactly
      if somebody cancelled it. */
  lemma {:induction false} LabelsTell(s: State, steps: seq<Step>)
    requires Legal(s, steps)
    ensures var s' := Exec(s, steps);
            && s'.router == RulesAfter(s.router, steps) && s'.now == s.now + TimePassed(steps)
            && (s'.cancelled <==> s.cancelled || Env(Cancel) in steps)
    decreases |steps|
  {
    if steps != [] {
      var k := |steps| - 1;
      LastStep(s, steps);
      LabelsTell(s, steps[..k]);
      StepLabels(Exec(s, steps[..k]), steps[k]);
      assert steps == steps[..k] + [steps[k]];
    }
  }

  // ----- repos the rules disable -----

  /** The rules disable every repo that has the key. */
  ghost predicate Bars(rules: Router, key: string) {
    forall repo: Repo :: repo.Key() == key ==> rules(repo.fullName).Disabled?
  }

  /** A goroutine of the key has passed its lookup and not yet begun its run. */
  predicate Admitted(t: Thread, key: string) {
    t.key == key && (t.phase.Routed? || t.phase.Spawning? || t.phase.Debouncing? || t.phase.Waiting?
                     || t.phase.Aborting? || t.phase.Holding?)
  }

  /** The key was put to the store, got a goroutine, or began to run. */
  predicate Acts(o: Obs, key: string) {
    o.key == key && (o.Asked? || o.Spawned? || o.Began?)
  }

  /** Since position n of the log nothing has been done for the key. */
  ghost predicate Barred(s: State, key: string, n: nat) {
    && Keyed(s) && Bars(s.router, key)
    && (forall i :: 0 <= i < |s.threads| ==> !Admitted(s.threads[i], key))
    && (forall j :: n <= j < |s.log| ==> !Acts(s.log[j], key))
  }

  ghost predicate KeepsBar(step: Step, key: string) {
    step.Env? && step.event.SetRouter? ==> Bars(step.event.router, key)
  }

  lemma ActionBarred(s: State, t: Thread, a: Action, key: string)
    requires Ready(s, t, a) && !Admitted(t, key)
    requires t.key == key ==> s.router(t.repo.fullName).Disabled?
    ensures var e := Do(s, t, a);
            && !Admitted(e.thread, key) && (e.child.Some? ==> !Admitted(e.child.value, key))
            && (e.note.Some? ==> !Acts(e.note.value, key))
            && (t.key == key && !Owns(t) ==> !Owns(e.thread) && e.child.None? && e.repos == s.repos)
  {
  }

  lemma BarredStep(s: State, step: Step, key: string, n: nat)
    requires Barred(s, key, n) && Enabled(s, step) && KeepsBar(step, key)
    ensures Barred(Apply(s, step), key, n)
  {
    KeyedStep(s, step);
    match step
    case Env(e) => EventBarred(s, e, key, n);
    case Go(i, a) => ActionBarred(s, s.threads[i], a, key);
  }

  lemma EventBarred(s: State, e: Event, key: string, n: nat)
    requires Barred(s, key, n) && CanHappen(s, e) && KeepsBar(Env(e), key) && Keyed(Happen(s, e))
    ensures Barred(Happen(s, e), key, n)
  {
  }

  /** A repo that the rules disable does nothing: from any state in which none of
      its goroutines is between lookup and start, however many events come in,
      whatever fails and whoever is adopted, the key is never put to the store,
      gets no goroutine and no run begins, until a reload enables it. */
  lemma {:induction false} RulesBar(s: State, steps: seq<Step>, key: string, n: nat)
    requires Barred(s, key, n) && Legal(s, steps) && forall j :: 0 <= j < |steps| ==> KeepsBar(steps[j], key)
    ensures Barred(Exec(s, steps), key, n)
    decreases |steps|
  {
    if steps != [] {
      BarredStep(s, steps[0], key, n);
      RulesBar(Apply(s, steps[0]), steps[1..], key, n);
    }
  }

  /** The same right after a reload that disables the repo, whatever the rules
      were before: runs in flight go on, nothing new begins. */
  lemma ReloadBars(s: State, rules: Router, steps: seq<Step>, key: string)
    requires Keyed(s) && Bars(rules, key) && forall i :: 0 <= i < |s.threads| ==> !Admitted(s.threads[i], key)
    requires Legal(Apply(s, Env(SetRouter(rules))), steps) && forall j :: 0 <= j < |steps| ==> KeepsBar(steps[j], key)
    ensures var s' := Exec(Apply(s, Env(SetRouter(rules))), steps);
            forall j :: |s.log| <= j < |s'.log| ==> !Acts(s'.log[j], key)
  {
    RulesBar(Apply(s, Env(SetRouter(rules))), steps, key, |s.log|);
  }

  /** The configuration disables the name: the first rule that matches it says so,
      or no rule does. */
  ghost predicate SwitchedOff(rules: seq<R.Rule>, matches: R.Matcher, name: string) {
    || (exists i: nat :: R.Applies(rules, matches, name, i) && rules[i].disabled)
    || (forall i :: 0 <= i < |rules| ==> !matches(rules[i].pattern, name))
  }

  /** The compiled router bars exactly the keys that the configuration switches off. */
  lemma ConfigBars(
    out: seq<R.Compiled<string>>, rules: seq<R.Rule>, executors: map<string, string>, matches: R.Matcher, key: string)
    requires R.CompiledFrom(out, rules, executors)
    ensures Bars(R.AsProtocol(out, matches), key) <==>
            forall repo: Repo :: repo.Key() == key ==> SwitchedOff(rules, matches, repo.fullName)
  {
    forall repo: Repo | repo.Key() == key
      ensures R.AsProtocol(out, matches)(repo.fullName).Disabled? <==> SwitchedOff(rules, matches, repo.fullName)
    {
      var name := repo.fullName;
      R.RouteFollowsConfig(out, rules, executors, matches, name);
      if i :| 0 <= i < |rules| && matches(rules[i].pattern, name) {
        var first := R.FirstApplying(rules, matches, name, i);
        R.ProtocolRoutesByFirstMatch(out, rules, executors, matches, name, first);
      }
    }
  }

  /** No entry, no owner. */
  ghost predicate Absent(s: State, key: string) {
    key !in s.repos && forall i :: 0 <= i < |s.threads| && s.threads[i].key == key ==> !Owns(s.threads[i])
  }

  predicate Adopts(step: Step, key: string) {
    step.Env? && step.event.Adopt? && step.event.repo.Key() == key
  }

  lemma ActionAbsent(s: State, i: nat, a: Action, key: string, n: nat)
    requires Barred(s, key, n) && Absent(s, key) && Enabled(s, Go(i, a))
    ensures Absent(Apply(s, Go(i, a)), key)
  {
    var t, e, s' := s.threads[i], Do(s, s.threads[i], a), Apply(s, Go(i, a));
    ActionKeepsRepo(s, t, a);
    if t.key == key {
      ActionBarred(s, t, a, key);
    } else {
      ActionElsewhere(s, t, a, key);
    }
    forall j | 0 <= j < |s'.threads| && s'.threads[j].key == key ensures !Owns(s'.threads[j]) {
      assert j < |s.threads| && j != i ==> s'.threads[j] == s.threads[j];
    }
  }

  lemma EventAbsent(s: State, e: Event, key: string)
    requires Absent(s, key) && CanHappen(s, e) && !Adopts(Env(e), key)
    ensures Absent(Happen(s, e), key)
  {
  }

  lemma ActionElsewhere(s: State, t: Thread, a: Action, key: string)
    requires Ready(s, t, a) && t.key != key && key !in s.repos
    ensures key !in Do(s, t, a).repos
  {
  }

  /** From a fresh process, a disabled repo that was not stored and is not adopted
      is never stored and never has an owner. */
  lemma {:induction false} DisabledStaysAbsent(s: State, steps: seq<Step>, key: string, n: nat)
    requires Barred(s, key, n) && Absent(s, key) && Legal(s, steps)
    requires forall j :: 0 <= j < |steps| ==> KeepsBar(steps[j], key) && !Adopts(steps[j], key)
    ensures Absent(Exec(s, steps), key)
    decreases |steps|
  {
    if steps != [] {
      BarredStep(s, steps[0], key, n);
      match steps[0] {
        case Env(e) => EventAbsent(s, e, key);
        case Go(i, a) => ActionAbsent(s, i, a, key, n);
      }
      DisabledStaysAbsent(Apply(s, steps[0]), steps[1..], key, n);
    }
  }

  // ----- repos the rules enable -----

  function StateAt(s: State, steps: seq<Step>, k: nat): State
    requires Legal(s, steps) && k <= |steps|
    decreases k
  {
    if k == 0 then s else StateAt(Apply(s, steps[0]), steps[1..], k - 1)
  }

  /** The state before step k, and the rules in force in it. */
  lemma {:induction false} StateAtIsExec(s: State, steps: seq<Step>, k: nat)
    requires Legal(s, steps) && k < |steps|
    ensures Legal(s, steps[..k]) && StateAt(s, steps, k) == Exec(s, steps[..k])
    ensures StateAt(s, steps, k).router == RulesAfter(s.router, steps[..k])
    decreases k
  {
    LegalPrefix(s, steps, k);
    LabelsTell(s, steps[..k]);
    if k > 0 {
      StateAtIsExec(Apply(s, steps[0]), steps[1..], k - 1);
      assert steps[..k][1..] == steps[1..][..k - 1];
    }
  }

  /** What a run is about. */
  datatype Order = Order(repo: Repo, reason: string, executor: string)

  function OrderOf(t: Thread): Order {
    Order(t.repo, t.reason, t.exec)
  }

  /** The goroutine goes by the answer of a lookup. */
  predicate HasRoute(t: Thread) {
    t.phase.Routed? || t.phase.Spawning? || (t.kind.Run? && Owes(t) == 1)
  }

  /** The step is a lookup for the repo that gives the executor, under the rules
      then in force. */
  predicate Decides(s: State, step: Step, o: Order) {
    && step.Go? && step.action.Load? && step.i < |s.threads|
    && s.threads[step.i].repo == o.repo && s.threads[step.i].reason == o.reason
    && s.router(o.repo.fullName) == To(o.executor)
  }

  ghost predicate DecidedIn(s: State, steps: seq<Step>, o: Order)
    requires Legal(s, steps)
  {
    exists k :: 0 <= k < |steps| && Decides(StateAt(s, steps, k), steps[k], o)
  }

  ghost predicate UnderWay(s: State, o: Order) {
    exists i :: 0 <= i < |s.threads| && HasRoute(s.threads[i]) && OrderOf(s.threads[i]) == o
  }

  /** It was under way from the start, or a lookup of this run decided it. */
  ghost predicate Grounded(s: State, steps: seq<Step>, o: Order)
    requires Legal(s, steps)
  {
    UnderWay(s, o) || DecidedIn(s, steps, o)
  }

  lemma ActionRoutes(s: State, t: Thread, a: Action)
    requires Ready(s, t, a) && Shape(t)
    ensures var e := Do(s, t, a);
            && (HasRoute(e.thread) ==>
                  || (HasRoute(t) && OrderOf(e.thread) == OrderOf(t))
                  || (a.Load? && e.thread.repo == t.repo && e.thread.reason == t.reason
                      && s.router(t.repo.fullName) == To(e.thread.exec)))
            && (e.child.Some? && HasRoute(e.child.value) ==> HasRoute(t) && OrderOf(e.child.value) == OrderOf(t))
            && (e.note.Some? && e.note.value.Began? ==>
                  HasRoute(t) && e.note.value == Began(t.key, t.exec, t.reason))
  {
  }

  lemma ActionOrigin(s: State, i: nat, a: Action, t': Thread)
    requires Shaped(s) && Enabled(s, Go(i, a)) && HasRoute(t')
    requires var e := Do(s, s.threads[i], a); t' == e.thread || e.child == Some(t')
    ensures Decides(s, Go(i, a), OrderOf(t')) || UnderWay(s, OrderOf(t'))
  {
    ActionRoutes(s, s.threads[i], a);
  }

  /** Where a route of the next state comes from. */
  lemma StepRoutes(s: State, step: Step, j: nat)
    requires Shaped(s) && Enabled(s, step)
    requires j < |Apply(s, step).threads| && HasRoute(Apply(s, step).threads[j])
    ensures var o := OrderOf(Apply(s, step).threads[j]); Decides(s, step, o) || UnderWay(s, o)
  {
    match step
    case Env(e) => EventRoutes(s, e, j);
    case Go(i, a) =>
      var t' := Apply(s, step).threads[j];
      if j < |s.threads| && j != i {
        assert t' == s.threads[j];
      } else {
        ActionOrigin(s, i, a, t');
      }
  }

  lemma EventRoutes(s: State, e: Event, j: nat)
    requires CanHappen(s, e) && j < |Happen(s, e).threads| && HasRoute(Happen(s, e).threads[j])
    ensures UnderWay(s, OrderOf(Happen(s, e).threads[j]))
  {
    if j < |s.threads| {
      assert Happen(s, e).threads[j] == s.threads[j];
    }
  }

  lemma {:induction false} GroundedEarlier(s: State, steps: seq<Step>, o: Order)
    requires Shaped(s) && Legal(s, steps) && steps != [] && Grounded(Apply(s, steps[0]), steps[1..], o)
    ensures Grounded(s, steps, o)
  {
    var s1 := Apply(s, steps[0]);
    if DecidedIn(s1, steps[1..], o) {
      var k :| 0 <= k < |steps[1..]| && Decides(StateAt(s1, steps[1..], k), steps[1..][k], o);
      assert StateAt(s, steps, k + 1) == StateAt(s1, steps[1..], k) && steps[k + 1] == steps[1..][k];
    } else {
      var i :| 0 <= i < |s1.threads| && HasRoute(s1.threads[i]) && OrderOf(s1.threads[i]) == o;
      StepRoutes(s, steps[0], i);
      if Decides(s, steps[0], o) {
        assert StateAt(s, steps, 0) == s;
      }
    }
  }

  /** Over every run, whatever fails and however often the rules are swapped: a
      goroutine that is past its lookup carries the executor that the rules in
      force at a lookup for its own repo and reason gave it. */
  lemma {:induction false} LookupDecides(s: State, steps: seq<Step>, j: nat)
    requires Shaped(s) && Legal(s, steps)
    requires j < |Exec(s, steps).threads| && HasRoute(Exec(s, steps).threads[j])
    ensures Grounded(s, steps, OrderOf(Exec(s, steps).threads[j]))
    decreases |steps|
  {
    if steps != [] {
      ShapedStep(s, steps[0]);
      LookupDecides(Apply(s, steps[0]), steps[1..], j);
      GroundedEarlier(s, steps, OrderOf(Exec(s, steps).threads[j]));
    }
  }

  lemma StepBegins(s: State, step: Step)
    requires Keyed(s) && Shaped(s) && Enabled(s, step)
    ensures var s' := Apply(s, step);
            && |s.log| <= |s'.log| <= |s.log| + 1 && s'.log[..|s.log|] == s.log
            && (|s'.log| > |s.log| && s'.log[|s.log|].Began? ==>
                  exists i :: 0 <= i < |s.threads| && HasRoute(s.threads[i])
                              && s'.log[|s.log|] == Began(s.threads[i].repo.Key(), s.threads[i].exec, s.threads[i].reason))
  {
    if step.Go? {
      ActionRoutes(s, s.threads[step.i], step.action);
    }
  }

  /** Every run that begins is a run of an order: of that repo, by the executor the
      rules gave for it, for the reason it was looked up with. */
  lemma {:induction false} RunsFollowTheRules(s: State, steps: seq<Step>, n: nat) returns (o: Order)
    requires Keyed(s) && Shaped(s) && Legal(s, steps)
    requires |s.log| <= n < |Exec(s, steps).log| && Exec(s, steps).log[n].Began?
    ensures Grounded(s, steps, o) && Exec(s, steps).log[n] == Began(o.repo.Key(), o.executor, o.reason)
    decreases |steps|
  {
    var s1 := Apply(s, steps[0]);
    StepBegins(s, steps[0]);
    KeyedStep(s, steps[0]);
    ShapedStep(s, steps[0]);
    LogGrows(s1, steps[1..]);
    if n < |s1.log| {
      var i :| 0 <= i < |s.threads| && HasRoute(s.threads[i])
               && s1.log[n] == Began(s.threads[i].repo.Key(), s.threads[i].exec, s.threads[i].reason);
      o := OrderOf(s.threads[i]);
    } else {
      o := RunsFollowTheRules(s1, steps[1..], n);
      GroundedEarlier(s, steps, o);
    }
  }

  lemma {:induction false} LogGrows(s: State, steps: seq<Step>)
    requires Legal(s, steps)
    ensures |s.log| <= |Exec(s, steps).log| && Exec(s, steps).log[..|s.log|] == s.log
    decreases |steps|
  {
    if steps != [] {
      LogGrows(Apply(s, steps[0]), steps[1..]);
      assert Apply(s, steps[0]).log[..|s.log|] == s.log;
    }
  }

  // ----- where the reason comes from -----

  /** The step gives a goroutine of the repo its reason. */
  predicate Announces(s: State, step: Step, repo: Repo, reason: string) {
    match step
    case Env(Call(r, why)) => r == repo && why == reason
    case Env(Recover(k, _)) => SplitKey(k) == Some(repo) && reason == RERUN
    case Env(Adopt(r, _, _)) => r == repo && reason == RERUN
    case Go(i, Finish(f)) => i < |s.threads| && s.threads[i].repo == repo && f.NoFault? && reason == RERUN
    case _ => false
  }

  ghost predicate AnnouncedIn(s: State, steps: seq<Step>, repo: Repo, reason: string)
    requires Legal(s, steps)
  {
    exists k :: 0 <= k < |steps| && Announces(StateAt(s, steps, k), steps[k], repo, reason)
  }

  ghost predicate Known(s: State, repo: Repo, reason: string) {
    exists i :: 0 <= i < |s.threads| && s.threads[i].repo == repo && s.threads[i].reason == reason
  }

  lemma ActionReasons(s: State, t: Thread, a: Action)
    requires Ready(s, t, a)
    ensures var e := Do(s, t, a);
            && e.thread.repo == t.repo
            && (e.thread.reason == t.reason || (a.Finish? && a.fault.NoFault? && e.thread.reason == RERUN))
            && (e.child.Some? ==> e.child.value.repo == t.repo && e.child.value.reason == t.reason)
  {
  }

  lemma StepReasons(s: State, step: Step, j: nat)
    requires Enabled(s, step) && j < |Apply(s, step).threads|
    ensures var t := Apply(s, step).threads[j]; Announces(s, step, t.repo, t.reason) || Known(s, t.repo, t.reason)
  {
    var s' := Apply(s, step);
    if j < |s.threads| && !(step.Go? && step.i == j) {
      assert s'.threads[j] == s.threads[j];
    } else if step.Go? {
      ActionReasons(s, s.threads[step.i], step.action);
      assert s'.threads[j] == if j == step.i then Do(s, s.threads[step.i], step.action).thread
                              else Do(s, s.threads[step.i], step.action).child.value;
    }
  }

  ghost predicate Sourced(s: State, steps: seq<Step>, repo: Repo, reason: string)
    requires Legal(s, steps)
  {
    Known(s, repo, reason) || AnnouncedIn(s, steps, repo, reason)
  }

  lemma SourcedEarlier(s: State, steps: seq<Step>, repo: Repo, reason: string)
    requires Legal(s, steps) && steps != [] && Sourced(Apply(s, steps[0]), steps[1..], repo, reason)
    ensures Sourced(s, steps, repo, reason)
  {
    var s1 := Apply(s, steps[0]);
    if AnnouncedIn(s1, steps[1..], repo, reason) {
      var k :| 0 <= k < |steps[1..]| && Announces(StateAt(s1, steps[1..], k), steps[1..][k], repo, reason);
      assert StateAt(s, steps, k + 1) == StateAt(s1, steps[1..], k) && steps[k + 1] == steps[1..][k];
    } else {
      var i :| 0 <= i < |s1.threads| && s1.threads[i].repo == repo && s1.threads[i].reason == reason;
      StepReasons(s, steps[0], i);
      if !Known(s, repo, reason) {
        assert StateAt(s, steps, 0) == s;
      }
    }
  }

  /** Over every run: the reason of a goroutine is the one its event came with, or
      "rerun" after a deferred rerun, a recovery or an adoption of its repo. */
  lemma {:induction false} ReasonsAreGiven(s: State, steps: seq<Step>, j: nat)
    requires Legal(s, steps) && j < |Exec(s, steps).threads|
    ensures var t := Exec(s, steps).threads[j]; Sourced(s, steps, t.repo, t.reason)
    decreases |steps|
  {
    if steps != [] {
      ReasonsAreGiven(Apply(s, steps[0]), steps[1..], j);
      SourcedEarlier(s, steps, Exec(s, steps).threads[j].repo, Exec(s, steps).threads[j].reason);
    }
  }
}
