/** Configuration validation, the first-match router it makes safe, and the
    reload of rules. */
module Router {
  import opened RepoKey
  import Protocol

  // ----- configuration -----

  datatype Platform = Platform(
    name: string, kind: string, token: string, webhookPath: string, secret: string, signingSecret: string,
    events: seq<string>, timezone: string, crontabs: seq<string>)

  datatype Executor = Executor(
    name: string, kind: string, platform: string, project: string, triggerToken: string,
    ns: string, image: string, quantities: seq<string>)

  datatype Rule = Rule(pattern: string, executor: string, disabled: bool)

  datatype Config = Config(
    storeType: string, redisURL: string, platforms: seq<Platform>, executors: seq<Executor>, rules: seq<Rule>)

  /** What other libraries decide: time zones, crontabs, resource quantities, glob syntax. */
  datatype Syntax = Syntax(
    timezone: string -> bool, crontab: string -> bool, quantity: string -> bool, pattern: string -> bool)

  /** The first problem found, with the position of the offending item. */
  datatype Problem =
    | BadStore | NoPlatforms | BadPlatform(i: nat) | BadExecutor(i: nat) | NoRules | BadRule(i: nat) | NoCatchAll

  const CATCH_ALL := "**"

  // ----- what an accepted configuration is -----

  predicate GoodStore(c: Config) {
    c.storeType == "memory" || (c.storeType == "redis" && c.redisURL != "")
  }

  predicate KnownEvent(e: string) {
    e == "merge_request" || e == "issue" || e == "push"
  }

  predicate GoodPlatform(p: Platform, x: Syntax) {
    && p.name != "" && p.token != "" && p.webhookPath != ""
    && (|| (p.kind == "github" && p.secret != "" && p.signingSecret == "")
        || (p.kind == "gitlab" && (p.secret != "" || p.signingSecret != "")
            && (p.signingSecret != "" ==> "whsec_" <= p.signingSecret)))
    && (forall i :: 0 <= i < |p.events| ==> KnownEvent(p.events[i]))
    && (p.timezone != "" ==> x.timezone(p.timezone))
    && (forall i :: 0 <= i < |p.crontabs| ==> x.crontab(p.crontabs[i]))
  }

  ghost predicate HasPlatform(ps: seq<Platform>, name: string, kind: string) {
    exists i :: 0 <= i < |ps| && ps[i].name == name && ps[i].kind == kind
  }

  ghost predicate GoodExecutor(e: Executor, ps: seq<Platform>, x: Syntax) {
    && e.name != ""
    && (|| (e.kind == "gitlabPipeline" && HasPlatform(ps, e.platform, "gitlab") && e.project != "" && e.triggerToken != "")
        || (e.kind == "kubernetes" && e.ns != "" && e.image != ""
            && forall i :: 0 <= i < |e.quantities| ==> x.quantity(e.quantities[i]))
        || (e.kind == "docker" && e.image != "")
        || e.kind == "noop")
  }

  ghost predicate NamesExecutor(es: seq<Executor>, name: string) {
    exists i :: 0 <= i < |es| && es[i].name == name
  }

  ghost predicate GoodRule(r: Rule, es: seq<Executor>, x: Syntax) {
    x.pattern(r.pattern) && (r.disabled || NamesExecutor(es, r.executor))
  }

  /** Platform i is fine by itself and its name is new. */
  predicate PlatformOk(ps: seq<Platform>, i: nat, x: Syntax)
    requires i < |ps|
  {
    GoodPlatform(ps[i], x) && forall j :: 0 <= j < i ==> ps[j].name != ps[i].name
  }

  ghost predicate ExecutorOk(c: Config, i: nat, x: Syntax)
    requires i < |c.executors|
  {
    && GoodExecutor(c.executors[i], c.platforms, x)
    && forall j :: 0 <= j < i ==> c.executors[j].name != c.executors[i].name
  }

  // What has been found in order after each part of the configuration.

  ghost predicate PlatformsOk(c: Config, x: Syntax) {
    GoodStore(c) && c.platforms != [] && forall i :: 0 <= i < |c.platforms| ==> PlatformOk(c.platforms, i, x)
  }

  ghost predicate ExecutorsOk(c: Config, x: Syntax) {
    PlatformsOk(c, x) && forall i :: 0 <= i < |c.executors| ==> ExecutorOk(c, i, x)
  }

  ghost predicate RulesOk(c: Config, x: Syntax) {
    ExecutorsOk(c, x) && c.rules != [] && forall i :: 0 <= i < |c.rules| ==> GoodRule(c.rules[i], c.executors, x)
  }

  ghost predicate ValidConfig(c: Config, x: Syntax) {
    RulesOk(c, x) && exists i :: 0 <= i < |c.rules| && c.rules[i].pattern == CATCH_ALL
  }

  /** The problem is the first one in the order in which things are looked at. */
  ghost predicate Blames(c: Config, x: Syntax, p: Problem) {
    match p
    case BadStore => !GoodStore(c)
    case NoPlatforms => GoodStore(c) && c.platforms == []
    case BadPlatform(i) =>
      && GoodStore(c) && i < |c.platforms| && !PlatformOk(c.platforms, i, x)
      && forall j :: 0 <= j < i ==> PlatformOk(c.platforms, j, x)
    case BadExecutor(i) =>
      && PlatformsOk(c, x) && i < |c.executors| && !ExecutorOk(c, i, x)
      && forall j :: 0 <= j < i ==> ExecutorOk(c, j, x)
    case NoRules => ExecutorsOk(c, x) && c.rules == []
    case BadRule(i) =>
      && ExecutorsOk(c, x) && i < |c.rules| && !GoodRule(c.rules[i], c.executors, x)
      && forall j :: 0 <= j < i ==> GoodRule(c.rules[j], c.executors, x)
    case NoCatchAll => RulesOk(c, x) && forall j :: 0 <= j < |c.rules| ==> c.rules[j].pattern != CATCH_ALL
  }

  /** A configuration has at most one first problem, and a valid one has none. */
  lemma BlameIsUnique(c: Config, x: Syntax, p: Problem, q: Problem)
    requires Blames(c, x, p)
    ensures !ValidConfig(c, x) && (Blames(c, x, q) ==> p == q)
  {
  }

  // ----- validate -----

  /** The checks on one platform after its name, in source order. */
  method CheckPlatform(p: Platform, x: Syntax) returns (fine: bool)
    requires p.name != ""
    ensures fine <==> GoodPlatform(p, x)
  {
    if p.kind != "gitlab" && p.kind != "github" {
      return false;
    }
    if p.token == "" {
      return false;
    }
    if p.webhookPath == "" {
      return false;
    }
    if p.kind == "github" {
      if p.secret == "" {
        return false;
      }
      if p.signingSecret != "" {
        return false;
      }
    } else {
      if p.secret == "" && p.signingSecret == "" {
        return false;
      }
      if p.signingSecret != "" && !("whsec_" <= p.signingSecret) {
        return false;
      }
    }
    for i := 0 to |p.events|
      invariant forall j :: 0 <= j < i ==> KnownEvent(p.events[j])
    {
      if p.events[i] != "merge_request" && p.events[i] != "issue" && p.events[i] != "push" {
        return false;
      }
    }
    if p.timezone != "" && !x.timezone(p.timezone) {
      return false;
    }
    for i := 0 to |p.crontabs|
      invariant forall j :: 0 <= j < i ==> x.crontab(p.crontabs[j])
    {
      if !x.crontab(p.crontabs[i]) {
        return false;
      }
    }
    return true;
  }

  method CheckPlatforms(ps: seq<Platform>, x: Syntax) returns (bad: Option<nat>, kinds: map<string, string>)
    ensures bad.None? ==>
              && (forall i :: 0 <= i < |ps| ==> PlatformOk(ps, i, x))
              && (forall name, kind :: name in kinds && kinds[name] == kind <==> HasPlatform(ps, name, kind))
    ensures bad.Some? ==>
              bad.value < |ps| && !PlatformOk(ps, bad.value, x) && forall i :: 0 <= i < bad.value ==> PlatformOk(ps, i, x)
  {
    kinds := map[];
    for i := 0 to |ps|
      invariant forall j :: 0 <= j < i ==> PlatformOk(ps, j, x)
      invariant forall name :: name in kinds <==> exists j :: 0 <= j < i && ps[j].name == name
      invariant forall j :: 0 <= j < i ==> ps[j].name in kinds && kinds[ps[j].name] == ps[j].kind
    {
      var p := ps[i];
      if p.name == "" || p.name in kinds {
        return Some(i), kinds;
      }
      var fine := CheckPlatform(p, x);
      if !fine {
        return Some(i), kinds;
      }
      kinds := kinds[p.name := p.kind];
    }
    bad := None;
    forall name, kind ensures name in kinds && kinds[name] == kind <==> HasPlatform(ps, name, kind) {
      if name in kinds {
        var j :| 0 <= j < |ps| && ps[j].name == name;
        assert ps[j].kind == kinds[name];
      }
    }
  }

  method CheckExecutors(c: Config, kinds: map<string, string>, x: Syntax) returns (bad: Option<nat>, names: set<string>)
    requires forall name, kind :: name in kinds && kinds[name] == kind <==> HasPlatform(c.platforms, name, kind)
    ensures bad.None? ==>
              && (forall i :: 0 <= i < |c.executors| ==> ExecutorOk(c, i, x))
              && (forall name :: name in names <==> NamesExecutor(c.executors, name))
    ensures bad.Some? ==>
              && bad.value < |c.executors| && !ExecutorOk(c, bad.value, x)
              && forall i :: 0 <= i < bad.value ==> ExecutorOk(c, i, x)
  {
    names := {};
    for i := 0 to |c.executors|
      invariant forall j :: 0 <= j < i ==> ExecutorOk(c, j, x)
      invariant forall name :: name in names <==> exists j :: 0 <= j < i && c.executors[j].name == name
    {
      var e := c.executors[i];
      if e.name == "" || e.name in names {
        return Some(i), names;
      }
      names := names + {e.name};
      assert e.platform in kinds && kinds[e.platform] == "gitlab" <==> HasPlatform(c.platforms, e.platform, "gitlab");
      if e.kind == "gitlabPipeline" {
        if e.platform !in kinds || kinds[e.platform] != "gitlab" || e.project == "" || e.triggerToken == "" {
          return Some(i), names;
        }
      } else if e.kind == "kubernetes" {
        if e.ns == "" || e.image == "" || exists q :: 0 <= q < |e.quantities| && !x.quantity(e.quantities[q]) {
          return Some(i), names;
        }
      } else if e.kind == "docker" {
        if e.image == "" {
          return Some(i), names;
        }
      } else if e.kind != "noop" {
        return Some(i), names;
      }
    }
    bad := None;
  }

  /** validate: accepts exactly the valid configurations, and reports the first
      offending item of the others. */
  method Validate(c: Config, x: Syntax) returns (problem: Option<Problem>)
    ensures problem.None? <==> ValidConfig(c, x)
    ensures problem.Some? ==> Blames(c, x, problem.value)
  {
    if c.storeType == "redis" {
      if c.redisURL == "" {
        return Some(BadStore);
      }
    } else if c.storeType != "memory" {
      return Some(BadStore);
    }
    if |c.platforms| == 0 {
      return Some(NoPlatforms);
    }
    var badPlatform, kinds := CheckPlatforms(c.platforms, x);
    if badPlatform.Some? {
      return Some(BadPlatform(badPlatform.value));
    }
    var badExecutor, names := CheckExecutors(c, kinds, x);
    if badExecutor.Some? {
      return Some(BadExecutor(badExecutor.value));
    }
    if |c.rules| == 0 {
      return Some(NoRules);
    }
    var hasCatchAll := false;
    for i := 0 to |c.rules|
      invariant forall j :: 0 <= j < i ==> GoodRule(c.rules[j], c.executors, x)
      invariant hasCatchAll <==> exists j :: 0 <= j < i && c.rules[j].pattern == CATCH_ALL
    {
      var r := c.rules[i];
      if !x.pattern(r.pattern) {
        return Some(BadRule(i));
      }
      if r.pattern == CATCH_ALL {
        hasCatchAll := true;
      }
      if r.disabled {
        continue;
      }
      if r.executor !in names {
        return Some(BadRule(i));
      }
    }
    if !hasCatchAll {
      return Some(NoCatchAll);
    }
    return None;
  }

  // ----- router -----

  datatype Compiled<E> = Compiled(pattern: string, disabled: bool, exec: Option<E>)

  datatype Route<E> = Route(exec: Option<E>, disabled: bool)

  /** Does the glob match without error? */
  type Matcher = (string, string) -> bool

  predicate Resolvable<E>(rules: seq<Rule>, executors: map<string, E>) {
    forall i :: 0 <= i < |rules| ==> rules[i].disabled || rules[i].executor in executors
  }

  /** Each compiled rule keeps the pattern and the switch of its configured rule,
      and holds the executor that the rule names. */
  ghost predicate CompiledFrom<E(!new)>(out: seq<Compiled<E>>, rules: seq<Rule>, executors: map<string, E>) {
    && |out| == |rules| && Resolvable(rules, executors)
    && (forall i :: 0 <= i < |rules| ==> out[i].pattern == rules[i].pattern && out[i].disabled == rules[i].disabled)
    && (forall i :: 0 <= i < |rules| ==>
          out[i].exec == if rules[i].disabled then None else Some(executors[rules[i].executor]))
  }

  /** Compiles the rules in order; fails exactly if an enabled rule names no executor. */
  method NewRouter<E(!new)>(rules: seq<Rule>, executors: map<string, E>) returns (r: Option<seq<Compiled<E>>>)
    ensures r.Some? <==> Resolvable(rules, executors)
    ensures r.Some? ==> CompiledFrom(r.value, rules, executors)
    ensures r.Some? ==> |r.value| == |rules| && forall i :: 0 <= i < |rules| ==> r.value[i].pattern == rules[i].pattern
  {
    var out: seq<Compiled<E>> := [];
    for i := 0 to |rules|
      invariant |out| == i
      invariant forall j :: 0 <= j < i ==> rules[j].disabled || rules[j].executor in executors
      invariant forall j :: 0 <= j < i ==> out[j].pattern == rules[j].pattern && out[j].disabled == rules[j].disabled
      invariant forall j :: 0 <= j < i ==>
                  out[j].exec == if rules[j].disabled then None else Some(executors[rules[j].executor])
    {
      var rule := rules[i];
      var exec: Option<E> := None;
      if !rule.disabled {
        if rule.executor !in executors {
          return None;
        }
        exec := Some(executors[rule.executor]);
      }
      out := out + [Compiled(rule.pattern, rule.disabled, exec)];
    }
    return Some(out);
  }

  /** First match wins; the fallback disables. */
  function RouteFor<E>(rules: seq<Compiled<E>>, matches: Matcher, name: string): Route<E> {
    if rules == [] then Route(None, true)
    else if matches(rules[0].pattern, name) then Route(rules[0].exec, rules[0].disabled)
    else RouteFor(rules[1..], matches, name)
  }

  /** Rule i is the first to match. */
  ghost predicate FirstMatch<E>(rules: seq<Compiled<E>>, matches: Matcher, name: string, i: nat) {
    && i < |rules| && matches(rules[i].pattern, name)
    && forall j :: 0 <= j < i ==> !matches(rules[j].pattern, name)
  }

  lemma {:induction false} RouteIsFirstMatch<E>(rules: seq<Compiled<E>>, matches: Matcher, name: string)
    ensures forall i :: 0 <= i < |rules| && FirstMatch(rules, matches, name, i) ==>
                          RouteFor(rules, matches, name) == Route(rules[i].exec, rules[i].disabled)
    ensures (forall i :: 0 <= i < |rules| ==> !matches(rules[i].pattern, name)) ==>
              RouteFor(rules, matches, name) == Route(None, true)
  {
    if rules != [] && !matches(rules[0].pattern, name) {
      RouteIsFirstMatch(rules[1..], matches, name);
      forall i | 0 <= i < |rules| && FirstMatch(rules, matches, name, i)
        ensures RouteFor(rules, matches, name) == Route(rules[i].exec, rules[i].disabled)
      {
        assert i > 0 && FirstMatch(rules[1..], matches, name, i - 1);
      }
    }
  }

  /** Configured rule i is the first whose pattern matches the name. */
  ghost predicate Applies(rules: seq<Rule>, matches: Matcher, name: string, i: nat) {
    && i < |rules| && matches(rules[i].pattern, name)
    && forall j :: 0 <= j < i ==> !matches(rules[j].pattern, name)
  }

  /** What the compiled router answers, in terms of the configured rules alone:
      the first rule whose pattern matches decides, with the executor it names or
      disabled exactly if it says so; a name that no rule matches is disabled. */
  lemma RouteFollowsConfig<E(!new)>(
    out: seq<Compiled<E>>, rules: seq<Rule>, executors: map<string, E>, matches: Matcher, name: string)
    requires CompiledFrom(out, rules, executors)
    ensures forall i: nat :: Applies(rules, matches, name, i) ==>
                          var r := RouteFor(out, matches, name);
                          && (r.disabled <==> rules[i].disabled)
                          && (!rules[i].disabled ==> r.exec == Some(executors[rules[i].executor]))
                          && (rules[i].disabled ==> r.exec == None)
    ensures (forall i :: 0 <= i < |rules| ==> !matches(rules[i].pattern, name)) ==>
              RouteFor(out, matches, name) == Route(None, true)
  {
    RouteIsFirstMatch(out, matches, name);
    forall i: nat | Applies(rules, matches, name, i) ensures FirstMatch(out, matches, name, i) {
    }
  }

  /** Rules after the first catch-all never affect any route. */
  lemma {:induction false} RulesAfterCatchAllAreDead<E>(
    rules: seq<Compiled<E>>, n: nat, rest: seq<Compiled<E>>, matches: Matcher, name: string)
    requires n < |rules| && rules[n].pattern == CATCH_ALL && matches(CATCH_ALL, name)
    ensures RouteFor(rules, matches, name) == RouteFor(rules[..n + 1] + rest, matches, name)
    decreases n
  {
    var other := rules[..n + 1] + rest;
    assert other[0] == rules[0];
    if n > 0 && !matches(rules[0].pattern, name) {
      RulesAfterCatchAllAreDead(rules[1..], n - 1, rest, matches, name);
      assert rules[1..][..n] + rest == other[1..];
    }
  }

  // ----- the executors built at startup -----

  /** One executor object per configuration entry, by name. */
  function Built<E>(es: seq<Executor>, make: Executor -> E): map<string, E> {
    if es == [] then map[] else Built(es[..|es| - 1], make)[es[|es| - 1].name := make(es[|es| - 1])]
  }

  /** The executor object under a name is the one made from the entry of that name. */
  lemma {:induction false} BuiltMakes<E>(es: seq<Executor>, make: Executor -> E, i: nat)
    requires i < |es| && forall j :: i < j < |es| ==> es[j].name != es[i].name
    ensures es[i].name in Built(es, make) && Built(es, make)[es[i].name] == make(es[i])
  {
    var n := |es| - 1;
    if i < n {
      BuiltMakes(es[..n], make, i);
    }
  }

  lemma {:induction false} BuiltNames<E>(es: seq<Executor>, make: Executor -> E, name: string)
    ensures name in Built(es, make) <==> NamesExecutor(es, name)
  {
    if es != [] {
      var n := |es| - 1;
      BuiltNames(es[..n], make, name);
      assert es == es[..n] + [es[n]];
    }
  }

  /** A valid configuration always compiles on the executors built from it; some
      configured rule applies to every repo (the fallback is unreachable), and the
      repo is disabled exactly if that rule says so; otherwise it goes to the
      object made from the one configured executor that the rule names. */
  lemma ValidConfigRoutes<E(!new)>(
    c: Config, x: Syntax, make: Executor -> E, out: seq<Compiled<E>>, matches: Matcher, name: string)
    requires ValidConfig(c, x) && matches(CATCH_ALL, name)
    ensures Resolvable(c.rules, Built(c.executors, make))
    ensures CompiledFrom(out, c.rules, Built(c.executors, make)) ==>
              exists i: nat :: Applies(c.rules, matches, name, i) && GoesTo(c, make, c.rules[i], RouteFor(out, matches, name))
  {
    forall i | 0 <= i < |c.rules| ensures c.rules[i].disabled || c.rules[i].executor in Built(c.executors, make) {
      assert GoodRule(c.rules[i], c.executors, x);
      BuiltNames(c.executors, make, c.rules[i].executor);
    }
    if CompiledFrom(out, c.rules, Built(c.executors, make)) {
      var i :| 0 <= i < |c.rules| && c.rules[i].pattern == CATCH_ALL;
      var first := FirstApplying(c.rules, matches, name, i);
      RouteFollowsConfig(out, c.rules, Built(c.executors, make), matches, name);
      var rule := c.rules[first];
      if !rule.disabled {
        assert GoodRule(rule, c.executors, x);
        var e :| 0 <= e < |c.executors| && c.executors[e].name == rule.executor;
        forall j | e < j < |c.executors| ensures c.executors[j].name != c.executors[e].name {
          assert ExecutorOk(c, j, x);
        }
        BuiltMakes(c.executors, make, e);
      }
      assert GoesTo(c, make, rule, RouteFor(out, matches, name));
    }
  }

  /** The route of a repo to which the rule applies. */
  ghost predicate GoesTo<E(!new)>(c: Config, make: Executor -> E, rule: Rule, r: Route<E>) {
    && (r.disabled <==> rule.disabled) && (r.exec.None? <==> rule.disabled)
    && (!rule.disabled ==>
          exists e :: 0 <= e < |c.executors| && c.executors[e].name == rule.executor && r.exec == Some(make(c.executors[e])))
  }

  lemma FirstApplying(rules: seq<Rule>, matches: Matcher, name: string, i: nat) returns (first: nat)
    requires i < |rules| && matches(rules[i].pattern, name)
    ensures first <= i && Applies(rules, matches, name, first)
    decreases i
  {
    if j :| 0 <= j < i && matches(rules[j].pattern, name) {
      first := FirstApplying(rules, matches, name, j);
    } else {
      first := i;
    }
  }

  /** Every gitlabPipeline executor of a valid configuration finds its platform. */
  lemma PipelinePlatformExists(c: Config, x: Syntax, i: nat)
    requires ValidConfig(c, x) && i < |c.executors| && c.executors[i].kind == "gitlabPipeline"
    ensures HasPlatform(c.platforms, c.executors[i].platform, "gitlab")
  {
    assert ExecutorOk(c, i, x);
  }

  // ----- reload -----

  /** One SIGHUP: invalid files and changed platforms or executors keep the old
      router; any other accepted file replaces it, and compiling its rules on the
      executors built at startup cannot fail. */
  method Reload<E(!new)>(
    cfg: Config, loaded: Option<Config>, x: Syntax, make: Executor -> E, executors: map<string, E>,
    current: seq<Compiled<E>>) returns (next: seq<Compiled<E>>, rules: seq<Rule>, applied: bool)
    requires executors == Built(cfg.executors, make)
    ensures applied <==>
              loaded.Some? && ValidConfig(loaded.value, x)
              && loaded.value.platforms == cfg.platforms && loaded.value.executors == cfg.executors
    ensures applied ==> CompiledFrom(next, loaded.value.rules, executors) && rules == loaded.value.rules
    ensures !applied ==> next == current && rules == cfg.rules
  {
    next, rules, applied := current, cfg.rules, false;
    if loaded.None? {
      return;
    }
    var newCfg := loaded.value;
    var problem := Validate(newCfg, x);
    if problem.Some? {
      return;
    }
    if newCfg.platforms != cfg.platforms || newCfg.executors != cfg.executors {
      return;
    }
    forall i | 0 <= i < |newCfg.rules| ensures newCfg.rules[i].disabled || newCfg.rules[i].executor in executors {
      assert GoodRule(newCfg.rules[i], newCfg.executors, x);
      BuiltNames(cfg.executors, make, newCfg.rules[i].executor);
    }
    var router := NewRouter(newCfg.rules, executors);
    if router.None? {
      return;
    }
    next, rules, applied := router.value, newCfg.rules, true;
  }

  /** The protocol's view of a compiled router. */
  function AsProtocol(rules: seq<Compiled<string>>, matches: Matcher): Protocol.Router {
    (name: string) =>
      var r := RouteFor(rules, matches, name);
      if r.disabled || r.exec.None? then Protocol.Disabled else Protocol.To(r.exec.value)
  }

  /** The protocol routes a repo as the first configured rule that matches says:
      disabled, or to that rule's executor. */
  lemma ProtocolRoutesByFirstMatch(
    out: seq<Compiled<string>>, rules: seq<Rule>, executors: map<string, string>, matches: Matcher, name: string, i: nat)
    requires CompiledFrom(out, rules, executors) && Applies(rules, matches, name, i)
    ensures AsProtocol(out, matches)(name)
         == if rules[i].disabled then Protocol.Disabled else Protocol.To(executors[rules[i].executor])
  {
    RouteFollowsConfig(out, rules, executors, matches, name);
  }

  // ----- swapping the rules -----

  predicate ReadsRules(step: Protocol.Step) {
    (step.Go? && step.action.Load?) || (step.Env? && step.event.SetRouter?)
  }

  lemma ActionIgnoresRules(s: Protocol.State, rules: Protocol.Router, t: Protocol.Thread, a: Protocol.Action)
    requires Protocol.Ready(s, t, a) && !a.Load?
    ensures Protocol.Ready(s.(router := rules), t, a) && Protocol.Do(s.(router := rules), t, a) == Protocol.Do(s, t, a)
  {
  }

  lemma SwapCommutes(s: Protocol.State, rules: Protocol.Router, step: Protocol.Step)
    requires Protocol.Enabled(s, step) && !ReadsRules(step)
    ensures Protocol.Enabled(s.(router := rules), step)
    ensures Protocol.Apply(s.(router := rules), step) == Protocol.Apply(s, step).(router := rules)
  {
    if step.Go? {
      ActionIgnoresRules(s, rules, s.threads[step.i], step.action);
    }
  }

  /** A reload leaves everything in flight alone: over every run that starts no
      new Enqueue lookup, with any faults, the process with the new rules does
      exactly what it would have done with the old ones. */
  lemma {:induction false} ReloadSparesRuns(s: Protocol.State, rules: Protocol.Router, steps: seq<Protocol.Step>)
    requires Protocol.Legal(s, steps) && forall j :: 0 <= j < |steps| ==> !ReadsRules(steps[j])
    ensures Protocol.Legal(s.(router := rules), steps)
    ensures Protocol.Exec(s.(router := rules), steps) == Protocol.Exec(s, steps).(router := rules)
    decreases |steps|
  {
    if steps != [] {
      SwapCommutes(s, rules, steps[0]);
      ReloadSparesRuns(Protocol.Apply(s, steps[0]), rules, steps[1..]);
    }
  }
}
