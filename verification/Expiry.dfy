/** The protocol over a store whose entries expire. Every write renews the
    lease of its key for the whole seconds of the configured TTL; an entry whose
    lease has run out is gone. */
module Expiry {
  import opened RepoKey
  import opened Store
  import opened Protocol
  import opened Exclusion
  import opened Lifecycle
  import opened Hazards

  const SECOND := 1_000_000_000

  /** Redis is given whole seconds: the rest of the TTL is cut off. */
  function WholeSeconds(ttl: nat): nat {
    ttl / SECOND * SECOND
  }

  /** The longest whole number of seconds within the TTL. */
  lemma WholeSecondsIsFloor(ttl: nat)
    ensures WholeSeconds(ttl) <= ttl < WholeSeconds(ttl) + 1_000_000_000
    ensures exists seconds: nat :: WholeSeconds(ttl) == seconds * 1_000_000_000
    ensures ttl < 1_000_000_000 <==> WholeSeconds(ttl) == 0
  {
    assert WholeSeconds(ttl) == (ttl / SECOND) * 1_000_000_000;
  }

  /** base: the protocol; leases: when each entry expires; stamps: when the
      lease of the current stage of each key's owner was granted (by Queue,
      StartRun or Adopt). */
  datatype Timed = Timed(base: State, leases: Leases, stamps: map<string, int>, ttl: nat)

  datatype Move = Act(step: Step) | Pass(elapsed: nat)

  function BaseStep(m: Move): Step {
    match m
    case Act(step) => step
    case Pass(elapsed) => Env(Tick(elapsed))
  }

  predicate CanMove(x: Timed, m: Move) {
    && Enabled(x.base, BaseStep(m))
    && (m.Act? && m.step.Env? ==> !m.step.event.Tick? && !m.step.event.Expire?)
  }

  /** The store never saw the call of this step. */
  predicate Lost(step: Step) {
    match step
    case Env(Adopt(_, _, f)) => f.LostRequest?
    case Env(Recover(_, f)) => f.LostRequest?
    case Go(_, Queue(f)) => f.LostRequest?
    case Go(_, Start(f)) => f.LostRequest?
    case Go(_, Finish(f)) => f.LostRequest?
    case Go(_, AbortFinish(f)) => f.LostRequest?
    case _ => false
  }

  function NextLeases(x: Timed, step: Step): Leases
    requires Enabled(x.base, step)
  {
    var until := x.base.now + WholeSeconds(x.ttl);
    if Lost(step) then x.leases else
    match step
    case Env(Adopt(repo, _, _)) => AdoptLease(x.leases, repo.Key(), until)
    case Env(Recover(key, _)) => FinishLease(x.leases, key)
    case Go(i, Queue(_)) => QueueLease(x.leases, x.base.threads[i].key, until)
    case Go(i, Start(_)) => StartLease(x.leases, x.base.threads[i].key, until)
    case Go(i, Finish(_)) => FinishLease(x.leases, x.base.threads[i].key)
    case Go(i, AbortFinish(_)) => FinishLease(x.leases, x.base.threads[i].key)
    case _ => x.leases
  }

  /** When the lease that is in force for the key was granted. */
  function Granted(x: Timed, key: string): int {
    if key in x.leases && x.leases[key] - WholeSeconds(x.ttl) < x.base.now
    then x.leases[key] - WholeSeconds(x.ttl) else x.base.now
  }

  /** A lost StartRun leaves its owner with the lease of its Queue, a lost Adopt
      with the lease of the process before. */
  function NextStamps(x: Timed, step: Step): map<string, int>
    requires Enabled(x.base, step)
  {
    match step
    case Env(Adopt(repo, _, _)) => x.stamps[repo.Key() := if Lost(step) then Granted(x, repo.Key()) else x.base.now]
    case Go(i, Queue(_)) =>
      if x.base.threads[i].key in x.base.repos then x.stamps else x.stamps[x.base.threads[i].key := x.base.now]
    case Go(i, Start(_)) => if Lost(step) then x.stamps else x.stamps[x.base.threads[i].key := x.base.now]
    case _ => x.stamps
  }

  /** The state right after the step, before expired entries are dropped. */
  function Written(x: Timed, m: Move): Timed
    requires CanMove(x, m)
  {
    Timed(Apply(x.base, BaseStep(m)), NextLeases(x, BaseStep(m)), NextStamps(x, BaseStep(m)), x.ttl)
  }

  function Expired(x: Timed): set<string> {
    set k | k in x.base.repos && k in x.leases && x.leases[k] <= x.base.now
  }

  function Purge(x: Timed): Timed {
    x.(base := Apply(x.base, Env(Expire(Expired(x)))), leases := x.leases - Expired(x))
  }

  function After(x: Timed, m: Move): Timed
    requires CanMove(x, m)
  {
    Purge(Written(x, m))
  }

  // ----- the timing assumption -----

  /** No stage of an owner has outlived the lease it was given: the wait from
      Queue to StartRun, and the run or adopted wait up to FinishRun, are each
      shorter than the whole-second TTL. Entries that a restart still has to
      recover have not expired either. */
  ghost predicate Prompt(x: Timed) {
    && (forall i :: 0 <= i < |x.base.threads| && Owns(x.base.threads[i]) && x.base.threads[i].key in x.stamps ==>
                      x.base.now < x.stamps[x.base.threads[i].key] + WholeSeconds(x.ttl))
    && (forall k :: k in x.base.recover && k in x.leases ==> x.base.now < x.leases[k])
  }

  /** The lease of the key covers the stage its owner is in. */
  predicate Leased(x: Timed, key: string) {
    key in x.stamps && key in x.leases && x.stamps[key] + WholeSeconds(x.ttl) <= x.leases[key]
  }

  ghost predicate TimedInv(x: Timed) {
    && FailClosed(x.base)
    && (forall k :: k in x.leases <==> k in x.base.repos)
    && (forall k :: k in x.stamps ==> x.stamps[k] <= x.base.now)
    && (forall i :: 0 <= i < |x.base.threads| && Owns(x.base.threads[i]) ==> Leased(x, x.base.threads[i].key))
  }

  /** Leases and stamps of one key across a step. */
  predicate LeaseStep(x: Timed, y: Timed, key: string) {
    && (key in y.leases <==> key in y.base.repos)
    && (key in y.stamps ==> y.stamps[key] <= y.base.now)
    && (Leased(x, key) && key in y.leases ==> Leased(y, key))
  }

  lemma ActionElsewhere(x: Timed, i: nat, a: Action, key: string)
    requires CanMove(x, Act(Go(i, a))) && (key in x.leases <==> key in x.base.repos)
    requires (key in x.stamps ==> x.stamps[key] <= x.base.now) && key != x.base.threads[i].key
    ensures LeaseStep(x, Written(x, Act(Go(i, a))), key)
  {
    ActionOnlyKey(x.base, x.base.threads[i], a);
  }

  lemma ActionLease(x: Timed, i: nat, a: Action, key: string)
    requires CanMove(x, Act(Go(i, a))) && (key in x.leases <==> key in x.base.repos)
    requires key in x.stamps ==> x.stamps[key] <= x.base.now
    ensures var y, t := Written(x, Act(Go(i, a))), x.base.threads[i];
            && LeaseStep(x, y, key)
            && (key == t.key && !Owns(t) && Owns(y.base.threads[i]) ==> Leased(y, key))
  {
    assert Written(x, Act(Go(i, a))).base.threads[i] == Do(x.base, x.base.threads[i], a).thread;
    if key != x.base.threads[i].key {
      ActionElsewhere(x, i, a, key);
    }
  }

  lemma AdoptLeases(x: Timed, repo: Repo, resume: bool, f: Fault, key: string)
    requires (key in x.leases <==> key in x.base.repos) && (key in x.stamps ==> x.stamps[key] <= x.base.now)
    requires Benign(x.base, Env(Adopt(repo, resume, f)))
    ensures var y := Written(x, Act(Env(Adopt(repo, resume, f))));
            LeaseStep(x, y, key) && (repo.Key() == key ==> Leased(y, key))
  {
  }

  lemma EventLease(x: Timed, m: Move, key: string)
    requires CanMove(x, m) && BaseStep(m).Env? && (key in x.leases <==> key in x.base.repos)
    requires (key in x.stamps ==> x.stamps[key] <= x.base.now) && !BaseStep(m).event.Adopt?
    ensures LeaseStep(x, Written(x, m), key)
  {
  }

  lemma MoveLease(x: Timed, m: Move, key: string)
    requires CanMove(x, m) && Benign(x.base, BaseStep(m)) && (key in x.leases <==> key in x.base.repos)
    requires key in x.stamps ==> x.stamps[key] <= x.base.now
    ensures LeaseStep(x, Written(x, m), key)
  {
    match BaseStep(m)
    case Env(Adopt(repo, resume, f)) => AdoptLeases(x, repo, resume, f, key);
    case Env(_) => EventLease(x, m, key);
    case Go(i, a) => ActionLease(x, i, a, key);
  }

  lemma WrittenOwner(x: Timed, m: Move, j: nat)
    requires TimedInv(x) && CanMove(x, m) && Benign(x.base, BaseStep(m)) && FailClosed(Written(x, m).base)
    requires var y := Written(x, m); j < |y.base.threads| && Owns(y.base.threads[j])
    ensures var y := Written(x, m); Leased(y, y.base.threads[j].key)
  {
    var y, s := Written(x, m), x.base;
    var key := y.base.threads[j].key;
    assert key in y.base.repos;
    MoveLease(x, m, key);
    match BaseStep(m)
    case Env(e) =>
      assert j < |s.threads| ==> y.base.threads[j] == s.threads[j];
      if e.Adopt? {
        AdoptLeases(x, e.repo, e.resume, e.fault, key);
      }
    case Go(i, a) =>
      ActionLease(x, i, a, key);
      ActionOwnerEffect(s, s.threads[i], a);
      assert j < |s.threads| && j != i ==> y.base.threads[j] == s.threads[j];
  }

  lemma LeaseSteps(x: Timed, m: Move)
    requires TimedInv(x) && CanMove(x, m) && Benign(x.base, BaseStep(m))
    ensures var y := Written(x, m); forall k :: LeaseStep(x, y, k)
  {
    forall k ensures LeaseStep(x, Written(x, m), k) {
      MoveLease(x, m, k);
    }
  }

  /** What a write establishes: the lease of an owner covers its stage. */
  lemma WrittenKeeps(x: Timed, m: Move)
    requires TimedInv(x) && CanMove(x, m) && Benign(x.base, BaseStep(m))
    ensures TimedInv(Written(x, m))
  {
    FailClosedStep(x.base, BaseStep(m));
    LeaseSteps(x, m);
    forall j | 0 <= j < |Written(x, m).base.threads| && Owns(Written(x, m).base.threads[j])
      ensures Leased(Written(x, m), Written(x, m).base.threads[j].key)
    {
      WrittenOwner(x, m, j);
    }
    LeasesKeep(x, Written(x, m));
  }

  lemma LeasesKeep(x: Timed, y: Timed)
    requires FailClosed(y.base) && forall k :: LeaseStep(x, y, k)
    requires forall i :: 0 <= i < |y.base.threads| && Owns(y.base.threads[i]) ==> Leased(y, y.base.threads[i].key)
    ensures TimedInv(y)
  {
    forall k ensures k in y.leases <==> k in y.base.repos {
      assert LeaseStep(x, y, k);
    }
    forall k | k in y.stamps ensures y.stamps[k] <= y.base.now {
      assert LeaseStep(x, y, k);
    }
  }

  /** Under the timing assumption nothing that is owned, or still to be
      recovered, ever expires. */
  lemma PurgeKeeps(x: Timed)
    requires TimedInv(x) && Prompt(x)
    ensures Expired(x) <= Unowned(x.base)
    ensures Benign(x.base, Env(Expire(Expired(x)))) && TimedInv(Purge(x))
  {
    forall k | k in Expired(x) ensures !Owned(x.base, k) && k !in x.base.recover {
      assert forall i :: 0 <= i < |x.base.threads| && Owns(x.base.threads[i]) ==> Leased(x, x.base.threads[i].key);
    }
    FailClosedStep(x.base, Env(Expire(Expired(x))));
    var y := Purge(x);
    forall i | 0 <= i < |y.base.threads| && Owns(y.base.threads[i]) ensures Leased(y, y.base.threads[i].key) {
      assert y.base.threads[i] == x.base.threads[i] && Leased(x, x.base.threads[i].key);
      assert Owned(x.base, x.base.threads[i].key);
    }
  }

  /** A process that starts over stored entries with live leases. */
  lemma BootTimed(repos: Repos, handles: map<string, string>, leases: Leases, max: nat, router: Router, ttl: nat)
    requires leases.Keys == repos.Keys
    ensures TimedInv(Timed(Boot(repos, handles, max, router), leases, map[], ttl))
  {
  }

  // ----- whole runs -----

  ghost predicate PromptRun(x: Timed, moves: seq<Move>)
    decreases |moves|
  {
    moves == [] ||
    (&& CanMove(x, moves[0]) && Benign(x.base, BaseStep(moves[0])) && Prompt(Written(x, moves[0]))
     && PromptRun(After(x, moves[0]), moves[1..]))
  }

  /** Moreover no call fails, and no entry expires before its handle. */
  ghost predicate CleanMoves(x: Timed, moves: seq<Move>)
    requires PromptRun(x, moves)
    decreases |moves|
  {
    moves == [] ||
    (&& Clean(x.base, BaseStep(moves[0])) && Expired(Written(x, moves[0])) !! Written(x, moves[0]).base.handles.Keys
     && CleanMoves(After(x, moves[0]), moves[1..]))
  }

  function ExecTimed(x: Timed, moves: seq<Move>): Timed
    requires LegalTimed(x, moves)
    decreases |moves|
  {
    if moves == [] then x else ExecTimed(After(x, moves[0]), moves[1..])
  }

  predicate LegalTimed(x: Timed, moves: seq<Move>)
    decreases |moves|
  {
    moves == [] || (CanMove(x, moves[0]) && LegalTimed(After(x, moves[0]), moves[1..]))
  }

  /** Under the timing assumption, with store calls failing in any way, the
      store with expiry does what the store without it does: every timed run
      projects to a benign run of the protocol (to a clean one if no call
      fails) that drops only entries nobody owns; so one owner per repo, and
      never two runs of a repo in flight. */
  lemma {:induction false} TimedExclusion(x: Timed, moves: seq<Move>) returns (steps: seq<Step>)
    requires TimedInv(x) && PromptRun(x, moves)
    ensures LegalTimed(x, moves) && TimedInv(ExecTimed(x, moves))
    ensures BenignRun(x.base, steps) && Legal(x.base, steps) && (CleanMoves(x, moves) ==> CleanRun(x.base, steps))
    ensures ExecTimed(x, moves).base == Exec(x.base, steps)
    ensures Exclusive(ExecTimed(x, moves).base)
    decreases |moves|
  {
    if moves == [] {
      steps := [];
      FailClosedExclusive(x.base);
    } else {
      WrittenKeeps(x, moves[0]);
      var w := Written(x, moves[0]);
      PurgeKeeps(w);
      var rest := TimedExclusion(Purge(w), moves[1..]);
      steps := TwoSteps(x.base, BaseStep(moves[0]), Env(Expire(Expired(w))), rest);
    }
  }

  lemma TwoSteps(s: State, a: Step, b: Step, rest: seq<Step>) returns (steps: seq<Step>)
    requires Enabled(s, a) && Benign(s, a)
    requires var s1 := Apply(s, a);
             Enabled(s1, b) && Benign(s1, b) && BenignRun(Apply(s1, b), rest) && Legal(Apply(s1, b), rest)
    ensures var s1 := Apply(s, a);
            && BenignRun(s, steps) && Legal(s, steps) && Exec(s, steps) == Exec(Apply(s1, b), rest)
            && (Clean(s, a) && Clean(s1, b) && CleanRun(Apply(s1, b), rest) ==> CleanRun(s, steps))
  {
    var s1, tail := Apply(s, a), [b] + rest;
    assert tail[1..] == rest;
    assert BenignRun(s1, tail) && Legal(s1, tail) && Exec(s1, tail) == Exec(Apply(s1, b), rest);
    assert Clean(s1, b) && CleanRun(Apply(s1, b), rest) ==> CleanRun(s1, tail);
    steps := [a] + tail;
    assert steps[1..] == tail;
  }

  // ----- the other direction: a stale lock heals -----

  predicate Writes(x: Timed, m: Move, key: string)
    requires CanMove(x, m)
  {
    !Lost(BaseStep(m)) &&
    match BaseStep(m)
    case Env(Adopt(repo, _, _)) => repo.Key() == key
    case Env(Recover(k, _)) => k == key
    case Go(i, Queue(_)) => x.base.threads[i].key == key
    case Go(i, Start(_)) => x.base.threads[i].key == key
    case Go(i, Finish(_)) => x.base.threads[i].key == key
    case Go(i, AbortFinish(_)) => x.base.threads[i].key == key
    case _ => false
  }

  predicate QuietRun(x: Timed, moves: seq<Move>, key: string)
    decreases |moves|
  {
    moves == [] ||
    (CanMove(x, moves[0]) && !Writes(x, moves[0], key) && QuietRun(After(x, moves[0]), moves[1..], key))
  }

  /** The entry has either expired or kept its lease. */
  predicate KeepsLease(x: Timed, key: string, until: nat) {
    key in x.base.repos ==> key in x.leases && x.leases[key] == until && x.base.now < until
  }

  lemma QuietWrite(x: Timed, m: Move, key: string, until: nat)
    requires CanMove(x, m) && !Writes(x, m, key) && KeepsLease(x, key, until)
    ensures var w := Written(x, m); key in w.base.repos ==> key in w.leases && w.leases[key] == until
  {
    if BaseStep(m).Go? {
      var i, a := BaseStep(m).i, BaseStep(m).action;
      ActionOnlyKey(x.base, x.base.threads[i], a);
    }
  }

  lemma QuietMove(x: Timed, m: Move, key: string, until: nat)
    requires CanMove(x, m) && !Writes(x, m, key) && KeepsLease(x, key, until)
    ensures KeepsLease(After(x, m), key, until)
  {
    QuietWrite(x, m, key, until);
  }

  /** An entry whose key sees no write until its lease has run out is gone,
      whoever owned it, and the next Queue starts afresh. */
  lemma {:induction false} QuietEntryExpires(x: Timed, moves: seq<Move>, key: string)
    requires QuietRun(x, moves, key) && key in x.leases && x.base.now < x.leases[key]
    ensures LegalTimed(x, moves)
    ensures var y := ExecTimed(x, moves);
            y.base.now >= x.leases[key] ==>
              && key !in y.base.repos
              && forall reason, now :: QueueRepo(y.base.repos, key, reason, now).1 == Queued
  {
    QuietRunKeepsLease(x, moves, key, x.leases[key]);
  }

  lemma {:induction false} QuietRunKeepsLease(x: Timed, moves: seq<Move>, key: string, until: nat)
    requires QuietRun(x, moves, key) && KeepsLease(x, key, until)
    ensures LegalTimed(x, moves) && KeepsLease(ExecTimed(x, moves), key, until)
    decreases |moves|
  {
    if moves != [] {
      QuietMove(x, moves[0], key, until);
      QuietRunKeepsLease(After(x, moves[0]), moves[1..], key, until);
    }
  }

  // ----- and only a quiet one does -----

  /** The step is a Queue for the key that reached the store. */
  predicate Feeds(x: Timed, m: Move, key: string)
    requires CanMove(x, m)
  {
    match BaseStep(m)
    case Go(i, Queue(f)) => x.base.threads[i].key == key && !f.LostRequest?
    case _ => false
  }

  /** The step is a FinishRun for the key that reached the store. */
  predicate Removes(x: Timed, m: Move, key: string)
    requires CanMove(x, m)
  {
    match BaseStep(m)
    case Env(Recover(k, f)) => k == key && !f.LostRequest?
    case Go(i, Finish(f)) => x.base.threads[i].key == key && !f.LostRequest?
    case Go(i, AbortFinish(f)) => x.base.threads[i].key == key && !f.LostRequest?
    case _ => false
  }

  /** Every Queue that reaches the store gives the key the full lease, whether or
      not it was stored, whoever owns it and whatever the answer. */
  lemma QueueRenews(x: Timed, m: Move, key: string)
    requires CanMove(x, m) && Feeds(x, m, key)
    ensures var w := Written(x, m); key in w.leases && w.leases[key] == x.base.now + WholeSeconds(x.ttl)
  {
  }

  /** Never a whole lease goes by without a Queue for the key that reaches the
      store; the last one was at fed. */
  predicate FedRun(x: Timed, moves: seq<Move>, key: string, fed: nat)
    decreases |moves|
  {
    moves == [] ||
    (&& CanMove(x, moves[0]) && !Removes(x, moves[0], key)
     && var fed' := if Feeds(x, moves[0], key) then x.base.now else fed;
        && Written(x, moves[0]).base.now < fed' + WholeSeconds(x.ttl)
        && FedRun(After(x, moves[0]), moves[1..], key, fed'))
  }

  /** The entry is there with a lease counted from fed or later. */
  predicate Fed(x: Timed, key: string, fed: nat) {
    && key in x.base.repos && key in x.leases && fed <= x.base.now && fed + WholeSeconds(x.ttl) <= x.leases[key]
  }

  lemma FedWrite(x: Timed, m: Move, key: string, fed: nat)
    requires CanMove(x, m) && !Removes(x, m, key) && Fed(x, key, fed)
    ensures Fed(Written(x, m), key, if Feeds(x, m, key) then x.base.now else fed)
  {
    if BaseStep(m).Go? {
      var i, a := BaseStep(m).i, BaseStep(m).action;
      ActionOnlyKey(x.base, x.base.threads[i], a);
      FedAction(x, i, a, key);
    }
  }

  lemma FedAction(x: Timed, i: nat, a: Action, key: string)
    requires CanMove(x, Act(Go(i, a))) && !Removes(x, Act(Go(i, a)), key) && key in x.base.repos
    ensures key in Do(x.base, x.base.threads[i], a).repos
  {
  }

  /** The other half of healing: an entry for which a Queue reaches the store at
      least once within every lease never expires, owned or not, however long the
      run. So a stale lock heals after a quiet lease, and not before. */
  lemma {:induction false} FedEntryStays(x: Timed, moves: seq<Move>, key: string, fed: nat)
    requires Fed(x, key, fed) && FedRun(x, moves, key, fed)
    ensures LegalTimed(x, moves) && key in ExecTimed(x, moves).base.repos
    decreases |moves|
  {
    if moves != [] {
      FedWrite(x, moves[0], key, fed);
      var w := Written(x, moves[0]);
      assert key !in Expired(w);
      FedEntryStays(Purge(w), moves[1..], key, if Feeds(x, moves[0], key) then x.base.now else fed);
    }
  }

  /** So the timing assumption is needed: an owner whose key sees no write until
      the lease has run out can be doubled by one more event. */
  lemma OverrunDoubles(x: Timed, moves: seq<Move>, i: nat)
    requires LegalTimed(x, moves) && Doubles(ExecTimed(x, moves).base, i)
    requires var y := ExecTimed(x, moves).base;
             var key := y.threads[i].key;
             && key in x.leases && x.base.now < x.leases[key] <= y.now && QuietRun(x, moves, key)
             && y.permits + Needs(y.threads[i]) + 1 <= y.max
    ensures CanDouble(ExecTimed(x, moves).base)
  {
    var y := ExecTimed(x, moves).base;
    QuietEntryExpires(x, moves, y.threads[i].key);
    MissingEntryDoubles(y, i);
  }

  /** And a TTL below one second gives no lock at all: the entry is gone as soon
      as it is written, although its writer has been told to run; one more event
      can double that run. */
  lemma SubSecondTtlNeverLocks(x: Timed, i: nat)
    requires CanMove(x, Act(Go(i, Queue(NoFault)))) && x.ttl < SECOND && x.base.threads[i].key !in x.base.repos
    ensures var y, key := After(x, Act(Go(i, Queue(NoFault)))).base, x.base.threads[i].key;
            && Owned(y, key) && key !in y.repos && !FailClosed(y)
            && (Keyed(y) && AllEnabled(y.router) && y.permits + 2 <= y.max ==> CanDouble(y))
  {
    var m, key := Act(Go(i, Queue(NoFault))), x.base.threads[i].key;
    var y := After(x, m).base;
    assert WholeSeconds(x.ttl) == 0;
    assert key in Expired(Written(x, m));
    assert Owns(y.threads[i]) && y.threads[i].key == key;
    if Keyed(y) && AllEnabled(y.router) && y.permits + 2 <= y.max {
      MissingEntryDoubles(y, i);
    }
  }
}
