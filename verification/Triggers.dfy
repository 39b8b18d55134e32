/** What becomes of every accepted event: no trigger is lost, none is counted
    twice, and any number of events during a run make exactly one follow-up. */
module Triggers {
  import opened RepoKey
  import opened Store
  import opened Protocol
  import opened Exclusion
  import opened Lifecycle
  import opened Capacity
  import opened Progress

  // ----- counting observations -----

  /** How often each observation was made for one key. */
  datatype Tally = Tally(
    external: nat,    // Queue calls by callers of Enqueue
    won: nat,         // Queue answered Queued
    merged: nat,      // Queue answered Coalesced
    duplicates: nat,  // Queue answered Deferred and the rerun flag was already set
    dropped: nat,     // rerun tokens refused by the rules
    spawned: nat, began: nat, cancelled: nat)

  function Add(c: Tally, o: Obs, key: string): Tally {
    if o.key != key then c else
    match o
    case Asked(_, external, result, again) =>
      c.(external := c.external + (if external then 1 else 0),
         won := c.won + (if result.Queued? then 1 else 0),
         merged := c.merged + (if result.Coalesced? then 1 else 0),
         duplicates := c.duplicates + (if result.Deferred? && again then 1 else 0))
    case Dropped(_, _) => c.(dropped := c.dropped + 1)
    case Spawned(_) => c.(spawned := c.spawned + 1)
    case Began(_, _, _) => c.(began := c.began + 1)
    case Cancelled(_) => c.(cancelled := c.cancelled + 1)
    case Ended(_, _) => c
  }

  function Count(log: seq<Obs>, key: string): Tally {
    if log == [] then Tally(0, 0, 0, 0, 0, 0, 0, 0)
    else Add(Count(log[..|log| - 1], key), log[|log| - 1], key)
  }

  function CountNote(c: Tally, note: Option<Obs>, key: string): Tally {
    if note.Some? then Add(c, note.value, key) else c
  }

  lemma CountTake(s: State, i: nat, e: Effect, key: string)
    requires i < |s.threads|
    ensures Count(Take(s, i, e).log, key) == CountNote(Count(s.log, key), e.note, key)
  {
  }

  // ----- the books -----

  /** A finished run on its way back into Enqueue. */
  predicate HoldsToken(t: Thread) {
    !t.kind.External? && (t.phase.Routing? || t.phase.Routed?)
  }

  /** A spawned run that has not called StartRun yet. */
  predicate NotBegun(t: Thread) {
    t.phase.Debouncing? || t.phase.Waiting? || t.phase.Aborting? || t.phase.Holding?
  }

  function TokenOf(key: string): Thread -> nat {
    (t: Thread) => if t.key == key && HoldsToken(t) then 1 else 0
  }

  function SpawningOf(key: string): Thread -> nat {
    (t: Thread) => if t.key == key && t.phase.Spawning? then 1 else 0
  }

  function NotBegunOf(key: string): Thread -> nat {
    (t: Thread) => if t.key == key && NotBegun(t) then 1 else 0
  }

  function Childs(e: Effect, w: Thread -> nat): nat {
    if e.child.Some? then w(e.child.value) else 0
  }

  /** External triggers not accounted for by a run, a merge, a duplicate, the
      rerun flag, a token under way or a refused token. */
  function TriggerGap(s: State, key: string): int {
    var c := Count(s.log, key);
    c.external - (c.won + c.merged + c.duplicates + c.dropped
                  + Flag(s.repos, key) + Sum(s.threads, TokenOf(key)))
  }

  /** Queued answers not followed by a goroutine. */
  function SpawnGap(s: State, key: string): int {
    var c := Count(s.log, key);
    c.won - (c.spawned + Sum(s.threads, SpawningOf(key)))
  }

  /** Goroutines that neither began nor were cancelled nor are waiting to begin. */
  function RunGap(s: State, key: string): int {
    var c := Count(s.log, key);
    c.spawned - (c.began + c.cancelled + Sum(s.threads, NotBegunOf(key)))
  }

  predicate SameBooks(s: State, s': State, key: string) {
    TriggerGap(s', key) == TriggerGap(s, key) && SpawnGap(s', key) == SpawnGap(s, key) && RunGap(s', key) == RunGap(s, key)
  }

  // The three books within one effect, for one key.

  predicate TriggersBalance(s: State, t: Thread, e: Effect, c: Tally, key: string) {
    var c', token := CountNote(c, e.note, key), TokenOf(key);
    c'.external - (c'.won + c'.merged + c'.duplicates + c'.dropped)
    == c.external - (c.won + c.merged + c.duplicates + c.dropped)
       + Flag(e.repos, key) - Flag(s.repos, key) + token(e.thread) + Childs(e, token) - token(t)
  }

  predicate SpawnsBalance(t: Thread, e: Effect, c: Tally, key: string) {
    var c', spawning := CountNote(c, e.note, key), SpawningOf(key);
    c'.won - c'.spawned == c.won - c.spawned + spawning(e.thread) + Childs(e, spawning) - spawning(t)
  }

  predicate RunsBalance(t: Thread, e: Effect, c: Tally, key: string) {
    var c', waiting := CountNote(c, e.note, key), NotBegunOf(key);
    c'.spawned - (c'.began + c'.cancelled)
    == c.spawned - (c.began + c.cancelled) + waiting(e.thread) + Childs(e, waiting) - waiting(t)
  }

  lemma ActionTriggers(s: State, i: nat, a: Action, c: Tally)
    requires Enabled(s, Go(i, a)) && FaultFree(Go(i, a)) && Shape(s.threads[i])
    requires Sane(s.repos, s.handles, s.threads[i].key)
    requires Owns(s.threads[i]) ==> Agrees(s.repos, s.handles, s.threads[i])
    ensures TriggersBalance(s, s.threads[i], Do(s, s.threads[i], a), c, s.threads[i].key)
  {
  }

  lemma ActionRuns(s: State, i: nat, a: Action, c: Tally)
    requires Enabled(s, Go(i, a)) && FaultFree(Go(i, a)) && Shape(s.threads[i])
    ensures var t, e := s.threads[i], Do(s, s.threads[i], a);
            SpawnsBalance(t, e, c, t.key) && RunsBalance(t, e, c, t.key)
  {
  }

  /** An action leaves the books of every other key alone. */
  lemma ActionElsewhere(s: State, t: Thread, a: Action, c: Tally, key: string)
    requires Ready(s, t, a) && key != t.key
    ensures var e := Do(s, t, a);
            TriggersBalance(s, t, e, c, key) && SpawnsBalance(t, e, c, key) && RunsBalance(t, e, c, key)
  {
    var e := Do(s, t, a);
    assert e.thread.key == t.key && (e.child.Some? ==> e.child.value.key == t.key);
    assert e.note.Some? ==> e.note.value.key == t.key;
    assert Flag(e.repos, key) == Flag(s.repos, key);
  }

  lemma TakeTriggers(s: State, i: nat, e: Effect, key: string)
    requires i < |s.threads| && TriggersBalance(s, s.threads[i], e, Count(s.log, key), key)
    ensures TriggerGap(Take(s, i, e), key) == TriggerGap(s, key)
  {
    SumTake(s, i, e, TokenOf(key));
    CountTake(s, i, e, key);
  }

  lemma TakeSpawns(s: State, i: nat, e: Effect, key: string)
    requires i < |s.threads| && SpawnsBalance(s.threads[i], e, Count(s.log, key), key)
    ensures SpawnGap(Take(s, i, e), key) == SpawnGap(s, key)
  {
    SumTake(s, i, e, SpawningOf(key));
    CountTake(s, i, e, key);
  }

  lemma TakeRuns(s: State, i: nat, e: Effect, key: string)
    requires i < |s.threads| && RunsBalance(s.threads[i], e, Count(s.log, key), key)
    ensures RunGap(Take(s, i, e), key) == RunGap(s, key)
  {
    SumTake(s, i, e, NotBegunOf(key));
    CountTake(s, i, e, key);
  }

  lemma ActionSameBooks(s: State, i: nat, a: Action, key: string)
    requires InvFor(s, key) && Shaped(s) && Enabled(s, Go(i, a)) && Faultless(s, Go(i, a), key)
    ensures SameBooks(s, Apply(s, Go(i, a)), key)
  {
    var t, c := s.threads[i], Count(s.log, key);
    if key == t.key {
      ActionTriggers(s, i, a, c);
      ActionRuns(s, i, a, c);
    } else {
      ActionElsewhere(s, t, a, c, key);
    }
    TakeTriggers(s, i, Do(s, t, a), key);
    TakeSpawns(s, i, Do(s, t, a), key);
    TakeRuns(s, i, Do(s, t, a), key);
  }

  /** The step does not let a flagged entry of the key expire. */
  predicate Lasts(s: State, step: Step, key: string) {
    step.Env? && step.event.Expire? && key in step.event.keys ==> !Pending(s.repos, key)
  }

  lemma EventFlag(s: State, e: Event, key: string)
    requires InvFor(s, key) && CanHappen(s, e) && CleanFor(s, Env(e), key) && Lasts(s, Env(e), key)
    ensures Flag(Happen(s, e).repos, key) == Flag(s.repos, key)
    ensures Happen(s, e).log == s.log
  {
  }

  lemma EventSums(s: State, e: Event, key: string)
    requires CanHappen(s, e)
    ensures var ts := Happen(s, e).threads;
            && Sum(ts, TokenOf(key)) == Sum(s.threads, TokenOf(key))
            && Sum(ts, SpawningOf(key)) == Sum(s.threads, SpawningOf(key))
            && Sum(ts, NotBegunOf(key)) == Sum(s.threads, NotBegunOf(key))
  {
    SumHappen(s, e, TokenOf(key));
    SumHappen(s, e, SpawningOf(key));
    SumHappen(s, e, NotBegunOf(key));
  }

  lemma EventSameBooks(s: State, e: Event, key: string)
    requires InvFor(s, key) && CanHappen(s, e) && CleanFor(s, Env(e), key) && Lasts(s, Env(e), key)
    ensures SameBooks(s, Happen(s, e), key)
  {
    EventFlag(s, e, key);
    EventSums(s, e, key);
  }

  /** Every step that is clean for a key conserves its books, whatever fails for
      other keys: what an external caller puts in comes out as exactly one run,
      merge, duplicate, flag, token or refusal. */
  lemma BooksStep(s: State, step: Step, key: string)
    requires InvFor(s, key) && Shaped(s) && Enabled(s, step) && CleanFor(s, step, key) && Lasts(s, step, key)
    ensures SameBooks(s, Apply(s, step), key)
  {
    match step
    case Env(e) => EventSameBooks(s, e, key);
    case Go(i, a) => ActionSameBooks(s, i, a, key);
  }

  // ----- no trigger is lost -----

  /** The observation settles the event that was accepted at position n of the
      log: a run began, the owner was cancelled, or the rules refused a rerun
      token that was handed out after the event. */
  predicate Settles(o: Obs, n: nat, key: string) {
    o.key == key && (o.Began? || o.Cancelled? || (o.Dropped? && o.minted > n))
  }

  ghost predicate Settled(log: seq<Obs>, n: nat, key: string) {
    exists j :: n < j < |log| && Settles(log[j], n, key)
  }

  /** The goroutine will settle it: an owner yet to begin, or a rerun token
      handed out after the event. */
  predicate Covers(t: Thread, n: nat, key: string) {
    t.key == key && ((Owns(t) && !Started(t)) || (HoldsToken(t) && t.minted > n))
  }

  ghost predicate Covered(s: State, n: nat, key: string) {
    Pending(s.repos, key) || exists i :: 0 <= i < |s.threads| && Covers(s.threads[i], n, key)
  }

  // A repo that was left queued comes back through the recovery loop. Where
  // `back` is set, that counts as well; the rules must then want the repo.

  /** The rules let the repo of a recovered key run. */
  predicate Wanted(router: Router, key: string) {
    SplitKey(key).Some? && router(SplitKey(key).value.fullName).To?
  }

  predicate StaysWanted(step: Step, key: string) {
    step.Env? && step.event.SetRouter? ==> Wanted(step.event.router, key)
  }

  /** A caller that will get to Queue, if the rules want the repo. */
  predicate OnItsWay(t: Thread, key: string) {
    t.key == key && (t.phase.Routed? || (t.phase.Routing? && SplitKey(key) == Some(t.repo)))
  }

  ghost predicate Returning(s: State, key: string) {
    key in s.recover || exists i :: 0 <= i < |s.threads| && OnItsWay(s.threads[i], key)
  }

  /** The event at position n is settled, or its run is still to come. */
  ghost predicate Minded(s: State, n: nat, key: string, back: bool) {
    Settled(s.log, n, key) || Covered(s, n, key) || (back && Returning(s, key))
  }

  ghost predicate NothingLost(s: State, key: string, back: bool) {
    forall n :: 0 <= n < |s.log| && s.log[n].Asked? && s.log[n].key == key ==> Minded(s, n, key, back)
  }

  /** No stale queued entry for the key: if it is stored and nobody owns it, an
      earlier process left it running, or recovery will visit it. */
  ghost predicate Sound(s: State, key: string, back: bool) {
    && InvFor(s, key) && Capped(s)
    && (key in Unowned(s) ==> Running(s.repos, key) || (back && key in s.recover))
    && (back ==> Wanted(s.router, key))
  }

  lemma SoundStep(s: State, step: Step, key: string, back: bool)
    requires Sound(s, key, back) && Enabled(s, step) && CleanFor(s, step, key) && (back ==> StaysWanted(step, key))
    ensures Sound(Apply(s, step), key, back)
  {
    InvForStep(s, step, key);
    CappedStep(s, step);
    OnlyFaultsOrphan(s, step, key);
    if key in Unowned(Apply(s, step)) && Running(s.repos, key) {
      StaysRunning(s, step, key);
    }
  }

  lemma StaysRunning(s: State, step: Step, key: string)
    requires InvFor(s, key) && Enabled(s, step) && Faultless(s, step, key) && key in Unowned(s) && Running(s.repos, key)
    ensures key in Apply(s, step).repos ==> Running(Apply(s, step).repos, key)
  {
    if step.Go? {
      var i, a := step.i, step.action;
      ActionOnlyKey(s, s.threads[i], a);
      if s.threads[i].key == key {
        ActionCleanEffect(s, i, a);
      }
    }
  }

  /** The event at position n is in good hands after the effect: settled,
      flagged, covered, or merged into an entry that waits for its run. */
  predicate Kept(s: State, t: Thread, e: Effect, n: nat, key: string) {
    || Pending(e.repos, key)
    || Covers(e.thread, n, key)
    || (e.child.Some? && Covers(e.child.value, n, key))
    || (e.note.Some? && n < |s.log| && Settles(e.note.value, n, key))
    || (key in s.repos && !Running(s.repos, key) && !Owns(t))
  }

  lemma ActionKeeps(s: State, i: nat, a: Action, n: nat)
    requires Enabled(s, Go(i, a)) && FaultFree(Go(i, a)) && Shape(s.threads[i])
    requires Sane(s.repos, s.handles, s.threads[i].key)
    requires Owns(s.threads[i]) ==> Agrees(s.repos, s.handles, s.threads[i])
    requires n <= |s.log|
    ensures var t, e := s.threads[i], Do(s, s.threads[i], a);
            && (n < |s.log| && (Covers(t, n, t.key) || Pending(s.repos, t.key)) ==> Kept(s, t, e, n, t.key))
            && (e.note.Some? && e.note.value.Asked? ==> Kept(s, t, e, n, t.key))
  {
  }

  lemma KeptIsMinded(s: State, i: nat, e: Effect, n: nat, key: string, back: bool)
    requires Sound(s, key, back) && i < |s.threads| && n <= |s.log| && Kept(s, s.threads[i], e, n, key)
    ensures Minded(Take(s, i, e), n, key, back)
  {
    var s' := Take(s, i, e);
    assert s'.threads[i] == e.thread;
    if e.child.Some? {
      assert s'.threads[|s.threads|] == e.child.value;
    }
    if e.note.Some? {
      assert s'.log[|s.log|] == e.note.value;
    }
    if key in s.repos && !Running(s.repos, key) && !Owns(s.threads[i]) && key !in Unowned(s) {
      var j :| 0 <= j < |s.threads| && Owns(s.threads[j]) && s.threads[j].key == key;
      assert Agrees(s.repos, s.handles, s.threads[j]);
      assert Covers(s'.threads[j], n, key);
    }
  }

  /** A caller on its way stays on its way until Queue has answered it. */
  lemma ActionReturns(s: State, i: nat, a: Action, key: string)
    requires Enabled(s, Go(i, a)) && OnItsWay(s.threads[i], key) && Wanted(s.router, key)
    ensures var e := Do(s, s.threads[i], a); OnItsWay(e.thread, key) || (e.note.Some? && e.note.value.Asked?)
  {
  }

  lemma ReturningAction(s: State, i: nat, a: Action, n: nat, key: string)
    requires Sound(s, key, true) && Returning(s, key) && n <= |s.log|
    requires Enabled(s, Go(i, a)) && Faultless(s, Go(i, a), key)
    ensures Minded(Apply(s, Go(i, a)), n, key, true)
  {
    var s', t, e := Apply(s, Go(i, a)), s.threads[i], Do(s, s.threads[i], a);
    if key !in s.recover {
      var j :| 0 <= j < |s.threads| && OnItsWay(s.threads[j], key);
      if j != i {
        assert s'.threads[j] == s.threads[j];
      } else {
        ActionReturns(s, i, a, key);
        assert s'.threads[i] == e.thread;
        if !OnItsWay(e.thread, key) {
          ActionKeeps(s, i, a, n);
          KeptIsMinded(s, i, e, n, key, true);
        }
      }
    }
  }

  lemma ActionMinds(s: State, i: nat, a: Action, n: nat, key: string, back: bool)
    requires Sound(s, key, back) && NothingLost(s, key, back) && Enabled(s, Go(i, a)) && Faultless(s, Go(i, a), key)
    requires var s' := Apply(s, Go(i, a)); n < |s'.log| && s'.log[n].Asked? && s'.log[n].key == key
    ensures Minded(Apply(s, Go(i, a)), n, key, back)
  {
    var s', t, e := Apply(s, Go(i, a)), s.threads[i], Do(s, s.threads[i], a);
    if n == |s.log| {
      NewEventMinded(s, i, a, key, back);
    } else {
      assert s.log[n] == s'.log[n] && Minded(s, n, key, back);
      if back && Returning(s, key) {
        ReturningAction(s, i, a, n, key);
      } else {
        OldEventMinded(s, i, a, n, key, back);
      }
    }
  }

  lemma NewEventMinded(s: State, i: nat, a: Action, key: string, back: bool)
    requires Sound(s, key, back) && Enabled(s, Go(i, a)) && Faultless(s, Go(i, a), key)
    requires var note := Do(s, s.threads[i], a).note; note.Some? && note.value.Asked? && note.value.key == key
    ensures Minded(Apply(s, Go(i, a)), |s.log|, key, back)
  {
    assert s.threads[i].key == key;
    ActionKeeps(s, i, a, |s.log|);
    KeptIsMinded(s, i, Do(s, s.threads[i], a), |s.log|, key, back);
  }

  lemma OldEventMinded(s: State, i: nat, a: Action, n: nat, key: string, back: bool)
    requires Sound(s, key, back) && Enabled(s, Go(i, a)) && Faultless(s, Go(i, a), key)
    requires n < |s.log| && (Settled(s.log, n, key) || Covered(s, n, key))
    ensures Minded(Apply(s, Go(i, a)), n, key, back)
  {
    var s', t, e := Apply(s, Go(i, a)), s.threads[i], Do(s, s.threads[i], a);
    if Settled(s.log, n, key) {
      var j :| n < j < |s.log| && Settles(s.log[j], n, key);
      assert s'.log[j] == s.log[j];
    } else if key == t.key && (Pending(s.repos, key) || Covers(t, n, key)) {
      ActionKeeps(s, i, a, n);
      KeptIsMinded(s, i, e, n, key, back);
    } else if Pending(s.repos, key) {
      ActionOnlyKey(s, t, a);
    } else {
      var j :| 0 <= j < |s.threads| && Covers(s.threads[j], n, key);
      assert s'.threads[j] == s.threads[j];
    }
  }

  lemma EventMinds(s: State, e: Event, n: nat, key: string, back: bool)
    requires Sound(s, key, back) && CanHappen(s, e) && CleanFor(s, Env(e), key) && Lasts(s, Env(e), key)
    requires Minded(s, n, key, back)
    ensures Happen(s, e).log == s.log && Minded(Happen(s, e), n, key, back)
  {
    var s' := Happen(s, e);
    EventFlag(s, e, key);
    assert forall j :: 0 <= j < |s.threads| ==> s'.threads[j] == s.threads[j];
    if !Settled(s.log, n, key) && !Pending(s.repos, key) && Covered(s, n, key) {
      var j :| 0 <= j < |s.threads| && Covers(s.threads[j], n, key);
      assert Covers(s'.threads[j], n, key);
    } else if back && key in s.recover {
      assert e.Recover? && e.key == key ==> OnItsWay(s'.threads[|s.threads|], key);
    } else if back && Returning(s, key) {
      var j :| 0 <= j < |s.threads| && OnItsWay(s.threads[j], key);
      assert OnItsWay(s'.threads[j], key);
    }
  }

  lemma NothingLostStep(s: State, step: Step, key: string, back: bool)
    requires Sound(s, key, back) && NothingLost(s, key, back)
    requires Enabled(s, step) && CleanFor(s, step, key) && Lasts(s, step, key)
    ensures NothingLost(Apply(s, step), key, back)
  {
    var s' := Apply(s, step);
    forall n | 0 <= n < |s'.log| && s'.log[n].Asked? && s'.log[n].key == key ensures Minded(s', n, key, back) {
      match step
      case Go(i, a) => ActionMinds(s, i, a, n, key, back);
      case Env(e) =>
        assert s'.log == s.log;
        EventMinds(s, e, n, key, back);
    }
  }

  // ----- rerun tokens -----

  /** A goroutine that goes back into Enqueue says "rerun", and its token dates
      from the observation that its run ended with a rerun due. */
  predicate TokenTells(t: Thread, log: seq<Obs>) {
    && (!t.kind.External? && (t.phase.Routing? || t.phase.Routed? || t.phase.Spawning?) ==> t.reason == "rerun")
    && (HoldsToken(t) ==> t.minted < |log| && log[t.minted] == Ended(t.key, true))
  }

  /** A refused token was handed out before it was refused. */
  ghost predicate TokensTell(s: State) {
    && (forall i :: 0 <= i < |s.threads| ==> TokenTells(s.threads[i], s.log))
    && (forall j :: 0 <= j < |s.log| && s.log[j].Dropped? ==>
                      s.log[j].minted < j && s.log[s.log[j].minted] == Ended(s.log[j].key, true))
  }

  lemma ActionToken(s: State, t: Thread, a: Action)
    requires Ready(s, t, a) && Shape(t) && TokenTells(t, s.log)
    ensures var e := Do(s, t, a);
            && TokenTells(e.thread, if e.note.Some? then s.log + [e.note.value] else s.log)
            && (e.child.Some? ==> TokenTells(e.child.value, s.log))
            && (e.note.Some? && e.note.value.Dropped? ==>
                  e.note.value.minted < |s.log| && s.log[e.note.value.minted] == Ended(e.note.value.key, true))
  {
  }

  lemma TokensTellStep(s: State, step: Step)
    requires TokensTell(s) && Shaped(s) && Enabled(s, step)
    ensures TokensTell(Apply(s, step))
  {
    var s' := Apply(s, step);
    if step.Go? {
      ActionToken(s, s.threads[step.i], step.action);
    }
    assert forall j :: 0 <= j < |s.log| ==> s'.log[j] == s.log[j];
    forall i | 0 <= i < |s'.threads| ensures TokenTells(s'.threads[i], s'.log) {
      if i < |s.threads| && !(step.Go? && step.i == i) {
        assert s'.threads[i] == s.threads[i] && TokenTells(s.threads[i], s.log);
      }
    }
  }

  /** Over every run, whatever fails: every rerun token and every refusal of one
      goes back to a run of its repo that ended with a rerun due. */
  lemma {:induction false} TokensComeFromRuns(s: State, steps: seq<Step>)
    requires TokensTell(s) && Shaped(s) && Legal(s, steps)
    ensures TokensTell(Exec(s, steps))
    decreases |steps|
  {
    if steps != [] {
      TokensTellStep(s, steps[0]);
      ShapedStep(s, steps[0]);
      TokensComeFromRuns(Apply(s, steps[0]), steps[1..]);
    }
  }

  // ----- exactly one follow-up per run -----

  /** Queue calls answered Deferred since the current run of the key began, with
      a flag that the process found at its start counted as one. */
  function Deferrals(log: seq<Obs>, key: string, found: nat): nat {
    if log == [] then found else
    var before, o := Deferrals(log[..|log| - 1], key, found), log[|log| - 1];
    if o.key != key then before
    else if o.Asked? && o.result.Deferred? then before + 1
    else if o.Began? || o.Ended? then 0
    else before
  }

  predicate FlagsCount(s: State, key: string, found: nat) {
    Pending(s.repos, key) <==> Deferrals(s.log, key, found) > 0
  }

  /** How a fault-free action treats the rerun flag of its key. */
  lemma ActionFlag(s: State, i: nat, a: Action)
    requires Enabled(s, Go(i, a)) && FaultFree(Go(i, a))
    requires Sane(s.repos, s.handles, s.threads[i].key)
    requires Owns(s.threads[i]) ==> Agrees(s.repos, s.handles, s.threads[i])
    ensures FlagEffect(s, s.threads[i], Do(s, s.threads[i], a))
  {
  }

  /** The effect on the flag of its key is the one its observation announces. */
  predicate FlagEffect(s: State, t: Thread, e: Effect) {
    && (e.note.Some? ==> e.note.value.key == t.key)
    && (Pending(e.repos, t.key) <==>
        if e.note.Some? && e.note.value.Asked? && e.note.value.result.Deferred? then true
        else if e.note.Some? && (e.note.value.Began? || e.note.value.Ended?) then false
        else Pending(s.repos, t.key))
    && (e.note.Some? && e.note.value.Ended? ==> (e.note.value.rerun <==> Pending(s.repos, t.key)))
  }

  lemma TakeFlagsCount(s: State, i: nat, e: Effect, k: string, found: nat)
    requires FlagsCount(s, k, found) && i < |s.threads| && OnlyKey(s, s.threads[i].key, e)
    requires e.note.Some? ==> e.note.value.key == s.threads[i].key
    requires s.threads[i].key == k ==> FlagEffect(s, s.threads[i], e)
    ensures FlagsCount(Take(s, i, e), k, found)
  {
  }

  lemma FlagsCountStep(s: State, step: Step, key: string, found: nat)
    requires InvFor(s, key) && FlagsCount(s, key, found)
    requires Enabled(s, step) && CleanFor(s, step, key) && Lasts(s, step, key)
    ensures FlagsCount(Apply(s, step), key, found)
  {
    match step
    case Env(e) => EventFlag(s, e, key);
    case Go(i, a) =>
      if s.threads[i].key == key {
        ActionFlag(s, i, a);
      }
      ActionOnlyKey(s, s.threads[i], a);
      TakeFlagsCount(s, i, Do(s, s.threads[i], a), key, found);
  }

  // ----- whole runs, over any store -----

  /** No flagged entry of the key expires. */
  predicate LastsRun(s: State, steps: seq<Step>, key: string)
    decreases |steps|
  {
    steps == [] || (Enabled(s, steps[0]) && Lasts(s, steps[0], key) && LastsRun(Apply(s, steps[0]), steps[1..], key))
  }

  /** For a key that was not stored at the start that is no assumption. */
  lemma {:induction false} OwnedLasts(s: State, steps: seq<Step>, key: string)
    requires FailClosed(s) && key !in Unowned(s) && CleanRunFor(s, steps, key)
    ensures LastsRun(s, steps, key)
    decreases |steps|
  {
    if steps != [] {
      FailClosedStep(s, steps[0]);
      OnlyFaultsOrphan(s, steps[0], key);
      OwnedLasts(Apply(s, steps[0]), steps[1..], key);
    }
  }

  lemma {:induction false} NothingLostRun(s: State, steps: seq<Step>, key: string, back: bool)
    requires Sound(s, key, back) && NothingLost(s, key, back) && CleanRunFor(s, steps, key) && LastsRun(s, steps, key)
    requires back ==> forall j :: 0 <= j < |steps| ==> StaysWanted(steps[j], key)
    ensures Legal(s, steps) && Sound(Exec(s, steps), key, back) && NothingLost(Exec(s, steps), key, back)
    decreases |steps|
  {
    if steps != [] {
      SoundStep(s, steps[0], key, back);
      NothingLostStep(s, steps[0], key, back);
      NothingLostRun(Apply(s, steps[0]), steps[1..], key, back);
    }
  }

  lemma {:induction false} BooksRun(s: State, steps: seq<Step>, key: string, found: nat)
    requires InvFor(s, key) && Capped(s) && CleanRunFor(s, steps, key) && LastsRun(s, steps, key)
    ensures Legal(s, steps) && SameBooks(s, Exec(s, steps), key) && InvFor(Exec(s, steps), key) && Capped(Exec(s, steps))
    ensures FlagsCount(s, key, found) ==> FlagsCount(Exec(s, steps), key, found)
    decreases |steps|
  {
    if steps != [] {
      BooksStep(s, steps[0], key);
      if FlagsCount(s, key, found) {
        FlagsCountStep(s, steps[0], key, found);
      }
      InvForStep(s, steps[0], key);
      CappedStep(s, steps[0]);
      BooksRun(Apply(s, steps[0]), steps[1..], key, found);
    }
  }

  /** A process that starts over a store in which the key is as a healthy process
      leaves it. */
  ghost predicate Fresh(s0: State, key: string) {
    InvFor(s0, key) && Capped(s0) && s0.threads == [] && s0.log == []
  }

  lemma BootIsFresh(repos: Repos, handles: map<string, string>, max: nat, router: Router, key: string)
    requires Sane(repos, handles, key)
    ensures Fresh(Boot(repos, handles, max, router), key)
  {
  }

  /** Clean for the key, which is either new to the store or was left running
      there; a flag found there does not expire. */
  ghost predicate Followed(s0: State, steps: seq<Step>, key: string) {
    CleanRunFor(s0, steps, key) && (key in s0.repos ==> Running(s0.repos, key) && LastsRun(s0, steps, key))
  }

  lemma FollowedLasts(s0: State, steps: seq<Step>, key: string)
    requires Fresh(s0, key) && Followed(s0, steps, key)
    ensures LastsRun(s0, steps, key)
  {
    if key !in s0.repos {
      OwnedLasts(s0, steps, key);
    }
  }

  /** For every run of a fresh process and every key not left queued, whatever
      store calls fail for other keys: each accepted event was followed by a run
      that began later, or by a cancellation, or by the rules refusing its rerun;
      or its run is still to come. */
  lemma {:induction false} NoTriggerLost(s0: State, steps: seq<Step>, key: string)
    requires Fresh(s0, key) && Followed(s0, steps, key)
    ensures Legal(s0, steps) && NothingLost(Exec(s0, steps), key, false)
  {
    FollowedLasts(s0, steps, key);
    NothingLostRun(s0, steps, key, false);
  }

  /** For every run of a fresh process and every key whose flag does not expire,
      whatever store calls fail for other keys: external triggers and the flag
      found at the start are exactly the runs won, merges, duplicate deferrals,
      refused tokens, the flag and the tokens under way; so runs never outnumber
      triggers. */
  lemma {:induction false} TriggerConservation(s0: State, steps: seq<Step>, key: string)
    requires Fresh(s0, key) && CleanRunFor(s0, steps, key) && LastsRun(s0, steps, key)
    ensures Legal(s0, steps)
    ensures var s := Exec(s0, steps);
            var c := Count(s.log, key);
            && c.external + Flag(s0.repos, key)
               == c.won + c.merged + c.duplicates + c.dropped + Flag(s.repos, key) + Sum(s.threads, TokenOf(key))
            && c.won == c.spawned + Sum(s.threads, SpawningOf(key))
            && c.spawned == c.began + c.cancelled + Sum(s.threads, NotBegunOf(key))
            && c.began <= c.external + Flag(s0.repos, key)
  {
    BooksRun(s0, steps, key, 0);
  }

  /** When a run ends, its goroutine is handed exactly one rerun token if at
      least one event was deferred during the run, and none otherwise. */
  lemma FinishHandsOut(s: State, i: nat, found: nat)
    requires Capped(s) && Enabled(s, Go(i, Finish(NoFault)))
    requires InvFor(s, s.threads[i].key) && FlagsCount(s, s.threads[i].key, found)
    ensures var key, s' := s.threads[i].key, Apply(s, Go(i, Finish(NoFault)));
            && Sum(s'.threads, TokenOf(key))
               == Sum(s.threads, TokenOf(key)) + (if Deferrals(s.log, key, found) > 0 then 1 else 0)
            && key !in s'.repos
  {
    var t := s.threads[i];
    assert Shape(t) && Agrees(s.repos, s.handles, t);
    SumTake(s, i, Do(s, t, Finish(NoFault)), TokenOf(t.key));
  }

  /** Any number n >= 1 of events during one run make exactly one follow-up, and
      none make none: for every key, for runs of this process and for runs
      adopted from the one before, whose flag counts as one event. */
  lemma {:induction false} OneFollowUp(s0: State, steps: seq<Step>, i: nat, key: string)
    requires Fresh(s0, key) && CleanRunFor(s0, steps, key) && LastsRun(s0, steps, key)
    ensures Legal(s0, steps)
    ensures var s, found := Exec(s0, steps), Flag(s0.repos, key);
            Enabled(s, Go(i, Finish(NoFault))) && s.threads[i].key == key ==>
              var s' := Apply(s, Go(i, Finish(NoFault)));
              Sum(s'.threads, TokenOf(key))
              == Sum(s.threads, TokenOf(key)) + (if Deferrals(s.log, key, found) > 0 then 1 else 0)
  {
    var found := Flag(s0.repos, key);
    BooksRun(s0, steps, key, found);
    var s := Exec(s0, steps);
    if Enabled(s, Go(i, Finish(NoFault))) && s.threads[i].key == key {
      FinishHandsOut(s, i, found);
    }
  }

  // ----- graceful shutdown -----

  /** The wait group's count: dispatcher goroutines that have not ended. */
  function InGroup(t: Thread): nat {
    if !t.kind.External? && !t.phase.Gone? then 1 else 0
  }

  ghost predicate CallInProgress(s: State) {
    exists i :: 0 <= i < |s.threads| && s.threads[i].kind.External? && !s.threads[i].phase.Gone?
  }

  /** The count cannot reach zero between a run and its deferred rerun: a token
      under way is counted. */
  lemma TokenKeepsGroupBusy(s: State, i: nat)
    requires i < |s.threads| && HoldsToken(s.threads[i])
    ensures Sum(s.threads, InGroup) > 0
  {
    SumZero(s.threads, InGroup);
    assert InGroup(s.threads[i]) == 1;
  }

  /** And so is the owner of a flagged entry, unless its goroutine is just being
      spawned by Adopt. */
  lemma FlagKeepsGroupBusy(s: State, key: string)
    requires InvFor(s, key) && Capped(s) && Pending(s.repos, key) && Owned(s, key)
    requires forall i :: 0 <= i < |s.threads| && s.threads[i].key == key ==> !s.threads[i].phase.Adopting?
    ensures Sum(s.threads, InGroup) > 0
  {
    SumZero(s.threads, InGroup);
    var j :| 0 <= j < |s.threads| && Owns(s.threads[j]) && s.threads[j].key == key;
    assert Agrees(s.repos, s.handles, s.threads[j]) && Shape(s.threads[j]);
    assert InGroup(s.threads[j]) == 1;
  }

  /** At rest nothing is left of a key that was not there at the start. */
  lemma RestLeaves(s0: State, s: State, key: string)
    requires s0.threads == [] && InvFor(s, key) && Capped(s) && Quiescent(s)
    requires key in Unowned(s) ==> key in Unowned(s0)
    ensures s.permits == 0 && (key !in s0.repos ==> key !in s.repos && key !in s.handles)
  {
    SumZero(s.threads, Permit);
    assert !Owned(s, key);
  }

  /** When the wait group is done and no call is in progress, all permits are
      free; a key that was not stored at the start has neither entry nor handle,
      and each of its events has been settled; the events of a key that was left
      running have been settled, or are kept in the flag of its entry. */
  lemma {:induction false} GracefulShutdown(s0: State, steps: seq<Step>, key: string)
    requires Fresh(s0, key) && Followed(s0, steps, key)
    ensures Legal(s0, steps)
    ensures var s := Exec(s0, steps);
            Sum(s.threads, InGroup) == 0 && !CallInProgress(s) ==>
              && s.permits == 0 && (key !in s0.repos ==> key !in s.repos && key !in s.handles)
              && forall n :: 0 <= n < |s.log| && s.log[n].Asked? && s.log[n].key == key ==>
                               Settled(s.log, n, key) || (key in s0.repos && Pending(s.repos, key))
  {
    NoTriggerLost(s0, steps, key);
    CleanRunForKeeps(s0, steps, key);
    ConcurrencyCap(s0, steps);
    var s := Exec(s0, steps);
    if Sum(s.threads, InGroup) == 0 && !CallInProgress(s) {
      SumZero(s.threads, InGroup);
      assert Quiescent(s);
      RestLeaves(s0, s, key);
    }
  }

  // ----- draining -----

  lemma {:induction false} InternalRunIsClean(s: State, steps: seq<Step>)
    requires Legal(s, steps) && AllInternal(steps) && forall j :: 0 <= j < |steps| ==> FaultFree(steps[j])
    ensures CleanRun(s, steps)
    decreases |steps|
  {
    if steps != [] {
      InternalRunIsClean(Apply(s, steps[0]), steps[1..]);
    }
  }

  /** Once events stop, every run of the goroutines that cannot be continued
      ends with all permits free and an empty store but for what nobody owned,
      whatever the schedule. */
  lemma DrainEndsEmpty(s: State, steps: seq<Step>)
    requires Inv(s) && Capped(s) && s.max >= 1 && Legal(s, steps) && AllInternal(steps)
    requires forall j :: 0 <= j < |steps| ==> FaultFree(steps[j])
    requires forall step :: Enabled(Exec(s, steps), step) ==> step.Env?
    ensures |steps| <= Measure(s)
    ensures var s' := Exec(s, steps);
            && s'.permits == 0 && s'.repos.Keys <= Unowned(s)
            && (Unowned(s) == {} ==> s'.repos == map[] && s'.handles == map[])
  {
    RunsAreBounded(s, steps);
    InternalRunIsClean(s, steps);
    CleanRunKeeps(s, steps);
    ConcurrencyCap(s, steps);
    StuckIsQuiescent(Exec(s, steps));
    RestIsEmpty(Exec(s, steps));
  }

  // ----- every event gets its run -----

  /** Nobody shuts the dispatcher down and no new rules disable a repo. */
  ghost predicate Calm(step: Step) {
    match step
    case Env(Cancel) => false
    case Env(SetRouter(router)) => forall name :: router(name).To?
    case _ => true
  }

  ghost predicate Undisturbed(s: State) {
    && !s.cancelled && (forall name :: s.router(name).To?)
    && (forall i :: 0 <= i < |s.threads| ==> !s.threads[i].phase.Aborting?)
    && (forall j :: 0 <= j < |s.log| ==> !s.log[j].Cancelled? && !s.log[j].Dropped?)
  }

  lemma UndisturbedStep(s: State, step: Step)
    requires Undisturbed(s) && Enabled(s, step) && Calm(step)
    ensures Undisturbed(Apply(s, step))
  {
    if step.Go? {
      ActionUndisturbed(s, s.threads[step.i], step.action);
    }
  }

  lemma ActionUndisturbed(s: State, t: Thread, a: Action)
    requires Ready(s, t, a) && !s.cancelled && !t.phase.Aborting? && s.router(t.repo.fullName).To?
    ensures var e := Do(s, t, a);
            && !e.thread.phase.Aborting? && (e.child.Some? ==> !e.child.value.phase.Aborting?)
            && (e.note.Some? ==> !e.note.value.Cancelled? && !e.note.value.Dropped?)
  {
  }

  lemma {:induction false} UndisturbedRun(s: State, steps: seq<Step>)
    requires Undisturbed(s) && Legal(s, steps) && forall j :: 0 <= j < |steps| ==> Calm(steps[j])
    ensures Undisturbed(Exec(s, steps))
    decreases |steps|
  {
    if steps != [] {
      UndisturbedStep(s, steps[0]);
      UndisturbedRun(Apply(s, steps[0]), steps[1..]);
    }
  }

  /** Without shutdown and with every repo enabled: whenever the goroutines have
      come to rest, every accepted event for a repo that was not stored at the
      start has been followed by a run of its repo that began later, whatever
      store calls failed for other repos. */
  lemma {:induction false} EveryEventRuns(s0: State, steps: seq<Step>, key: string)
    requires Fresh(s0, key) && Undisturbed(s0) && CleanRunFor(s0, steps, key) && key !in s0.repos
    requires forall j :: 0 <= j < |steps| ==> Calm(steps[j])
    ensures Legal(s0, steps)
    ensures var s := Exec(s0, steps);
            Quiescent(s) ==>
              forall n :: 0 <= n < |s.log| && s.log[n].Asked? && s.log[n].key == key ==>
                            exists j :: n < j < |s.log| && s.log[j].Began? && s.log[j].key == key
  {
    NoTriggerLost(s0, steps, key);
    CleanRunForKeeps(s0, steps, key);
    ConcurrencyCap(s0, steps);
    UndisturbedRun(s0, steps);
    var s := Exec(s0, steps);
    if Quiescent(s) {
      RestLeaves(s0, s, key);
      forall n | 0 <= n < |s.log| && s.log[n].Asked? && s.log[n].key == key
        ensures exists j :: n < j < |s.log| && s.log[j].Began? && s.log[j].key == key
      {
        assert Minded(s, n, key, false) && Settled(s.log, n, key);
        var j :| n < j < |s.log| && Settles(s.log[j], n, key);
        assert s.log[j].Began?;
      }
    }
  }
}
