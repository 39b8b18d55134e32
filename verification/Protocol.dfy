/** The run-lifecycle protocol as a labelled transition system: the goroutines
    of the dispatcher and of its callers, stepping over one shared store.

    Each store call is one atomic step. A step that talks to the store carries
    the fault that hit the call, so the same system describes the in-memory
    store (no faults) and the Redis store (any call may fail, with or without
    having taken effect). */
module Protocol {
  import opened RepoKey
  import opened Store

  // ----- routing -----

  datatype Route = Disabled | To(executor: string)

  /** The outcome of the current rules for every repo full name. */
  type Router = string -> Route

  // ----- goroutines -----

  /** External: a caller of Enqueue or Adopt outside the wait group.
      Run: a goroutine of Dispatcher.run.  Adopted: a goroutine of Adopt. */
  datatype Kind = External | Run | Adopted

  datatype Phase =
    | Routing                  // inside Enqueue, before the router is loaded
    | Routed                   // enabled by the rules, before store.Queue
    | Spawning                 // Queue answered Queued, before the goroutine is spawned
    | Adopting(resume: bool)   // store.Adopt done, before the goroutine is spawned
    | Debouncing
    | Waiting                  // for a semaphore permit
    | Aborting                 // context cancelled, before store.FinishRun
    | Holding                  // permit held, before store.StartRun
    | Triggering               // executor called, no run handle saved
    | Polling                  // executor or adopted wait with a saved run handle
    | Finishing                // executor returned, before store.FinishRun
    | Releasing                // before the deferred permit release
    | Exiting                  // before the wait group is told
    | Gone

  datatype Thread = Thread(
    repo: Repo, key: string, reason: string, exec: string, kind: Kind, phase: Phase,
    minted: nat)  // length of the log when this thread's rerun token was handed out

  // ----- history -----

  datatype Obs =
    | Asked(key: string, external: bool, result: QueueResult, again: bool)  // again: rerun flag was already set
    | Spawned(key: string)
    | Began(key: string, executor: string, reason: string)  // Executor.Run is called
    | Ended(key: string, rerun: bool)
    | Dropped(key: string, minted: nat)  // a rerun token refused by the rules
    | Cancelled(key: string)

  // ----- state -----

  datatype State = State(
    repos: Repos,
    handles: map<string, string>,
    threads: seq<Thread>,
    permits: nat,            // semaphore slots in use
    max: nat,                // MaxConcurrent
    router: Router,
    cancelled: bool,
    recover: set<string>,    // keys the recovery loop still has to visit
    now: nat,
    log: seq<Obs>)

  /** The state of a fresh process over whatever the store has kept. */
  function Boot(repos: Repos, handles: map<string, string>, max: nat, router: Router): State {
    State(repos, handles, [], 0, max, router, false, {}, 0, [])
  }

  // ----- faults -----

  datatype Fault = NoFault | LostRequest | LostReply

  function QueueUnder(f: Fault, repos: Repos, key: string, reason: string, now: nat): (Repos, QueueResult) {
    match f
    case NoFault => QueueRepo(repos, key, reason, now)
    case LostRequest => (repos, Coalesced)
    case LostReply => (QueueRepo(repos, key, reason, now).0, Coalesced)
  }

  function StartUnder(f: Fault, repos: Repos, key: string, now: nat): Repos {
    if f.LostRequest? then repos else StartRepo(repos, key, now)
  }

  function FinishUnder(f: Fault, repos: Repos, key: string): (Repos, bool) {
    match f
    case NoFault => FinishRepo(repos, key)
    case LostRequest => (repos, false)
    case LostReply => (FinishRepo(repos, key).0, false)
  }

  function AdoptUnder(f: Fault, repos: Repos, key: string, reason: string, now: nat): Repos {
    if f.LostRequest? then repos else AdoptRepo(repos, key, reason, now)
  }

  // ----- steps -----

  /** What the environment of the goroutines does. */
  datatype Event =
    | Call(repo: Repo, reason: string)                   // someone calls Enqueue
    | Adopt(repo: Repo, resume: bool, fault: Fault)      // Dispatcher.Adopt up to and with store.Adopt
    | SetRouter(router: Router)
    | Cancel
    | Tick(elapsed: nat)
    | Forget(key: string)                                // AdoptRunning deletes a corrupt handle
    | TakeSnapshot(seen: set<string>)                    // recovery reads the queued keys
    | Recover(key: string, fault: Fault)                 // recovery clears one of them and calls Enqueue
    | Expire(keys: set<string>)                          // Redis drops entries whose lease ran out

  /** What one goroutine does next. */
  datatype Action =
    | Load
    | Queue(fault: Fault)
    | Spawn
    | SpawnAdopted
    | Timer
    | Abort
    | Acquire
    | Start(fault: Fault)
    | Save(data: string, fault: Fault)
    | Return
    | Delete(fault: Fault)
    | Finish(fault: Fault)
    | AbortFinish(fault: Fault)
    | Release
    | Exit

  datatype Step = Env(event: Event) | Go(i: nat, action: Action)

  predicate FaultFree(step: Step) {
    match step
    case Env(Adopt(_, _, f)) => f.NoFault?
    case Env(Recover(_, f)) => f.NoFault?
    case Go(_, Queue(f)) => f.NoFault?
    case Go(_, Start(f)) => f.NoFault?
    case Go(_, Save(_, f)) => f.NoFault?
    case Go(_, Delete(f)) => f.NoFault?
    case Go(_, Finish(f)) => f.NoFault?
    case Go(_, AbortFinish(f)) => f.NoFault?
    case _ => true
  }

  /** The keys the recovery loop would clear: stored as queued, and splitting in two. */
  function QueuedKeys(repos: Repos): set<string> {
    set k | k in repos && repos[k].state.StateQueued? && ':' in k
  }

  predicate CanHappen(s: State, e: Event) {
    match e
    case TakeSnapshot(seen) => s.recover == {} && seen <= QueuedKeys(s.repos)
    case Recover(key, _) => key in s.recover && ':' in key
    case Expire(keys) => keys <= s.repos.Keys
    case _ => true
  }

  /** Where each action starts, and the shared condition it waits for. */
  predicate Ready(s: State, t: Thread, a: Action) {
    match a
    case Load => t.phase.Routing?
    case Queue(_) => t.phase.Routed?
    case Spawn => t.phase.Spawning?
    case SpawnAdopted => t.phase.Adopting?
    case Timer => t.phase.Debouncing?
    case Abort => s.cancelled && (t.phase.Debouncing? || t.phase.Waiting?)
    case Acquire => t.phase.Waiting? && s.permits < s.max
    case Start(_) => t.phase.Holding?
    case Save(_, _) => t.phase.Triggering?
    case Return => t.phase.Triggering?
    case Delete(_) => t.phase.Polling?
    case Finish(_) => t.phase.Finishing?
    case AbortFinish(_) => t.phase.Aborting?
    case Release => t.phase.Releasing? && s.permits > 0
    case Exit => t.phase.Exiting?
  }

  predicate Enabled(s: State, step: Step) {
    match step
    case Env(e) => CanHappen(s, e)
    case Go(i, a) => i < |s.threads| && Ready(s, s.threads[i], a)
  }

  /** Where a goroutine is once its call of Enqueue has returned. */
  function AfterCall(k: Kind): Phase {
    match k
    case External => Gone
    case Run => Releasing
    case Adopted => Exiting
  }

  const RERUN := "rerun"

  function Caller(repo: Repo, reason: string, phase: Phase): Thread {
    Thread(repo, repo.Key(), reason, "", External, phase, 0)
  }

  function Fork(s: State, t: Thread): State {
    s.(threads := s.threads + [t])
  }

  function Happen(s: State, e: Event): State
    requires CanHappen(s, e)
  {
    match e
    case Call(repo, reason) => Fork(s, Caller(repo, reason, Routing))
    case Adopt(repo, resume, f) =>
      Fork(s.(repos := AdoptUnder(f, s.repos, repo.Key(), RERUN, s.now)), Caller(repo, RERUN, Adopting(resume)))
    case SetRouter(router) => s.(router := router)
    case Cancel => s.(cancelled := true)
    case Tick(elapsed) => s.(now := s.now + elapsed)
    case Forget(key) => s.(handles := s.handles - {key})
    case TakeSnapshot(seen) => s.(recover := seen)
    case Recover(key, f) =>
      Fork(s.(repos := FinishUnder(f, s.repos, key).0, recover := s.recover - {key}),
           Caller(SplitKey(key).value, RERUN, Routing))
    case Expire(keys) => s.(repos := s.repos - keys)
  }

  /** The effect of an action: the goroutine afterwards, the shared state
      afterwards, the goroutine it spawned and the observation it leaves. */
  datatype Effect = Effect(
    thread: Thread, repos: Repos, handles: map<string, string>, permits: nat,
    child: Option<Thread>, note: Option<Obs>)

  function Then(s: State, t: Thread): Effect {
    Effect(t, s.repos, s.handles, s.permits, None, None)
  }

  function Do(s: State, t: Thread, a: Action): Effect
    requires Ready(s, t, a)
  {
    match a
    case Load =>
      (match s.router(t.repo.fullName)
       case To(e) => Then(s, t.(exec := e, phase := Routed))
       case Disabled =>
         Then(s, t.(phase := AfterCall(t.kind)))
           .(note := if t.kind.External? then None else Some(Dropped(t.key, t.minted))))
    case Queue(f) =>
      var (repos, r) := QueueUnder(f, s.repos, t.key, t.reason, s.now);
      var again := t.key in s.repos && s.repos[t.key].pendingRerun;
      Then(s, t.(phase := if r.Queued? then Spawning else AfterCall(t.kind)))
        .(repos := repos, note := Some(Asked(t.key, t.kind.External?, r, again)))
    case Spawn =>
      Then(s, t.(phase := AfterCall(t.kind)))
        .(child := Some(t.(kind := Run, phase := Debouncing, minted := 0)), note := Some(Spawned(t.key)))
    case SpawnAdopted =>
      Then(s, t.(phase := Gone))
        .(child := Some(t.(kind := Adopted, phase := if t.phase.resume then Polling else Triggering)))
    case Timer => Then(s, t.(phase := Waiting))
    case Abort => Then(s, t.(phase := Aborting))
    case Acquire => Then(s, t.(phase := Holding)).(permits := s.permits + 1)
    case Start(f) =>
      Then(s, t.(phase := Triggering))
        .(repos := StartUnder(f, s.repos, t.key, s.now), note := Some(Began(t.key, t.exec, t.reason)))
    case Save(data, f) =>
      Then(s, t.(phase := Polling))
        .(handles := if f.LostRequest? then s.handles else s.handles[t.key := data])
    case Return => Then(s, t.(phase := Finishing))
    case Delete(f) =>
      Then(s, t.(phase := Finishing))
        .(handles := if f.LostRequest? then s.handles else s.handles - {t.key})
    case Finish(f) =>
      var (repos, rerun) := FinishUnder(f, s.repos, t.key);
      Then(s, if rerun then t.(phase := Routing, reason := RERUN, minted := |s.log|)
              else t.(phase := AfterCall(t.kind)))
        .(repos := repos, note := Some(Ended(t.key, rerun)))
    case AbortFinish(f) =>
      Then(s, t.(phase := Exiting))
        .(repos := FinishUnder(f, s.repos, t.key).0, note := Some(Cancelled(t.key)))
    case Release => Then(s, t.(phase := Exiting)).(permits := s.permits - 1)
    case Exit => Then(s, t.(phase := Gone))
  }

  /** Goroutine i takes the effect. */
  function Take(s: State, i: nat, e: Effect): State
    requires i < |s.threads|
  {
    var threads := s.threads[i := e.thread];
    s.(repos := e.repos, handles := e.handles, permits := e.permits,
       threads := if e.child.Some? then threads + [e.child.value] else threads,
       log := if e.note.Some? then s.log + [e.note.value] else s.log)
  }

  function Apply(s: State, step: Step): State
    requires Enabled(s, step)
  {
    match step
    case Env(e) => Happen(s, e)
    case Go(i, a) => Take(s, i, Do(s, s.threads[i], a))
  }

  // ----- runs -----

  predicate Legal(s: State, steps: seq<Step>)
    decreases |steps|
  {
    steps == [] || (Enabled(s, steps[0]) && Legal(Apply(s, steps[0]), steps[1..]))
  }

  function Exec(s: State, steps: seq<Step>): State
    requires Legal(s, steps)
    decreases |steps|
  {
    if steps == [] then s else Exec(Apply(s, steps[0]), steps[1..])
  }

  // ----- ownership -----

  /** The goroutine is responsible for its key: it was told Queued (or adopted
      the run) and has not yet called FinishRun. */
  predicate Owns(t: Thread) {
    match t.phase
    case Spawning | Adopting(_) | Debouncing | Waiting | Aborting | Holding | Triggering | Polling | Finishing => true
    case _ => false
  }

  /** The owner has passed StartRun (or adopted a running run). */
  predicate Started(t: Thread) {
    match t.phase
    case Adopting(_) | Triggering | Polling | Finishing => true
    case _ => false
  }

  /** A call of Executor.Run or of an adopted Wait is in flight. */
  predicate Live(t: Thread) {
    t.phase.Triggering? || t.phase.Polling?
  }

  ghost predicate Owned(s: State, key: string) {
    exists i :: 0 <= i < |s.threads| && Owns(s.threads[i]) && s.threads[i].key == key
  }
}
