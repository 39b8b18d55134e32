# renovate-server: a verified model of the run lifecycle

renovate-server turns webhooks and cron ticks into Renovate runs and promises that a
repository never has more than one run in flight, that events during a run become
exactly one follow-up run, that nothing is lost on the way, and that no stuck run holds
a repository for ever. This project models that run lifecycle in Dafny 4.11 and proves
these promises for every interleaving of its goroutines, not for sample schedules.

`dafny verify dfyconfig.toml` verifies the whole project.

## How the model is built

* `Protocol.dfy` is a labelled transition system. A state holds the store (entries and run
  handles), the goroutines with the point each has reached, the semaphore count, the
  current router, the cancel flag, the recovery loop's remaining keys, a clock and the
  history of what was observed. A step is an event of the environment (`Env`) or one atomic
  action of goroutine number `i` (`Go`); every store call is one step. A step that talks to
  the store names the fault that hit the call: none, the request lost, or the reply lost
  after the call took effect. Faults give the error paths of the Redis store; fault-free
  steps give the in-memory store.
* `Exclusion.dfy` proves exclusion under all faults, `Lifecycle.dfy` the full
  correspondence of entries, handles and owners without faults, `Capacity.dfy` the
  concurrency cap, `Progress.dfy` termination and absence of deadlock, `Triggers.dfy` what
  becomes of every event, `Expiry.dfy` the same protocol over entries that expire,
  `Restart.dfy` crash, adoption and recovery, `Lookup.dfy` what the routing rules decide over
  whole runs. `Hazards.dfy` shows for each assumption that
  whatever breaks it can be followed by an ordinary run to two runs of one repository.
* `Store.dfy` and `Redis.dfy` are the two stores as classes; the Lua scripts work command by
  command on hashes under prefixed keys. `Dispatcher.dfy` is the dispatcher as a class:
  `Enqueue`, `Adopt`, `run`, `finish` and the adopted wait in program order, each stretch of
  code being one step of the protocol, with a scheduling point before every stretch. At a
  scheduling point (`Yield`) the caller knows only that the rest of the process has made
  some clean run that leaves the calling goroutine alone and fits the stage the process is
  in (no event during adoption, no reload before recovery is over). `Startup.dfy` is the
  startup code of `main.go` on top of it.
* *Clean for a key* means that no store call for that key fails; the statements about what
  becomes of a repo's entry, events and recovery need no more, so a fault on one repo never
  touches what is promised for another.
* `Handles.dfy`, `Poll.dfy`, `Router.dfy` (with configuration validation and reload),
  `Checkbox.dfy`, `History.dfy` and `RepoKey.dfy` model the remaining pieces.

A goroutine *owns* a key from the moment `Queue` answered it `Queued` (or `Adopt` was
called) until its `FinishRun`. A run is *live* while its `Run` or `Wait` call is in flight.

## What the code does not promise

The unconditional claims are false of the code. Exclusion depends on what the environment
does in three places: adoption, the recovery snapshot and lease expiry. `Benign` says what
must not happen there, and it is exact: with two permits free and every repository enabled,
a step is benign if and only if exclusion survives every benign continuation of it
(`BenignIsExact`). With fewer free permits a bad step can be harmless, because the
semaphore serialises the two runs; with `MaxConcurrent` 1 it always does, unless one of
them is an adopted run, which takes no permit.

* `Adopt` leaves an existing entry untouched and waits anyway, so adopting an owned key
  can double the run, whatever its owner is doing (`AdoptOwnedDoubles`).
* A failed `Adopt` of a repo without an entry leaves the run unlocked (`LostAdoptDoubles`).
* Restart is safe for every schedule if and only if no adopted key is stored as queued or
  with the rerun flag (`RestartIsExact`; two permits, every repo enabled, no lost `Adopt` of
  an absent key). Both can be read off the store beforehand; neither is checked by the code.
  * A queued entry is cleared by recovery, which enqueues its repo again, under the adopted
    run. This alone decides if nobody calls `Queue` before the snapshot
    (`QuietRestartIsExact`).
  * A flagged run may end and re-enqueue itself before the snapshot is taken; recovery then
    clears and repeats what this process has queued (`EarlyRerunDoubles`, without any
    fault). After the snapshot adopted runs may do so at any time.
  * A saved handle implies a running entry under every store fault except two
    (`OnlyTwoFaultsEndangerRestart`). A lost `StartRun` lets the run save its handle over an
    entry that still says queued (`LostStartDoubles`); the handle of a lost
    `DeleteRunHandle` outlives its entry (`LostDeleteDoubles`). These two fail open across a
    restart, a lost `Adopt` at once.
  * The kubernetes executor lists its active jobs, not handles. A job outlives its `Run`
    call when the timeout or a failed poll ends the call; the repo may be queued again by
    the time of the crash, and nothing in the code then rules the hazard out.
* A run that outlives its lease can be doubled (`OverrunDoubles`, `ExpiryDoubles`), and so
  can a repo whose entry expires before recovery reaches it. A TTL below one second gives no
  lock at all (`SubSecondTtlNeverLocks`), and `validate` accepts it.
* Adopted runs take no permit: runs in flight are bounded by the cap plus the adopted runs.
* Platform names may contain colons; then two repos share one key, and recovery rebuilds
  the other one (`ColonPlatformsCollide`).
* The comment on the memory store says the run timeout heals stuck state. The lock is
  released because the executor returns when its context ends; a pipeline that timed out is
  not cancelled on the GitLab side, so "in flight" means a live `Run` or `Wait` call.

## Model

| member | source | states |
|---|---|---|
| Exclusion.FailClosedStep | internal/dispatch/dispatcher.go:94-187 | any step, faults included, keeps "one owner per key, an entry for every owner, recovery clears only unowned entries" if and only if the step is benign (no adoption of an owned key, no lost adoption of an absent key, no snapshot or expiry of an owned key) |
| Exclusion.ExclusionUnderFaults | internal/store/redis.go:92-140 | fail closed: over every benign run in which any store call may fail with or without effect, each key has at most one owner, every owner's key is stored, and no repo has two runs in flight |
| Exclusion.AdoptKeeps | internal/dispatch/dispatcher.go:116-118 | adoption keeps the exclusion invariant exactly if the key is unowned, not about to be recovered, and stored or the call took effect |
| Exclusion.BootFailClosed | cmd/renovate-server/main.go:153-160 | a fresh process over any stored entries and handles starts with the exclusion invariant |
| Lifecycle.InvStep | internal/dispatch/dispatcher.go:94-187 | a fault-free step keeps the full invariant (unique owners; entry running iff the owner passed StartRun; handle saved iff the owner polls; rerun flag or handle only on running entries) if and only if it is clean |
| Lifecycle.InvForStep | internal/dispatch/dispatcher.go:94-187 | the full invariant of one key is kept by every step that is clean for that key, whatever store calls fail for other keys |
| Lifecycle.UnownedShrinks | internal/store/memory.go:31-73 | no fault-free step creates an entry without an owner or takes the owner from an entry |
| Lifecycle.OnlyFaultsOrphan | internal/store/redis.go:92-140 | a step can leave an entry of a key without an owner only if a store call for that very key failed in it |
| Lifecycle.OrphansNeedFaults | internal/store/redis.go:92-140 | fail closed, key by key: over every benign run, an entry without an owner was there at the start or some call for its own key failed; faults on other keys never orphan it |
| Lifecycle.CleanRunKeeps | internal/dispatch/dispatcher.go:94-187 | the full invariant holds in every state of every clean run from any state that has it |
| Lifecycle.CleanRunForKeeps | internal/dispatch/dispatcher.go:94-187 | the same over whole runs, with the entry of the key never losing its owner |
| Lifecycle.EntryIffOwner | internal/dispatch/dispatcher.go:94-187 | from an empty store, over every clean run: a key is stored if and only if it has an owner, it has at most one, and no repo has two runs in flight |
| Lifecycle.KeysDoNotInterfere | internal/store/memory.go:31-73 | over every run, whatever fails, the entry of a key (state, reason, time and flag) is what the calls for this key alone make of it, by a small automaton of one key given with all its fields |
| Lookup.RulesBar | internal/dispatch/dispatcher.go:96-100 | a repo that the rules disable does nothing: from any state in which none of its goroutines is between lookup and start, however many events come in, whatever fails and whoever is adopted, its key is never put to the store, gets no goroutine and begins no run, as long as no reload enables it |
| Lookup.ReloadBars | internal/dispatch/dispatcher.go:86-90 | the same right after a router swap that disables the repo, whatever the rules were before |
| Lookup.DisabledStaysAbsent | internal/dispatch/dispatcher.go:96-100 | a disabled repo that was not stored and is not adopted is never stored and never has an owner |
| Lookup.ConfigBars | internal/dispatch/router.go:48-58 | the compiled router bars a key exactly if for every repo with that key the first configured rule that matches says disabled, or none matches |
| Lookup.LookupDecides | internal/dispatch/dispatcher.go:94-105 | over every run, whatever fails and however often the rules are swapped, a goroutine past its lookup carries the executor that the rules in force at a lookup for its own repo and reason gave |
| Lookup.RunsFollowTheRules | internal/dispatch/dispatcher.go:94-151 | every run that begins is of a repo, by an executor and for a reason that one lookup has put together; the log says all three |
| Lookup.ReasonsAreGiven | internal/dispatch/dispatcher.go:183-186 | the reason of a goroutine is the one its event came with, or "rerun" after a deferred rerun, a recovery or an adoption of its repo |
| Lookup.LabelsTell | internal/dispatch/dispatcher.go:86-90 | over every run the rules in force are those of the last swap, the clock has moved by what has passed, and the context is cancelled exactly if somebody cancelled it |
| Capacity.ConcurrencyCap | internal/dispatch/dispatcher.go:137-152 | over every run and any faults: permits in use are exactly the goroutines between acquire and deferred release, never above MaxConcurrent, and live runs are at most MaxConcurrent plus live adopted runs |
| Capacity.CappedStep | internal/dispatch/dispatcher.go:78 | every step keeps the permit count equal to the permit holders and within the semaphore's capacity |
| Capacity.BootCapped | internal/dispatch/dispatcher.go:78 | a fresh process starts with no permit in use, as the cap invariant demands |
| Capacity.FinishesOnce | internal/dispatch/dispatcher.go:129-187 | over every run of the process, with any faults and any schedule, a goroutine calls FinishRun at most once, exactly once if it has come to its end, and gives back exactly the permits it took |
| Progress.StepLowers | internal/dispatch/dispatcher.go:129-187 | every action of every goroutine, failed store calls and rerun tokens landing on a running repo included, strictly lowers one natural-number measure |
| Progress.RunsAreBounded | internal/dispatch/dispatcher.go:129-187 | a run without new events has at most as many steps as the measure of its first state |
| Progress.NoDeadlock | internal/dispatch/dispatcher.go:137-152 | with MaxConcurrent at least one, whenever a goroutine is left some goroutine can step, also while a finished run re-enqueues its repo with the last permit |
| Progress.StuckIsQuiescent | internal/dispatch/dispatcher.go:129-187 | no goroutine can step if and only if none is left |
| Progress.Drains | internal/dispatch/dispatcher.go:129-187 | from every state the goroutines alone can come to rest within the bound |
| Progress.RestIsEmpty | internal/dispatch/dispatcher.go:190-204 | at rest all permits are free and the store holds exactly what an earlier process left behind; nothing if it left nothing |
| Progress.CancelledEndsAlone | internal/dispatch/dispatcher.go:190-204 | after Shutdown has cancelled the base context no goroutine waits for another: from every state each can reach its end by its own steps alone, whatever permits are taken |
| Triggers.DrainEndsEmpty | internal/dispatch/dispatcher.go:129-187 | once events stop, every schedule that cannot be continued is finite, with an explicit bound, and ends with all permits free and a store that holds only what nobody owned at the start |
| Triggers.BooksStep | internal/dispatch/dispatcher.go:92-111 | every step that is clean for a key conserves its three balances, whatever fails for other keys: triggers against runs, merges, duplicates, flag, tokens and refusals; Queued answers against goroutines; goroutines against begun, cancelled and waiting runs |
| Triggers.BootIsFresh | cmd/renovate-server/main.go:153-160 | a process over any store in which the key is sane (flag or handle only on a running entry) is one of the fresh processes of the statements below |
| Triggers.TriggerConservation | internal/dispatch/dispatcher.go:92-111 | over every run of a fresh process that is clean for the key, store calls for other keys failing at will, if no rerun flag of the key expires: external triggers plus the flag found at the start are exactly runs won, merges, duplicate deferrals, refused tokens, flag and tokens under way; runs never outnumber triggers |
| Triggers.NoTriggerLost | internal/dispatch/dispatcher.go:102-110 | over every run of a fresh process that is clean for the key, store calls for other keys failing at will, for a key new to the store or left running there (its flag not expiring): each accepted event was followed by a later run, a cancellation or a refusal of its rerun by the rules, or its run is still to come; keys left queued are the subject of Restart.RestartMindsTriggers |
| Triggers.NothingLostStep | internal/dispatch/dispatcher.go:102-110 | no step that is clean for a key loses an event of it that was settled, covered or about to come back through recovery |
| Triggers.OwnedLasts | internal/store/redis.go:17-18 | for a key that was not stored at the start no flagged entry ever expires in a run that is clean for it, so the statements above need no assumption on expiry |
| Triggers.EveryEventRuns | internal/dispatch/dispatcher.go:102-110 | without shutdown and with every repo enabled, whenever the goroutines are at rest every accepted event for a repo not stored at the start has been followed by a run of its repo that began later, whatever store calls failed for other repos |
| Triggers.OneFollowUp | internal/dispatch/dispatcher.go:183-186 | when a run ends it is handed exactly one rerun token if at least one event was deferred during it, none otherwise; for every key whose flag does not expire, and for adopted runs as well, where a flag left by the process before counts as one event |
| Triggers.TokensComeFromRuns | internal/dispatch/dispatcher.go:183-186 | every rerun token, and every refusal of one by the rules, goes back to an earlier observation that a run of its repo ended with a rerun due; a goroutine that re-enters Enqueue says "rerun" |
| Triggers.TokenKeepsGroupBusy | internal/dispatch/dispatcher.go:183-186 | a rerun token under way is counted by the wait group, so it cannot reach zero between a run and its rerun |
| Triggers.FlagKeepsGroupBusy | internal/dispatch/dispatcher.go:116-126 | while an owned entry is flagged the wait group is not at zero, except between the two halves of an Adopt of that key |
| Triggers.GracefulShutdown | internal/dispatch/dispatcher.go:190-204 | when the wait group is at zero and no call is in progress, for every key new to the store or left running there: permits free; a new key has neither entry nor handle and each of its events is settled; an event of a key left running is settled or still in the flag of its entry |
| Expiry.TimedExclusion | internal/store/redis.go:17-59 | with expiry and with store calls failing in any way: if every stage of every owner is shorter than the whole-second TTL (a lost StartRun leaves the lease of Queue, a lost Adopt that of the process before), every timed run projects to a benign run that drops only unowned entries; one owner per repo, never two runs in flight. The projection is clean if moreover every step is clean and no entry expires before its handle |
| Expiry.WrittenKeeps | internal/store/redis.go:17-59 | after every write, failed ones included, the lease of each owned key covers the stage its owner is in |
| Expiry.BootTimed | internal/store/redis.go:67-69 | a fresh process over any stored entries with leases starts with the timed invariant |
| Expiry.PurgeKeeps | internal/store/redis.go:86 | under the timing assumption only entries that nobody owns and recovery will not visit expire |
| Expiry.QuietEntryExpires | internal/store/redis.go:17-18 | an entry whose key sees no write until its lease has run out is gone, whoever owned it, and the next Queue answers Queued |
| Expiry.QueueRenews | internal/store/redis.go:20-33 | every Queue that reaches the store gives its key the full lease from now, stored or not, whoever owns it and whatever the answer |
| Expiry.FedEntryStays | internal/store/redis.go:17-33 | the converse of QuietEntryExpires over whole runs: an entry for which a Queue reaches the store at least once within every lease never expires, owned or not; a stale lock heals after a quiet lease and not before |
| Expiry.WholeSecondsIsFloor | internal/store/redis.go:86 | the lease is the largest whole number of seconds within the TTL, and none for a TTL below one second |
| Expiry.OverrunDoubles | internal/store/redis.go:86 | an owner in any phase whose key sees no effective write until its lease has run out can be doubled by one more event |
| Expiry.SubSecondTtlNeverLocks | internal/store/redis.go:86 | with a TTL below one second a repo queued for a run is not stored afterwards, and one more event can double the run |
| Hazards.BenignIsExact | internal/store/memory.go:31-73 | with two permits free and every repo enabled, a step is benign if and only if exclusion survives every benign continuation of it |
| Hazards.NeedsBenign | internal/store/memory.go:31-73 | every enabled step that is not benign can be followed by a run of events, recovery and goroutine steps without faults that ends with two runs of one repo in flight |
| Hazards.MissingEntryDoubles | internal/store/memory.go:35-38 | an owner in any phase whose entry is missing can be doubled by one event |
| Hazards.TwoOwnersDouble | internal/dispatch/dispatcher.go:129-187 | two owners of one key, in any phases, can both get to their executors, or one takes the entry of the other with it |
| Hazards.AdoptOwnedDoubles | internal/store/memory.go:67-73 | adopting a repo that has an owner in any phase can double its run, since Adopt leaves an existing entry alone |
| Hazards.LostAdoptDoubles | internal/store/redis.go:133-140 | an Adopt whose request is lost, for a repo without an entry, can be followed by a second run |
| Hazards.ExpiryDoubles | internal/store/redis.go:17-18 | an entry that expires under its owner, whatever the owner is doing, can be followed by a second run |
| Hazards.ExpiryBeforeRecoveryDoubles | cmd/renovate-server/main.go:183-195 | an entry that expires before recovery has visited it can be followed by a second run: recovery clears what an event has queued afresh |
| Hazards.RecoveryDoubles | cmd/renovate-server/main.go:183-195 | a recovery snapshot that sees a repo with an owner in any phase can be followed by a second run |
| Restart.RestartIsExact | cmd/renovate-server/main.go:162-199 | over any store, with MaxConcurrent at least two and every repo enabled: adopting from a set of keys with the adopted goroutines free to do anything, Queue included, no event before the snapshot and no lost Adopt of an absent key, then snapshot, then anything benign, is safe for all such schedules and faults if and only if none of the keys is stored as queued or with the rerun flag |
| Restart.MainIsStartup | cmd/renovate-server/main.go:162-199 | if none of the keys to adopt is stored as queued or flagged, no schedule and no fault gets anyone to Queue before the snapshot, given that events come in only afterwards and no Adopt of an absent key is lost |
| Restart.QuietRestartIsExact | cmd/renovate-server/main.go:162-199 | under the schedule assumption that nobody calls Queue before the snapshot (events may come in), no lost Adopt of an absent key, MaxConcurrent at least one and every repo enabled: restart is safe if and only if none of the adopted keys is stored as queued |
| Restart.RestartExcludes | cmd/renovate-server/main.go:162-199 | over any stored entries and handles and any adopted keys none of which is stored as queued, if nobody calls Queue before the snapshot, with every store fault except a lost Adopt of an absent key: after the snapshot and after every benign run that follows, one owner per key, an entry for every owner, no repo with two runs in flight |
| Restart.LostStartDoubles | internal/store/redis.go:113-120 | a concrete benign run from an empty store in which only StartRun is lost leaves a saved handle on a queued entry, and the restart over it is not safe |
| Restart.LostDeleteDoubles | internal/store/redis.go:171-177 | from any state in which a run polls, a lost DeleteRunHandle, FinishRun and one event leave a handle on a queued entry, and the restart over it is not safe |
| Restart.OnlyTwoFaultsEndangerRestart | internal/store/redis.go:113-177 | a saved handle has a running entry in every state of every benign run with any store faults except a lost StartRun and a lost DeleteRunHandle request (adopted runs not stored as queued and resuming their handle, no entry expiring before its handle); so after a crash anywhere the restart from the handles is safe while nobody calls Queue before the snapshot, and for every schedule if no adopted run is flagged |
| Restart.EarlyRerunDoubles | cmd/renovate-server/main.go:173-190 | why Queue before the snapshot matters: a concrete fault-free startup over any running, flagged entry with a handle, in which the adopted run ends and re-enqueues itself before the snapshot, which then sees a repo with an owner and leads to two runs in flight |
| Restart.CrashKeepsInv | internal/store/redis.go:67-69 | what a crash leaves in the store satisfies the invariant for the next process, and a repo with a handle is not queued |
| Restart.TidyStartup | cmd/renovate-server/main.go:162-176 | every fault-free startup in which nobody calls Queue and that adopts each key at most once, resuming a handle exactly if there is one, is a clean run: it keeps the full invariant, leaves every other entry as it was, and every adopted key has an owner or its run has ended |
| Restart.RestartRestores | cmd/renovate-server/main.go:162-199 | crash in any state of a healthy process, adopt keys that are not queued with nobody calling Queue, take the snapshot: the full invariant is back, recovery will visit exactly the repos queued at the crash, every other stored repo is locked out, and every clean run afterwards keeps one owner and one run per repo |
| Restart.RestartRecovers | cmd/renovate-server/main.go:181-199 | if nobody calls Queue before the snapshot: every repo queued at the crash and wanted by the rules is, in every state of every later run that is clean for it, still to be visited, on its way to Queue, queued with exactly one owner, or it has begun or been cancelled; once visited and at rest it has begun or been cancelled; store calls for other repos may fail |
| Restart.RestartMindsTriggers | cmd/renovate-server/main.go:181-199 | if nobody calls Queue before the snapshot: no event for a repo left queued is lost either; one that came in before recovery visited the repo is followed by the run that recovery starts, and once visited and at rest every event is settled |
| Restart.TrackedRun | cmd/renovate-server/main.go:187-195 | however recovery is interleaved with ending adopted runs, starting recovered runs and new events, and whatever store calls fail for other keys, it drops no queued repo that the rules want |
| Restart.VisitedRun | cmd/renovate-server/main.go:191 | whatever the rules say and whatever fails for other keys, once recovery has visited a key no stale entry of it is left |
| Restart.LockedOutRun | cmd/renovate-server/main.go:178-180 | a repo left running without an adopted run stays locked out over every run that is clean for it until it is adopted or expires |
| Startup.StartProcess | cmd/renovate-server/main.go:153-199 | the whole startup on runs that are stored neither as queued nor with the rerun flag, the other goroutines making any clean run at every scheduling point, Queue included, with no event during adoption and no reload during startup: the full invariant, no repo with two runs in flight, every given run adopted, no stale queued entry left, and every queued repo that the rules want has come back (has begun, is on its way to Queue, or has exactly one owner) |
| Startup.RecoverQueued | cmd/renovate-server/main.go:181-199 | the recovery loop beside adopted runs that end and recovered runs that start: it visits every queued key, leaves no stale entry, and every queued repo that the rules want has come back |
| Startup.AdoptRuns | cmd/renovate-server/main.go:173-175 | the adoption loop beside adopted runs that already wait, end and are free to call Queue: on keys stored neither as queued nor flagged it is one of the startup runs of the restart statements and adopts every run it was given |
| Startup.AdoptionIsExact | cmd/renovate-server/main.go:163-176 | in whichever order the executors are visited, the loop adopts exactly the repos whose readable handle names a configured executor, none twice, each with the pipeline, platform and repo of the record filed under its key |
| Startup.HandlesStayFiled | internal/executor/gitlabci/gitlabci.go:136-150 | over every run in which runs save records with their own platform and repo, every readable handle stays filed under the key of the repo it describes |
| Startup.HandlesAreLastWrites | internal/store/memory.go:75-93 | over every run, whatever fails, the stored handle of a key is the last one whose write reached the store |
| Startup.SaveCrashAdopt | internal/executor/gitlabci/gitlabci.go:136-185 | save, crash, adopt: whatever happens between, as long as it does not touch this handle, the next process resumes the very pipeline that was saved, for the very repo, and nobody else adopts that repo |
| Dispatcher.Dispatcher.constructor | internal/dispatch/dispatcher.go:64-84 | a new dispatcher is the protocol's boot state over its store |
| Dispatcher.Dispatcher.RunTask | internal/dispatch/dispatcher.go:129-153 | run in program order, with any clean run of the rest of the process at every scheduling point: on every path the goroutine calls FinishRun exactly once, gives back the permit it took and ends; it is still blocked only while all permits are taken and nothing is cancelled |
| Dispatcher.Dispatcher.AdoptedTask | internal/dispatch/dispatcher.go:120-126 | the adopted wait in program order under the same interference: exactly one FinishRun, no permit kept, and the goroutine ends |
| Dispatcher.Dispatcher.FinishTask | internal/dispatch/dispatcher.go:183-187 | finish in program order: FinishRun, then Enqueue if a rerun was deferred, and the goroutine stands where its deferred calls take over |
| Dispatcher.Dispatcher.Execute | internal/dispatch/dispatcher.go:138-153 | run from the permit on: acquire, StartRun, executor, finish, release, leave; the result is a clean run of the protocol at whose end the goroutine is gone |
| Dispatcher.Dispatcher.Enqueue | internal/dispatch/dispatcher.go:94-111 | load, queue and spawn in program order, with the rest of the process running in between: a clean run of the protocol at whose end the caller is back |
| Dispatcher.Dispatcher.Adopt | internal/dispatch/dispatcher.go:116-126 | store first, goroutine second, with only the steps of others in between |
| Dispatcher.OthersKeep | internal/dispatch/dispatcher.go:94-187 | no step of another goroutine or of the environment moves a goroutine |
| Router.ReloadSparesRuns | internal/dispatch/dispatcher.go:86-90 | a router swap leaves everything in flight alone: over every run without a new route lookup, with any faults, the process with the new rules does exactly what it would have done with the old ones |
| Dispatcher.Dispatcher.ReadQueued | cmd/renovate-server/main.go:183-190 | the keys recovery visits are those stored as queued that split in two |
| Dispatcher.Dispatcher.ClearStale | cmd/renovate-server/main.go:191 | removes the stale entry of a key recovery has to visit |
| Store.Memory.Queue | internal/store/memory.go:31-44 | answers Queued and creates a queued entry iff the repo had none, Deferred and sets the flag iff it is running, Coalesced without change otherwise |
| Store.Memory.StartRun | internal/store/memory.go:46-53 | a tracked repo becomes running with a new time; an untracked one is left alone |
| Store.Memory.FinishRun | internal/store/memory.go:55-65 | removes the entry and returns its rerun flag, false for an untracked repo |
| Store.Memory.Adopt | internal/store/memory.go:67-73 | creates a running entry only if there is none |
| Store.Memory.Snapshot | internal/store/memory.go:95-103 | returns every entry |
| Store.Memory.constructor | internal/store/memory.go:24-29 | a new store tracks nothing |
| Store.Memory.SaveRunHandle | internal/store/memory.go:75-79 | one handle per key, overwritten by a later save; entries untouched |
| Store.Memory.LoadRunHandles | internal/store/memory.go:81-87 | returns every handle |
| Store.Memory.DeleteRunHandle | internal/store/memory.go:89-93 | removes the handle; a missing key is left alone; entries untouched |
| Redis.RedisStore.QueueScript | internal/store/redis.go:20-33 | the script does to the represented entries what the store contract says, answers 0, 1 or 2 accordingly, and in every case, existing keys included, leaves the key with a lease of the whole seconds of the TTL from now; with a TTL below one second it answers as if the repo had been queued and leaves nothing stored |
| Redis.RedisStore.StartRunScript | internal/store/redis.go:35-41 | implements StartRun and renews the lease of a tracked repo only, for any TTL |
| Redis.RedisStore.FinishRunScript | internal/store/redis.go:43-50 | implements FinishRun and ends the lease |
| Redis.RedisStore.AdoptScript | internal/store/redis.go:52-58 | implements Adopt and renews the lease also of an existing entry; with a TTL below one second it leaves nothing stored |
| Redis.RedisStore.Queue | internal/store/redis.go:92-111 | an error is answered Coalesced, whether or not the script took effect; a script that ran has renewed the lease |
| Redis.RedisStore.FinishRun | internal/store/redis.go:122-131 | an error is answered "no rerun", whether or not the script took effect |
| Redis.RedisStore.StartRun | internal/store/redis.go:113-120 | an error is only logged: the entry may or may not have become running |
| Redis.RedisStore.Adopt | internal/store/redis.go:133-140 | an error is only logged: the entry may be missing afterwards if there was none |
| Redis.RedisStore.SaveRunHandle | internal/store/redis.go:144-150 | stores the handle with the uncut TTL and leaves entries and leases alone |
| Redis.RedisStore.DeleteRunHandle | internal/store/redis.go:171-177 | deletes the handle unless the request is lost; entries and leases untouched |
| Redis.RedisStore.Expire | internal/store/redis.go:24-27 | a lease of no seconds deletes the key at once, a missing key gets none |
| Redis.RedisStore.Snapshot | internal/store/redis.go:179-202 | the scan over prefixed keys reads back exactly the represented entries |
| Redis.RedisStore.LoadRunHandles | internal/store/redis.go:152-169 | the scan reads back exactly the stored handles |
| Redis.KeyNamesDistinct | internal/store/redis.go:84 | repo and handle keys never meet and each gives its repo key back, for every prefix |
| Redis.RedisRefinesMemory | internal/store/redis.go:19-59 | with a TTL of at least one second, for every sequence of operations without faults and expiry, both stores give the same replies, snapshots and handle listings |
| Handles.AdoptRunning | internal/executor/gitlabci/gitlabci.go:156-185 | an executor adopts each of its own readable handles once and nothing else, each run with the pipeline, platform and repo that the record under its handle key holds; deletes exactly the corrupt handles and leaves the others |
| Handles.AdoptAll | cmd/renovate-server/main.go:163-176 | all executors in turn: each adopts its own handles, only corrupt handles disappear |
| Handles.AdoptionPartitions | internal/executor/gitlabci/gitlabci.go:136-185 | no two adopted runs of any executors concern the same repo, and together they are exactly the readable handles naming a configured executor |
| Handles.SavedIsResumed | internal/executor/gitlabci/gitlabci.go:156-185 | for a readable handle its executor, and no other, adopts exactly one run, of the same repo and the same pipeline |
| Poll.PollPipeline | internal/executor/gitlabci/gitlabci.go:187-221 | stops at the first response that is a terminal status, an ended context or the fifth consecutive error, with the verdict of that response; otherwise keeps polling |
| Poll.TrailingErrorsCount | internal/executor/gitlabci/gitlabci.go:201-209 | the error counter is at least n exactly when the last n responses all failed |
| Poll.PollOutcomes | internal/executor/gitlabci/gitlabci.go:187-221 | success exactly at a first "success"; failure exactly at a first "failed", "canceled" or "skipped", with that status; giving up exactly at the fifth failed request in a row; interruption exactly when the context has ended; each with nothing before it that stops the poll |
| Poll.LiveSuccess | internal/executor/gitlabci/gitlabci.go:187-221 | with a live context polling ends in success exactly at a success status that is the first terminal status and has no five consecutive errors before it |
| Router.CheckPlatforms | internal/config/load.go:138-188 | finds the first platform that is faulty or repeats a name; otherwise the name table holds exactly the configured names with their types |
| Router.CheckPlatform | internal/config/load.go:146-186 | the checks on one platform, branch by branch in source order, accept exactly the platforms that are well-formed |
| Router.CheckExecutors | internal/config/load.go:190-237 | finds the first executor that is faulty, repeats a name or references a missing gitlab platform; otherwise the name set is exactly the configured names |
| Router.Validate | internal/config/load.go:124-263 | accepts exactly the valid configurations and otherwise blames the first problem in source order |
| Router.BlameIsUnique | internal/config/load.go:124-263 | a configuration has at most one first problem, and a valid one has none |
| Router.NewRouter | internal/dispatch/router.go:31-45 | compiles the rules in order, each with its own pattern, its own switch and the executor it names, and fails exactly if an enabled rule names no executor |
| Router.RouteIsFirstMatch | internal/dispatch/router.go:48-58 | a route is that of the first matching rule, and disabled if none matches |
| Router.RouteFollowsConfig | internal/dispatch/router.go:31-58 | in terms of the configured rules alone: the first rule whose pattern matches decides, with the executor it names or disabled exactly if it says so; a name that no rule matches is disabled |
| Router.RulesAfterCatchAllAreDead | internal/dispatch/router.go:48-58 | whatever follows the first catch-all rule never changes a route |
| Router.BuiltMakes | cmd/renovate-server/main.go:114-141 | the executor object under a name is the one made from the configured entry of that name |
| Router.ValidConfigRoutes | internal/config/load.go:240-261 | a valid configuration always compiles on the executors built from it; to every repo some configured rule applies, the repo is disabled exactly if that rule says so, and otherwise goes to the object made from the configured executor that the rule names |
| Router.ProtocolRoutesByFirstMatch | internal/dispatch/dispatcher.go:96-100 | the protocol's router sends a repo where the first configured rule whose pattern matches says |
| Router.PipelinePlatformExists | cmd/renovate-server/main.go:117-120 | the executor of a valid configuration always finds its gitlab platform |
| Router.Reload | cmd/renovate-server/main.go:227-249 | a reload takes effect exactly if the file is valid and keeps platforms and executors; compiling its rules cannot fail; otherwise router and rules stay |
| Checkbox.MatchIsUnique | internal/platform/checkbox.go:26 | from a given start the pattern matches in at most one way, the one found from left to right |
| Checkbox.OverlapSharesEnd | internal/platform/checkbox.go:26 | overlapping matches end at the same place |
| Checkbox.ScanCountsEnds | internal/platform/checkbox.go:31-33 | the leftmost non-overlapping scan counts the distinct ends of matches |
| Checkbox.TickChangesByOne | internal/platform/checkbox.go:28-33 | ticking one unchecked list item raises the count by exactly one, so unticking lowers it by one |
| Checkbox.MarkedIsGreedy | internal/platform/checkbox.go:35 | the marker scan reports a match exactly where there is one, with the last comment on the line |
| Checkbox.MarkerCountIsExact | internal/platform/checkbox.go:35-43 | the count is the length of the list of leftmost non-overlapping matches, each with the last comment on its line and none starting in a gap; every such list has that length; the count is positive exactly if there is a match |
| Checkbox.MarkerItemsAreItems | internal/platform/checkbox.go:37-43 | marker items are never more than checked items |
| History.History.constructor | internal/history/history.go:31-36 | an empty buffer of the given size, 100 if that is not positive |
| History.History.Record | internal/history/history.go:39-48 | appends to the log the buffer stands for |
| History.History.Entries | internal/history/history.go:51-63 | returns exactly the last entries of the log that fit, newest first |
| History.RecordAll | internal/history/history.go:31-63 | after any sequence of records into a fresh buffer of any size, the last min(n, size) of them come back newest first |
| RepoKey.SplitKeyRoundTrip | cmd/renovate-server/main.go:187 | recovery rebuilds a repo from its key exactly if the platform name has no colon, whatever the full name holds |
| RepoKey.KeyInjective | internal/platform/platform.go:38 | keys of repos with colon-free platform names are equal only for equal repos |
| RepoKey.ColonPlatformsCollide | internal/platform/platform.go:38 | recovery rebuilds the one repo with a colon-free platform name that has the key; for every repo whose platform name holds a colon that is a different repo |

## Left out

- HTTP server, status and trigger endpoints, metrics, logging: no state of the protocol.
- Webhook authentication and payload parsing, repo discovery, Docker and Kubernetes calls: executors are calls that return at any time; adoption of Kubernetes jobs appears only as the protocol's adoption without a handle.
- YAML decoding, environment expansion, defaults, cron and quantity parsing, glob syntax and JSON: parameters. The glob matcher is an arbitrary predicate of which only "`**` matches" is used, handle decoding an arbitrary partial function.
- Real time: a logical clock that any step may find advanced. The run timeout appears as the executor being able to return at any point, debounce as a timer that may fire at any point.
- Redis key scans are by literal prefix; a key prefix containing glob characters, and scans that fail half-way, are not modelled except that the recovery snapshot may be any subset of the queued keys. The TTL is cut to whole seconds exactly, without the rounding of Go's floating-point `Seconds`.
- Recovery's FinishRun and the start of its Enqueue call are one step, since the main goroutine does nothing between them; likewise a goroutine's spawn and its entry into the wait group.
- Redis.RedisStore.constructor: requires a time format that reads back what it wrote. The store's invariant excludes entries written under a longer TTL that meet a TTL below one second after a change of configuration; the queue script can then leave a hash that holds only the rerun flag.
- Restart.RestartRestores: no store call fails, nothing expires and nobody calls Queue up to the snapshot; with faults and expiry the statement is Restart.RestartExcludes, and that nobody calls Queue is shown by Restart.MainIsStartup for adopted keys without the rerun flag. For flagged ones the code does not ensure it.
- Restart.RestartIsExact: leaves out a lost Adopt of an absent key, which is unsafe whatever else holds (Hazards.LostAdoptDoubles).
- Restart.RestartRecovers: repos that the rules want throughout; a repo that a reload disables before recovery reaches it is dropped by design. The same holds for Restart.RestartMindsTriggers.
- Startup.StartProcess: at its scheduling points no event comes in during adoption, no reload happens during startup and nothing expires during adoption; the server, cron and the reload handler start after recovery, and the class works on the in-memory store.
- Dispatcher.Dispatcher.RunTask: a Dafny method has to end, so the wait for a permit is tried a given number of times; that the wait ends is Progress.NoDeadlock with Progress.StepLowers. The class works on the in-memory store, so its own calls do not fail, and neither do those of the goroutines beside it; faults are covered by the protocol statements, Capacity.FinishesOnce among them.
- `RepoAllowed`, `HasRenovateDebugMarker`, `BranchHasPrefix`, error-message truncation: one-line predicates.
