# DevOps platform: verified models of its lifecycle and messaging protocols

The platform runs short-lived sandbox sessions. A Go worker provisions and reaps containers and shares
terminals; TypeScript services keep outboxes, tokens and streaks; the browser reconnects. What is hard
about it is what happens when its steps interleave and its remote calls fail, so most modules come in
two halves:

- a **state machine** whose steps are the code's critical sections or awaited calls, with everything
  remote (Redis, Postgres, Kafka, RabbitMQ, Docker, clocks, random numbers) answering as it likes.
  Its theorems are about every state of every run (`Runs.IsRun`);
- a **class** in the shape of the source (same fields, same loops, same early returns). The contracts
  of its methods write the new state out on the fields, and the methods are proved to be, or to follow,
  the machine's steps.

| module | what it is about |
|---|---|
| `SessionControl`, `SessionManager` | concurrent Create and Destroy of a session; memory index, Redis record and container |
| `Daemon`, `SandboxReaper` | the worker's sweep, the disk quota and the orphan sweep over a Docker daemon |
| `Progress` | provisioning progress: history snapshot plus live channels |
| `Fanout`, `Multiplexer` | one shared terminal and its subscribers; the registry of shared terminals |
| `OutboxTable`, `CircuitBreaker` | the outbox query and row updates, and the breaker, that both outboxes use |
| `AuthOutbox`, `AuthDraining` | the single-flight outbox: order and draining |
| `CoreOutbox`, `CoreHistory`, `SerialPolls`, `SessionReaper` | overlapping polls and reapers over one table, and what a run does to each row; leadership and cycles of the reaper |
| `RefreshCookie`, `RefreshTokens`, `Revocation` | refresh rotation with a grace window; revocation by time |
| `Calendar`, `StreakDays`, `Streak` | UTC midnights, streaks by days, and `calculateStreak` on timestamps |
| `TerminalMachine` | the reconnect budget with stale sockets and timers in flight |
| `KafkaProducer` | the self-healing connector |
| `Roadmap` | merging roadmap progress as an ordered union |
| `Runs`, `Numbers`, `Wrappers` | induction over runs; small arithmetic; shared datatypes |

Where the code does not do what its comments or names suggest, the model follows the code. Each such
place has a concrete counterexample and the exact condition under which the expectation holds:

- `Destroy` does not take the per-session mutex that `Create` takes. Overlapping one with the other can
  lose a container (`SessionControl.OverlapLosesAContainer`), and so can a restart after the Redis record
  has expired (`ExpiryThenRestartLosesAContainer`); `LostExactly` names the three steps that do it. The
  claims about concurrent Creates are for runs in which no Destroy of the session overlaps one.
- The orphan sweep is documented to remove containers whose session is not active, but `Provision`
  sets no session id label, so being active does not protect a container: a healthy session older than
  five minutes loses its container, and at the next sweep itself (`SandboxReaper.HealthySessionIsLost`,
  `ProvisionedIsSparedExactly`, `NextSweepKeepsExactly`).
- The core outbox calls a row that used up its retries failed for good. A stale write-back of an
  overlapping poll can make it pending again (`CoreOutbox.PoisonIsNotForGood`, `PoisonUndoneExactly`);
  with polls one at a time it cannot (`SerialPolls.PoisonIsForGood`).
- Requests that start or end a session mark rows by payload, so a row can be marked processed for the
  acceptance of another row's event (`CoreOutbox.MarkedForItsTwin`). `MarkedUnacceptedExactly` names the
  step that does it and `UnacceptedExactly` the rows of a run it is done to; rows written by a reaper never
  are.
- A progress subscriber that leaves while a publisher still has its channel makes the publisher send on
  a closed channel, which panics (`Progress.LeavingEarlyPanics`, `PanicFreeExactly`).
- A terminal subscriber that joins after the read loop has closed the others stays open for good
  (`Fanout.SubscriberCanBeLate`, `LateSubscriberIsStranded`, `AfterTheLoop`).
- A terminated terminal does not stay idle while a close event is on its way
  (`TerminalMachine.TerminateThenReconnecting`, `IdleLastsExactly`), and an unmounted one connects again
  if a health check was under way (`UnmountThenConnecting`, `UnmountIsFinalExactly`).
- A row of the auth outbox with ten rows of unknown type pending before it is never delivered
  (`AuthDraining.BlockCanHappen`, `OneOfTwoCanBeStuck`, `SettlesExactly`). Every insert in the auth service
  is of a known type, so only rows written by another version of it can do so.
- A replay of a refresh token is meant to cost the user every session. The revocation runs inside a try
  whose catch answers that the session has expired, so a failed scan or deletion leaves keys active under
  that reply (`RefreshTokens.FailedScanKeepsKeys`, `ReplayRevokesExactly`).
- Two overlapping revocations whose Redis writes swap leave a token of the later one accepted
  (`Revocation.OvertakenCallMisses`, `CoverageExactly`).
- The Kafka connector no longer heals once making a producer object has thrown before the connect
  (`KafkaProducer.BreaksForGood`, `HealsExactly`). The service makes it with no arguments, so whether that
  can happen is a matter of the Kafka library.
- A save of a session that took effect and failed leaves in Redis the record of a container that was
  removed (`SessionControl.FailedSaveLeavesARecord`, `SessionManager.Manager.Provision`).
- `Date.UTC` remaps the years 0 to 99, so a streak can break between two consecutive days
  (`Streak.RemappingBreaksAStreak`, `DayDiffExactly`, `Calendar.MidnightRebuilt`).

The calendar follows section 15.9.1 of ECMA-262 5.1, close codes section 7.4.1 of RFC 6455, token
claims sections 4.1.4 and 4.1.6 of RFC 7519, and refresh rotation is the one of section 5.2.2.3 of
RFC 6819.

`dafny verify dfyconfig.toml` checks the whole project; it needs Dafny 4.11 and nothing else.

## Model

| member | source | states |
|---|---|---|
| SessionControl.StepKeepsInv | services/sandbox/internal/session/manager.go:179-349 | every step of Create, Destroy, a restart, an expiry or a damaged record keeps mutual exclusion, cache coherence, agreement and the container accounting, when no Destroy overlaps a Create |
| SessionControl.CreatesAreSerialized | services/sandbox/internal/session/manager.go:180-275 | in every interleaving of any number of Creates of one session at most one is between the existence check and the registration |
| SessionControl.CreatesNeverDeadlock | services/sandbox/internal/session/manager.go:180-275 | in every interleaving, Destroys included, while a Create has not returned it or the holder of its mutex can take a step |
| SessionControl.CreateStepLowers | services/sandbox/internal/session/manager.go:180-275 | every step of a Create, whatever Redis and the provider answer, brings it nearer to its return, at most seven steps away |
| SessionControl.MutexDroppedOnlyByRegistering | services/sandbox/internal/session/manager.go:272-276 | the in-flight mutex goes only in the step that registers the session, or with the process |
| SessionControl.CreatesAgree | services/sandbox/internal/session/manager.go:193-199 | all Creates that succeed between two restarts or destroys return one and the same record, so one runtime id |
| SessionControl.ContainersAreAccountedFor | services/sandbox/internal/session/manager.go:66-76 | once calls are over, every container ever provisioned is the registered one, was removed, is one whose removal failed, or was lost by a restart of this very run that found no record naming it |
| SessionControl.OrphanedByARestart | services/sandbox/internal/session/manager.go:66-76 | for every such orphan, the restart that lost it: it was in use until then, and what the worker adopted did not name it |
| SessionControl.CacheIsCoherent | services/sandbox/internal/session/manager.go:218-305 | in every reachable state a session both in memory and readable in Redis has the same record in each, so Get answers what Redis would |
| SessionControl.RestartAnswersLikeRedis | services/sandbox/internal/session/manager.go:66-76 | after a restart Get answers exactly what Redis answers, whether or not the key could be read at the start |
| SessionControl.OverlapLosesAContainer | services/sandbox/internal/session/manager.go:308-349 | without the scope it fails: a run in which both calls return and a provisioned container is neither indexed nor removed |
| SessionControl.LostExactly | services/sandbox/internal/session/manager.go:272-344 | in any interleaving an indexed container stops being named, with no attempt to remove it, exactly when a Destroy that did not try to remove it forgets the session, another is registered over it, or a restart does not adopt a record naming it; in scope only the last |
| SessionControl.ExpiryThenRestartLosesAContainer | services/sandbox/internal/session/manager.go:66-76 | a run in scope in which a record expires, the worker restarts, and a running container is neither indexed nor removed |
| SessionControl.FailedSaveLeavesARecord | services/sandbox/internal/session/manager.go:265-270 | a run in scope in which a save takes effect and fails: the container is removed, and Redis and Get still name it |
| SessionManager.RedisStore.Save | services/sandbox/internal/store/redis.go:127-147 | the record is stored under its id unless the write is rejected, and an error may come back although it is |
| SessionManager.RedisStore.Get | services/sandbox/internal/store/redis.go:150-173 | a missing key is no error; a failed read and an entry that does not decrypt are; a record found is the one of that id |
| SessionManager.RedisStore.Delete | services/sandbox/internal/store/redis.go:176-182 | removes that key and no other |
| SessionManager.RedisStore.AllSessions | services/sandbox/internal/store/redis.go:185-225 | an error exactly when some scan answers with one; otherwise the answer holds exactly the records under the scanned keys that can be read and decrypted, however the cursor batches and repeats them |
| SessionManager.ResolveProvider | services/sandbox/internal/session/manager.go:103-121 | the chain of fallbacks, always a configured provider; none is found exactly when there are none |
| SessionManager.Manager.New | services/sandbox/internal/session/manager.go:38-80 | fails exactly when the scan does; otherwise the index re-adopts exactly what can be read in Redis, and the default provider is one that exists |
| SessionManager.Manager.GetProviderByName | services/sandbox/internal/session/manager.go:103-121 | on a constructed manager: the named provider, else the default, and none only if there are no providers |
| SessionManager.Manager.GetOrCreateMutex | services/sandbox/internal/session/manager.go:180-187 | the critical section is the machine's Begin step, and leaves other sessions' mutexes alone |
| SessionManager.Manager.Register | services/sandbox/internal/session/manager.go:272-276 | the critical section is the machine's Register step |
| SessionManager.Manager.Forget | services/sandbox/internal/session/manager.go:340-344 | the critical section is the machine's last Destroy step |
| SessionManager.Manager.Get | services/sandbox/internal/session/manager.go:284-305 | memory first, then Redis, case by case; unreachable Redis is an error unless the session is in memory |
| SessionManager.Manager.Create | services/sandbox/internal/session/manager.go:179-281 | an existing session is returned untouched; otherwise success exactly when provider, container and save succeed, and then index, Redis and mutex are as registered and the container runs; after a failure index, record and containers are written out: no container is left unless its removal failed |
| SessionManager.Manager.Provision | services/sandbox/internal/session/manager.go:218-276 | the part from the announcement in Redis on, on the fields themselves: what becomes of record, container and index in each case; a save that took effect and failed leaves the record of the container that is removed |
| SessionManager.CreateIsSteps | services/sandbox/internal/session/manager.go:179-281 | a Create that nobody interleaves, taken through the machine's steps, leaves the entries and gives the reply that the contract of the method states, case by case |
| SessionManager.RecordIsSteps | services/sandbox/internal/session/manager.go:251-276 | from a started container on, those steps register it, or remove it and say whether that worked |
| SessionManager.Manager.AllActive | services/sandbox/internal/session/manager.go:353-362 | lists every indexed session once and nothing else |
| SessionManager.Manager.Destroy | services/sandbox/internal/session/manager.go:308-349 | a session found in memory is always gone from it; fails only when it is not in memory and Redis cannot say; its container and its record, found in either place, are removed if there is a provider and those calls work; the machine's steps of a Destroy leave the same entries |
| Daemon.Docker.Provision | services/sandbox/internal/sandbox/docker.go:58-98 | a started container carries the platform label and no session id; one that does not start is removed again, if that works |
| Daemon.Docker.Remove | services/sandbox/internal/sandbox/docker.go:201-211 | succeeds only on an existing container; takes away no other |
| Daemon.Docker.IsRunning | services/sandbox/internal/sandbox/docker.go:214-223 | a container that does not exist is not running; only an unanswered inspection is an error |
| Daemon.Docker.EnforceDiskQuotas | services/sandbox/internal/sandbox/docker.go:264-290 | exactly the running platform containers found over the quota are taken away unless their removal fails, and all of them are reported |
| Daemon.Docker.ReapOrphans | services/sandbox/internal/sandbox/docker.go:294-335 | exactly the platform containers of the minimum age with no active session id are taken away, and those whose removal succeeded are reported |
| SandboxReaper.Reaper.SweepSessions | services/sandbox/internal/session/reaper.go:54-103 | the loop is the fold of one visit per session of the snapshot |
| SandboxReaper.Reaper.Run | services/sandbox/internal/session/reaper.go:48-123 | with no sessions nothing is done at all, the orphan sweep included; otherwise the loop, then one orphan pass per distinct provider with the snapshot's ids |
| SandboxReaper.SweepIsExact | services/sandbox/internal/session/reaper.go:57-103 | for each session: it dies exactly if older than its time (10 minutes for guests) or its container was found not to run; then it leaves the index, and its container and record go if the calls work; otherwise all three stay as they were |
| SandboxReaper.DeadContainerLosesItsSession | services/sandbox/internal/session/reaper.go:78-102 | a container that does not run when a sweep begins takes its session with it, even if shared |
| SandboxReaper.QuotaKillLosesItsSession | services/sandbox/internal/sandbox/docker.go:282-286 | a container the disk quota took away loses its session at the next sweep |
| SandboxReaper.SparedExactly | services/sandbox/internal/session/reaper.go:109-122 | over all providers' passes a container survives exactly if each pass spares it, and nothing else changes |
| SandboxReaper.ProvisionedIsSparedExactly | services/sandbox/internal/sandbox/docker.go:303-320 | a provisioned container, active or not, is spared exactly while younger than five minutes or the daemon cannot list or remove it |
| SandboxReaper.ForeignIsSpared | services/sandbox/internal/sandbox/docker.go:294-320 | a container without the platform's label survives every orphan sweep |
| SandboxReaper.NextSweepKeepsExactly | services/sandbox/internal/session/reaper.go:48-123 | a session in good health is kept by the next sweep exactly when the orphan passes of this one spared its container |
| SandboxReaper.HealthySessionIsLost | services/sandbox/internal/session/reaper.go:109-122 | a concrete healthy session whose container the orphan pass removes and which the next sweep drops |
| Progress.StepKeepsInv | services/sandbox/internal/session/progress.go:45-94 | every step of interleaved publishers and subscribers keeps each event in exactly one place per subscriber and each open channel on the list once |
| Progress.ExactlyOnce | services/sandbox/internal/session/progress.go:45-94 | no gap and no duplicate: for a subscriber that has not left, each event is in exactly one of its snapshot, its stream, its dropped set or a publisher's unsent list |
| Progress.FiftyEventsFit | services/sandbox/internal/session/progress.go:59-75 | nothing is dropped while at most fifty events follow the snapshot, whether or not the client reads |
| Progress.SnapshotThenStreamIsHistory | services/sandbox/internal/session/progress.go:45-94 | with one publisher at a time, snapshot followed by stream is the history in order |
| Progress.LeavingEarlyPanics | services/sandbox/internal/session/progress.go:54-91 | such a run exists with one publisher and one subscriber |
| Progress.PatientRunsNeverPanic | services/sandbox/internal/session/progress.go:45-94 | no interleaving panics if subscribers leave once, and only when no publisher still has their channel |
| Progress.PanicFreeExactly | services/sandbox/internal/session/progress.go:45-94 | a run whose publishers are all done, or one of which has panicked, is free of panics exactly if every subscriber that left did so once and while no publisher had its channel |
| Progress.TrackerFollows | services/sandbox/internal/session/progress.go:45-94 | what the tracker's critical sections and sends do to one session's history, list and channels is what the machine does in the same step |
| Progress.ProgressTracker.Record | services/sandbox/internal/session/progress.go:54-57 | the critical section of Publish: appends to the session's history and copies its list, for the observed session the machine's step |
| Progress.ProgressTracker.Send | services/sandbox/internal/session/progress.go:59-64 | one send: the channel takes the event exactly if it holds fewer than fifty |
| Progress.ProgressTracker.Publish | services/sandbox/internal/session/progress.go:45-66 | the two phases together when no subscriber leaves in between |
| Progress.ProgressTracker.Subscribe | services/sandbox/internal/session/progress.go:70-94 | hands out the history so far and a fresh empty channel, registered for that session |
| Progress.ProgressTracker.Unsubscribe | services/sandbox/internal/session/progress.go:79-91 | takes the channel off its session's list, if it is still there, keeps the others in order, and closes it |
| Fanout.StepKeepsInv | services/sandbox/internal/terminal/multiplexer.go:160-209 | every step of the loop, of subscribers and of clients keeps the accounting of each channel |
| Fanout.ClosedAtMostOnce | services/sandbox/internal/terminal/multiplexer.go:160-209 | every channel is closed at most once, never while registered, and never sent to afterwards |
| Fanout.DeliveredInOrder | services/sandbox/internal/terminal/multiplexer.go:160-188 | a client receives, in order and without repetition, chunks read while it was registered, and its buffer took every one of them if in each state of the run in which it was fewer than 1024 were waiting for it |
| Fanout.AcceptedExactly | services/sandbox/internal/terminal/multiplexer.go:160-174 | a chunk goes to exactly the registered channels with fewer than 1024 waiting, and no other step gives or takes anything |
| Fanout.ClosedExactly | services/sandbox/internal/terminal/multiplexer.go:191-209 | a channel is closed exactly by its own Unsubscribe, or by the end of the loop while it is registered |
| Fanout.AfterTheLoop | services/sandbox/internal/terminal/multiplexer.go:156-209 | in every run, a channel that is open when the loop has ended gets no further chunk and is closed exactly if it is registered when its own client unsubscribes |
| Fanout.LateSubscriberIsStranded | services/sandbox/internal/terminal/multiplexer.go:177-209 | so a subscriber that joins after the loop gets nothing and stays open for the rest of every run, unless it unsubscribes |
| Fanout.SubscriberCanBeLate | services/sandbox/internal/terminal/multiplexer.go:177-209 | such a run exists |
| Fanout.TerminalFollows | services/sandbox/internal/terminal/multiplexer.go:160-209 | what the methods do to the subscriber map and the channels is what the machine does in the same step |
| Fanout.SharedPTY.Broadcast | services/sandbox/internal/terminal/multiplexer.go:160-174 | every registered channel takes the chunk exactly if it holds fewer than 1024, in whatever order the map is walked |
| Fanout.SharedPTY.Subscribe | services/sandbox/internal/terminal/multiplexer.go:177-188 | registers a fresh channel, displacing without closing one of the same id |
| Fanout.SharedPTY.Unsubscribe | services/sandbox/internal/terminal/multiplexer.go:191-200 | closes and removes exactly that subscriber, or does nothing |
| Fanout.SharedPTY.CloseSubscribers | services/sandbox/internal/terminal/multiplexer.go:202-209 | closes and removes all of them, each once |
| Multiplexer.StepKeepsInv | services/sandbox/internal/terminal/multiplexer.go:69-158 | every step keeps that an open stream is registered and neither cancelled nor past its closing |
| Multiplexer.OneOpenStream | services/sandbox/internal/terminal/multiplexer.go:69-158 | in every interleaving at most one stream is open per session and it is the registered one |
| Multiplexer.CleanupSparesSuccessors | services/sandbox/internal/terminal/multiplexer.go:124-131 | the cleanup goroutine never unregisters the stream that came after its own |
| Multiplexer.Registry.GetOrStart | services/sandbox/internal/terminal/multiplexer.go:69-134 | reuses the registered terminal or registers a new one, subscribes the caller to it, and changes no other session |
| Multiplexer.Registry.Cleanup | services/sandbox/internal/terminal/multiplexer.go:124-131 | unregisters the session only while it is still registered to that terminal |
| OutboxTable.FetchIsInOrder | services/auth/src/plugins/outbox.ts:46-52 | a batch names pending rows in table order and skips no pending row before its last |
| OutboxTable.FetchNamesExactly | services/auth/src/plugins/outbox.ts:46-52 | a row is in the batch exactly if it is pending and fewer than ten rows before it are |
| CircuitBreaker.Circuit.Check | services/core/src/plugins/outbox-poller.ts:128-136 | trips at the third failure, opens for the backoff and doubles it up to a minute |
| CircuitBreaker.KthOpening | services/auth/src/plugins/outbox.ts:96-126 | in every history the breaker counts the failures since the last success, a check opens it exactly with three of them, the k-th opening since that success lasts min(5000 * 2^k, 60000) ms, and it is open until the last one ends |
| AuthOutbox.StepKeepsInv | services/auth/src/plugins/outbox.ts:23-135 | every step keeps the order of delivery, the bounds of retry counts and what a batch in progress may name |
| AuthOutbox.FirstInFirstOut | services/auth/src/plugins/outbox.ts:46-129 | over whole runs a row has been touched only if every older row of a known type is processed or failed, and it is failed exactly at five retries |
| AuthOutbox.SettledForGood | services/auth/src/plugins/outbox.ts:91-117 | a row that is processed or failed stays so |
| AuthOutbox.RowHistory | services/auth/src/plugins/outbox.ts:84-117 | in every run a row is processed exactly if some step delivered or marked it, its retry count is the number of its failures that were written back, and it is failed exactly at five |
| AuthOutbox.BreakerFollowsHistory | services/auth/src/plugins/outbox.ts:91-127 | in every run the breaker is what that run's own deliveries, failures and checks since the last restart make of it: failures since the last success, end of the last opening, and the next term of min(5000 * 2^k, 60000) ms |
| AuthOutbox.OpensFor | services/auth/src/plugins/outbox.ts:119-126 | the step of a run that opens the breaker opens it for the k-th term, k being the openings the run has had since its last success |
| AuthOutbox.Processor.ProcessOutbox | services/auth/src/plugins/outbox.ts:23-135 | a tick does nothing while one is in progress, the breaker is open, the producer is not ready or the query fails; otherwise it is one cycle over the fetched batch, and the flag is released |
| AuthOutbox.Processor.HandleEvent | services/auth/src/plugins/outbox.ts:54-129 | one event, on the table and the breaker: unknown types are skipped; a delivery marks that row and nothing else, resets the breaker and goes on; a failure counts, writes back one more than was fetched, opens the breaker at three and ends the batch |
| AuthOutbox.CycleDelivers | services/auth/src/plugins/outbox.ts:46-95 | a cycle whose emits succeed processes exactly the pending rows of known types with fewer than ten pending rows before them, and leaves all others as they were |
| AuthOutbox.FetchReachesKnown | services/auth/src/plugins/outbox.ts:46-82 | a batch reaches a row of a known type exactly when fewer than ten unknown ones stand before the first |
| AuthOutbox.CycleProgress | services/auth/src/plugins/outbox.ts:54-129 | a cycle whose writes take effect lowers the sum of attempts left exactly in that case, and changes nothing otherwise |
| AuthOutbox.Drains | services/auth/src/plugins/outbox.ts:23-129 | with fewer than ten unknown rows pending, n rows settle within 5n cycles |
| AuthDraining.DrainsInRuns | services/auth/src/plugins/outbox.ts:23-135 | over machine runs, with rows inserted at any time and cycles cut into steps: a known row with fewer than ten unknown ones pending before it, and n known ones up to and with it, is settled once 5n more cycles have started and the last has ended |
| AuthDraining.StuckForGood | services/auth/src/plugins/outbox.ts:46-82 | a pending row with ten unknown ones pending before it, not named by a cycle under way, is never touched again in any run, whatever else settles |
| AuthDraining.SettlesExactly | services/auth/src/plugins/outbox.ts:23-135 | so over those cycles a pending known row is settled exactly if fewer than ten unknown ones are pending before it |
| AuthDraining.OneOfTwoCanBeStuck | services/auth/src/plugins/outbox.ts:46-82 | a reachable table with two known rows of which the second is stuck and the first is not |
| AuthDraining.BlockedForGood | services/auth/src/plugins/outbox.ts:46-82 | in every run, while ten unknown rows are pending ahead of every known one, no row that exists is touched at all |
| AuthDraining.BlockCanHappen | services/auth/src/plugins/outbox.ts:46-82 | such a table is reachable |
| CoreOutbox.StepKeepsInv | services/core/src/plugins/outbox-poller.ts:21-139 | every step of overlapping polls, reapers, request handlers, late acceptances and restarts keeps rows and all of them consistent |
| CoreOutbox.ProcessedMeansAccepted | services/core/src/plugins/outbox-poller.ts:51-126 | a session row marked processed has had its event accepted by Kafka and RabbitMQ, as the event of some row with that payload, hence as its own if no other row has it, and always as its own if a reaper wrote it; failed holds exactly at retry count 5 despite stale write-backs |
| CoreOutbox.MarkedForItsTwin | services/core/src/modules/challenge/challenge.routes.ts:648-689 | two requests to end one session: a run in which the second row is processed though its own event was never accepted |
| CoreOutbox.MarkedUnacceptedExactly | services/core/src/modules/challenge/challenge.routes.ts:671-682 | a session row becomes processed without its own event accepted exactly by the mark by payload of a request that has had the event of a row with the same payload accepted |
| CoreOutbox.UnacceptedExactly | services/core/src/modules/challenge/challenge.routes.ts:671-682 | in every run, a session row whose own event is not accepted is processed exactly if some step of the run marked it, by payload, for another row |
| CoreOutbox.ReapedSessionsAreAnnounced | services/core/src/plugins/session-reaper.ts:81-103 | for every session a reaper terminated, the row its transaction wrote is pending, failed, or delivered with its own event accepted by both brokers |
| CoreHistory.TerminationsAreAnnounced | services/core/src/plugins/session-reaper.ts:81-103 | in every run, from the step on with which a reaper ends a session it stays terminated, and the row written by that very step is pending, failed, or delivered with its own event accepted by both brokers |
| CoreHistory.TerminatedExactly | services/core/src/plugins/session-reaper.ts:81-94 | in every run a session is terminated exactly if some transaction, a reaper's or a request's, ended it and took effect |
| CoreHistory.ProcessedExactly | services/core/src/plugins/outbox-poller.ts:96-99 | in every run a row is processed exactly if a mark of it took effect: a poll's, a reaper's, or a request's by payload |
| CoreHistory.MarkTakesEffect | services/core/src/plugins/session-reaper.ts:98-103 | the mark of a poll or a reaper sets that row processed and changes nothing else of the table |
| CoreOutbox.ProcessedIsForGood | services/core/src/plugins/outbox-poller.ts:96-126 | no poll or reaper undoes a delivery, an acceptance or a termination |
| CoreOutbox.BreakerFollowsHistory | services/core/src/plugins/outbox-poller.ts:101-136 | in every run, overlapping polls included, the breaker is what that run's own deliveries, failures and checks since the last restart make of it: failures since the last success, end of the last opening, and the next term of min(5000 * 2^k, 60000) ms |
| CoreOutbox.OpensFor | services/core/src/plugins/outbox-poller.ts:128-136 | the step of a run that opens the breaker opens it for the k-th term, k being the openings the run has had since its last success |
| CoreOutbox.PoisonIsNotForGood | services/core/src/plugins/outbox-poller.ts:109-126 | a reachable state in which a row failed at five retries is made pending with a retry count of one |
| CoreOutbox.PoisonUndoneExactly | services/core/src/plugins/outbox-poller.ts:109-126 | a failed row becomes pending exactly by a write-back whose fetched count is below four |
| CoreOutbox.RetriesExactly | services/core/src/plugins/outbox-poller.ts:109-126 | a write-back sets a row to one more than the count fetched, failed from five on, and nothing else touches either |
| SerialPolls.PoisonIsForGood | services/core/src/plugins/outbox-poller.ts:109-146 | if a poll began only when no other was under way, no retry count would go down and no failed row come back, in any interleaving with reapers, brokers and restarts |
| CoreOutbox.DeliverIsSteps | services/core/src/plugins/outbox-poller.ts:51-137 | one pass of the loop body is the machine's steps for that event, uninterrupted |
| CoreOutbox.Poller.Poll | services/core/src/plugins/outbox-poller.ts:21-139 | a tick does nothing while the breaker is open, the producer is not ready or the query fails, and is otherwise the loop over the fetched batch |
| CoreOutbox.Poller.DeliverEvent | services/core/src/plugins/outbox-poller.ts:51-137 | one event, on the table and the breaker: when both brokers accept and the mark is written that row and nothing else is processed; otherwise the failure counts and is written back, and the breaker is checked only after a write-back that succeeded |
| CoreOutbox.PollDelivers | services/core/src/plugins/outbox-poller.ts:51-107 | a poll for which everything succeeds processes exactly the pending rows with fewer than ten pending rows before them |
| SessionReaper.LeaderLock.TryAcquire | services/core/src/plugins/session-reaper.ts:31-42 | the lock is taken exactly if it is free or 90 seconds old; a try without an answer is an error, though it may have taken it |
| SessionReaper.Elect | services/core/src/plugins/session-reaper.ts:31-42 | over any tries of any replicas, failed ones included, the leaders are those that Led lists |
| SessionReaper.LeadersApart | services/core/src/plugins/session-reaper.ts:11-42 | any two leaderships begin at least 90 seconds apart, whatever tries fail in between |
| SessionReaper.LeadershipCadence | services/core/src/plugins/session-reaper.ts:31-118 | while one replica ticks every 60 seconds and Redis answers, the next leader comes 90 to less than 150 seconds after the last |
| SessionReaper.Reaper.Reap | services/core/src/plugins/session-reaper.ts:28-114 | a replica that is not leader, is not told so, or whose query fails changes nothing but the lock; the leader terminates each picked session whose transaction took effect and writes its row |
| SessionReaper.ReapOneIsSteps | services/core/src/plugins/session-reaper.ts:73-112 | the loop body is the reaper's steps of the outbox machine, uninterrupted |
| SessionReaper.CycleTerminatesFifty | services/core/src/plugins/session-reaper.ts:51-112 | a cycle whose transactions succeed terminates fifty expired sessions, or all of them if fewer |
| SessionReaper.CycleExactly | services/core/src/plugins/session-reaper.ts:44-103 | a session a cycle finds was active and older than its minutes (a guest's, or ten, or the standard ones); if its transaction took effect it is terminated and has its own row, marked exactly if brokers and mark succeeded |
| SessionReaper.ExpiredSessionsDrain | services/core/src/plugins/session-reaper.ts:28-114 | k expired sessions, none newly expiring, are all terminated within ceil(k/50) such cycles |
| SessionReaper.NobodyOutlives | services/core/src/plugins/session-reaper.ts:47-67 | after those cycles no active session is older than its minutes |
| RefreshCookie.CookieRoundTrip | services/auth/src/utils/session.ts:257-271 | a cookie reads back as the key it was made for exactly when neither part contains a dot |
| RefreshCookie.ParsedCookieFormatsBack | services/auth/src/utils/session.ts:257-271 | only formats of keys are accepted |
| RefreshTokens.TokenStore.InvalidateAll | services/auth/src/utils/session.ts:233-255 | ends at the first call that fails, leaving what was deleted until then; if none fails, every refresh key of the user is gone and no one else's, however the scan batches and repeats them |
| RefreshTokens.TokenStore.HandleRefresh | services/auth/src/routes/account.ts:440-504 | the handler: a cookie that does not parse is malformed and changes nothing, any other is a refresh with its key |
| RefreshTokens.TokenStore.RefreshWith | services/auth/src/routes/account.ts:449-504 | every reply and the keys it leaves, written out: expired, compromised, unknown user, issued with the new key stored and the old one rotated, and the error that escapes |
| RefreshTokens.StepKeepsInv | services/auth/src/routes/account.ts:440-504 | every sign-in, refresh, revocation, logout, expiry and deletion, with failures anywhere, keeps the history of each key |
| RefreshTokens.KeysOnlyMoveOn | services/auth/src/routes/account.ts:449-496 | a key only moves absent, active, rotated at a fixed time, absent |
| RefreshTokens.IssuesWithinGrace | services/auth/src/routes/account.ts:462-503 | sessions issued for one key are issued within ten seconds of each other |
| RefreshTokens.IssuedExactly | services/auth/src/routes/account.ts:449-503 | a session is issued exactly while the key is active or within 10 000 ms of its rotation, for a user that exists, when all that is asked answers |
| RefreshTokens.IssuedKeyIsStored | services/auth/src/utils/session.ts:177-182 | when a session is issued its new key is stored and active, the used one is rotated, and no other key changes |
| RefreshTokens.IssuedKeyIsGood | services/auth/src/routes/account.ts:449-503 | over every run an issued key is good for the next refresh, however much later, unless it was used, logged out or expired, or its user's keys were revoked |
| RefreshTokens.ReplayRevokesExactly | services/auth/src/routes/account.ts:469-491 | a later replay answers compromised exactly when every call succeeded, and then the user has no refresh key left; otherwise it answers expired, the keys left are some of those before, other users' untouched, and all the user's are gone exactly if each is in a deletion that took effect |
| RefreshTokens.FailedScanKeepsKeys | services/auth/src/utils/session.ts:240-249 | a reachable replay whose first scan fails: the successor's key stays active under an expired reply |
| Revocation.RevocationCovers | services/auth/src/utils/session.ts:129-150 | at every instant after a revocation a token issued at or before it is refused or expired, despite seconds, the 900 s mark and later revocations |
| Revocation.RefusedExactly | services/auth/src/utils/session.ts:139-148 | a mark refuses exactly the tokens of its own second or earlier, and those with a zero or no iat; without a mark only a token denylisted by itself is refused |
| Revocation.LaterTokensPass | services/auth/src/utils/session.ts:139-148 | a token issued 1000 ms or more after every revocation is not refused by them |
| Revocation.CoverageExactly | services/auth/src/utils/session.ts:233-238 | at every instant after a call is stored every token issued up to it is refused or expired, exactly if no later call leaves a mark older than its second, as the last one at its instant, while its tokens are still good |
| Revocation.OvertakenCallMisses | services/auth/src/utils/session.ts:233-238 | two overlapping calls after which a token of the later one passes |
| Calendar.MakeDayReadsBack | services/core/src/utils/streak.ts:54-65 | the UTC getters read year, month and date back from the day that is made of them |
| Calendar.RebuiltMidnight | services/core/src/utils/streak.ts:54-65 | the rebuilt midnight is that of the date moved by 0, 693960 or 693961 days |
| Calendar.MidnightRebuilt | services/core/src/utils/streak.ts:54-65 | the rebuilt midnight is the start of its day exactly outside the years 0 to 99 |
| Streak.DayDiffExactly | services/core/src/utils/streak.ts:63-68 | dayDiff is the difference of the two day numbers exactly when both dates are moved by the same number of days |
| Streak.DatableExactly | services/core/src/utils/streak.ts:54-65 | the dates that are not remapped are those before the year 0 and after the year 99 |
| Streak.DayDiffIsDayDifference | services/core/src/utils/streak.ts:63-68 | so it is for any two dates outside the years 0 to 99 |
| Streak.RemappingBreaksAStreak | services/core/src/utils/streak.ts:63-109 | two consecutive days, the last of the year 99 and the first of the year 100, that do not count as such |
| Streak.UpdateIsStep | services/core/src/utils/streak.ts:37-110 | one update by timestamps is one step by days |
| Streak.UpdateExactly | services/core/src/utils/streak.ts:70-109 | one update on any stored state, counts of zero included: current, longest, last date and increment by the difference in days |
| Streak.FoldSummarizesHistory | services/core/src/utils/streak.ts:37-110 | over any history, in any order: current is the consecutive run of record days ending at the latest day, longest the longest such run |
| Streak.IncrementedOncePerRecordDay | services/core/src/utils/streak.ts:70-109 | incremented is true exactly once for each new record day |
| Streak.LastDayNeverGoesBack | services/core/src/utils/streak.ts:102-109 | the last activity day is the maximum of the days so far |
| StreakDays.FoldSummarizes | services/core/src/utils/streak.ts:37-110 | the same on day numbers, with runs defined by membership only |
| StreakDays.RecordDaysAre | services/core/src/utils/streak.ts:91-109 | a record day is one some activity reaches before any other reaches or passes it |
| TerminalMachine.BackoffWithinTenth | apps/web/src/lib/useTerminalMachine.ts:80-84 | jitter moves a delay by at most a tenth of its base, rounding included |
| TerminalMachine.ExhaustedBudgetTakes | apps/web/src/lib/useTerminalMachine.ts:75-84 | the six delays of an exhausted budget add up to between 40.5 and 49.5 seconds |
| TerminalMachine.AttemptWithinBudget | apps/web/src/lib/useTerminalMachine.ts:184-194 | the attempt count stays within 0..6 in every run, user actions included |
| TerminalMachine.StepLowersMeasure | apps/web/src/lib/useTerminalMachine.ts:112-264 | every close, timer and answer lowers 6(6 - attempt) + 4 timers + 3 checks + 2 sockets + 4 requests + 3 probes, stale ones included |
| TerminalMachine.WorkIsBounded | apps/web/src/lib/useTerminalMachine.ts:112-264 | with no open and no user action the machine stops within that measure, from any state, unmounted ones included |
| TerminalMachine.ReconnectingTerminates | apps/web/src/lib/useTerminalMachine.ts:112-227 | and when nothing is left in flight the screen of a mounted one says lost or failed |
| TerminalMachine.LostConnectionIsGivenUp | apps/web/src/lib/useTerminalMachine.ts:112-227 | a lost connection with nothing else under way is given up within 38 steps, and the screen then says lost or failed |
| TerminalMachine.ReconnectsExactly | apps/web/src/lib/useTerminalMachine.ts:112-194 | when the only socket closes the machine may connect again by itself exactly if the code is neither 1000 nor 1001 and fewer than six attempts were made; otherwise the screen says lost at once |
| TerminalMachine.IdleLastsExactly | apps/web/src/lib/useTerminalMachine.ts:302-329 | after terminate the screen stays idle exactly when no socket, timer, health check or start is outstanding |
| TerminalMachine.TerminateThenReconnecting | apps/web/src/lib/useTerminalMachine.ts:305-328 | the close event of the terminated socket itself sets the machine reconnecting |
| TerminalMachine.UnmountIsFinalExactly | apps/web/src/lib/useTerminalMachine.ts:369-379 | after an unmount no socket is opened again exactly if no health check or start was waiting and no older timer was left, or none with a session |
| TerminalMachine.UnmountThenConnecting | apps/web/src/lib/useTerminalMachine.ts:131-137 | a reachable unmount during a health check, whose answer connects again and lowers the flag |
| TerminalMachine.Hook.OnClose | apps/web/src/lib/useTerminalMachine.ts:112-128 | a close event is the machine's step, and its timer's delay is the backoff of the attempt |
| TerminalMachine.Hook.OnTimer | apps/web/src/lib/useTerminalMachine.ts:196-201 | a timer is the machine's step, with or without a session |
| TerminalMachine.Hook.OnHealth | apps/web/src/lib/useTerminalMachine.ts:203-225 | a health answer is the machine's step: dead, bad gateway, blip or alive |
| TerminalMachine.Hook.OnStarted | apps/web/src/lib/useTerminalMachine.ts:238-242 | the answer to a start is the machine's step |
| TerminalMachine.Hook.OnProbed | apps/web/src/lib/useTerminalMachine.ts:244-256 | the worker's answer is the machine's step |
| KafkaProducer.MessagingService.InitProducer | packages/messaging/kafka.ts:27-65 | a caller gets the producer, the promise in flight, or starts the only connect |
| KafkaProducer.MessagingService.ConnectFails | packages/messaging/kafka.ts:46-62 | a failure resets the promise, counts, and sets a timer exactly if none is set |
| KafkaProducer.MessagingService.TimerFires | packages/messaging/kafka.ts:71-80 | the callback connects only with neither a producer nor a promise |
| KafkaProducer.StepKeepsInv | packages/messaging/kafka.ts:27-81 | every step keeps the flags true to what is outstanding and callers' answers true to the producer |
| KafkaProducer.OneConnectOneTimer | packages/messaging/kafka.ts:27-81 | in every interleaving at most one connect is in flight and one timer runs |
| KafkaProducer.ReadyProducerStays | packages/messaging/kafka.ts:39-48 | a ready producer is never reset or replaced |
| KafkaProducer.CallersAgree | packages/messaging/kafka.ts:27-65 | all callers that get a producer, whenever they called, get the same one |
| KafkaProducer.CallersShareTheConnect | packages/messaging/kafka.ts:27-65 | over every run who calls during a connect starts no other, waits for that one and ends up with its producer or its failure; who calls when there is a producer has it |
| KafkaProducer.HealsExactly | packages/messaging/kafka.ts:46-81 | after a failure and without a producer a timer or a connect is outstanding and can lead to one with no further call, exactly unless making a producer object has thrown |
| KafkaProducer.BrokenForGood | packages/messaging/kafka.ts:36-62 | after that nothing, callers included, ever brings a producer |
| KafkaProducer.BreaksForGood | packages/messaging/kafka.ts:36-62 | such a run exists |
| Roadmap.UniqueIsFirstOccurrences | apps/web/src/lib/guestRoadmap.ts:88 | the set-to-array union lists each node once in the order of first occurrences |
| Roadmap.FirstOccurrencesAreUnique | apps/web/src/lib/guestRoadmap.ts:88 | no other list does |
| Roadmap.MergeIsUnion | apps/web/src/lib/guestRoadmap.ts:80-102 | with or without account progress: no duplicates; completed is both sides in order of first occurrence, account first; in progress is both sides in that order less what either completed |
| Roadmap.MergeIsAssociative | apps/web/src/lib/guestRoadmap.ts:80-102 | merging is associative as equality of ordered lists |
| Roadmap.MergeIsIdempotent | apps/web/src/lib/guestRoadmap.ts:80-102 | merging the same guest progress twice changes nothing |

## Left out

- Clients of Redis, Postgres, Kafka, RabbitMQ, Docker and Flintlock, encryption, hashing, JWT signing and
  JSON encoding: only their outcomes appear. A secret is assumed new and its hash injective; an entry that
  does not decrypt or parse is one kind of unreadable record.
- Provider names are taken as already trimmed, lower-cased and defaulted (manager.go:202-205), because
  Unicode case folding is not part of this model.
- SessionControl is the machine of one session; that the manager's methods touch only that session's
  entries is what SessionManager proves, and nothing relates two sessions' mutexes to one another.
- SessionManager.Manager.New: takes Redis's guarantee that a scan without errors reports every key present
  throughout. Providers are names that all resolve to one Docker daemon; Flintlock's microVMs are left out.
- SandboxReaper: other calls of the manager during a sweep are not interleaved; every session is swept from
  its snapshot record. An orphan sweep that does nothing, as Flintlock's, is a pass that lists nothing.
- The disk monitor's loop over providers, and logging and metrics everywhere.
- Daemon.Docker.Provision: image pulls and the container's resource limits appear only as success or failure.
- Progress.ProgressTracker.Clear: proved of the class alone; runs have no Clear, which would forget
  subscribers without closing their channels.
- Fanout: bytes written to and resizes of the terminal, whose order the write lock alone decides.
- Progress.ProgressTracker.Send: the panic of a send on a closed channel is the machine's; the method is for
  channels that are open.
- Row locking (`FOR UPDATE SKIP LOCKED`): the queries run outside an explicit transaction, so a batch is a
  plain snapshot read.
- AuthOutbox.CycleProgress: a mark or write-back that is rejected uses no attempt; the lemma is for cycles
  whose writes take effect, as is AuthOutbox.Drains; ticks skipped while the breaker is open are not cycles.
- CoreOutbox: rows are in the order of their creation, and equal creation times are not broken further; of the
  payload, what tells two events of one session apart is their kind and reason. The rows of other modules are
  inserts of kind Other.
- SessionReaper.ExpiredSessionsDrain: nobody else changes the sessions between cycles.
- RefreshTokens: handlers run one at a time; interleaving two refreshes of one key inside the handler is not
  part of the runs. Redis's time to live appears as an expiry at any moment, and a SCAN answered to its end
  reports every key that was there.
- Revocation: Redis is reachable, so the timeouts of redis-safe.ts, which let a request pass, are left out, as
  is the denylist of single tokens beyond its first test.
- TerminalMachine: the trial start is the same step as the ordinary one; messages, progress events and
  rendering are left out.
- Streak: missing counts are 0 and missing dates are None before the call; invalid dates are left out.
- KafkaProducer: emit, consume, the dead letter topic and disconnect; log throttling.
- Roadmap: reading and writing localStorage.
- packages/messaging/rabbitmq.ts and services/sandbox/internal/messaging/kafka.go: neither has a recovery or
  delivery property that its code keeps.
- Account routes other than refresh, HTTP plumbing, the pages of the web application, seed data.
