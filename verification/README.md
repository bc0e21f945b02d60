# FlowAI in Dafny

Models of the parts of FlowAI where concurrency, crashes or encodings make correctness hard, with proofs over every run
or every input.

* **Docker Executor** (`Docker*.dfy`). Each mutex-protected critical section is a method of a class, specified by a
  function on the shared state. A state machine interleaves the polling goroutine with every slot's run, stream,
  control and exit goroutines, one critical section or Registry post at a time. Registry, container and health
  outcomes are free choices of each step. `DockerTheorems` and `DockerCauses` hold for every run, `DockerProgress`
  bounds how long a run can be, `DockerRuns` exhibits runs.
* **Kubernetes Executor** (`K8s*.dfy`, `Order.dfy`). The durable cache is a class with its two buckets. The crash
  machine adds the polling goroutine, one goroutine per Pod, the Pods in the cluster and the Registry's log; a crash
  may come between any two writes, posts may lose their answer, and cache writes may fail where the source only logs.
* **Pagination cursor** (`Cursor*.dfy`, `Base64Url.dfy`, `Json.dfy`, `Text.dfy`). Base64url (section 5 of RFC 4648) and
  the envelope's JSON, with Go's escapes for ASCII text, are concrete.
  HMAC-SHA-256 is a function parameter that returns 32 bytes.
* **API Gateway** (`JsonPointer.dfy`, `Team*.dfy`, `Session*.dfy`, `TokenIssue.dfy`, `LoginFlow.dfy`). JSON
  pointers (RFC 6901), claim normalization, the session tables with their constraints and cascades, the token handler
  with other requests committing between its store calls, and the pending-login map.

Properties that turn out false of the code are stated as such, each with a run or an input that breaks it and the
exact condition under which it holds:

* *A host port is available whenever the capacity gate passes.* Over all configurations: never violated exactly when
  the deployed teardown order runs one container at a time, or release and removal share one critical section
  (`AllocationSafe`). Otherwise the range drains, however wide it is (`ReleaseFirstLeaks`, `RemoveThenReleaseFails`).
* *Every claimed task gets a terminal event or can be claimed again.* For every claim that is over, violated exactly
  when the reply lacked the scope token its launch parameters need and `running` was accepted, or the slot's teardown
  won the terminal flag after a normal closure of the stream (`StrandedExactly`; runs `MissingScopeTokenStrands` and
  `NormalClosureStrands`). The same lemma counts accepted terminal events only; a lost one is then the third cause.
* *A task gets one terminal event* on Kubernetes. `TwoTerminalEvents` logs two after a lost answer and a restart. Once
  a terminal event was answered and the assignment deleted, another event can follow without a new grant exactly when
  the outbox holds a pending one the Registry has not got (`RetiredExactly`, run `RefusedEventFollows`). A kept record
  that a restart can reconnect allows another terminal event (`KeptAllowsAnother`).
* *A restart reconnects the cached work.* It gets through exactly when every record it reconnects has a readable Pod
  reference (`RestartExactly`). A crash between creating the Pod and recording it is enough to stop it
  (`LostReferenceStopsRestart`), and so are two tasks with one command id (`SharedCommandStopsRestart`).
* *Command ids tell tasks apart.* Exactly when their seeds differ modulo 16 (`SeedModulo16`).
* *A loaded keyring can read its own cursors.* Exactly when the active id has no dot (`LoadedReadsOwn`).
* *A cursor's scope names one identity.* Exactly when neither id contains `|` (`ScopeUnique`).
* *A token's team was observed recently or in the same request.* Exactly when the last observation other requests gave
  in between, if they gave one, is recent enough (`FreshExactly`, run `SlowRefreshOverwrites`).

Environment assumptions, which are parts of the models and not proved: the Registry appends an event id at most once
and accepts an identical retry; Pod lists are linearizable, one process holds the cache lock, and a Pod create takes
effect at its step or not at all; database transactions are atomic; random event ids, UUIDs and login states are fresh.

## Model

| member | source | states |
|---|---|---|
| `DockerShared.FirstFree` | executor/docker_openhands/internal/executor/executor.go:1155-1172 | the lowest port of the range not in use, and none exactly when all are |
| `DockerExecutor.TaskSlot.constructor` | executor/docker_openhands/internal/executor/v0002.go:283-301 | a new slot is neither terminal nor cleaned up |
| `DockerExecutor.TaskSlot.ClaimTerminal` | executor/docker_openhands/internal/executor/executor.go:460-468 | only the first caller wins the terminal flag |
| `DockerExecutor.TaskSlot.Cleanup` | executor/docker_openhands/internal/executor/executor.go:424-438 | the stop-and-kill pair runs for the first caller only |
| `DockerExecutor.Executor.FreeSlots` | executor/docker_openhands/internal/executor/v0002.go:100-104 | capacity minus installed slots minus reservations |
| `DockerExecutor.Executor.MarkAcceptedV0002` | executor/docker_openhands/internal/executor/v0002.go:351-361 | refuses a task that already carries a mark and then changes nothing |
| `DockerExecutor.Executor.MarkTerminal` | executor/docker_openhands/internal/executor/executor.go:725-729 | only the task's mark changes |
| `DockerExecutor.Executor.TerminalizeAcceptedV0002` | executor/docker_openhands/internal/executor/v0002.go:363-368 | forgets the mark and the command id, nothing else |
| `DockerExecutor.Executor.ReserveLocalSlot` | executor/docker_openhands/internal/executor/v0002.go:374-378 | one more reservation, nothing else |
| `DockerExecutor.Executor.ReleaseLocalSlotReservation` | executor/docker_openhands/internal/executor/v0002.go:383-389 | one reservation fewer, clamped at zero |
| `DockerExecutor.Executor.CommandIDFor` | executor/docker_openhands/internal/executor/v0002.go:340-349 | the stored id if there is one, else the new one, which is then stored |
| `DockerExecutor.Executor.AddSlot` | executor/docker_openhands/internal/executor/executor.go:1129-1133 | the task's entry is this slot, every other entry is unchanged |
| `DockerExecutor.Executor.RemoveSlot` | executor/docker_openhands/internal/executor/executor.go:1135-1146 | the entry is gone, and the result says whether there was one |
| `DockerExecutor.Executor.PortUsed` | executor/docker_openhands/internal/executor/executor.go:1155-1172 | the scan over slots finds a port exactly when an installed slot holds it |
| `DockerExecutor.Executor.AllocatePort` | executor/docker_openhands/internal/executor/executor.go:1155-1172 | the lowest port from `nextPort` up that no installed slot holds; on failure nothing changes |
| `DockerExecutor.Executor.ReleasePort` | executor/docker_openhands/internal/executor/executor.go:1174-1180 | `nextPort` steps back to a lower released port and otherwise stays |
| `DockerExecutor.Executor.TerminalizeV0002Slot` | executor/docker_openhands/internal/executor/v0002.go:588-601 | the first teardown step: flag, mark, port and command id, the mark only for the first to set the flag |
| `DockerInvariants.StepKeeps` | executor/docker_openhands/internal/executor/v0002.go:47-315 | every action of every goroutine keeps ownership, capacity, port and event invariants |
| `DockerInvariants.ReachableInv` | executor/docker_openhands/internal/executor/v0002.go:47-601 | the invariants hold after every run |
| `DockerTheorems.TaskEventsOrdered` | executor/docker_openhands/internal/executor/v0002.go:178-281 | in every interleaving the events under one claim are a prefix of `running` and one terminal event, the latter only after `running` was accepted |
| `DockerTheorems.ControlEventsOrdered` | executor/docker_openhands/internal/executor/task_controls.go:38-62 | a cancellation is acknowledged, then completed or failed; the task fails only after completion was accepted, and an accepted acknowledgement is always followed by a reported outcome |
| `DockerTheorems.RecordedMatchesPosted` | executor/docker_openhands/internal/executor/executor.go:482-490 | the recorded terminal kind is that of the event posted for the slot's claim |
| `DockerCauses.StepCauses` | executor/docker_openhands/internal/executor/executor.go:892-907 | every action of every goroutine keeps, for each slot, which step won its terminal flag and which event that step owes |
| `DockerCauses.TerminalKindExact` | executor/docker_openhands/internal/executor/executor.go:892-907 | in every run a posted terminal event is `finished` exactly when a `finished` frame won the flag and `failed` for every other cause; the kind is recorded exactly for a frame, a cancellation, or an accepted report of a dead container |
| `DockerCauses.StartEventsExact` | executor/docker_openhands/internal/executor/v0002.go:178-281 | a start that gave up posted `failed` exactly after a failed environment, pull or container start with its scope token present; an abandoned one posted nothing |
| `DockerCauses.TerminalMarkExact` | executor/docker_openhands/internal/executor/v0002.go:588-601 | a slot's mark turns terminal exactly when its own teardown won the flag |
| `DockerTheorems.CapacityHeld` | executor/docker_openhands/internal/executor/v0002.go:100-160 | slots plus the start in flight, and started containers not cleaned up, never exceed the limit; the counter overshoots in one stage only |
| `DockerTheorems.ReservationExact` | executor/docker_openhands/internal/executor/v0002.go:374-389 | every exit path restores the count exactly, so the clamp never fires |
| `DockerTheorems.OneSlotPerTask` | executor/docker_openhands/internal/executor/v0002.go:120-145 | one slot per task and per granted claim, and installing never overwrites an entry |
| `DockerTheorems.ClaimsUnheld` | executor/docker_openhands/internal/executor/v0002.go:72-90 | a task is claimed only while it has neither mark nor slot, so the check for a slot never finds one |
| `DockerTheorems.CleanedBeforeRemoval` | executor/docker_openhands/internal/executor/v0002.go:481-490 | a slot is out of the map only once its cleanup ran |
| `DockerTheorems.ClosedForever` | executor/docker_openhands/internal/executor/v0002.go:72-90 | no run from a state where the task's mark stands claims the task again |
| `DockerTheorems.InstalledNeverReclaimed` | executor/docker_openhands/internal/executor/v0002.go:303-307 | after its container started, no later run of the process claims the task |
| `DockerTheorems.RetriesKeepCommand` | executor/docker_openhands/internal/executor/v0002.go:334-349 | a claim that was not granted is retried under the same command id |
| `DockerTheorems.PortsDistinct` | executor/docker_openhands/internal/executor/executor.go:1129-1180 | slot ports and the in-flight port are in range and pairwise distinct in every run |
| `DockerTheorems.SomePortFree` | executor/docker_openhands/internal/executor/executor.go:217-230 | the validated range leaves a port free whenever a start is in flight |
| `DockerTheorems.AllocationFails` | executor/docker_openhands/internal/executor/executor.go:1155-1180 | a start that asks for a port always has one free in the range; the scan misses it exactly when all free ones lie below `nextPort` |
| `DockerTheorems.AtomicRemovalNeverFails` | executor/docker_openhands/internal/executor/v0002.go:588-601 | with release and removal in one critical section allocation never fails |
| `DockerPorts.OneContainerAllocates` | executor/docker_openhands/internal/executor/executor.go:1155-1180 | with one container and the deployed order every start of every run gets the first port of the range |
| `DockerRuns.AllocationSafe` | executor/docker_openhands/internal/executor/executor.go:1129-1180 | over all valid configurations: no run fails to allocate exactly when release and removal are one section, or the deployed order runs one container |
| `DockerRuns.ReleaseFirstLeaks` | executor/docker_openhands/internal/executor/v0002.go:481-490 | for every range and two or more containers, a run of the deployed order in which allocation fails with every port but the last idle |
| `DockerRuns.RemoveThenReleaseFails` | executor/docker_openhands/internal/executor/executor.go:1135-1180 | for every configuration, a failure with the whole range idle when the release is a separate section after the removal |
| `DockerStranding.StepStands` | executor/docker_openhands/internal/executor/v0002.go:110-315 | every action keeps, for each claim, when its task's mark stands |
| `DockerStranding.StrandedExactly` | executor/docker_openhands/internal/executor/v0002.go:178-203 | a claim that is over leaves its task marked without a terminal event exactly after the scope-token exit or a silent teardown; without an accepted one exactly after these or a lost post |
| `DockerStranding.NeverAgain` | executor/docker_openhands/internal/executor/v0002.go:72-90 | while such a mark stands no later run claims the task again |
| `DockerProgress.RunBounded` | executor/docker_openhands/internal/executor/v0002.go:47-315 | however the goroutines interleave, a run takes at most 312 steps for every listed task and two for every listing |
| `DockerProgress.QuietExact` | executor/docker_openhands/internal/executor/v0002.go:481-601 | a run can stop only where the polling goroutine is idle and every slot's goroutines have returned; by then no slot or reservation is left, every slot has been cleaned up and every terminal flag won |
| `DockerProgress.SlotsExact` | executor/docker_openhands/internal/executor/executor.go:1129-1146 | the slot map holds exactly the tasks of slots whose teardown has not removed them |
| `DockerProgress.DiscoverExact` | executor/docker_openhands/internal/executor/v0002.go:47-70 | tasks are listed exactly when idle and below the limit |
| `DockerProgress.TickExact` | executor/docker_openhands/internal/executor/v0002.go:47-160 | a tick ends exactly for a used-up list, a full limit, an erring claim or an unwound start; a refused claim goes on with the list, which is taken up in order |
| `DockerRuns.MissingScopeTokenStrands` | executor/docker_openhands/internal/executor/v0002.go:194-203 | for every configuration and task, a run that strands it by a missing scope token |
| `DockerRuns.NormalClosureStrands` | executor/docker_openhands/internal/executor/executor.go:875-883 | for every configuration of the deployed order and every task, a run that strands it by a normally closed stream |
| `Order.SortedKeys` | executor/k8s-openhands/internal/cache/cache.go:304-324 | lists a bucket's keys in strictly ascending byte order |
| `Order.ListingUnique` | executor/k8s-openhands/internal/cache/cache.go:304-324 | a bucket has one listing |
| `K8sCache.Store.PutAssignment` | executor/k8s-openhands/internal/cache/cache.go:265-280 | stores the record under its task id or changes nothing |
| `K8sCache.Store.DeleteAssignment` | executor/k8s-openhands/internal/cache/cache.go:328-336 | removes the one key or changes nothing |
| `K8sCache.Store.PutOutbox` | executor/k8s-openhands/internal/cache/cache.go:341-356 | stores the record under its event id or changes nothing |
| `K8sCache.Store.MarkAccepted` | executor/k8s-openhands/internal/cache/cache.go:361-386 | only the delivery state of an existing record changes |
| `K8sCache.Store.PendingOutbox` | executor/k8s-openhands/internal/cache/cache.go:389-411 | exactly the pending envelopes, in key order |
| `K8sCache.IndexPods` | executor/k8s-openhands/internal/executor/v0002.go:68-73 | exactly the non-empty command ids that label a listed Pod |
| `K8sCache.Reconcile` | executor/k8s-openhands/internal/executor/v0002.go:49-88 | returns the resumable records in key order and drops exactly the unanswered non-terminal ones whose delete succeeds |
| `K8sCache.ResumableExact` | executor/k8s-openhands/internal/executor/v0002.go:68-86 | the result is exactly the non-terminal assignments whose command id labels a listed Pod, in key order |
| `K8sCache.ReconcileSettles` | executor/k8s-openhands/internal/executor/v0002.go:49-88 | the cache keeps exactly those and the terminal records; a second pass changes nothing and returns the same |
| `K8sCache.RetryPendingOutbox` | executor/k8s-openhands/internal/executor/v0002.go:609-630 | posts a prefix of the pending envelopes unchanged in key order, stops at the first failure, accepts exactly the delivered ones; success leaves none pending |
| `K8sCache.RefRoundTrip` | executor/k8s-openhands/internal/executor/v0002.go:589-600 | a name@uid reference splits back exactly when the name has no `@` |
| `K8sInvariants.StepKeeps` | executor/k8s-openhands/internal/executor/v0002.go:194-382 | every action, crashes and failed writes included, keeps the log, record, outbox, worker and capacity invariants |
| `K8sInvariants.ReachableInv` | executor/k8s-openhands/internal/executor/v0002.go:551-630 | the invariants hold after every run with crashes and restarts |
| `K8sTheorems.TerminalFollowsRunning` | executor/k8s-openhands/internal/executor/v0002.go:400-436 | a terminal event is in the outbox or the log only when the Registry already holds the task's `running` event |
| `K8sTheorems.PodsWithinLimit` | executor/k8s-openhands/internal/executor/v0002.go:95-158 | labelled Pods never exceed the limit, whatever crashes, lost create answers and late deletions a run contains |
| `K8sTheorems.OneEnvelopePerId` | executor/k8s-openhands/internal/executor/v0002.go:609-630 | every post of an event id carries the one envelope that is stored and logged, and the log holds an id once |
| `K8sTheorems.AcceptedIsHeld` | executor/k8s-openhands/internal/executor/v0002.go:400-436 | an accepted record's envelope is in the Registry's log |
| `K8sTheorems.OutboxOnlyAdvances` | executor/k8s-openhands/internal/cache/cache.go:341-411 | over any run records keep their envelope, move from pending to accepted only, and the log only grows |
| `K8sTheorems.RunRoster` | executor/k8s-openhands/internal/executor/v0002.go:577-607 | over any run a task has at most one of a goroutine, a record waiting to be reconnected and a start in progress |
| `K8sTheorems.RetireSettles` | executor/k8s-openhands/internal/executor/pod_lifecycle.go:249-277 | an answered terminal event and a deleted assignment leave nothing of that task that could build another event; that nobody else's record goes with it is `K8sFrames.RecordFrame` |
| `K8sTheorems.SettledForever` | executor/k8s-openhands/internal/executor/pod_lifecycle.go:249-277 | no later run builds a new envelope for the task unless it is granted anew |
| `K8sFrames.RecordFrame` | executor/k8s-openhands/internal/executor/pod_lifecycle.go:249-277 | over every action a task's record changes exactly by a write for that task, and goes exactly when that task retires, its start is undone, or a restart finds it unfinished and unanswered |
| `K8sFrames.StaysResumable` | executor/k8s-openhands/internal/executor/v0002.go:49-88 | through every run with crashes a task with an answering Pod stays resumable until its own retirement or undo |
| `K8sFrames.PodFrame` | executor/k8s-openhands/internal/executor/v0002.go:313-350 | a Pod appears exactly by its own create and goes exactly by its owner's delete or an outside removal |
| `K8sFrames.LogFrame` | executor/k8s-openhands/internal/executor/v0002.go:400-436 | the log grows by exactly the envelope sent, unless the Registry refuses it or has it |
| `K8sFrames.OutboxFrame` | executor/k8s-openhands/internal/executor/v0002.go:400-436 | an outbox record appears with the event just built and turns accepted exactly by the mark for its own id |
| `K8sFrames.WorkerFrame` | executor/k8s-openhands/internal/executor/v0002.go:577-607 | an action touches no other task's goroutine, and a process that stops has none |
| `K8sFrames.AttachedServes` | executor/k8s-openhands/internal/executor/v0002.go:577-607 | a reconnected goroutine serves the Pod its record names under the record's command |
| `K8sFrames.CreatedServes` | executor/k8s-openhands/internal/executor/v0002.go:313-361 | a new goroutine serves the Pod its start created |
| `K8sFrames.PodNamesClash` | executor/k8s-openhands/internal/executor/v0002.go:463-473 | two tasks share a Pod name exactly when their first eight significant characters agree |
| `K8sFrames.CompactJoin` | executor/k8s-openhands/internal/executor/v0002.go:463-473 | the separators go and everything else stays in its place |
| `K8sAnswers.AnswersFirst` | executor/k8s-openhands/internal/executor/v0002.go:400-436 | over every run a record is accepted only once the Registry answered its post, a Pod is created only after an answered `running`, an assignment retired only after an answered terminal event |
| `K8sProgress.IntentsFirst` | executor/k8s-openhands/internal/executor/v0002.go:194-382 | whatever crashes, a task is claimed, announced or given a Pod only with its intent, under the same command, on disk |
| `K8sProgress.NeverStuck` | executor/k8s-openhands/internal/executor/v0002.go:95-382 | in every reachable state the polling goroutine of a running process can go on unless it waits for a tick, and so can every started goroutine of a Pod |
| `K8sProgress.TickExact` | executor/k8s-openhands/internal/executor/v0002.go:95-382 | a tick ends exactly for a used-up list, a full limit, an unstored intent, an erring claim, a given-up start, an unanswered `running` or an undone record |
| `K8sEvents.QuietForever` | executor/k8s-openhands/internal/executor/v0002.go:609-630 | with nothing of the task left to deliver, no later run logs an event of it unless it is granted anew |
| `K8sEvents.RetiredExactly` | executor/k8s-openhands/internal/executor/pod_lifecycle.go:249-262 | after an answered terminal event and a deleted assignment, some run without a new grant logs another event of the task exactly when the outbox holds a pending one missing from the log |
| `K8sEvents.KeptAllowsAnother` | executor/k8s-openhands/internal/executor/v0002.go:577-607 | a kept record with a labelled Pod allows another terminal event without a new grant, given readable references up to its own |
| `K8sRestart.RetryAll` | executor/k8s-openhands/internal/executor/v0002.go:609-630 | a restart whose retries are all answered delivers every pending envelope and marks exactly those accepted |
| `K8sRestart.RestartExactly` | executor/k8s-openhands/internal/executor/v0002.go:589-607 | a restart gets from reconnecting to polling exactly when every record it reconnects has a readable reference |
| `K8sRuns.RefusedEventFollows` | executor/k8s-openhands/internal/executor/v0002.go:400-436 | a run in which a refused event of an earlier grant can still follow the answered terminal event of a later one |
| `K8sRuns.LostReferenceStopsRestart` | executor/k8s-openhands/internal/executor/v0002.go:313-361 | a run in which a crash between creating the Pod and recording it stops the restart with the record in place |
| `K8sRuns.TwoTerminalEvents` | executor/k8s-openhands/internal/executor/pod_lifecycle.go:249-277 | a run with a lost answer and a restart that logs two terminal events for one task |
| `K8sRuns.SharedCommandStopsRestart` | executor/k8s-openhands/internal/executor/v0002.go:577-607 | a run in which one task's Pod answers for another's bare intent and the restart stops |
| `K8sCommands.CommandIDForStable` | executor/k8s-openhands/internal/executor/v0002.go:453-461 | the loop builds the twelve wrapped digits behind the prefix |
| `K8sCommands.IdText` | executor/k8s-openhands/internal/executor/v0002.go:453-461 | every digit of the id: the hexadecimal character of the seed plus thirteen times its position, modulo 16 |
| `K8sCommands.SeedModulo16` | executor/k8s-openhands/internal/executor/v0002.go:453-461 | two seeds give one id exactly when they agree modulo 16 |
| `K8sCommands.SixteenIds` | executor/k8s-openhands/internal/executor/v0002.go:453-461 | the sixteen residues give sixteen different ids |
| `K8sCommands.SeventeenCollide` | executor/k8s-openhands/internal/executor/v0002.go:68-86 | any seventeen tasks include two with one id |
| `K8sCommands.CommandBook.CommandIDFor` | executor/k8s-openhands/internal/executor/v0002.go:438-447 | a stored non-zero seed is reused, otherwise the clock byte is stored and used |
| `K8sCommands.RetryKeepsId` | executor/k8s-openhands/internal/executor/v0002.go:438-447 | a repeat call keeps the id exactly when the first seed was not zero or the clock repeats it modulo 16 |
| `Base64Url.RoundTrip` | svc/state-registry/internal/cursor/cursor.go:252-253 | decoding undoes encoding for every byte string |
| `Base64Url.Digits` | svc/state-registry/internal/cursor/cursor.go:252-254 | the encoded length to the digit, and an alphabet without the token separator |
| `Base64Url.DecodeExact` | svc/state-registry/internal/cursor/cursor.go:293-300 | the decoder accepts exactly digits of the alphabet, newlines aside, in a number not one above a multiple of four, and what it returns encodes back to them up to the spare bits |
| `Base64Url.QuantumNumber` | svc/state-registry/internal/cursor/cursor.go:252-253 | the digits of a quantum spell in base 64 the number its bytes spell in base 256, shifted to fill them |
| `Base64Url.Alphabet` | svc/state-registry/internal/cursor/cursor.go:252-253 | the digits in the order of section 5 of RFC 4648 |
| `Text.SplitJoin` | svc/state-registry/internal/cursor/cursor.go:281-284 | splitting a join of separator-free pieces gives the pieces |
| `Text.JoinSplit` | svc/api-gateway/internal/oidc/team_claims.go:119-121 | joining a split gives the string, and the pieces are separator-free |
| `Json.ReadBack` | svc/state-registry/internal/cursor/cursor.go:120-180 | every value with ASCII strings, escapes included, reads back from its compact text |
| `CursorTheorems.FiltersEqualExact` | svc/state-registry/internal/cursor/cursor.go:463-476 | equal sizes and one-way agreement mean equal maps |
| `CursorTheorems.ScopeExact` | svc/state-registry/internal/cursor/cursor.go:94-118 | scope texts of an issuing identity coincide exactly for equal identities and for a pipe-separated piece moved between team and operator |
| `CursorTheorems.ScopeBinds` | svc/state-registry/internal/cursor/cursor.go:94-118 | for teams without a pipe character, equal scope texts mean Equal and conversely |
| `CursorTheorems.ScopeUnique` | svc/state-registry/internal/cursor/cursor.go:94-118 | a gateway scope text is its identity's own exactly when neither id contains a pipe character |
| `CursorTheorems.DecodeExact` | svc/state-registry/internal/cursor/cursor.go:270-325 | for every library, keyring, request and envelope: accepted exactly when the token has at most 1536 bytes and three dot-free parts, names a key of 1 to 64 bytes in the ring, carries the MAC of header, key id and envelope bytes, and these parse to the envelope the request matches |
| `CursorTheorems.EncodeExact` | svc/state-registry/internal/cursor/cursor.go:219-262 | a token comes back exactly for a complete issue by a gateway or admin identity under an active key, if it fits; it is the key id, the envelope of the issue and its MAC |
| `CursorTheorems.MessageBinds` | svc/state-registry/internal/cursor/cursor.go:490-498 | with no zero byte in the key ids the MAC message fixes key id and envelope |
| `CursorTheorems.OneSealOneEnvelope` | svc/state-registry/internal/cursor/cursor.go:293-304 | two acceptable tokens with the same key id and MAC part seal the same bytes, unless the MAC collides on two messages |
| `CursorTheorems.DecodeIssued` | svc/state-registry/internal/cursor/cursor.go:219-325 | under any keyring an issued token is accepted exactly when its key id is usable there, the MACs agree and endpoint, ordering, filters and scope match; the sealed envelope comes back |
| `CursorTheorems.AcceptsExactly` | svc/state-registry/internal/cursor/cursor.go:270-325 | with the same keyring, a dot-free key id and pipe-free teams: accepted exactly for equal endpoint, ordering and filters and Equal identities, returning the issued position |
| `CursorTheorems.ReadsOwnToken` | svc/state-registry/internal/cursor/cursor.go:254-292 | the issuer reads its token back exactly when its key id is short and dot-free; with a dot every request under every keyring is rejected |
| `CursorTheorems.Rotation` | svc/state-registry/internal/cursor/cursor.go:285-304 | a kept key decodes as before, a removed one rejects every request |
| `CursorTheorems.LimitExact` | svc/state-registry/internal/cursor/cursor.go:404-461 | one value is accepted exactly when it is the decimal of a number from 1 to 200 |
| `CursorTheorems.LimitShape` | svc/state-registry/internal/cursor/cursor.go:413-422 | no value means fifty, several are refused |
| `CursorJson.EnvelopeRoundTrip` | svc/state-registry/internal/cursor/cursor.go:120-180 | an envelope of ASCII strings, with any combination of positions and any such filter map, survives the wire |
| `CursorJson.TextsExact` | svc/state-registry/internal/cursor/cursor.go:120-138 | an envelope's texts are read under their own names, a wrong type fails, a missing field is empty |
| `CursorJson.PositionsExact` | svc/state-registry/internal/cursor/cursor.go:139-180 | every position is read from its own object, field by field, and none where the field is missing |
| `CursorBound.AsciiIsFaithful` | svc/state-registry/internal/cursor/cursor.go:247-258 | the JSON encoding of ASCII envelopes meets what the token theorems ask of it |
| `CursorBound.AdminTagsLength` | svc/state-registry/internal/httpapi/list_admin.go:116-125 | the admin tag envelope is 171 bytes plus the lengths of its five texts, when these need no escape |
| `CursorBound.AdminTagsFits` | svc/state-registry/internal/cursor/cursor.go:38-45 | with valid identifiers and a key id of at most 64 bytes the envelope has at most 1067 bytes and the token at most 1532, so encoding never fails |
| `CursorKeyring.KeyShape` | svc/state-registry/internal/config/cursor_keyring.go:107-119 | a key setting is accepted exactly when it is 64 hexadecimal digits |
| `CursorKeyring.KeyConfigurable` | svc/state-registry/internal/config/cursor_keyring.go:107-119 | every 32-byte key can be written as a setting and is read back |
| `CursorKeyring.LoadPrevious` | svc/state-registry/internal/config/cursor_keyring.go:89-101 | the previous keys load exactly when every entry is valid, in whatever order the map is walked |
| `CursorKeyring.LoadRotating` | svc/state-registry/internal/config/cursor_keyring.go:68-105 | loading succeeds exactly for valid settings and yields the active key with all previous ones |
| `CursorKeyring.LoadedShape` | svc/state-registry/internal/config/cursor_keyring.go:50-105 | the active id is present, at most eight keys, all of 32 bytes under valid ids |
| `CursorKeyring.HexExact` | svc/state-registry/internal/config/cursor_keyring.go:107-119 | a setting decodes to exactly the bytes its digits spell, in either case |
| `CursorKeyring.LoadableExact` | svc/state-registry/internal/config/cursor_keyring.go:68-133 | loads exactly when every id has 1 to 64 allowed characters and differs from the active one, every key spells 32 bytes and at most seven are previous |
| `CursorKeyring.LoadedExact` | svc/state-registry/internal/config/cursor_keyring.go:68-105 | what is loaded is exactly the active key and the previous ones, each the bytes its setting spells |
| `CursorKeyring.LoadedReadsOwn` | svc/state-registry/internal/config/cursor_keyring.go:121-133 | a loaded keyring reads its own cursors exactly when the active id has no dot |
| `CursorKeyring.RotatedSettings` | svc/state-registry/internal/config/cursor_keyring.go:64-105 | across two settings, cursors of the old key decode as before while it stays listed and are all rejected once its id is gone |
| `JsonPointer.UnescapeToken` | svc/api-gateway/internal/oidc/team_claims.go:121-139 | the byte loop computes the recursive unescaping, errors included |
| `JsonPointer.ParsePointer` | svc/api-gateway/internal/oidc/team_claims.go:115-141 | the token loop computes the tokens of the pointer or fails where one cannot be unescaped |
| `JsonPointer.ReadingsAgree` | svc/api-gateway/internal/jwtverify/verifier.go:250-265 | on every accepted pointer, splitting and replacing `~1` and then `~0` gives the same tokens |
| `JsonPointer.PointerRoundTrip` | svc/api-gateway/internal/oidc/team_claims.go:115-141 | every non-empty token list, escaped as section 3 of RFC 6901 says, parses back to itself |
| `JsonPointer.PointerCanonical` | svc/api-gateway/internal/oidc/team_claims.go:115-141 | every accepted pointer is the escaped form of its tokens, so parsing is one-to-one |
| `TeamClaims.ResolvePointer` | svc/api-gateway/internal/oidc/team_claims.go:96-113 | the loop follows the parsed tokens and fails on a non-object, missing or null step |
| `TeamClaims.ValuesAtPointer` | svc/api-gateway/internal/jwtverify/verifier.go:250-278 | the loop computes the lenient walk and accepts only arrays of non-empty strings |
| `TeamClaims.WalksAgree` | svc/api-gateway/internal/jwtverify/verifier.go:250-265 | on accepted pointers both walks reach the same value, and only a null target tells them apart |
| `TeamClaims.Collect` | svc/api-gateway/internal/oidc/team_claims.go:52-76 | the loop with its seen set yields the first occurrences, and fails exactly when an element has no id; which id that is, `TeamTheorems` says |
| `TeamClaims.Normalize` | svc/api-gateway/internal/oidc/team_claims.go:40-77 | computes the specification whose success and result `TeamTheorems.NormalizeExact` and `TeamTheorems.NormalizedExact` state about the claims |
| `TeamClaims.DistinctOrder` | svc/api-gateway/internal/oidc/team_claims.go:52-76 | ids keep the order of their first occurrences |
| `TeamClaims.NormalizedDistinct` | svc/api-gateway/internal/oidc/team_claims.go:67-76 | the result has no duplicate and no empty id |
| `TeamClaims.NormalizedMembers` | svc/api-gateway/internal/oidc/team_claims.go:54-76 | the result holds exactly the ids the claim's elements carry |
| `TeamTheorems.WalksExact` | svc/api-gateway/internal/oidc/team_claims.go:96-113 | a walk ends at a value exactly when the tokens name members leading there, and the strict one refuses null |
| `TeamTheorems.ValuesExact` | svc/api-gateway/internal/jwtverify/verifier.go:250-278 | the lenient reading of a well-escaped pointer returns exactly the non-empty strings of the array it leads to |
| `TeamTheorems.ValidExact` | svc/api-gateway/internal/oidc/team_claims.go:25-38 | an adapter is valid exactly with a known kind, an escaped pointer, and an id field for objects only |
| `TeamTheorems.NormalizeExact` | svc/api-gateway/internal/oidc/team_claims.go:40-77 | succeeds exactly when the pointer leads to an array whose every element is a non-empty text, or an object with a non-empty text in the id field |
| `TeamTheorems.NormalizedExact` | svc/api-gateway/internal/oidc/team_claims.go:52-76 | an id is in the result exactly when some element carries it there; each once, in the order of first occurrences |
| `SessionStore.InsertMemberships` | svc/api-gateway/internal/store/sessions.go:69-76 | the rows insert exactly when the ids are non-empty and distinct |
| `SessionStore.Store.DeriveAccess` | svc/api-gateway/internal/store/sessions.go:77-86 | the insert-select never violates its key and yields exactly the join of observations with the issuer's mappings |
| `SessionStore.Store.Create` | svc/api-gateway/internal/store/sessions.go:55-90 | commits session, observations and derived access together, or changes nothing |
| `SessionStore.Store.ReplaceMembership` | svc/api-gateway/internal/store/sessions.go:174-208 | replaces observations and access and the observation time together, or changes nothing |
| `SessionStore.Store.Delete` | svc/api-gateway/internal/store/sessions.go:128-139 | removes the session with every row that references it |
| `SessionStore.Store.RecordToken` | svc/api-gateway/internal/store/sessions.go:210-214 | records a token once, for an existing session, or changes nothing |
| `SessionStore.Store.MembershipState` | svc/api-gateway/internal/store/sessions.go:161-172 | the session row exactly while it is live |
| `SessionStore.Store.TokenContext` | svc/api-gateway/internal/store/sessions.go:141-159 | finds the joined row, or tells a missing team from a missing session |
| `SessionStore.Store.ValidateTokenAccess` | svc/api-gateway/internal/store/sessions.go:216-227 | computes the existence query, whose exact meaning in every reachable state is `SessionFrames.ValidateExact` |
| `SessionStore.Store.Register` | svc/api-gateway/internal/store/mappings.go:35-69 | creates, returns the existing row, or conflicts; only a creation changes a table |
| `SessionStore.Store.RefreshPresentation` | svc/api-gateway/internal/store/mappings.go:98-108 | exactly one row matches when the team is mapped, and only its name and archive date change |
| `SessionTheorems.StepKeeps` | svc/api-gateway/internal/store/sessions.go:55-227 | every transaction, committed or rolled back, keeps access within observation and mapping |
| `SessionTheorems.ReachableInv` | svc/api-gateway/internal/store/sessions.go:55-227 | the table invariant holds after any sequence of transactions |
| `SessionTheorems.AccessWithinJoin` | svc/api-gateway/internal/store/sessions.go:77-86 | in every reachable state a session's teams lie within the join of its last observation with its issuer's mappings |
| `SessionTheorems.ValidatedMeansMember` | svc/api-gateway/internal/store/sessions.go:216-227 | a validated token has a live session whose latest observation still maps to its team |
| `SessionFrames.ValidateExact` | svc/api-gateway/internal/store/sessions.go:216-227 | in every reachable state the check succeeds exactly for a recorded, unexpired token of this operator and team whose session is there, unexpired, and has an access row for the team from an id still observed and mapped to it |
| `SessionFrames.TokenContextExact` | svc/api-gateway/internal/store/sessions.go:141-159 | the token query names session, operator and team exactly for a live session with such a row, and tells the two failures apart |
| `SessionFrames.CreateExact` | svc/api-gateway/internal/store/sessions.go:55-90 | commits exactly for complete input, an unused hash, a future expiry and distinct non-empty ids; every row then holds the input's values, with one access row per mapped id |
| `SessionFrames.ReplaceExact` | svc/api-gateway/internal/store/sessions.go:174-208 | commits exactly for a known session and proper ids; the new rows, and which session fields stay |
| `SessionFrames.SessionFrame` | svc/api-gateway/internal/store/sessions.go:55-208 | a session's rows change only by its own login, refresh or logout |
| `SessionFrames.TokenFrame` | svc/api-gateway/internal/store/sessions.go:210-214 | a token is added, as given, exactly by its own record, and goes exactly with its session |
| `SessionFrames.MappingFrame` | svc/api-gateway/internal/store/mappings.go:35-108 | a mapping is added exactly by its registration, keeps its team, and is renamed exactly by its team's refresh |
| `SessionFrames.OutcomeExact` | svc/api-gateway/internal/store/mappings.go:35-69 | when a registration is invalid, conflicts or returns the standing row |
| `SessionFrames.StandingKept` | svc/api-gateway/internal/store/sessions.go:216-227 | over any run without a refresh or logout of its session, only the clock changes what a token check says |
| `SessionTheorems.QueriesAgree` | svc/api-gateway/internal/store/sessions.go:141-145 | the join through mappings and the lookup by team find the same rows |
| `SessionTheorems.RefreshDecides` | svc/api-gateway/internal/store/sessions.go:174-208 | after a refresh a session's unexpired token validates exactly when a newly observed id maps to its team |
| `SessionTheorems.LogoutRevokes` | svc/api-gateway/internal/store/sessions.go:128-139 | after deletion no token of the session validates |
| `SessionTheorems.NormalizedCreates` | svc/api-gateway/internal/oidc/team_claims.go:40-77 | with Normalize's output Create fails only for the session's own fields, key or expiry |
| `SessionTheorems.RegisterIdempotent` | svc/api-gateway/internal/store/mappings.go:33-69 | an identical retry returns the row, and any other pair for the team conflicts |
| `TokenIssue.RefreshMembership` | svc/api-gateway/internal/httpapi/server.go:403-441 | with other requests committing in between, the outcome and tables of the check and the replacement |
| `TokenIssue.IssueToken` | svc/api-gateway/internal/httpapi/server.go:348-401 | the outcome and final tables of the whole request, early exits included |
| `TokenIssue.CheckExact` | svc/api-gateway/internal/httpapi/server.go:403-441 | the check passes exactly when none is configured, or the live session is fresh or its refresh goes through |
| `TokenIssue.IssueExact` | svc/api-gateway/internal/httpapi/server.go:348-441 | with others committing in between, a token is issued exactly when the check passes, the session is then live and granted the team, the display refresh works and session and token id are still good; it adds that one token with the session's operator, the team asked for and the signed times |
| `TokenIssue.IssuedFrom` | svc/api-gateway/internal/httpapi/server.go:348-441 | a recorded token's team came from an access row of a live session whose observation is the last one given since the check, or else the checked one |
| `TokenIssue.FreshExactly` | svc/api-gateway/internal/httpapi/server.go:418-420 | that row is within the allowed age at the check, or taken by this request, exactly when the last observation other requests gave in between is within it, if there was one |
| `TokenIssue.SlowRefreshOverwrites` | svc/api-gateway/internal/httpapi/server.go:403-441 | a reachable interleaving in which a token is issued from an observation too old at the request's own check |
| `LoginFlow.Flow.Purge` | svc/api-gateway/internal/oidc/flow.go:311-315 | the loop leaves exactly the unexpired entries |
| `LoginFlow.Flow.Start` | svc/api-gateway/internal/oidc/flow.go:295-330 | the pending map stays that of the recorded history |
| `LoginFlow.Flow.Consume` | svc/api-gateway/internal/oidc/flow.go:332-341 | takes the entry out whatever it answers; on a monotone clock the answer is that of the unpurged history |
| `LoginFlow.PurgeUnobservable` | svc/api-gateway/internal/oidc/flow.go:295-341 | after any history Consume answers as if nothing had ever been purged |
| `LoginFlow.ConsumeExact` | svc/api-gateway/internal/oidc/flow.go:332-341 | an issued state is accepted, with its own nonce, verifier and expiry, exactly when it was not consumed since and has not expired |
| `LoginFlow.ConsumeRefuses` | svc/api-gateway/internal/oidc/flow.go:332-341 | a state that was never issued, or has just been consumed, is refused |

## Left out

- HTTP, WebSocket, Docker and Kubernetes API calls, logging, probes and process start-up: their outcomes are free choices of the models.
- The Registry's PostgreSQL store: it enters only through the assumptions listed above.
- HMAC, SHA-256, RSA and AES-GCM: the MAC is a function parameter, session and token hashes are taken as the keys themselves.
- Json.ReadBack: text outside ASCII, which Go passes through as valid UTF-8 and repairs otherwise, is not modelled; nor are white space, duplicate and case-folded keys. The token theorems take the JSON library as a parameter and need only that the one envelope reads back.
- CursorJson.EnvelopeRoundTrip: the same restriction to ASCII text.
- Reservation counter of the Kubernetes Executor and the Pod count it reports: the cluster listing is what bounds Pods.
- A Pod create that takes effect after the crash that interrupted it.
- Cleanup delays, drain deadlines and health-check backoff: wall-clock behaviour.
- Log extraction, prompt and conversation payloads, image references, executor registration and readiness reporting.
- AccessibleTeams and Resolve: sorted listings over the same join as the token query.
- NormalizeScopes, JWT signature and registered-claim checks, and the provider exchange of the login flow.
- CursorBound.AdminTagsFits: covers the admin tag listing only; the length bounds of the other listings are not stated.
- Shutdown of the Docker Executor: draining, forced kills and the cancellation of slots it causes.
- Signing of working tokens: a token enters the tables by its id, operator, team and times only.
