# Verification of the relay's dispatch core

This project models the part of ModelRelay that decides which worker runs which request,
and proves what its clients and workers rely on. `dafny verify dfyconfig.toml` checks it.

**The core.** `RelayState` holds what `ProxyServerCore` holds; a ghost history records the
assignments made, the cancel signals raised and those delivered. `Spec` says in closed form
what each public operation does. `Core.ProxyServerCore` is the core itself, a class whose
methods update its fields in the loops of the original, each proved against `Spec`; hash
maps are visited in arbitrary order. `Loops` holds what one more turn of those loops adds,
and `Reports` what the methods return about the requests they end.

**How the run properties are proved.** `Moves` lists twenty-two elementary moves. `Traces`
and `BulkTraces` show that every operation is a run of moves of its own kind. Each property
is proved for one move (`Index`, `Replies`, `Progress`, `Cancellation`, `Fifo`, `Draining`)
or one operation (`Conservation`, `Overtaking`) and lifted to all runs in `Executions`,
`Handlers`, `Guarantees` and `Endings`. `Fairness` is about selection, once and over runs.

**Around the core.** `WorkerSocket` is what a worker's socket makes of frames and polls.
`Daemon`, `WorkerDaemon` and `Traffic` are the worker daemon and its two links, and
`Session` composes them with the core. `DispatchHarness` is the repository's own simple
contract model, used as a specification: `Simulation` compares the core with it step by
step, and `SimulatedRuns` run by run, with the answers of `Answers`.
`StreamingResponse` and `ResponseHarness` are the two bounded streams; `StreamedReplies`
follows a chunk from the task that emits it, over the session and the reply, to the client.
`Heartbeat` is the stale-worker rule.

**In plain fields.** `Submissions`, `Reported`, `Registrations`, `Settings`, `Notices` and
`Outcomes` say again, over fields of workers, queues and replies alone (`PlainTerms`), what
the operations do and what comes of it over runs. `Contents` and `SentWork` follow what a
submission said to the worker and its daemon; `Aborting`, `Tasks` and `Frames` tell the
daemon from the events of its session (`SessionCore`).

Ids are numbers, models and providers are strings, times are natural numbers of one clock;
saturating counters saturate at the original's word size.

## Where the code differs from its documentation, or from what one may expect

The code is modelled as it is; each point below is a lemma.

- Cancelling a waiting request looks only in the queue of the provider it was sent to. A
  request that another provider's worker took and lost waits in that provider's queue, and
  its cancellation does nothing (`Endings.CancelReachesHomeQueueOnly`, `Scenarios.CancelCanMiss`).
- docs/behavior-contract.md says that chunks arriving after a cancellation are dropped. The
  core forwards them if and only if their sender runs the request and a streaming reply is
  held (`Endings.ChunkReachesClientExactlyWhen`, `Scenarios.LateChunkCanArrive`).
- A completion takes the reply before asking who runs the request: one from another worker
  ends the reply if and only if it is still held (`WorkerSocket.StrangerEndsTheReply`,
  `Scenarios.StrangerCanAnswer`).
- The heartbeat clock starts when the socket opens and the registration does not restart it
  (`Heartbeat.TooSoonExactlyWhen`).
- A stream that passes the size limit disarms its guard, so the request is not cancelled
  and runs on (`StreamingResponse.StreamedBody`).
- Registration and disconnection do not wake the queues, and a request whose routing forbids
  fallbacks may wait beside a worker that would take it; conservation of work names exactly
  these (`Conservation.StepConserves`).

## Model

| member | source | states |
|---|---|---|
| `Core.ProxyServerCore.constructor` | crates/modelrelay-server/src/lib.rs:42-48 | a new core has nothing in it and is sound |
| `Core.ProxyServerCore.ConfigureProviderQueue` | crates/modelrelay-server/src/lib.rs:50-56 | sets one provider policy and nothing else |
| `Core.ProxyServerCore.RegisterWorker` | crates/modelrelay-server/src/lib.rs:58-99 | adds a worker under a new id, at the end of the listing, with room for at least one request |
| `Core.ProxyServerCore.UpdateWorkerModels` | crates/modelrelay-server/src/lib.rs:101-122 | new models and load, then requests are taken one by one until the worker is full or serves nothing that waits |
| `Core.ProxyServerCore.RecordWorkerPong` | crates/modelrelay-server/src/lib.rs:124-144 | the same for a new load alone; the loop ends |
| `Core.ProxyServerCore.SubmitTransportRequest` | crates/modelrelay-server/src/lib.rs:164-239 | the selected worker gets the request, else it waits, else it is refused with the reason its models decide |
| `Core.ProxyServerCore.SubmitHttpRequest` | crates/modelrelay-server/src/lib.rs:277-360 | as above, and a reply channel exactly when not refused |
| `Core.ProxyServerCore.FinishRequest` | crates/modelrelay-server/src/lib.rs:241-268 | the request leaves list and index; a drained worker leaves with a reason, any other takes one request |
| `Core.ProxyServerCore.StreamHttpResponseChunk` | crates/modelrelay-server/src/lib.rs:362-387 | true exactly for the worker running the request; then the chunk reaches a streaming reply |
| `Core.ProxyServerCore.CompleteHttpResponse` | crates/modelrelay-server/src/lib.rs:389-412 | the reply is taken before the owner is looked at; the answer says whether the request is over |
| `Core.ProxyServerCore.TakePendingWorkerRequests` | crates/modelrelay-server/src/lib.rs:414-421 | hands over the whole outbox once |
| `Core.ProxyServerCore.TakePendingWorkerCancelSignals` | crates/modelrelay-server/src/lib.rs:424-450 | hands over the signals still pending for the worker and drops those no longer pending for anybody |
| `Core.ProxyServerCore.BeginGracefulShutdown` | crates/modelrelay-server/src/lib.rs:452-481 | every worker not yet draining gets the deadline and one signal, in listing order |
| `Core.ProxyServerCore.TakePendingWorkerGracefulShutdownSignals` | crates/modelrelay-server/src/lib.rs:484-501 | hands over the worker's shutdown signals and forgets those of removed workers |
| `Core.ProxyServerCore.ExpireGracefulShutdown` | crates/modelrelay-server/src/lib.rs:541-584 | exactly the overdue workers leave, and exactly what they were running fails; both are reported, in listing and in-flight order |
| `Core.ProxyServerCore.ExpireQueueTimeouts` | crates/modelrelay-server/src/lib.rs:587-626 | each timed queue loses exactly its expired requests, and the report lists them queue by queue, whatever order the queues are visited in |
| `Core.ProxyServerCore.DeleteProvider` | crates/modelrelay-server/src/lib.rs:628-669 | the provider's queue and workers go, and everything in them fails |
| `Core.ProxyServerCore.DisconnectWorker` | crates/modelrelay-server/src/lib.rs:671-739 | cancelled and worn-out requests fail; the rest go to the front of the worker's provider queue in order; both are reported, the failures with their reasons |
| `Core.ProxyServerCore.CancelRequest` | crates/modelrelay-server/src/lib.rs:741-786 | a waiting request found in its provider's queue is removed; a running one is marked and signalled once |
| `Core.ProxyServerCore.DisconnectDrainedWorkerIfIdle` | crates/modelrelay-server/src/lib.rs:916-931 | removes the worker exactly when it drains and runs nothing |
| `Core.ProxyServerCore.TakeGracefulShutdownDisconnectReason` | crates/modelrelay-server/src/lib.rs:933-938 | hands over the close reason once |
| `Core.ProxyServerCore.DispatchNextCompatible` | crates/modelrelay-server/src/lib.rs:967-1017 | gives the worker the oldest of the queues' first compatible requests, or nothing exactly when none is compatible |
| `Core.ProxyServerCore.BestCompatible` | crates/modelrelay-server/src/lib.rs:988-1004 | over queues visited in any order, the best entry is no younger than any queue's first compatible one |
| `Core.ProxyServerCore.FindEligibleWorkerId` | crates/modelrelay-server/src/lib.rs:1019-1044 | selects as the routing or the provider fallback says and moves at most one cursor |
| `Core.ProxyServerCore.FindEligibleWithRouting` | crates/modelrelay-server/src/lib.rs:1046-1139 | only/ignore filters, the order list, least load, or fallbacks |
| `Core.ProxyServerCore.FindPreferred` | crates/modelrelay-server/src/lib.rs:1108-1117 | the earliest of a preferred provider's least loaded workers |
| `Core.ProxyServerCore.FindEligibleForProvider` | crates/modelrelay-server/src/lib.rs:1141-1195 | a worker exactly when one is eligible, least loaded, next after the cursor |
| `Core.ProxyServerCore.LeastLoaded` | crates/modelrelay-server/src/lib.rs:1174-1178 | exactly the positions of least load |
| `Core.ProxyServerCore.PickInTurn` | crates/modelrelay-server/src/lib.rs:1183-1193 | the cyclic successor of the cursor among the least loaded |
| `Core.ProxyServerCore.AssignToWorker` | crates/modelrelay-server/src/lib.rs:1197-1214 | list, outbox and index get the request together |
| `Core.ProxyServerCore.HasCompatibleWorker` | crates/modelrelay-server/src/lib.rs:1222-1231 | whether anybody not draining supports the model |
| `Core.ProxyServerCore.FailPendingHttpResponse` | crates/modelrelay-server/src/lib.rs:1233-1248 | fails a reply once, if it is still waiting |
| `Core.ProxyServerCore.RemoveWorker` | crates/modelrelay-server/src/lib.rs:1250-1260 | the worker, its place in the listing, its outbox and its signals go together |
| `Reports.EvictionReport` | crates/modelrelay-server/src/lib.rs:556-578 | evicting reports every request the evicted workers run, each once |
| `Reports.SweepIsReported` | crates/modelrelay-server/src/lib.rs:591-620 | in whichever order the queues are visited, a sweep reports exactly the expired requests, each once |
| `Reports.LossIsReported` | crates/modelrelay-server/src/lib.rs:681-739 | a lost worker's report has the requests put back, in order, and each failure once, with the reason its client is given |
| `Submissions.SubmissionBecomes` | crates/modelrelay-server/src/lib.rs:164-239 | a submission is dispatched exactly when somebody with room that its filters or fallbacks allow can take it, else waits last in its own provider's queue exactly when there is place, else is refused with the reason the advertised models decide; the record says what was submitted |
| `Submissions.DispatchedToTheRightOne` | crates/modelrelay-server/src/lib.rs:1046-1195 | the worker has room, serves the request, passes the filters when anybody does, comes from the first listed provider that offers anybody or the own provider, and is least loaded among those |
| `Submissions.FiltersBind` | crates/modelrelay-server/src/lib.rs:1060-1089 | when somebody passes the only and ignore lists the request goes to one that passes; with nobody passing and fallbacks off it goes to nobody |
| `Submissions.ReplyAwaited` | crates/modelrelay-server/src/lib.rs:277-360 | a client waits for a reply of its kind, empty so far, exactly when its submission is not refused |
| `Contents.WorkersAreSentWhatWasSubmitted` | crates/modelrelay-server/src/lib.rs:1197-1214 | in every run, a message that a collection hands over under the id of a submission has that submission's model, path and streaming flag |
| `Contents.RequestsAreWhatWasSubmitted` | crates/modelrelay-server/src/lib.rs:164-239 | in every run, the record of a request is what its submission said for as long as it lasts, but for its requeues |
| `SentWork.DaemonsReadWhatWasSubmitted` | crates/modelrelay-server/src/worker_socket.rs:509-526 | in every session run, a request on the link to the daemon says what its submission said |
| `SentWork.DaemonsReadWhatWaited` | crates/modelrelay-server/src/worker_socket.rs:509-526 | and one that waited before the session began says what its record said then |
| `SentWork.LinkIsAQueue` | crates/modelrelay-server/src/worker_socket.rs:509-550 | each collection puts one message on the link for each thing collected, in order, and the daemon reads the first |
| `SentWork.EveryCancelWasDue` | crates/modelrelay-server/src/lib.rs:424-450 | in every session run, a cancel on the link is of a request the worker was running, cancelled, when it was sent |
| `Reported.PongIsRecorded` | crates/modelrelay-server/src/lib.rs:124-144 | the load after a pong is the reported one and one more for each request it brought; a worker reporting itself full takes nothing, and one with room leaves nothing it could take |
| `Reported.UpdateIsRecorded` | crates/modelrelay-server/src/lib.rs:101-122 | the same of an update, and the models are the reported ones |
| `Reported.FinishIsRecorded` | crates/modelrelay-server/src/lib.rs:241-268 | one request and one unit of load go, and one request comes unless none is left that the worker could take |
| `Reported.LeavesWithItsLast` | crates/modelrelay-server/src/lib.rs:257-261 | a worker leaves by finishing exactly when it drains and that was its last |
| `Reported.TakenByOneThatServesIt` | crates/modelrelay-server/src/lib.rs:967-1017 | what waited and now runs is on a worker that advertises its model and has a prefix of its path |
| `Registrations.RegisteredAsSent` | crates/modelrelay-server/src/lib.rs:58-99 | a worker is, right after its registration, what it said it is |
| `Registrations.RegistrationLasts` | crates/modelrelay-server/src/lib.rs:58-99 | in every run, its provider, prefixes and capacity are the registered ones for as long as it lasts |
| `Registrations.ModelsLast` | crates/modelrelay-server/src/lib.rs:58-122 | and its models, until it updates them |
| `Registrations.WithinRegisteredPrefixes` | crates/modelrelay-server/src/lib.rs:1141-1195 | in every run, whatever a worker runs has a path under a prefix that worker registered with |
| `Registrations.WithinRegisteredCapacity` | crates/modelrelay-server/src/lib.rs:79-96 | and it never runs more than it registered for |
| `Registrations.ListedByRegistration` | crates/modelrelay-server/src/lib.rs:75-97 | the listing is in the order of registration |
| `Settings.RefusedExactlyWhenFull` | crates/modelrelay-server/src/lib.rs:195-239 | a submission nobody can take is refused exactly when its queue holds as many as configured last |
| `Settings.UnconfiguredNeverRefuses` | crates/modelrelay-server/src/lib.rs:1289-1296 | without a configuration none is refused short of what a counter can hold |
| `Settings.SweptExactlyWhenDue` | crates/modelrelay-server/src/lib.rs:587-626 | a sweep takes from a queue exactly what is due by the last configuration |
| `Settings.UnconfiguredNeverTimesOut` | crates/modelrelay-server/src/lib.rs:1289-1296 | without a configuration none times out |
| `Notices.ShutdownIsAnnounced` | crates/modelrelay-server/src/lib.rs:452-481 | each worker not draining gets the deadline and one notice, and all others are left as they were |
| `Notices.NoticeReachesItsWorker` | crates/modelrelay-server/src/lib.rs:484-501 | in every run, the first collection of a worker told to shut down hands over exactly its notice |
| `Notices.NoticeComesOnce` | crates/modelrelay-server/src/lib.rs:484-501 | and no later one hands over another |
| `Notices.DeadlineIsKept` | crates/modelrelay-server/src/lib.rs:541-550 | in every run, an expiry removes a worker told to shut down exactly when its timeout has passed since |
| `Outcomes.FirstCancel` | crates/modelrelay-server/src/lib.rs:765-786 | the first cancel of running work marks it and raises one signal with its reason |
| `Outcomes.LaterCancelRepeatsTheFirst` | crates/modelrelay-server/src/lib.rs:765-786 | in every run, a later cancel is answered with the first one's reason and changes nothing |
| `Outcomes.WaitingCancel` | crates/modelrelay-server/src/lib.rs:748-763 | cancelling what waits at home takes out its one record, entry and sender and touches nothing else |
| `Outcomes.CollectedSignalsAreTrue` | crates/modelrelay-server/src/lib.rs:424-450 | in every run, a collected signal is of a request the worker runs, with the reason of the first cancel made of it |
| `Outcomes.EveryEndingIsRight` | crates/modelrelay-server/src/lib.rs:541-739 | in every run, deadlines, timeouts, deletions and lost connections end exactly the requests they should, tell each waiting client why, put back the rest, and touch no other |
| `Outcomes.DeletionClears` | crates/modelrelay-server/src/lib.rs:628-669 | a deletion takes the provider's queue and exactly its workers |
| `Outcomes.IdleDrainedLeaves` | crates/modelrelay-server/src/lib.rs:916-931 | exactly an idle draining worker is removed, and nobody else |
| `Outcomes.ChunkIsForwarded` | crates/modelrelay-server/src/lib.rs:362-387 | a chunk is passed on from the worker that runs the request to a client that waits for a stream, and changes nothing else |
| `Outcomes.FrameAnswersItsClient` | crates/modelrelay-server/src/worker_socket.rs:482-501 | a completion gives the client that still waits the whole body as the last thing it gets |
| `Index.MoveKeeps` | crates/modelrelay-server/src/lib.rs:164-268 | every elementary move keeps index, queues, lists, listing, outboxes and close reasons in agreement |
| `Traces.SelectedIsEligible` | crates/modelrelay-server/src/lib.rs:1019-1044 | whoever is selected has room and serves the request |
| `Traces.SubmitRuns` | crates/modelrelay-server/src/lib.rs:164-239 | a submission is a run of elementary moves |
| `BulkTraces.EvictRuns` | crates/modelrelay-server/src/lib.rs:551-578 | evicting any set of workers, in any order, is a run of failing and leaving moves ending in the closed form |
| `BulkTraces.ExpireRuns` | crates/modelrelay-server/src/lib.rs:587-626 | a timeout sweep is a run of drops ending in the closed form |
| `BulkTraces.DisconnectRuns` | crates/modelrelay-server/src/lib.rs:671-739 | a disconnect is a run of failures and requeues from the last request to the first, ending in the closed form |
| `BulkTraces.StepRuns` | crates/modelrelay-server/src/lib.rs:50-938 | every public operation is a run of moves of its own kind |
| `BulkTraces.StepKeeps` | crates/modelrelay-server/src/lib.rs:50-938 | every public operation keeps the core sound |
| `Executions.AlwaysSound` | crates/modelrelay-server/src/lib.rs:50-938 | after any sequence of operations everything kept twice agrees: each waiting request is once in one queue, each running one once in one list, the listing is exact, reasons belong to removed workers |
| `Executions.AlwaysLasts` | crates/modelrelay-server/src/lib.rs:164-177 | ended ids never return and what lasts keeps its identity |
| `Progress.MoveSpends` | crates/modelrelay-server/src/lib.rs:20 | each dispatch, requeue and ending spends from a budget that a submission raises by at most eight |
| `Executions.FinitelyManyWorkingSteps` | crates/modelrelay-server/src/lib.rs:671-739 | over any stretch of a run, working steps are bounded by the budget and eight per submission |
| `Executions.AtMostFourAssignments` | crates/modelrelay-server/src/lib.rs:705-716 | no request is ever assigned more than four times |
| `Cancellation.MoveKeepsCancels` | crates/modelrelay-server/src/lib.rs:424-450 | a marked request has its one signal pending or delivered, an unmarked one has none |
| `Executions.AlwaysSignalledOnce` | crates/modelrelay-server/src/lib.rs:765-784 | one signal is ever raised for a request, and it is delivered at most once |
| `Executions.FirstReasonStands` | crates/modelrelay-server/src/lib.rs:692-702 | the first cancel reason stands and a cancelled request is never requeued |
| `Endings.CancelReachesHomeQueueOnly` | crates/modelrelay-server/src/lib.rs:747-762 | cancelling a waiting request removes it everywhere if and only if it waits in its own provider's queue, which a never-requeued one always does |
| `Scenarios.CancelCanMiss` | crates/modelrelay-server/src/lib.rs:726-751 | a run from an empty core: a requeued request waits elsewhere and its cancellation does nothing |
| `Endings.ChunkReachesClientExactlyWhen` | crates/modelrelay-server/src/lib.rs:368-384 | when a chunk is forwarded; being cancelled is no part of it |
| `Endings.LateChunkIsForwarded` | crates/modelrelay-server/src/lib.rs:368-384 | a chunk after a cancellation is still forwarded |
| `Scenarios.LateChunkCanArrive` | crates/modelrelay-server/src/lib.rs:368-384 | a run from an empty core in which that happens |
| `Replies.MoveKeepsChannels` | crates/modelrelay-server/src/lib.rs:1233-1248 | each reply is chunks and at most one ending, and logs only grow |
| `Executions.RepliesOnlyGrow` | crates/modelrelay-server/src/lib.rs:362-412 | over whole runs nothing follows an ending and nothing is taken back |
| `Executions.ChunksComeFromTheirOwner` | crates/modelrelay-server/src/lib.rs:368-384 | every chunk in a reply was sent by the worker then running the request |
| `Handlers.NoSenderOutlivesItsRequest` | crates/modelrelay-server/src/worker_socket.rs:493-499 | driven by the handlers, a reply still waiting belongs to an active request |
| `Handlers.ResponsesAreHandled` | crates/modelrelay-server/src/worker_socket.rs:493-499 | the socket's answer to a completion only makes such operations |
| `Guarantees.FirstComeStaysAhead` | crates/modelrelay-server/src/lib.rs:991-1010 | two requests staying in one queue keep their order over any stretch of a run |
| `Overtaking.StepTakes` | crates/modelrelay-server/src/lib.rs:101-144 | a request that waited before an operation and runs after it was taken by its worker, one pull after another, from those very queues |
| `Guarantees.NobodyIsOvertaken` | crates/modelrelay-server/src/lib.rs:988-1010 | when a worker takes a request from a queue in which another has been ahead of it over a stretch of a run, the worker does not serve the one left behind, however many requests the step dispatches |
| `Guarantees.OldestHeadsFirst` | crates/modelrelay-server/src/lib.rs:988-1004 | a step that leaves waiting the first request of a queue that a worker serves has given that worker nothing younger |
| `Guarantees.RecordsInOrder` | crates/modelrelay-server/src/lib.rs:681-723 | requeued records are in in-flight order, changed only in their requeue count |
| `Guarantees.RequeuedGoToTheFront` | crates/modelrelay-server/src/lib.rs:725-733 | they go before everything already in the worker's provider queue, and no other queue changes |
| `Guarantees.QueuesStayWithinPolicy` | crates/modelrelay-server/src/lib.rs:211-238 | with policies fixed first, never-requeued entries never exceed the configured length |
| `Guarantees.NeverOverCapacity` | crates/modelrelay-server/src/lib.rs:1216-1220 | no worker runs more than it may, whatever it reports |
| `Guarantees.AlwaysWithinPrefixes` | crates/modelrelay-server/src/lib.rs:1439-1446 | whatever a worker runs has a path under its endpoint prefixes |
| `Guarantees.DrainingOnlyShrinks` | crates/modelrelay-server/src/lib.rs:452-481 | a draining worker takes on nothing and keeps its deadline until it is gone |
| `Guarantees.GoneForGood` | crates/modelrelay-server/src/lib.rs:64-66 | a removed worker id never comes back |
| `Guarantees.RemovalSetsReason` | crates/modelrelay-server/src/lib.rs:258-265 | each way of removal gives its reason, a lost connection none |
| `Guarantees.NextPollTellsWhy` | crates/modelrelay-server/src/worker_socket.rs:615-644 | whoever's poll removed a worker, its own socket's next poll returns the reason of its removal |
| `Guarantees.ReasonIsTakenOnce` | crates/modelrelay-server/src/lib.rs:933-938 | after a poll has taken a removed worker's reason, it has none for the rest of the run |
| `Guarantees.ExactlyOneReason` | crates/modelrelay-server/src/lib.rs:258-265 | a removed worker has the reason of its removal from then until the first poll that takes it, and none before or after |
| `Guarantees.PollOfTheRegistered` | crates/modelrelay-server/src/worker_socket.rs:615-644 | a registered worker is closed exactly when overdue or drained and idle |
| `Conservation.FinishLowersLoad` | crates/modelrelay-server/src/lib.rs:251-254 | finishing lowers the selection load by exactly one |
| `Conservation.FinisherStaysBusy` | crates/modelrelay-server/src/lib.rs:241-268 | finishing one and dispatching one leaves no room beside compatible work |
| `Conservation.RetuneConserves` | crates/modelrelay-server/src/lib.rs:101-144 | a report leaves its worker serving all it can |
| `Conservation.StepConserves` | crates/modelrelay-server/src/lib.rs:101-268 | which operations may leave whom idle beside work, and which put it right |
| `Guarantees.WorkIsConserved` | crates/modelrelay-server/src/lib.rs:101-268 | the same over whole runs |
| `Fairness.SelectsUnique` | crates/modelrelay-server/src/lib.rs:1019-1195 | selection leaves no choice open |
| `Fairness.UnroutedSelection` | crates/modelrelay-server/src/lib.rs:1019-1044 | a worker if and only if any is eligible, own provider first, at least load |
| `Fairness.RoutedSelection` | crates/modelrelay-server/src/lib.rs:1046-1139 | a worker passing the filters whenever there is one, of the first listed provider that has one, at its least load; else fallbacks decide |
| `Fairness.EachServedOnce` | crates/modelrelay-server/src/lib.rs:1183-1193 | as many picks as tied workers give each exactly one |
| `Fairness.CursorStays` | crates/modelrelay-server/src/lib.rs:1019-1195 | no operation moves a cursor except a submission that finds a worker under its key |
| `Fairness.TiedWorkersTakeTurns` | crates/modelrelay-server/src/lib.rs:1183-1193 | over a run: submissions under one key at which the same positions are tied, as many as there are positions, are given to each of their workers exactly once, if no other submission finds a worker under the key in between |
| `Endings.SweepSplitsQueues` | crates/modelrelay-server/src/lib.rs:591-620 | each queue keeps exactly its unexpired requests, in their original order; untimed queues are untouched |
| `Endings.SweepEndsExactlyTheExpired` | crates/modelrelay-server/src/lib.rs:587-626 | an expired request fails once and leaves index and senders; nothing else changes |
| `Endings.RunningNeverTimesOut` | crates/modelrelay-server/src/lib.rs:587-626 | work in flight is not swept |
| `WorkerSocket.HandleResponseComplete` | crates/modelrelay-server/src/worker_socket.rs:493-499 | complete, else finish, else nothing left |
| `WorkerSocket.HandleWorkerMessage` | crates/modelrelay-server/src/worker_socket.rs:453-502 | each frame as one of the core's operations |
| `WorkerSocket.CompletionAccepted` | crates/modelrelay-server/src/worker_socket.rs:493-499 | a completion is accepted if and only if its request runs on its sender or is over |
| `WorkerSocket.StrangerEndsTheReply` | crates/modelrelay-server/src/lib.rs:395-411 | a completion from a worker that does not run the request ends the client's reply if and only if the reply is still held, and changes nothing else |
| `Scenarios.StrangerCanAnswer` | crates/modelrelay-server/src/lib.rs:395-411 | a run from an empty core in which a client is answered by a worker that never ran its request |
| `WorkerSocket.GracefulShutdownCloseAction` | crates/modelrelay-server/src/worker_socket.rs:615-644 | a poll returns the reason kept for its worker after expiry and the idle check |
| `Simulation.PlaceMatches` | crates/modelrelay-contract-tests/src/dispatch_harness.rs:104-156 | the same worker, the same place, or a refusal by both |
| `Simulation.FinishMatches` | crates/modelrelay-contract-tests/src/dispatch_harness.rs:158-181 | finishing matches, with the same dispatch |
| `Simulation.DrainCompares` | crates/modelrelay-contract-tests/src/dispatch_harness.rs:77-102 | a drain is the harness's bounded run of dispatches |
| `Simulation.EvictedCompares` | crates/modelrelay-contract-tests/src/dispatch_harness.rs:204-241 | evictions match |
| `Simulation.DeleteMatches` | crates/modelrelay-contract-tests/src/dispatch_harness.rs:243-289 | provider deletion matches |
| `Simulation.DisconnectMatches` | crates/modelrelay-contract-tests/src/dispatch_harness.rs:291-348 | a disconnect requeues and fails the same requests |
| `Simulation.SweepMatches` | crates/modelrelay-contract-tests/src/dispatch_harness.rs:472-503 | timeout sweeps match |
| `Simulation.StepMatches` | crates/modelrelay-contract-tests/src/dispatch_harness.rs:77-381 | every shared operation of the core is the harness operation of the same name, with the same answer to its caller, up to the reason of a refusal |
| `Answers.StepAnswers` | crates/modelrelay-server/src/lib.rs:50-938 | every step of the core has an answer to compare |
| `Answers.CompletingCompletes` | crates/modelrelay-server/src/lib.rs:389-412 | a completion finishes its request exactly when its reply is held, and the answer says what the core returns |
| `SimulatedRuns.CoreSimulatesHarness` | crates/modelrelay-contract-tests/src/dispatch_harness.rs:77-381 | forward simulation over whole runs: every step gives the same answer and leads to the same assignments, queues, cursors and signals |
| `Assignments.ForeignGrows` | crates/modelrelay-server/src/lib.rs:1197-1214 | whatever anybody else does, a registered worker's list and outbox grow by the same requests |
| `Assignments.FinishReplaces` | crates/modelrelay-server/src/lib.rs:241-268 | a worker's own completion takes one request out first |
| `WorkerDaemon.WorkerDaemon.HandleServerMessage` | crates/modelrelay-worker/src/lib.rs:355-434 | what each server message does to the daemon |
| `WorkerDaemon.WorkerDaemon.HandleEvent` | crates/modelrelay-worker/src/lib.rs:204-221 | what each event of a task does |
| `WorkerDaemon.WorkerDaemon.ReadNext` | crates/modelrelay-worker/src/lib.rs:183-203 | one turn of the loop for a message |
| `WorkerDaemon.WorkerDaemon.ForwardNext` | crates/modelrelay-worker/src/lib.rs:204-221 | one turn of the loop for an event |
| `Daemon.ActKeeps` | crates/modelrelay-worker/src/lib.rs:355-434 | no act of the daemon loses a request or sends it twice, and chunks stay before their completion |
| `Daemon.EndKeeps` | crates/modelrelay-worker/src/lib.rs:205-252 | ending the session loses exactly its tasks and unsent completions |
| `Session.ExactlyOneStage` | crates/modelrelay-server/src/worker_socket.rs:453-526 | each request of a registered worker is in exactly one stage |
| `Session.NeverAProtocolError` | crates/modelrelay-server/src/worker_socket.rs:453-502 | nothing a conforming daemon sends is a protocol error while its worker is registered |
| `Session.SessionKeeps` | crates/modelrelay-server/src/worker_socket.rs:332-418 | every step of core, links and daemon keeps the requests accounted for |
| `Session.ServerAndDaemonCompose` | crates/modelrelay-server/src/worker_socket.rs:332-418 | both over every interleaving |
| `Aborting.CancelledForGood` | crates/modelrelay-worker/src/lib.rs:426-431 | in every session run, when the daemon reads a cancel of a request it handles, the task stops and never runs again while the worker is registered |
| `Aborting.TasksRunOn` | crates/modelrelay-worker/src/lib.rs:155-273 | and until its cancel is read a task stops only by responding, by failing or with the session |
| `Tasks.AlwaysTold` | crates/modelrelay-worker/src/lib.rs:355-434 | in every session run, what the daemon handles, runs and winds up, whether it drains and whether it is over follow from the messages read and the tasks' own events |
| `Tasks.ReadingACancelAborts` | crates/modelrelay-worker/src/lib.rs:426-431 | a started task is aborted for good by the reading of its cancel, unless the daemon has passed on by then that it is done |
| `Frames.FramesAreAQueue` | crates/modelrelay-worker/src/lib.rs:155-273 | while the session lasts frames are put last as they are made, none is lost, and the server reads the first |
| `Frames.EveryFrameIsTrue` | crates/modelrelay-worker/src/lib.rs:374-425 | in every session run, each frame on its way was made by the daemon and said then what was so |
| `Frames.RecordedLoadIsTheDaemons` | crates/modelrelay-worker/src/lib.rs:394-407 | the load the core records from a pong is the number of requests the daemon handled when it read the ping, and what the pong brought |
| `Frames.RecordedModelsAreTheBackends` | crates/modelrelay-worker/src/lib.rs:412-425 | and the models are those the backend named |
| `Frames.AnsweredWithTheTasksBody` | crates/modelrelay-worker/src/lib.rs:374-382 | the body a client is answered with is the one its task responded with |
| `StreamedReplies.ChunksArriveInOrder` | crates/modelrelay-server/src/worker_socket.rs:453-502 | while a worker runs a request it was given and a client holds its stream, the chunks in the reply are in order the first of those the task emitted |
| `StreamedReplies.CompletionComesLast` | crates/modelrelay-server/src/worker_socket.rs:493-499 | when the worker's completion arrives, all emitted chunks have arrived in order, the completion follows them and the task is over |
| `StreamedReplies.ClientReadsWhatWasEmitted` | crates/modelrelay-server/src/http.rs:545-604 | the streamed body is the longest run of the emitted chunks within the limit, then one error exactly when more were emitted |
| `Heartbeat.Heart.constructor` | crates/modelrelay-server/src/worker_socket.rs:314-315 | the clock starts when the socket opens |
| `Heartbeat.Heart.OnFrame` | crates/modelrelay-server/src/worker_socket.rs:364-366 | a frame restarts the clock |
| `Heartbeat.Heart.OnSilence` | crates/modelrelay-server/src/worker_socket.rs:387-405 | silence makes a worker stale or a ping due |
| `Heartbeat.DropTakesBoth` | crates/modelrelay-server/src/worker_socket.rs:364-405 | a drop takes the interval and the timeout from the last frame of the loop |
| `Heartbeat.HeardFromMeansPatience` | crates/modelrelay-server/src/worker_socket.rs:364-405 | a worker heard from since its registration is never dropped too soon |
| `Heartbeat.TooSoonExactlyWhen` | crates/modelrelay-server/src/worker_socket.rs:314-326 | a drop sooner than that after the registration is possible if and only if registering took longer than the read timeouts make up |
| `Heartbeat.SlowRegistrationIsDropped` | crates/modelrelay-server/src/worker_socket.rs:314-326 | a concrete early drop |
| `StreamingResponse.StreamedBody` | crates/modelrelay-server/src/http.rs:545-604 | the body is the longest run of chunks within the limit, then one error exactly on overflow; when the guard stays armed |
| `StreamingResponse.FitUnique` | crates/modelrelay-server/src/http.rs:563-591 | there is one such run |
| `ResponseHarness.ResponseHarness.StartRequest` | crates/modelrelay-contract-tests/src/response_harness.rs:24-31 | a new request with nothing passed on |
| `ResponseHarness.ResponseHarness.DeliverResponseChunk` | crates/modelrelay-contract-tests/src/response_harness.rs:33-57 | a chunk is passed on numbered, or the request ends |
| `ResponseHarness.ResponseHarness.DeliverResponseComplete` | crates/modelrelay-contract-tests/src/response_harness.rs:59-73 | the request ends with its chunks |
| `ResponseHarness.ResponseHarness.DeliverAll` | crates/modelrelay-contract-tests/src/response_harness.rs:33-57 | delivering chunks in turn |
| `ResponseHarness.DeliveriesFit` | crates/modelrelay-contract-tests/src/response_harness.rs:33-57 | the longest run that fits, numbered in order, then a termination exactly on overflow |
| `ResponseHarness.SameChunksForwarded` | crates/modelrelay-contract-tests/src/response_harness.rs:33-57 | server and harness show a client the same chunks |

## Left out

- Models-refresh signals inside the core, model-list sanitising, registration warnings, admin and debug snapshots: simple lookups with no part in dispatch; the refresh message itself is on the daemon's link.
- HTTP and WebSocket transport, JSON, headers, request bodies and methods: links are sequences, and a request carries its path, model and streaming flag only.
- Tasks and channels of the runtime: each core method is one atomic step, as under the original's lock, and everything between two steps may interleave.
- Formatting of ids and overflow of the id counters.
- The worker's draining flag is the presence of its deadline, which the original always sets together.
- Clocks are parameters; queue timeouts and queueing times are in one unit, where the original turns seconds into durations.
- The sort preference of a client's routing, which the core never reads.
- API keys, authentication and its rate limiter, the cloud, web and desktop crates, reconnection with backoff.
- DispatchHarness.Step: the harness is a specification on values here; its updates in place and its loops are not modelled, nor its chunk forwarding. What it returns is compared with what the core returns; its report of a provider's deletion is not, since the core makes none.
- SimulatedRuns.CoreSimulatesHarness: stated on what the two share, namely one provider, exact model names, no endpoint prefixes or routing, reports that equal the requests in flight, one cancellation per request, and one shutdown; the harness has no removal of an idle drained worker before its deadline, so a run making one is not compared.
- Session.SessionKeeps: the daemon's tasks are nondeterministic, and a task aborted by a cancel may still send what it was sending; timing (idle limit, pings of the daemon) is left to nondeterministic ends of the session.
- Guarantees.QueuesStayWithinPolicy: a policy made stricter while requests wait can be exceeded, so policies are fixed before anything else.
- StreamedReplies.CompletionComesLast: assumes what the sockets keep to, that only a worker's own socket calls the core in its name, and that the client still holds its stream; a reply that a stranger has ended is not followed.
