/** What each public operation of the core does to the state, in closed form. */
module Spec {
  import opened Seqs
  import opened RelayState
  import opened Moves
  import opened Selection

  datatype Submission = Submission(want: Wanted, streaming: bool, now: nat, sender: Option<Sender>)

  datatype Outcome =
    | Dispatched(id: RequestId, worker: WorkerId)
    | Waiting(id: RequestId, queueLen: nat)
    | Rejected(id: RequestId, why: FailureReason)

  // ---- what callers are told of requests that end ----

  datatype RequestFailure = RequestFailure(id: RequestId, why: FailureReason)

  datatype DisconnectOutcome = DisconnectOutcome(requeued: seq<RequestId>, failed: seq<RequestFailure>)

  function AllFailed(ids: seq<RequestId>, why: FailureReason): seq<RequestFailure> {
    seq(|ids|, i requires 0 <= i < |ids| => RequestFailure(ids[i], why))
  }

  // ---- dispatching queued work ----

  /** The oldest among the queues' first entries that w can serve. */
  ghost predicate BestPick(s: State, w: WorkerId, p: string, i: nat)
    requires w in s.workers
  {
    FirstServed(s, w, p, i)
    && forall q, j: nat :: FirstServed(s, w, q, j) ==> s.queues[p][i].queuedAt <= s.queues[q][j].queuedAt
  }

  ghost predicate NothingServed(s: State, w: WorkerId)
    requires w in s.workers
  {
    forall p, i :: p in s.queues && 0 <= i < |s.queues[p]| ==> !s.workers[w].Serves(s.queues[p][i])
  }

  ghost predicate Room(s: State, w: WorkerId) {
    w in s.workers && s.workers[w].HasCapacity()
  }

  /** One queued request, `id`, goes to w. */
  ghost predicate PullsOne(s: State, w: WorkerId, id: RequestId, s': State) {
    Room(s, w)
    && exists p, i: nat :: BestPick(s, w, p, i) && s.queues[p][i].id == id && s' == Pulled(s, w, p, i)
  }

  ghost predicate Idle(s: State, w: WorkerId) {
    Room(s, w) ==> NothingServed(s, w)
  }

  ghost predicate Dispatches(s: State, w: WorkerId, got: Option<RequestId>, s': State) {
    if got == None then s' == s && Idle(s, w) else PullsOne(s, w, got.value, s')
  }

  /** w takes the requests `got`, one at a time, until it is full or serves none that waits. */
  ghost predicate Drains(s: State, w: WorkerId, got: seq<RequestId>, s': State)
    decreases |got|
  {
    if got == [] then s' == s && Idle(s, w)
    else exists mid :: PullsOne(s, w, got[0], mid) && Drains(mid, w, got[1..], s')
  }

  // ---- submitting ----

  function RequestOf(s: State, x: Submission): Request {
    Request(s.nextRequest, x.want.provider, x.want.model, x.now, x.want.path, x.streaming, x.want.routing, 0)
  }

  /** A selection moves one cursor, when it finds somebody. */
  function MovedCursor(s: State, c: Option<Choice>): State {
    if c.Some? then s.(cursors := s.cursors[c.value.key := c.value.position]) else s
  }

  predicate SomeoneSupports(s: State, model: string) {
    exists w :: w in s.workers && !s.workers[w].Draining() && s.workers[w].SupportsModel(model)
  }

  /** Placing a request, before any HTTP sender is attached. */
  ghost predicate Places(s: State, x: Submission, out: Outcome, s': State) {
    var r := RequestOf(s, x);
    exists c :: Selects(s, x.want, c) && PlacesAs(s, r, c, out, s')
  }

  predicate PlacesAs(s: State, r: Request, c: Option<Choice>, out: Outcome, s': State) {
    match c
    case Some(choice) =>
      choice.worker in s.workers && out == Dispatched(r.id, choice.worker)
      && s' == Admitted(s, r, choice.worker, choice.key, choice.position)
    case None =>
      if |s.Queue(r.provider)| < s.PolicyOf(r.provider).maxQueueLen
      then out == Waiting(r.id, |s.Queue(r.provider)| + 1) && s' == Enqueued(s, r)
      else out == Rejected(r.id, if SomeoneSupports(s, r.model) then QueueFull else NoWorkersAvailable)
           && s' == Refused(s, r.provider)
  }

  ghost predicate Submits(s: State, x: Submission, out: Outcome, s': State) {
    exists mid :: Places(s, x, out, mid)
      && s' == if x.sender.Some? && !out.Rejected? then Opened(mid, s.nextRequest, x.sender.value) else mid
  }

  // ---- finishing and replying ----

  ghost predicate Finishes(s: State, w: WorkerId, id: RequestId, got: Option<RequestId>, s': State) {
    if w !in s.workers || id !in s.workers[w].inFlight then got == None && s' == s
    else
      var t := Finished(s, w, id);
      if t.workers[w].Draining() && t.workers[w].inFlight == []
      then got == None && s' == RemoveWorker(t, w, Some(Completed))
      else Dispatches(t, w, got, s')
  }

  predicate Owns(s: State, w: WorkerId, id: RequestId) {
    id in s.active && s.active[id].InFlight? && s.active[id].worker == w
  }

  function Chunked(s: State, w: WorkerId, id: RequestId, data: Bytes): State {
    if Owns(s, w, id) && id in s.senders && s.senders[id].Streaming? then Send(s, id, Chunk(data)) else s
  }

  ghost predicate Completes(s: State, w: WorkerId, id: RequestId, body: Bytes, ok: bool, s': State) {
    if id !in s.senders then !ok && s' == s
    else exists got :: Finishes(Closed(s, id, body), w, id, got, s') && ok == (got.Some? || id !in s'.active)
  }

  // ---- ending many at once ----

  /** Fails the HTTP replies still waiting among the given requests. */
  function FailReplies(s: State, why: map<RequestId, FailureReason>): State {
    s.(senders := s.senders - why.Keys, replies := FailedLogs(s.senders, s.replies, why))
  }

  function FailedLogs(senders: map<RequestId, Sender>, replies: map<RequestId, seq<ReplyEvent>>,
                      why: map<RequestId, FailureReason>): map<RequestId, seq<ReplyEvent>>
  {
    map id | id in replies.Keys + why.Keys * senders.Keys ::
      if id in why && id in senders
      then (if id in replies then replies[id] else []) + [Failure(why[id])]
      else replies[id]
  }

  function AllFor(ids: set<RequestId>, why: FailureReason): map<RequestId, FailureReason> {
    map id | id in ids :: why
  }

  function RunningOn(s: State, ws: set<WorkerId>): set<RequestId> {
    set id | id in s.active && s.active[id].InFlight? && s.active[id].worker in ws
  }

  /** The workers leave and whatever they were running fails. */
  function Evicted(s: State, ws: set<WorkerId>, why: FailureReason, close: CloseReason): State {
    var ids := RunningOn(s, ws);
    RemoveWorkers(FailReplies(s.(active := s.active - ids), AllFor(ids, why)), ws, Some(close))
  }

  function Overdue(s: State, now: nat): set<WorkerId> {
    set w | w in s.workers && s.workers[w].deadline.Some? && s.workers[w].deadline.value <= now
  }

  predicate Expired(policy: Policy, r: Request, now: nat) {
    policy.timeout.Some? && SaturatingSub(now, r.queuedAt) >= policy.timeout.value
  }

  function Unexpired(policy: Policy, now: nat): Request -> bool {
    (r: Request) => !Expired(policy, r, now)
  }

  function ExpiredIds(s: State, now: nat): set<RequestId> {
    set p, r | p in s.queues && r in s.queues[p] && Expired(s.PolicyOf(p), r, now) :: r.id
  }

  /** Every timed queue keeps exactly its unexpired requests, in order. */
  function KeptQueues(queues: map<string, seq<Request>>, policies: map<string, Policy>, now: nat)
    : map<string, seq<Request>>
  {
    map p | p in queues :: Filter(queues[p], Unexpired(PolicyIn(policies, p), now))
  }

  function QueuesExpired(s: State, now: nat): State {
    var ids := ExpiredIds(s, now);
    FailReplies(s.(active := s.active - ids, queues := KeptQueues(s.queues, s.policies, now)),
                AllFor(ids, QueueTimedOut))
  }

  function IdsOf(q: seq<Request>): set<RequestId> { set r | r in q :: r.id }

  function WorkersOf(s: State, p: string): set<WorkerId> {
    set w | w in s.workers && s.workers[w].provider == p
  }

  function QueueCleared(s: State, p: string): State {
    var ids := IdsOf(s.Queue(p));
    FailReplies(s.(active := s.active - ids, queues := s.queues - {p}), AllFor(ids, ProviderDeleted))
  }

  function ProviderDeletedFrom(s: State, p: string): State {
    Evicted(QueueCleared(s, p), WorkersOf(s, p), ProviderDeleted, Completed)
  }

  // ---- losing a worker ----

  /** A running request that its worker's loss sends back to a queue. */
  predicate Requeueable(active: map<RequestId, Active>, id: RequestId) {
    id in active && active[id].InFlight? && active[id].cancellation == None
    && active[id].request.requeues < MAX_REQUEUE_COUNT
  }

  function Kept(active: map<RequestId, Active>): RequestId -> bool { (id: RequestId) => Requeueable(active, id) }

  /** The records to put back, in the order of `ids`. */
  function RequeuedRecords(active: map<RequestId, Active>, ids: seq<RequestId>): (q: seq<Request>)
    ensures |q| == |Filter(ids, Kept(active))|
  {
    if ids == [] then []
    else
      var init, id := RequeuedRecords(active, ids[..|ids| - 1]), ids[|ids| - 1];
      if Requeueable(active, id) then init + [Bumped(active[id].request)] else init
  }

  /** Of the ids, those that fail when their worker is lost. */
  function LostReasons(active: map<RequestId, Active>, ids: seq<RequestId>): map<RequestId, FailureReason> {
    map id | id in ids && id in active && active[id].InFlight? && !Requeueable(active, id) ::
      if active[id].cancellation.Some? then RequestAlreadyCanceled else MaxRequeuesExceeded
  }

  function LostIndex(active: map<RequestId, Active>, ids: seq<RequestId>): map<RequestId, Active> {
    map id | id in active && (id in ids ==> Requeueable(active, id)) ::
      if id in ids then Queued(Bumped(active[id].request)) else active[id]
  }

  function PutBack(queues: map<string, seq<Request>>, p: string, back: seq<Request>): map<string, seq<Request>> {
    if p in queues then queues[p := back + queues[p]]
    else if back != [] then queues[p := back]
    else queues
  }

  /** Cancelled and worn-out requests fail; the rest go to the front of the worker's
      provider queue, in the order the worker was running them. */
  function Released(s: State, w: WorkerId): State
    requires w in s.workers
  {
    var l := s.workers[w].inFlight;
    FailReplies(
      s.(active := LostIndex(s.active, l),
         queues := PutBack(s.queues, s.workers[w].provider, RequeuedRecords(s.active, l))),
      LostReasons(s.active, l))
  }

  function Disconnected(s: State, w: WorkerId): State {
    if w in s.workers then RemoveWorkers(Released(s, w), {w}, None) else s
  }

  // ---- cancelling ----

  /** Where a request waits in its own provider's queue. */
  predicate AtHome(s: State, r: Request, i: nat) {
    r.provider in s.queues && i < |s.queues[r.provider]| && s.queues[r.provider][i].id == r.id
    && forall j :: 0 <= j < i ==> s.queues[r.provider][j].id != r.id
  }

  datatype CancelOutcome = Removed(id: RequestId) | Signalled(signal: CancelSignal)

  ghost predicate Cancels(s: State, id: RequestId, reason: CancelReason, out: Option<CancelOutcome>, s': State) {
    if id !in s.active then out == None && s' == s
    else if s.active[id].Queued? then
      if exists i: nat :: AtHome(s, s.active[id].request, i)
      then out == Some(Removed(id))
           && exists i: nat ::
                AtHome(s, s.active[id].request, i) && s' == Dropped(s, s.active[id].request.provider, i, None)
      else out == None && s' == s
    else
      out == Some(Signalled(CancelSignal(s.active[id].worker, id, s.active[id].cancellation.GetOr(reason))))
      && s' == if s.active[id].cancellation == None then Marked(s, id, reason) else s
  }

  // ---- shutting down ----

  function Undrained(s: State): WorkerId -> bool { (w: WorkerId) => w in s.workers && !s.workers[w].Draining() }

  function NotDraining(s: State): seq<WorkerId> {
    Filter(s.order, Undrained(s))
  }

  function ShutdownSignals(ws: seq<WorkerId>, reason: Option<string>, timeout: nat): seq<ShutdownSignal> {
    seq(|ws|, i requires 0 <= i < |ws| => ShutdownSignal(ws[i], reason, timeout))
  }

  function ShutdownBegun(s: State, reason: Option<string>, timeout: nat, now: nat): State {
    s.(workers := map w | w in s.workers ::
         if s.workers[w].Draining() then s.workers[w] else s.workers[w].(deadline := Some(now + timeout)),
       shutdownSignals := s.shutdownSignals + ShutdownSignals(NotDraining(s), reason, timeout))
  }

  predicate Drained(s: State, w: WorkerId) {
    w in s.workers && s.workers[w].Draining() && s.workers[w].inFlight == []
  }

  // ---- registering ----

  function NewWorker(provider: string, models: seq<string>, prefixes: seq<string>, max: u32,
                     load: Option<u32>): Worker {
    Worker(provider, models, prefixes, if max < 1 then 1 else max, load.GetOr(0), [], None)
  }

  // ---- the operations ----

  datatype Op =
    | Configure(provider: string, policy: Policy)
    | Register(provider: string, models: seq<string>, prefixes: seq<string>, max: u32, load: Option<u32>)
    | UpdateModels(w: WorkerId, models: seq<string>, current: u32)
    | Pong(w: WorkerId, current: u32)
    | Submit(x: Submission)
    | FinishRequest(w: WorkerId, id: RequestId)
    | StreamChunk(w: WorkerId, id: RequestId, data: Bytes)
    | CompleteResponse(w: WorkerId, id: RequestId, body: Bytes)
    | TakeRequests(w: WorkerId)
    | TakeCancelSignals(w: WorkerId)
    | BeginShutdown(notice: Option<string>, timeout: nat, now: nat)
    | TakeShutdownSignals(w: WorkerId)
    | ExpireShutdown(now: nat)
    | ExpireQueues(now: nat)
    | DeleteProvider(provider: string)
    | Disconnect(w: WorkerId)
    | CancelRequest(id: RequestId, reason: CancelReason)
    | DisconnectIfDrained(w: WorkerId)
    | TakeCloseReason(w: WorkerId)

  ghost predicate Retunes(s: State, w: WorkerId, models: seq<string>, load: nat, got: seq<RequestId>, s': State) {
    if w in s.workers then Drains(Tuned(s, w, models, load), w, got, s') else got == [] && s' == s
  }

  ghost predicate Pongs(s: State, w: WorkerId, load: nat, got: seq<RequestId>, s': State) {
    Retunes(s, w, if w in s.workers then s.workers[w].models else [], load, got, s')
  }

  ghost predicate Step(s: State, op: Op, s': State) {
    match op
    case Configure(p, policy) => s' == s.(policies := s.policies[p := policy])
    case Register(p, models, prefixes, max, load) => s' == Added(s, NewWorker(p, models, prefixes, max, load))
    case UpdateModels(w, models, current) => exists got :: Retunes(s, w, models, current, got, s')
    case Pong(w, current) => exists got :: Pongs(s, w, current, got, s')
    case Submit(x) => exists out :: Submits(s, x, out, s')
    case FinishRequest(w, id) => exists got :: Finishes(s, w, id, got, s')
    case StreamChunk(w, id, data) => s' == Chunked(s, w, id, data)
    case CompleteResponse(w, id, body) => Completes(s, w, id, body, true, s') || Completes(s, w, id, body, false, s')
    case TakeRequests(w) => s' == s.(outbox := s.outbox - {w})
    case TakeCancelSignals(w) => s' == CancelsTaken(s, w)
    case BeginShutdown(notice, timeout, now) => s' == ShutdownBegun(s, notice, timeout, now)
    case TakeShutdownSignals(w) => s' == ShutdownsTaken(s, w)
    case ExpireShutdown(now) => s' == Evicted(s, Overdue(s, now), GracefulShutdownTimedOut, TimedOut)
    case ExpireQueues(now) => s' == QueuesExpired(s, now)
    case DeleteProvider(p) => s' == ProviderDeletedFrom(s, p)
    case Disconnect(w) => s' == Disconnected(s, w)
    case CancelRequest(id, reason) => exists out :: Cancels(s, id, reason, out, s')
    case DisconnectIfDrained(w) => s' == if Drained(s, w) then RemoveWorker(s, w, Some(Completed)) else s
    case TakeCloseReason(w) => s' == s.(closeReasons := s.closeReasons - {w})
  }
}
