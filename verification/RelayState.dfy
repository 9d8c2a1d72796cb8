/** What the relay's core keeps: requests, workers, queues, the request index,
    outbound messages, cancel signals, close reasons and HTTP reply senders. */
module RelayState {
  import opened Seqs

  type RequestId = nat
  type WorkerId = nat
  type Bytes = seq<bv8>

  const U32_MAX: nat := 0xFFFF_FFFF
  const USIZE_MAX: nat := 0xFFFF_FFFF_FFFF_FFFF
  const MAX_REQUEUE_COUNT: nat := 3
  const WILDCARD: string := "*"
  const ANY_PROVIDER: string := "_any"

  type u32 = n: nat | n <= 0xFFFF_FFFF

  function SaturatingAdd(x: nat, y: nat): nat {
    if x + y <= USIZE_MAX then x + y else USIZE_MAX
  }

  function SaturatingSub(x: nat, y: nat): nat {
    if y <= x then x - y else 0
  }

  datatype Policy = Policy(maxQueueLen: nat, timeout: Option<nat>)

  const DEFAULT_POLICY := Policy(USIZE_MAX, None)

  function PolicyIn(policies: map<string, Policy>, p: string): Policy {
    if p in policies then policies[p] else DEFAULT_POLICY
  }

  datatype Routing = Routing(only: Option<seq<string>>, ignored: Option<seq<string>>,
                             order: Option<seq<string>>, allowFallbacks: Option<bool>)

  /** The part of a request that is sent to a worker. */
  datatype Message = Message(id: RequestId, model: string, path: string, streaming: bool)

  datatype Request = Request(id: RequestId, provider: string, model: string, queuedAt: nat,
                             path: string, streaming: bool, routing: Option<Routing>, requeues: nat)
  {
    function ToMessage(): Message { Message(id, model, path, streaming) }
  }

  datatype CancelReason = ClientDisconnected | RequestTimedOut

  datatype FailureReason =
    | RequestAlreadyCanceled | MaxRequeuesExceeded | QueueTimedOut | QueueFull
    | NoWorkersAvailable | ProviderDeleted | GracefulShutdownTimedOut

  datatype CloseReason = Completed | TimedOut

  datatype Active =
    | Queued(request: Request)
    | InFlight(request: Request, worker: WorkerId, cancellation: Option<CancelReason>)

  datatype Worker = Worker(provider: string, models: seq<string>, prefixes: seq<string>,
                           maxConcurrent: nat, reportedLoad: nat, inFlight: seq<RequestId>,
                           deadline: Option<nat>)
  {
    /** The source's draining flag is set exactly when the deadline is. */
    predicate Draining() { deadline.Some? }

    function SelectionLoad(): nat {
      if reportedLoad < |inFlight| then |inFlight| else reportedLoad
    }

    predicate HasCapacity() { !Draining() && SelectionLoad() < maxConcurrent }

    predicate SupportsModel(model: string) {
      exists m :: m in models && (m == WILDCARD || m == model)
    }

    predicate SupportsEndpoint(path: string) {
      prefixes == [] || exists prefix :: prefix in prefixes && prefix <= path
    }

    predicate Serves(r: Request) { SupportsModel(r.model) && SupportsEndpoint(r.path) }

    function Took(id: RequestId): Worker {
      this.(inFlight := inFlight + [id], reportedLoad := SaturatingAdd(reportedLoad, 1))
    }

    function Finished(id: RequestId): Worker {
      this.(inFlight := Without(inFlight, id), reportedLoad := SaturatingSub(reportedLoad, 1))
    }
  }

  datatype Sender = Unary | Streaming

  datatype ReplyEvent = Chunk(data: Bytes) | Complete(body: Bytes) | Failure(reason: FailureReason)

  datatype CancelSignal = CancelSignal(worker: WorkerId, id: RequestId, reason: CancelReason)

  datatype ShutdownSignal = ShutdownSignal(worker: WorkerId, reason: Option<string>, timeout: nat)

  datatype SelectionKey = SelectionKey(provider: string, model: string)

  datatype Assignment = Assignment(id: RequestId, worker: WorkerId)

  /** What has happened so far; nothing in the core reads it. */
  datatype History = History(assignments: seq<Assignment>, raised: seq<CancelSignal>,
                             delivered: seq<CancelSignal>)

  /** `replies` is what each HTTP reply channel has received, oldest first. */
  datatype State = State(
    nextRequest: nat,
    nextWorker: nat,
    order: seq<WorkerId>,
    workers: map<WorkerId, Worker>,
    queues: map<string, seq<Request>>,
    policies: map<string, Policy>,
    cursors: map<SelectionKey, nat>,
    active: map<RequestId, Active>,
    outbox: map<WorkerId, seq<Message>>,
    senders: map<RequestId, Sender>,
    replies: map<RequestId, seq<ReplyEvent>>,
    cancelSignals: seq<CancelSignal>,
    shutdownSignals: seq<ShutdownSignal>,
    closeReasons: map<WorkerId, CloseReason>,
    history: History)
  {
    function Queue(p: string): seq<Request> { if p in queues then queues[p] else [] }
    function PolicyOf(p: string): Policy { PolicyIn(policies, p) }
    function Outbox(w: WorkerId): seq<Message> { if w in outbox then outbox[w] else [] }
    function Replies(id: RequestId): seq<ReplyEvent> { if id in replies then replies[id] else [] }

    /** A cancel signal is worth keeping only while its request runs, cancelled, on its worker. */
    predicate StillPending(signal: CancelSignal) {
      signal.id in active && active[signal.id].InFlight?
      && active[signal.id].worker == signal.worker && active[signal.id].cancellation.Some?
    }

  }

  const INITIAL := State(1, 1, [], map[], map[], map[], map[], map[], map[], map[], map[], [], [],
                         map[], History([], [], []))
}
