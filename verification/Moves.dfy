/** The elementary moves of the core's bookkeeping. Every public operation is a
    run of these, so what each move keeps, every operation keeps. */
module Moves {
  import opened Seqs
  import opened RelayState

  datatype Move =
    | SetPolicy(provider: string, policy: Policy)
    | AddWorker(worker: Worker)
    | Tune(w: WorkerId, models: seq<string>, load: nat)
    | Admit(r: Request, w: WorkerId, key: SelectionKey, position: nat)
    | Enqueue(r: Request)
    | Refuse(provider: string)
    | Pull(w: WorkerId, provider: string, index: nat)
    | Finish(w: WorkerId, id: RequestId)
    | FailRunning(w: WorkerId, id: RequestId, why: FailureReason)
    | Requeue(w: WorkerId, id: RequestId)
    | Leave(w: WorkerId, close: Option<CloseReason>)
    | Mark(id: RequestId, reason: CancelReason)
    | Drop(provider: string, index: nat, failure: Option<FailureReason>)
    | DropQueue(provider: string)
    | OpenReply(id: RequestId, sender: Sender)
    | SendChunk(w: WorkerId, id: RequestId, data: Bytes)
    | CloseReply(id: RequestId, body: Bytes)
    | StartDrain(signal: ShutdownSignal, deadline: nat)
    | TakeOutbox(w: WorkerId)
    | TakeCancels(w: WorkerId)
    | TakeShutdowns(w: WorkerId)
    | TakeClose(w: WorkerId)

  /** An entry of a queue that worker w may take: the first one it can serve. */
  predicate FirstServed(s: State, w: WorkerId, p: string, i: nat)
    requires w in s.workers
  {
    p in s.queues && i < |s.queues[p]| && s.workers[w].Serves(s.queues[p][i])
    && forall j :: 0 <= j < i ==> !s.workers[w].Serves(s.queues[p][j])
  }

  predicate Fresh(s: State, r: Request) {
    r.id == s.nextRequest && r.requeues == 0
  }

  predicate Enabled(s: State, m: Move) {
    match m
    case SetPolicy(_, _) => true
    case AddWorker(worker) =>
      worker.inFlight == [] && worker.deadline == None && 1 <= worker.maxConcurrent <= U32_MAX
    case Tune(w, _, _) => w in s.workers
    case Admit(r, w, _, _) =>
      Fresh(s, r) && w in s.workers && s.workers[w].HasCapacity() && s.workers[w].Serves(r)
    case Enqueue(r) => Fresh(s, r) && |s.Queue(r.provider)| < s.PolicyOf(r.provider).maxQueueLen
    case Refuse(p) => true
    case Pull(w, p, i) => w in s.workers && s.workers[w].HasCapacity() && FirstServed(s, w, p, i)
    case Finish(w, id) => w in s.workers && id in s.workers[w].inFlight
    case FailRunning(w, id, _) => w in s.workers && id in s.workers[w].inFlight
    case Requeue(w, id) =>
      w in s.workers && id in s.workers[w].inFlight && id in s.active && s.active[id].InFlight?
      && s.active[id].cancellation == None && s.active[id].request.requeues < MAX_REQUEUE_COUNT
    case Leave(w, _) => w in s.workers && s.workers[w].inFlight == []
    case Mark(id, _) => id in s.active && s.active[id].InFlight? && s.active[id].cancellation == None
    case Drop(p, i, _) => p in s.queues && i < |s.queues[p]|
    case DropQueue(p) => p in s.queues && s.queues[p] == []
    case OpenReply(id, _) =>
      id in s.active && id < s.nextRequest && id !in s.replies && id !in s.senders
    case SendChunk(w, id, _) =>
      id in s.active && s.active[id].InFlight? && s.active[id].worker == w
      && id in s.senders && s.senders[id].Streaming?
    case CloseReply(id, _) => id in s.senders
    case StartDrain(signal, _) => signal.worker in s.workers && !s.workers[signal.worker].Draining()
    case TakeOutbox(_) => true
    case TakeCancels(_) => true
    case TakeShutdowns(_) => true
    case TakeClose(_) => true
  }

  function Apply(s: State, m: Move): State
    requires Enabled(s, m)
  {
    match m
    case SetPolicy(p, policy) => s.(policies := s.policies[p := policy])
    case AddWorker(worker) => Added(s, worker)
    case Tune(w, models, load) => Tuned(s, w, models, load)
    case Admit(r, w, key, position) => Admitted(s, r, w, key, position)
    case Enqueue(r) => Enqueued(s, r)
    case Refuse(p) => Refused(s, p)
    case Pull(w, p, i) => Pulled(s, w, p, i)
    case Finish(w, id) => Finished(s, w, id)
    case FailRunning(w, id, why) => FailReply(Detach(s, w, id), id, why)
    case Requeue(w, id) => Requeued(s, w, id)
    case Leave(w, close) => RemoveWorker(s, w, close)
    case Mark(id, reason) => Marked(s, id, reason)
    case Drop(p, i, failure) => Dropped(s, p, i, failure)
    case DropQueue(p) => s.(queues := s.queues - {p})
    case OpenReply(id, sender) => Opened(s, id, sender)
    case SendChunk(w, id, data) => Send(s, id, Chunk(data))
    case CloseReply(id, body) => Closed(s, id, body)
    case StartDrain(signal, deadline) => Draining(s, signal, deadline)
    case TakeOutbox(w) => s.(outbox := s.outbox - {w})
    case TakeCancels(w) => CancelsTaken(s, w)
    case TakeShutdowns(w) => ShutdownsTaken(s, w)
    case TakeClose(w) => s.(closeReasons := s.closeReasons - {w})
  }

  function Added(s: State, worker: Worker): State {
    s.(nextWorker := s.nextWorker + 1, order := s.order + [s.nextWorker],
       workers := s.workers[s.nextWorker := worker])
  }

  function Tuned(s: State, w: WorkerId, models: seq<string>, load: nat): State
    requires w in s.workers
  {
    s.(workers := s.workers[w := s.workers[w].(models := models, reportedLoad := load)])
  }

  function Admitted(s: State, r: Request, w: WorkerId, key: SelectionKey, position: nat): State
    requires w in s.workers
  {
    Assign(s.(nextRequest := s.nextRequest + 1, cursors := s.cursors[key := position]), w, r)
  }

  function Enqueued(s: State, r: Request): State {
    s.(nextRequest := s.nextRequest + 1, queues := s.queues[r.provider := s.Queue(r.provider) + [r]],
       active := s.active[r.id := Queued(r)])
  }

  /** A rejected submission still creates its provider's queue. */
  function Refused(s: State, p: string): State {
    s.(nextRequest := s.nextRequest + 1, queues := s.queues[p := s.Queue(p)])
  }

  function Unqueued(s: State, p: string, i: nat): State
    requires p in s.queues && i < |s.queues[p]|
  {
    s.(queues := s.queues[p := RemoveAt(s.queues[p], i)])
  }

  function Pulled(s: State, w: WorkerId, p: string, i: nat): State
    requires w in s.workers && p in s.queues && i < |s.queues[p]|
  {
    Assign(Unqueued(s, p, i), w, s.queues[p][i])
  }

  function Finished(s: State, w: WorkerId, id: RequestId): State
    requires w in s.workers
  {
    s.(workers := s.workers[w := s.workers[w].Finished(id)], active := s.active - {id})
  }

  function Requeued(s: State, w: WorkerId, id: RequestId): State
    requires w in s.workers && id in s.active
  {
    var r := Bumped(s.active[id].request);
    var p := s.workers[w].provider;
    Detach(s, w, id).(queues := s.queues[p := [r] + s.Queue(p)], active := s.active[id := Queued(r)])
  }

  function Marked(s: State, id: RequestId, reason: CancelReason): State
    requires id in s.active && s.active[id].InFlight?
  {
    var signal := CancelSignal(s.active[id].worker, id, reason);
    s.(active := s.active[id := s.active[id].(cancellation := Some(reason))],
       cancelSignals := s.cancelSignals + [signal],
       history := s.history.(raised := s.history.raised + [signal]))
  }

  function Dropped(s: State, p: string, i: nat, failure: Option<FailureReason>): State
    requires p in s.queues && i < |s.queues[p]|
  {
    var id := s.queues[p][i].id;
    var s' := Unqueued(s, p, i).(active := s.active - {id});
    if failure.Some? then FailReply(s', id, failure.value) else s'.(senders := s.senders - {id})
  }

  function Opened(s: State, id: RequestId, sender: Sender): State {
    s.(senders := s.senders[id := sender], replies := s.replies[id := []])
  }

  function Closed(s: State, id: RequestId, body: Bytes): State {
    Send(s, id, Complete(body)).(senders := s.senders - {id})
  }

  function Draining(s: State, signal: ShutdownSignal, deadline: nat): State
    requires signal.worker in s.workers
  {
    var w := signal.worker;
    s.(workers := s.workers[w := s.workers[w].(deadline := Some(deadline))],
       shutdownSignals := s.shutdownSignals + [signal])
  }

  function CancelsTaken(s: State, w: WorkerId): State {
    s.(cancelSignals := Filter(s.cancelSignals, PendingElsewhere(s, w)),
       history := s.history.(delivered := s.history.delivered + DueCancels(s, w)))
  }

  function ShutdownsTaken(s: State, w: WorkerId): State {
    s.(shutdownSignals :=
         Filter(s.shutdownSignals, RegisteredElsewhere(s.workers.Keys, w)))
  }

  function RegisteredElsewhere(ws: set<WorkerId>, w: WorkerId): ShutdownSignal -> bool {
    (x: ShutdownSignal) => x.worker in ws && x.worker != w
  }

  function RegisteredHere(ws: set<WorkerId>, w: WorkerId): ShutdownSignal -> bool {
    (x: ShutdownSignal) => x.worker in ws && x.worker == w
  }

  /** The shutdown notices to deliver to w. */
  function DueShutdowns(s: State, w: WorkerId): seq<ShutdownSignal> {
    Filter(s.shutdownSignals, RegisteredHere(s.workers.Keys, w))
  }

  /** The signals for w that are still worth delivering. */
  function DueCancels(s: State, w: WorkerId): seq<CancelSignal> {
    Filter(s.cancelSignals, PendingOn(s, w))
  }

  function PendingOn(s: State, w: WorkerId): CancelSignal -> bool {
    (x: CancelSignal) => s.StillPending(x) && x.worker == w
  }

  function PendingElsewhere(s: State, w: WorkerId): CancelSignal -> bool {
    (x: CancelSignal) => s.StillPending(x) && x.worker != w
  }

  function Bumped(r: Request): Request { r.(requeues := r.requeues + 1) }

  function Assign(s: State, w: WorkerId, r: Request): State
    requires w in s.workers
  {
    s.(workers := s.workers[w := s.workers[w].Took(r.id)],
       outbox := s.outbox[w := s.Outbox(w) + [r.ToMessage()]],
       active := s.active[r.id := InFlight(r, w, None)],
       history := s.history.(assignments := s.history.assignments + [Assignment(r.id, w)]))
  }

  function Detach(s: State, w: WorkerId, id: RequestId): State
    requires w in s.workers
  {
    s.(workers := s.workers[w := s.workers[w].(inFlight := Without(s.workers[w].inFlight, id))],
       active := s.active - {id})
  }

  function Send(s: State, id: RequestId, event: ReplyEvent): State {
    s.(replies := s.replies[id := s.Replies(id) + [event]])
  }

  /** Fails the HTTP reply of a request, if one is still waiting. */
  function FailReply(s: State, id: RequestId, why: FailureReason): State {
    if id in s.senders then Send(s, id, Failure(why)).(senders := s.senders - {id}) else s
  }

  function Outside(ws: set<WorkerId>): WorkerId -> bool { (w: WorkerId) => w !in ws }

  function CancelOutside(ws: set<WorkerId>): CancelSignal -> bool { (x: CancelSignal) => x.worker !in ws }

  function ShutdownOutside(ws: set<WorkerId>): ShutdownSignal -> bool { (x: ShutdownSignal) => x.worker !in ws }

  function CloseAll(reasons: map<WorkerId, CloseReason>, ws: set<WorkerId>, close: CloseReason)
    : map<WorkerId, CloseReason>
  {
    map w | w in reasons.Keys + ws :: if w in ws then close else reasons[w]
  }

  function RemoveWorkers(s: State, ws: set<WorkerId>, close: Option<CloseReason>): State {
    s.(workers := s.workers - ws,
       order := Filter(s.order, Outside(ws)),
       outbox := s.outbox - ws,
       cancelSignals := Filter(s.cancelSignals, CancelOutside(ws)),
       shutdownSignals := Filter(s.shutdownSignals, ShutdownOutside(ws)),
       closeReasons := if close.Some? then CloseAll(s.closeReasons, ws, close.value) else s.closeReasons)
  }

  function RemoveWorker(s: State, w: WorkerId, close: Option<CloseReason>): State {
    RemoveWorkers(s, {w}, close)
  }

  lemma FailReplyTouches(s: State, id: RequestId, why: FailureReason)
    ensures var t := FailReply(s, id, why); t == s.(senders := t.senders, replies := t.replies)
  {}

  lemma DropTouches(s: State, p: string, i: nat, failure: Option<FailureReason>)
    requires p in s.queues && i < |s.queues[p]|
    ensures var t := Dropped(s, p, i, failure);
      t == Unqueued(s, p, i).(active := s.active - {s.queues[p][i].id}, senders := t.senders, replies := t.replies)
  {
    var u := Unqueued(s, p, i).(active := s.active - {s.queues[p][i].id});
    if failure.Some? {
      FailReplyTouches(u, s.queues[p][i].id, failure.value);
    }
  }

  /** What failing a running request or dropping a waiting one can touch. */
  lemma EndingTouches(s: State, m: Move)
    requires Enabled(s, m) && (m.FailRunning? || m.Drop?)
    ensures var t := Apply(s, m);
      t == s.(workers := t.workers, queues := t.queues, active := t.active, senders := t.senders, replies := t.replies)
      && (m.FailRunning? ==> t.workers == Detach(s, m.w, m.id).workers && t.active == s.active - {m.id}
                             && t.queues == s.queues)
      && (m.Drop? ==> t.workers == s.workers && t.active == s.active - {s.queues[m.provider][m.index].id}
                      && t.queues == Unqueued(s, m.provider, m.index).queues)
  {
    if m.Drop? {
      DropTouches(s, m.provider, m.index, m.failure);
    } else {
      FailReplyTouches(Detach(s, m.w, m.id), m.id, m.why);
    }
  }

  /** Makes the moves in turn, if each is enabled where it is made. */
  function Run(s: State, ms: seq<Move>): Option<State>
    decreases |ms|
  {
    if ms == [] then Some(s)
    else if Enabled(s, ms[0]) then Run(Apply(s, ms[0]), ms[1..])
    else None
  }

  ghost predicate Runs(s: State, ms: seq<Move>, s': State) {
    Run(s, ms) == Some(s')
  }

  lemma {:induction false} RunsConcat(s: State, a: seq<Move>, mid: State, b: seq<Move>, s': State)
    requires Runs(s, a, mid) && Runs(mid, b, s')
    ensures Runs(s, a + b, s')
    decreases |a|
  {
    if a == [] {
      assert a + b == b;
    } else {
      RunsConcat(Apply(s, a[0]), a[1..], mid, b, s');
      assert (a + b)[1..] == a[1..] + b;
    }
  }
}
