/** The repository's own simple model of dispatching, as a specification: one provider's
    queue per worker, exact model names, load counted by the requests in flight. */
module DispatchHarness {
  import opened Seqs
  import opened RelayState
  import opened Selection
  import opened Spec

  datatype Member = Member(provider: string, models: seq<string>, maxConcurrent: nat, inFlight: seq<RequestId>,
                           deadline: Option<nat>)
  {
    predicate Free() { deadline == None && |inFlight| < maxConcurrent }
  }

  datatype Record = Record(id: RequestId, provider: string, model: string, queuedAt: nat, requeues: nat)

  datatype Entry = Pending(record: Record) | Running(record: Record, worker: WorkerId)

  datatype Harness = Harness(
    nextRequest: nat,
    nextWorker: nat,
    order: seq<WorkerId>,
    members: map<WorkerId, Member>,
    queues: map<string, seq<Record>>,
    policies: map<string, Policy>,
    cursors: map<SelectionKey, nat>,
    entries: map<RequestId, Entry>,
    canceled: set<RequestId>,
    signals: seq<CancelSignal>)
  {
    function Queue(p: string): seq<Record> { if p in queues then queues[p] else [] }
    function PolicyOf(p: string): Policy { PolicyIn(policies, p) }
  }

  // ---- dispatching ----

  function Assigned(h: Harness, w: WorkerId, r: Record): Harness
    requires w in h.members
  {
    h.(members := h.members[w := h.members[w].(inFlight := h.members[w].inFlight + [r.id])],
       entries := h.entries[r.id := Running(r, w)])
  }

  /** The first entry of its own provider's queue whose model the member advertises. */
  predicate FirstCompatible(h: Harness, w: WorkerId, i: nat)
    requires w in h.members
  {
    var q := h.Queue(h.members[w].provider);
    i < |q| && q[i].model in h.members[w].models && forall j :: 0 <= j < i ==> q[j].model !in h.members[w].models
  }

  function Taken(h: Harness, w: WorkerId, i: nat): Harness
    requires w in h.members && i < |h.Queue(h.members[w].provider)|
  {
    var p := h.members[w].provider;
    Assigned(h.(queues := h.queues[p := RemoveAt(h.Queue(p), i)]), w, h.Queue(p)[i])
  }

  ghost predicate Dispatches(h: Harness, w: WorkerId, got: Option<RequestId>, h': Harness) {
    if w in h.members && h.members[w].Free() && exists i: nat :: FirstCompatible(h, w, i) then
      exists i: nat ::
        FirstCompatible(h, w, i) && got == Some(h.Queue(h.members[w].provider)[i].id) && h' == Taken(h, w, i)
    else got == None && h' == h
  }

  /** At most n dispatches, stopping at the first that finds nothing. */
  ghost predicate DispatchesUpTo(h: Harness, w: WorkerId, n: nat, got: seq<RequestId>, h': Harness)
    decreases |got|
  {
    if got == [] then h' == h && (n == 0 || Dispatches(h, w, None, h))
    else n > 0 && exists mid :: Dispatches(h, w, Some(got[0]), mid) && DispatchesUpTo(mid, w, n - 1, got[1..], h')
  }

  ghost predicate UpdatesModels(h: Harness, w: WorkerId, models: seq<string>, got: seq<RequestId>, h': Harness) {
    if w in h.members then
      DispatchesUpTo(h.(members := h.members[w := h.members[w].(models := models)]), w, h.members[w].maxConcurrent,
                     got, h')
    else got == [] && h' == h
  }

  /** An update to the models it already has. */
  ghost predicate Repeats(h: Harness, w: WorkerId, got: seq<RequestId>, h': Harness) {
    UpdatesModels(h, w, if w in h.members then h.members[w].models else [], got, h')
  }

  // ---- submitting ----

  predicate Eligible(h: Harness, provider: string, model: string, pos: int) {
    0 <= pos < |h.order| && h.order[pos] in h.members && h.members[h.order[pos]].provider == provider
    && model in h.members[h.order[pos]].models && h.members[h.order[pos]].Free()
  }

  ghost predicate AnyEligible(h: Harness, provider: string, model: string) {
    exists pos :: Eligible(h, provider, model, pos)
  }

  function LoadAt(h: Harness, pos: int): nat
    requires 0 <= pos < |h.order| && h.order[pos] in h.members
  {
    |h.members[h.order[pos]].inFlight|
  }

  ghost predicate Least(h: Harness, provider: string, model: string, pos: int) {
    Eligible(h, provider, model, pos)
    && forall q :: Eligible(h, provider, model, q) ==> LoadAt(h, pos) <= LoadAt(h, q)
  }

  function Cursor(h: Harness, key: SelectionKey): Option<nat> {
    if key in h.cursors then Some(h.cursors[key]) else None
  }

  ghost predicate Picks(h: Harness, provider: string, model: string, pos: nat) {
    Least(h, provider, model, pos)
    && forall q :: Least(h, provider, model, q) ==>
         Turn(Cursor(h, SelectionKey(provider, model)), |h.order|, pos)
         <= Turn(Cursor(h, SelectionKey(provider, model)), |h.order|, q)
  }

  datatype Placement =
    | Dispatched(id: RequestId, worker: WorkerId)
    | Waiting(id: RequestId, queueLen: nat)
    | Rejected(id: RequestId)

  ghost predicate Submits(h: Harness, provider: string, model: string, now: nat, out: Placement, h': Harness) {
    var r := Record(h.nextRequest, provider, model, now, 0);
    var u := h.(nextRequest := h.nextRequest + 1);
    if AnyEligible(h, provider, model) then
      exists pos: nat :: Picks(h, provider, model, pos) && out == Placement.Dispatched(r.id, h.order[pos])
        && h' == Assigned(u.(cursors := h.cursors[SelectionKey(provider, model) := pos]), h.order[pos], r)
    else if |h.Queue(provider)| < h.PolicyOf(provider).maxQueueLen then
      out == Placement.Waiting(r.id, |h.Queue(provider)| + 1)
      && h' == u.(queues := h.queues[provider := h.Queue(provider) + [r]], entries := h.entries[r.id := Pending(r)])
    else
      out == Placement.Rejected(r.id) && h' == u.(queues := h.queues[provider := h.Queue(provider)])
  }

  // ---- finishing ----

  function Finished(h: Harness, w: WorkerId, id: RequestId): Harness
    requires w in h.members
  {
    h.(members := h.members[w := h.members[w].(inFlight := Without(h.members[w].inFlight, id))],
       entries := h.entries - {id})
  }

  function Removed(h: Harness, ws: set<WorkerId>): Harness {
    h.(members := h.members - ws, order := Filter(h.order, Moves.Outside(ws)))
  }

  ghost predicate Finishes(h: Harness, w: WorkerId, id: RequestId, got: Option<RequestId>, h': Harness) {
    if w !in h.members || id !in h.members[w].inFlight then got == None && h' == h
    else
      var u := Finished(h, w, id);
      if u.members[w].deadline.Some? && u.members[w].inFlight == [] then got == None && h' == Removed(u, {w})
      else Dispatches(u, w, got, h')
  }

  // ---- ending many at once ----

  function InFlightOf(h: Harness, ws: set<WorkerId>): set<RequestId> {
    set w, id | w in h.members && w in ws && id in h.members[w].inFlight :: id
  }

  function Evicted(h: Harness, ws: set<WorkerId>): Harness {
    Removed(h.(entries := h.entries - InFlightOf(h, ws)), ws)
  }

  function Overdue(h: Harness, now: nat): set<WorkerId> {
    set w | w in h.members && h.members[w].deadline.Some? && h.members[w].deadline.value <= now
  }

  predicate Expired(policy: Policy, r: Record, now: nat) {
    policy.timeout.Some? && SaturatingSub(now, r.queuedAt) >= policy.timeout.value
  }

  function Unexpired(policy: Policy, now: nat): Record -> bool { (r: Record) => !Expired(policy, r, now) }

  function ExpiredIds(h: Harness, now: nat): set<RequestId> {
    set p, r | p in h.queues && r in h.queues[p] && Expired(h.PolicyOf(p), r, now) :: r.id
  }

  function KeptQueues(h: Harness, now: nat): map<string, seq<Record>> {
    map p | p in h.queues :: Filter(h.queues[p], Unexpired(h.PolicyOf(p), now))
  }

  function QueuesExpired(h: Harness, now: nat): Harness {
    h.(queues := KeptQueues(h, now), entries := h.entries - ExpiredIds(h, now))
  }

  function IdsOf(q: seq<Record>): set<RequestId> { set r | r in q :: r.id }

  function MembersOf(h: Harness, p: string): set<WorkerId> {
    set w | w in h.members && h.members[w].provider == p
  }

  function QueueGone(h: Harness, p: string): Harness {
    h.(queues := h.queues - {p}, entries := h.entries - IdsOf(h.Queue(p)))
  }

  function ProviderDeleted(h: Harness, p: string): Harness {
    Evicted(QueueGone(h, p), MembersOf(h, p))
  }

  /** Everybody drains, with a new deadline even for those that were draining. */
  function ShutDown(h: Harness, timeout: nat, now: nat): Harness {
    h.(members := map w | w in h.members :: h.members[w].(deadline := Some(now + timeout)))
  }

  // ---- losing a member ----

  predicate Requeueable(h: Harness, id: RequestId) {
    id in h.entries && h.entries[id].Running? && id !in h.canceled && h.entries[id].record.requeues < MAX_REQUEUE_COUNT
  }

  function Bumped(r: Record): Record { r.(requeues := r.requeues + 1) }

  function RequeuedRecords(h: Harness, ids: seq<RequestId>): seq<Record> {
    if ids == [] then []
    else
      var init, id := RequeuedRecords(h, ids[..|ids| - 1]), ids[|ids| - 1];
      if Requeueable(h, id) then init + [Bumped(h.entries[id].record)] else init
  }

  function PutBack(queues: map<string, seq<Record>>, p: string, back: seq<Record>): map<string, seq<Record>> {
    if p in queues then queues[p := back + queues[p]]
    else if back != [] then queues[p := back]
    else queues
  }

  function LostEntries(h: Harness, ids: seq<RequestId>): map<RequestId, Entry> {
    map id | id in h.entries && (id in ids ==> Requeueable(h, id)) ::
      if id in ids then Pending(Bumped(h.entries[id].record)) else h.entries[id]
  }

  function Disconnected(h: Harness, w: WorkerId): Harness {
    if w !in h.members then h
    else
      var l := h.members[w].inFlight;
      Removed(h.(entries := LostEntries(h, l),
                 queues := PutBack(h.queues, h.members[w].provider, RequeuedRecords(h, l))), {w})
  }

  // ---- cancelling ----

  predicate Found(h: Harness, r: Record, i: nat) {
    r.provider in h.queues && i < |h.queues[r.provider]| && h.queues[r.provider][i].id == r.id
    && forall j :: 0 <= j < i ==> h.queues[r.provider][j].id != r.id
  }

  function Forgotten(h: Harness, p: string, i: nat, id: RequestId): Harness
    requires p in h.queues && i < |h.queues[p]|
  {
    h.(queues := h.queues[p := RemoveAt(h.queues[p], i)], entries := h.entries - {id}, canceled := h.canceled + {id})
  }

  ghost predicate Cancels(h: Harness, id: RequestId, reason: CancelReason, out: Option<CancelOutcome>, h': Harness) {
    if id !in h.entries then out == None && h' == h
    else if h.entries[id].Pending? then
      var r := h.entries[id].record;
      if exists i: nat :: Found(h, r, i) then
        out == Some(CancelOutcome.Removed(id))
        && exists i: nat :: Found(h, r, i) && h' == Forgotten(h, r.provider, i, id)
      else out == None && h' == h
    else
      var signal := CancelSignal(h.entries[id].worker, id, reason);
      out == Some(Signalled(signal)) && h' == h.(canceled := h.canceled + {id}, signals := h.signals + [signal])
  }

  // ---- what the operations return ----

  /** What an operation tells its caller. `Unheld` is the core's answer to a completion whose
      reply nobody holds any more; the harness has no replies and does nothing then. */
  datatype Answer =
    | Silent
    | Registered(w: WorkerId)
    | Gave(ids: seq<RequestId>)
    | Placed(placement: Placement)
    | Passed(next: Option<RequestId>)
    | Unheld
    | Asked(ws: seq<WorkerId>)
    | Dismissed(ws: seq<WorkerId>, failed: seq<RequestFailure>)
    | Swept(failed: seq<RequestFailure>)
    | Lost(loss: Option<DisconnectOutcome>)
    | Cancelled(outcome: Option<CancelOutcome>)

  function Listed(h: Harness): WorkerId -> bool { (w: WorkerId) => w in h.members }

  function OverdueAt(h: Harness, now: nat): WorkerId -> bool { (w: WorkerId) => w in Overdue(h, now) }

  /** What the given members run, member by member. */
  function RunningInTurn(members: map<WorkerId, Member>, ws: seq<WorkerId>): seq<RequestId> {
    if ws == [] then []
    else
      var w := ws[|ws| - 1];
      RunningInTurn(members, ws[..|ws| - 1]) + if w in members then members[w].inFlight else []
  }

  /** Everybody overdue leaves; whatever they run fails. */
  function Dismissal(h: Harness, now: nat): Answer {
    var ws := Filter(h.order, OverdueAt(h, now));
    Dismissed(ws, AllFailed(RunningInTurn(h.members, ws), GracefulShutdownTimedOut))
  }

  function ExpiredList(q: seq<Record>, policy: Policy, now: nat): seq<RequestId> {
    if q == [] then []
    else
      var r := q[|q| - 1];
      ExpiredList(q[..|q| - 1], policy, now) + if Expired(policy, r, now) then [r.id] else []
  }

  function ExpiredInTurn(h: Harness, keys: seq<string>, now: nat): seq<RequestId> {
    if keys == [] then []
    else
      var p := keys[|keys| - 1];
      ExpiredInTurn(h, keys[..|keys| - 1], now) + ExpiredList(h.Queue(p), h.PolicyOf(p), now)
  }

  /** The timed out requests, queue by queue, whatever the order of the queues. */
  ghost predicate Sweeps(h: Harness, now: nat, a: Answer) {
    exists keys: seq<string> ::
      NoDup(keys) && Elements(keys) == h.queues.Keys
      && a == Swept(AllFailed(ExpiredInTurn(h, keys, now), QueueTimedOut))
  }

  function IdsInOrder(q: seq<Record>): seq<RequestId> {
    seq(|q|, i requires 0 <= i < |q| => q[i].id)
  }

  function LossOf(h: Harness, id: RequestId): Option<FailureReason> {
    if id in h.entries && h.entries[id].Running? && !Requeueable(h, id)
    then Some(if id in h.canceled then RequestAlreadyCanceled else MaxRequeuesExceeded)
    else None
  }

  function LostFailures(h: Harness, ids: seq<RequestId>): seq<RequestFailure> {
    if ids == [] then []
    else
      var init, loss := LostFailures(h, ids[..|ids| - 1]), LossOf(h, ids[|ids| - 1]);
      if loss.Some? then init + [RequestFailure(ids[|ids| - 1], loss.value)] else init
  }

  function Loss(h: Harness, w: WorkerId): Answer {
    if w !in h.members then Lost(None)
    else
      var l := h.members[w].inFlight;
      Lost(Some(DisconnectOutcome(IdsInOrder(RequeuedRecords(h, l)), LostFailures(h, l))))
  }

  // ---- the operations the harness shares with the core ----

  ghost predicate Step(h: Harness, op: Op, a: Answer, h': Harness) {
    match op
    case Configure(p, policy) => a == Silent && h' == h.(policies := h.policies[p := policy])
    case Register(p, models, _, max, _) =>
      a == Registered(h.nextWorker)
      && h' == h.(nextWorker := h.nextWorker + 1, order := h.order + [h.nextWorker],
                  members := h.members[h.nextWorker := Member(p, models, if max < 1 then 1 else max, [], None)])
    case UpdateModels(w, models, _) => a.Gave? && UpdatesModels(h, w, models, a.ids, h')
    case Pong(w, _) => a.Gave? && Repeats(h, w, a.ids, h')
    case Submit(x) => a.Placed? && Submits(h, x.want.provider, x.want.model, x.now, a.placement, h')
    case FinishRequest(w, id) => a.Passed? && Finishes(h, w, id, a.next, h')
    case CompleteResponse(w, id, _) => if a == Unheld then h' == h else a.Passed? && Finishes(h, w, id, a.next, h')
    case BeginShutdown(_, timeout, now) => a == Asked(Filter(h.order, Listed(h))) && h' == ShutDown(h, timeout, now)
    case ExpireShutdown(now) => a == Dismissal(h, now) && h' == Evicted(h, Overdue(h, now))
    case ExpireQueues(now) => Sweeps(h, now, a) && h' == QueuesExpired(h, now)
    case DeleteProvider(p) => a == Silent && h' == ProviderDeleted(h, p)
    case Disconnect(w) => a == Loss(h, w) && h' == Disconnected(h, w)
    case CancelRequest(id, reason) => a.Cancelled? && Cancels(h, id, reason, a.outcome, h')
    case _ => a == Silent && h' == h
  }

  const INITIAL := Harness(1, 1, [], map[], map[], map[], map[], map[], {}, [])
}
