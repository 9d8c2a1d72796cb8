/** Index agreement: the request index, the queues, the in-flight lists, the worker
    listing, the outboxes and the close reasons agree, and every move keeps it so. The
    places where a request can be are seen through two functions, who waits where and who
    runs where; each move is first shown to change these views in one of a few ways, and
    then agreement is a fact about the views alone, so that no proof has to unfold the whole
    invariant together with the whole move. */
module Index {
  import opened Seqs
  import opened RelayState
  import opened Moves

  type WaitsIn = (string, Request) -> bool
  type RunsOn = (WorkerId, RequestId) -> bool

  /** `waits` and `runs` say where records wait and where ids run; `active` says the same. */
  ghost predicate Agree(active: map<RequestId, Active>, waits: WaitsIn, runs: RunsOn) {
    (forall p, r :: waits(p, r) ==>
       r.id in active && active[r.id] == Queued(r) && (r.provider == p || r.requeues >= 1))
    && (forall p, q, r :: waits(p, r) && waits(q, r) ==> p == q)
    && (forall w, id :: runs(w, id) ==> id in active && active[id].InFlight? && active[id].worker == w)
    && (forall id :: id in active ==>
          active[id].request.id == id && active[id].request.requeues <= MAX_REQUEUE_COUNT)
    && (forall id :: id in active && active[id].Queued? ==> exists p :: waits(p, active[id].request))
    && (forall id :: id in active && active[id].InFlight? ==> runs(active[id].worker, id))
  }

  ghost function Waits(s: State): WaitsIn {
    (p: string, r: Request) => p in s.queues && r in s.queues[p]
  }

  ghost function Running(s: State): RunsOn {
    (w: WorkerId, id: RequestId) => w in s.workers && id in s.workers[w].inFlight
  }

  /** Nothing waits or runs twice in its own queue or list. */
  ghost predicate Once(s: State) {
    (forall p :: p in s.queues ==> NoDup(s.queues[p]))
    && (forall w :: w in s.workers ==> NoDup(s.workers[w].inFlight))
  }

  /** `order` lists the registered workers without repetition; ids are never reused;
      no worker runs more than it may, whatever load it reports. */
  ghost predicate Listed(s: State) {
    NoDup(s.order)
    && (forall w :: w in s.order <==> w in s.workers)
    && (forall w :: w in s.workers ==> w < s.nextWorker)
    && (forall w :: w in s.outbox ==> w in s.workers)
    && (forall w :: w in s.closeReasons ==> w !in s.workers && w < s.nextWorker)
    && (forall w :: w in s.workers ==>
          |s.workers[w].inFlight| <= s.workers[w].maxConcurrent
          && 1 <= s.workers[w].maxConcurrent <= U32_MAX)
    && (forall id :: id in s.active ==> id < s.nextRequest)
  }

  ghost predicate Inv(s: State) {
    Listed(s) && Once(s) && Agree(s.active, Waits(s), Running(s))
  }

  lemma InitialInv()
    ensures Inv(INITIAL)
  {}

  // ---- the abstract steps ----

  lemma AgreeSame(a: map<RequestId, Active>, waits: WaitsIn, runs: RunsOn, waits': WaitsIn, runs': RunsOn)
    requires Agree(a, waits, runs)
    requires forall q, x :: waits'(q, x) <==> waits(q, x)
    requires forall v, i :: runs'(v, i) <==> runs(v, i)
    ensures Agree(a, waits', runs')
  {}

  lemma AgreeStart(a: map<RequestId, Active>, waits: WaitsIn, runs: RunsOn, waits': WaitsIn, runs': RunsOn,
                   r: Request, w: WorkerId)
    requires Agree(a, waits, runs)
    requires r.requeues <= MAX_REQUEUE_COUNT && (r.id in a ==> a[r.id] == Queued(r))
    requires forall q, x :: waits'(q, x) <==> waits(q, x) && x != r
    requires forall v, i :: runs'(v, i) <==> runs(v, i) || (v == w && i == r.id)
    ensures Agree(a[r.id := InFlight(r, w, None)], waits', runs')
  {}

  lemma AgreeWait(a: map<RequestId, Active>, waits: WaitsIn, runs: RunsOn, waits': WaitsIn, runs': RunsOn,
                  r: Request, p: string, w: WorkerId)
    requires Agree(a, waits, runs)
    requires r.requeues <= MAX_REQUEUE_COUNT && (r.provider == p || r.requeues >= 1)
    requires r.id in a ==> a[r.id].InFlight? && a[r.id].worker == w
    requires forall q, x :: waits'(q, x) <==> waits(q, x) || (q == p && x == r)
    requires forall v, i :: runs'(v, i) <==> runs(v, i) && !(v == w && i == r.id)
    ensures Agree(a[r.id := Queued(r)], waits', runs')
  {
    assert waits'(p, r);
    assert forall q, x :: waits(q, x) ==> waits'(q, x);
  }

  lemma AgreeEnd(a: map<RequestId, Active>, waits: WaitsIn, runs: RunsOn, waits': WaitsIn, runs': RunsOn,
                 w: WorkerId, id: RequestId)
    requires Agree(a, waits, runs) && runs(w, id)
    requires forall q, x :: waits'(q, x) <==> waits(q, x)
    requires forall v, i :: runs'(v, i) <==> runs(v, i) && !(v == w && i == id)
    ensures Agree(a - {id}, waits', runs')
  {
    assert forall q, x :: waits(q, x) ==> waits'(q, x);
  }

  lemma AgreeDrop(a: map<RequestId, Active>, waits: WaitsIn, runs: RunsOn, waits': WaitsIn, runs': RunsOn,
                  p: string, r: Request)
    requires Agree(a, waits, runs) && waits(p, r)
    requires forall q, x :: waits'(q, x) <==> waits(q, x) && !(q == p && x == r)
    requires forall v, i :: runs'(v, i) <==> runs(v, i)
    ensures Agree(a - {r.id}, waits', runs')
  {
    assert forall q, x :: waits(q, x) && x != r ==> waits'(q, x);
  }

  lemma AgreeMark(a: map<RequestId, Active>, waits: WaitsIn, runs: RunsOn, waits': WaitsIn, runs': RunsOn,
                  id: RequestId, reason: CancelReason)
    requires Agree(a, waits, runs) && id in a && a[id].InFlight?
    requires forall q, x :: waits'(q, x) <==> waits(q, x)
    requires forall v, i :: runs'(v, i) <==> runs(v, i)
    ensures Agree(a[id := a[id].(cancellation := Some(reason))], waits', runs')
  {}

  // ---- what a change of one queue or one list does to the views ----

  lemma QueueShrinks(s: State, t: State, p: string, i: nat)
    requires p in s.queues && i < |s.queues[p]| && Once(s)
    requires t.queues == s.queues[p := RemoveAt(s.queues[p], i)]
    ensures Waits(s)(p, s.queues[p][i])
    ensures forall q :: q in t.queues ==> NoDup(t.queues[q])
    ensures forall q, x :: Waits(t)(q, x) <==> Waits(s)(q, x) && !(q == p && x == s.queues[p][i])
  {
    RemoveAtMembers(s.queues[p], i);
  }

  lemma QueueGrows(s: State, t: State, p: string, r: Request)
    requires Once(s) && !Waits(s)(p, r)
    requires t.queues == s.queues[p := s.Queue(p) + [r]] || t.queues == s.queues[p := [r] + s.Queue(p)]
    ensures forall q :: q in t.queues ==> NoDup(t.queues[q])
    ensures forall q, x :: Waits(t)(q, x) <==> Waits(s)(q, x) || (q == p && x == r)
  {
    assert r !in s.Queue(p);
  }

  lemma QueuesSame(s: State, t: State)
    requires t.queues == s.queues
    ensures forall q, x :: Waits(t)(q, x) <==> Waits(s)(q, x)
  {}

  lemma ListShrinks(s: State, t: State, w: WorkerId, id: RequestId)
    requires w in s.workers && Once(s)
    requires w in t.workers && t.workers == s.workers[w := t.workers[w]]
    requires t.workers[w].inFlight == Without(s.workers[w].inFlight, id)
    ensures |t.workers[w].inFlight| <= |s.workers[w].inFlight|
    ensures forall v :: v in t.workers ==> NoDup(t.workers[v].inFlight)
    ensures forall v, i :: Running(t)(v, i) <==> Running(s)(v, i) && !(v == w && i == id)
  {
    WithoutMembers(s.workers[w].inFlight, id);
  }

  lemma ListGrows(s: State, t: State, w: WorkerId, id: RequestId)
    requires w in s.workers && Once(s) && !Running(s)(w, id)
    requires w in t.workers && t.workers == s.workers[w := t.workers[w]]
    requires t.workers[w].inFlight == s.workers[w].inFlight + [id]
    ensures forall v :: v in t.workers ==> NoDup(t.workers[v].inFlight)
    ensures forall v, i :: Running(t)(v, i) <==> Running(s)(v, i) || (v == w && i == id)
  {}

  lemma ListsSame(s: State, t: State)
    requires forall w :: w in s.workers ==> w in t.workers
    requires forall w :: w in t.workers ==>
      t.workers[w].inFlight == if w in s.workers then s.workers[w].inFlight else []
    ensures forall v, i :: Running(t)(v, i) <==> Running(s)(v, i)
  {}

  /** One worker's record changes; the listing stays. */
  lemma ListedSame(s: State, t: State, w: WorkerId)
    requires Listed(s) && w in s.workers && w in t.workers && t.workers == s.workers[w := t.workers[w]]
    requires t.order == s.order && t.closeReasons == s.closeReasons && t.nextWorker == s.nextWorker
    requires forall v :: v in t.outbox ==> v in s.outbox || v == w
    requires s.nextRequest <= t.nextRequest
    requires forall id :: id in t.active ==> id in s.active || id < t.nextRequest
    requires t.workers[w].maxConcurrent == s.workers[w].maxConcurrent
    requires |t.workers[w].inFlight| <= t.workers[w].maxConcurrent
    ensures Listed(t)
  {}

  // ---- the moves ----

  lemma AssignKeeps(s: State, w: WorkerId, r: Request, before: State)
    requires Inv(before) && w in before.workers
    requires before.workers[w].HasCapacity()
    requires s == before.(nextRequest := s.nextRequest, cursors := s.cursors, queues := s.queues)
    requires forall q :: q in s.queues ==> NoDup(s.queues[q])
    requires forall q, x :: Waits(s)(q, x) <==> Waits(before)(q, x) && x != r
    requires before.nextRequest <= s.nextRequest && r.id < s.nextRequest && r.requeues <= MAX_REQUEUE_COUNT
    requires r.id in before.active ==> before.active[r.id] == Queued(r)
    ensures Inv(Assign(s, w, r))
  {
    var t := Assign(s, w, r);
    ListGrows(before, t, w, r.id);
    ListedSame(before, t, w);
    QueuesSame(s, t);
    AgreeStart(before.active, Waits(before), Running(before), Waits(t), Running(t), r, w);
  }

  /** A fresh id is nowhere. */
  lemma FreshIsNowhere(s: State, r: Request)
    requires Inv(s) && r.id == s.nextRequest
    ensures r.id !in s.active
    ensures forall q :: !Waits(s)(q, r)
    ensures forall v :: !Running(s)(v, r.id)
  {
    assert forall q :: Waits(s)(q, r) ==> r.id in s.active;
    assert forall v :: Running(s)(v, r.id) ==> r.id in s.active;
  }

  lemma AdmitKeeps(s: State, r: Request, w: WorkerId, key: SelectionKey, position: nat)
    requires Inv(s) && Fresh(s, r) && w in s.workers && s.workers[w].HasCapacity()
    ensures Inv(Admitted(s, r, w, key, position))
  {
    var t := Admitted(s, r, w, key, position);
    FreshIsNowhere(s, r);
    ListGrows(s, t, w, r.id);
    ListedSame(s, t, w);
    QueuesSame(s, t);
    AgreeStart(s.active, Waits(s), Running(s), Waits(t), Running(t), r, w);
  }

  lemma PullKeeps(s: State, w: WorkerId, p: string, i: nat)
    requires Inv(s) && w in s.workers && s.workers[w].HasCapacity()
    requires p in s.queues && i < |s.queues[p]|
    ensures Inv(Pulled(s, w, p, i))
  {
    QueueShrinks(s, Unqueued(s, p, i), p, i);
    AssignKeeps(Unqueued(s, p, i), w, s.queues[p][i], s);
  }

  lemma EnqueueKeeps(s: State, r: Request)
    requires Inv(s) && Fresh(s, r)
    ensures Inv(Enqueued(s, r))
  {
    var t := Enqueued(s, r);
    FreshIsNowhere(s, r);
    QueueGrows(s, t, r.provider, r);
    ListsSame(s, t);
    AgreeWait(s.active, Waits(s), Running(s), Waits(t), Running(t), r, r.provider, 0);
  }

  lemma DropKeeps(s: State, p: string, i: nat, failure: Option<FailureReason>)
    requires Inv(s) && p in s.queues && i < |s.queues[p]|
    ensures Inv(Dropped(s, p, i, failure))
  {
    var t := Dropped(s, p, i, failure);
    QueueShrinks(s, t, p, i);
    ListsSame(s, t);
    AgreeDrop(s.active, Waits(s), Running(s), Waits(t), Running(t), p, s.queues[p][i]);
  }

  /** A running request leaves its worker's list and the index together. */
  lemma EndKeeps(s: State, t: State, w: WorkerId, id: RequestId)
    requires Inv(s) && w in s.workers && id in s.workers[w].inFlight
    requires t == s.(workers := t.workers, active := s.active - {id}, senders := t.senders, replies := t.replies)
    requires w in t.workers && t.workers == s.workers[w := t.workers[w]]
    requires t.workers[w].inFlight == Without(s.workers[w].inFlight, id)
    requires t.workers[w].maxConcurrent == s.workers[w].maxConcurrent
    ensures Inv(t)
  {
    ListShrinks(s, t, w, id);
    ListedSame(s, t, w);
    QueuesSame(s, t);
    AgreeEnd(s.active, Waits(s), Running(s), Waits(t), Running(t), w, id);
  }

  lemma RequeueKeeps(s: State, w: WorkerId, id: RequestId)
    requires Inv(s) && w in s.workers && id in s.workers[w].inFlight
    requires id in s.active && s.active[id].request.requeues < MAX_REQUEUE_COUNT
    ensures Inv(Requeued(s, w, id))
  {
    var t := Requeued(s, w, id);
    var p := s.workers[w].provider;
    var r := Bumped(s.active[id].request);
    assert Running(s)(w, id);
    assert !Waits(s)(p, r);
    ListShrinks(s, t, w, id);
    QueueGrows(s, t, p, r);
    ListedSame(s, t, w);
    AgreeWait(s.active, Waits(s), Running(s), Waits(t), Running(t), r, p, w);
  }

  lemma ListedLeave(s: State, w: WorkerId, close: Option<CloseReason>)
    requires Listed(s) && w in s.workers
    ensures Listed(RemoveWorker(s, w, close))
  {
    FilterMembers(s.order, Outside({w}));
  }

  lemma LeaveKeeps(s: State, w: WorkerId, close: Option<CloseReason>)
    requires Inv(s) && w in s.workers && s.workers[w].inFlight == []
    ensures Inv(RemoveWorker(s, w, close))
  {
    var t := RemoveWorker(s, w, close);
    ListedLeave(s, w, close);
    ListsSame(t, s);
    AgreeSame(s.active, Waits(s), Running(s), Waits(t), Running(t));
  }

  lemma MarkKeeps(s: State, id: RequestId, reason: CancelReason)
    requires Inv(s) && id in s.active && s.active[id].InFlight?
    ensures Inv(Marked(s, id, reason))
  {
    var t := Marked(s, id, reason);
    AgreeMark(s.active, Waits(s), Running(s), Waits(t), Running(t), id, reason);
  }

  lemma ListedGrows(s: State, worker: Worker)
    requires Listed(s) && worker.inFlight == [] && 1 <= worker.maxConcurrent <= U32_MAX
    ensures Listed(Added(s, worker))
  {
    var t := Added(s, worker);
    assert s.nextWorker !in s.workers;
    assert forall w :: w in t.order <==> w in s.order || w == s.nextWorker;
  }

  lemma AddKeeps(s: State, worker: Worker)
    requires Inv(s) && worker.inFlight == [] && 1 <= worker.maxConcurrent <= U32_MAX
    ensures Inv(Added(s, worker))
  {
    var t := Added(s, worker);
    ListedGrows(s, worker);
    ListsSame(s, t);
    QueuesSame(s, t);
    AgreeSame(s.active, Waits(s), Running(s), Waits(t), Running(t));
  }

  /** A worker's record changes, but not its list. */
  lemma TuneKeeps(s: State, t: State, w: WorkerId)
    requires Inv(s) && w in s.workers && w in t.workers
    requires t == s.(workers := s.workers[w := t.workers[w]], shutdownSignals := t.shutdownSignals)
    requires t.workers[w].inFlight == s.workers[w].inFlight
    requires t.workers[w].maxConcurrent == s.workers[w].maxConcurrent
    ensures Inv(t)
  {
    ListsSame(s, t);
    QueuesSame(s, t);
    ListedSame(s, t, w);
    AgreeSame(s.active, Waits(s), Running(s), Waits(t), Running(t));
  }

  /** An empty queue appears or disappears. */
  lemma QueueKeyKeeps(s: State, t: State, p: string)
    requires Inv(s) && s.nextRequest <= t.nextRequest
    requires t == s.(nextRequest := t.nextRequest, queues := t.queues)
    requires t.queues == s.queues[p := s.Queue(p)] || (t.queues == s.queues - {p} && s.Queue(p) == [])
    ensures Inv(t)
  {
    ListsSame(s, t);
    AgreeSame(s.active, Waits(s), Running(s), Waits(t), Running(t));
  }

  /** Moves after which everything the index speaks of is as it was. */
  predicate Housekeeping(m: Move) {
    m.SetPolicy? || m.OpenReply? || m.SendChunk? || m.CloseReply? || m.TakeOutbox? || m.TakeCancels?
    || m.TakeShutdowns? || m.TakeClose?
  }

  lemma HousekeepingLeaves(s: State, m: Move)
    requires Enabled(s, m) && Housekeeping(m)
    ensures var t := Apply(s, m);
      t.order == s.order && t.workers == s.workers && t.queues == s.queues && t.active == s.active
      && t.nextRequest == s.nextRequest && t.nextWorker == s.nextWorker
      && t.outbox.Keys <= s.outbox.Keys && t.closeReasons.Keys <= s.closeReasons.Keys
  {}

  lemma HousekeepingKeeps(s: State, t: State)
    requires Inv(s)
    requires t.order == s.order && t.workers == s.workers && t.queues == s.queues && t.active == s.active
    requires t.nextRequest == s.nextRequest && t.nextWorker == s.nextWorker
    requires t.outbox.Keys <= s.outbox.Keys && t.closeReasons.Keys <= s.closeReasons.Keys
    ensures Inv(t)
  {
    ListsSame(s, t);
    QueuesSame(s, t);
    AgreeSame(s.active, Waits(s), Running(s), Waits(t), Running(t));
  }

  lemma StartMoveKeeps(s: State, m: Move)
    requires Inv(s) && Enabled(s, m)
    requires m.Admit? || m.Enqueue? || m.Pull? || m.Requeue?
    ensures Inv(Apply(s, m))
  {
    match m
    case Admit(r, w, key, position) => AdmitKeeps(s, r, w, key, position);
    case Enqueue(r) => EnqueueKeeps(s, r);
    case Pull(w, p, i) => PullKeeps(s, w, p, i);
    case Requeue(w, id) => RequeueKeeps(s, w, id);
  }

  lemma EndMoveKeeps(s: State, m: Move)
    requires Inv(s) && Enabled(s, m)
    requires m.Finish? || m.FailRunning?
    ensures Inv(Apply(s, m))
  {
    match m
    case Finish(w, id) => EndKeeps(s, Finished(s, w, id), w, id);
    case FailRunning(w, id, why) => EndKeeps(s, FailReply(Detach(s, w, id), id, why), w, id);
  }

  lemma CancelMoveKeeps(s: State, m: Move)
    requires Inv(s) && Enabled(s, m) && (m.Mark? || m.Drop?)
    ensures Inv(Apply(s, m))
  {
    match m
    case Mark(id, reason) => MarkKeeps(s, id, reason);
    case Drop(p, i, failure) => DropKeeps(s, p, i, failure);
  }

  lemma WorkerMoveKeeps(s: State, m: Move)
    requires Inv(s) && Enabled(s, m)
    requires m.AddWorker? || m.Tune? || m.Leave? || m.StartDrain?
    ensures Inv(Apply(s, m))
  {
    match m
    case AddWorker(worker) => AddKeeps(s, worker);
    case Tune(w, models, load) => TunedKeeps(s, w, models, load);
    case Leave(w, close) => LeaveKeeps(s, w, close);
    case StartDrain(signal, deadline) => DrainingKeeps(s, signal, deadline);
  }

  lemma QueueKeyMoveKeeps(s: State, m: Move)
    requires Inv(s) && Enabled(s, m) && (m.Refuse? || m.DropQueue?)
    ensures Inv(Apply(s, m))
  {
    match m
    case Refuse(p) => QueueKeyKeeps(s, Refused(s, p), p);
    case DropQueue(p) => QueueKeyKeeps(s, s.(queues := s.queues - {p}), p);
  }

  lemma TunedKeeps(s: State, w: WorkerId, models: seq<string>, load: nat)
    requires Inv(s) && w in s.workers
    ensures Inv(Tuned(s, w, models, load))
  {
    TuneKeeps(s, Tuned(s, w, models, load), w);
  }

  lemma DrainingKeeps(s: State, signal: ShutdownSignal, deadline: nat)
    requires Inv(s) && signal.worker in s.workers
    ensures Inv(Draining(s, signal, deadline))
  {
    TuneKeeps(s, Draining(s, signal, deadline), signal.worker);
  }

  /** Every elementary move keeps the index in agreement. */
  lemma MoveKeeps(s: State, m: Move)
    requires Inv(s) && Enabled(s, m)
    ensures Inv(Apply(s, m))
  {
    if Housekeeping(m) {
      HousekeepingLeaves(s, m);
      HousekeepingKeeps(s, Apply(s, m));
    } else if m.AddWorker? || m.Tune? || m.Leave? || m.StartDrain? {
      WorkerMoveKeeps(s, m);
    } else if m.Refuse? || m.DropQueue? {
      QueueKeyMoveKeeps(s, m);
    } else if m.Admit? || m.Enqueue? || m.Pull? || m.Requeue? {
      StartMoveKeeps(s, m);
    } else if m.Finish? || m.FailRunning? {
      EndMoveKeeps(s, m);
    } else {
      CancelMoveKeeps(s, m);
    }
  }

  lemma {:induction false} RunKeeps(s: State, ms: seq<Move>, s': State)
    requires Inv(s) && Runs(s, ms, s')
    ensures Inv(s')
    decreases |ms|
  {
    if ms != [] {
      MoveKeeps(s, ms[0]);
      RunKeeps(Apply(s, ms[0]), ms[1..], s');
    }
  }
}
