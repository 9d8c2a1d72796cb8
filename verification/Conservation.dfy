/** Work conservation: which operations may leave a worker idle beside waiting work. */
module Conservation {
  import opened Seqs
  import opened RelayState
  import opened Moves
  import opened Index
  import opened Selection
  import opened Spec
  import Traces

  /** Worker v is not idling beside work it could take. */
  ghost predicate Busy(s: State, v: WorkerId) {
    Room(s, v) ==> forall p, r :: Waits(s)(p, r) ==> !s.workers[v].Serves(r)
  }

  ghost predicate Conserving(s: State, dirty: iset<WorkerId>) {
    forall v :: v in s.workers && v !in dirty ==> Busy(s, v)
  }

  lemma BusyIsIdle(s: State, v: WorkerId)
    requires v in s.workers
    ensures Busy(s, v) <==> Idle(s, v)
  {
    if Room(s, v) && NothingServed(s, v) {
      forall p, r | Waits(s)(p, r) ensures !s.workers[v].Serves(r) {
        var i := IndexOf(s.queues[p], r);
      }
    }
    if Room(s, v) && Busy(s, v) {
      forall p, i | p in s.queues && 0 <= i < |s.queues[p]| ensures !s.workers[v].Serves(s.queues[p][i]) {
        assert Waits(s)(p, s.queues[p][i]);
      }
    }
  }

  // ---- what keeps a worker busy ----

  ghost predicate NoNewWaits(s: State, t: State) {
    forall p, r :: Waits(t)(p, r) ==> Waits(s)(p, r)
  }

  /** v has no more room, and serves nothing more, than before. */
  ghost predicate NoFreer(s: State, t: State, v: WorkerId) {
    v in t.workers && Room(t, v) ==>
      Room(s, v) && t.workers[v].models == s.workers[v].models && t.workers[v].prefixes == s.workers[v].prefixes
  }

  lemma StaysBusy(s: State, t: State, v: WorkerId)
    requires NoNewWaits(s, t) && NoFreer(s, t, v) && Busy(s, v) && v in t.workers
    ensures Busy(t, v)
  {
    if Room(t, v) {
      forall p, r | Waits(t)(p, r) ensures !t.workers[v].Serves(r) {
        assert Waits(s)(p, r);
        assert t.workers[v].Serves(r) == s.workers[v].Serves(r);
      }
    }
  }

  lemma StaysConserving(s: State, t: State, dirty: iset<WorkerId>)
    requires Conserving(s, dirty) && NoNewWaits(s, t)
    requires forall v :: v in t.workers && v !in dirty ==> v in s.workers && NoFreer(s, t, v)
    ensures Conserving(t, dirty)
  {
    forall v | v in t.workers && v !in dirty ensures Busy(t, v) {
      StaysBusy(s, t, v);
    }
  }

  lemma SameWork(s: State, t: State, dirty: iset<WorkerId>)
    requires Conserving(s, dirty) && t.workers == s.workers && t.queues == s.queues
    ensures Conserving(t, dirty)
  {
    assert NoNewWaits(s, t);
    StaysConserving(s, t, dirty);
  }

  /** Everybody else is as before, and w is busy or dirty. */
  lemma OneWorkerChanges(s: State, t: State, w: WorkerId, dirty: iset<WorkerId>)
    requires Conserving(s, dirty) && NoNewWaits(s, t)
    requires forall v :: v in t.workers && v != w ==> v in s.workers && t.workers[v] == s.workers[v]
    requires w in t.workers && w !in dirty ==> Busy(t, w)
    ensures Conserving(t, dirty)
  {
    forall v | v in t.workers && v !in dirty ensures Busy(t, v) {
      if v != w {
        StaysBusy(s, t, v);
      }
    }
  }

  // ---- taking from the queues ----

  lemma PullTakesOnly(s: State, w: WorkerId, id: RequestId, t: State)
    requires PullsOne(s, w, id, t) && forall p :: p in s.queues ==> NoDup(s.queues[p])
    ensures NoNewWaits(s, t) && w in t.workers
    ensures forall v :: v in t.workers && v != w ==> v in s.workers && t.workers[v] == s.workers[v]
    ensures exists p, r :: Waits(s)(p, r) && s.workers[w].Serves(r) && t.workers[w] == s.workers[w].Took(r.id)
    ensures forall p :: p in t.queues ==> NoDup(t.queues[p])
  {
    var p, i: nat :| BestPick(s, w, p, i) && s.queues[p][i].id == id && t == Pulled(s, w, p, i);
    var r := s.queues[p][i];
    assert Waits(s)(p, r) && s.workers[w].Serves(r);
    RemoveAtMembers(s.queues[p], i);
  }

  ghost predicate QueuesOnce(s: State) { forall p :: p in s.queues ==> NoDup(s.queues[p]) }

  lemma {:induction false} DrainTakesOnly(s: State, w: WorkerId, got: seq<RequestId>, t: State)
    requires Drains(s, w, got, t) && QueuesOnce(s) && w in s.workers
    ensures NoNewWaits(s, t) && w in t.workers && Idle(t, w)
    ensures forall v :: v in t.workers && v != w ==> v in s.workers && t.workers[v] == s.workers[v]
    decreases |got|
  {
    if got != [] {
      var mid :| PullsOne(s, w, got[0], mid) && Drains(mid, w, got[1..], t);
      PullTakesOnly(s, w, got[0], mid);
      DrainTakesOnly(mid, w, got[1..], t);
    }
  }

  // ---- the operations that give a worker room ----

  /** A pong or models update of w leaves w serving all it can: w is clean afterwards. */
  lemma RetuneConserves(s: State, w: WorkerId, models: seq<string>, load: nat, got: seq<RequestId>, t: State,
                        dirty: iset<WorkerId>)
    requires Retunes(s, w, models, load, got, t) && QueuesOnce(s) && Conserving(s, dirty) && w in s.workers
    ensures Conserving(t, dirty - iset{w})
  {
    var u := Tuned(s, w, models, load);
    assert forall p, r :: Waits(u)(p, r) <==> Waits(s)(p, r);
    DrainTakesOnly(u, w, got, t);
    BusyIsIdle(t, w);
    forall v | v in t.workers && v !in dirty - iset{w} ensures Busy(t, v) {
      if v != w {
        StaysBusy(s, t, v);
      }
    }
  }

  /** Finishing lowers the selection load by exactly one. */
  lemma FinishLowersLoad(worker: Worker, id: RequestId)
    requires id in worker.inFlight
    ensures worker.Finished(id).SelectionLoad() == worker.SelectionLoad() - 1
  {}

  /** Taking a request raises it by exactly one, short of the counter's ceiling. */
  lemma TakingRaisesLoad(worker: Worker, id: RequestId)
    requires worker.SelectionLoad() < USIZE_MAX
    ensures worker.Took(id).SelectionLoad() == worker.SelectionLoad() + 1
  {}

  /** After finishing one and dispatching one, w is as busy as it was. */
  lemma FinisherStaysBusy(s: State, w: WorkerId, id: RequestId, got: Option<RequestId>, t: State)
    requires Busy(s, w) && w in s.workers && id in s.workers[w].inFlight && QueuesOnce(s)
    requires s.workers[w].maxConcurrent <= U32_MAX
    requires Dispatches(Moves.Finished(s, w, id), w, got, t)
    ensures w in t.workers && Busy(t, w)
  {
    var u := Moves.Finished(s, w, id);
    FinishLowersLoad(s.workers[w], id);
    assert forall p, r :: Waits(u)(p, r) <==> Waits(s)(p, r);
    if got == None {
      BusyIsIdle(u, w);
    } else {
      PullTakesOnly(u, w, got.value, t);
      var p, r :| Waits(u)(p, r) && u.workers[w].Serves(r) && t.workers[w] == u.workers[w].Took(r.id);
      assert s.workers[w].Serves(r) == u.workers[w].Serves(r);
      assert !Room(s, w);
      TakingRaisesLoad(u.workers[w], r.id);
    }
  }

  lemma DrainedOutConserves(s: State, w: WorkerId, id: RequestId, dirty: iset<WorkerId>)
    requires w in s.workers && Conserving(s, dirty)
    ensures Conserving(RemoveWorker(Moves.Finished(s, w, id), w, Some(Completed)), dirty)
  {
    var t := RemoveWorker(Moves.Finished(s, w, id), w, Some(Completed));
    assert NoNewWaits(s, t);
    StaysConserving(s, t, dirty);
  }

  lemma FinishTakesOnly(s: State, w: WorkerId, id: RequestId, got: Option<RequestId>, t: State)
    requires w in s.workers && QueuesOnce(s) && Dispatches(Moves.Finished(s, w, id), w, got, t)
    ensures NoNewWaits(s, t)
    ensures forall v :: v in t.workers && v != w ==> v in s.workers && t.workers[v] == s.workers[v]
  {
    var u := Moves.Finished(s, w, id);
    assert forall p, r :: Waits(u)(p, r) <==> Waits(s)(p, r);
    if got.Some? {
      PullTakesOnly(u, w, got.value, t);
    }
  }

  lemma FinishConserves(s: State, w: WorkerId, id: RequestId, got: Option<RequestId>, t: State, dirty: iset<WorkerId>)
    requires Finishes(s, w, id, got, t) && QueuesOnce(s) && Conserving(s, dirty)
    requires w in s.workers ==> s.workers[w].maxConcurrent <= U32_MAX
    ensures Conserving(t, dirty)
  {
    if w in s.workers && id in s.workers[w].inFlight {
      var u := Moves.Finished(s, w, id);
      if u.workers[w].Draining() && u.workers[w].inFlight == [] {
        DrainedOutConserves(s, w, id, dirty);
      } else {
        FinishTakesOnly(s, w, id, got, t);
        if w !in dirty {
          FinisherStaysBusy(s, w, id, got, t);
        }
        OneWorkerChanges(s, t, w, dirty);
      }
    }
  }

  // ---- submissions ----

  /** An unrouted or falling-back submission waits only if no worker at all could take it. */
  lemma WaitingMeansNobody(s: State, want: Wanted, v: WorkerId)
    requires Selects(s, want, None) && Listed(s) && v in s.workers
    requires want.routing.Some? ==> want.routing.value.allowFallbacks.GetOr(true)
    ensures !EligibleWorker(s.workers[v], Anyone, want.model, want.path)
  {
    assert !AnyEligible(s, Anyone, want);
    var pos := IndexOf(s.order, v);
    assert !Eligible(s, Anyone, want, pos);
  }

  /** The workers with room that could serve something that has just come to wait. */
  ghost function Beside(s: State, t: State): iset<WorkerId> {
    iset v | v in t.workers && Room(t, v) && exists p, r :: Waits(t)(p, r) && !Waits(s)(p, r) && t.workers[v].Serves(r)
  }

  lemma DirtCovers(s: State, t: State, dirty: iset<WorkerId>)
    requires Conserving(s, dirty)
    requires forall v :: v in t.workers && v !in dirty ==> v in s.workers && NoFreer(s, t, v)
    ensures Conserving(t, dirty + Beside(s, t))
  {
    forall v | v in t.workers && v !in dirty + Beside(s, t) ensures Busy(t, v) {
      if Room(t, v) {
        forall p, r | Waits(t)(p, r) ensures !t.workers[v].Serves(r) {
          assert t.workers[v].Serves(r) == s.workers[v].Serves(r);
          assert Busy(s, v);
        }
      }
    }
  }

  lemma EnqueueConserves(s: State, r: Request, t: State, dirty: iset<WorkerId>)
    requires Conserving(s, dirty) && t == Enqueued(s, r)
    requires forall v :: v in s.workers && Room(s, v) ==> !s.workers[v].Serves(r)
    ensures Conserving(t, dirty)
  {
    assert forall p, x :: Waits(t)(p, x) ==> Waits(s)(p, x) || x == r;
    forall v | v in t.workers && v !in dirty ensures Busy(t, v) {
      assert Busy(s, v);
    }
  }

  ghost predicate FallsBack(want: Wanted) {
    want.routing.Some? ==> want.routing.value.allowFallbacks.GetOr(true)
  }

  lemma NowhereNew(s: State, r: Request, c: Option<Choice>, out: Outcome, t: State, dirty: iset<WorkerId>)
    requires Conserving(s, dirty) && PlacesAs(s, r, c, out, t) && !out.Waiting?
    requires c.Some? ==> Room(s, c.value.worker)
    ensures Conserving(t, dirty)
  {
    assert NoNewWaits(s, t);
    StaysConserving(s, t, dirty);
  }

  lemma FallenBackConserves(s: State, x: Submission, t: State, dirty: iset<WorkerId>)
    requires Selects(s, x.want, None) && FallsBack(x.want) && Listed(s) && Conserving(s, dirty)
    requires t == Enqueued(s, RequestOf(s, x))
    ensures Conserving(t, dirty)
  {
    var r := RequestOf(s, x);
    forall v | v in s.workers && Room(s, v) ensures !s.workers[v].Serves(r) {
      WaitingMeansNobody(s, x.want, v);
    }
    EnqueueConserves(s, r, t, dirty);
  }

  lemma PlaceConserves(s: State, x: Submission, out: Outcome, t: State, dirty: iset<WorkerId>)
    requires Places(s, x, out, t) && Listed(s) && Conserving(s, dirty)
    ensures Conserving(t, if FallsBack(x.want) then dirty else dirty + Beside(s, t))
  {
    var c :| Selects(s, x.want, c) && PlacesAs(s, RequestOf(s, x), c, out, t);
    if !out.Waiting? {
      if c.Some? {
        SelectedHasRoom(s, x.want, c.value);
      }
      NowhereNew(s, RequestOf(s, x), c, out, t, dirty);
      MoreDirt(t, dirty, Beside(s, t));
    } else if FallsBack(x.want) {
      FallenBackConserves(s, x, t, dirty);
    } else {
      DirtCovers(s, t, dirty);
    }
  }

  lemma MoreDirt(t: State, dirty: iset<WorkerId>, more: iset<WorkerId>)
    requires Conserving(t, dirty)
    ensures Conserving(t, dirty + more)
  {}

  lemma SelectedHasRoom(s: State, want: Wanted, c: Choice)
    requires Selects(s, want, Some(c))
    ensures Room(s, c.worker)
  {
    Traces.SelectedIsEligible(s, want, c);
    var scope :| Eligible(s, scope, want, c.position);
  }

  // ---- every operation ----

  /** The workers an operation may leave idling beside work. */
  ghost function DirtOf(s: State, op: Op, t: State): iset<WorkerId> {
    match op
    case Register(_, _, _, _, _) => iset{s.nextWorker}
    case Disconnect(_) => Beside(s, t)
    case Submit(x) => if FallsBack(x.want) then iset{} else Beside(s, t)
    case _ => iset{}
  }

  /** The worker an operation makes busy again. */
  ghost function Cleaned(op: Op): iset<WorkerId> {
    match op
    case UpdateModels(w, _, _) => iset{w}
    case Pong(w, _) => iset{w}
    case _ => iset{}
  }

  lemma ReportConserves(s: State, op: Op, t: State, dirty: iset<WorkerId>)
    requires Inv(s) && Conserving(s, dirty) && Step(s, op, t) && (op.UpdateModels? || op.Pong?)
    ensures Conserving(t, dirty - Cleaned(op))
  {
    match op
    case UpdateModels(w, models, current) =>
      var got :| Retunes(s, w, models, current, got, t);
      if w in s.workers { RetuneConserves(s, w, models, current, got, t, dirty); }
    case Pong(w, current) =>
      var got :| Pongs(s, w, current, got, t);
      if w in s.workers { RetuneConserves(s, w, s.workers[w].models, current, got, t, dirty); }
  }

  lemma BesideSame(s: State, t: State, u: State)
    requires u.workers == t.workers && u.queues == t.queues
    ensures Beside(s, u) == Beside(s, t)
  {
    assert forall p, r :: Waits(u)(p, r) <==> Waits(t)(p, r);
  }

  lemma PlacedConserves(s: State, x: Submission, out: Outcome, mid: State, t: State, dirty: iset<WorkerId>)
    requires Places(s, x, out, mid) && Listed(s) && Conserving(s, dirty)
    requires t.workers == mid.workers && t.queues == mid.queues
    ensures Conserving(t, dirty + if FallsBack(x.want) then iset{} else Beside(s, t))
  {
    PlaceConserves(s, x, out, mid, dirty);
    if FallsBack(x.want) {
      SameWork(mid, t, dirty);
      assert dirty + iset{} == dirty;
    } else {
      BesideSame(s, mid, t);
      SameWork(mid, t, dirty + Beside(s, mid));
    }
  }

  lemma SubmitConserves(s: State, x: Submission, t: State, dirty: iset<WorkerId>)
    requires Listed(s) && Conserving(s, dirty) && Step(s, Submit(x), t)
    ensures Conserving(t, dirty + DirtOf(s, Submit(x), t))
  {
    var out :| Submits(s, x, out, t);
    var mid :| Places(s, x, out, mid)
      && t == if x.sender.Some? && !out.Rejected? then Opened(mid, s.nextRequest, x.sender.value) else mid;
    PlacedConserves(s, x, out, mid, t, dirty);
  }

  lemma RegisterConserves(s: State, worker: Worker, dirty: iset<WorkerId>)
    requires Listed(s) && Conserving(s, dirty)
    ensures Conserving(Added(s, worker), dirty + iset{s.nextWorker})
  {
    var t := Added(s, worker);
    assert NoNewWaits(s, t);
    StaysConserving(s, t, dirty + iset{s.nextWorker});
  }

  lemma DisconnectConserves(s: State, w: WorkerId, dirty: iset<WorkerId>)
    requires Conserving(s, dirty)
    ensures Conserving(Disconnected(s, w), dirty + Beside(s, Disconnected(s, w)))
  {
    DirtCovers(s, Disconnected(s, w), dirty);
  }

  lemma CompleteConserves(s: State, w: WorkerId, id: RequestId, body: Bytes, t: State, dirty: iset<WorkerId>)
    requires Inv(s) && Conserving(s, dirty) && Step(s, CompleteResponse(w, id, body), t)
    ensures Conserving(t, dirty)
  {
    if id in s.senders {
      var u := Closed(s, id, body);
      var got :| Finishes(u, w, id, got, t);
      SameWork(s, u, dirty);
      FinishConserves(u, w, id, got, t, dirty);
    }
  }

  lemma ExpiredWaitsLess(s: State, now: nat)
    ensures NoNewWaits(s, QueuesExpired(s, now))
  {
    var t := QueuesExpired(s, now);
    forall p, r | Waits(t)(p, r) ensures Waits(s)(p, r) {
      FilterMembers(s.queues[p], Unexpired(s.PolicyOf(p), now));
    }
  }

  lemma DropConserves(s: State, p: string, i: nat, dirty: iset<WorkerId>)
    requires QueuesOnce(s) && Conserving(s, dirty) && p in s.queues && i < |s.queues[p]|
    ensures Conserving(Dropped(s, p, i, None), dirty)
  {
    var t := Dropped(s, p, i, None);
    RemoveAtMembers(s.queues[p], i);
    assert NoNewWaits(s, t);
    StaysConserving(s, t, dirty);
  }

  lemma CancelConserves(s: State, id: RequestId, reason: CancelReason, out: Option<CancelOutcome>, t: State,
                        dirty: iset<WorkerId>)
    requires Cancels(s, id, reason, out, t) && QueuesOnce(s) && Conserving(s, dirty)
    ensures Conserving(t, dirty)
  {
    if id in s.active && s.active[id].Queued? && exists i: nat :: AtHome(s, s.active[id].request, i) {
      var p := s.active[id].request.provider;
      var i: nat :| AtHome(s, s.active[id].request, i) && t == Dropped(s, p, i, None);
      DropConserves(s, p, i, dirty);
    } else {
      SameWork(s, t, dirty);
    }
  }

  lemma ExpireConserves(s: State, now: nat, dirty: iset<WorkerId>)
    requires Conserving(s, dirty)
    ensures Conserving(QueuesExpired(s, now), dirty)
  {
    ExpiredWaitsLess(s, now);
    StaysConserving(s, QueuesExpired(s, now), dirty);
  }

  lemma EvictConserves(s: State, ws: set<WorkerId>, why: FailureReason, close: CloseReason, dirty: iset<WorkerId>)
    requires Conserving(s, dirty)
    ensures Conserving(Evicted(s, ws, why, close), dirty)
  {
    assert NoNewWaits(s, Evicted(s, ws, why, close));
    StaysConserving(s, Evicted(s, ws, why, close), dirty);
  }

  lemma DeleteConserves(s: State, p: string, dirty: iset<WorkerId>)
    requires Conserving(s, dirty)
    ensures Conserving(ProviderDeletedFrom(s, p), dirty)
  {
    var u := QueueCleared(s, p);
    assert NoNewWaits(s, u);
    StaysConserving(s, u, dirty);
    EvictConserves(u, WorkersOf(s, p), ProviderDeleted, Completed, dirty);
  }

  lemma ShutdownConserves(s: State, notice: Option<string>, timeout: nat, now: nat, dirty: iset<WorkerId>)
    requires Conserving(s, dirty)
    ensures Conserving(ShutdownBegun(s, notice, timeout, now), dirty)
  {
    assert NoNewWaits(s, ShutdownBegun(s, notice, timeout, now));
    StaysConserving(s, ShutdownBegun(s, notice, timeout, now), dirty);
  }

  lemma RemoveConserves(s: State, w: WorkerId, close: Option<CloseReason>, dirty: iset<WorkerId>)
    requires Conserving(s, dirty)
    ensures Conserving(RemoveWorker(s, w, close), dirty)
  {
    assert NoNewWaits(s, RemoveWorker(s, w, close));
    StaysConserving(s, RemoveWorker(s, w, close), dirty);
  }

  lemma CancellingConserves(s: State, op: Op, t: State, dirty: iset<WorkerId>)
    requires QueuesOnce(s) && Conserving(s, dirty) && Step(s, op, t) && (op.CancelRequest? || op.DisconnectIfDrained?)
    ensures Conserving(t, dirty)
  {
    if op.CancelRequest? {
      var out :| Cancels(s, op.id, op.reason, out, t);
      CancelConserves(s, op.id, op.reason, out, t, dirty);
    } else {
      RemoveConserves(s, op.w, Some(Completed), dirty);
    }
  }

  lemma ShuttingConserves(s: State, op: Op, t: State, dirty: iset<WorkerId>)
    requires Conserving(s, dirty) && Step(s, op, t) && (op.BeginShutdown? || op.ExpireShutdown?)
    ensures Conserving(t, dirty)
  {
    if op.BeginShutdown? {
      ShutdownConserves(s, op.notice, op.timeout, op.now, dirty);
    } else {
      EvictConserves(s, Overdue(s, op.now), GracefulShutdownTimedOut, TimedOut, dirty);
    }
  }

  lemma SweepConserves(s: State, op: Op, t: State, dirty: iset<WorkerId>)
    requires Conserving(s, dirty) && Step(s, op, t)
    requires op.BeginShutdown? || op.ExpireShutdown? || op.ExpireQueues? || op.DeleteProvider?
    ensures Conserving(t, dirty)
  {
    if op.BeginShutdown? || op.ExpireShutdown? {
      ShuttingConserves(s, op, t, dirty);
    } else if op.ExpireQueues? {
      ExpireConserves(s, op.now, dirty);
    } else {
      DeleteConserves(s, op.provider, dirty);
    }
  }

  lemma QuietSameWork(s: State, op: Op, t: State)
    requires Step(s, op, t)
    requires op.Configure? || op.StreamChunk? || op.TakeRequests? || op.TakeCancelSignals?
          || op.TakeShutdownSignals? || op.TakeCloseReason?
    ensures t.workers == s.workers && t.queues == s.queues
  {
    if op.Configure? || op.StreamChunk? {
      SettingSameWork(s, op, t);
    } else {
      CollectingSameWork(s, op, t);
    }
  }

  lemma SettingSameWork(s: State, op: Op, t: State)
    requires Step(s, op, t) && (op.Configure? || op.StreamChunk?)
    ensures t.workers == s.workers && t.queues == s.queues
  {
    if op.StreamChunk? {
      ChunkSameWork(s, op.w, op.id, op.data);
    }
  }

  lemma CollectingSameWork(s: State, op: Op, t: State)
    requires Step(s, op, t)
    requires op.TakeRequests? || op.TakeCancelSignals? || op.TakeShutdownSignals? || op.TakeCloseReason?
    ensures t.workers == s.workers && t.queues == s.queues
  {
    match op
    case TakeRequests(w) => assert t == s.(outbox := s.outbox - {w});
    case TakeCancelSignals(w) => CancelsSameWork(s, w, t);
    case TakeShutdownSignals(w) => ShutdownsSameWork(s, w, t);
    case TakeCloseReason(w) => assert t == s.(closeReasons := s.closeReasons - {w});
  }

  lemma CancelsSameWork(s: State, w: WorkerId, t: State)
    requires Step(s, TakeCancelSignals(w), t)
    ensures t.workers == s.workers && t.queues == s.queues
  {}

  lemma ShutdownsSameWork(s: State, w: WorkerId, t: State)
    requires Step(s, TakeShutdownSignals(w), t)
    ensures t.workers == s.workers && t.queues == s.queues
  {}

  lemma ChunkSameWork(s: State, w: WorkerId, id: RequestId, data: Bytes)
    ensures Chunked(s, w, id, data).workers == s.workers && Chunked(s, w, id, data).queues == s.queues
  {}

  lemma QuietConserves(s: State, op: Op, t: State, dirty: iset<WorkerId>)
    requires Conserving(s, dirty) && Step(s, op, t)
    requires op.Configure? || op.StreamChunk? || op.TakeRequests? || op.TakeCancelSignals?
          || op.TakeShutdownSignals? || op.TakeCloseReason?
    ensures Conserving(t, dirty)
  {
    QuietSameWork(s, op, t);
    SameWork(s, t, dirty);
  }

  lemma FinishingConserves(s: State, op: Op, t: State, dirty: iset<WorkerId>)
    requires Inv(s) && Conserving(s, dirty) && Step(s, op, t) && (op.FinishRequest? || op.CompleteResponse?)
    ensures Conserving(t, dirty)
  {
    if op.FinishRequest? {
      var got :| Finishes(s, op.w, op.id, got, t);
      FinishConserves(s, op.w, op.id, got, t, dirty);
    } else {
      CompleteConserves(s, op.w, op.id, op.body, t, dirty);
    }
  }

  /** Operations after which nobody idles beside more work than before. */
  predicate Calm(op: Op) {
    !(op.UpdateModels? || op.Pong? || op.Submit? || op.Register? || op.Disconnect?)
  }

  lemma CalmConserves(s: State, op: Op, t: State, dirty: iset<WorkerId>)
    requires Inv(s) && Conserving(s, dirty) && Step(s, op, t) && Calm(op)
    ensures Conserving(t, dirty)
  {
    if op.FinishRequest? || op.CompleteResponse? {
      FinishingConserves(s, op, t, dirty);
    } else if op.CancelRequest? || op.DisconnectIfDrained? {
      CancellingConserves(s, op, t, dirty);
    } else if op.BeginShutdown? || op.ExpireShutdown? || op.ExpireQueues? || op.DeleteProvider? {
      SweepConserves(s, op, t, dirty);
    } else {
      QuietConserves(s, op, t, dirty);
    }
  }

  lemma StirringConserves(s: State, op: Op, t: State, dirty: iset<WorkerId>)
    requires Inv(s) && Conserving(s, dirty) && Step(s, op, t) && (op.Submit? || op.Register? || op.Disconnect?)
    ensures Conserving(t, dirty + DirtOf(s, op, t))
  {
    if op.Submit? {
      SubmitConserves(s, op.x, t, dirty);
    } else if op.Register? {
      RegisterConserves(s, NewWorker(op.provider, op.models, op.prefixes, op.max, op.load), dirty);
    } else {
      DisconnectConserves(s, op.w, dirty);
    }
  }

  lemma NoDirt(s: State, op: Op, t: State, dirty: iset<WorkerId>)
    ensures Calm(op) ==> dirty - Cleaned(op) + DirtOf(s, op, t) == dirty
    ensures op.UpdateModels? || op.Pong? ==> dirty - Cleaned(op) + DirtOf(s, op, t) == dirty - Cleaned(op)
    ensures op.Submit? || op.Register? || op.Disconnect? ==>
      dirty - Cleaned(op) + DirtOf(s, op, t) == dirty + DirtOf(s, op, t)
  {}

  /** Only a registration, a requeueing disconnect, or queueing a request whose routing
      forbids fallbacks leaves anyone idling beside work; a worker's report puts it right. */
  lemma StepConserves(s: State, op: Op, t: State, dirty: iset<WorkerId>)
    requires Inv(s) && Conserving(s, dirty) && Step(s, op, t)
    ensures Conserving(t, dirty - Cleaned(op) + DirtOf(s, op, t))
  {
    NoDirt(s, op, t, dirty);
    if op.UpdateModels? || op.Pong? {
      ReportConserves(s, op, t, dirty);
    } else if Calm(op) {
      CalmConserves(s, op, t, dirty);
    } else {
      StirringConserves(s, op, t, dirty);
    }
  }
}
