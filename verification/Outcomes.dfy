/** How requests end and what their clients and workers are told of it. */
module Outcomes {
  import opened Seqs
  import opened RelayState
  import opened Moves
  import opened Index
  import opened Spec
  import opened Traces
  import opened Executions
  import opened WorkerSocket
  import opened PlainTerms

  // ---- cancelling what runs ----

  /** The first cancel of a running request marks it, and raises and returns the signal that
      carries its reason; nothing else changes. */
  lemma FirstCancel(s: State, id: RequestId, reason: CancelReason, out: Option<CancelOutcome>, t: State)
    requires Cancels(s, id, reason, out, t) && id in s.active && s.active[id].InFlight?
    requires s.active[id].cancellation == None
    ensures var signal := CancelSignal(s.active[id].worker, id, reason);
      out == Some(Signalled(signal)) && t.cancelSignals == s.cancelSignals + [signal]
    ensures t.active == s.active[id := InFlight(s.active[id].request, s.active[id].worker, Some(reason))]
    ensures t == s.(active := t.active, cancelSignals := t.cancelSignals, history := t.history)
  {}

  /** Step i is the first cancel of a request that runs. */
  ghost predicate CancelsFirst(e: Execution, i: nat, id: RequestId)
    requires e.Valid()
  {
    i < |e.ops| && e.ops[i].CancelRequest? && e.ops[i].id == id && id in e.states[i].active
    && e.states[i].active[id].InFlight? && e.states[i].active[id].cancellation == None
  }

  lemma MarkStands(e: Execution, i: nat, k: nat, id: RequestId)
    requires e.Valid() && CancelsFirst(e, i, id) && i < k < |e.states| && id in e.states[k].active
    ensures e.states[k].active[id] ==
      InFlight(e.states[i].active[id].request, e.states[i].active[id].worker, Some(e.ops[i].reason))
  {
    assert e.StepAt(i);
    var out :| Cancels(e.states[i], id, e.ops[i].reason, out, e.states[i + 1]);
    FirstCancel(e.states[i], id, e.ops[i].reason, out, e.states[i + 1]);
    FirstReasonStands(e, i + 1, k);
  }

  /** A later cancel of the same request is answered with the first one's reason, whatever
      its own is, and changes nothing. */
  lemma LaterCancelRepeatsTheFirst(e: Execution, i: nat, k: nat, id: RequestId, reason: CancelReason,
                                   out: Option<CancelOutcome>, t: State)
    requires e.Valid() && CancelsFirst(e, i, id) && i < k < |e.states| && id in e.states[k].active
    requires Cancels(e.states[k], id, reason, out, t)
    ensures out == Some(Signalled(CancelSignal(e.states[i].active[id].worker, id, e.ops[i].reason)))
    ensures t == e.states[k]
  {
    MarkStands(e, i, k, id);
  }

  // ---- cancelling what waits ----

  lemma DroppedIs(s: State, p: string, i: nat)
    requires p in s.queues && i < |s.queues[p]|
    ensures var id := s.queues[p][i].id;
      Dropped(s, p, i, None) == s.(queues := s.queues[p := s.queues[p][..i] + s.queues[p][i + 1..]],
                                   active := s.active - {id}, senders := s.senders - {id})
  {}

  /** Cancelling a request that waits at home takes out its one record, its index entry and
      its client's sender, says nothing to the client, and touches nothing else. */
  lemma WaitingCancel(s: State, id: RequestId, reason: CancelReason, t: State) returns (i: nat)
    requires Inv(s) && Cancels(s, id, reason, Some(Removed(id)), t) && id in s.active && s.active[id].Queued?
    ensures var p := s.active[id].request.provider;
      p in s.queues && i < |s.queues[p]| && s.queues[p][i].id == id
      && t.queues == s.queues[p := s.queues[p][..i] + s.queues[p][i + 1..]]
    ensures t == s.(queues := t.queues, active := s.active - {id}, senders := s.senders - {id})
  {
    assert s.active[id].request.id == id;
    i :| AtHome(s, s.active[id].request, i) && t == Dropped(s, s.active[id].request.provider, i, None);
    DroppedIs(s, s.active[id].request.provider, i);
  }

  // ---- what signals say ----

  lemma MoveRaises(s: State, m: Move)
    requires Enabled(s, m) && !m.Mark?
    ensures Apply(s, m).history.raised == s.history.raised
  {
    if m.FailRunning? || m.Drop? {
      EndingTouches(s, m);
    }
  }

  lemma {:induction false} RunRaises(s: State, ms: seq<Move>, t: State)
    requires Runs(s, ms, t) && forall m :: m in ms ==> !m.Mark?
    ensures t.history.raised == s.history.raised
    decreases |ms|
  {
    if ms != [] {
      assert ms[0] in ms;
      MoveRaises(s, ms[0]);
      assert forall m :: m in ms[1..] ==> m in ms;
      RunRaises(Apply(s, ms[0]), ms[1..], t);
    }
  }

  lemma MarksNothing(op: Op, ms: seq<Move>)
    requires AllBelong(op, ms) && !op.CancelRequest?
    ensures forall m :: m in ms ==> !m.Mark?
  {}

  lemma DropRaises(s: State, p: string, i: nat)
    requires p in s.queues && i < |s.queues[p]|
    ensures Dropped(s, p, i, None).history == s.history
  {}

  lemma OtherCancelsRaiseNothing(s: State, id: RequestId, reason: CancelReason, out: Option<CancelOutcome>, t: State)
    requires Cancels(s, id, reason, out, t)
    ensures !(id in s.active && s.active[id].InFlight? && s.active[id].cancellation == None) ==> t.history == s.history
  {
    if id in s.active && s.active[id].Queued? && exists i: nat :: AtHome(s, s.active[id].request, i) {
      var i: nat :| AtHome(s, s.active[id].request, i) && t == Dropped(s, s.active[id].request.provider, i, None);
      DropRaises(s, s.active[id].request.provider, i);
    }
  }

  lemma CancelRaises(s: State, id: RequestId, reason: CancelReason, out: Option<CancelOutcome>, t: State,
                     x: CancelSignal)
    requires Cancels(s, id, reason, out, t) && x in t.history.raised && x !in s.history.raised
    ensures id in s.active && s.active[id].InFlight? && s.active[id].cancellation == None
    ensures x == CancelSignal(s.active[id].worker, id, reason)
  {
    OtherCancelsRaiseNothing(s, id, reason, out, t);
  }

  /** Step j is the cancel that the signal x speaks of, of a request that its worker runs. */
  ghost predicate Explains(e: Execution, j: nat, x: CancelSignal)
    requires e.Valid()
  {
    CancelsFirst(e, j, x.id) && e.states[j].active[x.id].worker == x.worker && e.ops[j].reason == x.reason
  }

  lemma RaisedHere(e: Execution, k: nat, x: CancelSignal)
    requires e.Valid() && k < |e.ops| && x in e.states[k + 1].history.raised && x !in e.states[k].history.raised
    ensures Explains(e, k, x)
  {
    if e.ops[k].CancelRequest? {
      assert e.StepAt(k);
      var out :| Cancels(e.states[k], e.ops[k].id, e.ops[k].reason, out, e.states[k + 1]);
      CancelRaises(e.states[k], e.ops[k].id, e.ops[k].reason, out, e.states[k + 1], x);
    } else {
      var ms := StepAsRun(e, k);
      MarksNothing(e.ops[k], ms);
      RunRaises(e.states[k], ms, e.states[k + 1]);
    }
  }

  lemma {:induction false} EverySignalExplained(e: Execution, k: nat, x: CancelSignal) returns (j: nat)
    requires e.Valid() && k < |e.states| && x in e.states[k].history.raised
    ensures j < k && Explains(e, j, x)
    decreases k
  {
    if k != 0 {
      if x in e.states[k - 1].history.raised {
        j := EverySignalExplained(e, k - 1, x);
      } else {
        RaisedHere(e, k - 1, x);
        j := k - 1;
      }
    }
  }

  /** Every cancel signal that a worker's socket collects is its own, of a request it runs,
      and says why the client's first cancel was made. */
  lemma CollectedSignalsAreTrue(e: Execution, k: nat, w: WorkerId, x: CancelSignal) returns (j: nat)
    requires e.Valid() && k < |e.states| && x in DueCancels(e.states[k], w)
    ensures j < k && Explains(e, j, x) && x.worker == w
    ensures x.id in e.states[k].active && e.states[k].active[x.id].InFlight? && e.states[k].active[x.id].worker == w
  {
    FilterMembers(e.states[k].cancelSignals, PendingOn(e.states[k], w));
    AlwaysSignalledOnce(e, k);
    j := EverySignalExplained(e, k, x);
  }

  // ---- replies that fail ----

  /** The request waits in a queue whose policy's timeout it has reached. */
  ghost predicate Overstays(s: State, id: RequestId, now: nat) {
    exists p, r :: p in s.queues && r in s.queues[p] && r.id == id && p in s.policies
      && Due(s.policies[p], r.queuedAt, now)
  }

  ghost predicate WaitsAt(s: State, p: string, id: RequestId) {
    p in s.queues && exists r :: r in s.queues[p] && r.id == id
  }

  ghost predicate RunsOnOf(s: State, id: RequestId, which: Worker -> bool) {
    id in s.active && s.active[id].InFlight? && s.active[id].worker in s.workers
    && which(s.workers[s.active[id].worker])
  }

  function DueBy(now: nat): Worker -> bool {
    (worker: Worker) => worker.deadline.Some? && worker.deadline.value <= now
  }

  function OfProvider(p: string): Worker -> bool { (worker: Worker) => worker.provider == p }

  /** Operations that can fail requests. */
  predicate Fails(op: Op) { op.ExpireShutdown? || op.ExpireQueues? || op.DeleteProvider? || op.Disconnect? }

  /** The reason an operation fails the request for, if it does. */
  ghost function FailsFor(s: State, op: Op, id: RequestId): Option<FailureReason> {
    match op
    case ExpireShutdown(now) => if RunsOnOf(s, id, DueBy(now)) then Some(GracefulShutdownTimedOut) else None
    case ExpireQueues(now) => if Overstays(s, id, now) then Some(QueueTimedOut) else None
    case DeleteProvider(p) =>
      if WaitsAt(s, p, id) || RunsOnOf(s, id, OfProvider(p)) then Some(ProviderDeleted) else None
    case Disconnect(w) =>
      if id in s.active && s.active[id].InFlight? && s.active[id].worker == w then
        if s.active[id].cancellation.Some? then Some(RequestAlreadyCanceled)
        else if s.active[id].request.requeues >= 3 then Some(MaxRequeuesExceeded)
        else None
      else None
    case _ => None
  }

  /** The request is over and its client, if it still waits for the reply, has been told why. */
  ghost predicate FailedBecause(s: State, id: RequestId, why: FailureReason, t: State) {
    id !in t.active && id !in t.senders
    && t.Replies(id) == s.Replies(id) + if id in s.senders then [Failure(why)] else []
  }

  ghost predicate ReplyUntouched(s: State, id: RequestId, t: State) {
    (id in t.senders <==> id in s.senders) && t.Replies(id) == s.Replies(id)
  }

  /** What is left of a request that does not fail: all as it was, or put back once more. */
  ghost predicate GoesOn(s: State, op: Op, id: RequestId, t: State) {
    ReplyUntouched(s, id, t)
    && if op.Disconnect? && id in s.active && s.active[id].InFlight? && s.active[id].worker == op.w
       then id in t.active
            && t.active[id] == Queued(s.active[id].request.(requeues := s.active[id].request.requeues + 1))
       else (id in t.active <==> id in s.active) && (id in s.active ==> t.active[id] == s.active[id])
  }

  ghost predicate EndsRightly(s: State, op: Op, id: RequestId, t: State) {
    match FailsFor(s, op, id)
    case Some(why) => FailedBecause(s, id, why, t)
    case None => GoesOn(s, op, id, t)
  }

  lemma FailRepliesIs(s: State, why: map<RequestId, FailureReason>, id: RequestId)
    ensures var t := FailReplies(s, why);
      (id in t.senders <==> id in s.senders && id !in why)
      && t.Replies(id) == s.Replies(id) + if id in why && id in s.senders then [Failure(why[id])] else []
  {
    if !(id in why && id in s.senders) {
      assert s.Replies(id) + [] == s.Replies(id);
    }
  }

  lemma EvictedIs(s: State, ws: set<WorkerId>, why: FailureReason, close: CloseReason, id: RequestId)
    ensures var t := Evicted(s, ws, why, close);
      if id in s.active && s.active[id].InFlight? && s.active[id].worker in ws then FailedBecause(s, id, why, t)
      else ReplyUntouched(s, id, t) && (id in t.active <==> id in s.active)
           && (id in s.active ==> t.active[id] == s.active[id])
  {
    var ids := RunningOn(s, ws);
    FailRepliesIs(s.(active := s.active - ids), AllFor(ids, why), id);
    assert s.Replies(id) + [] == s.Replies(id);
  }

  /** Where a running request runs. */
  ghost predicate Hosted(s: State, id: RequestId) {
    id in s.active && s.active[id].InFlight? ==>
      s.active[id].worker in s.workers && id in s.workers[s.active[id].worker].inFlight
  }

  lemma AlwaysHosted(s: State, id: RequestId)
    requires Inv(s)
    ensures Hosted(s, id)
    ensures forall w :: w in s.workers && id in s.workers[w].inFlight ==>
      id in s.active && s.active[id].InFlight? && s.active[id].worker == w
  {
    if id in s.active && s.active[id].InFlight? {
      assert Running(s)(s.active[id].worker, id);
    }
    forall w | w in s.workers && id in s.workers[w].inFlight
      ensures id in s.active && s.active[id].InFlight? && s.active[id].worker == w
    {
      assert Running(s)(w, id);
    }
  }

  lemma ExpiryEndsRightly(s: State, now: nat, id: RequestId)
    requires Hosted(s, id)
    ensures EndsRightly(s, ExpireShutdown(now), id, Evicted(s, Overdue(s, now), GracefulShutdownTimedOut, TimedOut))
  {
    EvictedIs(s, Overdue(s, now), GracefulShutdownTimedOut, TimedOut, id);
  }

  lemma ClearedIs(s: State, p: string, id: RequestId)
    requires Inv(s)
    ensures var t := QueueCleared(s, p);
      if WaitsAt(s, p, id) then FailedBecause(s, id, ProviderDeleted, t)
      else ReplyUntouched(s, id, t) && (id in t.active <==> id in s.active)
           && (id in s.active ==> t.active[id] == s.active[id])
  {
    var ids := IdsOf(s.Queue(p));
    FailRepliesIs(s.(active := s.active - ids, queues := s.queues - {p}), AllFor(ids, ProviderDeleted), id);
    assert s.Replies(id) + [] == s.Replies(id);
  }

  lemma WaitingRunsNowhere(s: State, p: string, id: RequestId)
    requires Inv(s) && WaitsAt(s, p, id)
    ensures id in s.active && s.active[id].Queued?
  {
    var r :| r in s.queues[p] && r.id == id;
    assert Waits(s)(p, r);
  }

  lemma DeletionEndsRightly(s: State, p: string, id: RequestId)
    requires Inv(s)
    ensures EndsRightly(s, DeleteProvider(p), id, ProviderDeletedFrom(s, p))
  {
    AlwaysHosted(s, id);
    ClearedIs(s, p, id);
    if WaitsAt(s, p, id) {
      WaitingRunsNowhere(s, p, id);
    }
    DeletionIs(s, p, id);
  }

  lemma DeletionIs(s: State, p: string, id: RequestId)
    requires Hosted(s, id) && (WaitsAt(s, p, id) ==> id in s.active && s.active[id].Queued?)
    requires var u := QueueCleared(s, p);
      if WaitsAt(s, p, id) then FailedBecause(s, id, ProviderDeleted, u)
      else ReplyUntouched(s, id, u) && (id in u.active <==> id in s.active)
           && (id in s.active ==> u.active[id] == s.active[id])
    ensures EndsRightly(s, DeleteProvider(p), id, ProviderDeletedFrom(s, p))
  {
    var u := QueueCleared(s, p);
    EvictedIs(u, WorkersOf(u, p), ProviderDeleted, Completed, id);
  }

  lemma SweptIs(s: State, now: nat, id: RequestId)
    ensures var t := QueuesExpired(s, now);
      if id in ExpiredIds(s, now) then FailedBecause(s, id, QueueTimedOut, t)
      else ReplyUntouched(s, id, t) && (id in t.active <==> id in s.active)
           && (id in s.active ==> t.active[id] == s.active[id])
  {
    var ids := ExpiredIds(s, now);
    FailRepliesIs(s.(active := s.active - ids, queues := KeptQueues(s.queues, s.policies, now)),
                  AllFor(ids, QueueTimedOut), id);
    assert s.Replies(id) + [] == s.Replies(id);
  }

  lemma SweepEndsRightly(s: State, now: nat, id: RequestId)
    ensures EndsRightly(s, ExpireQueues(now), id, QueuesExpired(s, now))
  {
    OverstaysIs(s, id, now);
    SweptIs(s, now, id);
  }

  lemma OverstaysIs(s: State, id: RequestId, now: nat)
    ensures Overstays(s, id, now) <==> id in ExpiredIds(s, now)
  {
    if Overstays(s, id, now) {
      var p, r :| p in s.queues && r in s.queues[p] && r.id == id && p in s.policies
        && Due(s.policies[p], r.queuedAt, now);
      assert Expired(s.PolicyOf(p), r, now);
    }
    if id in ExpiredIds(s, now) {
      var p, r :| p in s.queues && r in s.queues[p] && Expired(s.PolicyOf(p), r, now) && r.id == id;
    }
  }

  lemma LossReply(s: State, w: WorkerId, id: RequestId)
    requires w in s.workers
    ensures var why := LostReasons(s.active, s.workers[w].inFlight);
      var t := Disconnected(s, w);
      (id in t.senders <==> id in s.senders && id !in why)
      && t.Replies(id) == s.Replies(id) + if id in why && id in s.senders then [Failure(why[id])] else []
  {
    var l := s.workers[w].inFlight;
    FailRepliesIs(s.(active := LostIndex(s.active, l),
                     queues := PutBack(s.queues, s.workers[w].provider, RequeuedRecords(s.active, l))),
                  LostReasons(s.active, l), id);
  }

  lemma LossEntry(s: State, w: WorkerId, id: RequestId)
    requires w in s.workers
    ensures Disconnected(s, w).active == LostIndex(s.active, s.workers[w].inFlight)
  {}

  /** What a loss makes of one of the lost worker's entries. */
  lemma LossOfOne(active: map<RequestId, Active>, l: seq<RequestId>, id: RequestId)
    requires id in l && id in active && active[id].InFlight?
    ensures var stays := active[id].cancellation == None && active[id].request.requeues < 3;
      (stays ==> id !in LostReasons(active, l) && id in LostIndex(active, l)
                 && LostIndex(active, l)[id] == Queued(Bumped(active[id].request)))
      && (!stays ==> id !in LostIndex(active, l) && id in LostReasons(active, l)
                     && LostReasons(active, l)[id]
                        == if active[id].cancellation.Some? then RequestAlreadyCanceled else MaxRequeuesExceeded)
  {}

  lemma LossOfNone(active: map<RequestId, Active>, l: seq<RequestId>, id: RequestId)
    requires id !in l
    ensures id !in LostReasons(active, l) && (id in LostIndex(active, l) <==> id in active)
    ensures id in active ==> LostIndex(active, l)[id] == active[id]
  {}

  lemma LossEndsRightly(s: State, w: WorkerId, id: RequestId)
    requires Hosted(s, id)
    requires w in s.workers && id in s.workers[w].inFlight ==>
      id in s.active && s.active[id].InFlight? && s.active[id].worker == w
    ensures EndsRightly(s, Disconnect(w), id, Disconnected(s, w))
  {
    assert s.Replies(id) + [] == s.Replies(id);
    if w in s.workers {
      LossReply(s, w, id);
      LossEntry(s, w, id);
      if id in s.workers[w].inFlight {
        LossOfOne(s.active, s.workers[w].inFlight, id);
      } else {
        LossOfNone(s.active, s.workers[w].inFlight, id);
      }
    }
  }

  function EndState(s: State, op: Op): State
    requires Fails(op)
  {
    match op
    case ExpireShutdown(now) => Evicted(s, Overdue(s, now), GracefulShutdownTimedOut, TimedOut)
    case ExpireQueues(now) => QueuesExpired(s, now)
    case DeleteProvider(p) => ProviderDeletedFrom(s, p)
    case Disconnect(w) => Disconnected(s, w)
  }

  lemma EndingIs(s: State, op: Op, t: State)
    requires Step(s, op, t) && Fails(op)
    ensures t == EndState(s, op)
  {}

  lemma EndingIsRight(s: State, op: Op, id: RequestId)
    requires Inv(s) && Fails(op)
    ensures EndsRightly(s, op, id, EndState(s, op))
  {
    AlwaysHosted(s, id);
    match op
    case ExpireShutdown(now) => ExpiryEndsRightly(s, now, id);
    case ExpireQueues(now) => SweepEndsRightly(s, now, id);
    case DeleteProvider(p) => DeletionEndsRightly(s, p, id);
    case Disconnect(w) => LossEndsRightly(s, w, id);
  }

  /** Whenever a deadline, a timeout, a deletion or a lost connection strikes, every request
      it ends is gone from the index, and its client, if still waiting, is told exactly why;
      a request put back goes on with one more requeue, and nothing happens to any other. */
  lemma EveryEndingIsRight(e: Execution, k: nat, id: RequestId)
    requires e.Valid() && k < |e.ops| && Fails(e.ops[k])
    ensures EndsRightly(e.states[k], e.ops[k], id, e.states[k + 1])
  {
    AlwaysSound(e, k);
    assert e.StepAt(k);
    EndingIs(e.states[k], e.ops[k], e.states[k + 1]);
    EndingIsRight(e.states[k], e.ops[k], id);
  }

  /** Deleting a provider takes away its queue and exactly its workers, and touches no other
      queue and no other worker. */
  lemma DeletionClears(s: State, p: string, t: State)
    requires Step(s, DeleteProvider(p), t)
    ensures t.queues == s.queues - {p}
    ensures forall w :: w in t.workers <==> w in s.workers && s.workers[w].provider != p
    ensures forall w :: w in t.workers ==> t.workers[w] == s.workers[w]
  {}

  /** A poll for an idle drained worker removes that worker if it is one, and nobody else. */
  lemma IdleDrainedLeaves(s: State, w: WorkerId, t: State)
    requires Step(s, DisconnectIfDrained(w), t) && w in s.workers
    ensures w !in t.workers <==> s.workers[w].deadline.Some? && |s.workers[w].inFlight| == 0
    ensures t.workers.Keys == s.workers.Keys || t.workers.Keys == s.workers.Keys - {w}
    ensures forall v :: v in t.workers ==> t.workers[v] == s.workers[v]
  {}

  /** A chunk reaches a client that waits for a stream, from the worker that runs the request,
      and nothing else is changed by it. */
  lemma ChunkIsForwarded(s: State, w: WorkerId, id: RequestId, data: Bytes, t: State, other: RequestId)
    requires Step(s, StreamChunk(w, id, data), t)
    ensures t.Replies(id) == s.Replies(id) +
      if id in s.active && s.active[id].InFlight? && s.active[id].worker == w && id in s.senders
         && s.senders[id] == Streaming
      then [Chunk(data)] else []
    ensures t == s.(replies := t.replies) && (other != id ==> t.Replies(other) == s.Replies(other))
  {
    ChunkedReplies(s, w, id, data, other);
  }

  lemma ChunkedReplies(s: State, w: WorkerId, id: RequestId, data: Bytes, other: RequestId)
    ensures var t := Chunked(s, w, id, data);
      var goes := Owns(s, w, id) && id in s.senders && s.senders[id] == Streaming;
      t.Replies(id) == s.Replies(id) + (if goes then [Chunk(data)] else [])
      && t == s.(replies := t.replies) && (other != id ==> t.Replies(other) == s.Replies(other))
  {
    assert s.Replies(id) + [] == s.Replies(id);
  }

  // ---- replies that complete ----

  lemma PullLeavesReplies(s: State, w: WorkerId, id: RequestId, t: State)
    requires PullsOne(s, w, id, t)
    ensures t.replies == s.replies && t.senders == s.senders
  {}

  lemma FinishLeavesReplies(s: State, w: WorkerId, id: RequestId, got: Option<RequestId>, t: State)
    requires Finishes(s, w, id, got, t)
    ensures t.replies == s.replies && t.senders == s.senders
  {
    if got.Some? {
      PullLeavesReplies(Moves.Finished(s, w, id), w, got.value, t);
    }
  }

  lemma CompletingAnswers(s: State, w: WorkerId, id: RequestId, body: Bytes, ok: bool, t: State, other: RequestId)
    requires Completes(s, w, id, body, ok, t)
    ensures t.Replies(id) == s.Replies(id) + if id in s.senders then [Complete(body)] else []
    ensures id !in t.senders && (other != id ==> ReplyUntouched(s, other, t))
  {
    assert s.Replies(id) + [] == s.Replies(id);
    if id in s.senders {
      var u := Closed(s, id, body);
      var got :| Finishes(u, w, id, got, t) && ok == (got.Some? || id !in t.active);
      FinishLeavesReplies(u, w, id, got, t);
    }
  }

  /** A completion gives the client that still waits the whole body as the last thing it
      gets, and touches nobody else's reply. */
  lemma CompletionAnswersItsClient(s: State, w: WorkerId, id: RequestId, body: Bytes, t: State, other: RequestId)
    requires Step(s, CompleteResponse(w, id, body), t)
    ensures t.Replies(id) == s.Replies(id) + if id in s.senders then [Complete(body)] else []
    ensures id !in t.senders && (other != id ==> ReplyUntouched(s, other, t))
  {
    CompletingAnswers(s, w, id, body, Completes(s, w, id, body, true, t), t, other);
  }

  lemma RetryLeavesReplies(s: State, w: WorkerId, id: RequestId, ok: bool, t: State)
    requires Retries(s, w, id, ok, t)
    ensures t.replies == s.replies && t.senders == s.senders
  {
    var got :| Finishes(s, w, id, got, t) && ok == (got.Some? || id !in t.active);
    FinishLeavesReplies(s, w, id, got, t);
  }

  lemma ResponseAnswers(s: State, w: WorkerId, id: RequestId, body: Bytes, ok: bool, t: State)
    requires WorkerSocket.Responds(s, w, id, body, ok, t)
    ensures t.Replies(id) == s.Replies(id) + (if id in s.senders then [Complete(body)] else []) && id !in t.senders
  {
    if ok && Completes(s, w, id, body, true, t) {
      CompletingAnswers(s, w, id, body, true, t, id);
    } else {
      var mid :| Completes(s, w, id, body, false, mid) && Retries(mid, w, id, ok, t);
      CompletingAnswers(s, w, id, body, false, mid, id);
      RetryLeavesReplies(mid, w, id, ok, t);
    }
  }

  /** And so does a completion that arrives at the socket, whether or not it is accepted. */
  lemma FrameAnswersItsClient(s: State, w: WorkerId, id: RequestId, body: Bytes, ok: bool, t: State)
    requires Handles(s, w, ResponseComplete(id, body), ok, t)
    ensures t.Replies(id) == s.Replies(id) + (if id in s.senders then [Complete(body)] else []) && id !in t.senders
  {
    ResponseAnswers(s, w, id, body, ok, t);
  }
}
