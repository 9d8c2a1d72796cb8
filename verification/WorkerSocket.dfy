/** What a worker's socket makes of the frames it receives and of its polls for closing. */
module WorkerSocket {
  import opened Seqs
  import opened RelayState
  import opened Moves
  import opened Index
  import opened Spec
  import opened Core
  import Loops

  // ---- frames ----

  datatype Frame =
    | ModelsUpdate(models: seq<string>, current: u32)
    | PongFrame(current: u32)
    | ResponseChunk(id: RequestId, data: Bytes)
    | ResponseComplete(id: RequestId, body: Bytes)
    | Other

  ghost predicate IsRunning(s: State, w: WorkerId, id: RequestId) {
    w in s.workers && id in s.workers[w].inFlight
  }

  /** Without a reply to complete, the request is finished on its own. */
  ghost predicate Retries(s: State, w: WorkerId, id: RequestId, ok: bool, t: State) {
    exists got :: Finishes(s, w, id, got, t) && ok == (got.Some? || id !in t.active)
  }

  /** A completed response: the reply first, then the request, then whether anything is left. */
  ghost predicate Responds(s: State, w: WorkerId, id: RequestId, body: Bytes, ok: bool, t: State) {
    (ok && Completes(s, w, id, body, true, t))
    || exists mid :: Completes(s, w, id, body, false, mid) && Retries(mid, w, id, ok, t)
  }

  /** A frame that is not accepted is a protocol error: the socket closes. */
  ghost predicate Handles(s: State, w: WorkerId, frame: Frame, ok: bool, t: State) {
    match frame
    case ModelsUpdate(models, current) => ok == (w in s.workers) && exists got :: Retunes(s, w, models, current, got, t)
    case PongFrame(current) => ok == (w in s.workers) && exists got :: Pongs(s, w, current, got, t)
    case ResponseChunk(id, data) => ok == Owns(s, w, id) && t == Chunked(s, w, id, data)
    case ResponseComplete(id, body) => Responds(s, w, id, body, ok, t)
    case Other => !ok && t == s
  }

  method HandleResponseComplete(core: ProxyServerCore, w: WorkerId, id: RequestId, body: Bytes) returns (ok: bool)
    requires core.Valid()
    modifies core
    ensures Responds(old(core.View()), w, id, body, ok, core.View()) && core.Valid()
  {
    ok := core.CompleteHttpResponse(w, id, body);
    if !ok {
      ghost var mid := core.View();
      var got := core.FinishRequest(w, id);
      ok := got.Some? || id !in core.activeRequests;
      assert Retries(mid, w, id, ok, core.View());
    }
  }

  method HandleWorkerMessage(core: ProxyServerCore, w: WorkerId, frame: Frame) returns (ok: bool)
    requires core.Valid()
    modifies core
    ensures Handles(old(core.View()), w, frame, ok, core.View()) && core.Valid()
  {
    match frame
    case ModelsUpdate(models, current) =>
      ok := w in core.workers;
      if ok {
        var got := core.UpdateWorkerModels(w, models, current);
      } else {
        assert Retunes(core.View(), w, models, current, [], core.View());
      }
    case PongFrame(current) =>
      ok := w in core.workers;
      if ok {
        var got := core.RecordWorkerPong(w, current);
      } else {
        assert Pongs(core.View(), w, current, [], core.View());
      }
    case ResponseChunk(id, data) => ok := core.StreamHttpResponseChunk(w, id, data);
    case ResponseComplete(id, body) => ok := HandleResponseComplete(core, w, id, body);
    case Other => ok := false;
  }

  // ---- which frames are protocol errors ----

  lemma OwnsIsRunning(s: State, w: WorkerId, id: RequestId)
    requires Inv(s)
    ensures Owns(s, w, id) <==> IsRunning(s, w, id)
  {
    assert IsRunning(s, w, id) <==> Running(s)(w, id);
  }

  /** Whoever else is dispatched, the finished request is gone. */
  lemma PulledIsAnother(s: State, w: WorkerId, id: RequestId, v: WorkerId, got: RequestId, t: State)
    requires Inv(s) && IsRunning(s, w, id) && PullsOne(Moves.Finished(s, w, id), v, got, t)
    ensures id !in t.active
  {
    var u := Moves.Finished(s, w, id);
    var p, i: nat :| BestPick(u, v, p, i) && u.queues[p][i].id == got && t == Pulled(u, v, p, i);
    assert Waits(s)(p, s.queues[p][i]) && Running(s)(w, id);
  }

  lemma FinishEnds(s: State, w: WorkerId, id: RequestId, got: Option<RequestId>, t: State)
    requires Inv(s) && Finishes(s, w, id, got, t)
    ensures if IsRunning(s, w, id) then id !in t.active else t == s && got == None
  {
    if IsRunning(s, w, id) && got.Some? {
      PulledIsAnother(s, w, id, w, got.value, t);
    }
  }

  lemma ClosedInv(s: State, id: RequestId, body: Bytes)
    requires Inv(s)
    ensures Inv(Closed(s, id, body))
  {
    HousekeepingKeeps(s, Closed(s, id, body));
  }

  lemma CompleteEnds(s: State, w: WorkerId, id: RequestId, body: Bytes, ok: bool, t: State)
    requires Inv(s) && Completes(s, w, id, body, ok, t)
    ensures id !in s.senders ==> !ok && t == s
    ensures id in s.senders && IsRunning(s, w, id) ==> ok && id !in t.active
    ensures id in s.senders && !IsRunning(s, w, id) ==> ok == (id !in s.active) && t == Closed(s, id, body)
  {
    if id in s.senders {
      var got :| Finishes(Closed(s, id, body), w, id, got, t) && ok == (got.Some? || id !in t.active);
      ClosedInv(s, id, body);
      FinishEnds(Closed(s, id, body), w, id, got, t);
    }
  }

  lemma RetryEnds(s: State, w: WorkerId, id: RequestId, ok: bool, t: State)
    requires Inv(s) && Retries(s, w, id, ok, t)
    ensures if IsRunning(s, w, id) then ok && id !in t.active else ok == (id !in s.active) && t == s
  {
    var got :| Finishes(s, w, id, got, t) && ok == (got.Some? || id !in t.active);
    FinishEnds(s, w, id, got, t);
  }

  /** A completion is accepted exactly when its request runs on the worker that sent it or
      is over already; and then nothing of it is left. */
  lemma CompletionAccepted(s: State, w: WorkerId, id: RequestId, body: Bytes, ok: bool, t: State)
    requires Inv(s) && Responds(s, w, id, body, ok, t)
    ensures ok <==> IsRunning(s, w, id) || id !in s.active
    ensures ok <==> id !in t.active
  {
    if ok && Completes(s, w, id, body, true, t) {
      CompleteEnds(s, w, id, body, true, t);
    } else {
      var mid :| Completes(s, w, id, body, false, mid) && Retries(mid, w, id, ok, t);
      CompleteEnds(s, w, id, body, false, mid);
      ClosedInv(s, id, body);
      RetryEnds(mid, w, id, ok, t);
    }
  }

  /** The reply is taken before its owner is asked for: what a worker that does not run the
      request sends as its completion ends the client's reply if and only if the reply is
      still held, and leaves the request as it was; without a reply held it does nothing. */
  lemma StrangerEndsTheReply(s: State, w: WorkerId, id: RequestId, body: Bytes, ok: bool, t: State)
    requires Inv(s) && Responds(s, w, id, body, ok, t) && !IsRunning(s, w, id)
    ensures t.Replies(id) != s.Replies(id) <==> id in s.senders
    ensures t == (if id in s.senders then Closed(s, id, body) else s) && ok == (id !in s.active)
    ensures id in s.senders ==>
      t.Replies(id) == s.Replies(id) + [Complete(body)] && id !in t.senders && t.active == s.active
  {
    if ok && Completes(s, w, id, body, true, t) {
      CompleteEnds(s, w, id, body, true, t);
    } else {
      var mid :| Completes(s, w, id, body, false, mid) && Retries(mid, w, id, ok, t);
      CompleteEnds(s, w, id, body, false, mid);
      ClosedInv(s, id, body);
      RetryEnds(mid, w, id, ok, t);
    }
    if id in s.senders {
      assert |t.Replies(id)| == |s.Replies(id)| + 1;
    }
  }

  // ---- polls ----

  /** One poll of a worker's socket: expiry, then an idle drained worker, then whatever
      reason is left for this worker. */
  function Polled(s: State, w: WorkerId, now: nat): State {
    var u := Evicted(s, Overdue(s, now), GracefulShutdownTimedOut, TimedOut);
    if Drained(u, w) then RemoveWorker(u, w, Some(Completed)) else u
  }

  function Reason(s: State, w: WorkerId): Option<CloseReason> {
    if w in s.closeReasons then Some(s.closeReasons[w]) else None
  }

  /** However a worker comes to be removed, the poll returns the reason kept for it. */
  method GracefulShutdownCloseAction(core: ProxyServerCore, w: WorkerId, now: nat) returns (close: Option<CloseReason>)
    requires core.Valid()
    modifies core
    ensures var t := Polled(old(core.View()), w, now);
      close == Reason(t, w) && core.View() == t.(closeReasons := t.closeReasons - {w})
    ensures core.Valid()
  {
    ghost var s := core.View();
    var gone, _ := core.ExpireGracefulShutdown(now);
    OverdueMembers(s, w, now);
    if w in gone {
      var _ := core.TakeGracefulShutdownDisconnectReason(w);
      close := Some(TimedOut);
    } else {
      close := IdleCloseAction(core, w);
    }
  }

  /** The rest of a poll that has not found its own worker overdue. */
  method IdleCloseAction(core: ProxyServerCore, w: WorkerId) returns (close: Option<CloseReason>)
    requires core.Valid()
    modifies core
    ensures var u := old(core.View());
      var t := if Drained(u, w) then RemoveWorker(u, w, Some(Completed)) else u;
      close == Reason(t, w) && core.View() == t.(closeReasons := t.closeReasons - {w})
    ensures core.Valid()
  {
    var idle := core.DisconnectDrainedWorkerIfIdle(w);
    close := core.TakeGracefulShutdownDisconnectReason(w);
    if idle {
      close := Some(Completed);
    }
  }

  lemma OverdueMembers(s: State, w: WorkerId, now: nat)
    requires Listed(s)
    ensures w in Filter(s.order, Loops.OverdueAt(s, now)) <==> w in Overdue(s, now)
    ensures w in Overdue(s, now) ==>
      var t := Polled(s, w, now);
      t == Evicted(s, Overdue(s, now), GracefulShutdownTimedOut, TimedOut) && Reason(t, w) == Some(TimedOut)
  {
    FilterMembers(s.order, Loops.OverdueAt(s, now));
  }
}
