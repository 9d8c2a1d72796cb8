/** What any operation does to one worker's list and outbox: both grow alike, or one leaves. */
module Assignments {
  import opened Seqs
  import opened RelayState
  import opened Moves
  import opened Index
  import opened Draining
  import opened Spec
  import opened Traces
  import opened BulkTraces

  function MessageIds(ms: seq<Message>): seq<RequestId> {
    if ms == [] then [] else MessageIds(ms[..|ms| - 1]) + [ms[|ms| - 1].id]
  }

  lemma {:induction false} MessageIdsJoin(a: seq<Message>, b: seq<Message>)
    ensures MessageIds(a + b) == MessageIds(a) + MessageIds(b)
  {
    if b == [] {
      assert a + b == a;
    } else {
      MessageIdsJoin(a, b[..|b| - 1]);
      assert (a + b)[..|a + b| - 1] == a + b[..|b| - 1];
    }
  }

  /** `list` and `box` have grown by the messages `more`. */
  ghost predicate GrewBy(list: seq<RequestId>, box: seq<Message>, list': seq<RequestId>, box': seq<Message>,
                         more: seq<Message>) {
    list' == list + MessageIds(more) && box' == box + more
  }

  ghost predicate Grew(s: State, t: State, w: WorkerId) {
    w in s.workers && w in t.workers
    && exists more :: GrewBy(s.workers[w].inFlight, s.Outbox(w), t.workers[w].inFlight, t.Outbox(w), more)
  }

  lemma GrewNot(s: State, t: State, w: WorkerId)
    requires w in s.workers && w in t.workers
    requires t.workers[w].inFlight == s.workers[w].inFlight && t.Outbox(w) == s.Outbox(w)
    ensures Grew(s, t, w)
  {
    assert GrewBy(s.workers[w].inFlight, s.Outbox(w), t.workers[w].inFlight, t.Outbox(w), []);
  }

  lemma GrewOne(s: State, t: State, w: WorkerId, m: Message)
    requires w in s.workers && w in t.workers
    requires t.workers[w].inFlight == s.workers[w].inFlight + [m.id] && t.Outbox(w) == s.Outbox(w) + [m]
    ensures Grew(s, t, w)
  {
    assert [m][..0] == [];
    assert GrewBy(s.workers[w].inFlight, s.Outbox(w), t.workers[w].inFlight, t.Outbox(w), [m]);
  }

  lemma GrewByBoth(l: seq<RequestId>, x: seq<Message>, m: seq<RequestId>, y: seq<Message>, n: seq<RequestId>,
                   z: seq<Message>, a: seq<Message>, b: seq<Message>)
    requires GrewBy(l, x, m, y, a) && GrewBy(m, y, n, z, b)
    ensures GrewBy(l, x, n, z, a + b)
  {
    MessageIdsJoin(a, b);
    assert x + a + b == x + (a + b);
    assert l + MessageIds(a) + MessageIds(b) == l + (MessageIds(a) + MessageIds(b));
  }

  lemma GrewTwice(s: State, t: State, u: State, w: WorkerId)
    requires Grew(s, t, w) && Grew(t, u, w)
    ensures Grew(s, u, w)
  {
    var a :| GrewBy(s.workers[w].inFlight, s.Outbox(w), t.workers[w].inFlight, t.Outbox(w), a);
    var b :| GrewBy(t.workers[w].inFlight, t.Outbox(w), u.workers[w].inFlight, u.Outbox(w), b);
    GrewByBoth(s.workers[w].inFlight, s.Outbox(w), t.workers[w].inFlight, t.Outbox(w), u.workers[w].inFlight,
               u.Outbox(w), a, b);
  }

  // ---- moves ----

  /** Moves that take something away from w. */
  predicate TakesFrom(w: WorkerId, m: Move) {
    ((m.Finish? || m.FailRunning? || m.Requeue?) && m.w == w) || m == TakeOutbox(w)
  }

  lemma GivingGrows(s: State, m: Move, w: WorkerId)
    requires Enabled(s, m) && w in s.workers && (m.Admit? || m.Pull?)
    ensures Grew(s, Apply(s, m), w)
  {
    var t := Apply(s, m);
    if m.w == w {
      GrewOne(s, t, w, (if m.Admit? then m.r else s.queues[m.provider][m.index]).ToMessage());
    } else {
      GrewNot(s, t, w);
    }
  }

  lemma OthersKeepOutbox(s: State, m: Move, w: WorkerId)
    requires Enabled(s, m) && !m.Admit? && !m.Pull? && m != TakeOutbox(w) && !(m.Leave? && m.w == w)
    ensures Apply(s, m).Outbox(w) == s.Outbox(w)
  {
    if m.FailRunning? || m.Drop? {
      EndingTouches(s, m);
    }
  }

  lemma OthersKeepList(s: State, m: Move, w: WorkerId)
    requires Enabled(s, m) && w in s.workers && Listed(s) && !TakesFrom(w, m) && !m.Admit? && !m.Pull?
    requires !(m.Leave? && m.w == w)
    ensures w in Apply(s, m).workers && Apply(s, m).workers[w].inFlight == s.workers[w].inFlight
  {
    TouchIs(s, m, w);
  }

  lemma MoveGrows(s: State, m: Move, w: WorkerId)
    requires Listed(s) && Enabled(s, m) && w in s.workers && !TakesFrom(w, m) && !(m.Leave? && m.w == w)
    ensures Grew(s, Apply(s, m), w)
  {
    if m.Admit? || m.Pull? {
      GivingGrows(s, m, w);
    } else {
      OthersKeepOutbox(s, m, w);
      OthersKeepList(s, m, w);
      GrewNot(s, Apply(s, m), w);
    }
  }

  lemma KnownHere(s: State, w: WorkerId)
    requires Listed(s) && w in s.workers
    ensures w < s.nextWorker
  {}

  lemma LeftForGood(s: State, ms: seq<Move>, t: State, w: WorkerId)
    requires Inv(s) && w in s.workers && ms != [] && Runs(s, ms, t) && ms[0].Leave? && ms[0].w == w
    ensures w !in t.workers
  {
    KnownHere(s, w);
    NextWorkerGrows(s, ms[0]);
    NobodyReturnsInRun(Apply(s, ms[0]), ms[1..], t, w);
  }

  lemma {:induction false} RunGrows(s: State, ms: seq<Move>, t: State, w: WorkerId)
    requires Inv(s) && Runs(s, ms, t) && w in s.workers && w in t.workers
    requires forall m :: m in ms ==> !TakesFrom(w, m)
    ensures Grew(s, t, w)
    decreases |ms|
  {
    if ms == [] {
      GrewNot(s, t, w);
    } else {
      assert ms[0] in ms;
      forall m | m in ms[1..] ensures m in ms {}
      if ms[0].Leave? && ms[0].w == w {
        LeftForGood(s, ms, t, w);
      }
      MoveGrows(s, ms[0], w);
      MoveKeeps(s, ms[0]);
      RunGrows(Apply(s, ms[0]), ms[1..], t, w);
      GrewTwice(s, Apply(s, ms[0]), t, w);
    }
  }

  // ---- other people's operations ----

  /** Everything but w's own completions and the collection of its outbox. */
  predicate Foreign(op: Op, w: WorkerId) {
    !((op.FinishRequest? || op.CompleteResponse?) && op.w == w) && op != TakeRequests(w)
  }

  lemma ForeignMoves(op: Op, ms: seq<Move>, w: WorkerId)
    requires AllBelong(op, ms) && Foreign(op, w) && !op.ExpireShutdown? && !op.DeleteProvider? && !op.Disconnect?
    ensures forall m :: m in ms ==> !TakesFrom(w, m)
  {}

  lemma EvictedSame(s: State, ws: set<WorkerId>, why: FailureReason, close: CloseReason, w: WorkerId)
    requires w in Evicted(s, ws, why, close).workers
    ensures w in s.workers && Evicted(s, ws, why, close).workers[w] == s.workers[w]
    ensures Evicted(s, ws, why, close).Outbox(w) == s.Outbox(w)
  {}

  lemma DisconnectedSame(s: State, v: WorkerId, w: WorkerId)
    requires w in Disconnected(s, v).workers
    ensures w in s.workers && Disconnected(s, v).workers[w] == s.workers[w]
      && Disconnected(s, v).Outbox(w) == s.Outbox(w)
  {
    if v in s.workers {
      ReleasedSame(s, v);
      RemovedSame(Released(s, v), {v}, None, w);
    }
  }

  lemma ReleasedSame(s: State, v: WorkerId)
    requires v in s.workers
    ensures Released(s, v).workers == s.workers && Released(s, v).outbox == s.outbox
  {}

  lemma RemovedSame(s: State, ws: set<WorkerId>, close: Option<CloseReason>, w: WorkerId)
    requires w in RemoveWorkers(s, ws, close).workers
    ensures w in s.workers && RemoveWorkers(s, ws, close).workers[w] == s.workers[w]
    ensures RemoveWorkers(s, ws, close).Outbox(w) == s.Outbox(w)
  {}

  lemma ClearedSame(s: State, p: string, w: WorkerId)
    ensures QueueCleared(s, p).workers == s.workers && QueueCleared(s, p).outbox == s.outbox
  {}

  lemma DeletedSame(s: State, p: string, w: WorkerId)
    requires w in ProviderDeletedFrom(s, p).workers
    ensures w in s.workers && ProviderDeletedFrom(s, p).workers[w] == s.workers[w]
    ensures ProviderDeletedFrom(s, p).Outbox(w) == s.Outbox(w)
  {
    EvictedSame(QueueCleared(s, p), WorkersOf(s, p), ProviderDeleted, Completed, w);
    ClearedSame(s, p, w);
  }

  lemma SweepSame(s: State, op: Op, t: State, w: WorkerId)
    requires Step(s, op, t) && w in t.workers && (op.ExpireShutdown? || op.DeleteProvider? || op.Disconnect?)
    ensures w in s.workers && t.workers[w] == s.workers[w] && t.Outbox(w) == s.Outbox(w)
  {
    if op.ExpireShutdown? {
      EvictedSame(s, Overdue(s, op.now), GracefulShutdownTimedOut, TimedOut, w);
    } else if op.DeleteProvider? {
      DeletedSame(s, op.provider, w);
    } else {
      DisconnectedSame(s, op.w, w);
    }
  }

  /** Whatever anybody else does, a worker still registered has the same requests added to
      its list and to its outbox. */
  lemma ForeignGrows(s: State, op: Op, t: State, w: WorkerId)
    requires Sound(s) && Step(s, op, t) && Foreign(op, w) && w in s.workers && w in t.workers
    ensures Grew(s, t, w)
  {
    if op.ExpireShutdown? || op.DeleteProvider? || op.Disconnect? {
      SweepSame(s, op, t, w);
      GrewNot(s, t, w);
    } else {
      var ms := StepRuns(s, op, t);
      ForeignMoves(op, ms, w);
      RunGrows(s, ms, t, w);
    }
  }

  // ---- the worker's own completions ----

  /** id has left the list, and then the list and the outbox have grown. */
  ghost predicate Replaced(s: State, t: State, w: WorkerId, id: RequestId) {
    w in s.workers && w in t.workers
    && exists more :: GrewBy(Without(s.workers[w].inFlight, id), s.Outbox(w), t.workers[w].inFlight, t.Outbox(w), more)
  }

  lemma FinishedIs(s: State, w: WorkerId, id: RequestId)
    requires w in s.workers
    ensures w in Moves.Finished(s, w, id).workers
    ensures Moves.Finished(s, w, id).workers[w].inFlight == Without(s.workers[w].inFlight, id)
    ensures Moves.Finished(s, w, id).Outbox(w) == s.Outbox(w)
  {}

  lemma GrewAfterFinish(s: State, w: WorkerId, id: RequestId, t: State)
    requires w in s.workers && Grew(Moves.Finished(s, w, id), t, w)
    ensures Replaced(s, t, w, id)
  {
    FinishedIs(s, w, id);
    var u := Moves.Finished(s, w, id);
    var more :| GrewBy(u.workers[w].inFlight, u.Outbox(w), t.workers[w].inFlight, t.Outbox(w), more);
    assert GrewBy(Without(s.workers[w].inFlight, id), s.Outbox(w), t.workers[w].inFlight, t.Outbox(w), more);
  }

  lemma DispatchGrows(s: State, w: WorkerId, got: Option<RequestId>, t: State)
    requires Inv(s) && Dispatches(s, w, got, t) && w in s.workers && w in t.workers
    ensures Grew(s, t, w)
  {
    var ms := DispatchRuns(s, w, got, t);
    RunGrows(s, ms, t, w);
  }

  lemma StayedMeansDispatched(s: State, w: WorkerId, id: RequestId, got: Option<RequestId>, t: State)
    requires Finishes(s, w, id, got, t) && w in s.workers && id in s.workers[w].inFlight && w in t.workers
    ensures Dispatches(Moves.Finished(s, w, id), w, got, t)
  {}

  lemma FinishReplaces(s: State, w: WorkerId, id: RequestId, got: Option<RequestId>, t: State)
    requires Inv(s) && Finishes(s, w, id, got, t) && w in s.workers && id in s.workers[w].inFlight && w in t.workers
    ensures Replaced(s, t, w, id)
  {
    MoveKeeps(s, Finish(w, id));
    StayedMeansDispatched(s, w, id, got, t);
    FinishedIs(s, w, id);
    DispatchGrows(Moves.Finished(s, w, id), w, got, t);
    GrewAfterFinish(s, w, id, t);
  }

  lemma ClosedSame(s: State, id: RequestId, body: Bytes)
    ensures Closed(s, id, body).workers == s.workers && Closed(s, id, body).outbox == s.outbox
  {}
}
