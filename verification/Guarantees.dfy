/** What queues, workers and sockets may rely on, over whole runs. */
module Guarantees {
  import opened Seqs
  import opened RelayState
  import opened Moves
  import opened Index
  import opened Fifo
  import opened Draining
  import opened Spec
  import opened Traces
  import opened Overtaking
  import opened Executions
  import opened WorkerSocket
  import opened Conservation

  // ---- order ----

  lemma OpsAreOneWay(op: Op, ms: seq<Move>)
    requires AllBelong(op, ms)
    ensures OneWay(ms)
  {
    if op.Disconnect? {
      assert forall m :: m in ms ==> !m.Pull? && !m.Drop?;
    } else {
      assert forall m :: m in ms ==> !m.Requeue?;
    }
  }

  lemma StepKeepsOrder(e: Execution, k: nat, p: string, a: RequestId, b: RequestId)
    requires e.Valid() && k < |e.ops|
    requires a < e.states[k].nextRequest && b < e.states[k].nextRequest && Ahead(e.states[k].Queue(p), a, b)
    requires Holds(e.states[k + 1].Queue(p), a) && Holds(e.states[k + 1].Queue(p), b)
    ensures Ahead(e.states[k + 1].Queue(p), a, b)
  {
    var ms := StepAsRun(e, k);
    OpsAreOneWay(e.ops[k], ms);
    RunKeepsOrder(e.states[k], ms, e.states[k + 1], p, a, b);
  }

  lemma LaterStepKeepsOrder(e: Execution, k: nat, p: string, a: RequestId, b: RequestId)
    requires e.Valid() && 0 < k < |e.states|
    requires a < e.states[k - 1].nextRequest && b < e.states[k - 1].nextRequest
    requires Ahead(e.states[k - 1].Queue(p), a, b)
    requires Holds(e.states[k].Queue(p), a) && Holds(e.states[k].Queue(p), b)
    ensures Ahead(e.states[k].Queue(p), a, b)
  {
    StepKeepsOrder(e, k - 1, p, a, b);
  }

  ghost predicate StaysIn(e: Execution, i: nat, k: nat, p: string, a: RequestId)
    requires e.Valid() && i <= k < |e.states|
  {
    forall j :: i <= j <= k ==> Holds(e.states[j].Queue(p), a)
  }

  lemma HeldIsKnown(e: Execution, i: nat, p: string, a: RequestId)
    requires e.Valid() && i < |e.states| && Holds(e.states[i].Queue(p), a)
    ensures a < e.states[i].nextRequest
  {
    AlwaysSound(e, i);
    var s := e.states[i];
    var j :| 0 <= j < |s.Queue(p)| && s.Queue(p)[j].id == a;
    assert Waits(s)(p, s.Queue(p)[j]);
  }

  /** Two requests that stay in one queue over a stretch of a run keep their order. */
  lemma {:induction false} FirstComeStaysAhead(e: Execution, i: nat, k: nat, p: string, a: RequestId, b: RequestId)
    requires e.Valid() && i <= k < |e.states|
    requires StaysIn(e, i, k, p, a) && StaysIn(e, i, k, p, b) && Ahead(e.states[i].Queue(p), a, b)
    ensures Ahead(e.states[k].Queue(p), a, b)
    decreases k
  {
    if i < k {
      StaysOneLess(e, i, k, p, a);
      StaysOneLess(e, i, k, p, b);
      FirstComeStaysAhead(e, i, k - 1, p, a, b);
      LaterStepKeepsOrder(e, k, p, a, b);
    }
  }

  lemma StaysOneLess(e: Execution, i: nat, k: nat, p: string, a: RequestId)
    requires e.Valid() && i < k < |e.states| && StaysIn(e, i, k, p, a)
    ensures StaysIn(e, i, k - 1, p, a) && Holds(e.states[k].Queue(p), a) && a < e.states[k - 1].nextRequest
  {
    HeldIsKnown(e, k - 1, p, a);
  }

  lemma AheadIsPrecedes(s: State, t: State, p: string, a: RequestId, b: RequestId, x: Request)
    requires Inv(s) && Ahead(s.Queue(p), a, b) && Waits(s)(p, x) && x.id == a
    ensures exists y :: Precedes(s.Queue(p), x, y) && Waits(s)(p, y) && y.id == b
  {
    QueuesDistinct(s, p);
    var q := s.Queue(p);
    var i, j :| 0 <= i < j < |q| && q[i].id == a && q[j].id == b;
    var k :| 0 <= k < |q| && q[k] == x;
    assert Precedes(q, x, q[j]) && Waits(s)(p, q[j]);
  }

  lemma AheadWaits(s: State, p: string, a: RequestId, b: RequestId)
    requires Ahead(s.Queue(p), a, b)
    ensures exists y :: Waits(s)(p, y) && y.id == b
  {
    var q := s.Queue(p);
    var i, j :| 0 <= i < j < |q| && q[i].id == a && q[j].id == b;
    assert Waits(s)(p, q[j]);
  }

  /** Over one step of a run, however many requests it dispatches. */
  lemma StepOvertakesNobody(e: Execution, k: nat, p: string, a: RequestId, b: RequestId, w: WorkerId, x: Request)
    requires e.Valid() && k < |e.ops| && Ahead(e.states[k].Queue(p), a, b) && Owns(e.states[k + 1], w, b)
    requires Waits(e.states[k + 1])(p, x) && x.id == a
    ensures w in e.states[k + 1].workers && !e.states[k + 1].workers[w].Serves(x)
  {
    var s, t := e.states[k], e.states[k + 1];
    AlwaysSound(e, k);
    assert e.StepAt(k);
    AheadWaits(s, p, a, b);
    var y :| Waits(s)(p, y) && y.id == b;
    LeftWasThere(s, e.ops[k], t, p, y, w);
    AheadIsPrecedes(s, t, p, a, b, x);
    var z :| Precedes(s.Queue(p), x, z) && Waits(s)(p, z) && z.id == b;
    NobodyAheadServed(s, e.ops[k], t, p, x, z, w);
  }

  /** Nobody is overtaken: when a worker takes b from a queue in which a has been ahead of b,
      it serves no record of a that it leaves there. */
  lemma NobodyIsOvertaken(e: Execution, i: nat, k: nat, p: string, a: RequestId, b: RequestId, w: WorkerId)
    requires e.Valid() && i <= k < |e.ops| && Ahead(e.states[i].Queue(p), a, b)
    requires StaysIn(e, i, k, p, a) && StaysIn(e, i, k, p, b) && Owns(e.states[k + 1], w, b)
    ensures forall x :: Waits(e.states[k + 1])(p, x) && x.id == a ==>
      w in e.states[k + 1].workers && !e.states[k + 1].workers[w].Serves(x)
  {
    FirstComeStaysAhead(e, i, k, p, a, b);
    forall x | Waits(e.states[k + 1])(p, x) && x.id == a
      ensures w in e.states[k + 1].workers && !e.states[k + 1].workers[w].Serves(x)
    {
      StepOvertakesNobody(e, k, p, a, b, w, x);
    }
  }

  /** Oldest first across the queues: when a step leaves waiting the first request of some
      queue that a worker serves, every request the worker took is at least as old. */
  lemma OldestHeadsFirst(e: Execution, k: nat, p: string, b: Request, w: WorkerId, q: string, j: nat)
    requires e.Valid() && k < |e.ops| && Waits(e.states[k])(p, b) && Owns(e.states[k + 1], w, b.id)
    requires w in e.states[k + 1].workers && HeadFor(e.states[k].Queue(q), e.states[k + 1].workers[w], j)
    requires Waits(e.states[k + 1])(q, e.states[k].Queue(q)[j])
    ensures b.queuedAt <= e.states[k].Queue(q)[j].queuedAt
  {
    AlwaysSound(e, k);
    assert e.StepAt(k);
    NobodyOlderLeft(e.states[k], e.ops[k], e.states[k + 1], p, b, w, q, j);
  }

  /** Requeued work goes to the front of its worker's queue, in the order the worker was
      running it, each record as it was but for one more requeue. */
  lemma {:induction false} RecordsInOrder(active: map<RequestId, Active>, ids: seq<RequestId>, k: nat)
    requires k < |Filter(ids, Kept(active))|
    ensures Filter(ids, Kept(active))[k] in active
    ensures RequeuedRecords(active, ids)[k] == Bumped(active[Filter(ids, Kept(active))[k]].request)
  {
    var init, id := ids[..|ids| - 1], ids[|ids| - 1];
    if k < |Filter(init, Kept(active))| {
      RecordsInOrder(active, init, k);
    }
  }

  lemma RequeuedGoToTheFront(s: State, w: WorkerId)
    requires w in s.workers
    ensures var back := RequeuedRecords(s.active, s.workers[w].inFlight);
      Disconnected(s, w).Queue(s.workers[w].provider) == back + s.Queue(s.workers[w].provider)
      && forall p :: p != s.workers[w].provider ==> Disconnected(s, w).Queue(p) == s.Queue(p)
  {
    var p := s.workers[w].provider;
    var back := RequeuedRecords(s.active, s.workers[w].inFlight);
    assert Disconnected(s, w).queues == PutBack(s.queues, p, back);
    assert p !in s.queues ==> back + [] == back;
  }

  // ---- size ----

  /** Policies are fixed before anything else happens. */
  predicate ConfiguredFirst(ops: seq<Op>, n: nat) {
    forall k :: 0 <= k < |ops| ==> (ops[k].Configure? <==> k < n)
  }

  lemma ConfigureOnly(e: Execution, k: nat, n: nat)
    requires e.Valid() && k < |e.ops| && ConfiguredFirst(e.ops, n) && k < n
    ensures e.states[k + 1].queues == e.states[k].queues
  {
    assert e.StepAt(k);
  }

  lemma {:induction false} NoQueuesYet(e: Execution, k: nat, n: nat)
    requires e.Valid() && k < |e.states| && k <= n && ConfiguredFirst(e.ops, n)
    ensures e.states[k].queues == map[]
  {
    if k != 0 {
      NoQueuesYet(e, k - 1, n);
      ConfigureOnly(e, k - 1, n);
    }
  }

  lemma NoPolicyChange(op: Op, ms: seq<Move>)
    requires AllBelong(op, ms) && !op.Configure?
    ensures forall m :: m in ms ==> !m.SetPolicy?
  {}

  lemma StepKeepsPolicy(e: Execution, k: nat)
    requires e.Valid() && k < |e.ops| && !e.ops[k].Configure? && WithinPolicy(e.states[k])
    ensures WithinPolicy(e.states[k + 1])
  {
    var ms := StepAsRun(e, k);
    NoPolicyChange(e.ops[k], ms);
    RunKeepsPolicy(e.states[k], ms, e.states[k + 1]);
  }

  /** With policies fixed up front, no queue ever holds more never-requeued requests than
      its provider's policy allows, however many disconnects put back. */
  lemma {:induction false} QueuesStayWithinPolicy(e: Execution, k: nat, n: nat)
    requires e.Valid() && k < |e.states| && ConfiguredFirst(e.ops, n)
    ensures WithinPolicy(e.states[k])
  {
    if k <= n {
      NoQueuesYet(e, k, n);
      assert forall p: string :: e.states[k].Queue(p) == [];
    } else {
      QueuesStayWithinPolicy(e, k - 1, n);
      StepKeepsPolicy(e, k - 1);
    }
  }

  // ---- endpoints ----

  lemma StepKeepsEndpoint(e: Execution, k: nat, w: WorkerId, id: RequestId)
    requires e.Valid() && k < |e.ops| && EndpointOk(e.states[k], w, id)
    ensures EndpointOk(e.states[k + 1], w, id)
  {
    var ms := StepAsRun(e, k);
    RunKeepsEndpoints(e.states[k], ms, e.states[k + 1], w, id);
  }

  /** Everything a worker runs has a path under one of the worker's endpoint prefixes. */
  lemma {:induction false} AlwaysWithinPrefixes(e: Execution, k: nat, w: WorkerId, id: RequestId)
    requires e.Valid() && k < |e.states|
    ensures EndpointOk(e.states[k], w, id)
  {
    if k != 0 {
      AlwaysWithinPrefixes(e, k - 1, w, id);
      StepKeepsEndpoint(e, k - 1, w, id);
    }
  }

  /** Whatever load it reports, a worker never runs more than it may. */
  lemma NeverOverCapacity(e: Execution, k: nat, w: WorkerId)
    requires e.Valid() && k < |e.states| && w in e.states[k].workers
    ensures |e.states[k].workers[w].inFlight| <= e.states[k].workers[w].maxConcurrent
  {
    AlwaysSound(e, k);
  }

  // ---- draining ----

  lemma StepDrains(e: Execution, k: nat, w: WorkerId)
    requires e.Valid() && k < |e.ops| && w in e.states[k].workers && e.states[k].workers[w].Draining()
    ensures w in e.states[k + 1].workers ==> OnlyShrinks(e.states[k].workers[w], e.states[k + 1].workers[w])
  {
    var ms := StepAsRun(e, k);
    RunOnlyShrinks(e.states[k], ms, e.states[k + 1], w);
  }

  lemma StepNobodyReturns(e: Execution, k: nat, w: WorkerId)
    requires e.Valid() && k < |e.ops| && w !in e.states[k].workers && w < e.states[k].nextWorker
    ensures w !in e.states[k + 1].workers && e.states[k].nextWorker <= e.states[k + 1].nextWorker
  {
    var ms := StepAsRun(e, k);
    NobodyReturnsInRun(e.states[k], ms, e.states[k + 1], w);
    RunGrowsNextWorker(e.states[k], ms, e.states[k + 1]);
  }

  lemma {:induction false} RunGrowsNextWorker(s: State, ms: seq<Move>, t: State)
    requires Runs(s, ms, t)
    ensures s.nextWorker <= t.nextWorker
    decreases |ms|
  {
    if ms != [] {
      NextWorkerGrows(s, ms[0]);
      RunGrowsNextWorker(Apply(s, ms[0]), ms[1..], t);
    }
  }

  /** A worker that is gone stays gone. */
  lemma {:induction false} GoneForGood(e: Execution, i: nat, k: nat, w: WorkerId)
    requires e.Valid() && i <= k < |e.states| && w !in e.states[i].workers && w < e.states[i].nextWorker
    ensures w !in e.states[k].workers && w < e.states[k].nextWorker
    decreases k
  {
    if i < k {
      GoneForGood(e, i, k - 1, w);
      StepNobodyReturns(e, k - 1, w);
    }
  }

  lemma KnownWorker(e: Execution, k: nat, w: WorkerId)
    requires e.Valid() && k < |e.states| && w in e.states[k].workers
    ensures w < e.states[k].nextWorker
  {
    AlwaysSound(e, k);
  }

  /** Once a worker drains, what it runs only shrinks until it is removed, and its deadline
      never moves. */
  lemma {:induction false} DrainingOnlyShrinks(e: Execution, i: nat, k: nat, w: WorkerId)
    requires e.Valid() && i <= k < |e.states| && w in e.states[i].workers && e.states[i].workers[w].Draining()
    ensures w in e.states[k].workers ==> OnlyShrinks(e.states[i].workers[w], e.states[k].workers[w])
    decreases k
  {
    if i < k && w in e.states[k].workers {
      DrainingOnlyShrinks(e, i, k - 1, w);
      if w in e.states[k - 1].workers {
        StepDrains(e, k - 1, w);
      } else {
        KnownWorker(e, i, w);
        StepGap(e, i, k, w);
      }
    }
  }

  lemma StepGap(e: Execution, i: nat, k: nat, w: WorkerId)
    requires e.Valid() && i < k < |e.states| && w < e.states[i].nextWorker && w !in e.states[k - 1].workers
    ensures w !in e.states[k].workers
  {
    NextWorkerGrowsOver(e, i, k - 1);
    StepNobodyReturns(e, k - 1, w);
  }

  lemma {:induction false} NextWorkerGrowsOver(e: Execution, i: nat, k: nat)
    requires e.Valid() && i <= k < |e.states|
    ensures e.states[i].nextWorker <= e.states[k].nextWorker
    decreases k
  {
    if i < k {
      NextWorkerGrowsOver(e, i, k - 1);
      var ms := StepAsRun(e, k - 1);
      RunGrowsNextWorker(e.states[k - 1], ms, e.states[k]);
    }
  }

  // ---- work conservation ----

  /** The workers that may idle beside waiting work, as the run has left them. */
  ghost function DirtyAfter(e: Execution, k: nat): iset<WorkerId>
    requires e.Valid() && k < |e.states|
  {
    if k == 0 then iset{}
    else DirtyAfter(e, k - 1) - Cleaned(e.ops[k - 1]) + DirtOf(e.states[k - 1], e.ops[k - 1], e.states[k])
  }

  lemma StepIsConserving(e: Execution, k: nat, dirty: iset<WorkerId>)
    requires e.Valid() && k < |e.ops| && Conserving(e.states[k], dirty)
    ensures Conserving(e.states[k + 1], dirty - Cleaned(e.ops[k]) + DirtOf(e.states[k], e.ops[k], e.states[k + 1]))
  {
    AlwaysSound(e, k);
    assert e.StepAt(k);
    StepConserves(e.states[k], e.ops[k], e.states[k + 1], dirty);
  }

  /** A worker with room idles beside work it could take only if, since its last report, it
      registered, somebody's disconnect put such work back, or such work was queued by a
      client whose routing forbids fallbacks. */
  lemma {:induction false} WorkIsConserved(e: Execution, k: nat)
    requires e.Valid() && k < |e.states|
    ensures Conserving(e.states[k], DirtyAfter(e, k))
  {
    if k != 0 {
      WorkIsConserved(e, k - 1);
      StepIsConserving(e, k - 1, DirtyAfter(e, k - 1));
    }
  }

  // ---- close reasons ----

  /** The reason an operation gives to the workers it removes. */
  function LeavesWith(op: Op): Option<CloseReason> {
    match op
    case ExpireShutdown(_) => Some(TimedOut)
    case Disconnect(_) => None
    case _ => Some(Completed)
  }

  lemma DeparturesHaveReasons(op: Op, ms: seq<Move>)
    requires AllBelong(op, ms) && !op.TakeCloseReason?
    ensures forall m :: m in ms ==> !m.TakeClose? && (m.Leave? ==> m.close == LeavesWith(op))
  {}

  lemma TakingRemovesNobody(e: Execution, k: nat)
    requires e.Valid() && k < |e.ops| && e.ops[k].TakeCloseReason?
    ensures e.states[k + 1].workers == e.states[k].workers
  {
    assert e.StepAt(k);
  }

  lemma ReasonIs(s: State, w: WorkerId, close: Option<CloseReason>)
    requires if close.Some? then w in s.closeReasons && s.closeReasons[w] == close.value else w !in s.closeReasons
    ensures Reason(s, w) == close
  {}

  /** A worker removed by a step has, right after it, the reason that step gives. */
  lemma RemovalSetsReason(e: Execution, k: nat, w: WorkerId)
    requires e.Valid() && k < |e.ops| && w in e.states[k].workers && w !in e.states[k + 1].workers
    ensures Reason(e.states[k + 1], w) == LeavesWith(e.ops[k])
  {
    if e.ops[k].TakeCloseReason? {
      TakingRemovesNobody(e, k);
    } else {
      var ms := StepAsRun(e, k);
      DeparturesHaveReasons(e.ops[k], ms);
      GoneWithReason(e.states[k], ms, e.states[k + 1], w, LeavesWith(e.ops[k]));
      ReasonIs(e.states[k + 1], w, LeavesWith(e.ops[k]));
    }
  }

  lemma {:induction false} RunLeavesReason(s: State, ms: seq<Move>, t: State, w: WorkerId)
    requires Inv(s) && Moves.Runs(s, ms, t) && w !in s.workers && w < s.nextWorker
    requires forall m :: m in ms ==> m != TakeClose(w)
    ensures Reason(t, w) == Reason(s, w)
    decreases |ms|
  {
    if ms != [] {
      assert ms[0] in ms;
      forall m | m in ms[1..] ensures m in ms {}
      ReasonAfter(s, ms[0], w);
      NobodyReturns(s, ms[0], w);
      MoveKeeps(s, ms[0]);
      RunLeavesReason(Apply(s, ms[0]), ms[1..], t, w);
    }
  }

  lemma NotTaken(op: Op, ms: seq<Move>, w: WorkerId)
    requires AllBelong(op, ms) && op != TakeCloseReason(w)
    ensures forall m :: m in ms ==> m != TakeClose(w)
  {}

  lemma StepLeavesReason(e: Execution, k: nat, w: WorkerId)
    requires e.Valid() && k < |e.ops| && w !in e.states[k].workers && w < e.states[k].nextWorker
    requires e.ops[k] != TakeCloseReason(w)
    ensures Reason(e.states[k + 1], w) == Reason(e.states[k], w)
  {
    var ms := StepAsRun(e, k);
    NotTaken(e.ops[k], ms, w);
    RunLeavesReason(e.states[k], ms, e.states[k + 1], w);
  }

  lemma {:induction false} ReasonWaits(e: Execution, i: nat, k: nat, w: WorkerId)
    requires e.Valid() && i <= k < |e.states| && w !in e.states[i].workers && w < e.states[i].nextWorker
    requires forall j :: i <= j < k ==> e.ops[j] != TakeCloseReason(w)
    ensures Reason(e.states[k], w) == Reason(e.states[i], w)
    decreases k
  {
    if i < k {
      ReasonWaits(e, i, k - 1, w);
      GoneForGood(e, i, k - 1, w);
      StepLeavesReason(e, k - 1, w);
    }
  }

  /** A poll gives reasons only to workers still registered. */
  lemma PollOfTheGone(s: State, w: WorkerId, now: nat)
    requires w !in s.workers
    ensures Reason(Polled(s, w, now), w) == Reason(s, w)
  {}

  lemma EvictionSparesOthers(s: State, ws: set<WorkerId>, why: FailureReason, close: CloseReason, w: WorkerId)
    requires w in s.workers && w !in ws
    ensures w in Evicted(s, ws, why, close).workers && Evicted(s, ws, why, close).workers[w] == s.workers[w]
    ensures Reason(Evicted(s, ws, why, close), w) == Reason(s, w)
  {}

  /** A registered worker is closed exactly when it is overdue or drained and idle. */
  lemma PollOfTheRegistered(s: State, w: WorkerId, now: nat)
    requires Inv(s) && w in s.workers
    ensures Reason(Polled(s, w, now), w) ==
      if s.workers[w].deadline.Some? && s.workers[w].deadline.value <= now then Some(TimedOut)
      else if s.workers[w].deadline.Some? && |s.workers[w].inFlight| == 0 then Some(Completed)
      else None
  {
    if w !in Overdue(s, now) {
      EvictionSparesOthers(s, Overdue(s, now), GracefulShutdownTimedOut, TimedOut, w);
    }
  }

  /** However a worker was removed, and whoever's poll removed it, the next poll of its own
      socket returns the reason of its removal, and none if its connection was lost. */
  lemma NextPollTellsWhy(e: Execution, i: nat, k: nat, w: WorkerId, now: nat)
    requires e.Valid() && i < k < |e.states| && w in e.states[i].workers && w !in e.states[i + 1].workers
    requires forall j :: i < j < k ==> e.ops[j] != TakeCloseReason(w)
    ensures Reason(Polled(e.states[k], w, now), w) == LeavesWith(e.ops[i])
  {
    RemovalSetsReason(e, i, w);
    KnownWorker(e, i, w);
    NextWorkerGrowsOver(e, i, i + 1);
    ReasonWaits(e, i + 1, k, w);
    GoneForGood(e, i + 1, k, w);
    PollOfTheGone(e.states[k], w, now);
  }

  lemma TakingTakes(e: Execution, j: nat, w: WorkerId)
    requires e.Valid() && j < |e.ops| && e.ops[j] == TakeCloseReason(w)
    ensures Reason(e.states[j + 1], w) == None
  {
    assert e.StepAt(j);
  }

  /** A removed worker has its reason once: after a poll has taken it, it has none for the
      rest of the run. */
  lemma {:induction false} ReasonIsTakenOnce(e: Execution, j: nat, k: nat, w: WorkerId)
    requires e.Valid() && j < k < |e.states| && e.ops[j] == TakeCloseReason(w)
    requires w !in e.states[j].workers && w < e.states[j].nextWorker
    ensures Reason(e.states[k], w) == None
    decreases k
  {
    if k == j + 1 || e.ops[k - 1] == TakeCloseReason(w) {
      TakingTakes(e, k - 1, w);
    } else {
      ReasonIsTakenOnce(e, j, k - 1, w);
      GoneForGood(e, j, k - 1, w);
      StepLeavesReason(e, k - 1, w);
    }
  }

  /** Exactly one reason: a worker removed for a reason has it from its removal until the
      first poll that takes it, and at no other time, before or after. */
  lemma ExactlyOneReason(e: Execution, i: nat, k: nat, w: WorkerId)
    requires e.Valid() && i < |e.ops| && w in e.states[i].workers && w !in e.states[i + 1].workers && k < |e.states|
    ensures Reason(e.states[k], w) ==
      if k <= i || (exists j :: i < j < k && e.ops[j] == TakeCloseReason(w)) then None else LeavesWith(e.ops[i])
  {
    KnownWorker(e, i, w);
    if k <= i {
      NoReasonBefore(e, k, i, w);
    } else {
      NextWorkerGrowsOver(e, i, i + 1);
      if exists j :: i < j < k && e.ops[j] == TakeCloseReason(w) {
        var j :| i < j < k && e.ops[j] == TakeCloseReason(w);
        GoneForGood(e, i + 1, j, w);
        ReasonIsTakenOnce(e, j, k, w);
      } else {
        RemovalSetsReason(e, i, w);
        ReasonWaits(e, i + 1, k, w);
      }
    }
  }

  /** A worker that is still to be removed has no reason yet. */
  lemma NoReasonBefore(e: Execution, k: nat, i: nat, w: WorkerId)
    requires e.Valid() && k <= i < |e.states| && w in e.states[i].workers
    ensures Reason(e.states[k], w) == None
  {
    AlwaysSound(e, k);
    if w in e.states[k].closeReasons {
      GoneForGood(e, k, i, w);
    }
  }
}
