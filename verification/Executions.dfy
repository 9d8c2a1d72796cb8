/** Whole runs of the core: any sequence of public operations, from a core with nothing
    in it. What the runs of moves keep, every execution keeps. */
module Executions {
  import opened RelayState
  import opened Moves
  import opened Index
  import opened Replies
  import opened Progress
  import opened Cancellation
  import opened Spec
  import opened Traces
  import opened BulkTraces

  datatype Execution = Execution(states: seq<State>, ops: seq<Op>)
  {
    ghost predicate Valid() {
      |states| == |ops| + 1 && states[0] == INITIAL
      && forall k :: 0 <= k < |ops| ==> StepAt(k)
    }

    ghost predicate StepAt(k: int)
      requires |states| == |ops| + 1 && 0 <= k < |ops|
    {
      Step(states[k], ops[k], states[k + 1])
    }
  }

  // ---- agreement ----

  lemma InitiallySound()
    ensures Sound(INITIAL)
  {
    InitialInv();
  }

  /** The index, the queues, the lists, the listing, the outboxes, the close reasons and the
      reply channels agree after any sequence of operations. */
  lemma {:induction false} AlwaysSound(e: Execution, k: nat)
    requires e.Valid() && k < |e.states|
    ensures Sound(e.states[k])
  {
    if k == 0 {
      InitiallySound();
    } else {
      AlwaysSound(e, k - 1);
      assert e.StepAt(k - 1);
      StepKeeps(e.states[k - 1], e.ops[k - 1], e.states[k]);
    }
  }

  /** Step k as a run of moves. */
  lemma StepAsRun(e: Execution, k: nat) returns (ms: seq<Move>)
    requires e.Valid() && k < |e.ops|
    ensures Inv(e.states[k]) && Channels(e.states[k])
    ensures Runs(e.states[k], ms, e.states[k + 1]) && AllBelong(e.ops[k], ms)
  {
    AlwaysSound(e, k);
    assert e.StepAt(k);
    ms := StepRuns(e.states[k], e.ops[k], e.states[k + 1]);
  }

  // ---- identity, assignments ----

  lemma LastsTrans(a: map<RequestId, Active>, n: nat, b: map<RequestId, Active>, n': nat, c: map<RequestId, Active>,
                   n'': nat)
    requires Lasts(a, n, b, n') && Lasts(b, n', c, n'')
    requires forall id :: id in a ==> id < n
    ensures Lasts(a, n, c, n'')
  {}

  lemma StepLasts(e: Execution, k: nat)
    requires e.Valid() && k < |e.ops|
    ensures Lasts(e.states[k].active, e.states[k].nextRequest, e.states[k + 1].active, e.states[k + 1].nextRequest)
  {
    var ms := StepAsRun(e, k);
    RunLasts(e.states[k], ms, e.states[k + 1]);
  }

  lemma KnownIds(e: Execution, k: nat)
    requires e.Valid() && k < |e.states|
    ensures forall id :: id in e.states[k].active ==> id < e.states[k].nextRequest
  {
    AlwaysSound(e, k);
  }

  /** Ended ids never return, and what lasts keeps its provider, model, path, routing and
      queueing time, over any stretch of a run. */
  lemma {:induction false} AlwaysLasts(e: Execution, i: nat, k: nat)
    requires e.Valid() && i <= k < |e.states|
    ensures Lasts(e.states[i].active, e.states[i].nextRequest, e.states[k].active, e.states[k].nextRequest)
    decreases k
  {
    KnownIds(e, i);
    if i < k {
      AlwaysLasts(e, i, k - 1);
      StepLasts(e, k - 1);
      LastsTrans(e.states[i].active, e.states[i].nextRequest, e.states[k - 1].active, e.states[k - 1].nextRequest,
                 e.states[k].active, e.states[k].nextRequest);
    }
  }

  lemma StepKeepsCounts(e: Execution, k: nat)
    requires e.Valid() && k < |e.ops| && AssignedFewTimes(e.states[k])
    ensures AssignedFewTimes(e.states[k + 1])
  {
    var ms := StepAsRun(e, k);
    RunKeepsCounts(e.states[k], ms, e.states[k + 1]);
  }

  lemma {:induction false} AlwaysCounted(e: Execution, k: nat)
    requires e.Valid() && k < |e.states|
    ensures AssignedFewTimes(e.states[k])
  {
    if k != 0 {
      AlwaysCounted(e, k - 1);
      StepKeepsCounts(e, k - 1);
    }
  }

  /** No request is ever given to a worker more than four times. */
  lemma AtMostFourAssignments(e: Execution, k: nat, id: RequestId)
    requires e.Valid() && k < |e.states|
    ensures TimesAssigned(e.states[k].history.assignments, id) <= 4
  {
    AlwaysCounted(e, k);
    assert CountOk(e.states[k].history.assignments, e.states[k].active, e.states[k].nextRequest, id);
  }

  // ---- progress ----

  /** Some request that was there is dispatched, put back or ended. */
  ghost predicate Works(s: State, t: State) {
    exists id: RequestId :: id < s.nextRequest && Weight(s.active, id) != Weight(t.active, id)
  }

  lemma IdleChange(a: map<RequestId, Active>, n: nat, c: Change, id: RequestId)
    requires Lawful(a, n, c) && id < n && forall x :: x in a ==> x < n && a[x].request.id == x
    requires c.Same? || c.Marks? || (c.WaitsAgain? && c.r.id !in a)
    ensures Weight(Changed(a, c), id) == Weight(a, id)
  {}

  lemma IdleMove(s: State, m: Move, id: RequestId)
    requires Inv(s) && Enabled(s, m) && Work(m) == 0 && id < s.nextRequest
    ensures Weight(Apply(s, m).active, id) == Weight(s.active, id)
  {
    ChangeIs(s, m);
    ChangeIsLawful(s, m);
    WorkIs(s, m);
    IdleChange(s.active, s.nextRequest, ChangeOf(s, m), id);
  }

  lemma {:induction false} IdleRun(s: State, ms: seq<Move>, t: State, id: RequestId)
    requires Inv(s) && Runs(s, ms, t) && WorkDone(ms) == 0 && id < s.nextRequest
    ensures Weight(t.active, id) == Weight(s.active, id)
    decreases |ms|
  {
    if ms != [] {
      IdleMove(s, ms[0], id);
      NextRequestIs(s, ms[0]);
      MoveKeeps(s, ms[0]);
      IdleRun(Apply(s, ms[0]), ms[1..], t, id);
    }
  }

  lemma {:induction false} RunSubmits(s: State, ms: seq<Move>, t: State)
    requires Runs(s, ms, t)
    ensures t.nextRequest == s.nextRequest + Submissions(ms)
    decreases |ms|
  {
    if ms != [] {
      NextRequestIs(s, ms[0]);
      RunSubmits(Apply(s, ms[0]), ms[1..], t);
    }
  }

  lemma WorkingRunSpends(s: State, ms: seq<Move>, t: State)
    requires Inv(s) && Runs(s, ms, t)
    ensures Budget(t) + (if Works(s, t) then 1 else 0) <= Budget(s) + 8 * (t.nextRequest - s.nextRequest)
  {
    RunSpends(s, ms, t);
    RunSubmits(s, ms, t);
    if Works(s, t) {
      var id: RequestId :| id < s.nextRequest && Weight(s.active, id) != Weight(t.active, id);
      if WorkDone(ms) == 0 {
        IdleRun(s, ms, t, id);
      }
    }
  }

  lemma StepSpends(e: Execution, k: nat)
    requires e.Valid() && k < |e.ops|
    ensures var s, t := e.states[k], e.states[k + 1];
      Budget(t) + (if Works(s, t) then 1 else 0) <= Budget(s) + 8 * (t.nextRequest - s.nextRequest)
  {
    var ms := StepAsRun(e, k);
    WorkingRunSpends(e.states[k], ms, e.states[k + 1]);
  }

  ghost function WorkingSteps(e: Execution, i: nat, k: nat): nat
    requires e.Valid() && i <= k < |e.states|
    decreases k
  {
    if i == k then 0
    else WorkingSteps(e, i, k - 1) + if Works(e.states[k - 1], e.states[k]) then 1 else 0
  }

  lemma {:induction false} StretchSpends(e: Execution, i: nat, k: nat)
    requires e.Valid() && i <= k < |e.states|
    ensures Budget(e.states[k]) + WorkingSteps(e, i, k)
         <= Budget(e.states[i]) + 8 * (e.states[k].nextRequest - e.states[i].nextRequest)
    decreases k
  {
    if i < k {
      StretchSpends(e, i, k - 1);
      StepSpends(e, k - 1);
    }
  }

  /** Over any stretch of a run, the steps that dispatch, put back or end work are bounded by
      the budget at its start and eight more for each submission in it. In particular, with
      no submissions only finitely many happen. */
  lemma FinitelyManyWorkingSteps(e: Execution, i: nat, k: nat)
    requires e.Valid() && i <= k < |e.states|
    ensures WorkingSteps(e, i, k) <= Budget(e.states[i]) + 8 * (e.states[k].nextRequest - e.states[i].nextRequest)
    ensures WorkingSteps(e, 0, k) <= 8 * (e.states[k].nextRequest - 1)
  {
    StretchSpends(e, i, k);
    StretchSpends(e, 0, k);
    AlwaysSound(e, k);
    TotalNonNegative(e.states[k].active, e.states[k].nextRequest);
    assert Total(INITIAL.active, 1) == Total(INITIAL.active, 0) == 0;
  }

  // ---- cancellation ----

  lemma InitialCancels()
    ensures CancelsAgree(INITIAL)
  {}

  lemma StepKeepsCancels(e: Execution, k: nat)
    requires e.Valid() && k < |e.ops| && CancelsAgree(e.states[k])
    ensures CancelsAgree(e.states[k + 1])
  {
    var ms := StepAsRun(e, k);
    RunKeepsCancels(e.states[k], ms, e.states[k + 1]);
  }

  /** One signal is ever raised for a cancelled request; it waits until delivered once. */
  lemma {:induction false} AlwaysSignalledOnce(e: Execution, k: nat)
    requires e.Valid() && k < |e.states|
    ensures CancelsAgree(e.states[k])
  {
    if k == 0 {
      InitialCancels();
    } else {
      AlwaysSignalledOnce(e, k - 1);
      StepKeepsCancels(e, k - 1);
    }
  }

  lemma StepSticks(e: Execution, k: nat)
    requires e.Valid() && k < |e.ops|
    ensures Sticks(e.states[k].active, e.states[k + 1].active)
  {
    var ms := StepAsRun(e, k);
    RunSticks(e.states[k], ms, e.states[k + 1]);
  }

  lemma SticksTrans(a: map<RequestId, Active>, n: nat, b: map<RequestId, Active>, n': nat, c: map<RequestId, Active>,
                    n'': nat)
    requires Sticks(a, b) && Sticks(b, c) && Lasts(b, n', c, n'') && n <= n'
    requires forall id :: id in a ==> id < n
    ensures Sticks(a, c)
  {}

  /** A cancelled running request keeps its worker and its first reason, and is never put
      back in a queue, for as long as it lasts. */
  lemma {:induction false} FirstReasonStands(e: Execution, i: nat, k: nat)
    requires e.Valid() && i <= k < |e.states|
    ensures Sticks(e.states[i].active, e.states[k].active)
    decreases k
  {
    if i < k {
      KnownIds(e, i);
      FirstReasonStands(e, i, k - 1);
      StepSticks(e, k - 1);
      StepLasts(e, k - 1);
      AlwaysLasts(e, i, k - 1);
      SticksTrans(e.states[i].active, e.states[i].nextRequest, e.states[k - 1].active, e.states[k - 1].nextRequest,
                  e.states[k].active, e.states[k].nextRequest);
    }
  }

  // ---- replies ----

  lemma StepLogsGrow(e: Execution, k: nat)
    requires e.Valid() && k < |e.ops|
    ensures LogsGrow(e.states[k], e.states[k + 1])
  {
    var ms := StepAsRun(e, k);
    RunKeepsChannels(e.states[k], ms, e.states[k + 1]);
  }

  lemma LogsGrowNone(s: State)
    requires Channels(s)
    ensures LogsGrow(s, s)
  {}

  lemma LogsGrowTrans(s: State, t: State, u: State)
    requires LogsGrow(s, t) && LogsGrow(t, u)
    ensures LogsGrow(s, u)
  {
    forall id | id in s.replies
      ensures id in u.replies && s.replies[id] <= u.replies[id]
      ensures id !in s.senders ==> u.replies[id] == s.replies[id] && id !in u.senders
    {
      assert s.replies[id] <= t.replies[id] <= u.replies[id];
    }
  }

  ghost predicate GrowUpTo(e: Execution, i: nat, k: nat)
    requires i <= k < |e.states|
  {
    forall j :: i <= j <= k ==> LogsGrow(e.states[i], e.states[j])
  }

  lemma StretchGrows(e: Execution, i: nat, k: nat)
    requires e.Valid() && i <= k < |e.ops| && GrowUpTo(e, i, k)
    ensures GrowUpTo(e, i, k + 1)
  {
    StepLogsGrow(e, k);
    LogsGrowTrans(e.states[i], e.states[k], e.states[k + 1]);
  }

  lemma StartsGrowing(e: Execution, i: nat)
    requires e.Valid() && i < |e.states|
    ensures GrowUpTo(e, i, i)
  {
    AlwaysSound(e, i);
    LogsGrowNone(e.states[i]);
  }

  lemma {:induction false} AlwaysGrow(e: Execution, i: nat, k: nat)
    requires e.Valid() && i <= k < |e.states|
    ensures GrowUpTo(e, i, k)
    decreases k
  {
    if i == k {
      StartsGrowing(e, i);
    } else {
      AlwaysGrow(e, i, k - 1);
      StretchGrows(e, i, k - 1);
    }
  }

  /** What a client has received is never taken back, and nothing follows an ending. */
  lemma RepliesOnlyGrow(e: Execution, i: nat, k: nat)
    requires e.Valid() && i <= k < |e.states|
    ensures LogsGrow(e.states[i], e.states[k])
  {
    AlwaysGrow(e, i, k);
  }

  lemma NoChunkBelongs(op: Op, ms: seq<Move>)
    requires AllBelong(op, ms) && !op.StreamChunk?
    ensures forall m :: m in ms ==> !m.SendChunk?
  {}

  lemma ChunkFromOwner(s: State, w: WorkerId, id: RequestId, data: Bytes, x: RequestId, i: nat)
    requires |s.Replies(x)| <= i < |Chunked(s, w, id, data).Replies(x)|
    ensures Owns(s, w, id) && x == id && Chunked(s, w, id, data).Replies(x)[i] == Chunk(data)
  {}

  /** Every chunk in a reply was sent, as it is, by the worker that was running the request. */
  lemma ChunksComeFromTheirOwner(e: Execution, k: nat, id: RequestId, i: nat)
    requires e.Valid() && k < |e.ops|
    requires |e.states[k].Replies(id)| <= i < |e.states[k + 1].Replies(id)|
    requires e.states[k + 1].Replies(id)[i].Chunk?
    ensures e.ops[k].StreamChunk? && e.ops[k].id == id && e.ops[k].data == e.states[k + 1].Replies(id)[i].data
    ensures Owns(e.states[k], e.ops[k].w, id)
  {
    if e.ops[k].StreamChunk? {
      assert e.StepAt(k);
      ChunkFromOwner(e.states[k], e.ops[k].w, e.ops[k].id, e.ops[k].data, id, i);
    } else {
      var ms := StepAsRun(e, k);
      NoChunkBelongs(e.ops[k], ms);
      RunAddsNoChunk(e.states[k], ms, e.states[k + 1]);
    }
  }
}
