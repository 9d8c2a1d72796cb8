/** The reply senders under the HTTP and socket handlers: none outlives its request. */
module Handlers {
  import opened Seqs
  import opened RelayState
  import opened Moves
  import opened Index
  import opened Replies
  import opened Spec
  import opened Traces
  import opened BulkTraces
  import opened Executions
  import WorkerSocket

  /** The handlers finish a request on its own only when no reply of it is waiting. */
  predicate HandledOp(s: State, op: Op) {
    op.FinishRequest? ==> op.id !in s.senders
  }

  lemma {:induction false} QuietRunKeepsSenders(s: State, ms: seq<Move>, t: State)
    requires Inv(s) && SendersActive(s) && Runs(s, ms, t) && forall m :: m in ms ==> !m.Finish?
    ensures SendersActive(t)
    decreases |ms|
  {
    if ms != [] {
      MoveKeepsSenders(s, ms[0]);
      MoveKeeps(s, ms[0]);
      QuietRunKeepsSenders(Apply(s, ms[0]), ms[1..], t);
    }
  }

  lemma {:induction false} FinishRunKeepsSenders(s: State, w: WorkerId, id: RequestId, ms: seq<Move>, t: State)
    requires Inv(s) && SendersActive(s) && Runs(s, ms, t) && id !in s.senders
    requires forall m :: m in ms ==> FinishBelongs(w, id, m)
    ensures SendersActive(t) && t.senders == s.senders
    decreases |ms|
  {
    if ms != [] {
      assert ms[0] in ms;
      forall m | m in ms[1..] ensures m in ms {}
      MoveKeepsSenders(s, ms[0]);
      SilentLeaves(s, ms[0]);
      MoveKeeps(s, ms[0]);
      FinishRunKeepsSenders(Apply(s, ms[0]), w, id, ms[1..], t);
    }
  }

  lemma FinishKeepsSenders(s: State, w: WorkerId, id: RequestId, got: Option<RequestId>, t: State)
    requires Inv(s) && SendersActive(s) && Finishes(s, w, id, got, t) && id !in s.senders
    ensures SendersActive(t) && t.senders == s.senders
  {
    var ms := FinishRuns(s, w, id, got, t);
    FinishRunKeepsSenders(s, w, id, ms, t);
  }

  lemma CloseKeepsSenders(s: State, id: RequestId, body: Bytes)
    requires Inv(s) && SendersActive(s) && id in s.senders
    ensures SendersActive(Closed(s, id, body)) && Inv(Closed(s, id, body)) && id !in Closed(s, id, body).senders
  {
    WorkerSocket.ClosedInv(s, id, body);
  }

  lemma CompleteKeepsSenders(s: State, w: WorkerId, id: RequestId, body: Bytes, ok: bool, t: State)
    requires Inv(s) && SendersActive(s) && Completes(s, w, id, body, ok, t)
    ensures SendersActive(t) && id !in t.senders
  {
    if id in s.senders {
      CloseKeepsSenders(s, id, body);
      var got :| Finishes(Closed(s, id, body), w, id, got, t) && ok == (got.Some? || id !in t.active);
      FinishKeepsSenders(Closed(s, id, body), w, id, got, t);
    }
  }

  lemma NoFinishBelongs(op: Op, ms: seq<Move>)
    requires AllBelong(op, ms) && !op.FinishRequest? && !op.CompleteResponse?
    ensures forall m :: m in ms ==> !m.Finish?
  {}

  lemma OtherKeepsSenders(s: State, op: Op, t: State)
    requires Sound(s) && SendersActive(s) && Step(s, op, t) && !op.FinishRequest? && !op.CompleteResponse?
    ensures SendersActive(t)
  {
    var ms := StepRuns(s, op, t);
    NoFinishBelongs(op, ms);
    QuietRunKeepsSenders(s, ms, t);
  }

  lemma FinishingKeepsSenders(s: State, op: Op, t: State)
    requires Inv(s) && SendersActive(s) && Step(s, op, t) && HandledOp(s, op)
    requires op.FinishRequest? || op.CompleteResponse?
    ensures SendersActive(t)
  {
    if op.FinishRequest? {
      var got :| Finishes(s, op.w, op.id, got, t);
      FinishKeepsSenders(s, op.w, op.id, got, t);
    } else {
      CompleteKeepsSenders(s, op.w, op.id, op.body, Completes(s, op.w, op.id, op.body, true, t), t);
    }
  }

  lemma StepKeepsSenders(s: State, op: Op, t: State)
    requires Sound(s) && SendersActive(s) && Step(s, op, t) && HandledOp(s, op)
    ensures SendersActive(t)
  {
    if op.FinishRequest? || op.CompleteResponse? {
      FinishingKeepsSenders(s, op, t);
    } else {
      OtherKeepsSenders(s, op, t);
    }
  }

  lemma ExecutionKeepsSenders(e: Execution, k: nat)
    requires e.Valid() && k < |e.ops| && HandledOp(e.states[k], e.ops[k]) && SendersActive(e.states[k])
    ensures SendersActive(e.states[k + 1])
  {
    AlwaysSound(e, k);
    assert e.StepAt(k);
    StepKeepsSenders(e.states[k], e.ops[k], e.states[k + 1]);
  }

  /** In a run whose operations come from the handlers, whoever still waits for a reply
      waits for a request that is still active. */
  lemma {:induction false} NoSenderOutlivesItsRequest(e: Execution, k: nat)
    requires e.Valid() && k < |e.states|
    requires forall j :: 0 <= j < |e.ops| ==> HandledOp(e.states[j], e.ops[j])
    ensures SendersActive(e.states[k])
  {
    if k != 0 {
      NoSenderOutlivesItsRequest(e, k - 1);
      ExecutionKeepsSenders(e, k - 1);
    }
  }

  /** The socket's answer to a completed response is one or two such operations. */
  lemma ResponsesAreHandled(s: State, w: WorkerId, id: RequestId, body: Bytes, ok: bool, t: State)
    requires Inv(s) && WorkerSocket.Responds(s, w, id, body, ok, t)
    ensures Step(s, CompleteResponse(w, id, body), t)
         || exists mid ::
              Step(s, CompleteResponse(w, id, body), mid) && id !in mid.senders && Step(mid, Op.FinishRequest(w, id), t)
  {
    if !(ok && Completes(s, w, id, body, true, t)) {
      var mid :| Completes(s, w, id, body, false, mid) && WorkerSocket.Retries(mid, w, id, ok, t);
      WorkerSocket.CompleteEnds(s, w, id, body, false, mid);
      var got :| Finishes(mid, w, id, got, t) && ok == (got.Some? || id !in t.active);
      assert Step(mid, Op.FinishRequest(w, id), t);
      assert Step(s, CompleteResponse(w, id, body), mid);
    }
  }
}
