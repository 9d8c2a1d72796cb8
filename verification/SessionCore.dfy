/** What the core goes through in one step of a session: at most two of its operations. */
module SessionCore {
  import opened RelayState
  import opened Index
  import opened Spec
  import opened Traces
  import opened BulkTraces
  import opened WorkerSocket
  import Progress
  import Handlers
  import S = Session

  ghost predicate Goes(states: seq<State>, ops: seq<Op>) {
    |states| == |ops| + 1 && forall k :: 0 <= k < |ops| ==> GoesAt(states, ops, k)
  }

  ghost predicate GoesAt(states: seq<State>, ops: seq<Op>, k: int)
    requires |states| == |ops| + 1 && 0 <= k < |ops|
  {
    Step(states[k], ops[k], states[k + 1])
  }

  lemma OneOp(s: State, op: Op, t: State)
    requires Step(s, op, t)
    ensures Goes([s, t], [op])
  {
    assert GoesAt([s, t], [op], 0);
  }

  lemma TwoOps(s: State, op: Op, mid: State, next: Op, t: State)
    requires Step(s, op, mid) && Step(mid, next, t)
    ensures Goes([s, mid, t], [op, next])
  {
    assert GoesAt([s, mid, t], [op, next], 0) && GoesAt([s, mid, t], [op, next], 1);
  }

  lemma FrameOps(s: State, w: WorkerId, f: Frame, ok: bool, t: State) returns (states: seq<State>, ops: seq<Op>)
    requires Inv(s) && Handles(s, w, f, ok, t)
    ensures Goes(states, ops) && states[0] == s && states[|ops|] == t
  {
    if f.ResponseComplete? {
      Handlers.ResponsesAreHandled(s, w, f.id, f.body, ok, t);
      if Step(s, CompleteResponse(w, f.id, f.body), t) {
        states, ops := [s, t], [CompleteResponse(w, f.id, f.body)];
        OneOp(s, CompleteResponse(w, f.id, f.body), t);
      } else {
        var mid :| Step(s, CompleteResponse(w, f.id, f.body), mid) && f.id !in mid.senders
          && Step(mid, Op.FinishRequest(w, f.id), t);
        states, ops := [s, mid, t], [CompleteResponse(w, f.id, f.body), Op.FinishRequest(w, f.id)];
        TwoOps(s, CompleteResponse(w, f.id, f.body), mid, Op.FinishRequest(w, f.id), t);
      }
    } else if f.Other? {
      states, ops := [s], [];
    } else {
      var op := S.FrameIsStep(s, w, f, ok, t);
      states, ops := [s, t], [op];
      OneOp(s, op, t);
    }
  }

  /** Whatever happens in a session, the core sees at most two operations. */
  lemma StepOps(x: S.Session, event: S.Event, y: S.Session) returns (states: seq<State>, ops: seq<Op>)
    requires Inv(x.core) && S.SessionStep(x, event, y)
    ensures Goes(states, ops) && states[0] == x.core && states[|ops|] == y.core
  {
    states, ops := [x.core], [];
    match event
    case Receive =>
      var ok :| Handles(x.core, x.w, x.wire.up[0], ok, y.core);
      states, ops := FrameOps(x.core, x.w, x.wire.up[0], ok, y.core);
    case Elsewhere(op) =>
      OneOp(x.core, op, y.core);
      states, ops := [x.core, y.core], [op];
    case FlushRequests =>
      OneOp(x.core, TakeRequests(x.w), y.core);
      states, ops := [x.core, y.core], [TakeRequests(x.w)];
    case FlushCancels =>
      OneOp(x.core, TakeCancelSignals(x.w), y.core);
      states, ops := [x.core, y.core], [TakeCancelSignals(x.w)];
    case FlushShutdowns =>
      OneOp(x.core, TakeShutdownSignals(x.w), y.core);
      states, ops := [x.core, y.core], [TakeShutdownSignals(x.w)];
    case SendPing =>
    case SendRefresh =>
    case Daemonic(_) =>
  }

  /** What is left of the operations after the first. */
  lemma GoesRest(states: seq<State>, ops: seq<Op>)
    requires Goes(states, ops) && ops != []
    ensures Step(states[0], ops[0], states[1]) && Goes(states[1..], ops[1..])
  {
    assert GoesAt(states, ops, 0);
    forall k | 0 <= k < |ops[1..]| ensures GoesAt(states[1..], ops[1..], k) {
      assert GoesAt(states, ops, k + 1);
    }
  }

  // ---- what holds across them ----

  /** An id that has been issued and is over stays over. */
  lemma StepKeepsOver(s: State, op: Op, t: State, id: RequestId)
    requires Sound(s) && Step(s, op, t) && id !in s.active && id < s.nextRequest
    ensures id !in t.active && id < t.nextRequest
  {
    var ms := StepRuns(s, op, t);
    Progress.RunLasts(s, ms, t);
  }

  lemma {:induction false} OpsKeepOver(states: seq<State>, ops: seq<Op>, id: RequestId)
    requires Goes(states, ops) && Sound(states[0]) && id !in states[0].active && id < states[0].nextRequest
    ensures id !in states[|ops|].active && id < states[|ops|].nextRequest
    decreases |ops|
  {
    if ops != [] {
      GoesRest(states, ops);
      StepKeeps(states[0], ops[0], states[1]);
      StepKeepsOver(states[0], ops[0], states[1], id);
      OpsKeepOver(states[1..], ops[1..], id);
    }
  }

  lemma {:induction false} OpsIssue(states: seq<State>, ops: seq<Op>)
    requires Goes(states, ops) && Sound(states[0])
    ensures states[0].nextRequest <= states[|ops|].nextRequest
    decreases |ops|
  {
    if ops != [] {
      GoesRest(states, ops);
      StepKeeps(states[0], ops[0], states[1]);
      var ms := StepRuns(states[0], ops[0], states[1]);
      Progress.RunLasts(states[0], ms, states[1]);
      OpsIssue(states[1..], ops[1..]);
    }
  }

  /** A worker still registered was registered before. */
  lemma {:induction false} OpsBringNobodyBack(states: seq<State>, ops: seq<Op>, w: WorkerId)
    requires Goes(states, ops) && Sound(states[0]) && w < states[0].nextWorker && w in states[|ops|].workers
    ensures w in states[0].workers
    decreases |ops|
  {
    if ops != [] {
      GoesRest(states, ops);
      StepKeeps(states[0], ops[0], states[1]);
      S.StepNobodyReturns(states[0], ops[0], states[1], w);
      OpsBringNobodyBack(states[1..], ops[1..], w);
    }
  }

  lemma OverStaysOver(x: S.Session, event: S.Event, y: S.Session, id: RequestId)
    requires S.Good(x) && S.SessionStep(x, event, y) && id !in x.core.active && id < x.core.nextRequest
    ensures id !in y.core.active && id < y.core.nextRequest
  {
    var states, ops := StepOps(x, event, y);
    OpsKeepOver(states, ops, id);
  }

  lemma WasRegistered(x: S.Session, event: S.Event, y: S.Session)
    requires S.Good(x) && S.SessionStep(x, event, y) && y.w in y.core.workers
    ensures x.w in x.core.workers
  {
    var states, ops := StepOps(x, event, y);
    OpsBringNobodyBack(states, ops, x.w);
  }

  // ---- whole runs ----

  /** Step k leads from a good state to a good one. */
  ghost predicate GoodStep(xs: seq<S.Session>, events: seq<S.Event>, k: int)
    requires |xs| == |events| + 1 && 0 <= k < |events|
  {
    S.Good(xs[k]) && S.Good(xs[k + 1]) && S.SessionStep(xs[k], events[k], xs[k + 1])
  }

  ghost predicate GoodSteps(xs: seq<S.Session>, events: seq<S.Event>) {
    |xs| == |events| + 1 && forall k :: 0 <= k < |events| ==> GoodStep(xs, events, k)
  }

  lemma GoodStepAt(xs: seq<S.Session>, events: seq<S.Event>, k: nat)
    requires S.SessionRun(xs, events) && k < |events|
    ensures GoodStep(xs, events, k)
  {
    S.AlwaysGood(xs, events, k + 1);
    assert S.StepAt(xs, events, k);
  }

  lemma RunsAreGood(xs: seq<S.Session>, events: seq<S.Event>)
    requires S.SessionRun(xs, events)
    ensures GoodSteps(xs, events)
  {
    forall k | 0 <= k < |events| ensures GoodStep(xs, events, k) {
      GoodStepAt(xs, events, k);
    }
  }
}
