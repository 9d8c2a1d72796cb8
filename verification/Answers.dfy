/** What the core's operations return: the steps of the specification, each with its answer. */
module Answers {
  import opened Seqs
  import opened RelayState
  import opened Moves
  import opened Spec
  import opened Loops
  import opened Reports
  import H = DispatchHarness

  /** Refusals are compared without their reason, of which the harness knows only one. */
  function PlacementOf(out: Outcome): H.Placement {
    match out
    case Dispatched(id, w) => H.Placement.Dispatched(id, w)
    case Waiting(id, n) => H.Placement.Waiting(id, n)
    case Rejected(id, _) => H.Placement.Rejected(id)
  }

  function Dismissal(s: State, now: nat): H.Answer {
    var ws := Filter(s.order, OverdueAt(s, now));
    H.Dismissed(ws, AllFailed(RunningInTurn(s.workers, ws), GracefulShutdownTimedOut))
  }

  ghost predicate Sweeps(s: State, now: nat, a: H.Answer) {
    exists keys: seq<string> ::
      NoDup(keys) && Elements(keys) == s.queues.Keys
      && a == H.Swept(AllFailed(ExpiredInTurn(s, keys, now), QueueTimedOut))
  }

  function Loss(s: State, w: WorkerId): H.Answer {
    H.Lost(if w in s.workers then Some(LossOutcome(s, w)) else None)
  }

  ghost predicate Finishing(s: State, w: WorkerId, id: RequestId, a: H.Answer, t: State) {
    a.Passed? && Finishes(s, w, id, a.next, t)
  }

  /** A completion finishes its request if its reply is still held, and does nothing otherwise. */
  ghost predicate Completing(s: State, w: WorkerId, id: RequestId, body: Bytes, a: H.Answer, t: State) {
    if id in s.senders then Finishing(Closed(s, id, body), w, id, a, t) else a == H.Unheld && t == s
  }

  ghost predicate Submitting(s: State, x: Submission, a: H.Answer, t: State) {
    exists out :: Submits(s, x, out, t) && a == H.Placed(PlacementOf(out))
  }

  /** A step of the core that tells its caller a. */
  ghost predicate StepAs(s: State, op: Op, a: H.Answer, t: State) {
    match op
    case Register(_, _, _, _, _) => a == H.Registered(s.nextWorker) && Step(s, op, t)
    case UpdateModels(w, models, current) => a.Gave? && Retunes(s, w, models, current, a.ids, t)
    case Pong(w, current) => a.Gave? && Pongs(s, w, current, a.ids, t)
    case Submit(x) => Submitting(s, x, a, t)
    case FinishRequest(w, id) => Finishing(s, w, id, a, t)
    case CompleteResponse(w, id, body) => Completing(s, w, id, body, a, t)
    case BeginShutdown(_, _, _) => a == H.Asked(NotDraining(s)) && Step(s, op, t)
    case ExpireShutdown(now) => a == Dismissal(s, now) && Step(s, op, t)
    case ExpireQueues(now) => Sweeps(s, now, a) && Step(s, op, t)
    case Disconnect(w) => a == Loss(s, w) && Step(s, op, t)
    case CancelRequest(id, reason) => a.Cancelled? && Cancels(s, id, reason, a.outcome, t)
    case _ => a == H.Silent && Step(s, op, t)
  }

  // ---- every step has an answer, and every answered step is a step ----

  lemma {:induction false} InSomeOrder(keys: set<string>) returns (order: seq<string>)
    ensures NoDup(order) && Elements(order) == keys
    decreases |keys|
  {
    order := [];
    if keys != {} {
      var p :| p in keys;
      var rest := InSomeOrder(keys - {p});
      assert p !in Elements(rest);
      order := rest + [p];
      assert Elements(order) == Elements(rest) + {p};
    }
  }

  /** The answer of a completion says what the core's own answer says. */
  lemma CompletingCompletes(s: State, w: WorkerId, id: RequestId, body: Bytes, a: H.Answer, t: State)
    requires Completing(s, w, id, body, a, t)
    ensures Completes(s, w, id, body, a.Passed? && (a.next.Some? || id !in t.active), t)
  {}

  lemma CompletesCompleting(s: State, w: WorkerId, id: RequestId, body: Bytes, ok: bool, t: State)
    returns (a: H.Answer)
    requires Completes(s, w, id, body, ok, t)
    ensures Completing(s, w, id, body, a, t)
  {
    a := H.Unheld;
    if id in s.senders {
      var got :| Finishes(Closed(s, id, body), w, id, got, t) && ok == (got.Some? || id !in t.active);
      a := H.Passed(got);
    }
  }

  /** Nothing but an answer is added to a step. */
  lemma StepAsIsStep(s: State, op: Op, a: H.Answer, t: State)
    requires StepAs(s, op, a, t)
    ensures Step(s, op, t)
  {
    if op.CompleteResponse? {
      CompletingCompletes(s, op.w, op.id, op.body, a, t);
    } else if op.Submit? {
      var out :| Submits(s, op.x, out, t) && a == H.Placed(PlacementOf(out));
    }
  }

  lemma RequestAnswers(s: State, op: Op, t: State) returns (a: H.Answer)
    requires Step(s, op, t)
    requires op.UpdateModels? || op.Pong? || op.Submit?
          || op.FinishRequest? || op.CompleteResponse? || op.CancelRequest?
    ensures StepAs(s, op, a, t)
  {
    match op
    case UpdateModels(w, models, current) =>
      var got :| Retunes(s, w, models, current, got, t);
      a := H.Gave(got);
    case Pong(w, current) =>
      var got :| Pongs(s, w, current, got, t);
      a := H.Gave(got);
    case Submit(x) =>
      var out :| Submits(s, x, out, t);
      a := H.Placed(PlacementOf(out));
    case FinishRequest(w, id) =>
      var got :| Finishes(s, w, id, got, t);
      a := H.Passed(got);
    case CompleteResponse(w, id, body) =>
      a := CompletesCompleting(s, w, id, body, Completes(s, w, id, body, true, t), t);
    case CancelRequest(id, reason) =>
      var out :| Cancels(s, id, reason, out, t);
      a := H.Cancelled(out);
  }

  lemma WorkerAnswers(s: State, op: Op, t: State) returns (a: H.Answer)
    requires Step(s, op, t)
    requires !(op.UpdateModels? || op.Pong? || op.Submit?)
    requires !(op.FinishRequest? || op.CompleteResponse? || op.CancelRequest?)
    ensures StepAs(s, op, a, t)
  {
    match op
    case Register(_, _, _, _, _) => a := H.Registered(s.nextWorker);
    case BeginShutdown(_, _, _) => a := H.Asked(NotDraining(s));
    case ExpireShutdown(now) => a := Dismissal(s, now);
    case ExpireQueues(now) =>
      var keys := InSomeOrder(s.queues.Keys);
      a := H.Swept(AllFailed(ExpiredInTurn(s, keys, now), QueueTimedOut));
    case Disconnect(w) => a := Loss(s, w);
    case _ => a := H.Silent;
  }

  /** Every step of the core has an answer. */
  lemma StepAnswers(s: State, op: Op, t: State) returns (a: H.Answer)
    requires Step(s, op, t)
    ensures StepAs(s, op, a, t)
  {
    if op.UpdateModels? || op.Pong? || op.Submit? || op.FinishRequest? || op.CompleteResponse? || op.CancelRequest? {
      a := RequestAnswers(s, op, t);
    } else {
      a := WorkerAnswers(s, op, t);
    }
  }
}
