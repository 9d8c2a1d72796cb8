/** What a daemon reads: each request on its link says what its submission said. */
module SentWork {
  import opened Seqs
  import opened RelayState
  import opened Moves
  import opened Index
  import opened Selection
  import opened Spec
  import opened Traces
  import opened BulkTraces
  import opened Traffic
  import opened Daemon
  import opened Contents
  import opened SessionCore
  import S = Session

  // ---- the core ----

  lemma {:induction false} OpsKeepSaying(states: seq<State>, ops: seq<Op>, w: WorkerId, id: RequestId, x: Submission)
    requires Goes(states, ops) && Sound(states[0]) && Says(states[0], w, id, x)
    ensures Says(states[|ops|], w, id, x)
    decreases |ops|
  {
    if ops != [] {
      GoesRest(states, ops);
      StepKeeps(states[0], ops[0], states[1]);
      StepKeepsSaying(states[0], ops[0], states[1], w, id, x);
      OpsKeepSaying(states[1..], ops[1..], w, id, x);
    }
  }

  lemma {:induction false} OpsKeepIssued(states: seq<State>, ops: seq<Op>, w: WorkerId)
    requires Goes(states, ops) && Sound(states[0]) && BoxIssued(states[0], w)
    ensures BoxIssued(states[|ops|], w) && states[0].nextRequest <= states[|ops|].nextRequest
    decreases |ops|
  {
    OpsIssue(states, ops);
    if ops != [] {
      GoesRest(states, ops);
      StepKeeps(states[0], ops[0], states[1]);
      StepKeepsIssued(states[0], ops[0], states[1], w);
      OpsKeepIssued(states[1..], ops[1..], w);
    }
  }

  // ---- the link ----

  ghost predicate LinkSays(down: seq<Down>, id: RequestId, x: Submission) {
    forall d :: d in down && d.Work? ==> MessageSays(d.message, id, x)
  }

  ghost predicate LinkIssued(down: seq<Down>, n: nat) {
    forall d :: d in down && d.Work? ==> d.message.id < n
  }

  lemma {:induction false} RequestsAre(ms: seq<Message>)
    ensures |Requests(ms)| == |ms| && forall i :: 0 <= i < |ms| ==> Requests(ms)[i] == Work(ms[i])
    decreases |ms|
  {
    if ms != [] {
      RequestsAre(ms[..|ms| - 1]);
    }
  }

  lemma {:induction false} CancelsAre(signals: seq<CancelSignal>)
    ensures |Traffic.Cancels(signals)| == |signals|
    ensures forall i :: 0 <= i < |signals| ==> Traffic.Cancels(signals)[i] == Cancel(signals[i].id, signals[i].reason)
    decreases |signals|
  {
    if signals != [] {
      CancelsAre(signals[..|signals| - 1]);
    }
  }

  lemma {:induction false} ShutdownsAre(n: nat)
    ensures |Shutdowns(n)| == n && forall i :: 0 <= i < n ==> Shutdowns(n)[i] == Shutdown
    decreases n
  {
    if n != 0 {
      ShutdownsAre(n - 1);
    }
  }

  /** What an event puts on the link, one message for each thing collected, in order. */
  ghost predicate Puts(x: S.Session, event: S.Event, more: seq<Down>) {
    match event
    case FlushRequests =>
      var box := x.core.Outbox(x.w);
      |more| == |box| && forall i :: 0 <= i < |box| ==> more[i] == Work(box[i])
    case FlushCancels =>
      var due := DueCancels(x.core, x.w);
      |more| == |due| && forall i :: 0 <= i < |due| ==> more[i] == Cancel(due[i].id, due[i].reason)
    case FlushShutdowns =>
      |more| == |DueShutdowns(x.core, x.w)| && forall i :: 0 <= i < |more| ==> more[i] == Shutdown
    case SendPing => more == [Ping]
    case SendRefresh => more == [Refresh]
    case _ => more == []
  }

  predicate TakesOne(event: S.Event) { event.Daemonic? && event.act.Deliver? }

  lemma ActReads(x: Wire, act: Act)
    requires Daemon.Enabled(x, act)
    ensures Next(x, act).down == if act.Deliver? then x.down[1..] else x.down
  {}

  /** The link is a queue: the daemon reads its head, and what is sent comes last. */
  lemma LinkIsAQueue(x: S.Session, event: S.Event, y: S.Session) returns (more: seq<Down>)
    requires S.SessionStep(x, event, y)
    ensures Puts(x, event, more) && (TakesOne(event) ==> x.wire.down != [])
    ensures y.wire.down == (if TakesOne(event) then x.wire.down[1..] else x.wire.down) + more
  {
    more := [];
    match event
    case Elsewhere(_) =>
    case Receive =>
    case FlushRequests =>
      more := Requests(x.core.Outbox(x.w));
      RequestsAre(x.core.Outbox(x.w));
    case FlushCancels =>
      more := Traffic.Cancels(DueCancels(x.core, x.w));
      CancelsAre(DueCancels(x.core, x.w));
    case FlushShutdowns =>
      more := Shutdowns(|DueShutdowns(x.core, x.w)|);
      ShutdownsAre(|DueShutdowns(x.core, x.w)|);
    case SendPing => more := [Ping];
    case SendRefresh => more := [Refresh];
    case Daemonic(act) => ActReads(x.wire, act);
  }

  lemma PutIs(x: S.Session, event: S.Event, more: seq<Down>, d: Down)
    requires Puts(x, event, more) && d in more
    ensures d.Work? ==> d.message in x.core.Outbox(x.w)
    ensures d.Cancel? ==> event.FlushCancels? && CancelIsDue(x, d.id, d.reason)
  {
    var i :| 0 <= i < |more| && more[i] == d;
    if event.FlushCancels? {
      FilterMembers(x.core.cancelSignals, PendingOn(x.core, x.w));
      assert DueCancels(x.core, x.w)[i] in DueCancels(x.core, x.w);
    }
  }

  lemma LinkGrows(x: S.Session, event: S.Event, y: S.Session, d: Down)
    requires S.SessionStep(x, event, y) && d in y.wire.down && d !in x.wire.down
    ensures d.Work? ==> d.message in x.core.Outbox(x.w)
    ensures d.Cancel? ==> event.FlushCancels? && CancelIsDue(x, d.id, d.reason)
  {
    var more := LinkIsAQueue(x, event, y);
    assert d in more;
    PutIs(x, event, more, d);
  }

  // ---- cancels ----

  /** The worker runs the request, which is cancelled, and has not been told so. */
  ghost predicate CancelIsDue(x: S.Session, id: RequestId, reason: CancelReason) {
    CancelSignal(x.w, id, reason) in x.core.cancelSignals && id in x.core.active && x.core.active[id].InFlight?
    && x.core.active[id].worker == x.w && x.core.active[id].cancellation.Some?
  }

  lemma CancelAppears(xs: seq<S.Session>, events: seq<S.Event>, k: nat, d: Down)
    requires GoodSteps(xs, events) && k < |events| && d.Cancel? && d in xs[k + 1].wire.down && d !in xs[k].wire.down
    ensures events[k].FlushCancels? && CancelIsDue(xs[k], d.id, d.reason)
  {
    assert GoodStep(xs, events, k);
    LinkGrows(xs[k], events[k], xs[k + 1], d);
  }

  lemma {:induction false} SentWhenDue(xs: seq<S.Session>, events: seq<S.Event>, k: nat, d: Down) returns (j: nat)
    requires GoodSteps(xs, events) && k < |xs| && d.Cancel? && d in xs[k].wire.down && d !in xs[0].wire.down
    ensures j < k && events[j].FlushCancels? && CancelIsDue(xs[j], d.id, d.reason)
    decreases k
  {
    if k != 0 {
      if d in xs[k - 1].wire.down {
        j := SentWhenDue(xs, events, k - 1, d);
      } else {
        CancelAppears(xs, events, k - 1, d);
        j := k - 1;
      }
    }
  }

  /** A daemon is only told to cancel what its worker was running when it was told, cancelled
      and with a signal of that very reason waiting. */
  lemma EveryCancelWasDue(xs: seq<S.Session>, events: seq<S.Event>, k: nat, id: RequestId, reason: CancelReason)
    returns (j: nat)
    requires S.SessionRun(xs, events) && k < |xs| && Cancel(id, reason) in xs[k].wire.down
    ensures j < k && events[j].FlushCancels? && CancelIsDue(xs[j], id, reason)
  {
    RunsAreGood(xs, events);
    StartsWithAck(xs[0]);
    j := SentWhenDue(xs, events, k, Cancel(id, reason));
  }

  // ---- each step ----

  ghost predicate AllSays(x: S.Session, id: RequestId, sub: Submission) {
    Says(x.core, x.w, id, sub) && LinkSays(x.wire.down, id, sub)
  }

  ghost predicate AllIssued(x: S.Session) {
    BoxIssued(x.core, x.w) && LinkIssued(x.wire.down, x.core.nextRequest)
  }

  lemma StepSays(x: S.Session, event: S.Event, y: S.Session, id: RequestId, sub: Submission)
    requires S.Good(x) && S.SessionStep(x, event, y) && AllSays(x, id, sub)
    ensures AllSays(y, id, sub)
  {
    var states, ops := StepOps(x, event, y);
    OpsKeepSaying(states, ops, x.w, id, sub);
    forall d | d in y.wire.down && d.Work? ensures MessageSays(d.message, id, sub) {
      if d !in x.wire.down {
        LinkGrows(x, event, y, d);
      }
    }
  }

  lemma StepIssued(x: S.Session, event: S.Event, y: S.Session)
    requires S.Good(x) && S.SessionStep(x, event, y) && AllIssued(x)
    ensures AllIssued(y)
  {
    var states, ops := StepOps(x, event, y);
    OpsKeepIssued(states, ops, x.w);
    forall d | d in y.wire.down && d.Work? ensures d.message.id < y.core.nextRequest {
      if d !in x.wire.down {
        LinkGrows(x, event, y, d);
      }
    }
  }

  /** Right after a submission nothing on the link has its id. */
  lemma SubmittedSays(x: S.Session, sub: Submission, y: S.Session)
    requires S.Good(x) && S.SessionStep(x, S.Elsewhere(Submit(sub)), y) && AllIssued(x)
    ensures AllSays(y, x.core.nextRequest, sub)
  {
    SubmissionSays(x.core, sub, y.core, x.w);
  }

  // ---- whole runs ----

  lemma NewcomersBox(s: State, worker: Worker)
    requires Listed(s)
    ensures Added(s, worker).Outbox(s.nextWorker) == []
  {}

  lemma StartsIssued(x: S.Session)
    requires S.Begins(x)
    ensures x.core.Outbox(x.w) == [] && AllIssued(x)
  {
    var s: State, worker: Worker :|
      Sound(s) && worker.inFlight == [] && worker.deadline == None && 1 <= worker.maxConcurrent <= U32_MAX
      && x == S.Session(Added(s, worker), s.nextWorker, FRESH);
    NewcomersBox(s, worker);
  }

  lemma NextIssued(xs: seq<S.Session>, events: seq<S.Event>, k: nat)
    requires GoodSteps(xs, events) && k < |events| && AllIssued(xs[k])
    ensures AllIssued(xs[k + 1])
  {
    assert GoodStep(xs, events, k);
    StepIssued(xs[k], events[k], xs[k + 1]);
  }

  lemma {:induction false} AlwaysIssued(xs: seq<S.Session>, events: seq<S.Event>, i: nat, k: nat)
    requires GoodSteps(xs, events) && i <= k < |xs| && AllIssued(xs[i])
    ensures AllIssued(xs[k])
    decreases k - i
  {
    if i < k {
      NextIssued(xs, events, i);
      AlwaysIssued(xs, events, i + 1, k);
    }
  }

  lemma NextSays(xs: seq<S.Session>, events: seq<S.Event>, k: nat, id: RequestId, sub: Submission)
    requires GoodSteps(xs, events) && k < |events| && AllSays(xs[k], id, sub)
    ensures AllSays(xs[k + 1], id, sub)
  {
    assert GoodStep(xs, events, k);
    StepSays(xs[k], events[k], xs[k + 1], id, sub);
  }

  lemma {:induction false} GoesOnSaying(xs: seq<S.Session>, events: seq<S.Event>, i: nat, k: nat, id: RequestId,
                                        sub: Submission)
    requires GoodSteps(xs, events) && i <= k < |xs| && AllSays(xs[i], id, sub)
    ensures AllSays(xs[k], id, sub)
    decreases k - i
  {
    if i < k {
      NextSays(xs, events, i, id, sub);
      GoesOnSaying(xs, events, i + 1, k, id, sub);
    }
  }

  lemma SubmittedHere(xs: seq<S.Session>, events: seq<S.Event>, i: nat, sub: Submission)
    requires GoodSteps(xs, events) && i < |events| && AllIssued(xs[i]) && events[i] == S.Elsewhere(Submit(sub))
    ensures AllSays(xs[i + 1], xs[i].core.nextRequest, sub)
  {
    assert GoodStep(xs, events, i);
    SubmittedSays(xs[i], sub, xs[i + 1]);
  }

  lemma SaysFrom(xs: seq<S.Session>, events: seq<S.Event>, i: nat, k: nat, sub: Submission)
    requires GoodSteps(xs, events) && AllIssued(xs[0]) && i < k < |xs| && events[i] == S.Elsewhere(Submit(sub))
    ensures AllSays(xs[k], xs[i].core.nextRequest, sub)
  {
    AlwaysIssued(xs, events, 0, i);
    SubmittedHere(xs, events, i, sub);
    GoesOnSaying(xs, events, i + 1, k, xs[i].core.nextRequest, sub);
  }

  /** Whatever is on its way to the daemon with the id of a submission says what that
      submission said: the model, the path and whether to stream. */
  lemma DaemonsReadWhatWasSubmitted(xs: seq<S.Session>, events: seq<S.Event>, i: nat, k: nat, sub: Submission,
                                    m: Message)
    requires S.SessionRun(xs, events) && i < k < |xs| && events[i] == S.Elsewhere(Submit(sub))
    requires Work(m) in xs[k].wire.down && m.id == xs[i].core.nextRequest
    ensures m.model == sub.want.model && m.path == sub.want.path && m.streaming == sub.streaming
  {
    RunsAreGood(xs, events);
    StartsIssued(xs[0]);
    SaysFrom(xs, events, i, k, sub);
    assert Work(m).Work?;
  }

  // ---- what was waiting before the session ----

  /** The submission that the record r stands for. */
  function AsSubmitted(r: Request): Submission {
    Submission(Wanted(r.provider, r.model, r.path, r.routing), r.streaming, r.queuedAt, None)
  }

  lemma WaitingSays(x: S.Session, id: RequestId)
    requires S.Good(x) && x.core.Outbox(x.w) == [] && x.wire.down == [Ack] && id in x.core.active
    ensures AllSays(x, id, AsSubmitted(x.core.active[id].request))
  {}

  lemma StartsWithAck(x: S.Session)
    requires S.Begins(x)
    ensures x.wire.down == [Ack]
  {}

  /** And so does a request that was already waiting when the worker registered. */
  lemma DaemonsReadWhatWaited(xs: seq<S.Session>, events: seq<S.Event>, k: nat, m: Message)
    requires S.SessionRun(xs, events) && k < |xs| && m.id in xs[0].core.active && Work(m) in xs[k].wire.down
    ensures var r := xs[0].core.active[m.id].request;
      m.model == r.model && m.path == r.path && m.streaming == r.streaming
  {
    RunsAreGood(xs, events);
    StartsIssued(xs[0]);
    StartsWithAck(xs[0]);
    S.BeginsGood(xs[0]);
    WaitingSays(xs[0], m.id);
    GoesOnSaying(xs, events, 0, k, m.id, AsSubmitted(xs[0].core.active[m.id].request));
    assert Work(m).Work?;
  }
}
