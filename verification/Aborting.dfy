/** Cancels at the daemon: reading one aborts the task for good, and nothing else does. */
module Aborting {
  import opened Seqs
  import opened RelayState
  import opened Moves
  import opened Index
  import opened Spec
  import opened WorkerSocket
  import opened Assignments
  import opened Traffic
  import opened Daemon
  import opened SessionCore
  import S = Session

  /** The daemon has read the request: it is over, or runs on the worker with nothing of it
      left to send. */
  ghost predicate Settled(x: S.Session, id: RequestId) {
    id < x.core.nextRequest
    && (id !in x.core.active
        || (IsRunning(x.core, x.w, id) && id !in MessageIds(x.core.Outbox(x.w)) && id !in Works(x.wire.down)))
  }

  lemma NotRunningNotHeld(x: S.Session, id: RequestId)
    requires S.Good(x) && x.w in x.core.workers && id !in x.core.active
    ensures !IsRunning(x.core, x.w, id) && id !in MessageIds(x.core.Outbox(x.w)) && id !in Works(x.wire.down)
  {
    assert IsRunning(x.core, x.w, id) ==> Running(x.core)(x.w, id);
    S.ExactlyOneStage(x, id);
    assert S.Stages(x)[id] == 0;
    assert S.Stages(x)[id] >= multiset(MessageIds(x.core.Outbox(x.w)))[id] + Works(x.wire.down)[id];
  }

  lemma SettledIsUnsent(x: S.Session, id: RequestId)
    requires S.Good(x) && x.w in x.core.workers && Settled(x, id)
    ensures id !in Works(x.wire.down)
  {
    if id !in x.core.active {
      NotRunningNotHeld(x, id);
    }
  }

  // ---- the request runs on ----

  /** A list and an outbox that grow alike, the list without repetition. */
  lemma GrowthIsOther(list: seq<RequestId>, more: seq<RequestId>, id: RequestId)
    requires NoDup(list + more) && id in list
    ensures id in list + more && id !in more
  {
    var i :| 0 <= i < |list| && list[i] == id;
    forall j | 0 <= j < |more| ensures more[j] != id {
      assert (list + more)[i] == id && (list + more)[|list| + j] == more[j];
    }
  }

  lemma {:induction false} IdsOfMessages(ms: seq<Message>, id: RequestId)
    ensures id in MessageIds(ms) <==> exists m :: m in ms && m.id == id
    decreases |ms|
  {
    if ms != [] {
      IdsOfMessages(ms[..|ms| - 1], id);
      assert ms == ms[..|ms| - 1] + [ms[|ms| - 1]];
    }
  }

  lemma GrewKeeps(s: State, t: State, w: WorkerId, id: RequestId)
    requires Grew(s, t, w) && Once(t) && IsRunning(s, w, id) && id !in MessageIds(s.Outbox(w))
    ensures IsRunning(t, w, id) && id !in MessageIds(t.Outbox(w))
  {
    var more :| GrewBy(s.workers[w].inFlight, s.Outbox(w), t.workers[w].inFlight, t.Outbox(w), more);
    GrowthIsOther(s.workers[w].inFlight, MessageIds(more), id);
    MessageIdsJoin(s.Outbox(w), more);
  }

  lemma ReplacedKeeps(s: State, t: State, w: WorkerId, other: RequestId, id: RequestId)
    requires Replaced(s, t, w, other) && Once(s) && Once(t) && id != other
    requires IsRunning(s, w, id) && id !in MessageIds(s.Outbox(w))
    ensures IsRunning(t, w, id) && id !in MessageIds(t.Outbox(w))
  {
    var left := Without(s.workers[w].inFlight, other);
    var more :| GrewBy(left, s.Outbox(w), t.workers[w].inFlight, t.Outbox(w), more);
    WithoutMembers(s.workers[w].inFlight, other);
    GrowthIsOther(left, MessageIds(more), id);
    MessageIdsJoin(s.Outbox(w), more);
  }

  // ---- each step ----

  /** The request still runs with nothing of it to send, or is over. */
  ghost predicate StillSettled(x: S.Session, y: S.Session, id: RequestId) {
    id !in y.core.active
    || (IsRunning(y.core, y.w, id) && id !in MessageIds(y.core.Outbox(y.w)) && id !in Works(y.wire.down))
  }

  lemma PushSettles(x: S.Session, y: S.Session, more: seq<Down>, id: RequestId)
    requires y.w == x.w && y.core.workers == x.core.workers && y.wire == S.Pushed(x.wire, more) && id !in Works(more)
    requires IsRunning(x.core, x.w, id) && id !in Works(x.wire.down) && id !in MessageIds(y.core.Outbox(y.w))
    ensures StillSettled(x, y, id)
  {
    WorksJoin(x.wire.down, more);
  }

  lemma FlushSettles(x: S.Session, event: S.Event, y: S.Session, id: RequestId)
    requires S.SessionStep(x, event, y) && IsRunning(x.core, x.w, id)
    requires id !in MessageIds(x.core.Outbox(x.w)) && id !in Works(x.wire.down)
    requires event.FlushRequests? || event.FlushCancels? || event.FlushShutdowns?
    ensures StillSettled(x, y, id)
  {
    match event
    case FlushRequests =>
      RequestsAreWork(x.core.Outbox(x.w));
      PushSettles(x, y, Requests(x.core.Outbox(x.w)), id);
    case FlushCancels =>
      CancelsAreNoWork(DueCancels(x.core, x.w));
      PushSettles(x, y, Traffic.Cancels(DueCancels(x.core, x.w)), id);
    case FlushShutdowns =>
      ShutdownsAreNoWork(|DueShutdowns(x.core, x.w)|);
      PushSettles(x, y, Shutdowns(|DueShutdowns(x.core, x.w)|), id);
  }

  lemma AskingSettles(x: S.Session, event: S.Event, y: S.Session, id: RequestId)
    requires S.SessionStep(x, event, y) && IsRunning(x.core, x.w, id) && (event.SendPing? || event.SendRefresh?)
    requires id !in MessageIds(x.core.Outbox(x.w)) && id !in Works(x.wire.down)
    ensures StillSettled(x, y, id)
  {
    var d := if event.SendPing? then Ping else Refresh;
    WorksOne(d);
    PushSettles(x, y, [d], id);
  }

  lemma ElsewhereSettles(x: S.Session, op: Op, y: S.Session, id: RequestId)
    requires S.Good(x) && S.Good(y) && S.SessionStep(x, S.Elsewhere(op), y) && y.w in y.core.workers
    requires IsRunning(x.core, x.w, id) && id !in MessageIds(x.core.Outbox(x.w)) && id !in Works(x.wire.down)
    ensures StillSettled(x, y, id)
  {
    ForeignGrows(x.core, op, y.core, x.w);
    GrewKeeps(x.core, y.core, x.w, id);
  }

  lemma ReportSettles(x: S.Session, y: S.Session, ok: bool, id: RequestId)
    requires S.Good(x) && S.Good(y) && y.w == x.w && y.w in y.core.workers && x.wire.up != []
    requires Handles(x.core, x.w, x.wire.up[0], ok, y.core) && !x.wire.up[0].ResponseComplete? && !x.wire.up[0].Other?
    requires y.wire.down == x.wire.down
    requires IsRunning(x.core, x.w, id) && id !in MessageIds(x.core.Outbox(x.w)) && id !in Works(x.wire.down)
    ensures StillSettled(x, y, id)
  {
    var op := S.FrameIsStep(x.core, x.w, x.wire.up[0], ok, y.core);
    ForeignGrows(x.core, op, y.core, x.w);
    GrewKeeps(x.core, y.core, x.w, id);
  }

  lemma CompletionSettles(x: S.Session, y: S.Session, ok: bool, id: RequestId)
    requires S.Good(x) && S.Good(y) && y.w == x.w && y.w in y.core.workers && x.w in x.core.workers && x.wire.up != []
    requires Handles(x.core, x.w, x.wire.up[0], ok, y.core) && x.wire.up[0].ResponseComplete?
    requires y.wire.down == x.wire.down
    requires IsRunning(x.core, x.w, id) && id !in MessageIds(x.core.Outbox(x.w)) && id !in Works(x.wire.down)
    ensures StillSettled(x, y, id)
  {
    var f := x.wire.up[0];
    S.HeadIsHeld(x.wire);
    S.HeldIsRunning(x, f.id);
    S.NeverAProtocolError(x, ok, y.core);
    CompletionAccepted(x.core, x.w, f.id, f.body, ok, y.core);
    if f.id != id {
      S.OwnerResponds(x.core, x.w, f.id, f.body, ok, y.core);
      ReplacedKeeps(x.core, y.core, x.w, f.id, id);
    }
  }

  lemma ReceiveSettles(x: S.Session, y: S.Session, id: RequestId)
    requires S.Good(x) && S.Good(y) && S.SessionStep(x, S.Receive, y) && y.w in y.core.workers && x.w in x.core.workers
    requires IsRunning(x.core, x.w, id) && id !in MessageIds(x.core.Outbox(x.w)) && id !in Works(x.wire.down)
    ensures StillSettled(x, y, id)
  {
    var ok :| Handles(x.core, x.w, x.wire.up[0], ok, y.core);
    S.PopHolds(x.wire);
    if x.wire.up[0].ResponseComplete? {
      CompletionSettles(x, y, ok, id);
    } else {
      ReportSettles(x, y, ok, id);
    }
  }

  lemma ActReadsDown(x: Wire, act: Act)
    requires Daemon.Enabled(x, act)
    ensures Next(x, act).down == if act.Deliver? then x.down[1..] else x.down
  {}

  lemma ActSettles(x: S.Session, act: Act, y: S.Session, id: RequestId)
    requires S.SessionStep(x, S.Daemonic(act), y) && IsRunning(x.core, x.w, id)
    requires id !in MessageIds(x.core.Outbox(x.w)) && id !in Works(x.wire.down)
    ensures StillSettled(x, y, id)
  {
    ActReadsDown(x.wire, act);
    if act.Deliver? {
      WorksPop(x.wire.down);
    }
  }

  lemma RunningSettles(x: S.Session, event: S.Event, y: S.Session, id: RequestId)
    requires S.Good(x) && S.Good(y) && S.SessionStep(x, event, y) && y.w in y.core.workers && x.w in x.core.workers
    requires IsRunning(x.core, x.w, id) && id !in MessageIds(x.core.Outbox(x.w)) && id !in Works(x.wire.down)
    ensures StillSettled(x, y, id)
  {
    match event
    case Elsewhere(op) => ElsewhereSettles(x, op, y, id);
    case Receive => ReceiveSettles(x, y, id);
    case Daemonic(act) => ActSettles(x, act, y, id);
    case SendPing => AskingSettles(x, event, y, id);
    case SendRefresh => AskingSettles(x, event, y, id);
    case FlushRequests => FlushSettles(x, event, y, id);
    case FlushCancels => FlushSettles(x, event, y, id);
    case FlushShutdowns => FlushSettles(x, event, y, id);
  }

  lemma IdsOnlyGrow(x: S.Session, event: S.Event, y: S.Session)
    requires S.Good(x) && S.SessionStep(x, event, y)
    ensures x.core.nextRequest <= y.core.nextRequest
  {
    var states, ops := StepOps(x, event, y);
    OpsIssue(states, ops);
  }

  /** What has been read stays read. */
  lemma StaysSettled(x: S.Session, event: S.Event, y: S.Session, id: RequestId)
    requires S.Good(x) && S.Good(y) && S.SessionStep(x, event, y) && y.w in y.core.workers && Settled(x, id)
    ensures Settled(y, id)
  {
    WasRegistered(x, event, y);
    IdsOnlyGrow(x, event, y);
    if id in x.core.active {
      RunningSettles(x, event, y, id);
    } else {
      OverStaysOver(x, event, y, id);
    }
  }

  // ---- reading a request ----

  lemma ReadingSettles(x: S.Session, y: S.Session, models: Option<seq<string>>)
    requires S.Good(x) && S.SessionStep(x, S.Daemonic(Deliver(models)), y) && x.w in x.core.workers
    requires x.wire.down[0].Work?
    ensures Settled(y, x.wire.down[0].message.id)
  {
    var id := x.wire.down[0].message.id;
    ReadOnce(x, id);
    ActReadsDown(x.wire, Deliver(models));
    assert Running(x.core)(x.w, id);
  }

  lemma ReadOnce(x: S.Session, id: RequestId)
    requires S.Good(x) && x.w in x.core.workers
    requires x.wire.down != [] && x.wire.down[0].Work? && x.wire.down[0].message.id == id
    ensures IsRunning(x.core, x.w, id) && id !in MessageIds(x.core.Outbox(x.w)) && id !in Works(x.wire.down[1..])
  {
    S.WorkAhead(x.wire.down);
    S.HeldIsRunning(x, id);
    S.ExactlyOneStage(x, id);
    WorksPop(x.wire.down);
    assert S.Stages(x)[id] <= 1;
    assert S.Stages(x)[id] >= multiset(MessageIds(x.core.Outbox(x.w)))[id] + Works(x.wire.down)[id];
    assert Works(x.wire.down)[id] == 1 + Works(x.wire.down[1..])[id];
  }

  /** A request the daemon handles is one it has read. */
  lemma HandlesComeFromReading(x: S.Session, event: S.Event, y: S.Session, id: RequestId)
    requires S.SessionStep(x, event, y) && id in y.wire.handles && id !in x.wire.handles
    ensures event.Daemonic? && event.act.Deliver? && x.wire.down[0].Work? && x.wire.down[0].message.id == id
  {}

  ghost predicate HandlesSettled(x: S.Session) {
    forall id :: id in x.wire.handles ==> Settled(x, id)
  }

  lemma StepKeepsHandlesSettled(x: S.Session, event: S.Event, y: S.Session)
    requires S.Good(x) && S.Good(y) && S.SessionStep(x, event, y) && y.w in y.core.workers && HandlesSettled(x)
    ensures HandlesSettled(y)
  {
    WasRegistered(x, event, y);
    forall id | id in y.wire.handles ensures Settled(y, id) {
      if id in x.wire.handles {
        StaysSettled(x, event, y, id);
      } else {
        HandlesComeFromReading(x, event, y, id);
        ReadingSettles(x, y, event.act.models);
      }
    }
  }

  // ---- a task leaves, and starts ----

  /** A task stops running only by responding, by failing, with the session, or when its
      request's cancel is read. */
  lemma WhyATaskStops(x: S.Session, event: S.Event, y: S.Session, id: RequestId)
    requires S.SessionStep(x, event, y) && id in x.wire.running && id !in y.wire.running
    ensures event.Daemonic?
    ensures (event.act.Respond? && event.act.id == id) || (event.act.Fail? && event.act.id == id) || !y.wire.alive
            || (event.act.Deliver? && x.wire.down[0].Cancel? && x.wire.down[0].id == id)
  {}

  lemma WhyATaskStarts(x: S.Session, event: S.Event, y: S.Session, id: RequestId)
    requires S.SessionStep(x, event, y) && id in y.wire.running && id !in x.wire.running
    ensures event.Daemonic? && event.act.Deliver? && x.wire.down[0].Work? && x.wire.down[0].message.id == id
  {}

  /** A cancel of a request that the daemon handles is read in this step. */
  ghost predicate CancelRead(x: S.Session, event: S.Event, id: RequestId) {
    event.Daemonic? && event.act.Deliver? && x.wire.down != [] && x.wire.down[0].Cancel? && x.wire.down[0].id == id
  }

  lemma CancelAborts(x: S.Session, event: S.Event, y: S.Session, id: RequestId)
    requires S.SessionStep(x, event, y) && CancelRead(x, event, id) && id in x.wire.handles
    ensures id !in y.wire.running && id !in y.wire.handles
    ensures id in x.wire.running ==> id in y.wire.doomed
    ensures forall other :: other != id && other in x.wire.running ==> other in y.wire.running
  {}

  lemma SettledNeverStarts(x: S.Session, event: S.Event, y: S.Session, id: RequestId)
    requires S.Good(x) && S.SessionStep(x, event, y) && x.w in x.core.workers && Settled(x, id)
    requires id !in x.wire.running
    ensures id !in y.wire.running
  {
    SettledIsUnsent(x, id);
    if id in y.wire.running {
      WhyATaskStarts(x, event, y, id);
      S.WorkAhead(x.wire.down);
    }
  }

  // ---- whole runs ----

  lemma StartsHandled(xs: seq<S.Session>, events: seq<S.Event>)
    requires S.SessionRun(xs, events)
    ensures HandlesSettled(xs[0])
  {}

  ghost predicate RegisteredAt(xs: seq<S.Session>, k: int)
    requires 0 <= k < |xs|
  {
    xs[k].w in xs[k].core.workers
  }

  lemma RegisteredBefore(xs: seq<S.Session>, events: seq<S.Event>, k: nat)
    requires GoodSteps(xs, events) && k < |events| && RegisteredAt(xs, k + 1)
    ensures RegisteredAt(xs, k)
  {
    assert GoodStep(xs, events, k);
    WasRegistered(xs[k], events[k], xs[k + 1]);
  }

  /** A worker still registered has been registered all along. */
  lemma {:induction false} RegisteredEarlier(xs: seq<S.Session>, events: seq<S.Event>, j: nat, k: nat)
    requires GoodSteps(xs, events) && j <= k < |xs| && RegisteredAt(xs, k)
    ensures RegisteredAt(xs, j)
    decreases k - j
  {
    if j < k {
      RegisteredEarlier(xs, events, j + 1, k);
      RegisteredBefore(xs, events, j);
    }
  }

  lemma NextHandled(xs: seq<S.Session>, events: seq<S.Event>, k: nat)
    requires GoodSteps(xs, events) && k < |events| && RegisteredAt(xs, k + 1) && HandlesSettled(xs[k])
    ensures HandlesSettled(xs[k + 1])
  {
    assert GoodStep(xs, events, k);
    StepKeepsHandlesSettled(xs[k], events[k], xs[k + 1]);
  }

  lemma {:induction false} AlwaysHandled(xs: seq<S.Session>, events: seq<S.Event>, i: nat, k: nat)
    requires GoodSteps(xs, events) && i <= k < |xs| && RegisteredAt(xs, k) && HandlesSettled(xs[i])
    ensures HandlesSettled(xs[k])
    decreases k - i
  {
    if i < k {
      RegisteredEarlier(xs, events, i + 1, k);
      NextHandled(xs, events, i);
      AlwaysHandled(xs, events, i + 1, k);
    }
  }

  /** The request's task does not run, and never will. */
  ghost predicate AbortedIn(x: S.Session, id: RequestId) {
    id !in x.wire.running && Settled(x, id)
  }

  lemma NextAborted(xs: seq<S.Session>, events: seq<S.Event>, k: nat, id: RequestId)
    requires GoodSteps(xs, events) && k < |events| && RegisteredAt(xs, k + 1) && AbortedIn(xs[k], id)
    ensures AbortedIn(xs[k + 1], id)
  {
    assert GoodStep(xs, events, k);
    WasRegistered(xs[k], events[k], xs[k + 1]);
    SettledNeverStarts(xs[k], events[k], xs[k + 1], id);
    StaysSettled(xs[k], events[k], xs[k + 1], id);
  }

  lemma {:induction false} StaysAborted(xs: seq<S.Session>, events: seq<S.Event>, i: nat, k: nat, id: RequestId)
    requires GoodSteps(xs, events) && i <= k < |xs| && RegisteredAt(xs, k) && AbortedIn(xs[i], id)
    ensures AbortedIn(xs[k], id)
    decreases k - i
  {
    if i < k {
      RegisteredEarlier(xs, events, i + 1, k);
      NextAborted(xs, events, i, id);
      StaysAborted(xs, events, i + 1, k, id);
    }
  }

  lemma ReadingAborts(xs: seq<S.Session>, events: seq<S.Event>, i: nat, id: RequestId)
    requires GoodSteps(xs, events) && i < |events| && RegisteredAt(xs, i + 1) && HandlesSettled(xs[i])
    requires CancelRead(xs[i], events[i], id) && id in xs[i].wire.handles
    ensures AbortedIn(xs[i + 1], id)
  {
    assert GoodStep(xs, events, i);
    CancelAborts(xs[i], events[i], xs[i + 1], id);
    StaysSettled(xs[i], events[i], xs[i + 1], id);
  }

  lemma AbortedFrom(xs: seq<S.Session>, events: seq<S.Event>, i: nat, k: nat, id: RequestId)
    requires GoodSteps(xs, events) && HandlesSettled(xs[0]) && i < k < |xs| && RegisteredAt(xs, k)
    requires CancelRead(xs[i], events[i], id) && id in xs[i].wire.handles
    ensures id !in xs[k].wire.running
  {
    RegisteredEarlier(xs, events, i, k);
    RegisteredEarlier(xs, events, i + 1, k);
    AlwaysHandled(xs, events, 0, i);
    ReadingAborts(xs, events, i, id);
    StaysAborted(xs, events, i + 1, k, id);
  }

  /** When the daemon reads a cancel of a request it handles, the request's task stops
      running, and it never runs again while the worker stays registered. */
  lemma CancelledForGood(xs: seq<S.Session>, events: seq<S.Event>, i: nat, k: nat, id: RequestId)
    requires S.SessionRun(xs, events) && i < k < |xs| && xs[k].w in xs[k].core.workers
    requires events[i].Daemonic? && events[i].act.Deliver? && xs[i].wire.down != []
    requires xs[i].wire.down[0].Cancel? && xs[i].wire.down[0].id == id && id in xs[i].wire.handles
    ensures id !in xs[k].wire.running
  {
    RunsAreGood(xs, events);
    StartsHandled(xs, events);
    AbortedFrom(xs, events, i, k, id);
  }

  /** The task responds or fails, its request's cancel is read, or the session ends, in this step. */
  ghost predicate MayStop(x: S.Session, event: S.Event, y: S.Session, id: RequestId) {
    CancelRead(x, event, id) || !y.wire.alive
    || (event.Daemonic? && (event.act.Respond? || event.act.Fail?) && event.act.id == id)
  }

  lemma RunsOn(x: S.Session, event: S.Event, y: S.Session, id: RequestId)
    requires S.SessionStep(x, event, y) && id in x.wire.running && !MayStop(x, event, y, id)
    ensures id in y.wire.running
  {
    if id !in y.wire.running {
      WhyATaskStops(x, event, y, id);
    }
  }

  ghost predicate NothingStops(xs: seq<S.Session>, events: seq<S.Event>, i: nat, k: nat, id: RequestId)
    requires k < |xs| && |xs| == |events| + 1
  {
    forall j :: i <= j < k ==> !MayStop(xs[j], events[j], xs[j + 1], id)
  }

  lemma NextRunsOn(xs: seq<S.Session>, events: seq<S.Event>, i: nat, id: RequestId)
    requires GoodSteps(xs, events) && i < |events| && id in xs[i].wire.running
    requires !MayStop(xs[i], events[i], xs[i + 1], id)
    ensures id in xs[i + 1].wire.running
  {
    assert GoodStep(xs, events, i);
    RunsOn(xs[i], events[i], xs[i + 1], id);
  }

  lemma {:induction false} RunsOnOver(xs: seq<S.Session>, events: seq<S.Event>, i: nat, k: nat, id: RequestId)
    requires GoodSteps(xs, events) && i <= k < |xs| && id in xs[i].wire.running
    requires NothingStops(xs, events, i, k, id)
    ensures id in xs[k].wire.running
    decreases k - i
  {
    if i < k {
      NextRunsOn(xs, events, i, id);
      RunsOnOver(xs, events, i + 1, k, id);
    }
  }

  /** Until then, a task that runs goes on running. */
  lemma TasksRunOn(xs: seq<S.Session>, events: seq<S.Event>, i: nat, k: nat, id: RequestId)
    requires S.SessionRun(xs, events) && i <= k < |xs| && id in xs[i].wire.running
    requires NothingStops(xs, events, i, k, id)
    ensures id in xs[k].wire.running
  {
    RunsAreGood(xs, events);
    RunsOnOver(xs, events, i, k, id);
  }
}
