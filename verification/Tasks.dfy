/** The daemon's tasks, told from the events of its session alone. */
module Tasks {
  import opened Seqs
  import opened RelayState
  import opened Traffic
  import opened Daemon
  import opened SessionCore
  import opened Aborting
  import S = Session

  type Moment = (S.Session, S.Event) -> bool

  // ---- since when ----

  /** `on` at j, and not `off` since, up to k. */
  ghost predicate Lasts(xs: seq<S.Session>, events: seq<S.Event>, on: Moment, off: Moment, j: nat, k: nat)
    requires |xs| == |events| + 1 && k < |xs|
  {
    j < k && on(xs[j], events[j]) && forall i :: j < i < k ==> !off(xs[i], events[i])
  }

  ghost predicate Since(xs: seq<S.Session>, events: seq<S.Event>, on: Moment, off: Moment, k: nat)
    requires |xs| == |events| + 1 && k < |xs|
  {
    exists j: nat :: Lasts(xs, events, on, off, j, k)
  }

  lemma SinceNext(xs: seq<S.Session>, events: seq<S.Event>, on: Moment, off: Moment, k: nat)
    requires |xs| == |events| + 1 && k < |events|
    ensures Since(xs, events, on, off, k + 1) <==>
      on(xs[k], events[k]) || (Since(xs, events, on, off, k) && !off(xs[k], events[k]))
  {
    if on(xs[k], events[k]) {
      assert Lasts(xs, events, on, off, k, k + 1);
    } else {
      if Since(xs, events, on, off, k + 1) {
        var j: nat :| Lasts(xs, events, on, off, j, k + 1);
        assert Lasts(xs, events, on, off, j, k);
      }
      if Since(xs, events, on, off, k) && !off(xs[k], events[k]) {
        var j: nat :| Lasts(xs, events, on, off, j, k);
        assert Lasts(xs, events, on, off, j, k + 1);
      }
    }
  }

  lemma NotSinceTheStart(xs: seq<S.Session>, events: seq<S.Event>, on: Moment, off: Moment)
    requires |xs| == |events| + 1
    ensures !Since(xs, events, on, off, 0)
  {}

  // ---- the events ----

  ghost predicate Reads(x: S.Session, event: S.Event) {
    event.Daemonic? && event.act.Deliver? && x.wire.down != []
  }

  /** A request's message is read while the daemon takes requests. */
  ghost predicate StartsTask(x: S.Session, event: S.Event, id: RequestId) {
    Reads(x, event) && x.wire.down[0].Work? && x.wire.down[0].message.id == id && !x.wire.draining
  }

  /** The connection closes, a task has failed, the backend does not answer, or a request
      arrives at a daemon that drains. */
  ghost predicate EndsSession(x: S.Session, event: S.Event) {
    event.Daemonic?
    && (event.act.Hangup?
        || (event.act.Forward? && x.wire.events != [] && x.wire.events[0].Failed?)
        || (Reads(x, event) && x.wire.down[0].Refresh? && event.act.models == None)
        || (Reads(x, event) && x.wire.down[0].Work? && x.wire.draining))
  }

  ghost predicate ForgetsTask(x: S.Session, event: S.Event, id: RequestId) {
    EndsSession(x, event) || CancelRead(x, event, id)
    || (event.Daemonic? && event.act.Forward? && x.wire.events != [] && x.wire.events[0] == Finished(id))
  }

  ghost predicate AnswersTask(event: S.Event, id: RequestId) {
    event.Daemonic? && event.act.Respond? && event.act.id == id
  }

  ghost predicate StopsTask(x: S.Session, event: S.Event, id: RequestId) {
    EndsSession(x, event) || AnswersTask(event, id) || (event.Daemonic? && event.act.Fail? && event.act.id == id)
    || (CancelRead(x, event, id) && id in x.wire.handles)
  }

  ghost predicate WindsUp(x: S.Session, event: S.Event, id: RequestId) {
    EndsSession(x, event) || (event.Daemonic? && event.act.Wind? && event.act.id == id)
  }

  ghost function Starting(id: RequestId): Moment { (x, event) => StartsTask(x, event, id) }
  ghost function Forgetting(id: RequestId): Moment { (x, event) => ForgetsTask(x, event, id) }
  ghost function Stopping(id: RequestId): Moment { (x, event) => StopsTask(x, event, id) }
  ghost function Answering(id: RequestId): Moment { (x, event) => AnswersTask(event, id) }
  ghost function Winding(id: RequestId): Moment { (x, event) => WindsUp(x, event, id) }
  ghost function Ending(): Moment { (x, event) => EndsSession(x, event) }
  ghost function Draining(): Moment { (x, event) => Reads(x, event) && x.wire.down[0].Shutdown? }
  ghost function Never(): Moment { (x, event) => false }

  // ---- one step ----


  /** Nothing but the daemon's own acts touches its tasks. */
  lemma OthersLeaveTasks(x: S.Session, event: S.Event, y: S.Session)
    requires S.SessionStep(x, event, y) && !event.Daemonic?
    ensures y.wire.handles == x.wire.handles && y.wire.running == x.wire.running && y.wire.closing == x.wire.closing
    ensures y.wire.draining == x.wire.draining && y.wire.alive == x.wire.alive
  {}

  lemma DeliveredTasks(x: Wire, models: Option<seq<string>>, id: RequestId)
    requires x.down != []
    ensures var y, d := Delivered(x.(down := x.down[1..]), x.down[0], models), x.down[0];
      var ends := (d.Work? && x.draining) || (d.Refresh? && models == None);
      var starts := d.Work? && d.message.id == id && !x.draining;
      var cancels := d.Cancel? && d.id == id;
      (id in y.handles <==> starts || (id in x.handles && !ends && !cancels))
      && (id in y.running <==> starts || (id in x.running && !ends && !(cancels && id in x.handles)))
      && (id in y.closing <==> id in x.closing && !ends)
  {
    match x.down[0]
    case Ack =>
    case Work(_) =>
    case Cancel(_, _) =>
    case Shutdown =>
    case Ping =>
    case Refresh =>
  }

  lemma OtherActTasks(x: Wire, act: Act, id: RequestId)
    requires Daemon.Enabled(x, act) && !act.Deliver?
    ensures var y := Next(x, act);
      var ends := act.Hangup? || (act.Forward? && x.events[0].Failed?);
      var stops := (act.Respond? || act.Fail?) && act.id == id;
      (id in y.handles <==> id in x.handles && !ends && !(act.Forward? && x.events[0] == Finished(id)))
      && (id in y.running <==> id in x.running && !ends && !stops)
      && (id in y.closing <==> (act.Respond? && act.id == id)
                               || (id in x.closing && !ends && !(act.Wind? && act.id == id)))
  {
    match act
    case Forward =>
    case Emit(_, _) =>
    case Respond(_, _) =>
    case Wind(_) =>
    case Fail(_) =>
    case Die(_) =>
    case Hangup =>
  }

  lemma StepTasks(x: S.Session, event: S.Event, y: S.Session, id: RequestId)
    requires S.SessionStep(x, event, y)
    ensures id in y.wire.handles <==> StartsTask(x, event, id) || (id in x.wire.handles && !ForgetsTask(x, event, id))
    ensures id in y.wire.running <==> StartsTask(x, event, id) || (id in x.wire.running && !StopsTask(x, event, id))
    ensures id in y.wire.closing <==> AnswersTask(event, id) || (id in x.wire.closing && !WindsUp(x, event, id))
  {
    if !event.Daemonic? {
      OthersLeaveTasks(x, event, y);
    } else if event.act.Deliver? {
      DeliveredTasks(x.wire, event.act.models, id);
    } else {
      OtherActTasks(x.wire, event.act, id);
    }
  }

  lemma StepDrains(x: S.Session, event: S.Event, y: S.Session)
    requires S.SessionStep(x, event, y)
    ensures y.wire.draining <==> Draining()(x, event) || x.wire.draining
  {}

  lemma StepEnds(x: S.Session, event: S.Event, y: S.Session)
    requires S.SessionStep(x, event, y)
    ensures !y.wire.alive <==> EndsSession(x, event) || !x.wire.alive
  {}

  // ---- whole runs ----

  /** What the daemon does, each time by the events that make and unmake it: it handles a
      request, it runs its task, its task is about to report that it is done, it drains, its
      session is over. */
  ghost predicate Told(xs: seq<S.Session>, events: seq<S.Event>, k: nat, id: RequestId)
    requires |xs| == |events| + 1 && k < |xs|
  {
    (id in xs[k].wire.handles <==> Since(xs, events, Starting(id), Forgetting(id), k))
    && (id in xs[k].wire.running <==> Since(xs, events, Starting(id), Stopping(id), k))
    && (id in xs[k].wire.closing <==> Since(xs, events, Answering(id), Winding(id), k))
    && (xs[k].wire.draining <==> Since(xs, events, Draining(), Never(), k))
    && (!xs[k].wire.alive <==> Since(xs, events, Ending(), Never(), k))
  }

  lemma ToldAtFirst(xs: seq<S.Session>, events: seq<S.Event>, id: RequestId)
    requires S.SessionRun(xs, events)
    ensures Told(xs, events, 0, id)
  {
    NotSinceTheStart(xs, events, Starting(id), Forgetting(id));
    NotSinceTheStart(xs, events, Starting(id), Stopping(id));
    NotSinceTheStart(xs, events, Answering(id), Winding(id));
    NotSinceTheStart(xs, events, Draining(), Never());
    NotSinceTheStart(xs, events, Ending(), Never());
  }

  lemma ToldNext(xs: seq<S.Session>, events: seq<S.Event>, k: nat, id: RequestId)
    requires |xs| == |events| + 1 && k < |events| && S.StepAt(xs, events, k) && Told(xs, events, k, id)
    ensures Told(xs, events, k + 1, id)
  {
    var x, event, y := xs[k], events[k], xs[k + 1];
    StepTasks(x, event, y, id);
    StepDrains(x, event, y);
    StepEnds(x, event, y);
    SinceNext(xs, events, Starting(id), Forgetting(id), k);
    SinceNext(xs, events, Starting(id), Stopping(id), k);
    SinceNext(xs, events, Answering(id), Winding(id), k);
    SinceNext(xs, events, Draining(), Never(), k);
    SinceNext(xs, events, Ending(), Never(), k);
  }

  lemma ToldLater(xs: seq<S.Session>, events: seq<S.Event>, k: nat, id: RequestId)
    requires GoodSteps(xs, events) && k < |events| && Told(xs, events, k, id)
    ensures Told(xs, events, k + 1, id)
  {
    assert GoodStep(xs, events, k);
    ToldNext(xs, events, k, id);
  }

  lemma {:induction false} GoesOnTold(xs: seq<S.Session>, events: seq<S.Event>, i: nat, k: nat, id: RequestId)
    requires GoodSteps(xs, events) && i <= k < |xs| && Told(xs, events, i, id)
    ensures Told(xs, events, k, id)
    decreases k - i
  {
    if i < k {
      ToldLater(xs, events, i, id);
      GoesOnTold(xs, events, i + 1, k, id);
    }
  }

  /** Over every interleaving, the daemon's state is told from the events alone. */
  lemma AlwaysTold(xs: seq<S.Session>, events: seq<S.Event>, k: nat, id: RequestId)
    requires S.SessionRun(xs, events) && k < |xs|
    ensures Told(xs, events, k, id)
  {
    RunsAreGood(xs, events);
    ToldAtFirst(xs, events, id);
    GoesOnTold(xs, events, 0, k, id);
  }

  /** A task that was started is aborted for good when its cancel is read, unless the daemon
      has by then passed on that it is done. */
  lemma ReadingACancelAborts(xs: seq<S.Session>, events: seq<S.Event>, j: nat, i: nat, k: nat, id: RequestId)
    requires S.SessionRun(xs, events) && j < i < k < |xs| && xs[k].w in xs[k].core.workers
    requires StartsTask(xs[j], events[j], id) && CancelRead(xs[i], events[i], id)
    requires forall n :: j < n < i ==> !ForgetsTask(xs[n], events[n], id)
    ensures id !in xs[k].wire.running
  {
    AlwaysTold(xs, events, i, id);
    assert Lasts(xs, events, Starting(id), Forgetting(id), j, i);
    CancelledForGood(xs, events, i, k, id);
  }
}
