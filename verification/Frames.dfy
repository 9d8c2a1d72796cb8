/** What a daemon says is so, and the core takes it at its word. */
module Frames {
  import opened Seqs
  import opened RelayState
  import opened Index
  import opened WorkerSocket
  import opened Traffic
  import opened Daemon
  import opened SessionCore
  import Outcomes
  import Reported
  import S = Session

  function Capped(n: nat): nat { if n <= 4294967295 then n else 4294967295 }

  // ---- in order ----

  /** What an event adds to the frames on their way: a pong or a list of models with the
      number of requests the daemon handles, a task's chunk, or a task's whole body. */
  function Made(x: S.Session, event: S.Event): seq<Frame> {
    match event
    case Daemonic(Deliver(models)) =>
      if x.wire.down != [] && x.wire.down[0] == Ping then [PongFrame(Capped(|x.wire.handles|))]
      else if x.wire.down != [] && x.wire.down[0] == Refresh && models.Some?
      then [ModelsUpdate(models.value, Capped(|x.wire.handles|))]
      else []
    case Daemonic(Emit(id, data)) => [ResponseChunk(id, data)]
    case Daemonic(Respond(id, body)) => [ResponseComplete(id, body)]
    case _ => []
  }

  lemma AddedLast(x: Wire, y: Wire, e: Traffic.Event)
    requires y.up == x.up && y.events == x.events + [e]
    ensures Travelling(y) == Travelling(x) + if e.Outbound? then [e.frame] else []
  {
    SentPush(x.events, e);
  }

  lemma PassedOn(x: Wire)
    requires x.events != [] && !x.events[0].Failed?
    ensures Travelling(Forwarded(x.(events := x.events[1..]), x.events[0])) == Travelling(x)
  {
    SentPop(x.events);
  }

  lemma DeliveredInOrder(x: Wire, models: Option<seq<string>>)
    requires x.down != [] && Delivered(x.(down := x.down[1..]), x.down[0], models).alive == x.alive && x.alive
    ensures var y, d := Delivered(x.(down := x.down[1..]), x.down[0], models), x.down[0];
      Travelling(y) == Travelling(x) +
        if d == Ping then [PongFrame(Capped(|x.handles|))]
        else if d == Refresh && models.Some? then [ModelsUpdate(models.value, Capped(|x.handles|))]
        else []
  {
    var u := x.(down := x.down[1..]);
    match x.down[0]
    case Ping => AddedLast(u, Delivered(u, Ping, models), Outbound(PongFrame(Load(u))));
    case Refresh => AddedLast(u, Delivered(u, Refresh, models), Outbound(ModelsUpdate(models.value, Load(u))));
    case _ => assert Travelling(x) + [] == Travelling(x);
  }

  lemma ActInOrder(x: Wire, act: Act)
    requires Daemon.Enabled(x, act) && !act.Deliver? && Next(x, act).alive
    ensures Travelling(Next(x, act)) == Travelling(x) +
      match act
      case Emit(id, data) => [ResponseChunk(id, data)]
      case Respond(id, body) => [ResponseComplete(id, body)]
      case _ => []
  {
    assert Travelling(x) + [] == Travelling(x);
    match act
    case Forward => PassedOn(x);
    case Emit(id, data) => AddedLast(x, Next(x, act), Outbound(ResponseChunk(id, data)));
    case Respond(id, body) => AddedLast(x, Next(x, act), Outbound(ResponseComplete(id, body)));
    case Wind(id) => AddedLast(x, Next(x, act), Finished(id));
    case Fail(id) => AddedLast(x, Next(x, act), Failed(id));
    case Die(_) =>
  }

  /** While the session lasts, the frames on their way are a queue: each is put last when it
      is made, none is lost, and the server reads the first. */
  lemma FramesAreAQueue(x: S.Session, event: S.Event, y: S.Session)
    requires S.SessionStep(x, event, y) && y.wire.alive == x.wire.alive
    ensures event.Receive? ==> x.wire.up != [] && Travelling(y.wire) == Travelling(x.wire)[1..]
    ensures !event.Receive? ==> Travelling(y.wire) == Travelling(x.wire) + Made(x, event)
  {
    assert Travelling(x.wire) + [] == Travelling(x.wire);
    if event.Daemonic? {
      if event.act.Deliver? {
        DeliveredInOrder(x.wire, event.act.models);
      } else {
        ActInOrder(x.wire, event.act);
      }
    }
  }

  /** A session that ends leaves nothing on its way but what the link already carries. */
  lemma EndingDropsFrames(x: S.Session, event: S.Event, y: S.Session)
    requires S.SessionStep(x, event, y) && y.wire.alive != x.wire.alive
    ensures Travelling(y.wire) == x.wire.up
  {}

  lemma StepMakes(x: S.Session, event: S.Event, y: S.Session, f: Frame)
    requires S.SessionStep(x, event, y) && f in Travelling(y.wire)
    ensures f in Travelling(x.wire) || f in Made(x, event)
  {
    if y.wire.alive == x.wire.alive {
      FramesAreAQueue(x, event, y);
    } else {
      EndingDropsFrames(x, event, y);
    }
  }

  // ---- whole runs ----

  lemma StepMakesAt(xs: seq<S.Session>, events: seq<S.Event>, k: nat, f: Frame)
    requires GoodSteps(xs, events) && k < |events| && f in Travelling(xs[k + 1].wire)
    ensures f in Travelling(xs[k].wire) || f in Made(xs[k], events[k])
  {
    assert GoodStep(xs, events, k);
    StepMakes(xs[k], events[k], xs[k + 1], f);
  }

  lemma {:induction false} MadeBefore(xs: seq<S.Session>, events: seq<S.Event>, k: nat, f: Frame) returns (j: nat)
    requires GoodSteps(xs, events) && k < |xs| && f !in Travelling(xs[0].wire) && f in Travelling(xs[k].wire)
    ensures j < k && f in Made(xs[j], events[j])
    decreases k
  {
    if k != 0 {
      StepMakesAt(xs, events, k - 1, f);
      if f in Travelling(xs[k - 1].wire) {
        j := MadeBefore(xs, events, k - 1, f);
      } else {
        j := k - 1;
      }
    }
  }

  lemma NothingAtFirst(xs: seq<S.Session>, events: seq<S.Event>, f: Frame)
    requires S.SessionRun(xs, events)
    ensures f !in Travelling(xs[0].wire)
  {}

  /** Every frame on its way was made by the daemon before, and was true when it was made. */
  lemma EveryFrameIsTrue(xs: seq<S.Session>, events: seq<S.Event>, k: nat, f: Frame) returns (j: nat)
    requires S.SessionRun(xs, events) && k < |xs| && f in Travelling(xs[k].wire)
    ensures j < k && f in Made(xs[j], events[j])
  {
    RunsAreGood(xs, events);
    NothingAtFirst(xs, events, f);
    j := MadeBefore(xs, events, k, f);
  }

  // ---- what the core makes of them ----

  lemma PongFrameIsRecorded(s: State, w: WorkerId, load: u32, ok: bool, t: State) returns (got: seq<RequestId>)
    requires Inv(s) && w in s.workers && Handles(s, w, PongFrame(load), ok, t)
    ensures ok && w in t.workers && t.workers[w].reportedLoad == load + |got|
    ensures t.workers[w].inFlight == s.workers[w].inFlight + got && t.workers[w].models == s.workers[w].models
  {
    got := Reported.PongIsRecorded(s, w, load, t);
  }

  lemma UpdateFrameIsRecorded(s: State, w: WorkerId, models: seq<string>, load: u32, ok: bool, t: State)
    returns (got: seq<RequestId>)
    requires Inv(s) && w in s.workers && Handles(s, w, ModelsUpdate(models, load), ok, t)
    ensures ok && w in t.workers && t.workers[w].reportedLoad == load + |got|
    ensures t.workers[w].inFlight == s.workers[w].inFlight + got && t.workers[w].models == models
  {
    got := Reported.UpdateIsRecorded(s, w, models, load, t);
  }

  /** A pong or a list of models arrives. */
  ghost predicate Arrives(xs: seq<S.Session>, events: seq<S.Event>, k: nat, f: Frame)
    requires |xs| == |events| + 1 && k < |events|
  {
    events[k].Receive? && xs[k].wire.up != [] && xs[k].wire.up[0] == f
  }

  lemma ReceivedIs(xs: seq<S.Session>, events: seq<S.Event>, k: nat, f: Frame) returns (ok: bool)
    requires GoodSteps(xs, events) && k < |events| && Arrives(xs, events, k, f)
    ensures Handles(xs[k].core, xs[k].w, f, ok, xs[k + 1].core) && Inv(xs[k].core) && xs[k + 1].w == xs[k].w
  {
    assert GoodStep(xs, events, k);
    ok :| Handles(xs[k].core, xs[k].w, xs[k].wire.up[0], ok, xs[k + 1].core);
  }

  lemma MadeIs(x: S.Session, event: S.Event, f: Frame)
    requires f in Made(x, event)
    ensures f.PongFrame? ==> x.wire.down != [] && x.wire.down[0] == Ping && f.current == Capped(|x.wire.handles|)
    ensures f.ModelsUpdate? ==> x.wire.down != [] && x.wire.down[0] == Refresh
                                && event == S.Daemonic(Deliver(Some(f.models))) && f.current == Capped(|x.wire.handles|)
    ensures f.ResponseChunk? ==> event == S.Daemonic(Emit(f.id, f.data))
    ensures f.ResponseComplete? ==> event == S.Daemonic(Respond(f.id, f.body))
  {}

  lemma PongArrives(xs: seq<S.Session>, events: seq<S.Event>, k: nat, load: u32) returns (got: seq<RequestId>)
    requires GoodSteps(xs, events) && k < |events| && Arrives(xs, events, k, PongFrame(load))
    requires xs[k].w in xs[k].core.workers
    ensures xs[k].w in xs[k + 1].core.workers
    ensures xs[k + 1].core.workers[xs[k].w].reportedLoad == load + |got|
    ensures xs[k + 1].core.workers[xs[k].w].inFlight == xs[k].core.workers[xs[k].w].inFlight + got
  {
    var ok := ReceivedIs(xs, events, k, PongFrame(load));
    got := PongFrameIsRecorded(xs[k].core, xs[k].w, load, ok, xs[k + 1].core);
  }

  lemma UpdateArrives(xs: seq<S.Session>, events: seq<S.Event>, k: nat, models: seq<string>, load: u32)
    returns (got: seq<RequestId>)
    requires GoodSteps(xs, events) && k < |events| && Arrives(xs, events, k, ModelsUpdate(models, load))
    requires xs[k].w in xs[k].core.workers
    ensures xs[k].w in xs[k + 1].core.workers && xs[k + 1].core.workers[xs[k].w].models == models
    ensures xs[k + 1].core.workers[xs[k].w].reportedLoad == load + |got|
  {
    var ok := ReceivedIs(xs, events, k, ModelsUpdate(models, load));
    got := UpdateFrameIsRecorded(xs[k].core, xs[k].w, models, load, ok, xs[k + 1].core);
  }

  lemma BodyArrives(xs: seq<S.Session>, events: seq<S.Event>, k: nat, id: RequestId, body: Bytes)
    requires GoodSteps(xs, events) && k < |events| && Arrives(xs, events, k, ResponseComplete(id, body))
    ensures xs[k + 1].core.Replies(id)
         == xs[k].core.Replies(id) + if id in xs[k].core.senders then [Complete(body)] else []
  {
    var ok := ReceivedIs(xs, events, k, ResponseComplete(id, body));
    Outcomes.FrameAnswersItsClient(xs[k].core, xs[k].w, id, body, ok, xs[k + 1].core);
  }

  lemma ArrivingWasMade(xs: seq<S.Session>, events: seq<S.Event>, k: nat, f: Frame) returns (j: nat)
    requires S.SessionRun(xs, events) && k < |events| && Arrives(xs, events, k, f)
    ensures j < k && f in Made(xs[j], events[j]) && GoodSteps(xs, events)
  {
    RunsAreGood(xs, events);
    j := EveryFrameIsTrue(xs, events, k, f);
  }

  /** The load the core records from a pong is the number of requests the daemon was handling
      when it read the ping, and one more for each request the pong brings the worker. */
  lemma RecordedLoadIsTheDaemons(xs: seq<S.Session>, events: seq<S.Event>, k: nat, load: u32)
    returns (j: nat, got: seq<RequestId>)
    requires S.SessionRun(xs, events) && k < |events| && Arrives(xs, events, k, PongFrame(load))
    requires xs[k].w in xs[k].core.workers
    ensures j < k && xs[j].wire.down != [] && xs[j].wire.down[0] == Ping && xs[k].w in xs[k + 1].core.workers
    ensures xs[k + 1].core.workers[xs[k].w].reportedLoad == Capped(|xs[j].wire.handles|) + |got|
    ensures xs[k + 1].core.workers[xs[k].w].inFlight == xs[k].core.workers[xs[k].w].inFlight + got
  {
    j := ArrivingWasMade(xs, events, k, PongFrame(load));
    MadeIs(xs[j], events[j], PongFrame(load));
    got := PongArrives(xs, events, k, load);
  }

  /** And the models it records from a list are those the backend named, with such a load. */
  lemma RecordedModelsAreTheBackends(xs: seq<S.Session>, events: seq<S.Event>, k: nat, models: seq<string>, load: u32)
    returns (j: nat, got: seq<RequestId>)
    requires S.SessionRun(xs, events) && k < |events| && Arrives(xs, events, k, ModelsUpdate(models, load))
    requires xs[k].w in xs[k].core.workers
    ensures j < k && events[j] == S.Daemonic(Deliver(Some(models))) && xs[k].w in xs[k + 1].core.workers
    ensures xs[k + 1].core.workers[xs[k].w].models == models
    ensures xs[k + 1].core.workers[xs[k].w].reportedLoad == Capped(|xs[j].wire.handles|) + |got|
  {
    j := ArrivingWasMade(xs, events, k, ModelsUpdate(models, load));
    MadeIs(xs[j], events[j], ModelsUpdate(models, load));
    got := UpdateArrives(xs, events, k, models, load);
  }

  /** The body a client is answered with is the one the request's task responded with. */
  lemma AnsweredWithTheTasksBody(xs: seq<S.Session>, events: seq<S.Event>, k: nat, id: RequestId, body: Bytes)
    returns (j: nat)
    requires S.SessionRun(xs, events) && k < |events| && Arrives(xs, events, k, ResponseComplete(id, body))
    ensures j < k && events[j] == S.Daemonic(Respond(id, body))
    ensures xs[k + 1].core.Replies(id)
         == xs[k].core.Replies(id) + if id in xs[k].core.senders then [Complete(body)] else []
  {
    j := ArrivingWasMade(xs, events, k, ResponseComplete(id, body));
    MadeIs(xs[j], events[j], ResponseComplete(id, body));
    BodyArrives(xs, events, k, id, body);
  }
}
