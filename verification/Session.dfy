/** The core, one worker's two links and its daemon together: while the worker is
    registered, each of its requests is in exactly one place. */
module Session {
  import opened Seqs
  import opened RelayState
  import opened Moves
  import opened Index
  import opened Replies
  import opened Draining
  import opened Spec
  import opened Traces
  import opened BulkTraces
  import opened WorkerSocket
  import opened Assignments
  import opened Traffic
  import opened Daemon

  datatype Session = Session(core: State, w: WorkerId, wire: Wire)

  datatype Event =
    | Elsewhere(op: Op)
    | FlushRequests
    | FlushCancels
    | FlushShutdowns
    | SendPing
    | SendRefresh
    | Receive
    | Daemonic(act: Act)

  function Pushed(x: Wire, more: seq<Down>): Wire { x.(down := x.down + more) }

  ghost predicate SessionStep(x: Session, event: Event, y: Session) {
    y.w == x.w
    && match event
      case Elsewhere(op) => Foreign(op, x.w) && Step(x.core, op, y.core) && y.wire == x.wire
      case FlushRequests =>
        y.core == x.core.(outbox := x.core.outbox - {x.w}) && y.wire == Pushed(x.wire, Requests(x.core.Outbox(x.w)))
      case FlushCancels =>
        y.core == CancelsTaken(x.core, x.w) && y.wire == Pushed(x.wire, Traffic.Cancels(DueCancels(x.core, x.w)))
      case FlushShutdowns =>
        y.core == ShutdownsTaken(x.core, x.w) && y.wire == Pushed(x.wire, Shutdowns(|DueShutdowns(x.core, x.w)|))
      case SendPing => y.core == x.core && y.wire == Pushed(x.wire, [Ping])
      case SendRefresh => y.core == x.core && y.wire == Pushed(x.wire, [Refresh])
      case Receive =>
        x.wire.up != [] && y.wire == x.wire.(up := x.wire.up[1..])
        && exists ok :: Handles(x.core, x.w, x.wire.up[0], ok, y.core)
      case Daemonic(act) => Daemon.Enabled(x.wire, act) && y.core == x.core && y.wire == Next(x.wire, act)
  }

  /** A worker that has just registered. */
  ghost predicate Begins(x: Session) {
    exists s: State, worker: Worker ::
      Sound(s) && worker.inFlight == [] && worker.deadline == None && 1 <= worker.maxConcurrent <= U32_MAX
      && x == Session(Added(s, worker), s.nextWorker, FRESH)
  }

  /** Where the worker's requests are: waiting to be sent, or held by the links or the daemon. */
  function Stages(x: Session): multiset<RequestId> {
    multiset(MessageIds(x.core.Outbox(x.w))) + Held(x.wire)
  }

  ghost predicate Accounted(x: Session) {
    x.w in x.core.workers
    && multiset(x.core.workers[x.w].inFlight) == Stages(x) && Conforms(x.wire) && x.wire.running !! x.wire.doomed
  }

  ghost predicate Good(x: Session) {
    Sound(x.core) && x.w < x.core.nextWorker && (x.w in x.core.workers ==> Accounted(x))
  }

  // ---- the stages are exclusive ----

  lemma {:induction false} CountOnce<T>(s: seq<T>, x: T)
    requires NoDup(s)
    ensures multiset(s)[x] == if x in s then 1 else 0
  {
    if s != [] {
      var init, last := s[..|s| - 1], s[|s| - 1];
      assert s == init + [last];
      CountOnce(init, x);
      assert last !in init;
    }
  }

  lemma ListOnce(s: State, w: WorkerId, id: RequestId)
    requires Once(s) && w in s.workers
    ensures multiset(s.workers[w].inFlight)[id] == if id in s.workers[w].inFlight then 1 else 0
  {
    CountOnce(s.workers[w].inFlight, id);
  }

  /** Each request of a registered worker is in exactly one stage, and nothing else is in any. */
  lemma ExactlyOneStage(x: Session, id: RequestId)
    requires Good(x) && x.w in x.core.workers
    ensures Stages(x)[id] == if id in x.core.workers[x.w].inFlight then 1 else 0
  {
    ListOnce(x.core, x.w, id);
  }

  // ---- steps of the server ----

  lemma FrameEffect(x: Session, y: Session)
    requires Accounted(x) && y.w == x.w && x.w in y.core.workers
    requires Grew(x.core, y.core, x.w) && y.wire == x.wire
    ensures Accounted(y)
  {
    var s, t, w := x.core, y.core, x.w;
    var more :| GrewBy(s.workers[w].inFlight, s.Outbox(w), t.workers[w].inFlight, t.Outbox(w), more);
    MessageIdsJoin(s.Outbox(w), more);
  }

  lemma ElsewhereKeeps(x: Session, op: Op, y: Session)
    requires Good(x) && SessionStep(x, Elsewhere(op), y)
    ensures Good(y)
  {
    StepKeeps(x.core, op, y.core);
    StepNobodyReturns(x.core, op, y.core, x.w);
    if x.w in y.core.workers {
      ForeignGrows(x.core, op, y.core, x.w);
      FrameEffect(x, y);
    }
  }

  lemma {:induction false} RunNobodyReturns(s: State, ms: seq<Move>, t: State, w: WorkerId)
    requires Moves.Runs(s, ms, t) && w < s.nextWorker
    ensures w < t.nextWorker && (w in t.workers ==> w in s.workers)
    decreases |ms|
  {
    if ms != [] {
      NextWorkerGrows(s, ms[0]);
      if w !in s.workers {
        NobodyReturns(s, ms[0], w);
      }
      RunNobodyReturns(Apply(s, ms[0]), ms[1..], t, w);
    }
  }

  lemma StepNobodyReturns(s: State, op: Op, t: State, w: WorkerId)
    requires Sound(s) && Step(s, op, t) && w < s.nextWorker
    ensures w < t.nextWorker && (w in t.workers ==> w in s.workers)
  {
    var ms := StepRuns(s, op, t);
    RunNobodyReturns(s, ms, t, w);
  }

  lemma PushHolds(x: Wire, more: seq<Down>)
    requires Conforms(x)
    ensures Held(Pushed(x, more)) == Held(x) + Works(more) && Conforms(Pushed(x, more))
  {
    WorksJoin(x.down, more);
  }

  lemma FlushRequestsKeeps(x: Session, y: Session)
    requires Good(x) && SessionStep(x, FlushRequests, y)
    ensures Good(y)
  {
    StepKeeps(x.core, TakeRequests(x.w), y.core);
    if x.w in y.core.workers {
      PushHolds(x.wire, Requests(x.core.Outbox(x.w)));
      RequestsAreWork(x.core.Outbox(x.w));
    }
  }

  /** The core changes nothing about the worker, and nothing that is a request is sent. */
  lemma QuietPushKeeps(x: Session, y: Session, more: seq<Down>)
    requires Good(x) && y.w == x.w && Sound(y.core) && y.wire == Pushed(x.wire, more) && Works(more) == multiset{}
    requires y.core.workers == x.core.workers && y.core.outbox == x.core.outbox
    requires y.core.nextWorker == x.core.nextWorker
    ensures Good(y)
  {
    if x.w in y.core.workers {
      QuietPushEffect(x, y, more);
    }
  }

  lemma QuietPushEffect(x: Session, y: Session, more: seq<Down>)
    requires Accounted(x) && y.w == x.w && y.wire == Pushed(x.wire, more) && Works(more) == multiset{}
    requires y.core.workers == x.core.workers && y.core.outbox == x.core.outbox
    ensures Accounted(y)
  {
    PushHolds(x.wire, more);
    assert Held(x.wire) + multiset{} == Held(x.wire);
  }

  lemma FlushKeeps(x: Session, event: Event, y: Session)
    requires Good(x) && SessionStep(x, event, y)
    requires event.FlushCancels? || event.FlushShutdowns? || event.SendPing? || event.SendRefresh?
    ensures Good(y)
  {
    match event
    case FlushCancels =>
      StepKeeps(x.core, TakeCancelSignals(x.w), y.core);
      CancelsAreNoWork(DueCancels(x.core, x.w));
      QuietPushKeeps(x, y, Traffic.Cancels(DueCancels(x.core, x.w)));
    case FlushShutdowns =>
      StepKeeps(x.core, TakeShutdownSignals(x.w), y.core);
      ShutdownsAreNoWork(|DueShutdowns(x.core, x.w)|);
      QuietPushKeeps(x, y, Shutdowns(|DueShutdowns(x.core, x.w)|));
    case SendPing =>
      WorksOne(Ping);
      QuietPushKeeps(x, y, [Ping]);
    case SendRefresh =>
      WorksOne(Refresh);
      QuietPushKeeps(x, y, [Refresh]);
  }

  // ---- receiving a frame ----

  function Popped(x: Wire): Wire
    requires x.up != []
  {
    x.(up := x.up[1..])
  }

  lemma PopHolds(x: Wire)
    requires Conforms(x) && x.up != []
    ensures Held(x) == Held(Popped(x)) + CompletionOf(x.up[0])
    ensures Conforms(Popped(x)) && !x.up[0].Other?
  {
    assert Travelling(x)[0] == x.up[0];
    assert Travelling(Popped(x)) == Travelling(x)[1..];
    CompletionsPop(Travelling(x));
    SupportPop(Travelling(x), OffLink(x));
    assert x.up[0] in Travelling(x);
  }

  lemma HeadIsHeld(x: Wire)
    requires Conforms(x) && x.up != [] && (x.up[0].ResponseChunk? || x.up[0].ResponseComplete?)
    ensures x.up[0].id in Held(x)
  {
    assert Travelling(x)[0] == x.up[0];
    if x.up[0].ResponseChunk? {
      SupportedHead(Travelling(x), OffLink(x));
    } else {
      CompletionAt(Travelling(x), 0);
    }
  }

  /** A request still held is one the worker runs. */
  lemma HeldIsRunning(x: Session, id: RequestId)
    requires Accounted(x) && id in Held(x.wire)
    ensures IsRunning(x.core, x.w, id)
  {
    assert id in Stages(x);
  }

  /** Nothing a conforming daemon sends is a protocol error while its worker is registered. */
  lemma NeverAProtocolError(x: Session, ok: bool, t: State)
    requires Good(x) && x.w in x.core.workers && x.wire.up != [] && Handles(x.core, x.w, x.wire.up[0], ok, t)
    ensures ok
  {
    var f := x.wire.up[0];
    PopHolds(x.wire);
    if f.ResponseChunk? || f.ResponseComplete? {
      HeadIsHeld(x.wire);
      HeldIsRunning(x, f.id);
      OwnsIsRunning(x.core, x.w, f.id);
      if f.ResponseComplete? {
        CompletionAccepted(x.core, x.w, f.id, f.body, ok, t);
      }
    }
  }

  lemma OwnerResponds(s: State, w: WorkerId, id: RequestId, body: Bytes, ok: bool, t: State)
    requires Inv(s) && IsRunning(s, w, id) && Responds(s, w, id, body, ok, t) && w in t.workers
    ensures Replaced(s, t, w, id)
  {
    if ok && Completes(s, w, id, body, true, t) {
      OwnerCompletes(s, w, id, body, true, t);
    } else {
      var mid :| Completes(s, w, id, body, false, mid) && Retries(mid, w, id, ok, t);
      CompleteEnds(s, w, id, body, false, mid);
      var got :| Finishes(mid, w, id, got, t) && ok == (got.Some? || id !in t.active);
      FinishReplaces(s, w, id, got, t);
    }
  }

  lemma OwnerCompletes(s: State, w: WorkerId, id: RequestId, body: Bytes, ok: bool, t: State)
    requires Inv(s) && IsRunning(s, w, id) && id in s.senders && Completes(s, w, id, body, ok, t) && w in t.workers
    ensures Replaced(s, t, w, id)
  {
    var u := Closed(s, id, body);
    var got :| Finishes(u, w, id, got, t) && ok == (got.Some? || id !in t.active);
    ClosedInv(s, id, body);
    ClosedSame(s, id, body);
    FinishReplaces(u, w, id, got, t);
    ReplacedSame(s, u, t, w, id);
  }

  lemma ReplacedSame(s: State, u: State, t: State, w: WorkerId, id: RequestId)
    requires Replaced(u, t, w, id) && u.workers == s.workers && u.outbox == s.outbox
    ensures Replaced(s, t, w, id)
  {
    var more :| GrewBy(Without(u.workers[w].inFlight, id), u.Outbox(w), t.workers[w].inFlight, t.Outbox(w), more);
    assert GrewBy(Without(s.workers[w].inFlight, id), s.Outbox(w), t.workers[w].inFlight, t.Outbox(w), more);
  }

  lemma WithoutCount(l: seq<RequestId>, id: RequestId)
    requires id in l
    ensures multiset(l) == multiset(Without(l, id)) + multiset{id}
  {
    var i := IndexOf(l, id);
    assert l == l[..i] + [id] + l[i + 1..];
  }

  /** The completion leaves the link as its request leaves the list. */
  lemma CompletionEffect(x: Session, y: Session, id: RequestId)
    requires Accounted(x) && y.w == x.w && x.w in y.core.workers && IsRunning(x.core, x.w, id)
    requires Replaced(x.core, y.core, x.w, id) && y.wire.running !! y.wire.doomed
    requires Held(x.wire) == Held(y.wire) + multiset{id} && Conforms(y.wire)
    ensures Accounted(y)
  {
    var s, t, w := x.core, y.core, x.w;
    var more :| GrewBy(Without(s.workers[w].inFlight, id), s.Outbox(w), t.workers[w].inFlight, t.Outbox(w), more);
    var left := Without(s.workers[w].inFlight, id);
    WithoutCount(s.workers[w].inFlight, id);
    LessOne(multiset(left), multiset(MessageIds(s.Outbox(w))) + Held(y.wire), id);
    MessageIdsJoin(s.Outbox(w), more);
    BothGrow(left, MessageIds(s.Outbox(w)), Held(y.wire), MessageIds(more));
  }

  lemma BothGrow(left: seq<RequestId>, unsent: seq<RequestId>, held: multiset<RequestId>, more: seq<RequestId>)
    requires multiset(left) == multiset(unsent) + held
    ensures multiset(left + more) == multiset(unsent + more) + held
  {
    assert multiset(left + more) == multiset(left) + multiset(more);
    assert multiset(unsent + more) == multiset(unsent) + multiset(more);
  }

  lemma LessOne(a: multiset<RequestId>, b: multiset<RequestId>, id: RequestId)
    requires a + multiset{id} == b + multiset{id}
    ensures a == b
  {
    assert a == a + multiset{id} - multiset{id};
    assert b == b + multiset{id} - multiset{id};
  }

  lemma ReceiveCompletionKeeps(x: Session, y: Session, ok: bool)
    requires Accounted(x) && Inv(x.core) && y.w == x.w && x.w in y.core.workers
    requires x.wire.up != [] && x.wire.up[0].ResponseComplete? && y.wire == Popped(x.wire)
    requires Handles(x.core, x.w, x.wire.up[0], ok, y.core)
    ensures Accounted(y)
  {
    var f := x.wire.up[0];
    HeadIsHeld(x.wire);
    HeldIsRunning(x, f.id);
    OwnerResponds(x.core, x.w, f.id, f.body, ok, y.core);
    PopHolds(x.wire);
    CompletionEffect(x, y, f.id);
  }

  lemma ReceiveOtherKeeps(x: Session, y: Session)
    requires Accounted(x) && y.w == x.w && x.w in y.core.workers && Grew(x.core, y.core, x.w)
    requires x.wire.up != [] && !x.wire.up[0].ResponseComplete? && y.wire == Popped(x.wire)
    ensures Accounted(y)
  {
    PopHolds(x.wire);
    FrameEffect(Session(x.core, x.w, y.wire), y);
  }

  /** A frame other than a completion is one operation of the core. */
  lemma FrameIsStep(s: State, w: WorkerId, f: Frame, ok: bool, t: State) returns (op: Op)
    requires Handles(s, w, f, ok, t) && !f.ResponseComplete? && !f.Other?
    ensures Step(s, op, t) && Foreign(op, w)
  {
    match f
    case ModelsUpdate(models, current) =>
      op := UpdateModels(w, models, current);
    case PongFrame(current) =>
      op := Pong(w, current);
    case ResponseChunk(id, data) =>
      op := StreamChunk(w, id, data);
  }

  lemma ReceiveReportKeeps(x: Session, y: Session, ok: bool)
    requires Good(x) && y.w == x.w && x.w in x.core.workers
    requires x.wire.up != [] && !x.wire.up[0].ResponseComplete? && y.wire == Popped(x.wire)
    requires Handles(x.core, x.w, x.wire.up[0], ok, y.core)
    ensures Good(y)
  {
    PopHolds(x.wire);
    var op := FrameIsStep(x.core, x.w, x.wire.up[0], ok, y.core);
    StepKeeps(x.core, op, y.core);
    StepNobodyReturns(x.core, op, y.core, x.w);
    if x.w in y.core.workers {
      ForeignGrows(x.core, op, y.core, x.w);
      ReceiveOtherKeeps(x, y);
    }
  }

  /** What the socket does to the core for any frame at all. */
  lemma HandlingKeeps(s: State, w: WorkerId, f: Frame, ok: bool, t: State)
    requires Sound(s) && Handles(s, w, f, ok, t) && w < s.nextWorker
    ensures Sound(t) && w < t.nextWorker && (w in t.workers ==> w in s.workers)
  {
    if f.ResponseComplete? {
      RespondingKeeps(s, w, f.id, f.body, ok, t);
    } else if !f.Other? {
      var op := FrameIsStep(s, w, f, ok, t);
      StepKeeps(s, op, t);
      StepNobodyReturns(s, op, t, w);
    }
  }

  lemma OneStepKeeps(s: State, op: Op, t: State, w: WorkerId)
    requires Sound(s) && Step(s, op, t) && w < s.nextWorker
    ensures Sound(t) && w < t.nextWorker && (w in t.workers ==> w in s.workers)
  {
    StepKeeps(s, op, t);
    StepNobodyReturns(s, op, t, w);
  }

  lemma RespondingKeeps(s: State, w: WorkerId, id: RequestId, body: Bytes, ok: bool, t: State)
    requires Sound(s) && Responds(s, w, id, body, ok, t) && w < s.nextWorker
    ensures Sound(t) && w < t.nextWorker && (w in t.workers ==> w in s.workers)
  {
    if ok && Completes(s, w, id, body, true, t) {
      OneStepKeeps(s, CompleteResponse(w, id, body), t, w);
    } else {
      var mid :| Completes(s, w, id, body, false, mid) && Retries(mid, w, id, ok, t);
      OneStepKeeps(s, CompleteResponse(w, id, body), mid, w);
      var got :| Finishes(mid, w, id, got, t) && ok == (got.Some? || id !in t.active);
      OneStepKeeps(mid, Op.FinishRequest(w, id), t, w);
    }
  }

  lemma ReceiveKeeps(x: Session, y: Session)
    requires Good(x) && SessionStep(x, Receive, y)
    ensures Good(y)
  {
    var ok :| Handles(x.core, x.w, x.wire.up[0], ok, y.core);
    HandlingKeeps(x.core, x.w, x.wire.up[0], ok, y.core);
    if x.w in y.core.workers {
      if x.wire.up[0].ResponseComplete? {
        ReceiveCompletionKeeps(x, y, ok);
      } else {
        ReceiveReportKeeps(x, y, ok);
      }
    }
  }

  // ---- steps of the daemon ----

  lemma {:induction false} WorkAhead(down: seq<Down>)
    requires down != [] && down[0].Work?
    ensures down[0].message.id in Works(down)
  {
    WorksPop(down);
  }

  /** A request on the link is not one the daemon already runs. */
  lemma ArrivesFresh(x: Session)
    requires Accounted(x) && Once(x.core) && x.wire.down != [] && x.wire.down[0].Work?
    ensures x.wire.down[0].message.id !in x.wire.running + x.wire.doomed
  {
    var id := x.wire.down[0].message.id;
    ListOnce(x.core, x.w, id);
    WorkAhead(x.wire.down);
    assert Stages(x)[id] <= 1;
    assert Stages(x)[id] >= Works(x.wire.down)[id] + multiset(x.wire.running)[id] + multiset(x.wire.doomed)[id];
  }

  lemma DaemonKeeps(x: Session, act: Act, y: Session)
    requires Good(x) && SessionStep(x, Daemonic(act), y)
    ensures Good(y)
  {
    if x.w in x.core.workers {
      if act.Deliver? && x.wire.down[0].Work? {
        ArrivesFresh(x);
      }
      ActKeeps(x.wire, act);
    }
  }

  // ---- every step, every run ----

  lemma SessionKeeps(x: Session, event: Event, y: Session)
    requires Good(x) && SessionStep(x, event, y)
    ensures Good(y)
  {
    match event
    case Elsewhere(op) => ElsewhereKeeps(x, op, y);
    case FlushRequests => FlushRequestsKeeps(x, y);
    case FlushCancels => FlushKeeps(x, event, y);
    case FlushShutdowns => FlushKeeps(x, event, y);
    case SendPing => FlushKeeps(x, event, y);
    case SendRefresh => FlushKeeps(x, event, y);
    case Receive => ReceiveKeeps(x, y);
    case Daemonic(act) => DaemonKeeps(x, act, y);
  }

  lemma BeginsGood(x: Session)
    requires Begins(x)
    ensures Good(x)
  {
    var s: State, worker: Worker :|
      Sound(s) && worker.inFlight == [] && worker.deadline == None && 1 <= worker.maxConcurrent <= U32_MAX
      && x == Session(Added(s, worker), s.nextWorker, FRESH);
    NewcomerGood(s, worker);
  }

  lemma NewcomerGood(s: State, worker: Worker)
    requires Sound(s) && worker.inFlight == [] && worker.deadline == None && 1 <= worker.maxConcurrent <= U32_MAX
    ensures Good(Session(Added(s, worker), s.nextWorker, FRESH))
  {
    NewcomerSound(s, worker);
    NewcomerAccounted(s, worker);
  }

  lemma NewcomerSound(s: State, worker: Worker)
    requires Sound(s) && worker.inFlight == [] && worker.deadline == None && 1 <= worker.maxConcurrent <= U32_MAX
    ensures Sound(Added(s, worker))
  {
    AddKeeps(s, worker);
    SameChannels(s, Added(s, worker));
  }

  lemma NewcomerAccounted(s: State, worker: Worker)
    requires Listed(s) && worker.inFlight == []
    ensures Accounted(Session(Added(s, worker), s.nextWorker, FRESH))
  {
    WorksOne(Ack);
    assert Added(s, worker).Outbox(s.nextWorker) == [];
  }

  ghost predicate StepAt(xs: seq<Session>, events: seq<Event>, k: int)
    requires |xs| == |events| + 1 && 0 <= k < |events|
  {
    SessionStep(xs[k], events[k], xs[k + 1])
  }

  ghost predicate SessionRun(xs: seq<Session>, events: seq<Event>) {
    |xs| == |events| + 1 && Begins(xs[0]) && forall k :: 0 <= k < |events| ==> StepAt(xs, events, k)
  }

  ghost predicate GoodUpTo(xs: seq<Session>, k: nat)
    requires k < |xs|
  {
    forall i :: 0 <= i <= k ==> Good(xs[i])
  }

  lemma StaysGood(xs: seq<Session>, events: seq<Event>, k: nat)
    requires SessionRun(xs, events) && k < |events| && GoodUpTo(xs, k)
    ensures GoodUpTo(xs, k + 1)
  {
    assert StepAt(xs, events, k);
    SessionKeeps(xs[k], events[k], xs[k + 1]);
  }

  lemma StartsGood(xs: seq<Session>, events: seq<Event>)
    requires SessionRun(xs, events)
    ensures GoodUpTo(xs, 0)
  {
    BeginsGood(xs[0]);
  }

  /** Over every interleaving of the core, the links and the daemon. */
  lemma {:induction false} AlwaysGood(xs: seq<Session>, events: seq<Event>, k: nat)
    requires SessionRun(xs, events) && k < |xs|
    ensures GoodUpTo(xs, k)
  {
    if k == 0 {
      StartsGood(xs, events);
    } else {
      AlwaysGood(xs, events, k - 1);
      StaysGood(xs, events, k - 1);
    }
  }

  lemma GoodComposes(x: Session)
    requires Good(x) && x.w in x.core.workers
    ensures forall id :: Stages(x)[id] == if id in x.core.workers[x.w].inFlight then 1 else 0
    ensures forall ok, t :: x.wire.up != [] && Handles(x.core, x.w, x.wire.up[0], ok, t) ==> ok
  {
    forall id ensures Stages(x)[id] == if id in x.core.workers[x.w].inFlight then 1 else 0 {
      ExactlyOneStage(x, id);
    }
    forall ok, t | x.wire.up != [] && Handles(x.core, x.w, x.wire.up[0], ok, t) ensures ok {
      NeverAProtocolError(x, ok, t);
    }
  }

  /** In every reachable state with the worker registered, each of its requests is in exactly
      one stage, and the next frame to arrive, whatever it is, is accepted. */
  lemma ServerAndDaemonCompose(xs: seq<Session>, events: seq<Event>, k: nat)
    requires SessionRun(xs, events) && k < |xs| && xs[k].w in xs[k].core.workers
    ensures forall id :: Stages(xs[k])[id] == if id in xs[k].core.workers[xs[k].w].inFlight then 1 else 0
    ensures forall ok, t :: xs[k].wire.up != [] && Handles(xs[k].core, xs[k].w, xs[k].wire.up[0], ok, t) ==> ok
  {
    AlwaysGood(xs, events, k);
    GoodComposes(xs[k]);
  }
}
