/** One worker daemon and the two links to its server: which requests it holds, and how its
    session loop moves them. */
module Daemon {
  import opened Seqs
  import opened RelayState
  import opened WorkerSocket
  import opened Traffic

  /** `running` are the tasks of live requests, `doomed` those aborted by a Cancel that may
      still be finishing what they were doing, `closing` those about to report that they are
      done. `aborted`, `failed` and `lost` are the requests that will never be completed. */
  datatype Wire = Wire(
    down: seq<Down>,
    up: seq<Frame>,
    events: seq<Event>,
    draining: bool,
    handles: set<RequestId>,
    running: set<RequestId>,
    doomed: set<RequestId>,
    closing: set<RequestId>,
    alive: bool,
    aborted: multiset<RequestId>,
    failed: multiset<RequestId>,
    lost: multiset<RequestId>)

  const FRESH := Wire([Ack], [], [], false, {}, {}, {}, {}, true, multiset{}, multiset{}, multiset{})

  /** Every frame on its way to the server. */
  function Travelling(x: Wire): seq<Frame> { x.up + Sent(x.events) }

  /** The requests that are not on a link. */
  function OffLink(x: Wire): multiset<RequestId> {
    multiset(x.running) + multiset(x.doomed) + x.aborted + x.failed + x.lost
  }

  /** Every request between its server's outbox and its acceptance by the server, once for
      each stage it is in. */
  function Held(x: Wire): multiset<RequestId> {
    Works(x.down) + OffLink(x) + Completions(Travelling(x))
  }

  /** A conforming daemon: chunks come before their completion, and nothing else is sent. */
  ghost predicate Conforms(x: Wire) {
    Supported(Travelling(x), OffLink(x)) && forall f :: f in Travelling(x) ==> !f.Other?
  }

  function Load(x: Wire): u32 {
    if |x.handles| <= U32_MAX then |x.handles| else U32_MAX
  }

  /** What is lost for good when the session ends. */
  function LostAtEnd(x: Wire): multiset<RequestId> {
    x.lost + multiset(x.running) + multiset(x.doomed) + Completions(Sent(x.events))
  }

  /** The session is over: its tasks are aborted and its events dropped. */
  function Ended(x: Wire): Wire {
    x.(alive := false, events := [], handles := {}, running := {}, doomed := {}, closing := {}, lost := LostAtEnd(x))
  }

  // ---- the session loop ----

  datatype Act =
    | Deliver(models: Option<seq<string>>)
    | Forward
    | Emit(id: RequestId, data: Bytes)
    | Respond(id: RequestId, body: Bytes)
    | Wind(id: RequestId)
    | Fail(id: RequestId)
    | Die(id: RequestId)
    | Hangup

  predicate Enabled(x: Wire, a: Act) {
    x.alive && match a
      case Deliver(_) => x.down != []
      case Forward => x.events != []
      case Emit(id, _) => id in x.running + x.doomed
      case Respond(id, _) => id in x.running + x.doomed
      case Wind(id) => id in x.closing
      case Fail(id) => id in x.running + x.doomed
      case Die(id) => id in x.doomed
      case Hangup => true
  }

  /** The answer to one message from the server. `models` is what asking the backend for its
      models brings, if it answers. */
  function Delivered(x: Wire, d: Down, models: Option<seq<string>>): Wire {
    match d
    case Ack => x
    case Work(m) =>
      if x.draining then Ended(x.(lost := x.lost + multiset{m.id}))
      else x.(handles := x.handles + {m.id}, running := x.running + {m.id})
    case Cancel(id, _) =>
      if id in x.handles && id in x.running
      then x.(handles := x.handles - {id}, running := x.running - {id}, doomed := x.doomed + {id})
      else x.(handles := x.handles - {id})
    case Shutdown => x.(draining := true)
    case Ping => x.(events := x.events + [Outbound(PongFrame(Load(x)))])
    case Refresh =>
      if models.Some? then x.(events := x.events + [Outbound(ModelsUpdate(models.value, Load(x)))]) else Ended(x)
  }

  function Forwarded(x: Wire, e: Event): Wire {
    match e
    case Outbound(frame) => x.(up := x.up + [frame])
    case Finished(id) => x.(handles := x.handles - {id})
    case Failed(id) => Ended(x)
  }

  function Next(x: Wire, a: Act): Wire
    requires Enabled(x, a)
  {
    match a
    case Deliver(models) => Delivered(x.(down := x.down[1..]), x.down[0], models)
    case Forward => Forwarded(x.(events := x.events[1..]), x.events[0])
    case Emit(id, data) => x.(events := x.events + [Outbound(ResponseChunk(id, data))])
    case Respond(id, body) =>
      x.(running := x.running - {id}, doomed := x.doomed - {id}, closing := x.closing + {id},
         events := x.events + [Outbound(ResponseComplete(id, body))])
    case Wind(id) => x.(closing := x.closing - {id}, events := x.events + [Finished(id)])
    case Fail(id) =>
      x.(running := x.running - {id}, doomed := x.doomed - {id}, failed := x.failed + multiset{id},
         events := x.events + [Failed(id)])
    case Die(id) => x.(doomed := x.doomed - {id}, aborted := x.aborted + multiset{id})
    case Hangup => Ended(x)
  }

  // ---- sets of tasks ----

  lemma TaskStarts(tasks: set<RequestId>, id: RequestId)
    requires id !in tasks
    ensures multiset(tasks + {id}) == multiset(tasks) + multiset{id}
  {}

  lemma TaskStops(tasks: set<RequestId>, id: RequestId)
    requires id in tasks
    ensures multiset(tasks) == multiset(tasks - {id}) + multiset{id}
  {}

  /** A request in one set of tasks and not the other leaves both. */
  lemma TaskLeaves(a: set<RequestId>, b: set<RequestId>, id: RequestId)
    requires id in a + b && a !! b
    ensures multiset(a) + multiset(b) == multiset(a - {id}) + multiset(b - {id}) + multiset{id}
  {
    if id in a {
      TaskStops(a, id);
      assert b - {id} == b;
    } else {
      TaskStops(b, id);
      assert a - {id} == a;
    }
  }

  // ---- what each act keeps ----

  /** An act keeps every request accounted for, and the daemon conforming. */
  ghost predicate Keeps(x: Wire, y: Wire) {
    Held(y) == Held(x) && Conforms(y) && y.running !! y.doomed
  }

  lemma SayingKeeps(x: Wire, f: Frame)
    requires Conforms(x) && x.running !! x.doomed && !f.Other? && !f.ResponseComplete?
    requires f.ResponseChunk? ==> f.id in x.running + x.doomed
    ensures Keeps(x, x.(events := x.events + [Outbound(f)]))
  {
    var y := x.(events := x.events + [Outbound(f)]);
    SentPush(x.events, Outbound(f));
    assert Travelling(y) == Travelling(x) + [f];
    SupportPush(Travelling(x), OffLink(x), f);
    CompletionsPush(Travelling(x), f);
  }

  lemma SilentEventKeeps(x: Wire, y: Wire, e: Event)
    requires Conforms(x) && !e.Outbound? && y.events == x.events + [e] && y.up == x.up && y.down == x.down
    requires OffLink(y) == OffLink(x) && y.running !! y.doomed
    ensures Keeps(x, y)
  {
    SentPush(x.events, e);
    assert Travelling(y) == Travelling(x);
  }

  lemma RespondKeeps(x: Wire, id: RequestId, body: Bytes)
    requires Conforms(x) && x.running !! x.doomed && Enabled(x, Respond(id, body))
    ensures Keeps(x, Next(x, Respond(id, body)))
  {
    var f := ResponseComplete(id, body);
    var y := Next(x, Respond(id, body));
    SentPush(x.events, Outbound(f));
    assert Travelling(y) == Travelling(x) + [f];
    TaskLeaves(x.running, x.doomed, id);
    assert OffLink(x) == OffLink(y) + multiset{id};
    SupportComplete(Travelling(x), OffLink(x), f, OffLink(y));
    CompletionsPush(Travelling(x), f);
    MovesAcross(Works(x.down), OffLink(y), multiset{id}, Completions(Travelling(x)));
  }

  lemma MovesAcross<T>(a: multiset<T>, b: multiset<T>, c: multiset<T>, d: multiset<T>)
    ensures a + (b + c) + d == a + b + (d + c)
  {}

  lemma FailKeeps(x: Wire, id: RequestId)
    requires Conforms(x) && x.running !! x.doomed && Enabled(x, Fail(id))
    ensures Keeps(x, Next(x, Fail(id)))
  {
    TaskLeaves(x.running, x.doomed, id);
    SilentEventKeeps(x, Next(x, Fail(id)), Failed(id));
  }

  lemma DieKeeps(x: Wire, id: RequestId)
    requires Conforms(x) && x.running !! x.doomed && Enabled(x, Die(id))
    ensures Keeps(x, Next(x, Die(id)))
  {
    TaskStops(x.doomed, id);
    assert OffLink(Next(x, Die(id))) == OffLink(x);
  }

  /** Ending the session loses every task and every unsent completion, and nothing else. */
  lemma EndKeeps(x: Wire)
    requires Conforms(x)
    ensures Keeps(x, Ended(x)) && !Ended(x).alive
  {
    var y := Ended(x);
    assert Travelling(y) == x.up;
    CompletionsJoin(x.up, Sent(x.events));
    SupportCut(x.up, Sent(x.events), OffLink(x), OffLink(y));
  }

  // ---- delivering ----

  lemma DeliverQuietKeeps(x: Wire, y: Wire)
    requires Conforms(x) && x.down != [] && !x.down[0].Work?
    requires y.down == x.down[1..] && Travelling(y) == Travelling(x) && OffLink(y) == OffLink(x)
    requires y.running !! y.doomed
    ensures Keeps(x, y)
  {
    WorksPop(x.down);
  }

  lemma DeliverWorkKeeps(x: Wire)
    requires Conforms(x) && x.running !! x.doomed && x.alive && x.down != [] && x.down[0].Work? && !x.draining
    requires x.down[0].message.id !in x.running + x.doomed
    ensures Keeps(x, Next(x, Deliver(None)))
  {
    var id := x.down[0].message.id;
    var y := Next(x, Deliver(None));
    WorksPop(x.down);
    TaskStarts(x.running, id);
    assert OffLink(y) == OffLink(x) + multiset{id};
    SupportMore(Travelling(x), OffLink(x), OffLink(y));
  }

  /** A request that arrives while the daemon drains ends the session. */
  lemma DeliverLateKeeps(x: Wire)
    requires Conforms(x) && x.running !! x.doomed && x.alive && x.down != [] && x.down[0].Work? && x.draining
    ensures Keeps(x, Next(x, Deliver(None))) && !Next(x, Deliver(None)).alive
  {
    var id := x.down[0].message.id;
    var u := x.(down := x.down[1..], lost := x.lost + multiset{id});
    WorksPop(x.down);
    assert OffLink(u) == OffLink(x) + multiset{id};
    SupportMore(Travelling(x), OffLink(x), OffLink(u));
    assert Travelling(u) == Travelling(x);
    EndKeeps(u);
  }

  lemma DeliverCancelKeeps(x: Wire)
    requires Conforms(x) && x.running !! x.doomed && x.alive && x.down != [] && x.down[0].Cancel?
    ensures Keeps(x, Next(x, Deliver(None)))
  {
    var id := x.down[0].id;
    var y := Next(x, Deliver(None));
    if id in x.handles && id in x.running {
      TaskStops(x.running, id);
      TaskStarts(x.doomed, id);
      assert OffLink(y) == OffLink(x);
    }
    DeliverQuietKeeps(x, y);
  }

  lemma KeepsTwice(x: Wire, u: Wire, y: Wire)
    requires Keeps(x, u) && Keeps(u, y)
    ensures Keeps(x, y)
  {}

  lemma PopQuietKeeps(x: Wire)
    requires Conforms(x) && x.running !! x.doomed && x.down != [] && !x.down[0].Work?
    ensures Keeps(x, x.(down := x.down[1..]))
  {
    DeliverQuietKeeps(x, x.(down := x.down[1..]));
  }

  lemma DeliverPingKeeps(x: Wire)
    requires Conforms(x) && x.running !! x.doomed && x.alive && x.down != [] && x.down[0].Ping?
    ensures Keeps(x, Next(x, Deliver(None)))
  {
    var u := x.(down := x.down[1..]);
    PopQuietKeeps(x);
    SayingKeeps(u, PongFrame(Load(u)));
    KeepsTwice(x, u, u.(events := u.events + [Outbound(PongFrame(Load(u)))]));
  }

  lemma DeliverRefreshKeeps(x: Wire, models: Option<seq<string>>)
    requires Conforms(x) && x.running !! x.doomed && x.alive && x.down != [] && x.down[0].Refresh?
    ensures Keeps(x, Next(x, Deliver(models)))
  {
    var u := x.(down := x.down[1..]);
    PopQuietKeeps(x);
    if models.Some? {
      SayingKeeps(u, ModelsUpdate(models.value, Load(u)));
      KeepsTwice(x, u, u.(events := u.events + [Outbound(ModelsUpdate(models.value, Load(u)))]));
    } else {
      EndKeeps(u);
      KeepsTwice(x, u, Ended(u));
    }
  }

  lemma DeliverIgnoresModels(x: Wire, models: Option<seq<string>>)
    requires x.alive && x.down != [] && !x.down[0].Refresh?
    ensures Next(x, Deliver(models)) == Next(x, Deliver(None))
  {}

  lemma DeliverKeeps(x: Wire, models: Option<seq<string>>)
    requires Conforms(x) && x.running !! x.doomed && Enabled(x, Deliver(models))
    requires x.down[0].Work? ==> x.down[0].message.id !in x.running + x.doomed
    ensures Keeps(x, Next(x, Deliver(models)))
  {
    match x.down[0]
    case Work(_) =>
      DeliverIgnoresModels(x, models);
      if x.draining { DeliverLateKeeps(x); } else { DeliverWorkKeeps(x); }
    case Cancel(_, _) =>
      DeliverIgnoresModels(x, models);
      DeliverCancelKeeps(x);
    case Ping =>
      DeliverIgnoresModels(x, models);
      DeliverPingKeeps(x);
    case Refresh => DeliverRefreshKeeps(x, models);
    case Ack => DeliverQuietKeeps(x, Next(x, Deliver(models)));
    case Shutdown => DeliverQuietKeeps(x, Next(x, Deliver(models)));
  }

  // ---- forwarding ----

  lemma ForwardOutboundKeeps(x: Wire)
    requires Conforms(x) && x.running !! x.doomed && x.alive && x.events != [] && x.events[0].Outbound?
    ensures Keeps(x, Next(x, Forward))
  {
    SentPop(x.events);
    assert Travelling(Next(x, Forward)) == Travelling(x);
  }

  lemma ForwardSilentKeeps(x: Wire)
    requires Conforms(x) && x.running !! x.doomed && x.alive && x.events != [] && !x.events[0].Outbound?
    ensures Keeps(x, Next(x, Forward))
  {
    SentPop(x.events);
    var u := x.(events := x.events[1..]);
    assert Travelling(u) == Travelling(x);
    if x.events[0].Failed? {
      EndKeeps(u);
    }
  }

  /** No act of the daemon loses a request or sends it twice. */
  lemma ActKeeps(x: Wire, a: Act)
    requires Conforms(x) && x.running !! x.doomed && Enabled(x, a)
    requires a.Deliver? && x.down[0].Work? ==> x.down[0].message.id !in x.running + x.doomed
    ensures Keeps(x, Next(x, a))
  {
    match a
    case Deliver(models) => DeliverKeeps(x, models);
    case Forward => if x.events[0].Outbound? { ForwardOutboundKeeps(x); } else { ForwardSilentKeeps(x); }
    case Emit(id, data) => SayingKeeps(x, ResponseChunk(id, data));
    case Respond(id, body) => RespondKeeps(x, id, body);
    case Wind(id) => SilentEventKeeps(x, Next(x, a), Finished(id));
    case Fail(id) => FailKeeps(x, id);
    case Die(id) => DieKeeps(x, id);
    case Hangup => EndKeeps(x);
  }
}
