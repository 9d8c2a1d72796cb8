/** What a client gets, in order, of the chunks that a worker's task emits. */
module StreamedReplies {
  import opened Seqs
  import opened RelayState
  import Moves
  import opened Index
  import opened Replies
  import opened Spec
  import opened Traces
  import opened BulkTraces
  import opened WorkerSocket
  import opened Assignments
  import opened Traffic
  import opened Daemon
  import StreamingResponse
  import S = Session

  // ---- the chunks of one request ----

  function ChunkIn(f: Frame, id: RequestId): seq<Bytes> {
    if f.ResponseChunk? && f.id == id then [f.data] else []
  }

  function ChunksIn(frames: seq<Frame>, id: RequestId): seq<Bytes> {
    if frames == [] then [] else ChunksIn(frames[..|frames| - 1], id) + ChunkIn(frames[|frames| - 1], id)
  }

  lemma {:induction false} ChunksJoin(a: seq<Frame>, b: seq<Frame>, id: RequestId)
    ensures ChunksIn(a + b, id) == ChunksIn(a, id) + ChunksIn(b, id)
    decreases |b|
  {
    if b == [] {
      assert a + b == a;
    } else {
      ChunksJoin(a, b[..|b| - 1], id);
      InitAndLast(a, b);
    }
  }

  lemma ChunksPush(frames: seq<Frame>, f: Frame, id: RequestId)
    ensures ChunksIn(frames + [f], id) == ChunksIn(frames, id) + ChunkIn(f, id)
  {
    assert (frames + [f])[..|frames|] == frames;
  }

  lemma ChunksPop(frames: seq<Frame>, id: RequestId)
    requires frames != []
    ensures ChunksIn(frames, id) == ChunkIn(frames[0], id) + ChunksIn(frames[1..], id)
  {
    ChunksJoin([frames[0]], frames[1..], id);
    ChunksPush([], frames[0], id);
    assert [] + [frames[0]] == [frames[0]] && [frames[0]] + frames[1..] == frames;
  }

  lemma {:induction false} NoChunks(frames: seq<Frame>, id: RequestId)
    requires forall i :: 0 <= i < |frames| ==> ChunkIn(frames[i], id) == []
    ensures ChunksIn(frames, id) == []
    decreases |frames|
  {
    if frames != [] {
      NoChunks(frames[..|frames| - 1], id);
    }
  }

  /** The chunks on their way to the server. */
  function UnderWay(x: Wire, id: RequestId): seq<Bytes> { ChunksIn(Travelling(x), id) }

  function EmittedBy(event: S.Event, id: RequestId): seq<Bytes> {
    if event.Daemonic? && event.act.Emit? && event.act.id == id then [event.act.data] else []
  }

  /** What the request's task emits in the events i to k. */
  function Emitted(events: seq<S.Event>, i: nat, k: nat, id: RequestId): seq<Bytes>
    requires i <= k <= |events|
    decreases k
  {
    if k == i then [] else Emitted(events, i, k - 1, id) + EmittedBy(events[k - 1], id)
  }

  function HeardIn(x: S.Session, event: S.Event, id: RequestId): seq<Bytes> {
    if event.Receive? && x.wire.up != [] then ChunkIn(x.wire.up[0], id) else []
  }

  /** What the server hears of the request in the events i to k. */
  function Heard(xs: seq<S.Session>, events: seq<S.Event>, i: nat, k: nat, id: RequestId): seq<Bytes>
    requires i <= k <= |events| && |xs| == |events| + 1
    decreases k
  {
    if k == i then [] else Heard(xs, events, i, k - 1, id) + HeardIn(xs[k - 1], events[k - 1], id)
  }

  // ---- one act of the daemon ----

  function EmitsIn(a: Act, id: RequestId): seq<Bytes> {
    if a.Emit? && a.id == id then [a.data] else []
  }

  /** The link carries what the task emits; ending the session keeps what has been sent. */
  ghost predicate Carries(x: Wire, a: Act, y: Wire, id: RequestId) {
    if y.alive then UnderWay(y, id) == UnderWay(x, id) + EmitsIn(a, id)
    else EmitsIn(a, id) == [] && y.up == x.up && y.events == []
  }

  lemma SayingCarries(x: Wire, y: Wire, f: Frame, id: RequestId)
    requires y.up == x.up && y.events == x.events + [Outbound(f)]
    ensures UnderWay(y, id) == UnderWay(x, id) + ChunkIn(f, id)
  {
    SentPush(x.events, Outbound(f));
    assert Travelling(y) == Travelling(x) + [f];
    ChunksPush(Travelling(x), f, id);
  }

  lemma SilentCarries(x: Wire, y: Wire, e: Event, id: RequestId)
    requires y.up == x.up && y.events == x.events + [e] && !e.Outbound?
    ensures UnderWay(y, id) == UnderWay(x, id)
  {
    SentPush(x.events, e);
    assert Travelling(y) == Travelling(x);
  }

  lemma DeliveryCarries(x: Wire, models: Option<seq<string>>, id: RequestId)
    requires Daemon.Enabled(x, Deliver(models))
    ensures Carries(x, Deliver(models), Next(x, Deliver(models)), id)
  {
    var u, y := x.(down := x.down[1..]), Next(x, Deliver(models));
    match x.down[0]
    case Ping => SayingCarries(u, y, PongFrame(Load(u)), id);
    case Refresh => if models.Some? { SayingCarries(u, y, ModelsUpdate(models.value, Load(u)), id); }
    case _ =>
  }

  lemma ForwardCarries(x: Wire, id: RequestId)
    requires Daemon.Enabled(x, Forward)
    ensures Carries(x, Forward, Next(x, Forward), id)
  {
    SentPop(x.events);
    if !x.events[0].Failed? {
      assert Travelling(Next(x, Forward)) == Travelling(x);
    }
  }

  lemma ActCarries(x: Wire, a: Act, id: RequestId)
    requires Daemon.Enabled(x, a)
    ensures Carries(x, a, Next(x, a), id)
  {
    match a
    case Deliver(models) => DeliveryCarries(x, models, id);
    case Forward => ForwardCarries(x, id);
    case Emit(i, data) => SayingCarries(x, Next(x, a), ResponseChunk(i, data), id);
    case Respond(i, body) => SayingCarries(x, Next(x, a), ResponseComplete(i, body), id);
    case Wind(i) => SilentCarries(x, Next(x, a), Finished(i), id);
    case Fail(i) => SilentCarries(x, Next(x, a), Failed(i), id);
    case Die(_) =>
    case Hangup =>
  }

  // ---- one step of the session ----

  /** What is emitted goes on its way, and what is heard was on its way, first of all. */
  ghost predicate Conveys(x: S.Session, event: S.Event, y: S.Session, id: RequestId) {
    (y.wire.alive ==> x.wire.alive)
    && (x.wire.alive ==> y.wire.alive || y.wire.up == x.wire.up)
    && (!x.wire.alive || !y.wire.alive ==> EmittedBy(event, id) == [])
    && if y.wire.alive || !x.wire.alive
       then HeardIn(x, event, id) + UnderWay(y.wire, id) == UnderWay(x.wire, id) + EmittedBy(event, id)
       else HeardIn(x, event, id) == [] && UnderWay(y.wire, id) == ChunksIn(x.wire.up, id)
  }

  lemma ReceivingConveys(x: S.Session, y: S.Session, id: RequestId)
    requires S.SessionStep(x, S.Receive, y)
    ensures Conveys(x, S.Receive, y, id)
  {
    assert Travelling(x.wire)[0] == x.wire.up[0] && Travelling(y.wire) == Travelling(x.wire)[1..];
    ChunksPop(Travelling(x.wire), id);
  }

  lemma ActingConveys(x: S.Session, act: Act, y: S.Session, id: RequestId)
    requires S.SessionStep(x, S.Daemonic(act), y)
    ensures Conveys(x, S.Daemonic(act), y, id)
  {
    ActCarries(x.wire, act, id);
    if !y.wire.alive {
      assert Travelling(y.wire) == x.wire.up;
    }
  }

  lemma StepConveys(x: S.Session, event: S.Event, y: S.Session, id: RequestId)
    requires S.SessionStep(x, event, y)
    ensures Conveys(x, event, y, id)
  {
    if event.Receive? {
      ReceivingConveys(x, y, id);
    } else if event.Daemonic? {
      ActingConveys(x, event.act, y, id);
    } else {
      assert y.wire == x.wire.(down := y.wire.down);
      assert Travelling(y.wire) == Travelling(x.wire);
    }
  }

  // ---- nothing follows a completion ----

  ghost predicate CompletedIn(frames: seq<Frame>, id: RequestId) {
    exists j :: 0 <= j < |frames| && frames[j].ResponseComplete? && frames[j].id == id
  }

  /** With a completion on its way and the request held only once, nothing else of it is. */
  lemma OnlyThatOne(frames: seq<Frame>, j: nat, others: multiset<RequestId>, id: RequestId)
    requires j < |frames| && frames[j].ResponseComplete? && frames[j].id == id
    requires others[id] + Completions(frames)[id] <= 1
    ensures id !in Completions(frames[j + 1..]) && id !in others
  {
    var before, after := frames[..j + 1], frames[j + 1..];
    assert before + after == frames;
    CompletionsJoin(before, after);
    CompletionAt(before, j);
  }

  lemma CompletedAfter(frames: seq<Frame>, j: nat, i: nat, id: RequestId)
    requires j < i < |frames| && frames[i].ResponseChunk? && frames[i].id == id && CompletedLater(frames, i)
    ensures id in Completions(frames[j + 1..])
  {
    var n :| i < n < |frames| && frames[n].ResponseComplete? && frames[n].id == frames[i].id;
    assert frames[j + 1..][n - j - 1] == frames[n];
    CompletionAt(frames[j + 1..], n - j - 1);
  }

  /** A supported chunk comes before its request's completion. */
  lemma NoneAfter(frames: seq<Frame>, j: nat, others: multiset<RequestId>, id: RequestId)
    requires Supported(frames, others) && j < |frames| && frames[j].ResponseComplete? && frames[j].id == id
    requires others[id] + Completions(frames)[id] <= 1
    ensures ChunksIn(frames[j + 1..], id) == [] && id !in others
  {
    var after := frames[j + 1..];
    OnlyThatOne(frames, j, others, id);
    forall i | 0 <= i < |after| ensures ChunkIn(after[i], id) == [] {
      if after[i].ResponseChunk? && after[i].id == id {
        CompletedAfter(frames, j, j + 1 + i, id);
      }
    }
    NoChunks(after, id);
  }

  lemma NoneUnsent(up: seq<Frame>, later: seq<Frame>, others: multiset<RequestId>, id: RequestId)
    requires Supported(up + later, others) && CompletedIn(up, id)
    requires others[id] + Completions(up + later)[id] <= 1
    ensures ChunksIn(later, id) == [] && ChunksIn(up + later, id) == ChunksIn(up, id) && id !in others
  {
    var j :| 0 <= j < |up| && up[j].ResponseComplete? && up[j].id == id;
    NoneAfter(up + later, j, others, id);
    assert (up + later)[j + 1..] == up[j + 1..] + later;
    ChunksJoin(up[j + 1..], later, id);
    ChunksJoin(up, later, id);
  }

  lemma NoneBehindHead(frames: seq<Frame>, others: multiset<RequestId>, id: RequestId)
    requires Supported(frames, others) && frames != [] && frames[0].ResponseComplete? && frames[0].id == id
    requires others[id] + Completions(frames)[id] <= 1
    ensures ChunksIn(frames, id) == []
  {
    NoneAfter(frames, 0, others, id);
    ChunksPop(frames, id);
    assert frames[0 + 1..] == frames[1..] && ChunkIn(frames[0], id) == [];
  }

  lemma TasksAreOffLink(x: Wire, id: RequestId)
    requires id !in OffLink(x)
    ensures id !in x.running + x.doomed
  {}

  /** Nothing is on its way for a request that is in no stage but the outbox. */
  lemma NoneBefore(frames: seq<Frame>, others: multiset<RequestId>, id: RequestId)
    requires Supported(frames, others) && others[id] + Completions(frames)[id] == 0
    ensures ChunksIn(frames, id) == []
  {
    forall i | 0 <= i < |frames| ensures ChunkIn(frames[i], id) == [] {
      if ChunkIn(frames[i], id) != [] {
        var n :| i < n < |frames| && frames[n].ResponseComplete? && frames[n].id == id;
        CompletionAt(frames, n);
      }
    }
    NoChunks(frames, id);
  }

  lemma HeldOnce(x: S.Session, id: RequestId)
    requires S.Good(x) && x.w in x.core.workers
    ensures Supported(Travelling(x.wire), OffLink(x.wire))
    ensures OffLink(x.wire)[id] + Completions(Travelling(x.wire))[id] <= 1
    ensures id in MessageIds(x.core.Outbox(x.w)) ==> OffLink(x.wire)[id] + Completions(Travelling(x.wire))[id] == 0
  {
    S.ExactlyOneStage(x, id);
    assert S.Stages(x)[id] <= 1;
    assert S.Stages(x)[id] >= multiset(MessageIds(x.core.Outbox(x.w)))[id] + OffLink(x.wire)[id]
                              + Completions(Travelling(x.wire))[id];
  }

  /** A completion that has been sent leaves no chunk behind it. */
  lemma NothingUnsent(x: S.Session, id: RequestId)
    requires S.Good(x) && x.w in x.core.workers && CompletedIn(x.wire.up, id)
    ensures ChunksIn(Sent(x.wire.events), id) == []
    ensures UnderWay(x.wire, id) == ChunksIn(x.wire.up, id) && id !in x.wire.running + x.wire.doomed
  {
    HeldOnce(x, id);
    NoneUnsent(x.wire.up, Sent(x.wire.events), OffLink(x.wire), id);
    TasksAreOffLink(x.wire, id);
  }

  lemma HeadCompletes(x: S.Session, id: RequestId)
    requires S.Good(x) && x.w in x.core.workers
    requires x.wire.up != [] && x.wire.up[0].ResponseComplete? && x.wire.up[0].id == id
    ensures UnderWay(x.wire, id) == [] && id !in x.wire.running + x.wire.doomed && CompletedIn(x.wire.up, id)
  {
    NothingUnsent(x, id);
    HeldOnce(x, id);
    assert Travelling(x.wire)[0] == x.wire.up[0];
    NoneBehindHead(Travelling(x.wire), OffLink(x.wire), id);
  }

  // ---- what is heard is what was emitted ----

  /** What has been heard and what is on its way are, in order, the first of `all`, and all of
      it while the session lasts or once the completion has been sent. */
  ghost predicate InOrder(x: S.Session, all: seq<Bytes>, heard: seq<Bytes>, id: RequestId) {
    heard + UnderWay(x.wire, id) <= all
    && (x.wire.alive || CompletedIn(x.wire.up, id) ==> heard + UnderWay(x.wire, id) == all)
  }

  lemma Regrouped<T>(a: seq<T>, b: seq<T>, c: seq<T>, d: seq<T>, e: seq<T>)
    requires b + c == d + e
    ensures a + b + c == a + d + e
  {
    assert a + b + c == a + (b + c);
    assert a + d + e == a + (d + e);
  }

  lemma LastingKeepsOrder(x: S.Session, event: S.Event, y: S.Session, all: seq<Bytes>, heard: seq<Bytes>, id: RequestId)
    requires InOrder(x, all, heard, id) && Conveys(x, event, y, id) && y.wire.alive
    ensures InOrder(y, all + EmittedBy(event, id), heard + HeardIn(x, event, id), id)
  {
    Regrouped(heard, HeardIn(x, event, id), UnderWay(y.wire, id), UnderWay(x.wire, id), EmittedBy(event, id));
  }

  lemma EndedKeepsOrder(x: S.Session, event: S.Event, y: S.Session, all: seq<Bytes>, heard: seq<Bytes>, id: RequestId)
    requires InOrder(x, all, heard, id) && Conveys(x, event, y, id) && !x.wire.alive
    requires CompletedIn(y.wire.up, id) ==> CompletedIn(x.wire.up, id)
    ensures InOrder(y, all + EmittedBy(event, id), heard + HeardIn(x, event, id), id)
  {
    Regrouped(heard, HeardIn(x, event, id), UnderWay(y.wire, id), UnderWay(x.wire, id), EmittedBy(event, id));
    assert all + [] == all && heard + UnderWay(x.wire, id) + [] == heard + UnderWay(x.wire, id);
  }

  lemma EndingKeepsOrder(x: S.Session, event: S.Event, y: S.Session, all: seq<Bytes>, heard: seq<Bytes>, id: RequestId)
    requires InOrder(x, all, heard, id) && Conveys(x, event, y, id) && x.wire.alive && !y.wire.alive
    requires S.Good(x) && x.w in x.core.workers
    ensures InOrder(y, all + EmittedBy(event, id), heard + HeardIn(x, event, id), id)
  {
    ChunksJoin(x.wire.up, Sent(x.wire.events), id);
    assert all + [] == all && heard + [] == heard;
    CutShort(heard, UnderWay(y.wire, id), ChunksIn(Sent(x.wire.events), id), all);
    if CompletedIn(y.wire.up, id) {
      NothingUnsent(x, id);
    }
  }

  lemma CutShort<T>(a: seq<T>, b: seq<T>, c: seq<T>, all: seq<T>)
    requires a + (b + c) == all
    ensures a + b <= all && (c == [] ==> a + b == all)
  {
    assert a + (b + c) == a + b + c;
    assert c == [] ==> b + c == b;
  }

  lemma CompletionWasThere(x: S.Session, event: S.Event, y: S.Session, id: RequestId)
    requires S.SessionStep(x, event, y) && !x.wire.alive && CompletedIn(y.wire.up, id)
    ensures CompletedIn(x.wire.up, id)
  {
    var j :| 0 <= j < |y.wire.up| && y.wire.up[j].ResponseComplete? && y.wire.up[j].id == id;
    if event.Receive? {
      assert y.wire.up[j] == x.wire.up[j + 1];
    } else {
      assert y.wire.up == x.wire.up;
    }
  }

  lemma StepKeepsOrder(x: S.Session, event: S.Event, y: S.Session, all: seq<Bytes>, heard: seq<Bytes>, id: RequestId)
    requires S.SessionStep(x, event, y) && S.Good(x) && x.w in x.core.workers && InOrder(x, all, heard, id)
    ensures InOrder(y, all + EmittedBy(event, id), heard + HeardIn(x, event, id), id)
  {
    StepConveys(x, event, y, id);
    if y.wire.alive {
      LastingKeepsOrder(x, event, y, all, heard, id);
    } else if x.wire.alive {
      EndingKeepsOrder(x, event, y, all, heard, id);
    } else {
      if CompletedIn(y.wire.up, id) {
        CompletionWasThere(x, event, y, id);
      }
      EndedKeepsOrder(x, event, y, all, heard, id);
    }
  }

  // ---- what is heard is what the reply receives ----

  function AsEvents(chunks: seq<Bytes>): seq<ReplyEvent> {
    seq(|chunks|, i requires 0 <= i < |chunks| => Chunk(chunks[i]))
  }

  lemma EventsJoin(a: seq<Bytes>, b: seq<Bytes>)
    ensures AsEvents(a + b) == AsEvents(a) + AsEvents(b)
  {}

  /** A client still holds the streaming reply. */
  predicate Streams(s: State, id: RequestId) { id in s.senders && s.senders[id].Streaming? }

  /** An open reply to which only endings are added has not changed. */
  lemma OpenStaysSame(s: State, t: State, id: RequestId)
    requires Channels(s) && Channels(t) && LogsGrow(s, t) && OnlyEndings(s, t) && id in s.senders && id in t.senders
    ensures t.Replies(id) == s.Replies(id)
  {
    assert s.Replies(id) <= t.Replies(id);
    AddedIsEnding(s, t, id);
    OpenHasChunks(t, id, |s.Replies(id)|);
  }

  lemma AddedIsEnding(s: State, t: State, id: RequestId)
    requires OnlyEndings(s, t)
    ensures |s.Replies(id)| < |t.Replies(id)| ==> !t.Replies(id)[|s.Replies(id)|].Chunk?
  {}

  lemma OpenHasChunks(t: State, id: RequestId, i: nat)
    requires Channels(t) && id in t.senders
    ensures i < |t.Replies(id)| ==> t.Replies(id)[i].Chunk?
  {}

  lemma NoChunkMoves(op: Op, ms: seq<Moves.Move>)
    requires AllBelong(op, ms) && !op.StreamChunk?
    ensures forall m :: m in ms ==> !m.SendChunk?
  {}

  lemma OtherStepAddsNothing(s: State, op: Op, t: State, id: RequestId)
    requires Sound(s) && Step(s, op, t) && !op.StreamChunk? && id in s.senders && id in t.senders
    ensures t.Replies(id) == s.Replies(id)
  {
    var ms := StepRuns(s, op, t);
    NoChunkMoves(op, ms);
    RunKeepsChannels(s, ms, t);
    RunAddsNoChunk(s, ms, t);
    OpenStaysSame(s, t, id);
  }

  lemma StrangersChunk(s: State, v: WorkerId, other: RequestId, data: Bytes, w: WorkerId, id: RequestId)
    requires Inv(s) && IsRunning(s, w, id) && v != w
    ensures Chunked(s, v, other, data).Replies(id) == s.Replies(id)
  {
    OwnsIsRunning(s, w, id);
  }

  /** Nothing that others do adds to the reply. */
  lemma ElsewhereAddsNothing(s: State, op: Op, t: State, w: WorkerId, id: RequestId)
    requires Sound(s) && Step(s, op, t) && IsRunning(s, w, id) && id in s.senders && id in t.senders
    requires !(op.StreamChunk? && op.w == w)
    ensures t.Replies(id) == s.Replies(id)
  {
    if op.StreamChunk? {
      StrangersChunk(s, op.w, op.id, op.data, w, id);
    } else {
      OtherStepAddsNothing(s, op, t, id);
    }
  }

  lemma OneEvent(data: Bytes)
    ensures AsEvents([data]) == [Chunk(data)]
  {}

  lemma NoEvents(log: seq<ReplyEvent>)
    ensures log + AsEvents([]) == log
  {}

  lemma OwnChunk(s: State, w: WorkerId, other: RequestId, data: Bytes, id: RequestId)
    requires Owns(s, w, id) && Streams(s, id)
    ensures Chunked(s, w, other, data).Replies(id)
         == s.Replies(id) + if other == id then [Chunk(data)] else []
  {
    if other != id {
      assert s.Replies(id) + [] == s.Replies(id);
    }
  }

  lemma OwnFrame(s: State, w: WorkerId, other: RequestId, data: Bytes, id: RequestId)
    requires Inv(s) && IsRunning(s, w, id) && Streams(s, id)
    ensures Chunked(s, w, other, data).Replies(id)
         == s.Replies(id) + AsEvents(ChunkIn(ResponseChunk(other, data), id))
  {
    OwnsIsRunning(s, w, id);
    OwnChunk(s, w, other, data, id);
    OneEvent(data);
    NoEvents(s.Replies(id));
  }

  /** A completion of another request adds nothing either. */
  lemma ResponseAddsNothing(s: State, w: WorkerId, other: RequestId, body: Bytes, ok: bool, t: State, id: RequestId)
    requires Sound(s) && Responds(s, w, other, body, ok, t) && id in s.senders && id in t.senders
    ensures t.Replies(id) == s.Replies(id)
  {
    if ok && Completes(s, w, other, body, true, t) {
      OtherStepAddsNothing(s, CompleteResponse(w, other, body), t, id);
    } else {
      var mid :| Completes(s, w, other, body, false, mid) && Retries(mid, w, other, ok, t);
      var got :| Finishes(mid, w, other, got, t) && ok == (got.Some? || other !in t.active);
      assert Step(s, CompleteResponse(w, other, body), mid) && Step(mid, Op.FinishRequest(w, other), t);
      StepKeeps(s, CompleteResponse(w, other, body), mid);
      HeldMeanwhile(mid, w, other, got, t, id);
      OtherStepAddsNothing(s, CompleteResponse(w, other, body), mid, id);
      OtherStepAddsNothing(mid, Op.FinishRequest(w, other), t, id);
    }
  }

  /** Finishing a request touches no reply. */
  lemma HeldMeanwhile(s: State, w: WorkerId, other: RequestId, got: Option<RequestId>, t: State, id: RequestId)
    requires Finishes(s, w, other, got, t)
    ensures t.senders == s.senders && t.replies == s.replies
  {
    var ms := FinishRuns(s, w, other, got, t);
    SilentRun(s, ms, t);
  }

  lemma {:induction false} SilentRun(s: State, ms: seq<Moves.Move>, t: State)
    requires Moves.Runs(s, ms, t) && forall m :: m in ms ==> Silent(m)
    ensures t.senders == s.senders && t.replies == s.replies
    decreases |ms|
  {
    if ms != [] {
      assert ms[0] in ms;
      forall m | m in ms[1..] ensures m in ms {}
      SilentLeaves(s, ms[0]);
      SilentRun(Moves.Apply(s, ms[0]), ms[1..], t);
    }
  }

  lemma ReportAddsNothing(s: State, w: WorkerId, f: Frame, ok: bool, t: State, id: RequestId)
    requires Sound(s) && Handles(s, w, f, ok, t) && (f.ModelsUpdate? || f.PongFrame?)
    requires id in s.senders && id in t.senders
    ensures t.Replies(id) == s.Replies(id)
  {
    if f.ModelsUpdate? {
      OtherStepAddsNothing(s, UpdateModels(w, f.models, f.current), t, id);
    } else {
      OtherStepAddsNothing(s, Pong(w, f.current), t, id);
    }
  }

  lemma FrameAdds(s: State, w: WorkerId, f: Frame, ok: bool, t: State, id: RequestId)
    requires Sound(s) && Handles(s, w, f, ok, t) && IsRunning(s, w, id) && Streams(s, id) && id in t.senders
    ensures t.Replies(id) == s.Replies(id) + AsEvents(ChunkIn(f, id))
  {
    NoEvents(s.Replies(id));
    if f.ResponseChunk? {
      OwnFrame(s, w, f.id, f.data, id);
    } else if f.ResponseComplete? {
      ResponseAddsNothing(s, w, f.id, f.body, ok, t, id);
    } else if !f.Other? {
      ReportAddsNothing(s, w, f, ok, t, id);
    }
  }

  /** The worker's socket alone speaks for the worker. */
  predicate OwnVoice(event: S.Event, w: WorkerId) {
    event.Elsewhere? ==> !(event.op.StreamChunk? && event.op.w == w)
  }

  lemma StepAdds(x: S.Session, event: S.Event, y: S.Session, id: RequestId)
    requires S.SessionStep(x, event, y) && S.Good(x) && OwnVoice(event, x.w)
    requires IsRunning(x.core, x.w, id) && Streams(x.core, id) && id in y.core.senders
    ensures y.core.Replies(id) == x.core.Replies(id) + AsEvents(HeardIn(x, event, id))
  {
    NoEvents(x.core.Replies(id));
    if event.Receive? {
      var ok :| Handles(x.core, x.w, x.wire.up[0], ok, y.core);
      FrameAdds(x.core, x.w, x.wire.up[0], ok, y.core, id);
    } else if event.Elsewhere? {
      ElsewhereAddsNothing(x.core, event.op, y.core, x.w, id);
    }
  }

  // ---- whole runs ----

  /** From state i to state k the worker runs the request, and a client holds its stream. */
  ghost predicate Serves(xs: seq<S.Session>, i: nat, k: nat, id: RequestId)
    requires k < |xs|
  {
    forall j :: i <= j <= k ==> IsRunning(xs[j].core, xs[j].w, id) && Streams(xs[j].core, id)
  }

  ghost predicate OwnVoices(xs: seq<S.Session>, events: seq<S.Event>)
    requires |xs| == |events| + 1
  {
    forall j :: 0 <= j < |events| ==> OwnVoice(events[j], xs[j].w)
  }

  /** What the links and the reply hold of what was emitted since state i. */
  ghost predicate Delivered(xs: seq<S.Session>, events: seq<S.Event>, i: nat, k: nat, id: RequestId)
    requires i <= k <= |events| && |xs| == |events| + 1
  {
    InOrder(xs[k], Emitted(events, i, k, id), Heard(xs, events, i, k, id), id)
    && xs[k].core.Replies(id) == xs[i].core.Replies(id) + AsEvents(Heard(xs, events, i, k, id))
  }

  ghost predicate DeliveredUpTo(xs: seq<S.Session>, events: seq<S.Event>, i: nat, k: nat, id: RequestId)
    requires i <= k <= |events| && |xs| == |events| + 1
  {
    forall j :: i <= j <= k ==> Delivered(xs, events, i, j, id)
  }

  /** At state i the worker has been given the request, which is still to be sent to its
      daemon; up to state k it runs it, and a client holds the stream. */
  ghost predicate GivenAndServed(xs: seq<S.Session>, events: seq<S.Event>, i: nat, k: nat, id: RequestId) {
    S.SessionRun(xs, events) && OwnVoices(xs, events) && i <= k < |xs| && Serves(xs, i, k, id)
    && id in MessageIds(xs[i].core.Outbox(xs[i].w))
  }

  /** A request not yet sent to the daemon has no chunk under way. */
  lemma UnsentStarts(xs: seq<S.Session>, events: seq<S.Event>, i: nat, id: RequestId)
    requires S.SessionRun(xs, events) && i < |xs| && xs[i].w in xs[i].core.workers
    requires id in MessageIds(xs[i].core.Outbox(xs[i].w))
    ensures DeliveredUpTo(xs, events, i, i, id)
  {
    S.AlwaysGood(xs, events, i);
    NothingYet(xs[i], id);
    NoEvents(xs[i].core.Replies(id));
  }

  lemma NothingYet(x: S.Session, id: RequestId)
    requires S.Good(x) && x.w in x.core.workers && id in MessageIds(x.core.Outbox(x.w))
    ensures InOrder(x, [], [], id)
  {
    HeldOnce(x, id);
    NoneBefore(Travelling(x.wire), OffLink(x.wire), id);
  }

  lemma MoreEvents(log: seq<ReplyEvent>, base: seq<ReplyEvent>, heard: seq<Bytes>, more: seq<Bytes>)
    requires log == base + AsEvents(heard)
    ensures log + AsEvents(more) == base + AsEvents(heard + more)
  {
    EventsJoin(heard, more);
    assert base + AsEvents(heard) + AsEvents(more) == base + (AsEvents(heard) + AsEvents(more));
  }

  lemma StepDelivers(x: S.Session, event: S.Event, y: S.Session, all: seq<Bytes>, heard: seq<Bytes>,
                     base: seq<ReplyEvent>, id: RequestId)
    requires S.SessionStep(x, event, y) && S.Good(x) && OwnVoice(event, x.w)
    requires IsRunning(x.core, x.w, id) && Streams(x.core, id) && id in y.core.senders
    requires InOrder(x, all, heard, id) && x.core.Replies(id) == base + AsEvents(heard)
    ensures InOrder(y, all + EmittedBy(event, id), heard + HeardIn(x, event, id), id)
    ensures y.core.Replies(id) == base + AsEvents(heard + HeardIn(x, event, id))
  {
    StepKeepsOrder(x, event, y, all, heard, id);
    StepAdds(x, event, y, id);
    MoreEvents(x.core.Replies(id), base, heard, HeardIn(x, event, id));
  }

  lemma DeliversNext(xs: seq<S.Session>, events: seq<S.Event>, i: nat, k: nat, id: RequestId)
    requires S.SessionRun(xs, events) && OwnVoices(xs, events) && i <= k < |events| && Serves(xs, i, k + 1, id)
    requires Delivered(xs, events, i, k, id)
    ensures Delivered(xs, events, i, k + 1, id)
  {
    S.AlwaysGood(xs, events, k);
    assert S.StepAt(xs, events, k);
    StepDelivers(xs[k], events[k], xs[k + 1], Emitted(events, i, k, id), Heard(xs, events, i, k, id),
                 xs[i].core.Replies(id), id);
  }

  lemma DeliversOn(xs: seq<S.Session>, events: seq<S.Event>, i: nat, k: nat, id: RequestId)
    requires S.SessionRun(xs, events) && OwnVoices(xs, events) && i <= k < |events| && Serves(xs, i, k + 1, id)
    requires DeliveredUpTo(xs, events, i, k, id)
    ensures DeliveredUpTo(xs, events, i, k + 1, id)
  {
    assert Delivered(xs, events, i, k, id);
    DeliversNext(xs, events, i, k, id);
  }

  lemma {:induction false} AlwaysDelivered(xs: seq<S.Session>, events: seq<S.Event>, i: nat, k: nat, id: RequestId)
    requires GivenAndServed(xs, events, i, k, id)
    ensures DeliveredUpTo(xs, events, i, k, id)
    decreases k
  {
    if i == k {
      UnsentStarts(xs, events, i, id);
    } else {
      AlwaysDelivered(xs, events, i, k - 1, id);
      DeliversOn(xs, events, i, k - 1, id);
    }
  }

  lemma FirstOnes(x: S.Session, all: seq<Bytes>, heard: seq<Bytes>, id: RequestId)
    requires InOrder(x, all, heard, id)
    ensures |heard| <= |all| && heard == all[..|heard|]
  {}

  /** While a worker runs a request it was given at state i, and a client holds the stream,
      the chunks the reply has received since are, in order, the first of those that the
      worker's task has emitted. */
  lemma ChunksArriveInOrder(xs: seq<S.Session>, events: seq<S.Event>, i: nat, k: nat, id: RequestId) returns (n: nat)
    requires GivenAndServed(xs, events, i, k, id)
    ensures n <= |Emitted(events, i, k, id)|
    ensures xs[k].core.Replies(id) == xs[i].core.Replies(id) + AsEvents(Emitted(events, i, k, id)[..n])
  {
    AlwaysDelivered(xs, events, i, k, id);
    assert Delivered(xs, events, i, k, id);
    FirstOnes(xs[k], Emitted(events, i, k, id), Heard(xs, events, i, k, id), id);
    n := |Heard(xs, events, i, k, id)|;
  }

  /** The completion of a request that its worker runs ends its reply, and touches it no more. */
  lemma OwnCompletion(s: State, w: WorkerId, id: RequestId, body: Bytes, ok: bool, t: State)
    requires Inv(s) && IsRunning(s, w, id) && id in s.senders && Responds(s, w, id, body, ok, t)
    ensures t.Replies(id) == s.Replies(id) + [Complete(body)] && id !in t.senders
  {
    if ok && Completes(s, w, id, body, true, t) {
      var got :| Finishes(Moves.Closed(s, id, body), w, id, got, t) && true == (got.Some? || id !in t.active);
      HeldMeanwhile(Moves.Closed(s, id, body), w, id, got, t, id);
    } else {
      var mid :| Completes(s, w, id, body, false, mid) && Retries(mid, w, id, ok, t);
      CompleteEnds(s, w, id, body, false, mid);
    }
  }

  lemma CompletionArrives(x: S.Session, y: S.Session, id: RequestId, body: Bytes)
    requires S.SessionStep(x, S.Receive, y) && S.Good(x) && IsRunning(x.core, x.w, id) && id in x.core.senders
    requires x.wire.up != [] && x.wire.up[0] == ResponseComplete(id, body)
    ensures y.core.Replies(id) == x.core.Replies(id) + [Complete(body)]
  {
    var ok :| Handles(x.core, x.w, x.wire.up[0], ok, y.core);
    OwnCompletion(x.core, x.w, id, body, ok, y.core);
  }

  /** The worker's completion is the next frame to arrive at state k, and arrives. */
  ghost predicate CompletionNext(xs: seq<S.Session>, events: seq<S.Event>, k: nat, id: RequestId, body: Bytes) {
    k < |events| && k < |xs| && events[k].Receive?
    && xs[k].wire.up != [] && xs[k].wire.up[0] == ResponseComplete(id, body)
  }

  /** When the worker's completion arrives, every chunk its task emitted has arrived, in
      order; the completion follows them, and the task is over. */
  lemma CompletionComesLast(xs: seq<S.Session>, events: seq<S.Event>, i: nat, k: nat, id: RequestId, body: Bytes)
    requires GivenAndServed(xs, events, i, k, id) && CompletionNext(xs, events, k, id, body)
    ensures xs[k + 1].core.Replies(id)
         == xs[i].core.Replies(id) + AsEvents(Emitted(events, i, k, id)) + [Complete(body)]
    ensures id !in xs[k].wire.running + xs[k].wire.doomed
  {
    AlwaysDelivered(xs, events, i, k, id);
    assert Delivered(xs, events, i, k, id);
    S.AlwaysGood(xs, events, k);
    HeadCompletes(xs[k], id);
    AllHeard(xs[k], Emitted(events, i, k, id), Heard(xs, events, i, k, id), id);
    assert S.StepAt(xs, events, k);
    CompletionArrives(xs[k], xs[k + 1], id, body);
  }

  lemma AllHeard(x: S.Session, all: seq<Bytes>, heard: seq<Bytes>, id: RequestId)
    requires InOrder(x, all, heard, id) && UnderWay(x.wire, id) == [] && CompletedIn(x.wire.up, id)
    ensures heard == all
  {
    assert heard + [] == heard;
  }

  // ---- the client's body ----

  lemma {:induction false} LeadingOnes(chunks: seq<Bytes>, body: Bytes)
    ensures StreamingResponse.LeadingChunks(AsEvents(chunks) + [Complete(body)]) == chunks
    decreases |chunks|
  {
    var events := AsEvents(chunks) + [Complete(body)];
    if chunks != [] {
      assert events[0] == Chunk(chunks[0]) && events[1..] == AsEvents(chunks[1..]) + [Complete(body)];
      LeadingOnes(chunks[1..], body);
    }
  }

  /** What a client reads of a stream whose reply has this log, from its first chunk on. */
  function BodyRead(log: seq<ReplyEvent>): seq<StreamingResponse.Item>
    requires log != [] && log[0].Chunk?
  {
    StreamingResponse.Body(StreamingResponse.Stream(log[0].data, log[1..]), StreamingResponse.MAX_STREAM_RESPONSE_BYTES)
  }

  lemma BodyOfLog(base: seq<ReplyEvent>, sent: seq<Bytes>, body: Bytes, log: seq<ReplyEvent>) returns (n: nat)
    requires base == [] && sent != [] && log == base + AsEvents(sent) + [Complete(body)]
    ensures log != [] && log[0].Chunk?
    ensures StreamingResponse.LongestFit(sent, 0, StreamingResponse.MAX_STREAM_RESPONSE_BYTES, n)
    ensures BodyRead(log)
         == StreamingResponse.Items(sent[..n]) + (if n < |sent| then [StreamingResponse.Oversized] else [])
  {
    assert base + AsEvents(sent) == AsEvents(sent);
    assert log[0] == Chunk(sent[0]) && log[1..] == AsEvents(sent[1..]) + [Complete(body)];
    LeadingOnes(sent[1..], body);
    assert [sent[0]] + sent[1..] == sent;
    n := StreamingResponse.StreamedBody(sent[0], log[1..]);
  }

  /** The body a client reads is the longest run of the chunks its worker's task emitted that
      stays within the limit, then one error exactly when more were emitted. */
  lemma ClientReadsWhatWasEmitted(xs: seq<S.Session>, events: seq<S.Event>, i: nat, k: nat, id: RequestId, body: Bytes)
    returns (n: nat)
    requires GivenAndServed(xs, events, i, k, id) && CompletionNext(xs, events, k, id, body)
    requires xs[i].core.Replies(id) == [] && Emitted(events, i, k, id) != []
    ensures var log, sent := xs[k + 1].core.Replies(id), Emitted(events, i, k, id);
      log != [] && log[0].Chunk?
      && StreamingResponse.LongestFit(sent, 0, StreamingResponse.MAX_STREAM_RESPONSE_BYTES, n)
      && BodyRead(log)
         == StreamingResponse.Items(sent[..n]) + (if n < |sent| then [StreamingResponse.Oversized] else [])
  {
    var sent := Emitted(events, i, k, id);
    CompletionComesLast(xs, events, i, k, id, body);
    n := BodyOfLog(xs[i].core.Replies(id), sent, body, xs[k + 1].core.Replies(id));
  }
}
