/** Every public operation is a run of elementary moves. */
module Traces {
  import opened Seqs
  import opened RelayState
  import opened Moves
  import opened Index
  import opened Replies
  import opened Selection
  import opened Spec

  /** What every run of the core keeps. */
  ghost predicate Sound(s: State) { Inv(s) && Channels(s) }

  /** The moves an operation may make. */
  predicate Belongs(op: Op, m: Move) {
    match op
    case Configure(p, policy) => m == SetPolicy(p, policy)
    case Register(_, _, _, _, _) => m.AddWorker?
    case UpdateModels(w, _, _) => (m.Tune? || m.Pull?) && m.w == w
    case Pong(w, _) => (m.Tune? || m.Pull?) && m.w == w
    case Submit(_) => m.Admit? || m.Enqueue? || m.Refuse? || m.OpenReply?
    case FinishRequest(w, id) => FinishBelongs(w, id, m)
    case StreamChunk(w, id, data) => m == SendChunk(w, id, data)
    case CompleteResponse(w, id, body) => m == CloseReply(id, body) || FinishBelongs(w, id, m)
    case TakeRequests(w) => m == TakeOutbox(w)
    case TakeCancelSignals(w) => m == TakeCancels(w)
    case BeginShutdown(_, _, _) => m.StartDrain?
    case TakeShutdownSignals(w) => m == TakeShutdowns(w)
    case ExpireShutdown(_) => m.FailRunning? || (m.Leave? && m.close == Some(TimedOut))
    case ExpireQueues(_) => m.Drop? && m.failure == Some(QueueTimedOut)
    case DeleteProvider(p) =>
      (m.Drop? && m.failure == Some(ProviderDeleted)) || m == DropQueue(p) || m.FailRunning?
      || (m.Leave? && m.close == Some(Completed))
    case Disconnect(w) => (m.FailRunning? && m.w == w) || (m.Requeue? && m.w == w) || m == Leave(w, None)
    case CancelRequest(id, reason) => (m.Drop? && m.failure == None) || m == Mark(id, reason)
    case DisconnectIfDrained(w) => m == Leave(w, Some(Completed))
    case TakeCloseReason(w) => m == TakeClose(w)
  }

  predicate FinishBelongs(w: WorkerId, id: RequestId, m: Move) {
    m == Finish(w, id) || m == Leave(w, Some(Completed)) || (m.Pull? && m.w == w)
  }

  ghost predicate AllBelong(op: Op, ms: seq<Move>) {
    forall m :: m in ms ==> Belongs(op, m)
  }

  lemma RunsOne(s: State, m: Move)
    requires Enabled(s, m)
    ensures Runs(s, [m], Apply(s, m))
  {
    assert Runs(Apply(s, m), [m][1..], Apply(s, m));
  }

  lemma RunsCons(s: State, m: Move, ms: seq<Move>, s': State)
    requires Enabled(s, m) && Runs(Apply(s, m), ms, s')
    ensures Runs(s, [m] + ms, s')
  {
    assert ([m] + ms)[1..] == ms;
  }

  // ---- dispatching ----

  lemma PullRuns(s: State, w: WorkerId, id: RequestId, s': State) returns (m: Move)
    requires PullsOne(s, w, id, s')
    ensures m.Pull? && m.w == w && Enabled(s, m) && Apply(s, m) == s'
  {
    var p, i: nat :| BestPick(s, w, p, i) && s.queues[p][i].id == id && s' == Pulled(s, w, p, i);
    m := Pull(w, p, i);
  }

  lemma {:induction false} DrainRuns(s: State, w: WorkerId, got: seq<RequestId>, s': State) returns (ms: seq<Move>)
    requires Drains(s, w, got, s')
    ensures Runs(s, ms, s') && |ms| == |got|
    ensures forall m :: m in ms ==> m.Pull? && m.w == w
    decreases |got|
  {
    ms := [];
    if got != [] {
      var mid :| PullsOne(s, w, got[0], mid) && Drains(mid, w, got[1..], s');
      var m := PullRuns(s, w, got[0], mid);
      var rest := DrainRuns(mid, w, got[1..], s');
      RunsCons(s, m, rest, s');
      ms := [m] + rest;
    }
  }

  lemma DispatchRuns(s: State, w: WorkerId, got: Option<RequestId>, s': State) returns (ms: seq<Move>)
    requires Dispatches(s, w, got, s')
    ensures Runs(s, ms, s')
    ensures forall m :: m in ms ==> m.Pull? && m.w == w
  {
    ms := [];
    if got.Some? {
      var m := PullRuns(s, w, got.value, s');
      RunsOne(s, m);
      ms := [m];
    }
  }

  lemma RetuneRuns(s: State, w: WorkerId, models: seq<string>, load: nat, got: seq<RequestId>, s': State)
    returns (ms: seq<Move>)
    requires Retunes(s, w, models, load, got, s')
    ensures Runs(s, ms, s')
    ensures forall m :: m in ms ==> (m.Tune? || m.Pull?) && m.w == w
  {
    ms := [];
    if w in s.workers {
      var rest := DrainRuns(Tuned(s, w, models, load), w, got, s');
      RunsCons(s, Tune(w, models, load), rest, s');
      ms := [Tune(w, models, load)] + rest;
    }
  }

  lemma FinishRuns(s: State, w: WorkerId, id: RequestId, got: Option<RequestId>, s': State) returns (ms: seq<Move>)
    requires Finishes(s, w, id, got, s')
    ensures Runs(s, ms, s')
    ensures forall m :: m in ms ==> FinishBelongs(w, id, m)
  {
    ms := [];
    if w in s.workers && id in s.workers[w].inFlight {
      var t := Moves.Finished(s, w, id);
      var rest := [];
      if t.workers[w].Draining() && t.workers[w].inFlight == [] {
        rest := [Leave(w, Some(Completed))];
        RunsOne(t, rest[0]);
      } else {
        rest := DispatchRuns(t, w, got, s');
      }
      RunsCons(s, Finish(w, id), rest, s');
      ms := [Finish(w, id)] + rest;
    }
  }

  lemma CompleteRuns(s: State, w: WorkerId, id: RequestId, body: Bytes, ok: bool, s': State) returns (ms: seq<Move>)
    requires Completes(s, w, id, body, ok, s')
    ensures Runs(s, ms, s')
    ensures AllBelong(CompleteResponse(w, id, body), ms)
  {
    ms := [];
    if id in s.senders {
      var got :| Finishes(Closed(s, id, body), w, id, got, s') && ok == (got.Some? || id !in s'.active);
      var rest := FinishRuns(Closed(s, id, body), w, id, got, s');
      RunsCons(s, CloseReply(id, body), rest, s');
      ms := [CloseReply(id, body)] + rest;
    }
  }

  // ---- submitting ----

  /** Whoever is selected may take the request. */
  lemma SelectedIsEligible(s: State, want: Wanted, c: Choice)
    requires Selects(s, want, Some(c))
    ensures exists scope :: Eligible(s, scope, want, c.position)
    ensures c.worker == s.order[c.position]
  {
    match want.routing
    case None =>
    case Some(routing) =>
      if exists k :: Preferred(s, want, routing, k) {
        if AnyEligible(s, Routed(routing), want) {
          var k :| FirstPreferred(s, want, routing, k) && SelectsPreferred(s, want, routing, k, c);
        }
      }
  }

  lemma PlaceMoves(s: State, x: Submission, out: Outcome, s': State) returns (m: Move)
    requires Places(s, x, out, s')
    ensures Enabled(s, m) && Apply(s, m) == s'
    ensures m.Admit? || m.Enqueue? || m.Refuse?
    ensures s'.senders == s.senders && s'.replies == s.replies && s'.nextRequest == s.nextRequest + 1
    ensures !out.Rejected? ==> s.nextRequest in s'.active
  {
    var r := RequestOf(s, x);
    var c :| Selects(s, x.want, c) && PlacesAs(s, r, c, out, s');
    match c
    case Some(choice) =>
      SelectedIsEligible(s, x.want, choice);
      m := Admit(r, choice.worker, choice.key, choice.position);
    case None =>
      m := if out.Waiting? then Enqueue(r) else Refuse(r.provider);
  }

  lemma SubmitParts(s: State, x: Submission, out: Outcome, s': State) returns (mid: State)
    requires Submits(s, x, out, s')
    ensures Places(s, x, out, mid)
    ensures s' == if x.sender.Some? && !out.Rejected? then Opened(mid, s.nextRequest, x.sender.value) else mid
  {
    mid :| Places(s, x, out, mid)
      && s' == if x.sender.Some? && !out.Rejected? then Opened(mid, s.nextRequest, x.sender.value) else mid;
  }

  lemma PlaceRuns(s: State, x: Submission, out: Outcome, mid: State) returns (ms: seq<Move>)
    requires Places(s, x, out, mid)
    ensures Runs(s, ms, mid) && AllBelong(Submit(x), ms)
    ensures mid.senders == s.senders && mid.replies == s.replies && mid.nextRequest == s.nextRequest + 1
    ensures !out.Rejected? ==> s.nextRequest in mid.active
  {
    var m := PlaceMoves(s, x, out, mid);
    RunsOne(s, m);
    ms := [m];
  }

  lemma OpenRuns(s: State, id: RequestId, sender: Sender)
    requires id in s.active && id < s.nextRequest && id !in s.replies && id !in s.senders
    ensures Runs(s, [OpenReply(id, sender)], Opened(s, id, sender))
  {
    RunsOne(s, OpenReply(id, sender));
  }

  lemma SubmitRuns(s: State, x: Submission, out: Outcome, s': State) returns (ms: seq<Move>)
    requires Submits(s, x, out, s') && Channels(s)
    ensures Runs(s, ms, s')
    ensures AllBelong(Submit(x), ms)
  {
    var mid := SubmitParts(s, x, out, s');
    ms := PlaceRuns(s, x, out, mid);
    if x.sender.Some? && !out.Rejected? {
      var open := OpenReply(s.nextRequest, x.sender.value);
      OpenRuns(mid, s.nextRequest, x.sender.value);
      RunsConcat(s, ms, mid, [open], s');
      ms := ms + [open];
    }
  }

  // ---- failing many replies ----

  lemma FailNone(s: State)
    ensures FailReplies(s, map[]) == s
  {
    assert s.senders - {} == s.senders;
    assert FailedLogs(s.senders, s.replies, map[]) == s.replies;
  }

  lemma FailedLogsOne(senders: map<RequestId, Sender>, replies: map<RequestId, seq<ReplyEvent>>,
                      id: RequestId, why: FailureReason)
    requires id in senders
    ensures FailedLogs(senders, replies, map[id := why])
         == replies[id := (if id in replies then replies[id] else []) + [Failure(why)]]
  {
    var t := FailedLogs(senders, replies, map[id := why]);
    assert t.Keys == replies.Keys + {id};
  }

  lemma FailOne(s: State, id: RequestId, why: FailureReason)
    ensures FailReply(s, id, why) == FailReplies(s, map[id := why])
  {
    assert map[id := why].Keys == {id};
    if id in s.senders {
      FailedLogsOne(s.senders, s.replies, id, why);
    } else {
      assert s.senders - {id} == s.senders;
      assert FailedLogs(s.senders, s.replies, map[id := why]) == s.replies;
    }
  }

  lemma FailedLogsBoth(senders: map<RequestId, Sender>, replies: map<RequestId, seq<ReplyEvent>>,
                       a: map<RequestId, FailureReason>, b: map<RequestId, FailureReason>)
    requires a.Keys !! b.Keys
    ensures FailedLogs(senders - a.Keys, FailedLogs(senders, replies, a), b) == FailedLogs(senders, replies, a + b)
  {
    var t, u := FailedLogs(senders - a.Keys, FailedLogs(senders, replies, a), b), FailedLogs(senders, replies, a + b);
    assert t.Keys == u.Keys;
    forall id | id in t.Keys ensures t[id] == u[id] {}
  }

  lemma FailBoth(s: State, a: map<RequestId, FailureReason>, b: map<RequestId, FailureReason>)
    requires a.Keys !! b.Keys
    ensures FailReplies(FailReplies(s, a), b) == FailReplies(s, a + b)
  {
    FailedLogsBoth(s.senders, s.replies, a, b);
    assert s.senders - a.Keys - b.Keys == s.senders - (a + b).Keys;
  }

  lemma AddedFirst(id: RequestId, why: FailureReason, rest: map<RequestId, FailureReason>,
                   all: map<RequestId, FailureReason>)
    requires id !in rest && all == rest[id := why]
    ensures map[id := why] + rest == all && map[id := why].Keys !! rest.Keys
  {}

  lemma FailFirst(s: State, id: RequestId, why: FailureReason, rest: map<RequestId, FailureReason>,
                  all: map<RequestId, FailureReason>)
    requires id !in rest && all == rest[id := why]
    ensures FailReplies(FailReply(s, id, why), rest) == FailReplies(s, all)
  {
    AddedFirst(id, why, rest, all);
    FailOne(s, id, why);
    FailBoth(s, map[id := why], rest);
  }

  lemma AllForOne(ids: set<RequestId>, id: RequestId, why: FailureReason)
    requires id in ids
    ensures AllFor(ids, why) == AllFor(ids - {id}, why)[id := why]
  {}

  /** Failing one reply first, then the rest, fails them all, whatever replaces the
      index, the queues and the workers in between. */
  lemma FailPeel(s: State, id: RequestId, why: FailureReason,
                 rest: map<RequestId, FailureReason>, all: map<RequestId, FailureReason>,
                 active: map<RequestId, Active>, queues: map<string, seq<Request>>, workers: map<WorkerId, Worker>)
    requires id !in rest && all == rest[id := why]
    ensures FailReplies(FailReply(s, id, why).(active := active, queues := queues, workers := workers), rest)
         == FailReplies(s.(active := active, queues := queues, workers := workers), all)
  {
    var x := s.(active := active, queues := queues, workers := workers);
    assert FailReply(s, id, why).(active := active, queues := queues, workers := workers) == FailReply(x, id, why);
    FailFirst(x, id, why, rest, all);
  }
}
