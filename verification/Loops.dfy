/** How far the core's loops have got: what one more turn adds to the closed forms. The
    loops of the core keep an invariant that compares the state so far with the closed form
    over the part already visited; each lemma here adds one visited worker, queue or request
    to that part. There is one group of lemmas for each kind of loop, together with the few
    facts that the methods around the loops need. */
module Loops {
  import opened Seqs
  import opened RelayState
  import opened Moves
  import opened Index
  import opened Replies
  import opened Selection
  import opened Spec
  import opened Traces
  import opened BulkTraces

  lemma FilterNext<T>(s: seq<T>, i: nat, f: T -> bool)
    requires i < |s|
    ensures Filter(s[..i + 1], f) == if f(s[i]) then Filter(s[..i], f) + [s[i]] else Filter(s[..i], f)
  {
    assert s[..i + 1][..i] == s[..i];
  }

  lemma WholePrefix<T>(s: seq<T>)
    ensures s[..|s|] == s
  {}

  lemma ElementsNext<T>(s: seq<T>, i: nat)
    requires i < |s|
    ensures Elements(s[..i + 1]) == Elements(s[..i]) + {s[i]}
  {
    assert s[..i + 1] == s[..i] + [s[i]];
  }

  // ---- dispatching ----

  function Init<T>(s: seq<T>): seq<T>
    requires s != []
  {
    s[..|s| - 1]
  }

  function Last<T>(s: seq<T>): T
    requires s != []
  {
    s[|s| - 1]
  }

  lemma InitThenLast<T>(a: seq<T>, b: seq<T>)
    requires a != []
    ensures Init(a) + ([Last(a)] + b) == a + b
  {}

  /** w has taken the requests `got`, in this order. */
  ghost predicate Pulls(s: State, w: WorkerId, got: seq<RequestId>, t: State)
    decreases |got|
  {
    if got == [] then t == s
    else exists mid :: Pulls(s, w, Init(got), mid) && PullsOne(mid, w, Last(got), t)
  }

  lemma PullsNext(s: State, w: WorkerId, got: seq<RequestId>, mid: State, id: RequestId, t: State)
    requires Pulls(s, w, got, mid) && PullsOne(mid, w, id, t)
    ensures Pulls(s, w, got + [id], t)
  {
    assert Init(got + [id]) == got;
  }

  lemma PullsLast(s: State, w: WorkerId, got: seq<RequestId>, t: State) returns (mid: State)
    requires got != [] && Pulls(s, w, got, t)
    ensures Pulls(s, w, Init(got), mid) && PullsOne(mid, w, Last(got), t)
  {
    mid :| Pulls(s, w, Init(got), mid) && PullsOne(mid, w, Last(got), t);
  }

  lemma DrainsCons(s: State, w: WorkerId, id: RequestId, mid: State, b: seq<RequestId>, t: State)
    requires PullsOne(s, w, id, mid) && Drains(mid, w, b, t)
    ensures Drains(s, w, [id] + b, t)
  {
    assert ([id] + b)[1..] == b;
  }

  lemma PullsNone(s: State, w: WorkerId, t: State)
    requires Pulls(s, w, [], t)
    ensures t == s
  {}

  /** Pulls one after another, then a drain, are a drain of them all. */
  lemma {:induction false} PullsThenDrains(s: State, w: WorkerId, a: seq<RequestId>, mid: State, b: seq<RequestId>,
                                           t: State)
    requires Pulls(s, w, a, mid) && Drains(mid, w, b, t)
    ensures Drains(s, w, a + b, t)
    decreases |a|
  {
    if a == [] {
      PullsNone(s, w, mid);
      assert a + b == b;
    } else {
      var u := PullsLast(s, w, a, mid);
      DrainsCons(u, w, Last(a), mid, b, t);
      PullsThenDrains(s, w, Init(a), u, [Last(a)] + b, t);
      InitThenLast(a, b);
    }
  }

  lemma PullGrows(s: State, w: WorkerId, id: RequestId, t: State)
    requires PullsOne(s, w, id, t)
    ensures w in s.workers && w in t.workers && t.workers[w].maxConcurrent == s.workers[w].maxConcurrent
    ensures |t.workers[w].inFlight| == |s.workers[w].inFlight| + 1 <= s.workers[w].maxConcurrent
  {}

  // ---- selecting ----

  lemma SelectsInSame(s: State, t: State, scope: Scope, want: Wanted, key: SelectionKey, c: Option<Choice>)
    requires t.order == s.order && t.workers == s.workers && t.cursors == s.cursors
    ensures AnyEligible(s, scope, want) <==> AnyEligible(t, scope, want)
    ensures SelectsIn(s, scope, want, key, c) ==> SelectsIn(t, scope, want, key, c)
  {
    assert forall pos :: Eligible(s, scope, want, pos) <==> Eligible(t, scope, want, pos);
    assert forall pos :: Least(s, scope, want, pos) <==> Least(t, scope, want, pos);
  }

  lemma SelectsUnroutedSame(s: State, t: State, want: Wanted, c: Option<Choice>)
    requires t.order == s.order && t.workers == s.workers && t.cursors == s.cursors
    requires SelectsUnrouted(s, want, c)
    ensures SelectsUnrouted(t, want, c)
  {
    SelectsInSame(s, t, Named(want.provider), want, SelectionKey(want.provider, want.model), c);
    SelectsInSame(s, t, Anyone, want, SelectionKey(ANY_PROVIDER, want.model), c);
  }

  lemma PreferredSame(s: State, t: State, want: Wanted, routing: Routing, k: int)
    requires t.order == s.order && t.workers == s.workers && t.cursors == s.cursors
    ensures Preferred(s, want, routing, k) <==> Preferred(t, want, routing, k)
  {
    if routing.order.Some? && 0 <= k < |routing.order.value| {
      assert forall pos :: Eligible(s, Routed(routing), want, pos) <==> Eligible(t, Routed(routing), want, pos);
      assert forall pos :: Eligible(s, Routed(routing), want, pos) ==> ProviderAt(s, pos) == ProviderAt(t, pos);
    }
  }

  lemma SelectsPreferredSame(s: State, t: State, want: Wanted, routing: Routing, k: int, c: Choice)
    requires t.order == s.order && t.workers == s.workers && t.cursors == s.cursors
    requires routing.order.Some? && 0 <= k < |routing.order.value| && SelectsPreferred(s, want, routing, k, c)
    ensures SelectsPreferred(t, want, routing, k, c)
  {
    assert forall pos :: Eligible(s, Routed(routing), want, pos) <==> Eligible(t, Routed(routing), want, pos);
  }

  /** Selection reads only the listing, the workers and the cursors. */
  lemma SelectsSame(s: State, t: State, want: Wanted, c: Option<Choice>)
    requires t.order == s.order && t.workers == s.workers && t.cursors == s.cursors
    requires Selects(s, want, c)
    ensures Selects(t, want, c)
  {
    if want.routing == None {
      SelectsUnroutedSame(s, t, want, c);
    } else {
      var routing := want.routing.value;
      SelectsInSame(s, t, Routed(routing), want, SelectionKey(want.provider, want.model), c);
      forall k ensures Preferred(s, want, routing, k) <==> Preferred(t, want, routing, k) {
        PreferredSame(s, t, want, routing, k);
      }
      if !AnyEligible(s, Routed(routing), want) {
        if routing.allowFallbacks.GetOr(true) {
          SelectsUnroutedSame(s, t, want, c);
        }
      } else if exists k :: Preferred(s, want, routing, k) {
        var k :| FirstPreferred(s, want, routing, k) && SelectsPreferred(s, want, routing, k, c.value);
        SelectsPreferredSame(s, t, want, routing, k, c.value);
        assert FirstPreferred(t, want, routing, k);
      }
    }
  }

  // ---- failing replies one by one ----

  lemma AllForNext(ids: set<RequestId>, id: RequestId, why: FailureReason)
    requires id !in ids
    ensures AllFor(ids, why) + map[id := why] == AllFor(ids + {id}, why)
    ensures AllFor(ids, why).Keys !! map[id := why].Keys
  {}

  /** One more failed reply, of a request that may have been failed already. */
  lemma FailNext(s: State, ids: set<RequestId>, id: RequestId, why: FailureReason)
    ensures FailReply(FailReplies(s, AllFor(ids, why)), id, why) == FailReplies(s, AllFor(ids + {id}, why))
  {
    if id in ids {
      assert ids + {id} == ids;
    } else {
      FailOne(FailReplies(s, AllFor(ids, why)), id, why);
      AllForNext(ids, id, why);
      FailBoth(s, AllFor(ids, why), map[id := why]);
    }
  }

  // ---- submitting ----

  /** Taken down as waiting before it is placed. */
  function Noted(s: State, r: Request): State {
    s.(nextRequest := s.nextRequest + 1, active := s.active[r.id := Queued(r)])
  }

  lemma NotedThenAssigned(s: State, r: Request, c: Choice)
    requires c.worker in s.workers
    ensures Assign(MovedCursor(Noted(s, r), Some(c)), c.worker, r) == Admitted(s, r, c.worker, c.key, c.position)
  {
    assert s.active[r.id := Queued(r)][r.id := InFlight(r, c.worker, None)]
      == s.active[r.id := InFlight(r, c.worker, None)];
  }

  lemma NotedThenPlaced(s: State, r: Request)
    requires r.id !in s.active
    ensures SomeoneSupports(Noted(s, r), r.model) == SomeoneSupports(s, r.model)
    ensures Noted(s, r).(queues := s.queues[r.provider := s.Queue(r.provider) + [r]]) == Enqueued(s, r)
    ensures Noted(s, r).(queues := s.queues[r.provider := s.Queue(r.provider)], active := Noted(s, r).active - {r.id})
         == Refused(s, r.provider)
  {
    assert Noted(s, r).active - {r.id} == s.active;
  }

  lemma SubmitKeeps(s: State, x: Submission, out: Outcome, mid: State, t: State)
    requires Sound(s) && Places(s, x, out, mid)
    requires t == if x.sender.Some? && !out.Rejected? then Opened(mid, s.nextRequest, x.sender.value) else mid
    ensures Submits(s, x, out, t) && Sound(t)
  {
    PlacedIsSubmitted(s, x, out, mid, t);
    SubmittedKeeps(s, x, out, t);
  }

  lemma RegisterKeeps(s: State, worker: Worker)
    requires Sound(s) && worker.inFlight == [] && 1 <= worker.maxConcurrent <= U32_MAX
    ensures Sound(Added(s, worker))
  {
    AddKeeps(s, worker);
  }

  lemma PlacedIdIs(s: State, x: Submission, out: Outcome, t: State)
    requires Places(s, x, out, t)
    ensures out.id == s.nextRequest
  {}

  lemma PlacingKeeps(s: State, x: Submission, out: Outcome, t: State)
    requires Sound(s) && Places(s, x, out, t)
    ensures Sound(t)
  {
    var ms := PlaceRuns(s, x, out, t);
    RunKeeps(s, ms, t);
    RunKeepsChannels(s, ms, t);
  }

  lemma PlacedIsSubmitted(s: State, x: Submission, out: Outcome, mid: State, t: State)
    requires Places(s, x, out, mid)
    requires t == if x.sender.Some? && !out.Rejected? then Opened(mid, s.nextRequest, x.sender.value) else mid
    ensures Submits(s, x, out, t)
  {}

  lemma SubmittedKeeps(s: State, x: Submission, out: Outcome, t: State)
    requires Sound(s) && Submits(s, x, out, t)
    ensures Sound(t)
  {
    var ms := SubmitRuns(s, x, out, t);
    RunKeeps(s, ms, t);
    RunKeepsChannels(s, ms, t);
  }

  // ---- finishing ----

  lemma RemoveThenReason(s: State, w: WorkerId, close: CloseReason)
    ensures RemoveWorker(s.(closeReasons := s.closeReasons[w := close]), w, None) == RemoveWorker(s, w, Some(close))
  {
    assert CloseAll(s.closeReasons, {w}, close) == s.closeReasons[w := close];
  }

  /** The reply logs play no part in dispatching. */
  lemma PullsOneWithLogs(s: State, w: WorkerId, id: RequestId, t: State, logs: map<RequestId, seq<ReplyEvent>>)
    requires PullsOne(s, w, id, t)
    ensures PullsOne(s.(replies := logs), w, id, t.(replies := logs)) && t.replies == s.replies
  {
    var u := s.(replies := logs);
    var p, i: nat :| BestPick(s, w, p, i) && s.queues[p][i].id == id && t == Pulled(s, w, p, i);
    assert forall q, j: nat :: FirstServed(u, w, q, j) <==> FirstServed(s, w, q, j);
    assert BestPick(u, w, p, i);
    assert t.(replies := logs) == Pulled(u, w, p, i);
  }

  lemma DispatchesWithLogs(s: State, w: WorkerId, got: Option<RequestId>, t: State,
                           logs: map<RequestId, seq<ReplyEvent>>)
    requires Dispatches(s, w, got, t)
    ensures Dispatches(s.(replies := logs), w, got, t.(replies := logs)) && t.replies == s.replies
  {
    if got.Some? {
      PullsOneWithLogs(s, w, got.value, t, logs);
    }
  }

  lemma RemoveWithLogs(s: State, w: WorkerId, close: Option<CloseReason>, logs: map<RequestId, seq<ReplyEvent>>)
    ensures RemoveWorker(s.(replies := logs), w, close) == RemoveWorker(s, w, close).(replies := logs)
    ensures RemoveWorker(s, w, close).replies == s.replies
  {}

  lemma FinishedWithLogs(s: State, w: WorkerId, id: RequestId, logs: map<RequestId, seq<ReplyEvent>>)
    requires w in s.workers
    ensures Moves.Finished(s.(replies := logs), w, id) == Moves.Finished(s, w, id).(replies := logs)
    ensures Moves.Finished(s, w, id).replies == s.replies
  {}

  lemma LeavingWithLogs(s: State, w: WorkerId, id: RequestId, logs: map<RequestId, seq<ReplyEvent>>)
    requires w in s.workers && id in s.workers[w].inFlight
    requires Moves.Finished(s, w, id).workers[w].Draining() && Moves.Finished(s, w, id).workers[w].inFlight == []
    ensures var t := RemoveWorker(Moves.Finished(s, w, id), w, Some(Completed));
      Finishes(s.(replies := logs), w, id, None, t.(replies := logs)) && t.replies == s.replies
  {
    FinishedWithLogs(s, w, id, logs);
    RemoveWithLogs(Moves.Finished(s, w, id), w, Some(Completed), logs);
  }

  lemma StayingWithLogs(s: State, w: WorkerId, id: RequestId, got: Option<RequestId>, t: State,
                        logs: map<RequestId, seq<ReplyEvent>>)
    requires w in s.workers && id in s.workers[w].inFlight
    requires !(Moves.Finished(s, w, id).workers[w].Draining() && Moves.Finished(s, w, id).workers[w].inFlight == [])
    requires Dispatches(Moves.Finished(s, w, id), w, got, t)
    ensures Finishes(s.(replies := logs), w, id, got, t.(replies := logs)) && t.replies == s.replies
  {
    FinishedWithLogs(s, w, id, logs);
    DispatchesWithLogs(Moves.Finished(s, w, id), w, got, t, logs);
  }

  lemma FinishesWithLogs(s: State, w: WorkerId, id: RequestId, got: Option<RequestId>, t: State,
                         logs: map<RequestId, seq<ReplyEvent>>)
    requires Finishes(s, w, id, got, t)
    ensures Finishes(s.(replies := logs), w, id, got, t.(replies := logs)) && t.replies == s.replies
  {
    if w in s.workers && id in s.workers[w].inFlight {
      var u := Moves.Finished(s, w, id);
      if u.workers[w].Draining() && u.workers[w].inFlight == [] {
        LeavingWithLogs(s, w, id, logs);
      } else {
        StayingWithLogs(s, w, id, got, t, logs);
      }
    }
  }

  /** Taking the sender, finishing, then sending, as against sending first. */
  lemma CompletesAre(s: State, w: WorkerId, id: RequestId, body: Bytes, ok: bool, got: Option<RequestId>,
                     taken: State, done: State, t: State)
    requires id in s.senders && taken == s.(senders := s.senders - {id})
    requires Finishes(taken, w, id, got, done)
    requires t == Send(done, id, Complete(body))
    requires ok == (got.Some? || id !in done.active)
    ensures Completes(s, w, id, body, ok, t)
  {
    var logs := Closed(s, id, body).replies;
    FinishesWithLogs(taken, w, id, got, done, logs);
    assert Closed(s, id, body) == taken.(replies := logs);
    assert t == done.(replies := logs);
  }

  /** Looking at one more listed worker. */
  lemma UndrainedNext(s: State, i: nat)
    requires Listed(s) && i < |s.order|
    ensures var asked := Filter(s.order[..i], Undrained(s));
      Filter(s.order[..i + 1], Undrained(s))
        == (if s.workers[s.order[i]].Draining() then asked else asked + [s.order[i]])
      && s.order[i] !in asked && s.order[i] in s.workers
  {
    FilterNext(s.order, i, Undrained(s));
    FilterMembers(s.order[..i], Undrained(s));
    assert s.order[i] in s.order;
  }

  lemma CompleteKeeps(s: State, w: WorkerId, id: RequestId, body: Bytes, ok: bool, t: State)
    requires Sound(s) && Completes(s, w, id, body, ok, t)
    ensures Sound(t)
  {
    StepKeeps(s, CompleteResponse(w, id, body), t);
  }

  lemma FinishKeeps(s: State, w: WorkerId, id: RequestId, got: Option<RequestId>, t: State)
    requires Sound(s) && Finishes(s, w, id, got, t)
    ensures Sound(t)
  {
    StepKeeps(s, Op.FinishRequest(w, id), t);
  }

  lemma ChunkKeeps(s: State, w: WorkerId, id: RequestId, data: Bytes)
    requires Sound(s)
    ensures Sound(Chunked(s, w, id, data))
  {
    StepKeeps(s, StreamChunk(w, id, data), Chunked(s, w, id, data));
  }

  lemma CancelsTakenKeeps(s: State, w: WorkerId)
    requires Sound(s)
    ensures Sound(CancelsTaken(s, w))
  {
    StepKeeps(s, TakeCancelSignals(w), CancelsTaken(s, w));
  }

  lemma DeleteKeeps(s: State, p: string)
    requires Sound(s)
    ensures Sound(ProviderDeletedFrom(s, p))
  {
    StepKeeps(s, Op.DeleteProvider(p), ProviderDeletedFrom(s, p));
  }

  lemma ShutdownKeeps(s: State, notice: Option<string>, timeout: nat, now: nat)
    requires Sound(s)
    ensures Sound(ShutdownBegun(s, notice, timeout, now))
  {
    StepKeeps(s, BeginShutdown(notice, timeout, now), ShutdownBegun(s, notice, timeout, now));
  }

  lemma ShutdownDone(s: State, t: State, notice: Option<string>, timeout: nat, now: nat)
    requires Sound(s)
    requires t == AllDraining(s, Filter(s.order[..|s.order|], Undrained(s)), notice, timeout, now + timeout)
    ensures Filter(s.order[..|s.order|], Undrained(s)) == NotDraining(s)
    ensures t == ShutdownBegun(s, notice, timeout, now) && Sound(t)
  {
    WholePrefix(s.order);
    DrainEverybody(s, notice, timeout, now);
    ShutdownKeeps(s, notice, timeout, now);
  }

  lemma SenderTakenSound(s: State, id: RequestId)
    requires Sound(s)
    ensures Sound(s.(senders := s.senders - {id}))
  {
    HousekeepingKeeps(s, s.(senders := s.senders - {id}));
  }

  // ---- shutting down ----

  /** Asking one more of the listed workers to drain. */
  lemma DrainNext(s: State, ws: seq<WorkerId>, w: WorkerId, notice: Option<string>, timeout: nat, deadline: nat)
    requires w in s.workers && w !in ws
    ensures Moves.Draining(AllDraining(s, ws, notice, timeout, deadline), ShutdownSignal(w, notice, timeout), deadline)
         == AllDraining(s, ws + [w], notice, timeout, deadline)
    ensures ShutdownSignals(ws + [w], notice, timeout)
         == ShutdownSignals(ws, notice, timeout) + [ShutdownSignal(w, notice, timeout)]
  {
    var t := AllDraining(s, ws, notice, timeout, deadline);
    var signal := ShutdownSignal(w, notice, timeout);
    assert ShutdownSignals(ws, notice, timeout) + [signal] == ShutdownSignals(ws + [w], notice, timeout);
    assert s.shutdownSignals + ShutdownSignals(ws, notice, timeout) + [signal]
        == s.shutdownSignals + ShutdownSignals(ws + [w], notice, timeout);
    assert t.workers[w := t.workers[w].(deadline := Some(deadline))] == WithDeadlines(s.workers, ws + [w], deadline);
  }

  /** One more worker to ask to drain. */
  lemma DrainTurn(s: State, asked: seq<WorkerId>, w: WorkerId, notice: Option<string>, timeout: nat, deadline: nat)
    requires w in s.workers && w !in asked
    ensures var t := AllDraining(s, asked, notice, timeout, deadline);
      w in t.workers && t.workers[w] == s.workers[w]
      && ShutdownSignals(asked + [w], notice, timeout)
         == ShutdownSignals(asked, notice, timeout) + [ShutdownSignal(w, notice, timeout)]
      && Moves.Draining(t, ShutdownSignal(w, notice, timeout), deadline)
         == AllDraining(s, asked + [w], notice, timeout, deadline)
  {
    UnaskedIsAsItWas(s, asked, w, notice, timeout, deadline);
    DrainNext(s, asked, w, notice, timeout, deadline);
  }

  lemma UnaskedIsAsItWas(s: State, asked: seq<WorkerId>, w: WorkerId, notice: Option<string>, timeout: nat,
                         deadline: nat)
    requires w in s.workers && w !in asked
    ensures var t := AllDraining(s, asked, notice, timeout, deadline);
      w in t.workers && t.workers[w] == s.workers[w]
  {}

  lemma DrainNobody(s: State, notice: Option<string>, timeout: nat, deadline: nat)
    ensures AllDraining(s, [], notice, timeout, deadline) == s
  {
    assert WithDeadlines(s.workers, [], deadline) == s.workers;
    assert ShutdownSignals([], notice, timeout) == [];
    assert s.shutdownSignals + [] == s.shutdownSignals;
  }

  // ---- evicting ----

  /** w's first i running requests have failed. */
  function Failing(s: State, ids: set<RequestId>, why: FailureReason): State {
    FailReplies(s.(active := s.active - ids), AllFor(ids, why))
  }

  lemma FailingNext(s: State, ids: set<RequestId>, id: RequestId, why: FailureReason)
    ensures var t := Failing(s, ids, why);
      FailReply(t.(active := t.active - {id}), id, why) == Failing(s, ids + {id}, why)
  {
    FailNext(s.(active := s.active - ids - {id}), ids, id, why);
    MinusBoth(s.active, ids, {id}, ids + {id});
  }

  lemma FailingNone(s: State, ids: seq<RequestId>, why: FailureReason)
    ensures Failing(s, Elements(ids[..0]), why) == s
  {
    assert Elements(ids[..0]) == {};
    FailingNobody(s, why);
  }

  lemma FailingTurn(s: State, ids: seq<RequestId>, i: nat, why: FailureReason)
    requires i < |ids|
    ensures var t := Failing(s, Elements(ids[..i]), why);
      FailReply(t.(active := t.active - {ids[i]}), ids[i], why) == Failing(s, Elements(ids[..i + 1]), why)
  {
    FailingNext(s, Elements(ids[..i]), ids[i], why);
    ElementsNext(ids, i);
  }

  lemma FailingNobody(s: State, why: FailureReason)
    ensures Failing(s, {}, why) == s
  {
    MinusNone(s.active);
    assert AllFor({}, why) == map[];
    FailNone(s);
  }

  lemma EvictedInv(s: State, ws: set<WorkerId>, why: FailureReason, close: CloseReason)
    requires Inv(s) && ws <= s.workers.Keys
    ensures Inv(Evicted(s, ws, why, close))
  {
    var ms := EvictRuns(s, ws, why, close);
    RunKeeps(s, ms, Evicted(s, ws, why, close));
  }

  lemma EvictNext(s: State, ws: set<WorkerId>, w: WorkerId, why: FailureReason, close: CloseReason)
    requires Inv(s) && ws <= s.workers.Keys && w in s.workers && w !in ws
    ensures Evicted(Evicted(s, ws, why, close), {w}, why, close) == Evicted(s, ws + {w}, why, close)
    ensures w in Evicted(s, ws, why, close).workers && Inv(Evicted(s, ws, why, close))
  {
    EvictSplit(s, ws, {w}, ws + {w}, why, close);
    EvictedInv(s, ws, why, close);
  }

  lemma FailNobody(s: State, why: FailureReason)
    ensures FailReplies(s, AllFor({}, why)) == s
  {
    assert AllFor({}, why) == map[];
    FailNone(s);
  }

  lemma EvictNone(s: State, ws: seq<WorkerId>, why: FailureReason, close: CloseReason)
    ensures Evicted(s, Elements(ws[..0]), why, close) == s
  {
    assert Elements(ws[..0]) == {};
    EvictNobody(s, why, close);
  }

  /** One more turn of the loop over the workers to evict. */
  lemma EvictTurn(s: State, ws: seq<WorkerId>, i: nat, why: FailureReason, close: CloseReason)
    requires Inv(s) && NoDup(ws) && (forall w :: w in ws ==> w in s.workers) && i < |ws|
    ensures var t := Evicted(s, Elements(ws[..i]), why, close);
      ws[i] in t.workers && Evicted(t, {ws[i]}, why, close) == Evicted(s, Elements(ws[..i + 1]), why, close)
    ensures Inv(Evicted(s, Elements(ws[..i + 1]), why, close))
  {
    ElementsNext(ws, i);
    assert ws[i] !in ws[..i];
    EvictNext(s, Elements(ws[..i]), ws[i], why, close);
    EvictedInv(s, Elements(ws[..i + 1]), why, close);
  }

  /** The listed workers with a property are all the workers with it. */
  lemma ListedAre(s: State, f: WorkerId -> bool, ws: set<WorkerId>)
    requires Listed(s) && ws <= s.workers.Keys && forall w :: f(w) <==> w in ws
    ensures NoDup(Filter(s.order, f)) && Elements(Filter(s.order, f)) == ws
  {
    FilterMembers(s.order, f);
  }

  lemma QueueClearedIs(s: State, p: string)
    ensures Failing(s.(queues := s.queues - {p}), IdsOf(s.Queue(p)), ProviderDeleted) == QueueCleared(s, p)
  {}

  lemma ClearedInv(s: State, p: string)
    requires Inv(s)
    ensures Inv(QueueCleared(s, p)) && WorkersOf(QueueCleared(s, p), p) == WorkersOf(s, p)
  {
    var ms := ClearRuns(s, p);
    RunKeeps(s, ms, QueueCleared(s, p));
  }

  /** The queues not in `keys` have been gone through. */
  function Collected(s: State, keys: set<string>, now: nat): State {
    var done := s.queues.Keys - keys;
    s.(active := s.active - ExpiredFrom(s, done, now), queues := KeptIn(s, done, now))
  }

  lemma CollectNone(s: State, now: nat)
    ensures ExpiredFrom(s, s.queues.Keys - s.queues.Keys, now) == {}
    ensures Collected(s, s.queues.Keys, now) == s
  {
    ExpiredNowhere(s, now);
    assert s.queues.Keys - s.queues.Keys == {};
    MinusNone(s.active);
  }

  lemma CollectDone(s: State, now: nat)
    ensures ExpiredFrom(s, s.queues.Keys - {}, now) == ExpiredIds(s, now)
    ensures Collected(s, {}, now)
         == s.(active := s.active - ExpiredIds(s, now), queues := KeptQueues(s.queues, s.policies, now))
  {
    assert s.queues.Keys - {} == s.queues.Keys;
    ExpiredEverywhere(s, now);
  }

  /** One more turn of the loop over the queues. */
  lemma CollectTurn(s: State, keys: set<string>, p: string, now: nat)
    requires p in keys && keys <= s.queues.Keys
    ensures var t, policy := Collected(s, keys, now), s.PolicyOf(p);
      p in t.queues && t.queues[p] == s.queues[p]
      && ExpiredFrom(s, s.queues.Keys - (keys - {p}), now)
         == ExpiredFrom(s, s.queues.Keys - keys, now) + ExpiredOf(s.queues[p], policy, now)
      && Collected(s, keys - {p}, now) == t.(active := t.active - ExpiredOf(s.queues[p], policy, now),
                                            queues := t.queues[p := Filter(s.queues[p], Unexpired(policy, now))])
  {
    var done := s.queues.Keys - keys;
    assert s.queues.Keys - (keys - {p}) == done + {p};
    ExpiredInNext(s, done, p, now);
    KeptInNext(s, done, p, now);
    MinusBoth(s.active, ExpiredFrom(s, done, now), ExpiredOf(s.queues[p], s.PolicyOf(p), now),
              ExpiredFrom(s, done + {p}, now));
  }

  /** The turn of a queue without a timeout. */
  lemma CollectSkip(s: State, keys: set<string>, p: string, now: nat)
    requires p in keys && keys <= s.queues.Keys && s.PolicyOf(p).timeout == None
    ensures ExpiredFrom(s, s.queues.Keys - (keys - {p}), now) == ExpiredFrom(s, s.queues.Keys - keys, now)
    ensures Collected(s, keys - {p}, now) == Collected(s, keys, now)
  {
    CollectTurn(s, keys, p, now);
    UntimedKeepsAll(s.queues[p], s.PolicyOf(p), now);
    var t := Collected(s, keys, now);
    MinusNone(t.active);
    assert t.queues[p := s.queues[p]] == t.queues;
  }

  lemma ElementsJoin<T>(a: seq<T>, b: seq<T>)
    ensures Elements(a + b) == Elements(a) + Elements(b)
  {}

  /** Everything w was running has failed: only its removal is left. */
  lemma FailedThenRemoved(s: State, w: WorkerId, why: FailureReason, close: CloseReason)
    requires Inv(s) && w in s.workers
    ensures Moves.RemoveWorker(Failing(s, Elements(s.workers[w].inFlight), why), w, Some(close))
      == Evicted(s, {w}, why, close)
  {
    RunningOnOne(s, w);
    assert Elements(s.workers[w].inFlight) == RunningOn(s, {w});
  }

  function OverdueAt(s: State, now: nat): WorkerId -> bool { (w: WorkerId) => w in Overdue(s, now) }

  function BelongsTo(s: State, p: string): WorkerId -> bool { (w: WorkerId) => w in WorkersOf(s, p) }

  // ---- clearing a queue ----

  lemma IdsNext(q: seq<Request>, i: nat)
    requires i < |q|
    ensures IdsOf(q[..i + 1]) == IdsOf(q[..i]) + {q[i].id}
  {
    assert q[..i + 1] == q[..i] + [q[i]];
  }

  // ---- expiring a queue ----

  function ExpiredOf(q: seq<Request>, policy: Policy, now: nat): set<RequestId> {
    set r | r in q && Expired(policy, r, now) :: r.id
  }

  lemma ExpiredNext(q: seq<Request>, i: nat, policy: Policy, now: nat)
    requires i < |q|
    ensures ExpiredOf(q[..i + 1], policy, now)
         == ExpiredOf(q[..i], policy, now) + if Expired(policy, q[i], now) then {q[i].id} else {}
  {
    assert q[..i + 1] == q[..i] + [q[i]];
  }

  lemma ForgetNext(s: State, ids: seq<RequestId>, id: RequestId)
    ensures s.active - Elements(ids) - {id} == s.active - Elements(ids + [id])
    ensures Elements(ids + [id]) == Elements(ids) + {id}
  {
    MinusBoth(s.active, Elements(ids), {id}, Elements(ids) + {id});
  }

  lemma UntimedKeepsAll(q: seq<Request>, policy: Policy, now: nat)
    requires policy.timeout == None
    ensures Filter(q, Unexpired(policy, now)) == q && ExpiredOf(q, policy, now) == {}
  {
    FilterAll(q, Unexpired(policy, now));
  }

  /** The queues in `done` have been gone through. */
  function ExpiredFrom(s: State, done: set<string>, now: nat): set<RequestId> {
    set p, r | p in s.queues && p in done && r in s.queues[p] && Expired(s.PolicyOf(p), r, now) :: r.id
  }

  function KeptIn(s: State, done: set<string>, now: nat): map<string, seq<Request>> {
    map p | p in s.queues ::
      if p in done then Filter(s.queues[p], Unexpired(s.PolicyOf(p), now)) else s.queues[p]
  }

  lemma ExpiredInNext(s: State, done: set<string>, p: string, now: nat)
    requires p in s.queues
    ensures ExpiredFrom(s, done + {p}, now) == ExpiredFrom(s, done, now) + ExpiredOf(s.queues[p], s.PolicyOf(p), now)
  {
    forall id | id in ExpiredFrom(s, done + {p}, now)
      ensures id in ExpiredFrom(s, done, now) + ExpiredOf(s.queues[p], s.PolicyOf(p), now)
    {
      var q, r :| q in s.queues && q in done + {p} && r in s.queues[q] && Expired(s.PolicyOf(q), r, now) && r.id == id;
    }
  }

  lemma KeptInNext(s: State, done: set<string>, p: string, now: nat)
    requires p in s.queues && p !in done
    ensures KeptIn(s, done + {p}, now) == KeptIn(s, done, now)[p := Filter(s.queues[p], Unexpired(s.PolicyOf(p), now))]
  {}

  lemma ExpiredEverywhere(s: State, now: nat)
    ensures ExpiredFrom(s, s.queues.Keys, now) == ExpiredIds(s, now)
    ensures KeptIn(s, s.queues.Keys, now) == KeptQueues(s.queues, s.policies, now)
  {}

  lemma ExpiredNowhere(s: State, now: nat)
    ensures ExpiredFrom(s, {}, now) == {} && KeptIn(s, {}, now) == s.queues
  {}

  // ---- losing a worker ----

  /** The bookkeeping of a lost worker's first requests, its record already gone. */
  function Losing(s: State, ids: seq<RequestId>): State {
    FailReplies(s.(active := LostIndex(s.active, ids)), LostReasons(s.active, ids))
  }

  lemma RecordsNext(a: map<RequestId, Active>, l: seq<RequestId>, i: nat)
    requires i < |l|
    ensures RequeuedRecords(a, l[..i + 1])
         == RequeuedRecords(a, l[..i]) + if Requeueable(a, l[i]) then [Bumped(a[l[i]].request)] else []
  {
    assert l[..i + 1][..i] == l[..i];
  }

  lemma RunningAreActive(s: State, w: WorkerId)
    requires Inv(s) && w in s.workers
    ensures NoDup(s.workers[w].inFlight)
    ensures forall id :: id in s.workers[w].inFlight ==>
      id in s.active && s.active[id].InFlight? && s.active[id].request.id == id
  {
    forall id | id in s.workers[w].inFlight
      ensures id in s.active && s.active[id].InFlight? && s.active[id].request.id == id
    {
      assert Running(s)(w, id);
    }
  }

  lemma LosingNobody(s: State)
    ensures Losing(s, []) == s
  {
    assert LostIndex(s.active, []) == s.active;
    assert LostReasons(s.active, []) == map[];
    FailNone(s);
  }

  lemma LostIndexNext(a: map<RequestId, Active>, l: seq<RequestId>, i: nat)
    requires i < |l| && NoDup(l)
    ensures LostIndex(a, l[..i + 1]) ==
      if Requeueable(a, l[i]) then LostIndex(a, l[..i])[l[i] := Queued(Bumped(a[l[i]].request))]
      else LostIndex(a, l[..i]) - {l[i]}
    ensures l[i] in a ==> l[i] in LostIndex(a, l[..i]) && LostIndex(a, l[..i])[l[i]] == a[l[i]]
    ensures l[i] !in a ==> l[i] !in LostIndex(a, l[..i])
  {
    assert l[..i + 1] == l[..i] + [l[i]];
    assert l[i] !in l[..i];
  }

  lemma LostReasonsNext(a: map<RequestId, Active>, l: seq<RequestId>, i: nat)
    requires i < |l| && NoDup(l)
    ensures l[i] !in LostReasons(a, l[..i])
    ensures LostReasons(a, l[..i + 1]) ==
      if l[i] in a && a[l[i]].InFlight? && !Requeueable(a, l[i])
      then LostReasons(a, l[..i])
           [l[i] := if a[l[i]].cancellation.Some? then RequestAlreadyCanceled else MaxRequeuesExceeded]
      else LostReasons(a, l[..i])
  {
    assert l[..i + 1] == l[..i] + [l[i]];
    assert l[i] !in l[..i];
  }

  lemma ReasonAdded(m: map<RequestId, FailureReason>, id: RequestId, why: FailureReason)
    requires id !in m
    ensures m + map[id := why] == m[id := why] && m.Keys !! map[id := why].Keys
  {}

  lemma LosingNone(s: State, ids: seq<RequestId>)
    ensures Losing(s, ids[..0]) == s && RequeuedRecords(s.active, ids[..0]) == []
  {
    assert ids[..0] == [];
    LosingNobody(s);
  }

  /** A running request, with the entry it had, released from a lost worker. */
  function LetGo(t: State, entry: Active, id: RequestId): State
    requires entry.InFlight?
  {
    if entry.cancellation == None && entry.request.requeues < MAX_REQUEUE_COUNT
    then t.(active := t.active[id := Queued(Bumped(entry.request))])
    else FailReply(t.(active := t.active - {id}), id,
                   if entry.cancellation.Some? then RequestAlreadyCanceled else MaxRequeuesExceeded)
  }

  /** One more turn of the loop over a lost worker's requests. */
  lemma LosingTurn(s: State, l: seq<RequestId>, i: nat)
    requires i < |l| && NoDup(l) && l[i] in s.active && s.active[l[i]].InFlight?
    requires s.active[l[i]].request.id == l[i]
    ensures var t, id := Losing(s, l[..i]), l[i];
      id in t.active && t.active[id] == s.active[id] && Losing(s, l[..i + 1]) == LetGo(t, s.active[id], id)
  {
    LosingLeaves(s, l, i);
    if Requeueable(s.active, l[i]) {
      LosingKeepsIs(s, l, i);
    } else {
      LosingFailsIs(s, l, i);
    }
  }

  lemma LosingLeaves(s: State, l: seq<RequestId>, i: nat)
    requires i < |l| && NoDup(l) && l[i] in s.active
    ensures l[i] in Losing(s, l[..i]).active && Losing(s, l[..i]).active[l[i]] == s.active[l[i]]
  {
    LostIndexNext(s.active, l, i);
  }

  lemma LosingKeepsIs(s: State, l: seq<RequestId>, i: nat)
    requires i < |l| && NoDup(l) && Requeueable(s.active, l[i])
    ensures Losing(s, l[..i + 1]) == LetGo(Losing(s, l[..i]), s.active[l[i]], l[i])
  {
    LosingKeeps(s, l, i);
  }

  lemma LosingFailsIs(s: State, l: seq<RequestId>, i: nat)
    requires i < |l| && NoDup(l) && l[i] in s.active && s.active[l[i]].InFlight? && !Requeueable(s.active, l[i])
    ensures Losing(s, l[..i + 1]) == LetGo(Losing(s, l[..i]), s.active[l[i]], l[i])
  {
    LosingFails(s, l, i, if s.active[l[i]].cancellation.Some? then RequestAlreadyCanceled else MaxRequeuesExceeded);
  }

  lemma LosingFails(s: State, l: seq<RequestId>, i: nat, why: FailureReason)
    requires i < |l| && NoDup(l) && l[i] in s.active && s.active[l[i]].InFlight? && !Requeueable(s.active, l[i])
    requires why == if s.active[l[i]].cancellation.Some? then RequestAlreadyCanceled else MaxRequeuesExceeded
    ensures var t := Losing(s, l[..i]);
      FailReply(t.(active := t.active - {l[i]}), l[i], why) == Losing(s, l[..i + 1])
  {
    LostIndexNext(s.active, l, i);
    LostReasonsNext(s.active, l, i);
    var x := s.(active := LostIndex(s.active, l[..i + 1]));
    var m := LostReasons(s.active, l[..i]);
    ReasonAdded(m, l[i], why);
    FailOne(FailReplies(x, m), l[i], why);
    FailBoth(x, m, map[l[i] := why]);
  }

  lemma LosingKeeps(s: State, l: seq<RequestId>, i: nat)
    requires i < |l| && NoDup(l) && Requeueable(s.active, l[i])
    ensures var t := Losing(s, l[..i]);
      t.(active := t.active[l[i] := Queued(Bumped(s.active[l[i]].request))]) == Losing(s, l[..i + 1])
  {
    LostIndexNext(s.active, l, i);
    LostReasonsNext(s.active, l, i);
  }

  lemma LostThenReleased(s: State, w: WorkerId)
    requires w in s.workers
    ensures var t := Losing(RemoveWorker(s, w, None), s.workers[w].inFlight);
      t.(queues := PutBack(t.queues, s.workers[w].provider, RequeuedRecords(s.active, s.workers[w].inFlight)))
      == Disconnected(s, w)
  {}

  lemma CancelKeeps(s: State, id: RequestId, reason: CancelReason, out: Option<CancelOutcome>, t: State)
    requires Sound(s) && Cancels(s, id, reason, out, t)
    ensures Sound(t)
  {
    StepKeeps(s, Op.CancelRequest(id, reason), t);
  }

  lemma DisconnectKeeps(s: State, w: WorkerId)
    requires Sound(s)
    ensures Sound(Disconnected(s, w))
  {
    StepKeeps(s, Disconnect(w), Disconnected(s, w));
  }
}
