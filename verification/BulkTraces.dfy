/** The operations that end or move many requests at once are runs of moves too. Each is
    given in the specification as a closed form over whole maps; here it is peeled one
    request at a time, every peel is a move, and the moves left over are again an operation
    of the same kind on fewer requests. */
module BulkTraces {
  import opened Seqs
  import opened RelayState
  import opened Moves
  import opened Index
  import opened Replies
  import opened Spec
  import opened Traces

  // ---- workers evicted ----

  predicate Evicts(ws: set<WorkerId>, why: FailureReason, close: CloseReason, m: Move) {
    (m.FailRunning? && m.w in ws && m.why == why) || (m.Leave? && m.w in ws && m.close == Some(close))
  }

  ghost predicate EvictMoves(ws: set<WorkerId>, why: FailureReason, close: CloseReason, ms: seq<Move>) {
    forall m :: m in ms ==> Evicts(ws, why, close, m)
  }

  lemma EvictMovesJoin(a: set<WorkerId>, b: set<WorkerId>, ws: set<WorkerId>, why: FailureReason, close: CloseReason,
                       ms: seq<Move>, ns: seq<Move>)
    requires EvictMoves(a, why, close, ms) && EvictMoves(b, why, close, ns) && a + b <= ws
    ensures EvictMoves(ws, why, close, ms + ns)
  {}

  lemma RunningOnOne(s: State, w: WorkerId)
    requires Inv(s) && w in s.workers
    ensures forall id :: id in RunningOn(s, {w}) <==> id in s.workers[w].inFlight
  {
    forall id ensures id in RunningOn(s, {w}) <==> id in s.workers[w].inFlight {
      assert Running(s)(w, id) <==> id in s.workers[w].inFlight;
    }
  }

  lemma EvictIdleIs(s: State, w: WorkerId, why: FailureReason, close: CloseReason)
    requires Inv(s) && w in s.workers && s.workers[w].inFlight == []
    ensures Evicted(s, {w}, why, close) == RemoveWorker(s, w, Some(close))
  {
    RunningOnOne(s, w);
    assert RunningOn(s, {w}) == {};
    assert s.active - {} == s.active;
    assert AllFor({}, why) == map[];
    FailNone(s);
  }

  lemma EvictIdle(s: State, w: WorkerId, why: FailureReason, close: CloseReason)
    requires Inv(s) && w in s.workers && s.workers[w].inFlight == []
    ensures Runs(s, [Leave(w, Some(close))], Evicted(s, {w}, why, close))
    ensures EvictMoves({w}, why, close, [Leave(w, Some(close))])
  {
    EvictIdleIs(s, w, why, close);
    RunsOne(s, Leave(w, Some(close)));
  }

  lemma RunningOnPeel(s: State, w: WorkerId, id: RequestId, why: FailureReason)
    requires w in s.workers && id in RunningOn(s, {w})
    ensures var s1 := FailReply(Detach(s, w, id), id, why);
      RunningOn(s1, {w}) == RunningOn(s, {w}) - {id}
      && s1.active - RunningOn(s1, {w}) == s.active - RunningOn(s, {w})
  {
    var s1 := FailReply(Detach(s, w, id), id, why);
    assert RunningOn(s1, {w}) == RunningOn(s, {w}) - {id};
    MinusBoth(s.active, {id}, RunningOn(s1, {w}), RunningOn(s, {w}));
  }

  /** Failing one of w's requests first changes nothing about evicting w. */
  lemma EvictPeel(s: State, w: WorkerId, id: RequestId, why: FailureReason, close: CloseReason)
    requires w in s.workers && id in RunningOn(s, {w})
    ensures Evicted(FailReply(Detach(s, w, id), id, why), {w}, why, close) == Evicted(s, {w}, why, close)
  {
    var s1 := FailReply(Detach(s, w, id), id, why);
    var ids, ids1 := RunningOn(s, {w}), RunningOn(s1, {w});
    RunningOnPeel(s, w, id, why);
    var x := Detach(s, w, id);
    AllForOne(ids, id, why);
    FailPeel(x, id, why, AllFor(ids1, why), AllFor(ids, why), s.active - ids, s.queues, x.workers);
    assert x.workers - {w} == s.workers - {w};
  }

  /** Failing one of w's requests is an enabled move that leaves less to evict. */
  lemma EvictStep(s: State, m: Move, w: WorkerId, id: RequestId, why: FailureReason, close: CloseReason)
    requires Inv(s) && w in s.workers && id in s.workers[w].inFlight && m == FailRunning(w, id, why)
    ensures Enabled(s, m) && Inv(Apply(s, m))
    ensures w in Apply(s, m).workers && |Apply(s, m).workers[w].inFlight| < |s.workers[w].inFlight|
    ensures Evicted(Apply(s, m), {w}, why, close) == Evicted(s, {w}, why, close)
  {
    RunningOnOne(s, w);
    MoveKeeps(s, m);
    EvictPeel(s, w, id, why, close);
  }

  lemma EvictCons(s: State, m: Move, w: WorkerId, why: FailureReason, close: CloseReason, rest: seq<Move>)
    requires m.FailRunning? && m.w == w && m.why == why
    requires Enabled(s, m) && Evicted(Apply(s, m), {w}, why, close) == Evicted(s, {w}, why, close)
    requires Runs(Apply(s, m), rest, Evicted(Apply(s, m), {w}, why, close)) && EvictMoves({w}, why, close, rest)
    ensures Runs(s, [m] + rest, Evicted(s, {w}, why, close)) && EvictMoves({w}, why, close, [m] + rest)
  {
    RunsCons(s, m, rest, Evicted(s, {w}, why, close));
    EvictMovesJoin({w}, {w}, {w}, why, close, [m], rest);
  }

  lemma {:induction false} EvictOneRuns(s: State, w: WorkerId, why: FailureReason, close: CloseReason)
    returns (ms: seq<Move>)
    requires Inv(s) && w in s.workers
    ensures Runs(s, ms, Evicted(s, {w}, why, close))
    ensures EvictMoves({w}, why, close, ms)
    decreases |s.workers[w].inFlight|
  {
    var l := s.workers[w].inFlight;
    if l == [] {
      EvictIdle(s, w, why, close);
      ms := [Leave(w, Some(close))];
    } else {
      var m := FailRunning(w, l[|l| - 1], why);
      EvictStep(s, m, w, l[|l| - 1], why, close);
      var rest := EvictOneRuns(Apply(s, m), w, why, close);
      EvictCons(s, m, w, why, close, rest);
      ms := [m] + rest;
    }
  }

  lemma RemoveNone(s: State, close: Option<CloseReason>)
    ensures RemoveWorkers(s, {}, close) == s
  {
    FilterAll(s.order, Outside({}));
    FilterAll(s.cancelSignals, CancelOutside({}));
    FilterAll(s.shutdownSignals, ShutdownOutside({}));
    MinusNone(s.workers);
    MinusNone(s.outbox);
    if close.Some? {
      assert CloseAll(s.closeReasons, {}, close.value) == s.closeReasons;
    }
  }

  lemma CloseBoth(m: map<WorkerId, CloseReason>, a: set<WorkerId>, b: set<WorkerId>, all: set<WorkerId>,
                  close: CloseReason)
    requires all == a + b
    ensures CloseAll(CloseAll(m, a, close), b, close) == CloseAll(m, all, close)
  {}

  lemma AllForBoth(a: set<RequestId>, b: set<RequestId>, all: set<RequestId>, why: FailureReason)
    requires all == a + b
    ensures AllFor(a, why) + AllFor(b, why) == AllFor(all, why)
  {}

  lemma RemoveBoth(s: State, a: set<WorkerId>, b: set<WorkerId>, all: set<WorkerId>, close: CloseReason)
    requires all == a + b
    ensures RemoveWorkers(RemoveWorkers(s, a, Some(close)), b, Some(close)) == RemoveWorkers(s, all, Some(close))
  {
    FilterTwice(s.order, Outside(a), Outside(b), Outside(all));
    FilterTwice(s.cancelSignals, CancelOutside(a), CancelOutside(b), CancelOutside(all));
    FilterTwice(s.shutdownSignals, ShutdownOutside(a), ShutdownOutside(b), ShutdownOutside(all));
    MinusBoth(s.workers, a, b, all);
    MinusBoth(s.outbox, a, b, all);
    CloseBoth(s.closeReasons, a, b, all, close);
  }

  lemma EvictSplit(s: State, a: set<WorkerId>, b: set<WorkerId>, ws: set<WorkerId>, why: FailureReason,
                   close: CloseReason)
    requires ws == a + b
    ensures Evicted(Evicted(s, a, why, close), b, why, close) == Evicted(s, ws, why, close)
  {
    var t := Evicted(s, a, why, close);
    var ids, mine, rest := RunningOn(s, ws), RunningOn(s, a), RunningOn(t, b);
    assert rest == ids - mine;
    MinusBoth(s.active, mine, rest, ids);
    AllForBoth(mine, rest, ids, why);
    var x := s.(active := s.active - ids);
    FailBoth(x, AllFor(mine, why), AllFor(rest, why));
    RemoveBoth(FailReplies(x, AllFor(ids, why)), a, b, ws, close);
  }

  lemma EvictNobody(s: State, why: FailureReason, close: CloseReason)
    ensures Evicted(s, {}, why, close) == s
  {
    assert RunningOn(s, {}) == {};
    MinusNone(s.active);
    assert AllFor({}, why) == map[];
    FailNone(s);
    RemoveNone(s, Some(close));
  }

  lemma EvictFirst(s: State, w: WorkerId, ws: set<WorkerId>, why: FailureReason, close: CloseReason)
    returns (ms: seq<Move>)
    requires Inv(s) && ws <= s.workers.Keys && w in ws
    ensures Runs(s, ms, Evicted(s, {w}, why, close)) && EvictMoves({w}, why, close, ms)
    ensures Inv(Evicted(s, {w}, why, close)) && ws - {w} <= Evicted(s, {w}, why, close).workers.Keys
  {
    ms := EvictOneRuns(s, w, why, close);
    RunKeeps(s, ms, Evicted(s, {w}, why, close));
  }

  lemma EvictJoin(s: State, w: WorkerId, ws: set<WorkerId>, why: FailureReason, close: CloseReason,
                  first: seq<Move>, rest: seq<Move>)
    requires w in ws
    requires Runs(s, first, Evicted(s, {w}, why, close)) && EvictMoves({w}, why, close, first)
    requires var t := Evicted(s, {w}, why, close); Runs(t, rest, Evicted(t, ws - {w}, why, close))
    requires EvictMoves(ws - {w}, why, close, rest)
    ensures Runs(s, first + rest, Evicted(s, ws, why, close)) && EvictMoves(ws, why, close, first + rest)
  {
    EvictSplit(s, {w}, ws - {w}, ws, why, close);
    RunsConcat(s, first, Evicted(s, {w}, why, close), rest, Evicted(s, ws, why, close));
    EvictMovesJoin({w}, ws - {w}, ws, why, close, first, rest);
  }

  lemma {:induction false} EvictRuns(s: State, ws: set<WorkerId>, why: FailureReason, close: CloseReason)
    returns (ms: seq<Move>)
    requires Inv(s) && ws <= s.workers.Keys
    ensures Runs(s, ms, Evicted(s, ws, why, close))
    ensures EvictMoves(ws, why, close, ms)
    decreases |ws|
  {
    if ws == {} {
      EvictNobody(s, why, close);
      ms := [];
    } else {
      var w :| w in ws;
      var first := EvictFirst(s, w, ws, why, close);
      var rest := EvictRuns(Evicted(s, {w}, why, close), ws - {w}, why, close);
      EvictJoin(s, w, ws, why, close, first, rest);
      ms := first + rest;
    }
  }

  // ---- queue timeouts ----

  ghost predicate DropMoves(why: FailureReason, ms: seq<Move>) {
    forall m :: m in ms ==> m.Drop? && m.failure == Some(why)
  }

  lemma DropMovesCons(why: FailureReason, m: Move, ms: seq<Move>)
    requires m.Drop? && m.failure == Some(why) && DropMoves(why, ms)
    ensures DropMoves(why, [m] + ms)
  {}

  lemma NobodyExpired(s: State, now: nat)
    requires ExpiredIds(s, now) == {}
    ensures QueuesExpired(s, now) == s
  {
    var kept := KeptQueues(s.queues, s.policies, now);
    forall p | p in s.queues ensures kept[p] == s.queues[p] {
      forall r | r in s.queues[p] ensures Unexpired(s.PolicyOf(p), now)(r) {
        assert Expired(s.PolicyOf(p), r, now) ==> r.id in ExpiredIds(s, now);
      }
      FilterAll(s.queues[p], Unexpired(s.PolicyOf(p), now));
    }
    assert kept == s.queues;
    MinusNone(s.active);
    assert AllFor({}, QueueTimedOut) == map[];
    FailNone(s);
  }

  ghost predicate ExpiredAt(s: State, p: string, i: nat, now: nat) {
    p in s.queues && i < |s.queues[p]| && Expired(s.PolicyOf(p), s.queues[p][i], now)
  }

  lemma SomebodyExpired(s: State, now: nat) returns (p: string, i: nat)
    requires ExpiredIds(s, now) != {}
    ensures ExpiredAt(s, p, i, now)
  {
    var id :| id in ExpiredIds(s, now);
    var q, r :| q in s.queues && r in s.queues[q] && Expired(s.PolicyOf(q), r, now) && r.id == id;
    p, i := q, IndexOf(s.queues[q], r);
  }

  lemma KeptQueuesPeel(s: State, p: string, i: nat, now: nat)
    requires ExpiredAt(s, p, i, now)
    ensures KeptQueues(Unqueued(s, p, i).queues, s.policies, now) == KeptQueues(s.queues, s.policies, now)
  {
    FilterRemoved(s.queues[p], i, Unexpired(s.PolicyOf(p), now));
  }

  /** No other waiting record has the id of one. */
  lemma WaitsAlone(s: State, p: string, r: Request)
    requires Inv(s) && Waits(s)(p, r)
    ensures forall q, x :: Waits(s)(q, x) && x.id == r.id ==> q == p && x == r
  {
    forall q, x | Waits(s)(q, x) && x.id == r.id ensures q == p && x == r {
      assert s.active[x.id] == Queued(x) && s.active[r.id] == Queued(r);
    }
  }

  ghost predicate ExpiredIn(s: State, now: nat, q: string, x: Request) {
    Waits(s)(q, x) && Expired(s.PolicyOf(q), x, now)
  }

  lemma ExpiredIdsMeaning(s: State, now: nat, id: RequestId)
    ensures id in ExpiredIds(s, now) <==> exists q, x :: ExpiredIn(s, now, q, x) && x.id == id
  {
    if id in ExpiredIds(s, now) {
      var q, x :| q in s.queues && x in s.queues[q] && Expired(s.PolicyOf(q), x, now) && x.id == id;
      assert ExpiredIn(s, now, q, x);
    }
  }

  lemma ExpiredIdsPeel(s: State, t: State, p: string, i: nat, now: nat)
    requires Inv(s) && ExpiredAt(s, p, i, now)
    requires t.queues == Unqueued(s, p, i).queues && t.policies == s.policies
    ensures s.queues[p][i].id in ExpiredIds(s, now)
    ensures ExpiredIds(t, now) == ExpiredIds(s, now) - {s.queues[p][i].id}
  {
    QueueShrinks(s, t, p, i);
    var r := s.queues[p][i];
    WaitsAlone(s, p, r);
    assert forall q, x :: ExpiredIn(t, now, q, x) <==> ExpiredIn(s, now, q, x) && x.id != r.id;
    forall id ensures id in ExpiredIds(t, now) <==> id in ExpiredIds(s, now) && id != r.id {
      ExpiredIdsMeaning(s, now, id);
      ExpiredIdsMeaning(t, now, id);
    }
  }

  lemma ExpirePeel(s: State, p: string, i: nat, now: nat)
    requires ExpiredAt(s, p, i, now)
    requires s.queues[p][i].id in ExpiredIds(s, now)
    requires ExpiredIds(Dropped(s, p, i, Some(QueueTimedOut)), now) == ExpiredIds(s, now) - {s.queues[p][i].id}
    ensures QueuesExpired(Dropped(s, p, i, Some(QueueTimedOut)), now) == QueuesExpired(s, now)
  {
    var id := s.queues[p][i].id;
    var s1 := Dropped(s, p, i, Some(QueueTimedOut));
    var ids, ids1 := ExpiredIds(s, now), ExpiredIds(s1, now);
    KeptQueuesPeel(s, p, i, now);
    MinusBoth(s.active, {id}, ids1, ids);
    var x := Unqueued(s, p, i).(active := s.active - {id});
    AllForOne(ids, id, QueueTimedOut);
    FailPeel(x, id, QueueTimedOut, AllFor(ids1, QueueTimedOut), AllFor(ids, QueueTimedOut),
             s.active - ids, KeptQueues(s.queues, s.policies, now), s.workers);
  }

  lemma ExpireStep(s: State, m: Move, now: nat)
    requires Inv(s) && m.Drop? && m.failure == Some(QueueTimedOut) && ExpiredAt(s, m.provider, m.index, now)
    ensures Enabled(s, m) && Inv(Apply(s, m)) && |ExpiredIds(Apply(s, m), now)| < |ExpiredIds(s, now)|
    ensures QueuesExpired(Apply(s, m), now) == QueuesExpired(s, now)
  {
    MoveKeeps(s, m);
    ExpiredIdsPeel(s, Apply(s, m), m.provider, m.index, now);
    ExpirePeel(s, m.provider, m.index, now);
  }

  lemma {:induction false} ExpireRuns(s: State, now: nat) returns (ms: seq<Move>)
    requires Inv(s)
    ensures Runs(s, ms, QueuesExpired(s, now)) && DropMoves(QueueTimedOut, ms)
    decreases |ExpiredIds(s, now)|
  {
    if ExpiredIds(s, now) == {} {
      NobodyExpired(s, now);
      ms := [];
    } else {
      var p, i := SomebodyExpired(s, now);
      var m := Drop(p, i, Some(QueueTimedOut));
      ExpireStep(s, m, now);
      var rest := ExpireRuns(Apply(s, m), now);
      RunsCons(s, m, rest, QueuesExpired(s, now));
      DropMovesCons(QueueTimedOut, m, rest);
      ms := [m] + rest;
    }
  }

  // ---- provider deletion ----

  lemma QueueIdsPeel(s: State, p: string)
    requires Inv(s) && p in s.queues && s.queues[p] != []
    ensures var q := s.queues[p];
      IdsOf(RemoveAt(q, |q| - 1)) == IdsOf(q) - {q[|q| - 1].id} && q[|q| - 1].id in IdsOf(q)
  {
    var q := s.queues[p];
    var last := q[|q| - 1];
    RemoveAtMembers(q, |q| - 1);
    forall x | x in q && x.id == last.id ensures x == last {
      assert Waits(s)(p, x) && Waits(s)(p, last);
    }
  }

  lemma ClearPeel(s: State, p: string, id: RequestId)
    requires p in s.queues && s.queues[p] != [] && id == s.queues[p][|s.queues[p]| - 1].id
    requires id in IdsOf(s.queues[p])
    requires IdsOf(RemoveAt(s.queues[p], |s.queues[p]| - 1)) == IdsOf(s.queues[p]) - {id}
    ensures QueueCleared(Dropped(s, p, |s.queues[p]| - 1, Some(ProviderDeleted)), p) == QueueCleared(s, p)
  {
    var ids := IdsOf(s.queues[p]);
    var s1 := Dropped(s, p, |s.queues[p]| - 1, Some(ProviderDeleted));
    assert s1.Queue(p) == RemoveAt(s.queues[p], |s.queues[p]| - 1);
    MinusBoth(s.active, {id}, ids - {id}, ids);
    assert s1.queues - {p} == s.queues - {p};
    var x := Unqueued(s, p, |s.queues[p]| - 1).(active := s.active - {id});
    AllForOne(ids, id, ProviderDeleted);
    FailPeel(x, id, ProviderDeleted, AllFor(ids - {id}, ProviderDeleted), AllFor(ids, ProviderDeleted),
             s.active - ids, s.queues - {p}, s.workers);
  }

  lemma ClearEmpty(s: State, p: string)
    requires s.Queue(p) == []
    ensures QueueCleared(s, p) == s.(queues := s.queues - {p})
    ensures p in s.queues ==> Runs(s, [DropQueue(p)], QueueCleared(s, p))
    ensures p !in s.queues ==> QueueCleared(s, p) == s
  {
    MinusNone(s.active);
    assert IdsOf([]) == {};
    assert AllFor({}, ProviderDeleted) == map[];
    FailNone(s.(queues := s.queues - {p}));
    if p in s.queues {
      RunsOne(s, DropQueue(p));
    } else {
      assert s.queues - {p} == s.queues;
    }
  }

  ghost predicate ClearMoves(p: string, ms: seq<Move>) {
    forall m :: m in ms ==> (m.Drop? && m.failure == Some(ProviderDeleted)) || m == DropQueue(p)
  }

  lemma ClearMovesCons(p: string, m: Move, ms: seq<Move>)
    requires m.Drop? && m.failure == Some(ProviderDeleted) && ClearMoves(p, ms)
    ensures ClearMoves(p, [m] + ms)
  {}

  lemma ClearStep(s: State, m: Move, p: string)
    requires Inv(s) && p in s.queues && s.queues[p] != []
    requires m == Drop(p, |s.queues[p]| - 1, Some(ProviderDeleted))
    ensures Enabled(s, m) && Inv(Apply(s, m)) && |Apply(s, m).Queue(p)| < |s.Queue(p)|
    ensures QueueCleared(Apply(s, m), p) == QueueCleared(s, p)
  {
    MoveKeeps(s, m);
    QueueIdsPeel(s, p);
    ClearPeel(s, p, s.queues[p][|s.queues[p]| - 1].id);
  }

  lemma {:induction false} ClearRuns(s: State, p: string) returns (ms: seq<Move>)
    requires Inv(s)
    ensures Runs(s, ms, QueueCleared(s, p)) && ClearMoves(p, ms)
    decreases |s.Queue(p)|
  {
    if s.Queue(p) == [] {
      ClearEmpty(s, p);
      ms := if p in s.queues then [DropQueue(p)] else [];
    } else {
      var m := Drop(p, |s.queues[p]| - 1, Some(ProviderDeleted));
      ClearStep(s, m, p);
      var rest := ClearRuns(Apply(s, m), p);
      RunsCons(s, m, rest, QueueCleared(s, p));
      ClearMovesCons(p, m, rest);
      ms := [m] + rest;
    }
  }

  // ---- a worker lost ----

  predicate LosesTo(w: WorkerId, m: Move) {
    (m.FailRunning? && m.w == w) || (m.Requeue? && m.w == w) || m == Leave(w, None)
  }

  ghost predicate LossMoves(w: WorkerId, ms: seq<Move>) {
    forall m :: m in ms ==> LosesTo(w, m)
  }

  lemma LossMovesCons(w: WorkerId, m: Move, ms: seq<Move>)
    requires LosesTo(w, m) && LossMoves(w, ms)
    ensures LossMoves(w, [m] + ms)
  {}

  lemma {:induction false} RecordsAgree(a: map<RequestId, Active>, b: map<RequestId, Active>, ids: seq<RequestId>)
    requires forall id :: id in ids ==> (id in a <==> id in b) && (id in a ==> a[id] == b[id])
    ensures RequeuedRecords(a, ids) == RequeuedRecords(b, ids)
  {
    if ids != [] {
      assert ids[|ids| - 1] in ids;
      forall id | id in ids[..|ids| - 1] ensures id in ids {}
      RecordsAgree(a, b, ids[..|ids| - 1]);
    }
  }

  /** What is left to do for a lost worker once its last request has gone back to a queue. */
  lemma LostPeelKept(a: map<RequestId, Active>, l: seq<RequestId>, id: RequestId)
    requires l != [] && NoDup(l) && id == l[|l| - 1] && Requeueable(a, id)
    ensures var b, l1 := a[id := Queued(Bumped(a[id].request))], l[..|l| - 1];
      LostIndex(b, l1) == LostIndex(a, l) && LostReasons(b, l1) == LostReasons(a, l)
      && RequeuedRecords(a, l) == RequeuedRecords(b, l1) + [Bumped(a[id].request)]
  {
    var b, l1 := a[id := Queued(Bumped(a[id].request))], l[..|l| - 1];
    assert forall x :: x in l <==> x in l1 || x == id;
    RecordsAgree(a, b, l1);
    assert LostIndex(b, l1).Keys == LostIndex(a, l).Keys;
  }

  /** The same once its last request has failed. */
  lemma LostPeelFailed(a: map<RequestId, Active>, l: seq<RequestId>, id: RequestId)
    requires l != [] && NoDup(l) && id == l[|l| - 1] && id in a && a[id].InFlight? && !Requeueable(a, id)
    ensures var b, l1 := a - {id}, l[..|l| - 1];
      LostIndex(b, l1) == LostIndex(a, l) && RequeuedRecords(a, l) == RequeuedRecords(b, l1)
      && id !in LostReasons(b, l1) && id in LostReasons(a, l)
      && LostReasons(a, l) == LostReasons(b, l1)[id := LostReasons(a, l)[id]]
  {
    var b, l1 := a - {id}, l[..|l| - 1];
    assert forall x :: x in l <==> x in l1 || x == id;
    RecordsAgree(a, b, l1);
    LostIndexPeel(a, l, id);
  }

  lemma LostIndexPeel(a: map<RequestId, Active>, l: seq<RequestId>, id: RequestId)
    requires l != [] && NoDup(l) && id == l[|l| - 1] && id in a && !Requeueable(a, id)
    ensures LostIndex(a - {id}, l[..|l| - 1]) == LostIndex(a, l)
  {
    var b, l1 := a - {id}, l[..|l| - 1];
    assert forall x :: x in l <==> x in l1 || x == id;
    assert LostIndex(b, l1).Keys == LostIndex(a, l).Keys;
  }

  lemma PutBackPeel(queues: map<string, seq<Request>>, p: string, back: seq<Request>, r: Request)
    ensures var q := if p in queues then queues[p] else [];
      PutBack(queues[p := [r] + q], p, back) == PutBack(queues, p, back + [r])
  {
    var q := if p in queues then queues[p] else [];
    assert back + ([r] + q) == (back + [r]) + q;
    if p !in queues {
      assert [r] + q == [r];
    }
  }

  lemma PutBackNone(queues: map<string, seq<Request>>, p: string)
    ensures PutBack(queues, p, []) == queues
  {
    if p in queues {
      assert [] + queues[p] == queues[p];
    }
  }

  lemma DisconnectPeelKept(s: State, w: WorkerId, id: RequestId)
    requires w in s.workers && s.workers[w].inFlight != [] && NoDup(s.workers[w].inFlight)
    requires id == s.workers[w].inFlight[|s.workers[w].inFlight| - 1] && Requeueable(s.active, id)
    ensures Disconnected(Requeued(s, w, id), w) == Disconnected(s, w)
  {
    var l, p := s.workers[w].inFlight, s.workers[w].provider;
    var s1 := Requeued(s, w, id);
    var r := Bumped(s.active[id].request);
    WithoutLast(l);
    LostPeelKept(s.active, l, id);
    PutBackPeel(s.queues, p, RequeuedRecords(s1.active, l[..|l| - 1]), r);
    assert s1.workers - {w} == s.workers - {w};
  }

  lemma DisconnectPeelFailed(s: State, w: WorkerId, id: RequestId)
    requires w in s.workers && s.workers[w].inFlight != [] && NoDup(s.workers[w].inFlight)
    requires id == s.workers[w].inFlight[|s.workers[w].inFlight| - 1]
    requires id in s.active && s.active[id].InFlight? && !Requeueable(s.active, id)
    ensures id in LostReasons(s.active, s.workers[w].inFlight)
    ensures Disconnected(FailReply(Detach(s, w, id), id, LostReasons(s.active, s.workers[w].inFlight)[id]), w)
         == Disconnected(s, w)
  {
    var l, p := s.workers[w].inFlight, s.workers[w].provider;
    LostPeelFailed(s.active, l, id);
    var l1, b := l[..|l| - 1], s.active - {id};
    var all, rest := LostReasons(s.active, l), LostReasons(b, l1);
    var x := Detach(s, w, id);
    WithoutLast(l);
    FailPeel(x, id, all[id], rest, all, LostIndex(s.active, l),
             PutBack(s.queues, p, RequeuedRecords(s.active, l)), x.workers);
    assert x.workers - {w} == s.workers - {w};
  }

  lemma DisconnectIdle(s: State, w: WorkerId)
    requires w in s.workers && s.workers[w].inFlight == []
    ensures Runs(s, [Leave(w, None)], Disconnected(s, w)) && LossMoves(w, [Leave(w, None)])
  {
    assert LostIndex(s.active, []) == s.active;
    assert LostReasons(s.active, []) == map[];
    PutBackNone(s.queues, s.workers[w].provider);
    FailNone(s);
    RunsOne(s, Leave(w, None));
  }

  /** A move on w's last request that brings its departure one request nearer. */
  ghost predicate LossStep(s: State, w: WorkerId, m: Move) {
    Enabled(s, m) && LosesTo(w, m) && w in s.workers && w in Apply(s, m).workers
    && |Apply(s, m).workers[w].inFlight| < |s.workers[w].inFlight|
    && Disconnected(Apply(s, m), w) == Disconnected(s, w)
  }

  lemma LossStepKept(s: State, w: WorkerId, id: RequestId)
    requires w in s.workers && s.workers[w].inFlight != [] && NoDup(s.workers[w].inFlight)
    requires id == s.workers[w].inFlight[|s.workers[w].inFlight| - 1] && Requeueable(s.active, id)
    ensures LossStep(s, w, Requeue(w, id))
  {
    var l := s.workers[w].inFlight;
    WithoutLast(l);
    DisconnectPeelKept(s, w, id);
    assert Apply(s, Requeue(w, id)) == Requeued(s, w, id);
    assert Requeued(s, w, id).workers == s.workers[w := s.workers[w].(inFlight := l[..|l| - 1])];
  }

  lemma LossStepFailed(s: State, w: WorkerId, id: RequestId) returns (m: Move)
    requires w in s.workers && s.workers[w].inFlight != [] && NoDup(s.workers[w].inFlight)
    requires id == s.workers[w].inFlight[|s.workers[w].inFlight| - 1]
    requires id in s.active && s.active[id].InFlight? && !Requeueable(s.active, id)
    ensures LossStep(s, w, m)
  {
    var l := s.workers[w].inFlight;
    WithoutLast(l);
    DisconnectPeelFailed(s, w, id);
    var why := LostReasons(s.active, l)[id];
    m := FailRunning(w, id, why);
    assert Apply(s, m) == FailReply(Detach(s, w, id), id, why);
    assert Apply(s, m).workers == s.workers[w := s.workers[w].(inFlight := l[..|l| - 1])];
  }

  lemma DisconnectStep(s: State, w: WorkerId) returns (m: Move)
    requires Inv(s) && w in s.workers && s.workers[w].inFlight != []
    ensures LossStep(s, w, m)
  {
    var id := s.workers[w].inFlight[|s.workers[w].inFlight| - 1];
    assert Running(s)(w, id);
    if Requeueable(s.active, id) {
      m := Requeue(w, id);
      LossStepKept(s, w, id);
    } else {
      m := LossStepFailed(s, w, id);
    }
  }

  lemma {:induction false} DisconnectRuns(s: State, w: WorkerId) returns (ms: seq<Move>)
    requires Inv(s)
    ensures Runs(s, ms, Disconnected(s, w)) && LossMoves(w, ms)
    decreases if w in s.workers then |s.workers[w].inFlight| else 0
  {
    if w !in s.workers {
      ms := [];
    } else if s.workers[w].inFlight == [] {
      DisconnectIdle(s, w);
      ms := [Leave(w, None)];
    } else {
      var m := DisconnectStep(s, w);
      MoveKeeps(s, m);
      var rest := DisconnectRuns(Apply(s, m), w);
      RunsCons(s, m, rest, Disconnected(s, w));
      LossMovesCons(w, m, rest);
      ms := [m] + rest;
    }
  }

  // ---- draining everybody ----

  function WithDeadlines(workers: map<WorkerId, Worker>, ws: seq<WorkerId>, deadline: nat): map<WorkerId, Worker> {
    map w | w in workers :: if w in ws then workers[w].(deadline := Some(deadline)) else workers[w]
  }

  function AllDraining(s: State, ws: seq<WorkerId>, notice: Option<string>, timeout: nat, deadline: nat): State {
    s.(workers := WithDeadlines(s.workers, ws, deadline),
       shutdownSignals := s.shutdownSignals + ShutdownSignals(ws, notice, timeout))
  }

  lemma DeadlinesPeel(workers: map<WorkerId, Worker>, ws: seq<WorkerId>, deadline: nat)
    requires ws != [] && NoDup(ws) && ws[0] in workers
    ensures WithDeadlines(workers[ws[0] := workers[ws[0]].(deadline := Some(deadline))], ws[1..], deadline)
         == WithDeadlines(workers, ws, deadline)
  {
    assert ws == [ws[0]] + ws[1..];
  }

  ghost predicate DrainMoves(ms: seq<Move>) {
    forall m :: m in ms ==> m.StartDrain?
  }

  lemma DrainPeel(s: State, ws: seq<WorkerId>, notice: Option<string>, timeout: nat, deadline: nat)
    requires ws != [] && NoDup(ws) && ws[0] in s.workers
    ensures AllDraining(Moves.Draining(s, ShutdownSignal(ws[0], notice, timeout), deadline), ws[1..], notice, timeout,
                        deadline)
         == AllDraining(s, ws, notice, timeout, deadline)
  {
    var first := ShutdownSignal(ws[0], notice, timeout);
    var s1 := Moves.Draining(s, first, deadline);
    assert [first] + ShutdownSignals(ws[1..], notice, timeout) == ShutdownSignals(ws, notice, timeout);
    DeadlinesPeel(s.workers, ws, deadline);
    assert s.shutdownSignals + [first] + ShutdownSignals(ws[1..], notice, timeout)
        == s.shutdownSignals + ShutdownSignals(ws, notice, timeout);
  }

  lemma {:induction false} DrainAllRuns(s: State, ws: seq<WorkerId>, notice: Option<string>, timeout: nat,
                                        deadline: nat)
    returns (ms: seq<Move>)
    requires NoDup(ws) && forall w :: w in ws ==> w in s.workers && !s.workers[w].Draining()
    ensures Runs(s, ms, AllDraining(s, ws, notice, timeout, deadline)) && DrainMoves(ms)
    decreases |ws|
  {
    if ws == [] {
      assert WithDeadlines(s.workers, ws, deadline) == s.workers;
      assert ShutdownSignals(ws, notice, timeout) == [];
      assert s.shutdownSignals + [] == s.shutdownSignals;
      ms := [];
    } else {
      var m := StartDrain(ShutdownSignal(ws[0], notice, timeout), deadline);
      assert ws[0] in ws;
      forall w | w in ws[1..] ensures w in ws && w != ws[0] {}
      var rest := DrainAllRuns(Apply(s, m), ws[1..], notice, timeout, deadline);
      DrainPeel(s, ws, notice, timeout, deadline);
      RunsCons(s, m, rest, AllDraining(s, ws, notice, timeout, deadline));
      ms := [m] + rest;
    }
  }

  lemma ShutdownRuns(s: State, notice: Option<string>, timeout: nat, now: nat) returns (ms: seq<Move>)
    requires Listed(s)
    ensures Runs(s, ms, ShutdownBegun(s, notice, timeout, now)) && DrainMoves(ms)
  {
    DrainEverybody(s, notice, timeout, now);
    NotDrainingAre(s);
    ms := DrainAllRuns(s, NotDraining(s), notice, timeout, now + timeout);
  }

  lemma NotDrainingAre(s: State)
    requires Listed(s)
    ensures NoDup(NotDraining(s))
    ensures forall w :: w in NotDraining(s) <==> w in s.workers && !s.workers[w].Draining()
  {
    FilterMembers(s.order, Undrained(s));
  }

  lemma DeadlinesForAll(workers: map<WorkerId, Worker>, ws: seq<WorkerId>, deadline: nat)
    requires forall w :: w in ws <==> w in workers && !workers[w].Draining()
    ensures WithDeadlines(workers, ws, deadline) ==
      map w | w in workers :: if workers[w].Draining() then workers[w] else workers[w].(deadline := Some(deadline))
  {}

  lemma DrainEverybody(s: State, notice: Option<string>, timeout: nat, now: nat)
    requires Listed(s)
    ensures AllDraining(s, NotDraining(s), notice, timeout, now + timeout) == ShutdownBegun(s, notice, timeout, now)
  {
    NotDrainingAre(s);
    DeadlinesForAll(s.workers, NotDraining(s), now + timeout);
  }

  // ---- every operation ----

  lemma DeleteRuns(s: State, p: string) returns (ms: seq<Move>)
    requires Inv(s)
    ensures Runs(s, ms, ProviderDeletedFrom(s, p)) && AllBelong(DeleteProvider(p), ms)
  {
    var t := QueueCleared(s, p);
    var first := ClearRuns(s, p);
    RunKeeps(s, first, t);
    assert WorkersOf(s, p) == WorkersOf(t, p);
    var rest := EvictRuns(t, WorkersOf(s, p), ProviderDeleted, Completed);
    RunsConcat(s, first, t, rest, ProviderDeletedFrom(s, p));
    ms := first + rest;
    DeleteMoves(p, WorkersOf(s, p), first, rest);
  }

  lemma DeleteMoves(p: string, ws: set<WorkerId>, first: seq<Move>, rest: seq<Move>)
    requires ClearMoves(p, first) && EvictMoves(ws, ProviderDeleted, Completed, rest)
    ensures AllBelong(DeleteProvider(p), first + rest)
  {}

  lemma CancelRuns(s: State, id: RequestId, reason: CancelReason, out: Option<CancelOutcome>, s': State)
    returns (ms: seq<Move>)
    requires Cancels(s, id, reason, out, s')
    ensures Runs(s, ms, s') && AllBelong(CancelRequest(id, reason), ms)
  {
    ms := [];
    if id in s.active {
      var entry := s.active[id];
      if entry.Queued? {
        if exists i: nat :: AtHome(s, entry.request, i) {
          var i: nat :| AtHome(s, entry.request, i) && s' == Dropped(s, entry.request.provider, i, None);
          ms := [Drop(entry.request.provider, i, None)];
          RunsOne(s, ms[0]);
        }
      } else if entry.cancellation == None {
        ms := [Mark(id, reason)];
        RunsOne(s, ms[0]);
      }
    }
  }

  lemma ChunkRuns(s: State, w: WorkerId, id: RequestId, data: Bytes) returns (ms: seq<Move>)
    ensures Runs(s, ms, Chunked(s, w, id, data)) && AllBelong(StreamChunk(w, id, data), ms)
  {
    ms := [];
    if Owns(s, w, id) && id in s.senders && s.senders[id].Streaming? {
      ms := [SendChunk(w, id, data)];
      RunsOne(s, ms[0]);
    }
  }

  predicate Simple(op: Op) {
    op.Configure? || op.Register? || op.TakeRequests? || op.TakeCancelSignals? || op.TakeShutdownSignals?
    || op.DisconnectIfDrained? || op.TakeCloseReason?
  }

  lemma TakingRuns(s: State, op: Op, s': State) returns (m: Move)
    requires Step(s, op, s')
    requires op.TakeRequests? || op.TakeCancelSignals? || op.TakeShutdownSignals? || op.TakeCloseReason?
    ensures Enabled(s, m) && Apply(s, m) == s' && Belongs(op, m)
  {
    match op
    case TakeRequests(w) => m := TakeOutbox(w);
    case TakeCancelSignals(w) => m := TakeCancels(w);
    case TakeShutdownSignals(w) => m := TakeShutdowns(w);
    case TakeCloseReason(w) => m := TakeClose(w);
  }

  lemma SettingRuns(s: State, op: Op, s': State) returns (m: Move)
    requires Step(s, op, s')
    requires op.Configure? || op.Register? || (op.DisconnectIfDrained? && Drained(s, op.w))
    ensures Enabled(s, m) && Apply(s, m) == s' && Belongs(op, m)
  {
    match op
    case Configure(p, policy) => m := SetPolicy(p, policy);
    case Register(p, models, prefixes, max, load) => m := AddWorker(NewWorker(p, models, prefixes, max, load));
    case DisconnectIfDrained(w) => m := Leave(w, Some(Completed));
  }

  lemma SimpleRuns(s: State, op: Op, s': State) returns (ms: seq<Move>)
    requires Step(s, op, s') && Simple(op)
    ensures Runs(s, ms, s') && AllBelong(op, ms)
  {
    ms := [];
    if !(op.DisconnectIfDrained? && !Drained(s, op.w)) {
      var m: Move;
      if op.Configure? || op.Register? || op.DisconnectIfDrained? {
        m := SettingRuns(s, op, s');
      } else {
        m := TakingRuns(s, op, s');
      }
      RunsOne(s, m);
      ms := [m];
    }
  }

  lemma BulkMovesBelong(op: Op, ms: seq<Move>, ws: set<WorkerId>)
    requires op.BeginShutdown? || op.ExpireShutdown? || op.ExpireQueues? || op.Disconnect?
    requires op.BeginShutdown? ==> DrainMoves(ms)
    requires op.ExpireShutdown? ==> EvictMoves(ws, GracefulShutdownTimedOut, TimedOut, ms)
    requires op.ExpireQueues? ==> DropMoves(QueueTimedOut, ms)
    requires op.Disconnect? ==> LossMoves(op.w, ms)
    ensures AllBelong(op, ms)
  {}

  lemma ExpiryRuns(s: State, op: Op, s': State) returns (ms: seq<Move>)
    requires Inv(s) && Step(s, op, s') && (op.ExpireShutdown? || op.ExpireQueues?)
    ensures Runs(s, ms, s') && AllBelong(op, ms)
  {
    if op.ExpireShutdown? {
      ms := EvictRuns(s, Overdue(s, op.now), GracefulShutdownTimedOut, TimedOut);
      BulkMovesBelong(op, ms, Overdue(s, op.now));
    } else {
      ms := ExpireRuns(s, op.now);
      BulkMovesBelong(op, ms, {});
    }
  }

  lemma BulkRuns(s: State, op: Op, s': State) returns (ms: seq<Move>)
    requires Inv(s) && Step(s, op, s')
    requires op.BeginShutdown? || op.DeleteProvider? || op.Disconnect?
    ensures Runs(s, ms, s') && AllBelong(op, ms)
  {
    if op.BeginShutdown? {
      ms := ShutdownRuns(s, op.notice, op.timeout, op.now);
      BulkMovesBelong(op, ms, {});
    } else if op.DeleteProvider? {
      ms := DeleteRuns(s, op.provider);
    } else {
      ms := DisconnectRuns(s, op.w);
      BulkMovesBelong(op, ms, {});
    }
  }

  lemma RequestRuns(s: State, op: Op, s': State) returns (ms: seq<Move>)
    requires Channels(s) && Step(s, op, s')
    requires op.UpdateModels? || op.Pong? || op.Submit? || op.FinishRequest? || op.StreamChunk?
          || op.CompleteResponse? || op.CancelRequest?
    ensures Runs(s, ms, s') && AllBelong(op, ms)
  {
    match op
    case UpdateModels(w, models, current) =>
      var got :| Retunes(s, w, models, current, got, s');
      ms := RetuneRuns(s, w, models, current, got, s');
    case Pong(w, current) =>
      var got :| Pongs(s, w, current, got, s');
      ms := RetuneRuns(s, w, if w in s.workers then s.workers[w].models else [], current, got, s');
    case Submit(x) =>
      var out :| Submits(s, x, out, s');
      ms := SubmitRuns(s, x, out, s');
    case FinishRequest(w, id) =>
      var got :| Finishes(s, w, id, got, s');
      ms := FinishRuns(s, w, id, got, s');
    case StreamChunk(w, id, data) => ms := ChunkRuns(s, w, id, data);
    case CompleteResponse(w, id, body) =>
      var ok := Completes(s, w, id, body, true, s');
      ms := CompleteRuns(s, w, id, body, ok, s');
    case CancelRequest(id, reason) =>
      var out :| Cancels(s, id, reason, out, s');
      ms := CancelRuns(s, id, reason, out, s');
  }

  /** Every public operation is a run of moves of its own. */
  lemma StepRuns(s: State, op: Op, s': State) returns (ms: seq<Move>)
    requires Sound(s) && Step(s, op, s')
    ensures Runs(s, ms, s') && AllBelong(op, ms)
  {
    if Simple(op) {
      ms := SimpleRuns(s, op, s');
    } else if op.ExpireShutdown? || op.ExpireQueues? {
      ms := ExpiryRuns(s, op, s');
    } else if op.BeginShutdown? || op.DeleteProvider? || op.Disconnect? {
      ms := BulkRuns(s, op, s');
    } else {
      ms := RequestRuns(s, op, s');
    }
  }

  /** Every public operation keeps the core sound. */
  lemma StepKeeps(s: State, op: Op, s': State)
    requires Sound(s) && Step(s, op, s')
    ensures Sound(s')
  {
    var ms := StepRuns(s, op, s');
    RunKeeps(s, ms, s');
    RunKeepsChannels(s, ms, s');
  }
}
