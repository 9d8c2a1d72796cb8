/** What the core reports to its callers about the requests it ends: which, in which
    order, and why. */
module Reports {
  import opened Seqs
  import opened RelayState
  import opened Index
  import opened Spec
  import opened Loops
  import Fifo

  // ---- evicted workers ----

  /** What the given workers run, worker by worker. */
  function RunningInTurn(workers: map<WorkerId, Worker>, ws: seq<WorkerId>): seq<RequestId> {
    if ws == [] then []
    else RunningInTurn(workers, Init(ws)) + if Last(ws) in workers then workers[Last(ws)].inFlight else []
  }

  lemma RunningNext(workers: map<WorkerId, Worker>, ws: seq<WorkerId>, i: nat)
    requires i < |ws| && ws[i] in workers
    ensures RunningInTurn(workers, ws[..i + 1]) == RunningInTurn(workers, ws[..i]) + workers[ws[i]].inFlight
  {
    assert Init(ws[..i + 1]) == ws[..i];
  }

  ghost predicate RunsOnOne(s: State, ws: seq<WorkerId>, id: RequestId) {
    exists w :: w in ws && Running(s)(w, id)
  }

  lemma InitThenOne(ws: seq<WorkerId>, w: WorkerId)
    requires ws != []
    ensures w in ws <==> w in Init(ws) || w == Last(ws)
    ensures NoDup(ws) ==> NoDup(Init(ws)) && Last(ws) !in Init(ws)
  {}

  lemma RunsOnInit(s: State, ws: seq<WorkerId>, id: RequestId)
    requires ws != []
    ensures RunsOnOne(s, ws, id) <==> RunsOnOne(s, Init(ws), id) || Running(s)(Last(ws), id)
  {
    if RunsOnOne(s, ws, id) {
      var w :| w in ws && Running(s)(w, id);
      InitThenOne(ws, w);
    }
    if RunsOnOne(s, Init(ws), id) {
      var w :| w in Init(ws) && Running(s)(w, id);
      InitThenOne(ws, w);
    }
    InitThenOne(ws, Last(ws));
  }

  lemma RunsOnNoOther(s: State, ws: seq<WorkerId>, w: WorkerId, id: RequestId)
    requires Inv(s) && w !in ws && RunsOnOne(s, ws, id)
    ensures !Running(s)(w, id)
  {}

  lemma ListsOnce(s: State, w: WorkerId)
    requires Inv(s) && w in s.workers
    ensures NoDup(s.workers[w].inFlight)
    ensures forall id :: id in s.workers[w].inFlight <==> Running(s)(w, id)
  {}

  /** Evicting reports each request that one of the workers runs, and each once. */
  lemma {:induction false} EvictionReport(s: State, ws: seq<WorkerId>)
    requires Inv(s) && NoDup(ws) && forall w :: w in ws ==> w in s.workers
    ensures NoDup(RunningInTurn(s.workers, ws))
    ensures forall id :: id in RunningInTurn(s.workers, ws) <==> RunsOnOne(s, ws, id)
    decreases |ws|
  {
    if ws != [] {
      forall w | w in Init(ws) ensures w in ws {}
      InitThenOne(ws, Last(ws));
      EvictionReport(s, Init(ws));
      ListsOnce(s, Last(ws));
      forall id ensures id in RunningInTurn(s.workers, ws) <==> RunsOnOne(s, ws, id) {
        RunsOnInit(s, ws, id);
      }
      forall id | id in RunningInTurn(s.workers, Init(ws)) ensures id !in s.workers[Last(ws)].inFlight {
        RunsOnNoOther(s, Init(ws), Last(ws), id);
      }
      NoDupConcat(RunningInTurn(s.workers, Init(ws)), s.workers[Last(ws)].inFlight);
    }
  }

  // ---- a lost worker ----

  function LossOf(active: map<RequestId, Active>, id: RequestId): Option<FailureReason> {
    if id in active && active[id].InFlight? && !Requeueable(active, id)
    then Some(if active[id].cancellation.Some? then RequestAlreadyCanceled else MaxRequeuesExceeded)
    else None
  }

  /** The failures among a lost worker's requests, in the order of `ids`. */
  function LostFailures(active: map<RequestId, Active>, ids: seq<RequestId>): seq<RequestFailure> {
    if ids == [] then []
    else
      var init, loss := LostFailures(active, Init(ids)), LossOf(active, Last(ids));
      if loss.Some? then init + [RequestFailure(Last(ids), loss.value)] else init
  }

  lemma LostFailuresNext(active: map<RequestId, Active>, l: seq<RequestId>, i: nat)
    requires i < |l|
    ensures var loss := LossOf(active, l[i]);
      LostFailures(active, l[..i + 1])
      == LostFailures(active, l[..i]) + if loss.Some? then [RequestFailure(l[i], loss.value)] else []
  {
    assert Init(l[..i + 1]) == l[..i];
  }

  /** A loss reports each request that fails, once, with the reason its client is given. */
  lemma {:induction false} LossReport(active: map<RequestId, Active>, ids: seq<RequestId>)
    requires NoDup(ids)
    ensures NoDup(LostFailures(active, ids))
    ensures forall f: RequestFailure :: f in LostFailures(active, ids) <==>
      f.id in LostReasons(active, ids) && LostReasons(active, ids)[f.id] == f.why
    decreases |ids|
  {
    if ids != [] {
      LossReport(active, Init(ids));
      assert ids == Init(ids) + [Last(ids)];
      assert Last(ids) !in Init(ids);
    }
  }

  function IdsInOrder(q: seq<Request>): seq<RequestId> {
    seq(|q|, i requires 0 <= i < |q| => q[i].id)
  }

  /** What the caller is told of a registered worker's loss. */
  function LossOutcome(s: State, w: WorkerId): DisconnectOutcome
    requires w in s.workers
  {
    var l := s.workers[w].inFlight;
    DisconnectOutcome(IdsInOrder(RequeuedRecords(s.active, l)), LostFailures(s.active, l))
  }

  lemma {:induction false} RequeuedIds(active: map<RequestId, Active>, l: seq<RequestId>)
    requires forall id :: id in l && id in active ==> active[id].request.id == id
    ensures IdsInOrder(RequeuedRecords(active, l)) == Filter(l, Kept(active))
    decreases |l|
  {
    if l != [] {
      assert l[|l| - 1] in l;
      forall id | id in l[..|l| - 1] ensures id in l {}
      RequeuedIds(active, l[..|l| - 1]);
    }
  }

  lemma OwnIds(s: State, l: seq<RequestId>)
    requires Inv(s)
    ensures forall id :: id in l && id in s.active ==> s.active[id].request.id == id
  {}

  /** The report of a loss: the requests put back, in the order the worker was running them,
      and each that fails, once, with the reason its client is given. */
  lemma LossIsReported(s: State, w: WorkerId)
    requires Inv(s) && w in s.workers
    ensures var l, outcome := s.workers[w].inFlight, LossOutcome(s, w);
      outcome.requeued == Filter(l, Kept(s.active)) && NoDup(outcome.failed)
      && forall f: RequestFailure :: f in outcome.failed <==>
           f.id in LostReasons(s.active, l) && LostReasons(s.active, l)[f.id] == f.why
  {
    ListsOnce(s, w);
    OwnIds(s, s.workers[w].inFlight);
    RequeuedIds(s.active, s.workers[w].inFlight);
    LossReport(s.active, s.workers[w].inFlight);
  }

  // ---- timed out requests ----

  function ExpiredList(q: seq<Request>, policy: Policy, now: nat): seq<RequestId> {
    if q == [] then []
    else ExpiredList(Init(q), policy, now) + if Expired(policy, Last(q), now) then [Last(q).id] else []
  }

  lemma ExpiredListNext(q: seq<Request>, i: nat, policy: Policy, now: nat)
    requires i < |q|
    ensures ExpiredList(q[..i + 1], policy, now)
         == ExpiredList(q[..i], policy, now) + if Expired(policy, q[i], now) then [q[i].id] else []
  {
    assert Init(q[..i + 1]) == q[..i];
  }

  /** One more turn of the loop over a timed queue. */
  lemma ExpireTurn(s: State, q: seq<Request>, i: nat, policy: Policy, now: nat, expired: seq<RequestId>,
                   retained: seq<Request>)
    requires i < |q| && expired == ExpiredList(q[..i], policy, now)
    requires retained == Filter(q[..i], Unexpired(policy, now))
    ensures Expired(policy, q[i], now) ==>
      expired + [q[i].id] == ExpiredList(q[..i + 1], policy, now)
      && retained == Filter(q[..i + 1], Unexpired(policy, now))
      && s.active - Elements(expired) - {q[i].id} == s.active - Elements(expired + [q[i].id])
    ensures !Expired(policy, q[i], now) ==>
      expired == ExpiredList(q[..i + 1], policy, now)
      && retained + [q[i]] == Filter(q[..i + 1], Unexpired(policy, now))
  {
    FilterNext(q, i, Unexpired(policy, now));
    ExpiredListNext(q, i, policy, now);
    ForgetNext(s, expired, q[i].id);
  }

  lemma {:induction false} ExpiredListAre(q: seq<Request>, policy: Policy, now: nat)
    ensures Elements(ExpiredList(q, policy, now)) == ExpiredOf(q, policy, now)
    decreases |q|
  {
    if q != [] {
      ExpiredListAre(Init(q), policy, now);
      ElementsJoin(ExpiredList(Init(q), policy, now), if Expired(policy, Last(q), now) then [Last(q).id] else []);
      ExpiredNext(q, |q| - 1, policy, now);
      assert q[..|q| - 1 + 1] == q;
    } else {
      assert ExpiredOf(q, policy, now) == {};
    }
  }

  lemma {:induction false} UntimedListsNothing(q: seq<Request>, policy: Policy, now: nat)
    requires policy.timeout == None
    ensures ExpiredList(q, policy, now) == []
    decreases |q|
  {
    if q != [] {
      UntimedListsNothing(Init(q), policy, now);
      assert !Expired(policy, Last(q), now);
    }
  }

  /** What expires of the given queues, queue by queue. */
  function ExpiredInTurn(s: State, keys: seq<string>, now: nat): seq<RequestId> {
    if keys == [] then []
    else ExpiredInTurn(s, Init(keys), now) + ExpiredList(s.Queue(Last(keys)), s.PolicyOf(Last(keys)), now)
  }

  lemma ExpiredInTurnNext(s: State, keys: seq<string>, p: string, now: nat)
    ensures ExpiredInTurn(s, keys + [p], now)
         == ExpiredInTurn(s, keys, now) + ExpiredList(s.Queue(p), s.PolicyOf(p), now)
  {
    assert Init(keys + [p]) == keys;
  }

  /** An id of the list belongs to a request waiting in one of the queues. */
  ghost predicate WaitsInOne(s: State, keys: seq<string>, id: RequestId) {
    exists p, r :: p in keys && Waits(s)(p, r) && r.id == id
  }

  lemma {:induction false} ListedWait(s: State, keys: seq<string>, now: nat, id: RequestId)
    requires id in ExpiredInTurn(s, keys, now)
    ensures WaitsInOne(s, keys, id)
    decreases |keys|
  {
    var p := Last(keys);
    if id in ExpiredInTurn(s, Init(keys), now) {
      ListedWait(s, Init(keys), now, id);
      var q, r :| q in Init(keys) && Waits(s)(q, r) && r.id == id;
      assert q in keys;
    } else {
      ExpiredListAre(s.Queue(p), s.PolicyOf(p), now);
      assert id in Elements(ExpiredList(s.Queue(p), s.PolicyOf(p), now));
      var r :| r in s.Queue(p) && r.id == id;
      assert Waits(s)(p, r);
    }
  }

  lemma SameIdSamePlace(s: State, p: string, q: string, a: Request, b: Request)
    requires Inv(s) && Waits(s)(p, a) && Waits(s)(q, b) && a.id == b.id
    ensures p == q && a == b
  {}

  lemma {:induction false} ListedOnce(q: seq<Request>, policy: Policy, now: nat)
    requires Fifo.Distinct(q)
    ensures NoDup(ExpiredList(q, policy, now))
    decreases |q|
  {
    if q != [] {
      var init, last := Init(q), Last(q);
      ListedOnce(init, policy, now);
      ExpiredListAre(init, policy, now);
      forall r | r in init ensures r.id != last.id {
        var i :| 0 <= i < |init| && init[i] == r;
        assert q[i] == r && q[|q| - 1] == last;
      }
      assert last.id !in Elements(ExpiredList(init, policy, now));
    }
  }

  lemma QueueListedOnce(s: State, p: string, now: nat)
    requires Inv(s)
    ensures NoDup(ExpiredList(s.Queue(p), s.PolicyOf(p), now))
  {
    Fifo.QueuesDistinct(s, p);
    ListedOnce(s.Queue(p), s.PolicyOf(p), now);
  }

  /** A sweep reports each expired request once, whichever order it visits the queues in. */
  lemma {:induction false} SweepReport(s: State, keys: seq<string>, now: nat)
    requires Inv(s) && NoDup(keys)
    ensures NoDup(ExpiredInTurn(s, keys, now))
    decreases |keys|
  {
    if keys != [] {
      var p := Last(keys);
      SweepReport(s, Init(keys), now);
      QueueListedOnce(s, p, now);
      var a, b := ExpiredInTurn(s, Init(keys), now), ExpiredList(s.Queue(p), s.PolicyOf(p), now);
      forall id | id in a ensures id !in b {
        if id in b {
          NotListedTwice(s, keys, now, id);
        }
      }
      NoDupConcat(a, b);
    }
  }

  lemma {:induction false} ListedAreExpired(s: State, keys: seq<string>, now: nat)
    requires forall p :: p in keys ==> p in s.queues
    ensures Elements(ExpiredInTurn(s, keys, now)) == ExpiredFrom(s, Elements(keys), now)
    decreases |keys|
  {
    if keys == [] {
      ExpiredNowhere(s, now);
      assert Elements(keys) == {};
    } else {
      var init, p := Init(keys), Last(keys);
      forall q | q in init ensures q in keys {}
      ListedAreExpired(s, init, now);
      assert keys == init + [p];
      ElementsJoin(init, [p]);
      assert Elements([p]) == {p};
      ExpiredInNext(s, Elements(init), p, now);
      ExpiredListAre(s.queues[p], s.PolicyOf(p), now);
      ElementsJoin(ExpiredInTurn(s, init, now), ExpiredList(s.queues[p], s.PolicyOf(p), now));
    }
  }

  /** The report of a sweep: exactly the expired requests, each once. */
  lemma SweepIsReported(s: State, turns: seq<string>, now: nat)
    requires Inv(s) && NoDup(turns) && Elements(turns) == s.queues.Keys
    ensures NoDup(ExpiredInTurn(s, turns, now)) && Elements(ExpiredInTurn(s, turns, now)) == ExpiredIds(s, now)
  {
    SweepReport(s, turns, now);
    assert forall p :: p in turns ==> p in Elements(turns);
    ListedAreExpired(s, turns, now);
    ExpiredEverywhere(s, now);
  }

  lemma NotListedTwice(s: State, keys: seq<string>, now: nat, id: RequestId)
    requires Inv(s) && NoDup(keys) && keys != [] && id in ExpiredInTurn(s, Init(keys), now)
    ensures id !in ExpiredList(s.Queue(Last(keys)), s.PolicyOf(Last(keys)), now)
  {
    var p := Last(keys);
    ListedWait(s, Init(keys), now, id);
    var q, r :| q in Init(keys) && Waits(s)(q, r) && r.id == id;
    ExpiredListAre(s.Queue(p), s.PolicyOf(p), now);
    if id in Elements(ExpiredList(s.Queue(p), s.PolicyOf(p), now)) {
      var x :| x in s.Queue(p) && x.id == id;
      SameIdSamePlace(s, p, q, x, r);
    }
  }

  /** One more queue visited. */
  lemma TurnTaken(s: State, keys: set<string>, turns: seq<string>, p: string, now: nat)
    requires p in keys && keys <= s.queues.Keys && NoDup(turns) && Elements(turns) == s.queues.Keys - keys
    ensures NoDup(turns + [p]) && Elements(turns + [p]) == s.queues.Keys - (keys - {p})
    ensures ExpiredInTurn(s, turns + [p], now)
         == ExpiredInTurn(s, turns, now) + ExpiredList(s.queues[p], s.PolicyOf(p), now)
  {
    assert p !in Elements(turns);
    assert Elements(turns + [p]) == Elements(turns) + {p};
    ExpiredInTurnNext(s, turns, p, now);
  }

  /** One more turn of the loop over the queues. */
  lemma SweepTurn(s: State, keys: set<string>, turns: seq<string>, failed: seq<RequestId>, p: string, now: nat)
    requires p in keys && keys <= s.queues.Keys && NoDup(turns) && Elements(turns) == s.queues.Keys - keys
    requires failed == ExpiredInTurn(s, turns, now) && Elements(failed) == ExpiredFrom(s, s.queues.Keys - keys, now)
    ensures NoDup(turns + [p]) && Elements(turns + [p]) == s.queues.Keys - (keys - {p}) && |keys - {p}| < |keys|
    ensures var t, more := Collected(s, keys, now), ExpiredList(s.queues[p], s.PolicyOf(p), now);
      p in t.queues && t.queues[p] == s.queues[p]
      && failed + more == ExpiredInTurn(s, turns + [p], now)
      && Elements(failed + more) == ExpiredFrom(s, s.queues.Keys - (keys - {p}), now)
      && Collected(s, keys - {p}, now)
         == t.(active := t.active - Elements(more),
               queues := t.queues[p := Filter(s.queues[p], Unexpired(s.PolicyOf(p), now))])
      && (s.PolicyOf(p).timeout == None ==> failed + more == failed && Collected(s, keys - {p}, now) == t)
  {
    var more := ExpiredList(s.queues[p], s.PolicyOf(p), now);
    CollectTurn(s, keys, p, now);
    TurnTaken(s, keys, turns, p, now);
    ExpiredListAre(s.queues[p], s.PolicyOf(p), now);
    ElementsJoin(failed, more);
    if s.PolicyOf(p).timeout == None {
      CollectSkip(s, keys, p, now);
      UntimedListsNothing(s.queues[p], s.PolicyOf(p), now);
    }
  }
}
