/** The core simulates the dispatch harness: on what they share, every core operation is
    matched by the harness operation of the same name, so that a run of the core is a run of
    the harness through corresponding states, with the same assignments and refusals. */
module Simulation {
  import opened Seqs
  import opened RelayState
  import opened Moves
  import opened Index
  import opened Selection
  import opened Spec
  import opened Traces
  import opened Loops
  import opened Reports
  import opened Conservation
  import opened Answers
  import H = DispatchHarness

  // ---- how the two states correspond ----

  function MemberOf(w: Worker): H.Member { H.Member(w.provider, w.models, w.maxConcurrent, w.inFlight, w.deadline) }

  function RecordOf(r: Request): H.Record { H.Record(r.id, r.provider, r.model, r.queuedAt, r.requeues) }

  function EntryOf(a: Active): H.Entry {
    match a
    case Queued(r) => H.Pending(RecordOf(r))
    case InFlight(r, w, _) => H.Running(RecordOf(r), w)
  }

  ghost predicate SameRecords(q: seq<Request>, k: seq<H.Record>) {
    |q| == |k| && forall i :: 0 <= i < |q| ==> k[i] == RecordOf(q[i])
  }

  ghost predicate SameWorkers(workers: map<WorkerId, Worker>, members: map<WorkerId, H.Member>) {
    workers.Keys == members.Keys && forall w :: w in workers ==> members[w] == MemberOf(workers[w])
  }

  ghost predicate SameQueues(queues: map<string, seq<Request>>, records: map<string, seq<H.Record>>) {
    queues.Keys == records.Keys && forall p :: p in queues ==> SameRecords(queues[p], records[p])
  }

  ghost predicate SameEntries(active: map<RequestId, Active>, entries: map<RequestId, H.Entry>) {
    active.Keys == entries.Keys && forall id :: id in active ==> entries[id] == EntryOf(active[id])
  }

  predicate Cancelled(a: Active) { a.InFlight? && a.cancellation.Some? }

  ghost predicate SameCanceled(active: map<RequestId, Active>, next: nat, canceled: set<RequestId>) {
    (forall id :: id in active ==> (id in canceled <==> Cancelled(active[id])))
    && forall id :: id in canceled ==> id < next
  }

  ghost predicate Sim(s: State, h: H.Harness) {
    h.nextRequest == s.nextRequest && h.nextWorker == s.nextWorker && h.order == s.order
    && h.policies == s.policies && h.cursors == s.cursors && h.signals == s.history.raised
    && SameWorkers(s.workers, h.members) && SameQueues(s.queues, h.queues) && SameEntries(s.active, h.entries)
    && SameCanceled(s.active, s.nextRequest, h.canceled)
  }

  // ---- what they share ----

  /** One provider, exact model names, no endpoint prefixes, no routing, and a reported load
      that is the number of requests in flight. */
  predicate PlainWorker(w: Worker, p: string) {
    w.provider == p && WILDCARD !in w.models && w.prefixes == [] && w.reportedLoad == |w.inFlight|
  }

  predicate PlainRequest(r: Request, p: string) { r.provider == p && r.routing == None }

  ghost predicate Plain(s: State, p: string) {
    (forall w :: w in s.workers ==> PlainWorker(s.workers[w], p))
    && (forall id :: id in s.active ==> PlainRequest(s.active[id].request, p))
    && forall q :: q in s.queues ==> q == p
  }

  predicate Shared(s: State, op: Op, p: string) {
    match op
    case Register(q, models, prefixes, _, load) => q == p && WILDCARD !in models && prefixes == [] && load.GetOr(0) == 0
    case UpdateModels(w, models, current) => WILDCARD !in models
      && (w in s.workers ==> current == |s.workers[w].inFlight|)
    case Pong(w, current) => w in s.workers ==> current == |s.workers[w].inFlight|
    case Submit(x) => x.want.provider == p && x.want.routing == None
    case CancelRequest(id, _) => id in s.active && s.active[id].InFlight? ==> s.active[id].cancellation == None
    case BeginShutdown(_, _, _) => forall w :: w in s.workers ==> !s.workers[w].Draining()
    case DisconnectIfDrained(w) => !Drained(s, w)
    case _ => true
  }

  /** A sound core of the shared kind, and a harness in the corresponding state. */
  ghost predicate Matched(s: State, h: H.Harness, p: string) {
    Inv(s) && Sim(s, h) && Plain(s, p)
  }

  // ---- records ----

  lemma SameAfterRemove(q: seq<Request>, k: seq<H.Record>, i: nat)
    requires SameRecords(q, k) && i < |q|
    ensures SameRecords(RemoveAt(q, i), RemoveAt(k, i))
  {}

  lemma SameAfterJoin(a: seq<Request>, b: seq<Request>, c: seq<H.Record>, d: seq<H.Record>)
    requires SameRecords(a, c) && SameRecords(b, d)
    ensures SameRecords(a + b, c + d)
  {}

  lemma {:induction false} SameAfterFilter(q: seq<Request>, k: seq<H.Record>, policy: Policy, now: nat)
    requires SameRecords(q, k)
    ensures SameRecords(Filter(q, Unexpired(policy, now)), Filter(k, H.Unexpired(policy, now)))
  {
    if q != [] {
      SameAfterFilter(q[..|q| - 1], k[..|k| - 1], policy, now);
    }
  }

  lemma SameQueue(s: State, h: H.Harness, p: string)
    requires SameQueues(s.queues, h.queues)
    ensures SameRecords(s.Queue(p), h.Queue(p))
  {}

  // ---- dispatching ----

  lemma PlainServes(w: Worker, r: Request, p: string)
    requires PlainWorker(w, p)
    ensures w.Serves(r) <==> r.model in w.models
    ensures w.SelectionLoad() == |w.inFlight|
    ensures w.HasCapacity() <==> MemberOf(w).Free()
  {}

  lemma SameFirst(s: State, h: H.Harness, p: string, w: WorkerId, i: nat)
    requires Sim(s, h) && Plain(s, p) && w in s.workers
    ensures FirstServed(s, w, p, i) <==> H.FirstCompatible(h, w, i)
  {
    SameQueue(s, h, p);
    forall r: Request ensures s.workers[w].Serves(r) <==> r.model in h.members[w].models {
      PlainServes(s.workers[w], r, p);
    }
    if p in s.queues {
      forall j | 0 <= j < |s.queues[p]|
        ensures s.workers[w].Serves(s.queues[p][j]) <==> h.Queue(p)[j].model in h.members[w].models
      {
        assert h.Queue(p)[j] == RecordOf(s.queues[p][j]);
      }
    }
  }

  lemma AssignMatches(s: State, h: H.Harness, w: WorkerId, r: Request)
    requires SameWorkers(s.workers, h.members) && SameEntries(s.active, h.entries) && w in s.workers
    requires r.id !in h.canceled && SameCanceled(s.active, s.nextRequest, h.canceled)
    ensures var t, k := Assign(s, w, r), H.Assigned(h, w, RecordOf(r));
      SameWorkers(t.workers, k.members) && SameEntries(t.active, k.entries)
      && SameCanceled(t.active, t.nextRequest, k.canceled)
  {}

  lemma AssignStaysPlain(s: State, p: string, w: WorkerId, r: Request)
    requires Plain(s, p) && w in s.workers && PlainRequest(r, p) && |s.workers[w].inFlight| < USIZE_MAX
    ensures Plain(Assign(s, w, r), p)
  {}

  /** A waiting request is not a cancelled one. */
  lemma WaitingIsPlain(s: State, h: H.Harness, p: string, q: string, i: nat)
    requires Inv(s) && Sim(s, h) && Plain(s, p) && q in s.queues && i < |s.queues[q]|
    ensures q == p && PlainRequest(s.queues[q][i], p) && s.queues[q][i].id !in h.canceled
  {
    assert Waits(s)(q, s.queues[q][i]);
  }

  lemma UnqueuedMatches(s: State, h: H.Harness, p: string, i: nat)
    requires Sim(s, h) && p in s.queues && i < |s.queues[p]|
    ensures Sim(Unqueued(s, p, i), h.(queues := h.queues[p := RemoveAt(h.Queue(p), i)]))
    ensures h.Queue(p)[i] == RecordOf(s.queues[p][i])
  {
    SameQueue(s, h, p);
    SameAfterRemove(s.queues[p], h.queues[p], i);
  }

  lemma AssignedSim(s: State, h: H.Harness, w: WorkerId, r: Request)
    requires Sim(s, h) && w in s.workers && r.id !in h.canceled
    ensures Sim(Assign(s, w, r), H.Assigned(h, w, RecordOf(r)))
  {
    AssignMatches(s, h, w, r);
  }

  lemma PullMatches(s: State, h: H.Harness, p: string, w: WorkerId, i: nat)
    requires Inv(s) && Sim(s, h) && Plain(s, p) && w in s.workers && s.workers[w].HasCapacity()
    requires p in s.queues && i < |s.queues[p]|
    ensures i < |h.Queue(h.members[w].provider)| && Sim(Pulled(s, w, p, i), H.Taken(h, w, i))
  {
    WaitingIsPlain(s, h, p, p, i);
    UnqueuedMatches(s, h, p, i);
    SameQueue(s, h, p);
    AssignedSim(Unqueued(s, p, i), h.(queues := h.queues[p := RemoveAt(h.Queue(p), i)]), w, s.queues[p][i]);
  }

  lemma PullStaysPlain(s: State, p: string, w: WorkerId, i: nat)
    requires Inv(s) && Plain(s, p) && w in s.workers && s.workers[w].HasCapacity()
    requires p in s.queues && i < |s.queues[p]|
    ensures Plain(Pulled(s, w, p, i), p)
  {
    assert Waits(s)(p, s.queues[p][i]);
    AssignStaysPlain(Unqueued(s, p, i), p, w, s.queues[p][i]);
  }

  lemma TakenIsDispatch(h: H.Harness, w: WorkerId, i: nat)
    requires w in h.members && h.members[w].Free() && H.FirstCompatible(h, w, i)
    ensures H.Dispatches(h, w, Some(h.Queue(h.members[w].provider)[i].id), H.Taken(h, w, i))
  {}

  lemma BestPickIsFirst(s: State, h: H.Harness, p: string, w: WorkerId, i: nat)
    requires Sim(s, h) && Plain(s, p) && Room(s, w) && FirstServed(s, w, p, i)
    ensures w in h.members && h.members[w].Free() && H.FirstCompatible(h, w, i)
    ensures h.Queue(h.members[w].provider)[i].id == s.queues[p][i].id
  {
    SameFirst(s, h, p, w, i);
    SameQueue(s, h, p);
    PlainServes(s.workers[w], s.queues[p][i], p);
  }

  lemma PullIsDispatch(s: State, h: H.Harness, p: string, w: WorkerId, id: RequestId, t: State) returns (k: H.Harness)
    requires Inv(s) && Sim(s, h) && Plain(s, p) && PullsOne(s, w, id, t)
    ensures H.Dispatches(h, w, Some(id), k) && Sim(t, k) && Plain(t, p)
  {
    var q, i: nat :| BestPick(s, w, q, i) && s.queues[q][i].id == id && t == Pulled(s, w, q, i);
    BestPickIsFirst(s, h, p, w, i);
    PullMatches(s, h, p, w, i);
    PullStaysPlain(s, p, w, i);
    TakenIsDispatch(h, w, i);
    k := H.Taken(h, w, i);
  }

  lemma IdleIsNoDispatch(s: State, h: H.Harness, p: string, w: WorkerId)
    requires Sim(s, h) && Plain(s, p) && Idle(s, w)
    ensures H.Dispatches(h, w, None, h)
  {
    if w in h.members && h.members[w].Free() {
      PlainServes(s.workers[w], Request(0, "", "", 0, "", false, None, 0), p);
      forall i: nat ensures !H.FirstCompatible(h, w, i) {
        SameFirst(s, h, p, w, i);
      }
    }
  }

  lemma PulledKeeps(s: State, w: WorkerId, id: RequestId, t: State)
    requires Inv(s) && PullsOne(s, w, id, t)
    ensures Inv(t)
  {
    var m := PullRuns(s, w, id, t);
    MoveKeeps(s, m);
  }

  lemma PullCompares(s: State, h: H.Harness, p: string, w: WorkerId, id: RequestId, t: State) returns (k: H.Harness)
    requires Matched(s, h, p) && PullsOne(s, w, id, t)
    ensures H.Dispatches(h, w, Some(id), k) && Matched(t, k, p)
    ensures w in s.workers && w in t.workers && t.workers[w].maxConcurrent == s.workers[w].maxConcurrent
    ensures |t.workers[w].inFlight| == |s.workers[w].inFlight| + 1 <= s.workers[w].maxConcurrent
  {
    k := PullIsDispatch(s, h, p, w, id, t);
    PulledKeeps(s, w, id, t);
    PullGrows(s, w, id, t);
  }

  // ---- several dispatches in a row ----

  lemma DrainFirst(s: State, w: WorkerId, got: seq<RequestId>, t: State) returns (mid: State)
    requires Drains(s, w, got, t) && got != []
    ensures PullsOne(s, w, got[0], mid) && Drains(mid, w, got[1..], t)
  {
    mid :| PullsOne(s, w, got[0], mid) && Drains(mid, w, got[1..], t);
  }

  lemma DrainNone(s: State, w: WorkerId, t: State)
    requires Drains(s, w, [], t)
    ensures t == s && Idle(s, w)
  {}

  lemma {:induction false} DrainFills(s: State, w: WorkerId, got: seq<RequestId>, t: State)
    requires Drains(s, w, got, t) && w in s.workers && |s.workers[w].inFlight| <= s.workers[w].maxConcurrent
    ensures |s.workers[w].inFlight| + |got| <= s.workers[w].maxConcurrent
    decreases |got|
  {
    if got != [] {
      var mid := DrainFirst(s, w, got, t);
      PullGrows(s, w, got[0], mid);
      DrainFills(mid, w, got[1..], t);
    }
  }

  lemma UpToNone(h: H.Harness, w: WorkerId, n: nat)
    requires H.Dispatches(h, w, None, h)
    ensures H.DispatchesUpTo(h, w, n, [], h)
  {}

  lemma UpToCons(h: H.Harness, w: WorkerId, n: nat, got: seq<RequestId>, mid: H.Harness, k: H.Harness)
    requires got != [] && n > 0 && H.Dispatches(h, w, Some(got[0]), mid) && H.DispatchesUpTo(mid, w, n - 1, got[1..], k)
    ensures H.DispatchesUpTo(h, w, n, got, k)
  {}

  lemma IdleCompares(s: State, h: H.Harness, p: string, w: WorkerId)
    requires Matched(s, h, p) && Idle(s, w)
    ensures H.Dispatches(h, w, None, h)
  {
    IdleIsNoDispatch(s, h, p, w);
  }

  /** The harness has a loop of at most n dispatches from h to a state corresponding to t. */
  ghost predicate Reaches(h: H.Harness, w: WorkerId, n: nat, got: seq<RequestId>, t: State, p: string) {
    exists k :: H.DispatchesUpTo(h, w, n, got, k) && Matched(t, k, p)
  }

  ghost predicate AlwaysReaches(s: State, w: WorkerId, n: nat, got: seq<RequestId>, t: State, p: string) {
    forall h :: Matched(s, h, p) ==> Reaches(h, w, n, got, t, p)
  }

  lemma DrainEnds(s: State, p: string, w: WorkerId, t: State, n: nat)
    requires Drains(s, w, [], t)
    ensures AlwaysReaches(s, w, n, [], t, p)
  {
    DrainNone(s, w, t);
    forall h | Matched(s, h, p) ensures Reaches(h, w, n, [], t, p) {
      IdleCompares(s, h, p, w);
      UpToNone(h, w, n);
      assert H.DispatchesUpTo(h, w, n, [], h) && Matched(t, h, p);
    }
  }

  lemma ReachesCons(h: H.Harness, w: WorkerId, n: nat, got: seq<RequestId>, next: H.Harness, t: State, p: string)
    requires got != [] && n > 0 && H.Dispatches(h, w, Some(got[0]), next) && Reaches(next, w, n - 1, got[1..], t, p)
    ensures Reaches(h, w, n, got, t, p)
  {
    var k :| H.DispatchesUpTo(next, w, n - 1, got[1..], k) && Matched(t, k, p);
    UpToCons(h, w, n, got, next, k);
  }

  lemma DrainGoesOn(s: State, p: string, w: WorkerId, got: seq<RequestId>, mid: State, t: State, n: nat)
    requires got != [] && n > 0 && PullsOne(s, w, got[0], mid) && AlwaysReaches(mid, w, n - 1, got[1..], t, p)
    ensures AlwaysReaches(s, w, n, got, t, p)
  {
    forall h | Matched(s, h, p) ensures Reaches(h, w, n, got, t, p) {
      var next := PullCompares(s, h, p, w, got[0], mid);
      ReachesCons(h, w, n, got, next, t, p);
    }
  }

  /** A drain of a worker with room for n more is the harness's loop of at most n dispatches. */
  lemma {:induction false} DrainMatches(s: State, p: string, w: WorkerId, got: seq<RequestId>, t: State, n: nat)
    requires Drains(s, w, got, t) && |got| <= n
    ensures AlwaysReaches(s, w, n, got, t, p)
    decreases |got|
  {
    if got == [] {
      DrainEnds(s, p, w, t, n);
    } else {
      var mid := DrainFirst(s, w, got, t);
      DrainMatches(mid, p, w, got[1..], t, n - 1);
      DrainGoesOn(s, p, w, got, mid, t, n);
    }
  }

  lemma DrainCompares(s: State, h: H.Harness, p: string, w: WorkerId, got: seq<RequestId>, t: State)
    returns (k: H.Harness)
    requires Matched(s, h, p) && Drains(s, w, got, t) && w in s.workers
    requires |s.workers[w].inFlight| <= s.workers[w].maxConcurrent
    ensures H.DispatchesUpTo(h, w, s.workers[w].maxConcurrent, got, k) && Matched(t, k, p)
  {
    DrainFills(s, w, got, t);
    DrainMatches(s, p, w, got, t, s.workers[w].maxConcurrent);
    k :| H.DispatchesUpTo(h, w, s.workers[w].maxConcurrent, got, k) && Matched(t, k, p);
  }

  // ---- reports ----

  lemma TunedCompares(s: State, h: H.Harness, p: string, w: WorkerId, models: seq<string>)
    requires Matched(s, h, p) && w in s.workers && WILDCARD !in models
    ensures w in h.members
    ensures Matched(Tuned(s, w, models, |s.workers[w].inFlight|),
                    h.(members := h.members[w := h.members[w].(models := models)]), p)
  {
    TunedKeepsIndex(s, w, models);
    TunedSim(s, h, w, models);
    TunedStaysPlain(s, p, w, models);
  }

  lemma TunedKeepsIndex(s: State, w: WorkerId, models: seq<string>)
    requires Inv(s) && w in s.workers
    ensures Inv(Tuned(s, w, models, |s.workers[w].inFlight|))
  {
    TuneKeeps(s, Tuned(s, w, models, |s.workers[w].inFlight|), w);
  }

  lemma TunedSim(s: State, h: H.Harness, w: WorkerId, models: seq<string>)
    requires Sim(s, h) && w in s.workers
    ensures w in h.members
    ensures Sim(Tuned(s, w, models, |s.workers[w].inFlight|),
                h.(members := h.members[w := h.members[w].(models := models)]))
  {}

  lemma TunedStaysPlain(s: State, p: string, w: WorkerId, models: seq<string>)
    requires Plain(s, p) && w in s.workers && WILDCARD !in models
    ensures Plain(Tuned(s, w, models, |s.workers[w].inFlight|), p)
  {}

  lemma CapacityKept(s: State, w: WorkerId)
    requires Inv(s) && w in s.workers
    ensures |s.workers[w].inFlight| <= s.workers[w].maxConcurrent
  {}

  /** A report of new models, with the load the core already assumes. */
  lemma RetuneMatches(s: State, h: H.Harness, p: string, w: WorkerId, models: seq<string>, load: nat,
                      got: seq<RequestId>, t: State)
    returns (k: H.Harness)
    requires Matched(s, h, p) && Retunes(s, w, models, load, got, t) && WILDCARD !in models
    requires w in s.workers ==> load == |s.workers[w].inFlight|
    ensures H.UpdatesModels(h, w, models, got, k) && Matched(t, k, p)
  {
    if w in s.workers {
      TunedCompares(s, h, p, w, models);
      var u := Tuned(s, w, models, load);
      CapacityKept(s, w);
      k := DrainCompares(u, h.(members := h.members[w := h.members[w].(models := models)]), p, w, got, t);
    } else {
      k := h;
    }
  }

  // ---- submissions ----

  lemma SameEligible(s: State, h: H.Harness, p: string, want: Wanted, pos: int)
    requires Sim(s, h) && Plain(s, p) && want.provider == p
    ensures Selection.Eligible(s, Named(p), want, pos) <==> H.Eligible(h, p, want.model, pos)
    ensures Selection.Eligible(s, Anyone, want, pos) <==> H.Eligible(h, p, want.model, pos)
    ensures H.Eligible(h, p, want.model, pos) ==> Selection.LoadAt(s, pos) == H.LoadAt(h, pos)
  {
    if 0 <= pos < |s.order| && s.order[pos] in s.workers {
      PlainServes(s.workers[s.order[pos]], Request(0, p, want.model, 0, want.path, false, None, 0), p);
    }
  }

  lemma SameLeast(s: State, h: H.Harness, p: string, want: Wanted, pos: int)
    requires Sim(s, h) && Plain(s, p) && want.provider == p
    ensures Selection.Least(s, Named(p), want, pos) <==> H.Least(h, p, want.model, pos)
  {
    forall q ensures Selection.Eligible(s, Named(p), want, q) <==> H.Eligible(h, p, want.model, q) {
      SameEligible(s, h, p, want, q);
    }
    forall q | H.Eligible(h, p, want.model, q) ensures Selection.LoadAt(s, q) == H.LoadAt(h, q) {
      SameEligible(s, h, p, want, q);
    }
  }

  /** An unrouted selection is the harness's pick. */
  lemma SamePick(s: State, h: H.Harness, p: string, want: Wanted, c: Option<Choice>)
    requires Sim(s, h) && Plain(s, p) && want.provider == p && SelectsUnrouted(s, want, c)
    ensures c.Some? <==> H.AnyEligible(h, p, want.model)
    ensures c.Some? ==> H.Picks(h, p, want.model, c.value.position) && c.value.worker == h.order[c.value.position]
    ensures c.Some? ==> c.value.key == SelectionKey(p, want.model)
  {
    forall q ensures Selection.Eligible(s, Named(p), want, q) <==> H.Eligible(h, p, want.model, q)
      ensures Selection.Eligible(s, Anyone, want, q) <==> H.Eligible(h, p, want.model, q) {
      SameEligible(s, h, p, want, q);
    }
    assert AnyEligible(s, Named(p), want) <==> AnyEligible(s, Anyone, want);
    if c.Some? {
      forall q ensures Selection.Least(s, Named(p), want, q) <==> H.Least(h, p, want.model, q) {
        SameLeast(s, h, p, want, q);
      }
      assert H.Eligible(h, p, want.model, c.value.position);
    }
  }

  lemma FreshNotCanceled(s: State, h: H.Harness)
    requires Sim(s, h)
    ensures s.nextRequest !in h.canceled
  {}

  lemma AdmitSim(s: State, h: H.Harness, r: Request, w: WorkerId, key: SelectionKey, position: nat)
    requires Sim(s, h) && w in s.workers && Fresh(s, r)
    ensures w in h.members && Sim(Admitted(s, r, w, key, position), Picked(h, RecordOf(r), w, key, position))
  {
    FreshNotCanceled(s, h);
    AssignedSim(s.(nextRequest := s.nextRequest + 1, cursors := s.cursors[key := position]),
                h.(nextRequest := h.nextRequest + 1, cursors := h.cursors[key := position]), w, r);
  }

  lemma AdmitStaysPlain(s: State, p: string, r: Request, w: WorkerId, key: SelectionKey, position: nat)
    requires Listed(s) && Plain(s, p) && w in s.workers && s.workers[w].HasCapacity() && PlainRequest(r, p)
    ensures Plain(Admitted(s, r, w, key, position), p)
  {
    AssignStaysPlain(s.(nextRequest := s.nextRequest + 1, cursors := s.cursors[key := position]), p, w, r);
  }

  lemma EnqueueSim(s: State, h: H.Harness, r: Request)
    requires Sim(s, h) && Fresh(s, r)
    ensures Sim(Enqueued(s, r),
                h.(nextRequest := h.nextRequest + 1,
                   queues := h.queues[r.provider := h.Queue(r.provider) + [RecordOf(r)]],
                   entries := h.entries[r.id := H.Pending(RecordOf(r))]))
  {
    FreshNotCanceled(s, h);
    EnqueueSameQueues(s, h, r);
  }

  lemma EnqueueSameQueues(s: State, h: H.Harness, r: Request)
    requires SameQueues(s.queues, h.queues)
    ensures SameQueues(s.queues[r.provider := s.Queue(r.provider) + [r]],
                       h.queues[r.provider := h.Queue(r.provider) + [RecordOf(r)]])
  {
    SameQueue(s, h, r.provider);
    SameAfterJoin(s.Queue(r.provider), [r], h.Queue(r.provider), [RecordOf(r)]);
  }

  lemma EnqueueStaysPlain(s: State, p: string, r: Request)
    requires Plain(s, p) && PlainRequest(r, p)
    ensures Plain(Enqueued(s, r), p)
  {}

  lemma RefuseMatches(s: State, h: H.Harness, p: string)
    requires Inv(s) && Sim(s, h) && Plain(s, p)
    ensures Sim(Refused(s, p), h.(nextRequest := h.nextRequest + 1, queues := h.queues[p := h.Queue(p)]))
    ensures Plain(Refused(s, p), p)
  {
    SameQueue(s, h, p);
  }

  function Picked(h: H.Harness, r: H.Record, w: WorkerId, key: SelectionKey, position: nat): H.Harness
    requires w in h.members
  {
    H.Assigned(h.(nextRequest := h.nextRequest + 1, cursors := h.cursors[key := position]), w, r)
  }

  lemma PickedIsSubmitted(h: H.Harness, p: string, model: string, now: nat, pos: nat)
    requires H.Picks(h, p, model, pos)
    ensures h.order[pos] in h.members
    ensures H.Submits(h, p, model, now, H.Placement.Dispatched(h.nextRequest, h.order[pos]),
                      Picked(h, H.Record(h.nextRequest, p, model, now, 0), h.order[pos], SelectionKey(p, model), pos))
  {}

  lemma SelectionSubmits(s: State, h: H.Harness, p: string, x: Submission, c: Choice)
    requires Matched(s, h, p) && x.want.provider == p && SelectsUnrouted(s, x.want, Some(c))
    ensures c.worker in h.members && c.worker in s.workers && c.key == SelectionKey(p, x.want.model)
    ensures H.Submits(h, p, x.want.model, x.now, H.Placement.Dispatched(s.nextRequest, c.worker),
                      Picked(h, RecordOf(RequestOf(s, x)), c.worker, c.key, c.position))
  {
    SamePick(s, h, p, x.want, Some(c));
    PickedIsSubmitted(h, p, x.want.model, x.now, c.position);
  }

  lemma AdmitCompares(s: State, h: H.Harness, p: string, r: Request, w: WorkerId, key: SelectionKey, position: nat)
    requires Matched(s, h, p) && w in s.workers && s.workers[w].HasCapacity()
    requires Fresh(s, r) && PlainRequest(r, p)
    ensures w in h.members && Matched(Admitted(s, r, w, key, position), Picked(h, RecordOf(r), w, key, position), p)
  {
    AdmitKeeps(s, r, w, key, position);
    AdmitSim(s, h, r, w, key, position);
    AdmitStaysPlain(s, p, r, w, key, position);
  }

  lemma WaitingIsSubmitted(h: H.Harness, p: string, model: string, now: nat)
    requires !H.AnyEligible(h, p, model) && |h.Queue(p)| < h.PolicyOf(p).maxQueueLen
    ensures H.Submits(h, p, model, now, H.Placement.Waiting(h.nextRequest, |h.Queue(p)| + 1),
                      Joined(h, H.Record(h.nextRequest, p, model, now, 0)))
  {}

  lemma RefusalIsSubmitted(h: H.Harness, p: string, model: string, now: nat)
    requires !H.AnyEligible(h, p, model) && |h.Queue(p)| >= h.PolicyOf(p).maxQueueLen
    ensures H.Submits(h, p, model, now, H.Placement.Rejected(h.nextRequest), Turned(h, p))
  {}

  lemma NoSelectionMeans(s: State, h: H.Harness, p: string, x: Submission)
    requires Matched(s, h, p) && x.want.provider == p && SelectsUnrouted(s, x.want, None)
    ensures !H.AnyEligible(h, p, x.want.model) && |h.Queue(p)| == |s.Queue(p)| && h.PolicyOf(p) == s.PolicyOf(p)
    ensures h.nextRequest == s.nextRequest
  {
    SamePick(s, h, p, x.want, None);
    SameQueue(s, h, p);
  }

  function Joined(h: H.Harness, r: H.Record): H.Harness {
    h.(nextRequest := h.nextRequest + 1, queues := h.queues[r.provider := h.Queue(r.provider) + [r]],
       entries := h.entries[r.id := H.Pending(r)])
  }

  function Turned(h: H.Harness, p: string): H.Harness {
    h.(nextRequest := h.nextRequest + 1, queues := h.queues[p := h.Queue(p)])
  }

  lemma EnqueueCompares(s: State, h: H.Harness, p: string, r: Request)
    requires Matched(s, h, p) && Fresh(s, r) && PlainRequest(r, p)
    ensures Matched(Enqueued(s, r), Joined(h, RecordOf(r)), p)
  {
    EnqueueKeeps(s, r);
    EnqueueSim(s, h, r);
    EnqueueStaysPlain(s, p, r);
  }

  lemma RefuseCompares(s: State, h: H.Harness, p: string)
    requires Matched(s, h, p)
    ensures Matched(Refused(s, p), Turned(h, p), p)
  {
    QueueKeyKeeps(s, Refused(s, p), p);
    RefuseMatches(s, h, p);
  }

  lemma ChosenCompares(s: State, h: H.Harness, p: string, x: Submission, c: Choice)
    requires Matched(s, h, p) && x.want.provider == p && x.want.routing == None
    requires SelectsUnrouted(s, x.want, Some(c))
    ensures c.worker in h.members && c.worker in s.workers
    ensures Matched(Admitted(s, RequestOf(s, x), c.worker, c.key, c.position),
                    Picked(h, RecordOf(RequestOf(s, x)), c.worker, c.key, c.position), p)
  {
    SelectedHasRoom(s, x.want, c);
    AdmitCompares(s, h, p, RequestOf(s, x), c.worker, c.key, c.position);
  }

  lemma UnplacedMatches(s: State, h: H.Harness, p: string, x: Submission, out: Outcome, t: State) returns (k: H.Harness)
    requires Matched(s, h, p) && x.want.provider == p && x.want.routing == None
    requires SelectsUnrouted(s, x.want, None) && PlacesAs(s, RequestOf(s, x), None, out, t)
    ensures H.Submits(h, p, x.want.model, x.now, PlacementOf(out), k) && Matched(t, k, p)
  {
    NoSelectionMeans(s, h, p, x);
    if |s.Queue(p)| < s.PolicyOf(p).maxQueueLen {
      EnqueueCompares(s, h, p, RequestOf(s, x));
      WaitingIsSubmitted(h, p, x.want.model, x.now);
      k := Joined(h, RecordOf(RequestOf(s, x)));
    } else {
      RefuseCompares(s, h, p);
      RefusalIsSubmitted(h, p, x.want.model, x.now);
      k := Turned(h, p);
    }
  }

  lemma PlacedMatches(s: State, h: H.Harness, p: string, x: Submission, c: Choice, out: Outcome, t: State)
    returns (k: H.Harness)
    requires Matched(s, h, p) && x.want.provider == p && x.want.routing == None
    requires SelectsUnrouted(s, x.want, Some(c)) && PlacesAs(s, RequestOf(s, x), Some(c), out, t)
    ensures H.Submits(h, p, x.want.model, x.now, PlacementOf(out), k) && Matched(t, k, p)
  {
    SelectionSubmits(s, h, p, x, c);
    ChosenCompares(s, h, p, x, c);
    k := Picked(h, RecordOf(RequestOf(s, x)), c.worker, c.key, c.position);
  }

  /** The same worker, the same place in the queue, or a refusal by both, for whatever reason. */
  lemma PlaceMatches(s: State, h: H.Harness, p: string, x: Submission, out: Outcome, t: State) returns (k: H.Harness)
    requires Matched(s, h, p) && x.want.provider == p && x.want.routing == None
    requires Places(s, x, out, t)
    ensures H.Submits(h, p, x.want.model, x.now, PlacementOf(out), k) && Matched(t, k, p)
  {
    var c :| Selects(s, x.want, c) && PlacesAs(s, RequestOf(s, x), c, out, t);
    if c.Some? {
      k := PlacedMatches(s, h, p, x, c.value, out, t);
    } else {
      k := UnplacedMatches(s, h, p, x, out, t);
    }
  }

  /** Opening a reply channel concerns the core alone. */
  lemma OpenedCompares(s: State, h: H.Harness, p: string, id: RequestId, sender: Sender)
    requires Matched(s, h, p)
    ensures Matched(Opened(s, id, sender), h, p)
  {
    HousekeepingKeeps(s, Opened(s, id, sender));
  }

  lemma SubmitMatches(s: State, h: H.Harness, p: string, x: Submission, out: Outcome, t: State) returns (k: H.Harness)
    requires Matched(s, h, p) && x.want.provider == p && x.want.routing == None
    requires Submits(s, x, out, t)
    ensures H.Submits(h, p, x.want.model, x.now, PlacementOf(out), k) && Matched(t, k, p)
  {
    var mid :| Places(s, x, out, mid)
      && t == if x.sender.Some? && !out.Rejected? then Opened(mid, s.nextRequest, x.sender.value) else mid;
    k := PlaceMatches(s, h, p, x, out, mid);
    if x.sender.Some? && !out.Rejected? {
      OpenedCompares(mid, k, p, s.nextRequest, x.sender.value);
    }
  }

  // ---- finishing ----

  lemma FinishedSim(s: State, h: H.Harness, w: WorkerId, id: RequestId)
    requires Sim(s, h) && w in s.workers
    ensures w in h.members && Sim(Moves.Finished(s, w, id), H.Finished(h, w, id))
  {}

  lemma FinishedStaysPlain(s: State, p: string, w: WorkerId, id: RequestId)
    requires Plain(s, p) && w in s.workers && NoDup(s.workers[w].inFlight) && id in s.workers[w].inFlight
    ensures Plain(Moves.Finished(s, w, id), p)
  {
    WithoutMembers(s.workers[w].inFlight, id);
  }

  lemma FinishedCompares(s: State, h: H.Harness, p: string, w: WorkerId, id: RequestId)
    requires Matched(s, h, p) && w in s.workers && id in s.workers[w].inFlight
    ensures w in h.members && Matched(Moves.Finished(s, w, id), H.Finished(h, w, id), p)
  {
    MoveKeeps(s, Finish(w, id));
    FinishedSim(s, h, w, id);
    FinishedStaysPlain(s, p, w, id);
  }

  lemma RemovedSim(s: State, h: H.Harness, ws: set<WorkerId>, close: Option<CloseReason>)
    requires Sim(s, h)
    ensures Sim(RemoveWorkers(s, ws, close), H.Removed(h, ws))
  {}

  lemma RemovedStaysPlain(s: State, p: string, ws: set<WorkerId>, close: Option<CloseReason>)
    requires Plain(s, p)
    ensures Plain(RemoveWorkers(s, ws, close), p)
  {}

  lemma LeavingCompares(s: State, h: H.Harness, p: string, w: WorkerId, close: Option<CloseReason>)
    requires Matched(s, h, p) && w in s.workers && s.workers[w].inFlight == []
    ensures Matched(RemoveWorker(s, w, close), H.Removed(h, {w}), p)
  {
    LeaveKeeps(s, w, close);
    RemovedSim(s, h, {w}, close);
    RemovedStaysPlain(s, p, {w}, close);
  }

  lemma DispatchCompares(s: State, h: H.Harness, p: string, w: WorkerId, got: Option<RequestId>, t: State)
    returns (k: H.Harness)
    requires Matched(s, h, p) && Dispatches(s, w, got, t)
    ensures H.Dispatches(h, w, got, k) && Matched(t, k, p)
  {
    if got == None {
      IdleCompares(s, h, p, w);
      k := h;
    } else {
      k := PullCompares(s, h, p, w, got.value, t);
    }
  }

  lemma SameMember(s: State, h: H.Harness, p: string, w: WorkerId)
    requires Matched(s, h, p)
    ensures w in s.workers <==> w in h.members
    ensures w in s.workers ==> h.members[w] == MemberOf(s.workers[w])
  {}

  lemma FinishMatches(s: State, h: H.Harness, p: string, w: WorkerId, id: RequestId, got: Option<RequestId>, t: State)
    returns (k: H.Harness)
    requires Matched(s, h, p) && Finishes(s, w, id, got, t)
    ensures H.Finishes(h, w, id, got, k) && Matched(t, k, p)
  {
    SameMember(s, h, p, w);
    k := h;
    if w in s.workers && id in s.workers[w].inFlight {
      var u, v := Moves.Finished(s, w, id), H.Finished(h, w, id);
      FinishedCompares(s, h, p, w, id);
      SameMember(u, v, p, w);
      if u.workers[w].Draining() && u.workers[w].inFlight == [] {
        LeavingCompares(u, v, p, w, Some(Completed));
        k := H.Removed(v, {w});
      } else {
        k := DispatchCompares(u, v, p, w, got, t);
        assert H.Finishes(h, w, id, got, k);
      }
    }
  }

  // ---- ending many at once ----

  lemma SameInFlight(s: State, h: H.Harness, ws: set<WorkerId>)
    requires Inv(s) && Sim(s, h) && ws <= s.workers.Keys
    ensures H.InFlightOf(h, ws) == RunningOn(s, ws)
  {
    forall id | id in RunningOn(s, ws) ensures id in H.InFlightOf(h, ws) {
      assert Running(s)(s.active[id].worker, id);
    }
    forall id | id in H.InFlightOf(h, ws) ensures id in RunningOn(s, ws) {
      var w :| w in h.members && w in ws && id in h.members[w].inFlight;
      assert Running(s)(w, id);
    }
  }

  /** Failing replies concerns the core alone. */
  lemma FailingSim(s: State, h: H.Harness, why: map<RequestId, FailureReason>)
    requires Sim(s, h)
    ensures Sim(FailReplies(s, why), h)
  {}

  lemma ForgettingSim(s: State, h: H.Harness, ids: set<RequestId>)
    requires Sim(s, h)
    ensures Sim(s.(active := s.active - ids), h.(entries := h.entries - ids))
  {}

  lemma EvictedSim(s: State, h: H.Harness, ws: set<WorkerId>, why: FailureReason, close: CloseReason)
    requires Inv(s) && Sim(s, h) && ws <= s.workers.Keys
    ensures Sim(Evicted(s, ws, why, close), H.Evicted(h, ws))
  {
    SameInFlight(s, h, ws);
    var ids := RunningOn(s, ws);
    ForgettingSim(s, h, ids);
    FailingSim(s.(active := s.active - ids), h.(entries := h.entries - ids), AllFor(ids, why));
    RemovedSim(FailReplies(s.(active := s.active - ids), AllFor(ids, why)), h.(entries := h.entries - ids), ws,
               Some(close));
  }

  lemma EvictedStaysPlain(s: State, p: string, ws: set<WorkerId>, why: FailureReason, close: CloseReason)
    requires Plain(s, p)
    ensures Plain(Evicted(s, ws, why, close), p)
  {}

  lemma EvictedCompares(s: State, h: H.Harness, p: string, ws: set<WorkerId>, why: FailureReason, close: CloseReason)
    requires Matched(s, h, p) && ws <= s.workers.Keys
    ensures Matched(Evicted(s, ws, why, close), H.Evicted(h, ws), p)
  {
    EvictedInv(s, ws, why, close);
    EvictedSim(s, h, ws, why, close);
    EvictedStaysPlain(s, p, ws, why, close);
  }

  lemma SameOverdue(s: State, h: H.Harness, now: nat)
    requires Sim(s, h)
    ensures H.Overdue(h, now) == Overdue(s, now)
  {}

  lemma ExpireShutdownMatches(s: State, h: H.Harness, p: string, now: nat)
    requires Matched(s, h, p)
    ensures Matched(Evicted(s, Overdue(s, now), GracefulShutdownTimedOut, TimedOut), H.Evicted(h, H.Overdue(h, now)), p)
  {
    SameOverdue(s, h, now);
    EvictedCompares(s, h, p, Overdue(s, now), GracefulShutdownTimedOut, TimedOut);
  }

  lemma SameIds(q: seq<Request>, k: seq<H.Record>)
    requires SameRecords(q, k)
    ensures H.IdsOf(k) == IdsOf(q)
  {
    forall r | r in k ensures r.id in IdsOf(q) {
      var i :| 0 <= i < |k| && k[i] == r;
      assert q[i] in q;
    }
    forall r | r in q ensures r.id in H.IdsOf(k) {
      var i :| 0 <= i < |q| && q[i] == r;
      assert k[i] in k;
    }
  }

  lemma ClearedSim(s: State, h: H.Harness, p: string)
    requires Sim(s, h)
    ensures Sim(QueueCleared(s, p), H.QueueGone(h, p))
  {
    SameQueue(s, h, p);
    SameIds(s.Queue(p), h.Queue(p));
    var ids := IdsOf(s.Queue(p));
    ForgettingSim(s, h, ids);
    FailingSim(s.(active := s.active - ids, queues := s.queues - {p}),
               h.(entries := h.entries - ids, queues := h.queues - {p}), AllFor(ids, ProviderDeleted));
  }

  lemma ClearedStaysPlain(s: State, p: string, q: string)
    requires Plain(s, p)
    ensures Plain(QueueCleared(s, q), p)
  {}

  lemma ClearedCompares(s: State, h: H.Harness, p: string, q: string)
    requires Matched(s, h, p)
    ensures Matched(QueueCleared(s, q), H.QueueGone(h, q), p)
  {
    ClearedInv(s, q);
    ClearedSim(s, h, q);
    ClearedStaysPlain(s, p, q);
  }

  lemma SameWorkersOf(s: State, h: H.Harness, p: string, q: string)
    requires Matched(s, h, p)
    ensures H.MembersOf(h, q) == WorkersOf(s, q)
  {}

  lemma DeleteMatches(s: State, h: H.Harness, p: string, q: string)
    requires Matched(s, h, p)
    ensures Matched(ProviderDeletedFrom(s, q), H.ProviderDeleted(h, q), p)
  {
    ClearedCompares(s, h, p, q);
    SameWorkersOf(s, h, p, q);
    EvictedCompares(QueueCleared(s, q), H.QueueGone(h, q), p, WorkersOf(s, q), ProviderDeleted, Completed);
  }

  // ---- queue timeouts ----

  lemma SameExpired(s: State, h: H.Harness, now: nat)
    requires Sim(s, h)
    ensures H.ExpiredIds(h, now) == ExpiredIds(s, now)
  {
    forall id | id in ExpiredIds(s, now) ensures id in H.ExpiredIds(h, now) {
      var p, r :| p in s.queues && r in s.queues[p] && Expired(s.PolicyOf(p), r, now) && r.id == id;
      var i := IndexOf(s.queues[p], r);
      assert h.queues[p][i] == RecordOf(r) && h.queues[p][i] in h.queues[p];
      assert H.Expired(h.PolicyOf(p), RecordOf(r), now);
    }
    forall id | id in H.ExpiredIds(h, now) ensures id in ExpiredIds(s, now) {
      var p, r :| p in h.queues && r in h.queues[p] && H.Expired(h.PolicyOf(p), r, now) && r.id == id;
      var i :| 0 <= i < |h.queues[p]| && h.queues[p][i] == r;
      assert s.queues[p][i] in s.queues[p] && Expired(s.PolicyOf(p), s.queues[p][i], now);
    }
  }

  lemma SameKept(s: State, h: H.Harness, now: nat)
    requires Sim(s, h)
    ensures SameQueues(KeptQueues(s.queues, s.policies, now), H.KeptQueues(h, now))
  {
    forall p | p in s.queues
      ensures SameRecords(KeptQueues(s.queues, s.policies, now)[p], H.KeptQueues(h, now)[p])
    {
      SameAfterFilter(s.queues[p], h.queues[p], PolicyIn(s.policies, p), now);
    }
  }

  lemma SweptSim(s: State, h: H.Harness, now: nat)
    requires Sim(s, h)
    ensures Sim(QueuesExpired(s, now), H.QueuesExpired(h, now))
  {
    SameExpired(s, h, now);
    SameKept(s, h, now);
    var ids := ExpiredIds(s, now);
    ForgettingSim(s, h, ids);
    FailingSim(s.(active := s.active - ids, queues := KeptQueues(s.queues, s.policies, now)),
               h.(entries := h.entries - ids, queues := H.KeptQueues(h, now)), AllFor(ids, QueueTimedOut));
  }

  lemma SweptStaysPlain(s: State, p: string, now: nat)
    requires Plain(s, p)
    ensures Plain(QueuesExpired(s, now), p)
  {}

  lemma SweepMatches(s: State, h: H.Harness, p: string, now: nat)
    requires Matched(s, h, p) && Inv(QueuesExpired(s, now))
    ensures Matched(QueuesExpired(s, now), H.QueuesExpired(h, now), p)
  {
    SweptSim(s, h, now);
    SweptStaysPlain(s, p, now);
  }

  // ---- shutting down ----

  lemma ShutdownSim(s: State, h: H.Harness, notice: Option<string>, timeout: nat, now: nat)
    requires Sim(s, h) && forall w :: w in s.workers ==> !s.workers[w].Draining()
    ensures Sim(ShutdownBegun(s, notice, timeout, now), H.ShutDown(h, timeout, now))
  {}

  lemma ShutdownStaysPlain(s: State, p: string, notice: Option<string>, timeout: nat, now: nat)
    requires Plain(s, p)
    ensures Plain(ShutdownBegun(s, notice, timeout, now), p)
  {}

  lemma ShutdownMatches(s: State, h: H.Harness, p: string, notice: Option<string>, timeout: nat, now: nat, t: State)
    requires Matched(s, h, p) && t == ShutdownBegun(s, notice, timeout, now) && Inv(t)
    requires forall w :: w in s.workers ==> !s.workers[w].Draining()
    ensures Matched(t, H.ShutDown(h, timeout, now), p)
  {
    ShutdownSim(s, h, notice, timeout, now);
    ShutdownStaysPlain(s, p, notice, timeout, now);
  }

  // ---- losing a worker ----

  lemma SameRequeueable(s: State, h: H.Harness, id: RequestId)
    requires Sim(s, h)
    ensures Requeueable(s.active, id) <==> H.Requeueable(h, id)
  {}

  lemma {:induction false} SameRequeued(s: State, h: H.Harness, ids: seq<RequestId>)
    requires Sim(s, h)
    ensures SameRecords(RequeuedRecords(s.active, ids), H.RequeuedRecords(h, ids))
  {
    if ids != [] {
      SameRequeued(s, h, ids[..|ids| - 1]);
      SameRequeueable(s, h, ids[|ids| - 1]);
    }
  }

  lemma SamePutBack(s: State, h: H.Harness, p: string, back: seq<Request>, front: seq<H.Record>)
    requires Sim(s, h) && SameRecords(back, front)
    ensures SameQueues(PutBack(s.queues, p, back), H.PutBack(h.queues, p, front))
  {
    if p in s.queues {
      SameAfterJoin(back, s.queues[p], front, h.queues[p]);
    }
  }

  lemma SameLost(s: State, h: H.Harness, ids: seq<RequestId>)
    requires Sim(s, h)
    ensures SameEntries(LostIndex(s.active, ids), H.LostEntries(h, ids))
    ensures SameCanceled(LostIndex(s.active, ids), s.nextRequest, h.canceled)
  {
    forall id ensures Requeueable(s.active, id) <==> H.Requeueable(h, id) {
      SameRequeueable(s, h, id);
    }
  }

  lemma DisconnectedSim(s: State, h: H.Harness, w: WorkerId)
    requires Sim(s, h) && w in s.workers
    ensures w in h.members && Sim(Disconnected(s, w), H.Disconnected(h, w))
  {
    var l, p := s.workers[w].inFlight, s.workers[w].provider;
    SameRequeued(s, h, l);
    SamePutBack(s, h, p, RequeuedRecords(s.active, l), H.RequeuedRecords(h, l));
    SameLost(s, h, l);
    var u := s.(active := LostIndex(s.active, l), queues := PutBack(s.queues, p, RequeuedRecords(s.active, l)));
    var v := h.(entries := H.LostEntries(h, l), queues := H.PutBack(h.queues, p, H.RequeuedRecords(h, l)));
    FailingSim(u, v, LostReasons(s.active, l));
    RemovedSim(FailReplies(u, LostReasons(s.active, l)), v, {w}, None);
  }

  lemma DisconnectedStaysPlain(s: State, p: string, w: WorkerId)
    requires Plain(s, p) && w in s.workers
    ensures Plain(Disconnected(s, w), p)
  {}

  lemma DisconnectMatches(s: State, h: H.Harness, p: string, w: WorkerId)
    requires Matched(s, h, p) && Inv(Disconnected(s, w))
    ensures Matched(Disconnected(s, w), H.Disconnected(h, w), p)
  {
    if w in s.workers {
      DisconnectedSim(s, h, w);
      DisconnectedStaysPlain(s, p, w);
    }
  }

  // ---- cancelling ----

  lemma SameFound(s: State, h: H.Harness, r: Request, i: nat)
    requires Sim(s, h)
    ensures AtHome(s, r, i) <==> H.Found(h, RecordOf(r), i)
  {
    if r.provider in s.queues {
      forall j | 0 <= j < |s.queues[r.provider]| ensures h.queues[r.provider][j].id == s.queues[r.provider][j].id {
        assert h.queues[r.provider][j] == RecordOf(s.queues[r.provider][j]);
      }
    }
  }

  lemma DroppedSim(s: State, h: H.Harness, p: string, i: nat, id: RequestId)
    requires Sim(s, h) && p in s.queues && i < |s.queues[p]| && s.queues[p][i].id == id && id < s.nextRequest
    ensures p in h.queues && i < |h.queues[p]| && Sim(Dropped(s, p, i, None), H.Forgotten(h, p, i, id))
  {
    SameAfterRemove(s.queues[p], h.queues[p], i);
  }

  lemma DroppedStaysPlain(s: State, p: string, q: string, i: nat)
    requires Plain(s, p) && q in s.queues && i < |s.queues[q]|
    ensures Plain(Dropped(s, q, i, None), p)
  {}

  lemma DroppedCompares(s: State, h: H.Harness, p: string, q: string, i: nat, id: RequestId)
    requires q in s.queues && i < |s.queues[q]| && s.queues[q][i].id == id && id < s.nextRequest
    requires Matched(s, h, p) && Inv(Dropped(s, q, i, None))
    ensures q in h.queues && i < |h.queues[q]|
    ensures Matched(Dropped(s, q, i, None), H.Forgotten(h, q, i, id), p)
  {
    DroppedSim(s, h, q, i, id);
    DroppedStaysPlain(s, p, q, i);
  }

  lemma FoundIsForgotten(h: H.Harness, r: H.Record, i: nat, reason: CancelReason)
    requires r.id in h.entries && h.entries[r.id] == H.Pending(r) && H.Found(h, r, i)
    ensures r.provider in h.queues && i < |h.queues[r.provider]|
    ensures H.Cancels(h, r.id, reason, Some(CancelOutcome.Removed(r.id)), H.Forgotten(h, r.provider, i, r.id))
  {}

  lemma MarkedSim(s: State, h: H.Harness, id: RequestId, reason: CancelReason)
    requires Sim(s, h) && id in s.active && s.active[id].InFlight? && id < s.nextRequest
    ensures Sim(Marked(s, id, reason),
                h.(canceled := h.canceled + {id},
                   signals := h.signals + [CancelSignal(s.active[id].worker, id, reason)]))
  {}

  lemma MarkedStaysPlain(s: State, p: string, id: RequestId, reason: CancelReason)
    requires Plain(s, p) && id in s.active && s.active[id].InFlight?
    ensures Plain(Marked(s, id, reason), p)
  {}

  lemma CancelWaitingMatches(s: State, h: H.Harness, p: string, id: RequestId, reason: CancelReason,
                             out: Option<CancelOutcome>, t: State)
    returns (k: H.Harness)
    requires Matched(s, h, p) && Inv(t) && Cancels(s, id, reason, out, t)
    requires id in s.active && s.active[id].Queued?
    ensures H.Cancels(h, id, reason, out, k) && Matched(t, k, p)
  {
    if exists i: nat :: AtHome(s, s.active[id].request, i) {
      k := CancelHomeMatches(s, h, p, id, reason, out, t);
    } else {
      CancelAwayMatches(s, h, p, id, reason, out, t);
      k := h;
    }
  }

  lemma CancelAwayMatches(s: State, h: H.Harness, p: string, id: RequestId, reason: CancelReason,
                          out: Option<CancelOutcome>, t: State)
    requires Matched(s, h, p) && Cancels(s, id, reason, out, t)
    requires id in s.active && s.active[id].Queued? && !exists i: nat :: AtHome(s, s.active[id].request, i)
    ensures H.Cancels(h, id, reason, out, h) && t == s
  {
    var r := s.active[id].request;
    forall i: nat ensures !H.Found(h, RecordOf(r), i) {
      SameFound(s, h, r, i);
    }
  }

  lemma CancelHomeMatches(s: State, h: H.Harness, p: string, id: RequestId, reason: CancelReason,
                          out: Option<CancelOutcome>, t: State)
    returns (k: H.Harness)
    requires Matched(s, h, p) && Inv(t) && Cancels(s, id, reason, out, t)
    requires id in s.active && s.active[id].Queued? && exists i: nat :: AtHome(s, s.active[id].request, i)
    ensures H.Cancels(h, id, reason, out, k) && Matched(t, k, p)
  {
    var r := s.active[id].request;
    var i: nat :| AtHome(s, r, i) && t == Dropped(s, r.provider, i, None);
    SameFound(s, h, r, i);
    DroppedCompares(s, h, p, r.provider, i, id);
    FoundIsForgotten(h, RecordOf(r), i, reason);
    k := H.Forgotten(h, r.provider, i, id);
  }

  lemma CancelRunningMatches(s: State, h: H.Harness, p: string, id: RequestId, reason: CancelReason,
                             out: Option<CancelOutcome>, t: State)
    returns (k: H.Harness)
    requires Matched(s, h, p) && Inv(t) && Cancels(s, id, reason, out, t)
    requires id in s.active && s.active[id].InFlight? && s.active[id].cancellation == None
    ensures H.Cancels(h, id, reason, out, k) && Matched(t, k, p)
  {
    MarkedSim(s, h, id, reason);
    MarkedStaysPlain(s, p, id, reason);
    k := h.(canceled := h.canceled + {id}, signals := h.signals + [CancelSignal(s.active[id].worker, id, reason)]);
  }

  // ---- the operations ----

  /** What concerns the core alone: replies, outboxes, signals waiting to be sent, close reasons. */
  ghost predicate SameDispatching(s: State, t: State) {
    t == s.(outbox := t.outbox, senders := t.senders, replies := t.replies, cancelSignals := t.cancelSignals,
            shutdownSignals := t.shutdownSignals, closeReasons := t.closeReasons, history := t.history)
    && t.history.raised == s.history.raised
  }

  /** Operations that leave dispatching alone. */
  predicate Quiet(s: State, op: Op) {
    op.StreamChunk? || op.TakeRequests? || op.TakeCancelSignals? || op.TakeShutdownSignals? || op.TakeCloseReason?
    || (op.DisconnectIfDrained? && !Drained(s, op.w))
  }

  lemma QuietCompares(s: State, h: H.Harness, p: string, t: State)
    requires Matched(s, h, p) && Inv(t) && SameDispatching(s, t)
    ensures Matched(t, h, p)
  {}

  lemma QuietMatches(s: State, h: H.Harness, p: string, op: Op, t: State)
    requires Matched(s, h, p) && Inv(t) && Spec.Step(s, op, t) && Quiet(s, op)
    ensures Matched(t, h, p)
  {
    QuietIsSame(s, op, t);
    QuietCompares(s, h, p, t);
  }

  lemma QuietIsSame(s: State, op: Op, t: State)
    requires Spec.Step(s, op, t) && Quiet(s, op)
    ensures SameDispatching(s, t)
  {
    if op.StreamChunk? {
      ChunkIsQuiet(s, op.w, op.id, op.data);
    } else if op.TakeCancelSignals? {
      CollectingIsQuiet(s, op.w);
    }
  }

  lemma ChunkIsQuiet(s: State, w: WorkerId, id: RequestId, data: Bytes)
    ensures SameDispatching(s, Chunked(s, w, id, data))
  {}

  lemma CollectingIsQuiet(s: State, w: WorkerId)
    ensures SameDispatching(s, CancelsTaken(s, w))
  {}

  lemma CompleteMatches(s: State, h: H.Harness, p: string, w: WorkerId, id: RequestId, body: Bytes, a: H.Answer,
                        t: State)
    returns (k: H.Harness)
    requires Matched(s, h, p) && Completing(s, w, id, body, a, t)
    ensures H.Step(h, CompleteResponse(w, id, body), a, k) && Matched(t, k, p)
  {
    k := h;
    if id in s.senders {
      var u := Closed(s, id, body);
      HousekeepingKeeps(s, u);
      QuietCompares(s, h, p, u);
      k := FinishMatches(u, h, p, w, id, a.next, t);
    }
  }

  lemma ConfigureMatches(s: State, h: H.Harness, p: string, q: string, policy: Policy)
    requires Matched(s, h, p)
    ensures Matched(s.(policies := s.policies[q := policy]), h.(policies := h.policies[q := policy]), p)
  {
    HousekeepingKeeps(s, s.(policies := s.policies[q := policy]));
  }

  lemma RegisterMatches(s: State, h: H.Harness, p: string, worker: Worker)
    requires Matched(s, h, p) && Inv(Added(s, worker)) && PlainWorker(worker, p)
    ensures Matched(Added(s, worker),
                    h.(nextWorker := h.nextWorker + 1, order := h.order + [h.nextWorker],
                       members := h.members[h.nextWorker := MemberOf(worker)]), p)
  {
    AddedSim(s, h, worker);
    AddedStaysPlain(s, p, worker);
  }

  lemma AddedSim(s: State, h: H.Harness, worker: Worker)
    requires Sim(s, h)
    ensures Sim(Added(s, worker),
                h.(nextWorker := h.nextWorker + 1, order := h.order + [h.nextWorker],
                   members := h.members[h.nextWorker := MemberOf(worker)]))
  {}

  lemma AddedStaysPlain(s: State, p: string, worker: Worker)
    requires Plain(s, p) && PlainWorker(worker, p)
    ensures Plain(Added(s, worker), p)
  {}

  lemma ReportMatches(s: State, h: H.Harness, p: string, op: Op, a: H.Answer, t: State) returns (k: H.Harness)
    requires Matched(s, h, p) && StepAs(s, op, a, t) && Shared(s, op, p) && (op.UpdateModels? || op.Pong?)
    ensures H.Step(h, op, a, k) && Matched(t, k, p)
  {
    SameMember(s, h, p, op.w);
    if op.UpdateModels? {
      k := RetuneMatches(s, h, p, op.w, op.models, op.current, a.ids, t);
    } else {
      PlainModels(s, p, op.w);
      k := RetuneMatches(s, h, p, op.w, if op.w in s.workers then s.workers[op.w].models else [], op.current, a.ids, t);
      assert H.Repeats(h, op.w, a.ids, k);
    }
  }

  lemma PlainModels(s: State, p: string, w: WorkerId)
    requires Plain(s, p)
    ensures w in s.workers ==> WILDCARD !in s.workers[w].models
  {}

  lemma SubmissionMatches(s: State, h: H.Harness, p: string, x: Submission, a: H.Answer, t: State)
    returns (k: H.Harness)
    requires Matched(s, h, p) && x.want.provider == p && x.want.routing == None && Submitting(s, x, a, t)
    ensures H.Step(h, Submit(x), a, k) && Matched(t, k, p)
  {
    var out :| Submits(s, x, out, t) && a == H.Placed(PlacementOf(out));
    k := SubmitMatches(s, h, p, x, out, t);
  }

  lemma RequestMatches(s: State, h: H.Harness, p: string, op: Op, a: H.Answer, t: State) returns (k: H.Harness)
    requires Matched(s, h, p) && StepAs(s, op, a, t) && Shared(s, op, p)
    requires op.Submit? || op.FinishRequest? || op.CompleteResponse?
    ensures H.Step(h, op, a, k) && Matched(t, k, p)
  {
    match op
    case Submit(x) => k := SubmissionMatches(s, h, p, x, a, t);
    case FinishRequest(w, id) => k := FinishMatches(s, h, p, w, id, a.next, t);
    case CompleteResponse(w, id, body) => k := CompleteMatches(s, h, p, w, id, body, a, t);
  }

  lemma CancelMatches(s: State, h: H.Harness, p: string, op: Op, a: H.Answer, t: State) returns (k: H.Harness)
    requires Matched(s, h, p) && Inv(t) && StepAs(s, op, a, t) && Shared(s, op, p) && op.CancelRequest?
    ensures H.Step(h, op, a, k) && Matched(t, k, p)
  {
    var out := a.outcome;
    k := h;
    if op.id in s.active {
      if s.active[op.id].Queued? {
        k := CancelWaitingMatches(s, h, p, op.id, op.reason, out, t);
      } else {
        k := CancelRunningMatches(s, h, p, op.id, op.reason, out, t);
      }
    } else {
      assert H.Cancels(h, op.id, op.reason, None, h);
    }
  }

  // ---- operations that end many at once, and what they report ----

  lemma SameAsked(s: State, h: H.Harness)
    requires Sim(s, h) && Index.Listed(s) && forall w :: w in s.workers ==> !s.workers[w].Draining()
    ensures NotDraining(s) == Filter(h.order, H.Listed(h))
  {
    FilterAgree(s.order, Undrained(s), H.Listed(h));
  }

  lemma ShutdownStep(s: State, h: H.Harness, p: string, op: Op, a: H.Answer, t: State) returns (k: H.Harness)
    requires Matched(s, h, p) && Inv(t) && StepAs(s, op, a, t) && Shared(s, op, p) && op.BeginShutdown?
    ensures H.Step(h, op, a, k) && Matched(t, k, p)
  {
    ShutdownAnswer(s, h, p, op, a, t);
    ShutdownMatches(s, h, p, op.notice, op.timeout, op.now, t);
    k := H.ShutDown(h, op.timeout, op.now);
  }

  lemma ShutdownAnswer(s: State, h: H.Harness, p: string, op: Op, a: H.Answer, t: State)
    requires Matched(s, h, p) && StepAs(s, op, a, t) && Shared(s, op, p) && op.BeginShutdown?
    ensures t == ShutdownBegun(s, op.notice, op.timeout, op.now)
    ensures forall w :: w in s.workers ==> !s.workers[w].Draining()
    ensures H.Step(h, op, a, H.ShutDown(h, op.timeout, op.now))
  {
    SameAsked(s, h);
  }

  lemma {:induction false} SameRunning(s: State, h: H.Harness, ws: seq<WorkerId>)
    requires Sim(s, h)
    ensures RunningInTurn(s.workers, ws) == H.RunningInTurn(h.members, ws)
    decreases |ws|
  {
    if ws != [] {
      SameRunning(s, h, ws[..|ws| - 1]);
    }
  }

  lemma SameDismissal(s: State, h: H.Harness, now: nat)
    requires Sim(s, h)
    ensures Dismissal(s, now) == H.Dismissal(h, now)
  {
    SameOverdue(s, h, now);
    FilterAgree(s.order, OverdueAt(s, now), H.OverdueAt(h, now));
    SameRunning(s, h, Filter(s.order, OverdueAt(s, now)));
  }

  lemma DismissalStep(s: State, h: H.Harness, p: string, op: Op, a: H.Answer, t: State) returns (k: H.Harness)
    requires Matched(s, h, p) && StepAs(s, op, a, t) && op.ExpireShutdown?
    ensures H.Step(h, op, a, k) && Matched(t, k, p)
  {
    SameDismissal(s, h, op.now);
    ExpireShutdownMatches(s, h, p, op.now);
    k := H.Evicted(h, H.Overdue(h, op.now));
  }

  lemma {:induction false} SameExpiredList(q: seq<Request>, k: seq<H.Record>, policy: Policy, now: nat)
    requires SameRecords(q, k)
    ensures ExpiredList(q, policy, now) == H.ExpiredList(k, policy, now)
    decreases |q|
  {
    if q != [] {
      SameExpiredList(q[..|q| - 1], k[..|k| - 1], policy, now);
    }
  }

  lemma {:induction false} SameExpiredInTurn(s: State, h: H.Harness, keys: seq<string>, now: nat)
    requires SameQueues(s.queues, h.queues) && s.policies == h.policies
    ensures ExpiredInTurn(s, keys, now) == H.ExpiredInTurn(h, keys, now)
    decreases |keys|
  {
    if keys != [] {
      var p := keys[|keys| - 1];
      SameExpiredInTurn(s, h, keys[..|keys| - 1], now);
      SameQueue(s, h, p);
      SameExpiredList(s.Queue(p), h.Queue(p), s.PolicyOf(p), now);
    }
  }

  lemma SameSweeps(s: State, h: H.Harness, now: nat, a: H.Answer)
    requires Sim(s, h) && Sweeps(s, now, a)
    ensures H.Sweeps(h, now, a)
  {
    var keys: seq<string> :| NoDup(keys) && Elements(keys) == s.queues.Keys
      && a == H.Swept(AllFailed(ExpiredInTurn(s, keys, now), QueueTimedOut));
    SameExpiredInTurn(s, h, keys, now);
    assert NoDup(keys) && Elements(keys) == h.queues.Keys;
  }

  lemma SweepStep(s: State, h: H.Harness, p: string, op: Op, a: H.Answer, t: State) returns (k: H.Harness)
    requires Matched(s, h, p) && Inv(t) && StepAs(s, op, a, t) && op.ExpireQueues?
    ensures H.Step(h, op, a, k) && Matched(t, k, p)
  {
    SameSweeps(s, h, op.now, a);
    SweepMatches(s, h, p, op.now);
    k := H.QueuesExpired(h, op.now);
  }

  lemma DeletionStep(s: State, h: H.Harness, p: string, op: Op, a: H.Answer, t: State) returns (k: H.Harness)
    requires Matched(s, h, p) && StepAs(s, op, a, t) && op.DeleteProvider?
    ensures H.Step(h, op, a, k) && Matched(t, k, p)
  {
    DeleteMatches(s, h, p, op.provider);
    k := H.ProviderDeleted(h, op.provider);
  }

  lemma SameLossOf(s: State, h: H.Harness, id: RequestId)
    requires Sim(s, h)
    ensures LossOf(s.active, id) == H.LossOf(h, id)
  {
    SameRequeueable(s, h, id);
  }

  lemma {:induction false} SameLostFailures(s: State, h: H.Harness, ids: seq<RequestId>)
    requires Sim(s, h)
    ensures LostFailures(s.active, ids) == H.LostFailures(h, ids)
    decreases |ids|
  {
    if ids != [] {
      SameLostFailures(s, h, ids[..|ids| - 1]);
      SameLossOf(s, h, ids[|ids| - 1]);
    }
  }

  lemma SameIdsInOrder(q: seq<Request>, k: seq<H.Record>)
    requires SameRecords(q, k)
    ensures IdsInOrder(q) == H.IdsInOrder(k)
  {}

  lemma SameLoss(s: State, h: H.Harness, p: string, w: WorkerId)
    requires Matched(s, h, p)
    ensures Loss(s, w) == H.Loss(h, w)
  {
    SameMember(s, h, p, w);
    if w in s.workers {
      var l := s.workers[w].inFlight;
      SameRequeued(s, h, l);
      SameIdsInOrder(RequeuedRecords(s.active, l), H.RequeuedRecords(h, l));
      SameLostFailures(s, h, l);
    }
  }

  lemma LossStep(s: State, h: H.Harness, p: string, op: Op, a: H.Answer, t: State) returns (k: H.Harness)
    requires Matched(s, h, p) && Inv(t) && StepAs(s, op, a, t) && op.Disconnect?
    ensures H.Step(h, op, a, k) && Matched(t, k, p)
  {
    LossAnswer(s, h, p, op, a, t);
    DisconnectMatches(s, h, p, op.w);
    k := H.Disconnected(h, op.w);
  }

  lemma LossAnswer(s: State, h: H.Harness, p: string, op: Op, a: H.Answer, t: State)
    requires Matched(s, h, p) && StepAs(s, op, a, t) && op.Disconnect?
    ensures t == Disconnected(s, op.w) && H.Step(h, op, a, H.Disconnected(h, op.w))
  {
    SameLoss(s, h, p, op.w);
  }

  lemma ShuttingMatches(s: State, h: H.Harness, p: string, op: Op, a: H.Answer, t: State) returns (k: H.Harness)
    requires Matched(s, h, p) && Inv(t) && StepAs(s, op, a, t) && Shared(s, op, p)
    requires op.BeginShutdown? || op.ExpireShutdown?
    ensures H.Step(h, op, a, k) && Matched(t, k, p)
  {
    if op.BeginShutdown? {
      k := ShutdownStep(s, h, p, op, a, t);
    } else {
      k := DismissalStep(s, h, p, op, a, t);
    }
  }

  lemma RemovingMatches(s: State, h: H.Harness, p: string, op: Op, a: H.Answer, t: State) returns (k: H.Harness)
    requires Matched(s, h, p) && Inv(t) && StepAs(s, op, a, t) && (op.DeleteProvider? || op.Disconnect?)
    ensures H.Step(h, op, a, k) && Matched(t, k, p)
  {
    if op.DeleteProvider? {
      k := DeletionStep(s, h, p, op, a, t);
    } else {
      k := LossStep(s, h, p, op, a, t);
    }
  }

  lemma BulkMatches(s: State, h: H.Harness, p: string, op: Op, a: H.Answer, t: State) returns (k: H.Harness)
    requires Matched(s, h, p) && Inv(t) && StepAs(s, op, a, t) && Shared(s, op, p)
    requires op.BeginShutdown? || op.ExpireShutdown? || op.ExpireQueues? || op.DeleteProvider? || op.Disconnect?
    ensures H.Step(h, op, a, k) && Matched(t, k, p)
  {
    if op.BeginShutdown? || op.ExpireShutdown? {
      k := ShuttingMatches(s, h, p, op, a, t);
    } else if op.ExpireQueues? {
      k := SweepStep(s, h, p, op, a, t);
    } else {
      k := RemovingMatches(s, h, p, op, a, t);
    }
  }

  lemma SetupMatches(s: State, h: H.Harness, p: string, op: Op, a: H.Answer, t: State) returns (k: H.Harness)
    requires Matched(s, h, p) && Inv(t) && StepAs(s, op, a, t) && Shared(s, op, p)
    requires op.Configure? || op.Register?
    ensures H.Step(h, op, a, k) && Matched(t, k, p)
  {
    if op.Configure? {
      ConfigureMatches(s, h, p, op.provider, op.policy);
      k := h.(policies := h.policies[op.provider := op.policy]);
    } else {
      var worker := NewWorker(op.provider, op.models, op.prefixes, op.max, op.load);
      RegisterMatches(s, h, p, worker);
      k := h.(nextWorker := h.nextWorker + 1, order := h.order + [h.nextWorker],
              members := h.members[h.nextWorker := MemberOf(worker)]);
    }
  }

  lemma WorkerMatches(s: State, h: H.Harness, p: string, op: Op, a: H.Answer, t: State) returns (k: H.Harness)
    requires Matched(s, h, p) && Inv(t) && StepAs(s, op, a, t) && Shared(s, op, p)
    requires op.Configure? || op.Register? || op.UpdateModels? || op.Pong?
    ensures H.Step(h, op, a, k) && Matched(t, k, p)
  {
    if op.Configure? || op.Register? {
      k := SetupMatches(s, h, p, op, a, t);
    } else {
      k := ReportMatches(s, h, p, op, a, t);
    }
  }

  /** Operations about one worker or one request's work. */
  predicate Dispatching(op: Op) {
    op.Configure? || op.Register? || op.UpdateModels? || op.Pong?
    || op.Submit? || op.FinishRequest? || op.CompleteResponse?
  }

  lemma DispatchingMatches(s: State, h: H.Harness, p: string, op: Op, a: H.Answer, t: State) returns (k: H.Harness)
    requires Matched(s, h, p) && Inv(t) && StepAs(s, op, a, t) && Shared(s, op, p) && Dispatching(op)
    ensures H.Step(h, op, a, k) && Matched(t, k, p)
  {
    if op.Submit? || op.FinishRequest? || op.CompleteResponse? {
      k := RequestMatches(s, h, p, op, a, t);
    } else {
      k := WorkerMatches(s, h, p, op, a, t);
    }
  }

  lemma QuietAnswer(s: State, h: H.Harness, op: Op, a: H.Answer, t: State)
    requires StepAs(s, op, a, t) && Quiet(s, op)
    ensures Spec.Step(s, op, t) && H.Step(h, op, a, h)
  {}

  lemma QuietStep(s: State, h: H.Harness, p: string, op: Op, a: H.Answer, t: State)
    requires Matched(s, h, p) && Inv(t) && StepAs(s, op, a, t) && Quiet(s, op)
    ensures H.Step(h, op, a, h) && Matched(t, h, p)
  {
    QuietAnswer(s, h, op, a, t);
    QuietMatches(s, h, p, op, t);
  }

  lemma SmallMatches(s: State, h: H.Harness, p: string, op: Op, a: H.Answer, t: State) returns (k: H.Harness)
    requires Matched(s, h, p) && Inv(t) && StepAs(s, op, a, t) && Shared(s, op, p)
    requires op.CancelRequest? || Quiet(s, op)
    ensures H.Step(h, op, a, k) && Matched(t, k, p)
  {
    if op.CancelRequest? {
      k := CancelMatches(s, h, p, op, a, t);
    } else {
      QuietStep(s, h, p, op, a, t);
      k := h;
    }
  }

  lemma RemainingMatches(s: State, h: H.Harness, p: string, op: Op, a: H.Answer, t: State) returns (k: H.Harness)
    requires Matched(s, h, p) && Inv(t) && StepAs(s, op, a, t) && Shared(s, op, p) && !Dispatching(op)
    ensures H.Step(h, op, a, k) && Matched(t, k, p)
  {
    if op.CancelRequest? || Quiet(s, op) {
      k := SmallMatches(s, h, p, op, a, t);
    } else {
      k := BulkMatches(s, h, p, op, a, t);
    }
  }

  /** Every shared step of the core is a step of the harness, with the same answer, to the
      corresponding state. */
  lemma StepMatches(s: State, h: H.Harness, p: string, op: Op, a: H.Answer, t: State) returns (k: H.Harness)
    requires Matched(s, h, p) && Inv(t) && StepAs(s, op, a, t) && Shared(s, op, p)
    ensures H.Step(h, op, a, k) && Matched(t, k, p)
  {
    if Dispatching(op) {
      k := DispatchingMatches(s, h, p, op, a, t);
    } else {
      k := RemainingMatches(s, h, p, op, a, t);
    }
  }
}
