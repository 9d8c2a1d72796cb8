/** The core itself: the mutable bookkeeping behind the relay's one lock. Each method is
    proved to take the state as the specification of its operation says. */
module Core {
  import opened Seqs
  import opened RelayState
  import opened Moves
  import opened Index
  import opened Selection
  import opened Spec
  import opened Traces
  import opened BulkTraces
  import opened Loops
  import opened Reports

  // ---- one preferred provider's workers ----

  ghost predicate PositionsOf(s: State, want: Wanted, routing: Routing, provider: string, ps: seq<nat>) {
    forall p: int :: p in ps <==> Eligible(s, Routed(routing), want, p) && ProviderAt(s, p) == provider
  }

  lemma PreferredPositions(s: State, want: Wanted, routing: Routing, k: nat, eligible: seq<nat>, ps: seq<nat>)
    requires routing.order.Some? && k < |routing.order.value|
    requires forall p: int :: p in eligible <==> Eligible(s, Routed(routing), want, p)
    requires forall p: nat :: p in eligible ==> p < |s.order| && s.order[p] in s.workers
    requires forall p: nat :: p in ps <==> p in eligible && ProviderAt(s, p) == routing.order.value[k]
    ensures PositionsOf(s, want, routing, routing.order.value[k], ps)
    ensures Preferred(s, want, routing, k) <==> ps != []
  {
    if ps != [] {
      assert ps[0] in ps;
    }
  }

  /** The earliest of the least loaded is the one the order list selects. */
  lemma FirstOfTied(s: State, want: Wanted, routing: Routing, k: nat, ps: seq<nat>, tied: seq<nat>)
    requires routing.order.Some? && k < |routing.order.value| && tied != []
    requires PositionsOf(s, want, routing, routing.order.value[k], ps)
    requires forall p: nat :: p in tied <==> p in ps && forall q :: q in ps ==> LoadAt(s, p) <= LoadAt(s, q)
    requires forall i, j :: 0 <= i < j < |tied| ==> tied[i] < tied[j]
    ensures Eligible(s, Routed(routing), want, tied[0])
    ensures SelectsPreferred(s, want, routing, k,
                             Choice(s.order[tied[0]], tied[0], SelectionKey(routing.order.value[k], want.model)))
  {
    assert tied[0] in tied;
    forall q | q in ps
      ensures LoadAt(s, tied[0]) < LoadAt(s, q) || (LoadAt(s, tied[0]) == LoadAt(s, q) && tied[0] <= q)
    {
      if LoadAt(s, q) == LoadAt(s, tied[0]) {
        assert q in tied;
      }
    }
  }

  // ---- dispatching ----

  /** Over the queues looked at so far, nothing older than the best entry is served. */
  ghost predicate BestSoFar(s: State, w: WorkerId, keys: set<string>, best: Option<string>, index: nat)
    requires w in s.workers
  {
    match best
    case None => forall q, j: nat :: q in keys ==> !FirstServed(s, w, q, j)
    case Some(p) =>
      p in keys && FirstServed(s, w, p, index)
      && forall q, j: nat :: q in keys && FirstServed(s, w, q, j) ==>
           s.queues[p][index].queuedAt <= s.queues[q][j].queuedAt
  }

  lemma FirstServedUnique(s: State, w: WorkerId, p: string, i: nat, j: nat)
    requires w in s.workers && FirstServed(s, w, p, i) && FirstServed(s, w, p, j)
    ensures i == j
  {}

  lemma {:induction false} SomeServedHasFirst(s: State, w: WorkerId, p: string, i: nat)
    requires w in s.workers && p in s.queues && i < |s.queues[p]| && s.workers[w].Serves(s.queues[p][i])
    ensures exists j: nat :: FirstServed(s, w, p, j)
  {
    if exists j :: 0 <= j < i && s.workers[w].Serves(s.queues[p][j]) {
      var j :| 0 <= j < i && s.workers[w].Serves(s.queues[p][j]);
      SomeServedHasFirst(s, w, p, j);
    } else {
      assert FirstServed(s, w, p, i);
    }
  }

  lemma NoneServed(s: State, w: WorkerId)
    requires w in s.workers && BestSoFar(s, w, s.queues.Keys, None, 0)
    ensures NothingServed(s, w)
  {
    forall p, i | p in s.queues && 0 <= i < |s.queues[p]| ensures !s.workers[w].Serves(s.queues[p][i]) {
      if s.workers[w].Serves(s.queues[p][i]) {
        SomeServedHasFirst(s, w, p, i);
      }
    }
  }

  /** One more queue has been looked at. */
  lemma BestNext(s: State, w: WorkerId, keys: set<string>, best: Option<string>, index: nat, q: string,
                 found: Option<nat>)
    requires w in s.workers && BestSoFar(s, w, keys, best, index) && q in s.queues && q !in keys
    requires if found.Some? then FirstServed(s, w, q, found.value) else forall j: nat :: !FirstServed(s, w, q, j)
    ensures var better := found.Some?
      && (best.None? || s.queues[q][found.value].queuedAt < s.queues[best.value][index].queuedAt);
      BestSoFar(s, w, keys + {q}, if better then Some(q) else best, if better then found.value else index)
  {
    forall j: nat | FirstServed(s, w, q, j) ensures found == Some(j) {
      FirstServedUnique(s, w, q, j, found.value);
    }
  }

  class ProxyServerCore {
    var nextRequestId: nat
    var nextWorkerId: nat
    var workerOrder: seq<WorkerId>
    var workers: map<WorkerId, Worker>
    var providerQueues: map<string, seq<Request>>
    var providerQueuePolicies: map<string, Policy>
    var selectionCursors: map<SelectionKey, nat>
    var activeRequests: map<RequestId, Active>
    var pendingWorkerRequests: map<WorkerId, seq<Message>>
    var pendingHttpResponseSenders: map<RequestId, Sender>
    var workerCancelSignals: seq<CancelSignal>
    var workerGracefulShutdownSignals: seq<ShutdownSignal>
    var gracefulShutdownDisconnectReasons: map<WorkerId, CloseReason>
    /** What each reply channel has received: the far end of the senders. */
    var replyChannels: map<RequestId, seq<ReplyEvent>>
    ghost var history: History

    ghost function View(): State
      reads this
    {
      State(nextRequestId, nextWorkerId, workerOrder, workers, providerQueues, providerQueuePolicies,
            selectionCursors, activeRequests, pendingWorkerRequests, pendingHttpResponseSenders, replyChannels,
            workerCancelSignals, workerGracefulShutdownSignals, gracefulShutdownDisconnectReasons, history)
    }

    ghost predicate Valid()
      reads this
    {
      Sound(View())
    }

    constructor ()
      ensures View() == INITIAL && Valid()
    {
      nextRequestId, nextWorkerId := 1, 1;
      workerOrder, workers := [], map[];
      providerQueues, providerQueuePolicies, selectionCursors := map[], map[], map[];
      activeRequests, pendingWorkerRequests := map[], map[];
      pendingHttpResponseSenders, replyChannels := map[], map[];
      workerCancelSignals, workerGracefulShutdownSignals := [], [];
      gracefulShutdownDisconnectReasons := map[];
      history := History([], [], []);
    }

    // ---- registering and configuring ----

    method ConfigureProviderQueue(provider: string, policy: Policy)
      requires Valid()
      modifies this
      ensures Step(old(View()), Configure(provider, policy), View()) && Valid()
    {
      ghost var s := View();
      providerQueuePolicies := providerQueuePolicies[provider := policy];
      StepKeeps(s, Configure(provider, policy), View());
    }

    method AddWorker(worker: Worker) returns (id: WorkerId)
      modifies this
      ensures id == old(nextWorkerId) && View() == Added(old(View()), worker)
    {
      id := nextWorkerId;
      nextWorkerId := nextWorkerId + 1;
      workerOrder := workerOrder + [id];
      workers := workers[id := worker];
    }

    method RegisterWorker(provider: string, models: seq<string>, prefixes: seq<string>, maxConcurrent: u32,
                          currentLoad: Option<u32>)
      returns (id: WorkerId)
      requires Valid()
      modifies this
      ensures id == old(nextWorkerId) && Valid()
      ensures Step(old(View()), Register(provider, models, prefixes, maxConcurrent, currentLoad), View())
    {
      var capacity := if maxConcurrent < 1 then 1 else maxConcurrent;
      var worker := Worker(provider, models, prefixes, capacity, currentLoad.GetOr(0), [], None);
      RegisterKeeps(View(), worker);
      id := AddWorker(worker);
    }

    // ---- selecting a worker ----

    /** The eligible positions of the listing, in order. */
    method EligiblePositions(scope: Scope, want: Wanted) returns (found: seq<nat>)
      ensures forall p: int :: p in found <==> Eligible(View(), scope, want, p)
      ensures forall i, j :: 0 <= i < j < |found| ==> found[i] < found[j]
    {
      found := [];
      for i := 0 to |workerOrder|
        invariant forall p: int :: p in found <==> p < i && Eligible(View(), scope, want, p)
        invariant forall i, j :: 0 <= i < j < |found| ==> found[i] < found[j]
      {
        var w := workerOrder[i];
        if w in workers && EligibleWorker(workers[w], scope, want.model, want.path) {
          assert forall k :: 0 <= k < |found| ==> found[k] in found;
          found := found + [i];
        }
      }
    }

    /** Those of least load among the given positions. */
    method LeastLoaded(positions: seq<nat>) returns (tied: seq<nat>)
      requires positions != []
      requires forall p :: p in positions ==> p < |workerOrder| && workerOrder[p] in workers
      requires forall i, j :: 0 <= i < j < |positions| ==> positions[i] < positions[j]
      ensures tied != []
      ensures forall p: nat :: p in tied <==>
        p in positions && forall q :: q in positions ==> LoadAt(View(), p) <= LoadAt(View(), q)
      ensures forall i, j :: 0 <= i < j < |tied| ==> tied[i] < tied[j]
    {
      assert positions[0] in positions;
      var best := positions[0];
      for i := 1 to |positions|
        invariant best in positions
        invariant forall k :: 0 <= k < i ==>
          positions[k] in positions && LoadAt(View(), best) <= LoadAt(View(), positions[k])
      {
        assert positions[i] in positions;
        if workers[workerOrder[positions[i]]].SelectionLoad() < workers[workerOrder[best]].SelectionLoad() {
          best := positions[i];
        }
      }
      tied := [];
      for i := 0 to |positions|
        invariant forall p: nat :: p in tied <==> p in positions[..i] && LoadAt(View(), p) == LoadAt(View(), best)
        invariant forall i, j :: 0 <= i < j < |tied| ==> tied[i] < tied[j]
      {
        assert positions[i] in positions;
        assert positions[..i + 1] == positions[..i] + [positions[i]];
        if workers[workerOrder[positions[i]]].SelectionLoad() == workers[workerOrder[best]].SelectionLoad() {
          forall k | 0 <= k < |tied| ensures tied[k] < positions[i] {
            assert tied[k] in tied;
          }
          tied := tied + [positions[i]];
        }
      }
      assert positions[..|positions|] == positions;
      assert best in tied;
    }

    /** Round robin among the least loaded of the eligible positions. */
    method PickInTurn(scope: Scope, want: Wanted, key: SelectionKey, eligible: seq<nat>)
      returns (w: WorkerId, ghost position: nat)
      requires eligible != []
      requires forall p: int :: p in eligible <==> Eligible(View(), scope, want, p)
      requires forall i, j :: 0 <= i < j < |eligible| ==> eligible[i] < eligible[j]
      modifies this`selectionCursors
      ensures SelectsIn(old(View()), scope, want, key, Some(Choice(w, position, key)))
      ensures View() == old(View()).(cursors := old(selectionCursors)[key := position])
    {
      assert forall p :: p in eligible ==> Eligible(View(), scope, want, p);
      var tied := LeastLoaded(eligible);
      assert forall k :: 0 <= k < |tied| ==> tied[k] in tied;
      ghost var s := View();
      assert forall p: int :: p in tied <==> Least(s, scope, want, p) by {
        forall p: int ensures p in tied <==> Least(s, scope, want, p) {
          if Least(s, scope, want, p) { assert p in eligible; }
        }
      }
      var i := 0;
      if key in selectionCursors {
        while i < |tied| && tied[i] <= selectionCursors[key]
          invariant 0 <= i <= |tied|
          invariant forall k :: 0 <= k < i ==> tied[k] <= selectionCursors[key]
        {
          i := i + 1;
        }
        if i == |tied| { i := 0; }
      }
      position := tied[i];
      w := workerOrder[tied[i]];
      assert Least(s, scope, want, tied[i]);
      forall q | Least(s, scope, want, q)
        ensures Turn(Cursor(s, key), |s.order|, tied[i]) <= Turn(Cursor(s, key), |s.order|, q)
      {
        var k :| 0 <= k < |tied| && tied[k] == q;
      }
      selectionCursors := selectionCursors[key := tied[i]];
    }

    method FindEligibleForProvider(providerFilter: Option<string>, want: Wanted)
      returns (r: Option<WorkerId>, ghost c: Option<Choice>)
      modifies this`selectionCursors
      ensures r == if c.Some? then Some(c.value.worker) else None
      ensures var scope := if providerFilter.Some? then Named(providerFilter.value) else Anyone;
        SelectsIn(old(View()), scope, want, SelectionKey(providerFilter.GetOr(ANY_PROVIDER), want.model), c)
        && (c == None <==> !AnyEligible(old(View()), scope, want))
      ensures View() == MovedCursor(old(View()), c)
    {
      var scope := if providerFilter.Some? then Named(providerFilter.value) else Anyone;
      var eligible := EligiblePositions(scope, want);
      if eligible == [] {
        assert forall p: int :: p !in eligible;
        return None, None;
      }
      assert eligible[0] in eligible;
      var key := SelectionKey(providerFilter.GetOr(ANY_PROVIDER), want.model);
      var w; ghost var position;
      w, position := PickInTurn(scope, want, key, eligible);
      return Some(w), Some(Choice(w, position, key));
    }

    method FindUnrouted(want: Wanted) returns (r: Option<WorkerId>, ghost c: Option<Choice>)
      modifies this`selectionCursors
      ensures r == if c.Some? then Some(c.value.worker) else None
      ensures SelectsUnrouted(old(View()), want, c)
      ensures View() == MovedCursor(old(View()), c)
    {
      r, c := FindEligibleForProvider(Some(want.provider), want);
      if r == None {
        r, c := FindEligibleForProvider(None, want);
      }
    }

    /** The eligible positions of one provider. */
    method OfProvider(eligible: seq<nat>, provider: string) returns (found: seq<nat>)
      requires forall p: nat :: p in eligible ==> p < |workerOrder| && workerOrder[p] in workers
      requires forall i, j :: 0 <= i < j < |eligible| ==> eligible[i] < eligible[j]
      ensures forall p: nat :: p in found <==> p in eligible && ProviderAt(View(), p) == provider
      ensures forall i, j :: 0 <= i < j < |found| ==> found[i] < found[j]
    {
      found := [];
      for i := 0 to |eligible|
        invariant forall p: nat :: p in found <==>
          p in eligible && p in eligible[..i] && ProviderAt(View(), p) == provider
        invariant forall i, j :: 0 <= i < j < |found| ==> found[i] < found[j]
      {
        assert eligible[i] in eligible;
        assert eligible[..i + 1] == eligible[..i] + [eligible[i]];
        if workers[workerOrder[eligible[i]]].provider == provider {
          forall k | 0 <= k < |found| ensures found[k] < eligible[i] {
            assert found[k] in found;
          }
          found := found + [eligible[i]];
        }
      }
      assert eligible[..|eligible|] == eligible;
    }

    /** The least loaded worker of one preferred provider, if it has any. */
    method FindPreferred(want: Wanted, routing: Routing, k: nat, eligible: seq<nat>)
      returns (r: Option<WorkerId>, ghost c: Option<Choice>)
      requires routing.order.Some? && k < |routing.order.value|
      requires forall p: int :: p in eligible <==> Eligible(View(), Routed(routing), want, p)
      requires forall i, j :: 0 <= i < j < |eligible| ==> eligible[i] < eligible[j]
      modifies this`selectionCursors
      ensures r == if c.Some? then Some(c.value.worker) else None
      ensures View() == MovedCursor(old(View()), c)
      ensures c == None ==> !Preferred(old(View()), want, routing, k)
      ensures c.Some? ==>
        Preferred(old(View()), want, routing, k) && SelectsPreferred(old(View()), want, routing, k, c.value)
    {
      ghost var s := View();
      var provider := routing.order.value[k];
      assert forall p: nat :: p in eligible ==> Eligible(s, Routed(routing), want, p);
      var preferred := OfProvider(eligible, provider);
      PreferredPositions(s, want, routing, k, eligible, preferred);
      if preferred == [] {
        return None, None;
      }
      var best := LeastLoaded(preferred);
      FirstOfTied(s, want, routing, k, preferred, best);
      var position, key := best[0], SelectionKey(provider, want.model);
      selectionCursors := selectionCursors[key := position];
      return Some(workerOrder[position]), Some(Choice(workerOrder[position], position, key));
    }

    /** The first listed provider that has a worker to offer. */
    method FindInOrder(want: Wanted, routing: Routing, eligible: seq<nat>)
      returns (r: Option<WorkerId>, ghost c: Option<Choice>)
      requires forall p: int :: p in eligible <==> Eligible(View(), Routed(routing), want, p)
      requires forall i, j :: 0 <= i < j < |eligible| ==> eligible[i] < eligible[j]
      modifies this`selectionCursors
      ensures r == if c.Some? then Some(c.value.worker) else None
      ensures View() == MovedCursor(old(View()), c)
      ensures c == None ==> forall k :: !Preferred(old(View()), want, routing, k)
      ensures c.Some? ==> (exists k ::
        FirstPreferred(old(View()), want, routing, k) && SelectsPreferred(old(View()), want, routing, k, c.value))
    {
      ghost var s := View();
      if routing.order.Some? {
        for k := 0 to |routing.order.value|
          invariant View() == s
          invariant forall j :: 0 <= j < k ==> !Preferred(s, want, routing, j)
        {
          r, c := FindPreferred(want, routing, k, eligible);
          if r.Some? {
            assert FirstPreferred(s, want, routing, k);
            return;
          }
        }
      }
      return None, None;
    }

    method FindEligibleWithRouting(want: Wanted, routing: Routing)
      returns (r: Option<WorkerId>, ghost c: Option<Choice>)
      modifies this`selectionCursors
      ensures r == if c.Some? then Some(c.value.worker) else None
      ensures SelectsRouted(old(View()), want, routing, c)
      ensures View() == MovedCursor(old(View()), c)
    {
      ghost var s := View();
      var eligible := EligiblePositions(Routed(routing), want);
      if eligible == [] {
        assert forall p: int :: p !in eligible;
        if routing.allowFallbacks.GetOr(true) {
          r, c := FindUnrouted(want);
          return;
        }
        return None, None;
      }
      assert eligible[0] in eligible;
      assert AnyEligible(s, Routed(routing), want);
      r, c := FindInOrder(want, routing, eligible);
      if r == None {
        var key := SelectionKey(want.provider, want.model);
        var w; ghost var position;
        w, position := PickInTurn(Routed(routing), want, key, eligible);
        r, c := Some(w), Some(Choice(w, position, key));
      }
    }

    method FindEligibleWorkerId(want: Wanted) returns (r: Option<WorkerId>, ghost c: Option<Choice>)
      modifies this`selectionCursors
      ensures r == if c.Some? then Some(c.value.worker) else None
      ensures Selects(old(View()), want, c)
      ensures View() == MovedCursor(old(View()), c)
    {
      if want.routing.Some? {
        r, c := FindEligibleWithRouting(want, want.routing.value);
      } else {
        r, c := FindUnrouted(want);
      }
    }

    // ---- dispatching queued work ----

    method AssignToWorker(w: WorkerId, r: Request)
      requires w in workers
      modifies this
      ensures View() == Assign(old(View()), w, r)
    {
      workers := workers[w := workers[w].Took(r.id)];
      var box := if w in pendingWorkerRequests then pendingWorkerRequests[w] else [];
      pendingWorkerRequests := pendingWorkerRequests[w := box + [r.ToMessage()]];
      activeRequests := activeRequests[r.id := InFlight(r, w, None)];
      history := history.(assignments := history.assignments + [Assignment(r.id, w)]);
    }

    /** The first request of a queue that the worker can serve. */
    method FirstCompatible(w: WorkerId, p: string) returns (found: Option<nat>)
      requires w in workers && p in providerQueues
      ensures if found.Some? then FirstServed(View(), w, p, found.value)
              else forall j: nat :: !FirstServed(View(), w, p, j)
    {
      var queue := providerQueues[p];
      for i := 0 to |queue|
        invariant forall j :: 0 <= j < i ==> !workers[w].Serves(queue[j])
      {
        if workers[w].Serves(queue[i]) {
          return Some(i);
        }
      }
      return None;
    }

    /** The oldest first compatible entry over all queues, visited in no particular order. */
    method BestCompatible(w: WorkerId) returns (best: Option<string>, index: nat)
      requires w in workers
      ensures BestSoFar(View(), w, providerQueues.Keys, best, index)
    {
      best, index := None, 0;
      var keys := providerQueues.Keys;
      while keys != {}
        invariant keys <= providerQueues.Keys
        invariant BestSoFar(View(), w, providerQueues.Keys - keys, best, index)
        decreases |keys|
      {
        var q :| q in keys;
        var found := FirstCompatible(w, q);
        BestNext(View(), w, providerQueues.Keys - keys, best, index, q, found);
        assert providerQueues.Keys - keys + {q} == providerQueues.Keys - (keys - {q});
        if found.Some? {
          if best == None || providerQueues[q][found.value].queuedAt < providerQueues[best.value][index].queuedAt {
            best, index := Some(q), found.value;
          }
        }
        keys := keys - {q};
      }
      assert providerQueues.Keys - keys == providerQueues.Keys;
    }

    method DispatchNextCompatible(w: WorkerId) returns (got: Option<RequestId>)
      modifies this
      ensures Dispatches(old(View()), w, got, View())
    {
      if w !in workers || !workers[w].HasCapacity() {
        return None;
      }
      var best, index := BestCompatible(w);
      if best == None {
        NoneServed(View(), w);
        return None;
      }
      var p := best.value;
      var r := providerQueues[p][index];
      assert BestPick(View(), w, p, index);
      providerQueues := providerQueues[p := RemoveAt(providerQueues[p], index)];
      AssignToWorker(w, r);
      return Some(r.id);
    }

    /** Dispatches to one worker until it is full or serves nothing that waits. */
    method DispatchWhilePossible(w: WorkerId) returns (got: seq<RequestId>)
      requires w in workers
      modifies this
      ensures Drains(old(View()), w, got, View())
    {
      got := [];
      while workers[w].HasCapacity()
        invariant w in workers
        invariant Pulls(old(View()), w, got, View())
        decreases workers[w].maxConcurrent - |workers[w].inFlight|
      {
        ghost var before := View();
        var one := DispatchNextCompatible(w);
        if one == None {
          break;
        }
        PullGrows(before, w, one.value, View());
        PullsNext(old(View()), w, got, before, one.value, View());
        got := got + [one.value];
      }
      PullsThenDrains(old(View()), w, got, View(), [], View());
      assert got + [] == got;
    }

    method UpdateWorkerModels(w: WorkerId, models: seq<string>, currentLoad: u32) returns (got: seq<RequestId>)
      requires Valid()
      modifies this
      ensures Retunes(old(View()), w, models, currentLoad, got, View()) && Valid()
    {
      ghost var s := View();
      got := [];
      if w in workers {
        workers := workers[w := workers[w].(models := models, reportedLoad := currentLoad)];
        assert View() == Tuned(s, w, models, currentLoad);
        got := DispatchWhilePossible(w);
      }
      assert Retunes(s, w, models, currentLoad, got, View());
      StepKeeps(s, UpdateModels(w, models, currentLoad), View());
    }

    method RecordWorkerPong(w: WorkerId, currentLoad: u32) returns (got: seq<RequestId>)
      requires Valid()
      modifies this
      ensures Pongs(old(View()), w, currentLoad, got, View()) && Valid()
    {
      ghost var s := View();
      got := [];
      if w in workers {
        workers := workers[w := workers[w].(reportedLoad := currentLoad)];
        assert View() == Tuned(s, w, s.workers[w].models, currentLoad);
        got := DispatchWhilePossible(w);
      }
      assert Pongs(s, w, currentLoad, got, View());
      StepKeeps(s, Pong(w, currentLoad), View());
    }

    // ---- submitting ----

    /** Whether anybody, with or without room, supports the model. */
    method HasCompatibleWorker(model: string) returns (supported: bool)
      ensures supported == SomeoneSupports(View(), model)
    {
      var ws := workers;
      return exists w :: w in ws && !ws[w].Draining() && ws[w].SupportsModel(model);
    }

    /** Forgets a request that its provider's full queue turns away. */
    method Reject(r: Request, ghost s: State) returns (why: FailureReason)
      requires View() == Noted(s, r).(queues := s.queues[r.provider := s.Queue(r.provider)]) && r.id !in s.active
      modifies this
      ensures why == if SomeoneSupports(s, r.model) then QueueFull else NoWorkersAvailable
      ensures View() == Refused(s, r.provider)
    {
      var supported := HasCompatibleWorker(r.model);
      assert supported == SomeoneSupports(s, r.model);
      NotedThenPlaced(s, r);
      activeRequests := activeRequests - {r.id};
      return if supported then QueueFull else NoWorkersAvailable;
    }

    method PushBack(r: Request, queue: seq<Request>, ghost s: State)
      requires View() == Noted(s, r) && queue == s.Queue(r.provider) && r.id !in s.active
      modifies this
      ensures View() == Enqueued(s, r)
    {
      providerQueues := providerQueues[r.provider := queue + [r]];
      NotedThenPlaced(s, r);
    }

    /** Nobody can take the request now: it waits, unless its provider's queue is full. */
    method QueueOrReject(r: Request, ghost s: State) returns (out: Outcome)
      requires View() == Noted(s, r) && r.id == s.nextRequest && r.id !in s.active
      modifies this
      ensures PlacesAs(s, r, None, out, View())
    {
      var queue := if r.provider in providerQueues then providerQueues[r.provider] else [];
      var policy := if r.provider in providerQueuePolicies then providerQueuePolicies[r.provider] else DEFAULT_POLICY;
      if |queue| < policy.maxQueueLen {
        PushBack(r, queue, s);
        out := Waiting(r.id, |queue| + 1);
      } else {
        providerQueues := providerQueues[r.provider := queue];
        var why := Reject(r, s);
        out := Rejected(r.id, why);
      }
    }

    method SubmitTransportRequest(x: Submission) returns (out: Outcome)
      requires Valid()
      modifies this
      ensures Places(old(View()), x, out, View()) && Valid()
    {
      ghost var s := View();
      var r := Request(nextRequestId, x.want.provider, x.want.model, x.now, x.want.path, x.streaming,
                       x.want.routing, 0);
      nextRequestId := nextRequestId + 1;
      activeRequests := activeRequests[r.id := Queued(r)];
      assert View() == Noted(s, r) && r == RequestOf(s, x);

      var chosen; ghost var c;
      chosen, c := FindEligibleWorkerId(x.want);
      SelectsSame(Noted(s, r), s, x.want, c);
      if chosen.Some? {
        SelectedIsEligible(s, x.want, c.value);
        NotedThenAssigned(s, r, c.value);
        AssignToWorker(chosen.value, r);
        out := Dispatched(r.id, chosen.value);
      } else {
        out := QueueOrReject(r, s);
      }
      assert PlacesAs(s, r, c, out, View());
      PlacingKeeps(s, x, out, View());
    }

    method HoldReply(id: RequestId, sender: Sender)
      modifies this
      ensures View() == Opened(old(View()), id, sender)
    {
      pendingHttpResponseSenders := pendingHttpResponseSenders[id := sender];
      replyChannels := replyChannels[id := []];
    }

    /** Submits a request whose HTTP handler waits on a reply channel of the given kind. */
    method SubmitHttpRequest(x: Submission, sender: Sender) returns (out: Outcome)
      requires Valid() && x.sender == Some(sender) && x.streaming == sender.Streaming?
      modifies this
      ensures Submits(old(View()), x, out, View()) && Valid()
    {
      ghost var s := View();
      out := SubmitTransportRequest(x);
      ghost var mid := View();
      if !out.Rejected? {
        PlacedIdIs(s, x, out, mid);
        HoldReply(out.id, sender);
      }
      SubmitKeeps(s, x, out, mid, View());
    }

    // ---- finishing and replying ----

    method RemoveWorker(w: WorkerId)
      modifies this
      ensures View() == if w in old(workers) then Moves.RemoveWorker(old(View()), w, None) else old(View())
    {
      if w in workers {
        workers := workers - {w};
        workerOrder := Filter(workerOrder, Outside({w}));
        pendingWorkerRequests := pendingWorkerRequests - {w};
        workerCancelSignals := Filter(workerCancelSignals, CancelOutside({w}));
        workerGracefulShutdownSignals := Filter(workerGracefulShutdownSignals, ShutdownOutside({w}));
      }
    }

    /** Removes a worker whose socket is to be closed for the given reason. */
    method RemoveWithReason(w: WorkerId, close: CloseReason)
      requires w in workers
      modifies this
      ensures View() == Moves.RemoveWorker(old(View()), w, Some(close))
    {
      RemoveThenReason(View(), w, close);
      gracefulShutdownDisconnectReasons := gracefulShutdownDisconnectReasons[w := close];
      RemoveWorker(w);
    }

    method FinishRequest(w: WorkerId, id: RequestId) returns (got: Option<RequestId>)
      requires Valid()
      modifies this
      ensures Finishes(old(View()), w, id, got, View()) && Valid()
    {
      ghost var s := View();
      if w !in workers || id !in workers[w].inFlight {
        return None;
      }
      var worker := workers[w];
      var left := RemoveAt(worker.inFlight, IndexOf(worker.inFlight, id));
      workers := workers[w := worker.(inFlight := left, reportedLoad := SaturatingSub(worker.reportedLoad, 1))];
      activeRequests := activeRequests - {id};
      assert View() == Moves.Finished(s, w, id);
      if worker.Draining() && left == [] {
        RemoveWithReason(w, Completed);
        got := None;
      } else {
        got := DispatchNextCompatible(w);
      }
      FinishKeeps(s, w, id, got, View());
    }

    method SendReply(id: RequestId, event: ReplyEvent)
      modifies this
      ensures View() == Send(old(View()), id, event)
    {
      var log := if id in replyChannels then replyChannels[id] else [];
      replyChannels := replyChannels[id := log + [event]];
    }

    method StreamHttpResponseChunk(w: WorkerId, id: RequestId, data: Bytes) returns (ok: bool)
      requires Valid()
      modifies this
      ensures ok == Owns(old(View()), w, id) && View() == Chunked(old(View()), w, id, data) && Valid()
    {
      ghost var s := View();
      ok := id in activeRequests && activeRequests[id].InFlight? && activeRequests[id].worker == w;
      if ok && id in pendingHttpResponseSenders && pendingHttpResponseSenders[id].Streaming? {
        SendReply(id, Chunk(data));
      }
      ChunkKeeps(s, w, id, data);
    }

    /** Takes the reply's sender before anything else, whoever `w` is. */
    method CompleteHttpResponse(w: WorkerId, id: RequestId, body: Bytes) returns (ok: bool)
      requires Valid()
      modifies this
      ensures Completes(old(View()), w, id, body, ok, View()) && Valid()
    {
      ghost var s := View();
      if id !in pendingHttpResponseSenders {
        return false;
      }
      pendingHttpResponseSenders := pendingHttpResponseSenders - {id};
      SenderTakenSound(s, id);
      ghost var taken := View();
      var got := FinishRequest(w, id);
      ghost var done := View();
      ok := got.Some? || id !in activeRequests;
      SendReply(id, Complete(body));
      CompletesAre(s, w, id, body, ok, got, taken, done, View());
      CompleteKeeps(s, w, id, body, ok, View());
    }

    // ---- what the sockets collect ----

    method TakePendingWorkerRequests(w: WorkerId) returns (messages: seq<Message>)
      requires Valid()
      modifies this
      ensures messages == old(View()).Outbox(w) && Step(old(View()), TakeRequests(w), View()) && Valid()
    {
      ghost var s := View();
      messages := if w in pendingWorkerRequests then pendingWorkerRequests[w] else [];
      pendingWorkerRequests := pendingWorkerRequests - {w};
      StepKeeps(s, TakeRequests(w), View());
    }

    method TakePendingWorkerCancelSignals(w: WorkerId) returns (pending: seq<CancelSignal>)
      requires Valid()
      modifies this
      ensures pending == DueCancels(old(View()), w) && View() == CancelsTaken(old(View()), w) && Valid()
    {
      ghost var s := View();
      var remaining: seq<CancelSignal> := [];
      pending := [];
      for i := 0 to |workerCancelSignals|
        invariant View() == s
        invariant pending == Filter(workerCancelSignals[..i], PendingOn(s, w))
        invariant remaining == Filter(workerCancelSignals[..i], PendingElsewhere(s, w))
      {
        var signal := workerCancelSignals[i];
        var still := signal.id in activeRequests && activeRequests[signal.id].InFlight?
          && activeRequests[signal.id].worker == signal.worker && activeRequests[signal.id].cancellation.Some?;
        FilterNext(workerCancelSignals, i, PendingOn(s, w));
        FilterNext(workerCancelSignals, i, PendingElsewhere(s, w));
        if signal.worker == w && still {
          pending := pending + [signal];
        } else if still {
          remaining := remaining + [signal];
        }
      }
      WholePrefix(workerCancelSignals);
      workerCancelSignals := remaining;
      history := history.(delivered := history.delivered + pending);
      CancelsTakenKeeps(s, w);
    }

    method TakePendingWorkerGracefulShutdownSignals(w: WorkerId) returns (pending: seq<ShutdownSignal>)
      requires Valid()
      modifies this
      ensures pending == DueShutdowns(old(View()), w) && View() == ShutdownsTaken(old(View()), w) && Valid()
    {
      ghost var s := View();
      var remaining: seq<ShutdownSignal> := [];
      pending := [];
      for i := 0 to |workerGracefulShutdownSignals|
        invariant View() == s
        invariant pending == Filter(workerGracefulShutdownSignals[..i], RegisteredHere(s.workers.Keys, w))
        invariant remaining == Filter(workerGracefulShutdownSignals[..i], RegisteredElsewhere(s.workers.Keys, w))
      {
        var signal := workerGracefulShutdownSignals[i];
        FilterNext(workerGracefulShutdownSignals, i, RegisteredHere(s.workers.Keys, w));
        FilterNext(workerGracefulShutdownSignals, i, RegisteredElsewhere(s.workers.Keys, w));
        if signal.worker == w && signal.worker in workers {
          pending := pending + [signal];
        } else if signal.worker in workers {
          remaining := remaining + [signal];
        }
      }
      WholePrefix(workerGracefulShutdownSignals);
      workerGracefulShutdownSignals := remaining;
      StepKeeps(s, TakeShutdownSignals(w), View());
    }

    method TakeGracefulShutdownDisconnectReason(w: WorkerId) returns (close: Option<CloseReason>)
      requires Valid()
      modifies this
      ensures var reasons := old(gracefulShutdownDisconnectReasons);
        close == if w in reasons then Some(reasons[w]) else None
      ensures Step(old(View()), TakeCloseReason(w), View()) && Valid()
    {
      ghost var s := View();
      close := if w in gracefulShutdownDisconnectReasons then Some(gracefulShutdownDisconnectReasons[w]) else None;
      gracefulShutdownDisconnectReasons := gracefulShutdownDisconnectReasons - {w};
      StepKeeps(s, TakeCloseReason(w), View());
    }

    // ---- shutting down ----

    method AskToDrain(w: WorkerId, notice: Option<string>, timeout: nat, deadline: nat) returns (signal: ShutdownSignal)
      requires w in workers
      modifies this
      ensures signal == ShutdownSignal(w, notice, timeout)
      ensures View() == Moves.Draining(old(View()), signal, deadline)
    {
      workers := workers[w := workers[w].(deadline := Some(deadline))];
      signal := ShutdownSignal(w, notice, timeout);
      workerGracefulShutdownSignals := workerGracefulShutdownSignals + [signal];
    }

    /** Asks one more worker to drain, unless it is draining already. */
    method AskUnlessDraining(ghost s: State, ghost asked: seq<WorkerId>, w: WorkerId, notice: Option<string>,
                             timeout: nat, deadline: nat)
      returns (signals: seq<ShutdownSignal>)
      requires w in s.workers && w !in asked && View() == AllDraining(s, asked, notice, timeout, deadline)
      modifies this
      ensures var now := if s.workers[w].Draining() then asked else asked + [w];
        ShutdownSignals(now, notice, timeout) == ShutdownSignals(asked, notice, timeout) + signals
        && View() == AllDraining(s, now, notice, timeout, deadline)
    {
      DrainTurn(s, asked, w, notice, timeout, deadline);
      if workers[w].Draining() {
        return [];
      }
      var signal := AskToDrain(w, notice, timeout, deadline);
      return [signal];
    }

    method BeginGracefulShutdown(notice: Option<string>, timeout: nat, now: nat) returns (signals: seq<ShutdownSignal>)
      requires Valid()
      modifies this
      ensures signals == ShutdownSignals(NotDraining(old(View())), notice, timeout)
      ensures View() == ShutdownBegun(old(View()), notice, timeout, now) && Valid()
    {
      ghost var s := View();
      var listing, deadline := workerOrder, now + timeout;
      signals := [];
      DrainNobody(s, notice, timeout, deadline);
      for i := 0 to |listing|
        invariant signals == ShutdownSignals(Filter(listing[..i], Undrained(s)), notice, timeout)
        invariant View() == AllDraining(s, Filter(listing[..i], Undrained(s)), notice, timeout, deadline)
      {
        UndrainedNext(s, i);
        var more := AskUnlessDraining(s, Filter(listing[..i], Undrained(s)), listing[i], notice, timeout, deadline);
        signals := signals + more;
      }
      ShutdownDone(s, View(), notice, timeout, now);
    }

    method DisconnectDrainedWorkerIfIdle(w: WorkerId) returns (gone: bool)
      requires Valid()
      modifies this
      ensures gone == Drained(old(View()), w) && Step(old(View()), DisconnectIfDrained(w), View()) && Valid()
    {
      ghost var s := View();
      gone := w in workers && workers[w].Draining() && workers[w].inFlight == [];
      if gone {
        RemoveWithReason(w, Completed);
      }
      StepKeeps(s, DisconnectIfDrained(w), View());
    }

    // ---- ending many at once ----

    method FailPendingHttpResponse(id: RequestId, why: FailureReason) returns (failed: bool)
      modifies this
      ensures failed == (id in old(pendingHttpResponseSenders)) && View() == FailReply(old(View()), id, why)
    {
      failed := id in pendingHttpResponseSenders;
      if failed {
        pendingHttpResponseSenders := pendingHttpResponseSenders - {id};
        var log := if id in replyChannels then replyChannels[id] else [];
        replyChannels := replyChannels[id := log + [Failure(why)]];
      }
    }

    /** Forgets a request and fails its reply. */
    method FailRequest(id: RequestId, why: FailureReason)
      modifies this
      ensures View() == FailReply(old(View()).(active := old(activeRequests) - {id}), id, why)
    {
      activeRequests := activeRequests - {id};
      var _ := FailPendingHttpResponse(id, why);
    }

    /** Fails everything a worker runs, then removes it. */
    method Evict(w: WorkerId, why: FailureReason, close: CloseReason) returns (failed: seq<RequestId>)
      requires w in workers && Inv(View())
      modifies this
      ensures failed == old(workers)[w].inFlight
      ensures View() == Evicted(old(View()), {w}, why, close)
    {
      ghost var s := View();
      failed := workers[w].inFlight;
      FailedThenRemoved(s, w, why, close);
      FailAllRunning(failed, why);
      RemoveWithReason(w, close);
    }

    method FailAllRunning(ids: seq<RequestId>, why: FailureReason)
      modifies this
      ensures View() == Failing(old(View()), Elements(ids), why)
    {
      ghost var s := View();
      FailingNone(s, ids, why);
      for i := 0 to |ids|
        invariant View() == Failing(s, Elements(ids[..i]), why)
      {
        FailingTurn(s, ids, i, why);
        FailRequest(ids[i], why);
      }
      WholePrefix(ids);
    }

    /** Evicts the listed workers in turn. */
    method EvictAll(ws: seq<WorkerId>, why: FailureReason, close: CloseReason) returns (failed: seq<RequestId>)
      requires Inv(View()) && NoDup(ws) && forall w :: w in ws ==> w in workers
      modifies this
      ensures failed == RunningInTurn(old(workers), ws)
      ensures View() == Evicted(old(View()), Elements(ws), why, close)
    {
      ghost var s := View();
      failed := [];
      EvictNone(s, ws, why, close);
      for i := 0 to |ws|
        invariant View() == Evicted(s, Elements(ws[..i]), why, close) && Inv(View())
        invariant failed == RunningInTurn(s.workers, ws[..i])
      {
        EvictTurn(s, ws, i, why, close);
        RunningNext(s.workers, ws, i);
        var more := Evict(ws[i], why, close);
        failed := failed + more;
      }
      WholePrefix(ws);
    }

    method ExpireGracefulShutdown(now: nat) returns (gone: seq<WorkerId>, failed: seq<RequestFailure>)
      requires Valid()
      modifies this
      ensures gone == Filter(old(workerOrder), OverdueAt(old(View()), now))
      ensures failed == AllFailed(RunningInTurn(old(workers), gone), GracefulShutdownTimedOut)
      ensures View() == Evicted(old(View()), Overdue(old(View()), now), GracefulShutdownTimedOut, TimedOut) && Valid()
    {
      ghost var s := View();
      gone := [];
      for i := 0 to |workerOrder|
        invariant View() == s && gone == Filter(workerOrder[..i], OverdueAt(s, now))
      {
        FilterNext(workerOrder, i, OverdueAt(s, now));
        var w := workerOrder[i];
        if w in workers && workers[w].deadline.Some? && workers[w].deadline.value <= now {
          gone := gone + [w];
        }
      }
      WholePrefix(workerOrder);
      ListedAre(s, OverdueAt(s, now), Overdue(s, now));
      var ids := EvictAll(gone, GracefulShutdownTimedOut, TimedOut);
      failed := AllFailed(ids, GracefulShutdownTimedOut);
      StepKeeps(s, ExpireShutdown(now), View());
    }

    method ClearQueue(p: string)
      modifies this
      ensures View() == QueueCleared(old(View()), p)
    {
      ghost var s := View();
      var queue := if p in providerQueues then providerQueues[p] else [];
      var ids: seq<RequestId> := [];
      for i := 0 to |queue|
        invariant View() == s && Elements(ids) == IdsOf(queue[..i])
      {
        IdsNext(queue, i);
        ids := ids + [queue[i].id];
      }
      WholePrefix(queue);
      providerQueues := providerQueues - {p};
      QueueClearedIs(s, p);
      FailAllRunning(ids, ProviderDeleted);
    }

    method WorkersForProvider(p: string) returns (ws: seq<WorkerId>)
      ensures ws == Filter(workerOrder, BelongsTo(View(), p))
    {
      ghost var s := View();
      ws := [];
      for i := 0 to |workerOrder|
        invariant ws == Filter(workerOrder[..i], BelongsTo(s, p))
      {
        FilterNext(workerOrder, i, BelongsTo(s, p));
        var w := workerOrder[i];
        if w in workers && workers[w].provider == p {
          ws := ws + [w];
        }
      }
      WholePrefix(workerOrder);
    }

    method DeleteProvider(p: string)
      requires Valid()
      modifies this
      ensures View() == ProviderDeletedFrom(old(View()), p) && Valid()
    {
      ghost var s := View();
      ClearQueue(p);
      ghost var t := View();
      ClearedInv(s, p);
      var ws := WorkersForProvider(p);
      ListedAre(t, BelongsTo(t, p), WorkersOf(t, p));
      var _ := EvictAll(ws, ProviderDeleted, Completed);
      DeleteKeeps(s, p);
    }

    // ---- queue timeouts ----

    /** Splits one timed queue into what has expired, which is forgotten, and the rest. */
    method ExpireQueue(p: string, timeout: nat, now: nat) returns (expired: seq<RequestId>)
      requires p in providerQueues && PolicyIn(providerQueuePolicies, p).timeout == Some(timeout)
      modifies this
      ensures var policy := PolicyIn(old(providerQueuePolicies), p);
        expired == ExpiredList(old(providerQueues)[p], policy, now)
        && View() == old(View()).(active := old(activeRequests) - Elements(expired),
                                  queues := old(providerQueues)
                                            [p := Filter(old(providerQueues)[p], Unexpired(policy, now))])
    {
      ghost var s := View();
      ghost var policy := PolicyIn(providerQueuePolicies, p);
      var queue, retained := providerQueues[p], [];
      expired := [];
      MinusNone(s.active);
      for i := 0 to |queue|
        invariant retained == Filter(queue[..i], Unexpired(policy, now))
        invariant expired == ExpiredList(queue[..i], policy, now)
        invariant View() == s.(active := s.active - Elements(expired))
      {
        var r := queue[i];
        ExpireTurn(s, queue, i, policy, now, expired, retained);
        if SaturatingSub(now, r.queuedAt) >= timeout {
          activeRequests := activeRequests - {r.id};
          expired := expired + [r.id];
        } else {
          retained := retained + [r];
        }
      }
      WholePrefix(queue);
      providerQueues := providerQueues[p := retained];
    }

    /** Goes through the queues, in no particular order: `turns` is the order it took. */
    method CollectExpired(now: nat) returns (failed: seq<RequestId>, ghost turns: seq<string>)
      modifies this
      ensures NoDup(turns) && Elements(turns) == old(providerQueues).Keys
      ensures failed == ExpiredInTurn(old(View()), turns, now) && Elements(failed) == ExpiredIds(old(View()), now)
      ensures View() == old(View()).(active := old(activeRequests) - Elements(failed),
                                     queues := KeptQueues(old(providerQueues), old(providerQueuePolicies), now))
    {
      ghost var s := View();
      failed, turns := [], [];
      var keys := providerQueues.Keys;
      CollectNone(s, now);
      while keys != {}
        invariant keys <= s.queues.Keys
        invariant NoDup(turns) && Elements(turns) == s.queues.Keys - keys
        invariant failed == ExpiredInTurn(s, turns, now)
        invariant Elements(failed) == ExpiredFrom(s, s.queues.Keys - keys, now)
        invariant View() == Collected(s, keys, now)
        decreases |keys|
      {
        var p :| p in keys;
        SweepTurn(s, keys, turns, failed, p, now);
        var policy := if p in providerQueuePolicies then providerQueuePolicies[p] else DEFAULT_POLICY;
        if policy.timeout.Some? {
          var expired := ExpireQueue(p, policy.timeout.value, now);
          failed := failed + expired;
        }
        turns := turns + [p];
        keys := keys - {p};
      }
      CollectDone(s, now);
    }

    method FailAll(ids: seq<RequestId>, why: FailureReason)
      modifies this
      ensures View() == FailReplies(old(View()), AllFor(Elements(ids), why))
    {
      ghost var s := View();
      FailNobody(s, why);
      for i := 0 to |ids|
        invariant View() == FailReplies(s, AllFor(Elements(ids[..i]), why))
      {
        FailNext(s, Elements(ids[..i]), ids[i], why);
        ElementsNext(ids, i);
        var _ := FailPendingHttpResponse(ids[i], why);
      }
      WholePrefix(ids);
    }

    method ExpireQueueTimeouts(now: nat) returns (failed: seq<RequestFailure>, ghost turns: seq<string>)
      requires Valid()
      modifies this
      ensures NoDup(turns) && Elements(turns) == old(providerQueues).Keys
      ensures failed == AllFailed(ExpiredInTurn(old(View()), turns, now), QueueTimedOut)
      ensures View() == QueuesExpired(old(View()), now) && Valid()
    {
      ghost var s := View();
      var ids;
      ids, turns := CollectExpired(now);
      failed := AllFailed(ids, QueueTimedOut);
      FailAll(ids, QueueTimedOut);
      StepKeeps(s, ExpireQueues(now), View());
    }

    // ---- losing a worker ----

    /** A running request goes back to waiting, at its worker's loss, if it may. */
    method ReleaseRequest(id: RequestId) returns (back: Option<Request>, loss: Option<FailureReason>)
      requires id in activeRequests ==> activeRequests[id].request.id == id
      modifies this
      ensures loss == LossOf(old(activeRequests), id)
      ensures var s := old(View());
        if Requeueable(s.active, id) then
          back == Some(Bumped(s.active[id].request))
          && View() == s.(active := s.active[back.value.id := Queued(back.value)])
        else
          back == None
          && View() == (if id in s.active && s.active[id].InFlight?
                        then FailReply(s.(active := s.active - {id}), id,
                                       if s.active[id].cancellation.Some? then RequestAlreadyCanceled
                                       else MaxRequeuesExceeded)
                        else s.(active := s.active - {id}))
    {
      if id !in activeRequests {
        assert activeRequests - {id} == activeRequests;
        return None, None;
      }
      var entry := activeRequests[id];
      activeRequests := activeRequests - {id};
      if entry.Queued? {
        return None, None;
      }
      if entry.cancellation.Some? {
        var _ := FailPendingHttpResponse(id, RequestAlreadyCanceled);
        return None, Some(RequestAlreadyCanceled);
      }
      if entry.request.requeues >= MAX_REQUEUE_COUNT {
        var _ := FailPendingHttpResponse(id, MaxRequeuesExceeded);
        return None, Some(MaxRequeuesExceeded);
      }
      var r := entry.request.(requeues := entry.request.requeues + 1);
      activeRequests := activeRequests[r.id := Queued(r)];
      assert old(activeRequests)[id := Queued(r)] == activeRequests;
      return Some(r), None;
    }

    /** Pushes the records to the front of a queue, keeping their order. */
    method PushFront(p: string, records: seq<Request>)
      modifies this
      ensures View() == old(View()).(queues := PutBack(old(providerQueues), p, records))
    {
      if p in providerQueues {
        var queue := providerQueues[p];
        var k := |records|;
        while k > 0
          invariant 0 <= k <= |records|
          invariant View() == old(View()) && queue == records[k..] + providerQueues[p]
        {
          k := k - 1;
          queue := [records[k]] + queue;
        }
        providerQueues := providerQueues[p := queue];
      } else if records != [] {
        providerQueues := providerQueues[p := records];
      }
    }

    method DisconnectWorker(w: WorkerId) returns (outcome: Option<DisconnectOutcome>)
      requires Valid()
      modifies this
      ensures outcome == if w in old(workers) then Some(LossOutcome(old(View()), w)) else None
      ensures View() == Disconnected(old(View()), w) && Valid()
    {
      ghost var s := View();
      DisconnectKeeps(s, w);
      if w !in workers {
        return None;
      }
      var worker := workers[w];
      RunningAreActive(s, w);
      RemoveWorker(w);
      var records, failed := ReleaseAll(worker.inFlight);
      LostThenReleased(s, w);
      PushFront(worker.provider, records);
      return Some(DisconnectOutcome(IdsInOrder(records), failed));
    }

    /** Releases a lost worker's requests, in the order it was running them. */
    method ReleaseAll(ids: seq<RequestId>) returns (records: seq<Request>, failed: seq<RequestFailure>)
      requires NoDup(ids)
      requires forall id :: id in ids ==>
        id in activeRequests && activeRequests[id].InFlight? && activeRequests[id].request.id == id
      modifies this
      ensures records == RequeuedRecords(old(activeRequests), ids) && failed == LostFailures(old(activeRequests), ids)
      ensures View() == Losing(old(View()), ids)
    {
      ghost var s := View();
      records, failed := [], [];
      LosingNone(s, ids);
      for i := 0 to |ids|
        invariant records == RequeuedRecords(s.active, ids[..i]) && failed == LostFailures(s.active, ids[..i])
        invariant View() == Losing(s, ids[..i])
      {
        LosingTurn(s, ids, i);
        var back, loss := ReleaseRequest(ids[i]);
        RecordsNext(s.active, ids, i);
        LostFailuresNext(s.active, ids, i);
        if back.Some? {
          records := records + [back.value];
        } else if loss.Some? {
          failed := failed + [RequestFailure(ids[i], loss.value)];
        }
      }
      WholePrefix(ids);
    }

    // ---- cancelling ----

    /** Where the request waits in the given queue. */
    method PositionOf(p: string, id: RequestId) returns (found: Option<nat>)
      requires p in providerQueues
      ensures found.Some? ==> found.value < |providerQueues[p]| && providerQueues[p][found.value].id == id
      ensures found.Some? ==> forall j :: 0 <= j < found.value ==> providerQueues[p][j].id != id
      ensures found == None ==> forall j :: 0 <= j < |providerQueues[p]| ==> providerQueues[p][j].id != id
    {
      for i := 0 to |providerQueues[p]|
        invariant forall j :: 0 <= j < i ==> providerQueues[p][j].id != id
      {
        if providerQueues[p][i].id == id {
          return Some(i);
        }
      }
      return None;
    }

    method CancelWaiting(id: RequestId, ghost reason: CancelReason) returns (out: Option<CancelOutcome>)
      requires id in activeRequests && activeRequests[id].Queued? && activeRequests[id].request.id == id
      modifies this
      ensures Cancels(old(View()), id, reason, out, View())
    {
      ghost var s := View();
      var p := activeRequests[id].request.provider;
      if p !in providerQueues {
        return None;
      }
      var found := PositionOf(p, id);
      if found == None {
        return None;
      }
      assert AtHome(s, s.active[id].request, found.value);
      providerQueues := providerQueues[p := RemoveAt(providerQueues[p], found.value)];
      activeRequests := activeRequests - {id};
      pendingHttpResponseSenders := pendingHttpResponseSenders - {id};
      assert View() == Dropped(s, p, found.value, None);
      return Some(Removed(id));
    }

    method CancelRunning(id: RequestId, reason: CancelReason) returns (out: Option<CancelOutcome>)
      requires id in activeRequests && activeRequests[id].InFlight?
      modifies this
      ensures Cancels(old(View()), id, reason, out, View())
    {
      ghost var s := View();
      var entry := activeRequests[id];
      var signal := CancelSignal(entry.worker, id, entry.cancellation.GetOr(reason));
      if entry.cancellation == None {
        activeRequests := activeRequests[id := entry.(cancellation := Some(reason))];
        workerCancelSignals := workerCancelSignals + [signal];
        history := history.(raised := history.raised + [signal]);
        assert View() == Marked(s, id, reason);
      }
      return Some(Signalled(signal));
    }

    method CancelRequest(id: RequestId, reason: CancelReason) returns (out: Option<CancelOutcome>)
      requires Valid()
      modifies this
      ensures Cancels(old(View()), id, reason, out, View()) && Valid()
    {
      ghost var s := View();
      if id !in activeRequests {
        return None;
      }
      if activeRequests[id].Queued? {
        out := CancelWaiting(id, reason);
      } else {
        out := CancelRunning(id, reason);
      }
      CancelKeeps(s, id, reason, out, View());
    }
  }
}
