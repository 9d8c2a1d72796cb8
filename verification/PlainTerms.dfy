/** Who may be given a request, said again in terms of a worker's fields alone. */
module PlainTerms {
  import opened Seqs
  import opened RelayState
  import opened Index
  import opened Selection

  function LoadOf(worker: Worker): nat {
    if worker.reportedLoad >= |worker.inFlight| then worker.reportedLoad else |worker.inFlight|
  }

  predicate HasRoom(worker: Worker) {
    worker.deadline == None && |worker.inFlight| < worker.maxConcurrent && worker.reportedLoad < worker.maxConcurrent
  }

  predicate Advertises(worker: Worker, model: string) {
    "*" in worker.models || model in worker.models
  }

  predicate StartsWith(path: string, prefix: string) {
    |prefix| <= |path| && path[..|prefix|] == prefix
  }

  predicate AnyPrefix(prefixes: seq<string>, path: string) {
    |prefixes| == 0 || exists i :: 0 <= i < |prefixes| && StartsWith(path, prefixes[i])
  }

  predicate Fits(worker: Worker, model: string, path: string) {
    HasRoom(worker) && Advertises(worker, model) && AnyPrefix(worker.prefixes, path)
  }

  /** The client's filters let the provider's workers pass. */
  predicate Allowed(r: Routing, provider: string) {
    (r.only == None || provider in r.only.value) && (r.ignored == None || provider !in r.ignored.value)
  }

  /** The most that a queue can be told to hold. */
  const COUNTER_MAX: nat := 18446744073709551615

  /** A timeout of zero is due at once, any other when that much time has passed. */
  predicate Due(policy: Policy, queuedAt: nat, now: nat) {
    policy.timeout.Some? && (policy.timeout.value == 0 || queuedAt + policy.timeout.value <= now)
  }

  // ---- the model's own terms mean the same ----

  lemma RoomIs(worker: Worker)
    ensures worker.HasCapacity() <==> HasRoom(worker)
    ensures worker.SelectionLoad() == LoadOf(worker)
  {}

  lemma AdvertisingIs(worker: Worker, model: string)
    ensures worker.SupportsModel(model) <==> Advertises(worker, model)
  {}

  lemma PrefixIs(worker: Worker, path: string)
    ensures worker.SupportsEndpoint(path) <==> AnyPrefix(worker.prefixes, path)
  {
    if prefix :| prefix in worker.prefixes && prefix <= path {
      var i :| 0 <= i < |worker.prefixes| && worker.prefixes[i] == prefix;
      assert StartsWith(path, worker.prefixes[i]);
    }
    if i :| 0 <= i < |worker.prefixes| && StartsWith(path, worker.prefixes[i]) {
      assert worker.prefixes[i] in worker.prefixes && worker.prefixes[i] <= path;
    }
  }

  lemma AllowedIs(r: Routing, provider: string)
    ensures InScope(Routed(r), provider) <==> Allowed(r, provider)
  {}

  lemma FitsIs(worker: Worker, scope: Scope, model: string, path: string)
    ensures EligibleWorker(worker, scope, model, path) <==>
      Fits(worker, model, path) && InScope(scope, worker.provider)
  {
    RoomIs(worker);
    AdvertisingIs(worker, model);
    PrefixIs(worker, path);
  }

  lemma ServesIs(worker: Worker, r: Request)
    ensures worker.Serves(r) <==> Advertises(worker, r.model) && AnyPrefix(worker.prefixes, r.path)
  {
    AdvertisingIs(worker, r.model);
    PrefixIs(worker, r.path);
  }

  // ---- among the registered workers ----

  ghost predicate SomeoneFits(s: State, want: Wanted) {
    exists w :: w in s.workers && Fits(s.workers[w], want.model, want.path)
  }

  ghost predicate SomeoneAllowedFits(s: State, want: Wanted, r: Routing) {
    exists w :: w in s.workers && Fits(s.workers[w], want.model, want.path) && Allowed(r, s.workers[w].provider)
  }

  ghost predicate SomeoneAtFits(s: State, want: Wanted, provider: string) {
    exists w :: w in s.workers && Fits(s.workers[w], want.model, want.path) && s.workers[w].provider == provider
  }

  lemma PlaceOf(s: State, w: WorkerId) returns (pos: nat)
    requires Listed(s) && w in s.workers
    ensures pos < |s.order| && s.order[pos] == w
  {
    pos := IndexOf(s.order, w);
  }

  lemma EligibleIs(s: State, scope: Scope, want: Wanted, pos: int)
    ensures Eligible(s, scope, want, pos) <==>
      0 <= pos < |s.order| && s.order[pos] in s.workers
      && Fits(s.workers[s.order[pos]], want.model, want.path) && InScope(scope, s.workers[s.order[pos]].provider)
  {
    if 0 <= pos < |s.order| && s.order[pos] in s.workers {
      FitsIs(s.workers[s.order[pos]], scope, want.model, want.path);
    }
  }

  lemma WorkerIsEligible(s: State, scope: Scope, want: Wanted, w: WorkerId) returns (pos: nat)
    requires Listed(s) && w in s.workers && Fits(s.workers[w], want.model, want.path)
    requires InScope(scope, s.workers[w].provider)
    ensures Eligible(s, scope, want, pos) && s.order[pos] == w
  {
    pos := PlaceOf(s, w);
    EligibleIs(s, scope, want, pos);
  }

  lemma AnyoneIs(s: State, want: Wanted)
    requires Listed(s)
    ensures AnyEligible(s, Anyone, want) <==> SomeoneFits(s, want)
  {
    if pos :| Eligible(s, Anyone, want, pos) {
      EligibleIs(s, Anyone, want, pos);
    }
    if w :| w in s.workers && Fits(s.workers[w], want.model, want.path) {
      var pos := WorkerIsEligible(s, Anyone, want, w);
    }
  }

  lemma SomeoneRoutedIs(s: State, want: Wanted, r: Routing)
    requires Listed(s)
    ensures AnyEligible(s, Routed(r), want) <==> SomeoneAllowedFits(s, want, r)
  {
    if pos :| Eligible(s, Routed(r), want, pos) {
      EligibleIs(s, Routed(r), want, pos);
      AllowedIs(r, s.workers[s.order[pos]].provider);
    }
    if w :| w in s.workers && Fits(s.workers[w], want.model, want.path) && Allowed(r, s.workers[w].provider) {
      AllowedIs(r, s.workers[w].provider);
      var pos := WorkerIsEligible(s, Routed(r), want, w);
    }
  }

  lemma SomeoneNamedIs(s: State, want: Wanted, provider: string)
    requires Listed(s)
    ensures AnyEligible(s, Named(provider), want) <==> SomeoneAtFits(s, want, provider)
  {
    if pos :| Eligible(s, Named(provider), want, pos) {
      EligibleIs(s, Named(provider), want, pos);
    }
    if w :| w in s.workers && Fits(s.workers[w], want.model, want.path) && s.workers[w].provider == provider {
      var pos := WorkerIsEligible(s, Named(provider), want, w);
    }
  }
}
