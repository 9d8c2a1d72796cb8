/** Which worker a submission is given to: least load, round-robin among ties, with
    the provider fallback and the client's routing preferences. */
module Selection {
  import opened Seqs
  import opened RelayState

  /** Which providers' workers are looked at. */
  datatype Scope = Named(provider: string) | Anyone | Routed(routing: Routing)

  predicate InScope(scope: Scope, provider: string) {
    match scope
    case Named(p) => provider == p
    case Anyone => true
    case Routed(r) =>
      (r.only.Some? ==> provider in r.only.value) && (r.ignored.Some? ==> provider !in r.ignored.value)
  }

  /** What is asked for. */
  datatype Wanted = Wanted(provider: string, model: string, path: string, routing: Option<Routing>)

  /** The chosen worker, its position in the listing, and the cursor it moves. */
  datatype Choice = Choice(worker: WorkerId, position: nat, key: SelectionKey)

  predicate EligibleWorker(worker: Worker, scope: Scope, model: string, path: string) {
    worker.HasCapacity() && worker.SupportsModel(model) && worker.SupportsEndpoint(path)
    && InScope(scope, worker.provider)
  }

  predicate Eligible(s: State, scope: Scope, want: Wanted, pos: int) {
    0 <= pos < |s.order| && s.order[pos] in s.workers
    && EligibleWorker(s.workers[s.order[pos]], scope, want.model, want.path)
  }

  function LoadAt(s: State, pos: int): nat
    requires 0 <= pos < |s.order| && s.order[pos] in s.workers
  {
    s.workers[s.order[pos]].SelectionLoad()
  }

  function ProviderAt(s: State, pos: int): string
    requires 0 <= pos < |s.order| && s.order[pos] in s.workers
  {
    s.workers[s.order[pos]].provider
  }

  ghost predicate Least(s: State, scope: Scope, want: Wanted, pos: int) {
    Eligible(s, scope, want, pos)
    && forall q :: Eligible(s, scope, want, q) ==> LoadAt(s, pos) <= LoadAt(s, q)
  }

  /** How far a position lies after the cursor, going round. */
  function Turn(cursor: Option<nat>, size: nat, pos: int): int {
    if cursor.Some? && pos <= cursor.value then pos + size else pos
  }

  function Cursor(s: State, key: SelectionKey): Option<nat> {
    if key in s.cursors then Some(s.cursors[key]) else None
  }

  /** The cyclic successor of the cursor among the least loaded. */
  ghost predicate NextInTurn(s: State, scope: Scope, want: Wanted, key: SelectionKey, pos: int) {
    Least(s, scope, want, pos)
    && forall q :: Least(s, scope, want, q) ==>
         Turn(Cursor(s, key), |s.order|, pos) <= Turn(Cursor(s, key), |s.order|, q)
  }

  ghost predicate AnyEligible(s: State, scope: Scope, want: Wanted) {
    exists pos :: Eligible(s, scope, want, pos)
  }

  ghost predicate SelectsIn(s: State, scope: Scope, want: Wanted, key: SelectionKey, c: Option<Choice>) {
    match c
    case None => !AnyEligible(s, scope, want)
    case Some(choice) =>
      NextInTurn(s, scope, want, key, choice.position)
      && choice.worker == s.order[choice.position] && choice.key == key
  }

  /** The named provider's workers first, then anybody's. */
  ghost predicate SelectsUnrouted(s: State, want: Wanted, c: Option<Choice>) {
    if AnyEligible(s, Named(want.provider), want)
    then SelectsIn(s, Named(want.provider), want, SelectionKey(want.provider, want.model), c)
    else SelectsIn(s, Anyone, want, SelectionKey(ANY_PROVIDER, want.model), c)
  }

  /** A provider of the client's order list that has a worker passing the filters. */
  ghost predicate Preferred(s: State, want: Wanted, routing: Routing, k: int) {
    routing.order.Some? && 0 <= k < |routing.order.value|
    && exists pos :: Eligible(s, Routed(routing), want, pos) && ProviderAt(s, pos) == routing.order.value[k]
  }

  /** The first listed provider's least loaded worker, the earliest registered on a tie. */
  ghost predicate SelectsPreferred(s: State, want: Wanted, routing: Routing, k: int, c: Choice)
    requires routing.order.Some? && 0 <= k < |routing.order.value|
  {
    var p := routing.order.value[k];
    Eligible(s, Routed(routing), want, c.position) && ProviderAt(s, c.position) == p
    && c.worker == s.order[c.position] && c.key == SelectionKey(p, want.model)
    && forall q :: Eligible(s, Routed(routing), want, q) && ProviderAt(s, q) == p ==>
         LoadAt(s, c.position) < LoadAt(s, q) || (LoadAt(s, c.position) == LoadAt(s, q) && c.position <= q)
  }

  ghost predicate FirstPreferred(s: State, want: Wanted, routing: Routing, k: int) {
    Preferred(s, want, routing, k) && forall j :: 0 <= j < k ==> !Preferred(s, want, routing, j)
  }

  ghost predicate SelectsRouted(s: State, want: Wanted, routing: Routing, c: Option<Choice>) {
    if !AnyEligible(s, Routed(routing), want) then
      if routing.allowFallbacks.GetOr(true) then SelectsUnrouted(s, want, c) else c == None
    else if exists k :: Preferred(s, want, routing, k) then
      c.Some? && exists k :: FirstPreferred(s, want, routing, k) && SelectsPreferred(s, want, routing, k, c.value)
    else SelectsIn(s, Routed(routing), want, SelectionKey(want.provider, want.model), c)
  }

  ghost predicate Selects(s: State, want: Wanted, c: Option<Choice>) {
    match want.routing
    case None => SelectsUnrouted(s, want, c)
    case Some(routing) => SelectsRouted(s, want, routing, c)
  }
}
