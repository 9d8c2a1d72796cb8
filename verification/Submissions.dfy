/** What becomes of a submission, in terms of workers' fields and of the client's filters. */
module Submissions {
  import opened Seqs
  import opened RelayState
  import opened Moves
  import opened Index
  import opened Selection
  import opened Spec
  import opened PlainTerms
  import Traces
  import Fairness

  // ---- what is written down ----

  /** The record of the submission x under the id it was issued. */
  predicate Records(r: Request, id: RequestId, x: Submission) {
    r.id == id && r.provider == x.want.provider && r.model == x.want.model && r.path == x.want.path
    && r.streaming == x.streaming && r.routing == x.want.routing && r.queuedAt == x.now && r.requeues == 0
  }

  /** How much a provider's queue may hold: what was configured, else what a counter can count. */
  function Limit(s: State, provider: string): nat {
    if provider in s.policies then s.policies[provider].maxQueueLen else COUNTER_MAX
  }

  function WaitingAt(s: State, provider: string): seq<Request> {
    if provider in s.queues then s.queues[provider] else []
  }

  ghost predicate SomeoneAdvertises(s: State, model: string) {
    exists w :: w in s.workers && s.workers[w].deadline == None && Advertises(s.workers[w], model)
  }

  lemma SomeoneSupportsIs(s: State, model: string)
    ensures SomeoneSupports(s, model) <==> SomeoneAdvertises(s, model)
  {
    forall w | w in s.workers ensures s.workers[w].SupportsModel(model) <==> Advertises(s.workers[w], model) {
      AdvertisingIs(s.workers[w], model);
    }
  }

  /** The request runs on w, as its newest, and w's load is one more; nothing waits that did
      not, and no other worker is touched. */
  ghost predicate GivenTo(s: State, x: Submission, w: WorkerId, t: State) {
    var id := s.nextRequest;
    w in s.workers
    && t.workers == s.workers[w := s.workers[w].(inFlight := s.workers[w].inFlight + [id],
                                                 reportedLoad := SaturatingAdd(s.workers[w].reportedLoad, 1))]
    && t.queues == s.queues && id in t.active && t.active[id].InFlight? && t.active[id].worker == w
    && t.active[id].cancellation == None && Records(t.active[id].request, id, x)
  }

  /** The request is last in its own provider's queue. */
  ghost predicate PutLast(s: State, x: Submission, t: State) {
    var id, p := s.nextRequest, x.want.provider;
    t.workers == s.workers && id in t.active && t.active[id].Queued? && Records(t.active[id].request, id, x)
    && t.queues == s.queues[p := WaitingAt(s, p) + [t.active[id].request]]
  }

  /** Nothing is left of the request, and nobody else is touched. */
  ghost predicate TurnedAway(s: State, x: Submission, t: State) {
    t.workers == s.workers && t.active == s.active && t.senders == s.senders
    && forall p: string :: WaitingAt(t, p) == WaitingAt(s, p)
  }

  ghost predicate Became(s: State, x: Submission, out: Outcome, t: State) {
    match out
    case Dispatched(id, w) => id == s.nextRequest && GivenTo(s, x, w, t)
    case Waiting(id, n) =>
      id == s.nextRequest && PutLast(s, x, t) && n == |WaitingAt(s, x.want.provider)| + 1
      && |WaitingAt(s, x.want.provider)| < Limit(s, x.want.provider)
    case Rejected(id, why) =>
      id == s.nextRequest && TurnedAway(s, x, t) && |WaitingAt(s, x.want.provider)| >= Limit(s, x.want.provider)
      && why == if SomeoneAdvertises(s, x.want.model) then QueueFull else NoWorkersAvailable
  }

  lemma PlacedBecomes(s: State, x: Submission, c: Option<Choice>, out: Outcome, t: State)
    requires PlacesAs(s, RequestOf(s, x), c, out, t)
    ensures Became(s, x, out, t) && (out.Dispatched? <==> c.Some?)
    ensures c.Some? ==> out == Dispatched(s.nextRequest, c.value.worker)
  {
    SomeoneSupportsIs(s, x.want.model);
  }

  lemma OpeningKeeps(s: State, x: Submission, out: Outcome, mid: State, sender: Sender)
    requires Became(s, x, out, mid) && !out.Rejected?
    ensures Became(s, x, out, Opened(mid, s.nextRequest, sender))
  {}

  lemma SubmissionParts(s: State, x: Submission, out: Outcome, t: State) returns (c: Option<Choice>)
    requires Submits(s, x, out, t)
    ensures Selects(s, x.want, c) && Became(s, x, out, t)
    ensures out.Dispatched? <==> c.Some?
    ensures c.Some? ==> out == Dispatched(s.nextRequest, c.value.worker)
  {
    var mid := Traces.SubmitParts(s, x, out, t);
    c :| Selects(s, x.want, c) && PlacesAs(s, RequestOf(s, x), c, out, mid);
    PlacedBecomes(s, x, c, out, mid);
    if x.sender.Some? && !out.Rejected? {
      OpeningKeeps(s, x, out, mid, x.sender.value);
    }
  }

  // ---- whether somebody is found ----

  /** Somebody with room serves the request, and the client's filters or fallbacks let it pass. */
  ghost predicate Servable(s: State, want: Wanted) {
    match want.routing
    case None => SomeoneFits(s, want)
    case Some(r) => SomeoneAllowedFits(s, want, r) || (r.allowFallbacks != Some(false) && SomeoneFits(s, want))
  }

  lemma UnroutedFinds(s: State, want: Wanted, c: Option<Choice>)
    requires Listed(s) && SelectsUnrouted(s, want, c)
    ensures c.Some? <==> SomeoneFits(s, want)
  {
    Fairness.UnroutedSelection(s, want, c);
    AnyoneIs(s, want);
  }

  lemma SelectionFinds(s: State, want: Wanted, c: Option<Choice>)
    requires Listed(s) && Selects(s, want, c)
    ensures c.Some? <==> Servable(s, want)
  {
    match want.routing
    case None => UnroutedFinds(s, want, c);
    case Some(r) =>
      Fairness.RoutedSelection(s, want, r, c);
      SomeoneRoutedIs(s, want, r);
      if !AnyEligible(s, Routed(r), want) && r.allowFallbacks != Some(false) {
        UnroutedFinds(s, want, c);
      }
  }

  /** Every submission is dispatched if and only if somebody can take it; else it waits at the
      end of its own provider's queue if and only if there is place; else it is refused, with
      the reason that the registered models decide. What is written down is what was sent. */
  lemma SubmissionBecomes(s: State, x: Submission, out: Outcome, t: State)
    requires Listed(s) && Submits(s, x, out, t)
    ensures Became(s, x, out, t)
    ensures out.Dispatched? <==> Servable(s, x.want)
  {
    var c := SubmissionParts(s, x, out, t);
    SelectionFinds(s, x.want, c);
  }

  // ---- which worker ----

  /** Nobody among those that fit and satisfy `among` is less loaded. */
  ghost predicate LeastAmong(s: State, want: Wanted, w: WorkerId, among: Worker -> bool)
    requires w in s.workers
  {
    forall v :: v in s.workers && Fits(s.workers[v], want.model, want.path) && among(s.workers[v]) ==>
      LoadOf(s.workers[w]) <= LoadOf(s.workers[v])
  }

  function Everybody(): Worker -> bool { (worker: Worker) => true }

  function At(provider: string): Worker -> bool { (worker: Worker) => worker.provider == provider }

  function Passing(r: Routing): Worker -> bool { (worker: Worker) => Allowed(r, worker.provider) }

  function PassingAt(r: Routing, provider: string): Worker -> bool {
    (worker: Worker) => Allowed(r, worker.provider) && worker.provider == provider
  }

  /** A provider has somebody who fits and passes the filters. */
  ghost predicate Offers(s: State, want: Wanted, r: Routing, provider: string) {
    exists v :: v in s.workers && Fits(s.workers[v], want.model, want.path) && PassingAt(r, provider)(s.workers[v])
  }

  lemma LeastOfScope(s: State, scope: Scope, want: Wanted, pos: nat, among: Worker -> bool)
    requires Listed(s) && Eligible(s, scope, want, pos)
    requires forall worker: Worker :: among(worker) ==> InScope(scope, worker.provider)
    requires forall q :: Eligible(s, scope, want, q) && among(s.workers[s.order[q]]) ==> LoadAt(s, pos) <= LoadAt(s, q)
    ensures LeastAmong(s, want, s.order[pos], among)
  {
    var w := s.order[pos];
    forall v | v in s.workers && Fits(s.workers[v], want.model, want.path) && among(s.workers[v])
      ensures LoadOf(s.workers[w]) <= LoadOf(s.workers[v])
    {
      var q := WorkerIsEligible(s, scope, want, v);
      RoomIs(s.workers[w]);
      RoomIs(s.workers[v]);
    }
  }

  /** Without routing: its own provider's workers first, then anybody's; the least loaded. */
  ghost predicate ChosenUnrouted(s: State, want: Wanted, w: WorkerId)
    requires w in s.workers
  {
    Fits(s.workers[w], want.model, want.path)
    && if SomeoneAtFits(s, want, want.provider)
       then s.workers[w].provider == want.provider && LeastAmong(s, want, w, At(want.provider))
       else LeastAmong(s, want, w, Everybody())
  }

  lemma UnroutedChoice(s: State, want: Wanted, c: Choice)
    requires Listed(s) && SelectsUnrouted(s, want, Some(c))
    ensures c.worker in s.workers && ChosenUnrouted(s, want, c.worker)
  {
    Fairness.UnroutedSelection(s, want, Some(c));
    SomeoneNamedIs(s, want, want.provider);
    EligibleIs(s, Anyone, want, c.position);
    if AnyEligible(s, Named(want.provider), want) {
      EligibleIs(s, Named(want.provider), want, c.position);
      LeastOfScope(s, Named(want.provider), want, c.position, At(want.provider));
    } else {
      LeastOfScope(s, Anyone, want, c.position, Everybody());
    }
  }

  /** With routing, when somebody passes: of the first listed provider that offers anybody,
      its least loaded; of all that pass, the least loaded when no listed one does. */
  ghost predicate ChosenRouted(s: State, want: Wanted, r: Routing, w: WorkerId)
    requires w in s.workers
  {
    Fits(s.workers[w], want.model, want.path) && Allowed(r, s.workers[w].provider)
    && if r.order.Some? && exists k :: 0 <= k < |r.order.value| && Offers(s, want, r, r.order.value[k])
       then exists k :: 0 <= k < |r.order.value| && r.order.value[k] == s.workers[w].provider
                        && LeastAmong(s, want, w, PassingAt(r, r.order.value[k]))
                        && forall j :: 0 <= j < k ==> !Offers(s, want, r, r.order.value[j])
       else LeastAmong(s, want, w, Passing(r))
  }

  lemma PreferredIs(s: State, want: Wanted, r: Routing, k: int)
    requires Listed(s)
    ensures Preferred(s, want, r, k) <==>
      r.order.Some? && 0 <= k < |r.order.value| && Offers(s, want, r, r.order.value[k])
  {
    if Preferred(s, want, r, k) {
      var pos :| Eligible(s, Routed(r), want, pos) && ProviderAt(s, pos) == r.order.value[k];
      EligibleIs(s, Routed(r), want, pos);
      AllowedIs(r, s.workers[s.order[pos]].provider);
      assert PassingAt(r, r.order.value[k])(s.workers[s.order[pos]]);
    }
    if r.order.Some? && 0 <= k < |r.order.value| && Offers(s, want, r, r.order.value[k]) {
      var v :| v in s.workers && Fits(s.workers[v], want.model, want.path)
        && PassingAt(r, r.order.value[k])(s.workers[v]);
      AllowedIs(r, s.workers[v].provider);
      var pos := WorkerIsEligible(s, Routed(r), want, v);
    }
  }

  lemma ScopeIsPassing(r: Routing)
    ensures forall worker: Worker :: Passing(r)(worker) ==> InScope(Routed(r), worker.provider)
    ensures forall worker: Worker, p :: PassingAt(r, p)(worker) ==> InScope(Routed(r), worker.provider)
  {
    forall worker: Worker ensures InScope(Routed(r), worker.provider) <==> Allowed(r, worker.provider) {
      AllowedIs(r, worker.provider);
    }
  }

  lemma ListedChoice(s: State, want: Wanted, r: Routing, k: int, c: Choice)
    requires Listed(s) && FirstPreferred(s, want, r, k) && Fairness.LeastOf(s, want, r, r.order.value[k], c.position)
    requires c.position < |s.order| && c.worker == s.order[c.position] && c.worker in s.workers
    ensures r.order.value[k] == s.workers[c.worker].provider && Offers(s, want, r, r.order.value[k])
    ensures LeastAmong(s, want, c.worker, PassingAt(r, r.order.value[k]))
    ensures forall j :: 0 <= j < k ==> !Offers(s, want, r, r.order.value[j])
  {
    PreferredIs(s, want, r, k);
    ScopeIsPassing(r);
    LeastOfScope(s, Routed(r), want, c.position, PassingAt(r, r.order.value[k]));
    forall j | 0 <= j < k ensures !Offers(s, want, r, r.order.value[j]) {
      PreferredIs(s, want, r, j);
    }
  }

  lemma RoutedChoice(s: State, want: Wanted, r: Routing, c: Choice)
    requires Listed(s) && SelectsRouted(s, want, r, Some(c)) && SomeoneAllowedFits(s, want, r)
    ensures c.worker in s.workers && ChosenRouted(s, want, r, c.worker)
  {
    Fairness.RoutedSelection(s, want, r, Some(c));
    SomeoneRoutedIs(s, want, r);
    EligibleIs(s, Routed(r), want, c.position);
    AllowedIs(r, s.workers[c.worker].provider);
    if exists k :: Preferred(s, want, r, k) {
      var k :| FirstPreferred(s, want, r, k) && Fairness.LeastOf(s, want, r, r.order.value[k], c.position);
      ListedChoice(s, want, r, k, c);
    } else {
      forall k ensures !(r.order.Some? && 0 <= k < |r.order.value| && Offers(s, want, r, r.order.value[k])) {
        PreferredIs(s, want, r, k);
      }
      ScopeIsPassing(r);
      LeastOfScope(s, Routed(r), want, c.position, Passing(r));
    }
  }

  /** The worker a submission is dispatched to has room and serves it; it passes the client's
      filters whenever anybody who fits does; and nobody that should come first is less loaded. */
  lemma DispatchedToTheRightOne(s: State, x: Submission, w: WorkerId, t: State)
    requires Listed(s) && Submits(s, x, Dispatched(s.nextRequest, w), t)
    ensures w in s.workers
    ensures if x.want.routing.Some? && SomeoneAllowedFits(s, x.want, x.want.routing.value)
            then ChosenRouted(s, x.want, x.want.routing.value, w)
            else ChosenUnrouted(s, x.want, w)
  {
    var c := SubmissionParts(s, x, Dispatched(s.nextRequest, w), t);
    SelectionFinds(s, x.want, c);
    match x.want.routing
    case None => UnroutedChoice(s, x.want, c.value);
    case Some(r) =>
      if SomeoneAllowedFits(s, x.want, r) {
        RoutedChoice(s, x.want, r, c.value);
      } else {
        Fairness.RoutedSelection(s, x.want, r, c);
        SomeoneRoutedIs(s, x.want, r);
        UnroutedChoice(s, x.want, c.value);
      }
  }

  /** The filters of a submission bind: dispatched although somebody passes, its worker
      passes; and with nobody passing and fallbacks off, it is not dispatched at all. */
  lemma FiltersBind(s: State, x: Submission, r: Routing, out: Outcome, t: State)
    requires Listed(s) && Submits(s, x, out, t) && x.want.routing == Some(r)
    ensures SomeoneAllowedFits(s, x.want, r) ==>
      out.Dispatched? && out.worker in s.workers
      && (r.only.Some? ==> s.workers[out.worker].provider in r.only.value)
      && (r.ignored.Some? ==> s.workers[out.worker].provider !in r.ignored.value)
    ensures !SomeoneAllowedFits(s, x.want, r) && r.allowFallbacks == Some(false) ==> !out.Dispatched?
  {
    SubmissionBecomes(s, x, out, t);
    if SomeoneAllowedFits(s, x.want, r) {
      DispatchedToTheRightOne(s, x, out.worker, t);
    }
  }

  // ---- a client waiting for the reply ----

  /** A reply channel of the submission's own kind, empty, exactly when it is not refused. */
  lemma ReplyAwaited(s: State, x: Submission, out: Outcome, t: State)
    requires Submits(s, x, out, t)
    ensures x.sender.Some? && !out.Rejected? ==>
      s.nextRequest in t.senders && t.senders[s.nextRequest] == x.sender.value && t.Replies(s.nextRequest) == []
    ensures x.sender == None || out.Rejected? ==> t.senders == s.senders && t.replies == s.replies
  {
    var mid := Traces.SubmitParts(s, x, out, t);
    var m := Traces.PlaceMoves(s, x, out, mid);
  }
}
