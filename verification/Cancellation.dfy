/** Cancelling running work: the first reason stands, one signal is ever raised for it,
    and that signal waits until it is delivered once or its request is over. */
module Cancellation {
  import opened Seqs
  import opened RelayState
  import opened Moves
  import opened Index
  import opened Progress

  datatype Signals = Signals(pending: seq<CancelSignal>, raised: seq<CancelSignal>, delivered: seq<CancelSignal>)

  function SignalsOf(s: State): Signals {
    Signals(s.cancelSignals, s.history.raised, s.history.delivered)
  }

  ghost predicate RaisedFor(raised: seq<CancelSignal>, id: RequestId) {
    exists x :: x in raised && x.id == id
  }

  /** Never two signals for one request; whatever waits or was delivered was raised,
      and nothing does both. */
  ghost predicate Disciplined(g: Signals, next: nat) {
    (forall i, j :: 0 <= i < j < |g.raised| ==> g.raised[i].id != g.raised[j].id)
    && (forall x :: x in g.raised ==> x.id < next)
    && NoDup(g.pending) && NoDup(g.delivered)
    && (forall x :: x in g.pending ==> x in g.raised && x !in g.delivered)
    && (forall x :: x in g.delivered ==> x in g.raised)
  }

  /** An active request is marked cancelled exactly when its one signal has been raised,
      and then the signal is waiting or was delivered. */
  ghost predicate Signalled(active: map<RequestId, Active>, g: Signals) {
    forall id :: id in active ==>
      if active[id].InFlight? && active[id].cancellation.Some?
      then var x := CancelSignal(active[id].worker, id, active[id].cancellation.value);
           x in g.raised && (x in g.pending || x in g.delivered)
      else !RaisedFor(g.raised, id)
  }

  ghost predicate CancelsAgree(s: State) {
    Disciplined(SignalsOf(s), s.nextRequest) && Signalled(s.active, SignalsOf(s))
  }

  /** The first reason stands: a cancelled request keeps its worker and reason, and is
      never queued again, as long as it lasts. */
  ghost predicate Sticks(a: map<RequestId, Active>, b: map<RequestId, Active>) {
    forall id :: id in a && a[id].InFlight? && a[id].cancellation.Some? && id in b ==> b[id] == a[id]
  }

  lemma ChangeSticks(a: map<RequestId, Active>, n: nat, c: Change)
    requires Lawful(a, n, c) && forall id :: id in a ==> id < n && a[id].request.id == id
    ensures Sticks(a, Changed(a, c))
  {}

  lemma {:induction false} RunSticks(s: State, ms: seq<Move>, s': State)
    requires Inv(s) && Runs(s, ms, s')
    ensures Sticks(s.active, s'.active)
    decreases |ms|
  {
    if ms != [] {
      var t := Apply(s, ms[0]);
      ChangeIs(s, ms[0]);
      ChangeIsLawful(s, ms[0]);
      ChangeSticks(s.active, s.nextRequest, ChangeOf(s, ms[0]));
      MoveKeeps(s, ms[0]);
      RunLasts(t, ms[1..], s');
      RunSticks(t, ms[1..], s');
    }
  }

  // ---- the abstract steps ----

  lemma ChangeSignals(a: map<RequestId, Active>, n: nat, c: Change, g: Signals, n': nat)
    requires Disciplined(g, n) && Signalled(a, g) && Lawful(a, n, c) && !c.Marks? && n <= n'
    requires forall id :: id in a ==> id < n && a[id].request.id == id
    ensures Disciplined(g, n') && Signalled(Changed(a, c), g)
  {}

  lemma MarkSignals(a: map<RequestId, Active>, n: nat, id: RequestId, reason: CancelReason, g: Signals)
    requires Disciplined(g, n) && Signalled(a, g) && Lawful(a, n, Marks(id, reason))
    requires forall i :: i in a ==> i < n
    ensures var x := CancelSignal(a[id].worker, id, reason);
      var g' := g.(pending := g.pending + [x], raised := g.raised + [x]);
      Disciplined(g', n) && Signalled(Changed(a, Marks(id, reason)), g')
  {
    var x := CancelSignal(a[id].worker, id, reason);
    var g' := g.(pending := g.pending + [x], raised := g.raised + [x]);
    assert !RaisedFor(g.raised, id);
    assert x !in g.raised;
    assert forall y :: y in g'.raised <==> y in g.raised || y == x;
    assert forall y :: y in g'.pending <==> y in g.pending || y == x;
    forall i | i in a ensures RaisedFor(g'.raised, i) <==> RaisedFor(g.raised, i) || i == id {
      if i == id { assert x in g'.raised; }
      if RaisedFor(g.raised, i) {
        var y :| y in g.raised && y.id == i;
        assert y in g'.raised;
      }
    }
  }

  /** Some signals go, some of them delivered; those that matter stay or are delivered. */
  lemma TakeSignals(a: map<RequestId, Active>, n: nat, g: Signals, kept: seq<CancelSignal>, due: seq<CancelSignal>)
    requires Disciplined(g, n) && Signalled(a, g)
    requires NoDup(kept) && NoDup(due)
    requires forall x :: x in kept ==> x in g.pending && x !in due
    requires forall x :: x in due ==> x in g.pending
    requires forall id :: id in a && a[id].InFlight? && a[id].cancellation.Some? ==>
      var x := CancelSignal(a[id].worker, id, a[id].cancellation.value);
      x in g.pending ==> x in kept || x in due
    ensures var g' := g.(pending := kept, delivered := g.delivered + due);
      Disciplined(g', n) && Signalled(a, g')
  {
    var g' := g.(pending := kept, delivered := g.delivered + due);
    assert forall x :: x in g'.delivered <==> x in g.delivered || x in due;
    NoDupConcat(g.delivered, due);
  }

  // ---- the moves ----

  predicate TouchesSignals(m: Move) { m.Mark? || m.TakeCancels? || m.Leave? }

  lemma OthersLeaveSignals(s: State, m: Move)
    requires Enabled(s, m) && !TouchesSignals(m)
    ensures SignalsOf(Apply(s, m)) == SignalsOf(s)
  {
    if m.FailRunning? || m.Drop? {
      EndingTouches(s, m);
    }
  }

  lemma TakeKeepsCancels(s: State, w: WorkerId)
    requires CancelsAgree(s)
    ensures CancelsAgree(CancelsTaken(s, w))
  {
    FilterMembers(s.cancelSignals, PendingElsewhere(s, w));
    FilterMembers(s.cancelSignals, PendingOn(s, w));
    TakeSignals(s.active, s.nextRequest, SignalsOf(s),
                Filter(s.cancelSignals, PendingElsewhere(s, w)), DueCancels(s, w));
  }

  lemma LeaveKeepsCancels(s: State, w: WorkerId, close: Option<CloseReason>)
    requires CancelsAgree(s) && Inv(s) && w in s.workers && s.workers[w].inFlight == []
    ensures CancelsAgree(RemoveWorker(s, w, close))
  {
    FilterMembers(s.cancelSignals, CancelOutside({w}));
    forall id | id in s.active && s.active[id].InFlight? ensures s.active[id].worker != w {
      assert Running(s)(s.active[id].worker, id);
    }
    TakeSignals(s.active, s.nextRequest, SignalsOf(s), Filter(s.cancelSignals, CancelOutside({w})), []);
    assert s.history.delivered + [] == s.history.delivered;
  }

  lemma MarkKeepsCancels(s: State, id: RequestId, reason: CancelReason)
    requires CancelsAgree(s) && Listed(s) && Lawful(s.active, s.nextRequest, Marks(id, reason))
    ensures CancelsAgree(Marked(s, id, reason))
  {
    MarkSignals(s.active, s.nextRequest, id, reason, SignalsOf(s));
  }

  lemma QuietKeepsCancels(s: State, m: Move)
    requires CancelsAgree(s) && Inv(s) && Enabled(s, m) && !TouchesSignals(m)
    ensures CancelsAgree(Apply(s, m))
  {
    ChangeIs(s, m);
    ChangeIsLawful(s, m);
    OthersLeaveSignals(s, m);
    ChangeSignals(s.active, s.nextRequest, ChangeOf(s, m), SignalsOf(s), Apply(s, m).nextRequest);
  }

  lemma MoveKeepsCancels(s: State, m: Move)
    requires CancelsAgree(s) && Inv(s) && Enabled(s, m)
    ensures CancelsAgree(Apply(s, m))
  {
    if !TouchesSignals(m) {
      QuietKeepsCancels(s, m);
    } else if m.Mark? {
      ChangeIsLawful(s, m);
      MarkKeepsCancels(s, m.id, m.reason);
    } else if m.TakeCancels? {
      TakeKeepsCancels(s, m.w);
    } else {
      LeaveKeepsCancels(s, m.w, m.close);
    }
  }

  lemma {:induction false} RunKeepsCancels(s: State, ms: seq<Move>, s': State)
    requires CancelsAgree(s) && Inv(s) && Runs(s, ms, s')
    ensures CancelsAgree(s')
    decreases |ms|
  {
    if ms != [] {
      MoveKeepsCancels(s, ms[0]);
      MoveKeeps(s, ms[0]);
      RunKeepsCancels(Apply(s, ms[0]), ms[1..], s');
    }
  }
}
