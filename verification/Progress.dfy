/** Requeueing is finite: dispatches, requeues and endings spend a budget that only
    submissions fill. */
module Progress {
  import opened Seqs
  import opened RelayState
  import opened Moves
  import opened Index

  // ---- what a move does to the index ----

  datatype Change =
    | Same
    | Starts(r: Request, w: WorkerId)
    | WaitsAgain(r: Request)
    | Marks(id: RequestId, reason: CancelReason)
    | Ends(id: RequestId)

  function ChangeOf(s: State, m: Move): Change
    requires Enabled(s, m)
  {
    match m
    case Admit(r, w, _, _) => Starts(r, w)
    case Pull(w, p, i) => Starts(s.queues[p][i], w)
    case Enqueue(r) => WaitsAgain(r)
    case Requeue(w, id) => WaitsAgain(Bumped(s.active[id].request))
    case Mark(id, reason) => Marks(id, reason)
    case Finish(w, id) => Ends(id)
    case FailRunning(w, id, _) => Ends(id)
    case Drop(p, i, _) => Ends(s.queues[p][i].id)
    case _ => Same
  }

  function Changed(active: map<RequestId, Active>, c: Change): map<RequestId, Active> {
    match c
    case Same => active
    case Starts(r, w) => active[r.id := InFlight(r, w, None)]
    case WaitsAgain(r) => active[r.id := Queued(r)]
    case Marks(id, reason) =>
      if id in active && active[id].InFlight? then active[id := active[id].(cancellation := Some(reason))] else active
    case Ends(id) => active - {id}
  }

  /** When a change may happen. Starting and waiting either bring in a fresh id or
      move one on; nothing else brings an id into the index. */
  predicate Lawful(active: map<RequestId, Active>, next: nat, c: Change) {
    match c
    case Same => true
    case Starts(r, _) =>
      if r.id in active then active[r.id] == Queued(r) else r.id == next && r.requeues == 0
    case WaitsAgain(r) =>
      if r.id in active
      then active[r.id].InFlight? && active[r.id].cancellation == None
           && r == Bumped(active[r.id].request) && r.requeues <= MAX_REQUEUE_COUNT
      else r.id == next && r.requeues == 0
    case Marks(id, _) => id in active && active[id].InFlight? && active[id].cancellation == None
    case Ends(id) => id in active
  }

  function NextAfter(active: map<RequestId, Active>, next: nat, c: Change): nat {
    if (c.Starts? || c.WaitsAgain?) && c.r.id !in active then next + 1 else next
  }

  lemma StartIsLawful(s: State, m: Move)
    requires Inv(s) && Enabled(s, m) && (m.Admit? || m.Pull? || m.Enqueue? || m.Requeue?)
    ensures Lawful(s.active, s.nextRequest, ChangeOf(s, m))
    ensures (m.Admit? || m.Enqueue?) <==> ChangeOf(s, m).r.id !in s.active
  {
    if m.Pull? {
      assert Waits(s)(m.provider, s.queues[m.provider][m.index]);
    }
  }

  lemma EndIsLawful(s: State, m: Move)
    requires Inv(s) && Enabled(s, m) && (m.Mark? || m.Finish? || m.FailRunning? || m.Drop?)
    ensures Lawful(s.active, s.nextRequest, ChangeOf(s, m))
  {
    if m.Drop? {
      assert Waits(s)(m.provider, s.queues[m.provider][m.index]);
    } else if m.Finish? || m.FailRunning? {
      assert Running(s)(m.w, m.id);
    }
  }

  lemma ChangeIsLawful(s: State, m: Move)
    requires Inv(s) && Enabled(s, m)
    ensures Lawful(s.active, s.nextRequest, ChangeOf(s, m))
    ensures (m.Admit? || m.Enqueue?) <==>
      (ChangeOf(s, m).Starts? || ChangeOf(s, m).WaitsAgain?) && ChangeOf(s, m).r.id !in s.active
  {
    if m.Admit? || m.Pull? || m.Enqueue? || m.Requeue? {
      StartIsLawful(s, m);
    } else if m.Mark? || m.Finish? || m.FailRunning? || m.Drop? {
      EndIsLawful(s, m);
    }
  }

  predicate MovesRequest(m: Move) {
    m.Admit? || m.Pull? || m.Enqueue? || m.Requeue? || m.Mark? || m.Finish? || m.FailRunning? || m.Drop?
  }

  lemma StartIs(s: State, m: Move)
    requires Enabled(s, m) && (m.Admit? || m.Pull? || m.Enqueue? || m.Requeue? || m.Mark?)
    requires m.Requeue? ==> s.active[m.id].request.id == m.id
    ensures Apply(s, m).active == Changed(s.active, ChangeOf(s, m))
  {}

  lemma EndIs(s: State, m: Move)
    requires Enabled(s, m) && (m.Finish? || m.FailRunning? || m.Drop?)
    ensures Apply(s, m).active == Changed(s.active, ChangeOf(s, m))
  {
    if m.FailRunning? || m.Drop? {
      EndingTouches(s, m);
    }
  }

  lemma OthersLeaveIndex(s: State, m: Move)
    requires Enabled(s, m) && !MovesRequest(m)
    ensures Apply(s, m).active == s.active && ChangeOf(s, m) == Same
  {}

  lemma NextRequestIs(s: State, m: Move)
    requires Enabled(s, m)
    ensures Apply(s, m).nextRequest == s.nextRequest + Submission(m)
  {
    if m.FailRunning? || m.Drop? {
      EndingTouches(s, m);
    }
  }

  lemma ChangeIs(s: State, m: Move)
    requires Inv(s) && Enabled(s, m)
    ensures Apply(s, m).active == Changed(s.active, ChangeOf(s, m))
    ensures Apply(s, m).nextRequest == s.nextRequest + Submission(m)
  {
    NextRequestIs(s, m);
    if !MovesRequest(m) {
      OthersLeaveIndex(s, m);
    } else if m.Finish? || m.FailRunning? || m.Drop? {
      EndIs(s, m);
    } else {
      StartIs(s, m);
    }
  }

  function Submission(m: Move): nat {
    if m.Admit? || m.Enqueue? || m.Refuse? then 1 else 0
  }

  // ---- the budget ----

  function Weight(active: map<RequestId, Active>, id: RequestId): int {
    if id !in active then 0
    else if active[id].Queued? then 2 * (MAX_REQUEUE_COUNT - active[id].request.requeues) + 2
    else 2 * (MAX_REQUEUE_COUNT - active[id].request.requeues) + 1
  }

  function Total(active: map<RequestId, Active>, n: nat): int {
    if n == 0 then 0 else Total(active, n - 1) + Weight(active, n - 1)
  }

  function Budget(s: State): int { Total(s.active, s.nextRequest) }

  lemma {:induction false} TotalAfter(a: map<RequestId, Active>, b: map<RequestId, Active>, id: RequestId, n: nat)
    requires forall i :: i != id ==> (i in a <==> i in b) && (i in a ==> a[i] == b[i])
    ensures Total(b, n) == Total(a, n) + if id < n then Weight(b, id) - Weight(a, id) else 0
  {
    if n != 0 {
      TotalAfter(a, b, id, n - 1);
    }
  }

  /** Dispatches, requeues and endings. */
  function Work(m: Move): nat {
    if m.Admit? || m.Pull? || m.Requeue? || m.Finish? || m.FailRunning? || m.Drop? then 1 else 0
  }

  lemma ChangeSpends(a: map<RequestId, Active>, n: nat, c: Change)
    requires Lawful(a, n, c)
    requires forall id :: id in a ==> id < n && a[id].request.id == id && a[id].request.requeues <= MAX_REQUEUE_COUNT
    ensures c.Starts? && c.r.id in a ==> Total(Changed(a, c), n) == Total(a, n) - 1
    ensures c.Starts? && c.r.id !in a ==> Total(Changed(a, c), n + 1) == Total(a, n) + 7
    ensures c.WaitsAgain? && c.r.id in a ==> Total(Changed(a, c), n) == Total(a, n) - 1
    ensures c.WaitsAgain? && c.r.id !in a ==> Total(Changed(a, c), n + 1) == Total(a, n) + 8
    ensures c.Marks? ==> Total(Changed(a, c), n) == Total(a, n)
    ensures c.Ends? ==> Total(Changed(a, c), n) < Total(a, n)
  {
    if !c.Same? {
      var id := match c case Starts(r, _) => r.id case WaitsAgain(r) => r.id case Marks(i, _) => i case Ends(i) => i;
      TotalAfter(a, Changed(a, c), id, n);
    }
  }

  lemma {:induction false} TotalNext(a: map<RequestId, Active>, n: nat)
    requires n !in a
    ensures Total(a, n + 1) == Total(a, n)
  {}

  /** What a move costs, by what it does to the index. */
  lemma WorkIs(s: State, m: Move)
    requires Enabled(s, m)
    ensures var c := ChangeOf(s, m);
      Work(m) == (if c.Starts? || c.Ends? || m.Requeue? then 1 else 0)
      && (c.WaitsAgain? ==> m.Enqueue? || m.Requeue?)
      && (m.Refuse? || m.Requeue? ==> Submission(m) == if m.Refuse? then 1 else 0)
      && (m.Refuse? ==> c.Same?) && (m.Requeue? ==> c.WaitsAgain?)
  {}

  /** What a change may cost, given how much work and how many submissions it stands for. */
  predicate Priced(a: map<RequestId, Active>, c: Change, work: nat, sub: nat) {
    work <= 1 && sub <= 1
    && (c.Starts? || c.WaitsAgain? ==> (sub == 1 <==> c.r.id !in a))
    && (c.Marks? || c.Ends? ==> sub == 0)
    && (c.Same? || c.Marks? || (c.WaitsAgain? && sub == 1) ==> work == 0)
  }

  /** Records carry their own ids, and have been requeued no more often than allowed. */
  ghost predicate RecordsKnown(a: map<RequestId, Active>, n: nat) {
    forall id :: id in a ==> id < n && a[id].request.id == id && a[id].request.requeues <= MAX_REQUEUE_COUNT
  }

  lemma RecordsAreKnown(s: State)
    requires Inv(s)
    ensures RecordsKnown(s.active, s.nextRequest)
  {}

  lemma PricedSpends(a: map<RequestId, Active>, n: nat, c: Change, work: nat, sub: nat)
    requires Lawful(a, n, c) && Priced(a, c, work, sub) && RecordsKnown(a, n)
    ensures Total(Changed(a, c), n + sub) + work <= Total(a, n) + 8 * sub
  {
    ChangeSpends(a, n, c);
    if c.Same? {
      TotalNext(a, n);
    }
  }

  lemma MovePriced(s: State, m: Move)
    requires Inv(s) && Enabled(s, m)
    ensures Priced(s.active, ChangeOf(s, m), Work(m), Submission(m)) && Lawful(s.active, s.nextRequest, ChangeOf(s, m))
  {
    ChangeIsLawful(s, m);
    WorkIs(s, m);
  }

  /** A move as a lawful change of the index, and its price. */
  lemma MoveChanges(s: State, m: Move) returns (c: Change)
    requires Inv(s) && Enabled(s, m)
    ensures Apply(s, m).active == Changed(s.active, c)
    ensures Priced(s.active, c, Work(m), Submission(m)) && Lawful(s.active, s.nextRequest, c)
  {
    ChangeIs(s, m);
    MovePriced(s, m);
    c := ChangeOf(s, m);
  }

  lemma BudgetSpends(s: State, t: State, c: Change, work: nat, sub: nat)
    requires t.active == Changed(s.active, c) && t.nextRequest == s.nextRequest + sub
    requires Lawful(s.active, s.nextRequest, c) && Priced(s.active, c, work, sub)
    requires RecordsKnown(s.active, s.nextRequest)
    ensures Budget(t) + work <= Budget(s) + 8 * sub
  {
    PricedSpends(s.active, s.nextRequest, c, work, sub);
  }

  lemma MoveSpends(s: State, m: Move)
    requires Inv(s) && Enabled(s, m)
    ensures Budget(Apply(s, m)) + Work(m) <= Budget(s) + 8 * Submission(m)
  {
    var c := MoveChanges(s, m);
    NextRequestIs(s, m);
    RecordsAreKnown(s);
    BudgetSpends(s, Apply(s, m), c, Work(m), Submission(m));
  }

  function WorkDone(ms: seq<Move>): nat {
    if ms == [] then 0 else Work(ms[0]) + WorkDone(ms[1..])
  }

  function Submissions(ms: seq<Move>): nat {
    if ms == [] then 0 else Submission(ms[0]) + Submissions(ms[1..])
  }

  lemma {:induction false} RunSpends(s: State, ms: seq<Move>, s': State)
    requires Inv(s) && Runs(s, ms, s')
    ensures Budget(s') + WorkDone(ms) <= Budget(s) + 8 * Submissions(ms)
    decreases |ms|
  {
    if ms != [] {
      MoveSpends(s, ms[0]);
      MoveKeeps(s, ms[0]);
      RunSpends(Apply(s, ms[0]), ms[1..], s');
    }
  }

  lemma {:induction false} TotalNonNegative(a: map<RequestId, Active>, n: nat)
    requires forall id :: id in a ==> a[id].request.requeues <= MAX_REQUEUE_COUNT
    ensures Total(a, n) >= 0
  {
    if n != 0 {
      TotalNonNegative(a, n - 1);
    }
  }

  // ---- assignments ----

  function TimesAssigned(log: seq<Assignment>, id: RequestId): nat {
    if log == [] then 0
    else TimesAssigned(log[..|log| - 1], id) + if log[|log| - 1].id == id then 1 else 0
  }

  /** A waiting request has been assigned once per requeue, a running one once more. */
  ghost predicate Counted(log: seq<Assignment>, active: map<RequestId, Active>, next: nat) {
    forall id: RequestId :: CountOk(log, active, next, id)
  }

  ghost predicate CountOk(log: seq<Assignment>, active: map<RequestId, Active>, next: nat, id: RequestId) {
    TimesAssigned(log, id) <= MAX_REQUEUE_COUNT + 1
    && (id >= next ==> TimesAssigned(log, id) == 0)
    && (id in active ==>
          TimesAssigned(log, id) == active[id].request.requeues + if active[id].Queued? then 0 else 1)
  }

  ghost predicate AssignedFewTimes(s: State) {
    Counted(s.history.assignments, s.active, s.nextRequest)
  }

  lemma LogIs(s: State, m: Move)
    requires Enabled(s, m)
    ensures Apply(s, m).history.assignments == match ChangeOf(s, m)
      case Starts(r, w) => s.history.assignments + [Assignment(r.id, w)]
      case _ => s.history.assignments
  {
    if m.FailRunning? || m.Drop? {
      EndingTouches(s, m);
    }
  }

  lemma CountAfter(log: seq<Assignment>, a: map<RequestId, Active>, n: nat, c: Change, n': nat)
    requires Lawful(a, n, c) && Counted(log, a, n) && NextAfter(a, n, c) <= n'
    requires forall id :: id in a ==> id < n && a[id].request.id == id && a[id].request.requeues <= MAX_REQUEUE_COUNT
    ensures Counted(if c.Starts? then log + [Assignment(c.r.id, c.w)] else log, Changed(a, c), n')
  {
    var log' := if c.Starts? then log + [Assignment(c.r.id, c.w)] else log;
    forall id: RequestId ensures CountOk(log', Changed(a, c), n', id) {
      assert CountOk(log, a, n, id);
      if c.Starts? {
        assert log'[..|log'| - 1] == log;
      }
    }
  }

  lemma MoveKeepsCounts(s: State, m: Move)
    requires Inv(s) && Enabled(s, m) && AssignedFewTimes(s)
    ensures AssignedFewTimes(Apply(s, m))
  {
    ChangeIs(s, m);
    LogIs(s, m);
    ChangeIsLawful(s, m);
    CountAfter(s.history.assignments, s.active, s.nextRequest, ChangeOf(s, m), Apply(s, m).nextRequest);
  }

  lemma {:induction false} RunKeepsCounts(s: State, ms: seq<Move>, s': State)
    requires Inv(s) && Runs(s, ms, s') && AssignedFewTimes(s)
    ensures AssignedFewTimes(s')
    decreases |ms|
  {
    if ms != [] {
      MoveKeepsCounts(s, ms[0]);
      MoveKeeps(s, ms[0]);
      RunKeepsCounts(Apply(s, ms[0]), ms[1..], s');
    }
  }

  // ---- identity ----

  /** An ended request never returns, and one that lasts keeps its provider, model, path,
      routing and queueing time: only its requeue count may grow. */
  ghost predicate Lasts(a: map<RequestId, Active>, n: nat, b: map<RequestId, Active>, n': nat) {
    n <= n'
    && (forall id :: id in b && id < n ==> id in a)
    && (forall id :: id in a && id in b ==>
          b[id].request == a[id].request.(requeues := b[id].request.requeues)
          && a[id].request.requeues <= b[id].request.requeues)
  }

  lemma ChangeLasts(a: map<RequestId, Active>, n: nat, c: Change, n': nat)
    requires Lawful(a, n, c) && n <= n'
    requires forall id :: id in a ==> id < n && a[id].request.id == id
    ensures Lasts(a, n, Changed(a, c), n')
  {}

  lemma {:induction false} RunLasts(s: State, ms: seq<Move>, s': State)
    requires Inv(s) && Runs(s, ms, s')
    ensures Lasts(s.active, s.nextRequest, s'.active, s'.nextRequest)
    decreases |ms|
  {
    if ms != [] {
      var t := Apply(s, ms[0]);
      ChangeIs(s, ms[0]);
      ChangeIsLawful(s, ms[0]);
      ChangeLasts(s.active, s.nextRequest, ChangeOf(s, ms[0]), t.nextRequest);
      MoveKeeps(s, ms[0]);
      RunLasts(t, ms[1..], s');
    }
  }
}
