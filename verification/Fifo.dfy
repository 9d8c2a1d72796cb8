/** Order and size of the queues: requests that stay in a queue keep their order, and
    never-requeued entries never exceed the configured length. One move changes a queue in
    one of four ways, and both properties are facts about those. */
module Fifo {
  import opened Seqs
  import opened RelayState
  import opened Moves
  import opened Index

  ghost predicate Holds(q: seq<Request>, a: RequestId) {
    exists i :: 0 <= i < |q| && q[i].id == a
  }

  /** a waits ahead of b. */
  ghost predicate Ahead(q: seq<Request>, a: RequestId, b: RequestId) {
    exists i, j :: 0 <= i < j < |q| && q[i].id == a && q[j].id == b
  }

  ghost predicate Distinct(q: seq<Request>) {
    forall i, j :: 0 <= i < j < |q| ==> q[i].id != q[j].id
  }

  lemma QueuesDistinct(s: State, p: string)
    requires Inv(s)
    ensures Distinct(s.Queue(p))
  {
    var q := s.Queue(p);
    forall i, j | 0 <= i < j < |q| ensures q[i].id != q[j].id {
      assert Waits(s)(p, q[i]) && Waits(s)(p, q[j]);
    }
  }

  // ---- how one queue may change in one move ----

  datatype Shape = Unchanged | Lost(index: nat) | Joined(r: Request) | Returned(r: Request)

  predicate Fits(q: seq<Request>, shape: Shape, next: nat) {
    match shape
    case Unchanged => true
    case Lost(i) => i < |q|
    case Joined(r) => r.id == next && r.requeues == 0
    case Returned(r) => r.requeues >= 1
  }

  function Shaped(q: seq<Request>, shape: Shape): seq<Request> {
    match shape
    case Unchanged => q
    case Lost(i) => if i < |q| then RemoveAt(q, i) else q
    case Joined(r) => q + [r]
    case Returned(r) => [r] + q
  }

  function ShapeOf(s: State, m: Move, p: string): Shape
    requires Enabled(s, m)
  {
    match m
    case Enqueue(r) => if p == r.provider then Joined(r) else Unchanged
    case Pull(_, home, i) => if p == home then Lost(i) else Unchanged
    case Drop(home, i, _) => if p == home then Lost(i) else Unchanged
    case Requeue(w, id) => if p == s.workers[w].provider then Returned(Bumped(s.active[id].request)) else Unchanged
    case _ => Unchanged
  }

  lemma PullIs(s: State, w: WorkerId, home: string, i: nat, p: string)
    requires w in s.workers && home in s.queues && i < |s.queues[home]|
    ensures Pulled(s, w, home, i).Queue(p) == if p == home then RemoveAt(s.queues[home], i) else s.Queue(p)
  {}

  lemma DropIs(s: State, home: string, i: nat, failure: Option<FailureReason>, p: string)
    requires home in s.queues && i < |s.queues[home]|
    ensures Dropped(s, home, i, failure).Queue(p) == if p == home then RemoveAt(s.queues[home], i) else s.Queue(p)
  {
    assert Dropped(s, home, i, failure).queues == Unqueued(s, home, i).queues;
  }

  lemma LosesIs(s: State, m: Move, p: string)
    requires Enabled(s, m) && (m.Pull? || m.Drop?)
    ensures Fits(s.Queue(p), ShapeOf(s, m, p), s.nextRequest)
    ensures Apply(s, m).Queue(p) == Shaped(s.Queue(p), ShapeOf(s, m, p))
  {
    if m.Drop? {
      DropIs(s, m.provider, m.index, m.failure, p);
    } else {
      PullIs(s, m.w, m.provider, m.index, p);
    }
  }

  lemma EnqueueIs(s: State, r: Request, p: string)
    ensures Enqueued(s, r).Queue(p) == if p == r.provider then s.Queue(p) + [r] else s.Queue(p)
  {}

  lemma RequeueIs(s: State, w: WorkerId, id: RequestId, p: string)
    requires w in s.workers && id in s.active
    ensures Requeued(s, w, id).Queue(p)
         == if p == s.workers[w].provider then [Bumped(s.active[id].request)] + s.Queue(p) else s.Queue(p)
  {}

  lemma GainsIs(s: State, m: Move, p: string)
    requires Enabled(s, m) && (m.Enqueue? || m.Requeue?)
    ensures Fits(s.Queue(p), ShapeOf(s, m, p), s.nextRequest)
    ensures Apply(s, m).Queue(p) == Shaped(s.Queue(p), ShapeOf(s, m, p))
  {
    if m.Enqueue? {
      EnqueueIs(s, m.r, p);
    } else {
      RequeueIs(s, m.w, m.id, p);
    }
  }

  lemma KeepsIs(s: State, m: Move, p: string)
    requires Enabled(s, m) && !(m.Enqueue? || m.Requeue? || m.Pull? || m.Drop?)
    ensures Apply(s, m).Queue(p) == s.Queue(p) && ShapeOf(s, m, p) == Unchanged
  {}

  lemma ShapeIs(s: State, m: Move, p: string)
    requires Enabled(s, m)
    ensures Fits(s.Queue(p), ShapeOf(s, m, p), s.nextRequest)
    ensures Apply(s, m).Queue(p) == Shaped(s.Queue(p), ShapeOf(s, m, p))
    ensures ShapeOf(s, m, p).Returned? ==> m.Requeue?
    ensures ShapeOf(s, m, p).Lost? ==> m.Pull? || m.Drop?
    ensures ShapeOf(s, m, p).Joined? ==> m == Enqueue(ShapeOf(s, m, p).r) && ShapeOf(s, m, p).r.provider == p
  {
    if m.Pull? || m.Drop? {
      LosesIs(s, m, p);
    } else if m.Enqueue? || m.Requeue? {
      GainsIs(s, m, p);
    } else {
      KeepsIs(s, m, p);
    }
  }

  // ---- order ----

  lemma RemoveKeepsOrder(q: seq<Request>, k: nat, a: RequestId, b: RequestId)
    requires k < |q| && Distinct(q) && Ahead(q, a, b)
    requires Holds(RemoveAt(q, k), a) && Holds(RemoveAt(q, k), b)
    ensures Ahead(RemoveAt(q, k), a, b)
  {
    var q' := RemoveAt(q, k);
    var x :| 0 <= x < |q'| && q'[x].id == a;
    var y :| 0 <= y < |q'| && q'[y].id == b;
    assert q'[x] == q[if x < k then x else x + 1];
    assert q'[y] == q[if y < k then y else y + 1];
  }

  lemma ShapeKeepsOrder(q: seq<Request>, shape: Shape, next: nat, a: RequestId, b: RequestId)
    requires Fits(q, shape, next) && Distinct(q) && Ahead(q, a, b)
    requires Holds(Shaped(q, shape), a) && Holds(Shaped(q, shape), b)
    ensures Ahead(Shaped(q, shape), a, b)
  {
    if shape.Lost? {
      RemoveKeepsOrder(q, shape.index, a, b);
    } else {
      var i, j :| 0 <= i < j < |q| && q[i].id == a && q[j].id == b;
      var k := if shape.Returned? then 1 else 0;
      assert Shaped(q, shape)[i + k] == q[i] && Shaped(q, shape)[j + k] == q[j];
    }
  }

  /** Once gone from a queue, an old request is back only by a requeue. */
  lemma ShapeHolds(q: seq<Request>, shape: Shape, next: nat, a: RequestId)
    requires Fits(q, shape, next)
    ensures Holds(Shaped(q, shape), a) && a < next && !shape.Returned? ==> Holds(q, a)
    ensures Holds(q, a) && !shape.Lost? ==> Holds(Shaped(q, shape), a)
  {
    var q' := Shaped(q, shape);
    if Holds(q', a) && a < next && !shape.Returned? {
      var x :| 0 <= x < |q'| && q'[x].id == a;
      if shape.Lost? {
        assert q'[x] == q[if x < shape.index then x else x + 1];
      }
    }
    if Holds(q, a) && !shape.Lost? {
      var x :| 0 <= x < |q| && q[x].id == a;
      assert q'[if shape.Returned? then x + 1 else x].id == a;
    }
  }

  /** A run either never requeues, or takes nothing out of the queues. */
  ghost predicate OneWay(ms: seq<Move>) {
    (forall m :: m in ms ==> !m.Requeue?) || (forall m :: m in ms ==> !m.Pull? && !m.Drop?)
  }

  lemma {:induction false} RunHolds(s: State, ms: seq<Move>, s': State, p: string, a: RequestId)
    requires Runs(s, ms, s') && a < s.nextRequest
    ensures (forall m :: m in ms ==> !m.Requeue?) && Holds(s'.Queue(p), a) ==> Holds(s.Queue(p), a)
    decreases |ms|
  {
    if ms != [] {
      ShapeIs(s, ms[0], p);
      ShapeHolds(s.Queue(p), ShapeOf(s, ms[0], p), s.nextRequest, a);
      GrowsOnly(s, ms[0]);
      RunHolds(Apply(s, ms[0]), ms[1..], s', p, a);
    }
  }

  lemma GrowsOnly(s: State, m: Move)
    requires Enabled(s, m)
    ensures s.nextRequest <= Apply(s, m).nextRequest
  {
    if m.FailRunning? || m.Drop? {
      EndingTouches(s, m);
    }
  }

  /** Two requests that are in a queue before and after a one-way run keep their order. */
  lemma {:induction false} RunKeepsOrder(s: State, ms: seq<Move>, s': State, p: string, a: RequestId, b: RequestId)
    requires Inv(s) && Runs(s, ms, s') && OneWay(ms)
    requires a < s.nextRequest && b < s.nextRequest && Ahead(s.Queue(p), a, b)
    requires Holds(s'.Queue(p), a) && Holds(s'.Queue(p), b)
    ensures Ahead(s'.Queue(p), a, b)
    decreases |ms|
  {
    if ms != [] {
      var t := Apply(s, ms[0]);
      ShapeIs(s, ms[0], p);
      GrowsOnly(s, ms[0]);
      AheadHolds(s.Queue(p), a, b);
      ShapeHolds(s.Queue(p), ShapeOf(s, ms[0], p), s.nextRequest, a);
      ShapeHolds(s.Queue(p), ShapeOf(s, ms[0], p), s.nextRequest, b);
      RunHolds(t, ms[1..], s', p, a);
      RunHolds(t, ms[1..], s', p, b);
      QueuesDistinct(s, p);
      ShapeKeepsOrder(s.Queue(p), ShapeOf(s, ms[0], p), s.nextRequest, a, b);
      MoveKeeps(s, ms[0]);
      RunKeepsOrder(t, ms[1..], s', p, a, b);
    }
  }

  lemma AheadHolds(q: seq<Request>, a: RequestId, b: RequestId)
    requires Ahead(q, a, b)
    ensures Holds(q, a) && Holds(q, b)
  {}

  // ---- size ----

  function NeverRequeued(q: seq<Request>): nat {
    |Filter(q, Original())|
  }

  function Original(): Request -> bool { (r: Request) => r.requeues == 0 }

  lemma {:induction false} NeverRequeuedAppend(q: seq<Request>, t: seq<Request>)
    ensures NeverRequeued(q + t) == NeverRequeued(q) + NeverRequeued(t)
  {
    FilterAppend(q, t, Original());
  }

  lemma OneRequest(r: Request)
    ensures NeverRequeued([r]) == if r.requeues == 0 then 1 else 0
  {
    assert [r][..0] == [];
  }

  lemma ShapeCounts(q: seq<Request>, shape: Shape, next: nat)
    requires Fits(q, shape, next)
    ensures NeverRequeued(Shaped(q, shape)) <= NeverRequeued(q) + if shape.Joined? then 1 else 0
    ensures NeverRequeued(q) <= |q|
  {
    match shape
    case Unchanged =>
    case Joined(r) => NeverRequeuedAppend(q, [r]); OneRequest(r);
    case Returned(r) => NeverRequeuedAppend([r], q); OneRequest(r);
    case Lost(i) =>
      NeverRequeuedAppend(q[..i], q[i..]);
      NeverRequeuedAppend([q[i]], q[i + 1..]);
      NeverRequeuedAppend(q[..i], q[i + 1..]);
      assert q == q[..i] + q[i..] && q[i..] == [q[i]] + q[i + 1..];
  }

  /** However many requests disconnects put back, no queue holds more never-requeued
      entries than its provider's policy allows. */
  ghost predicate WithinPolicy(s: State) {
    forall p: string :: NeverRequeued(s.Queue(p)) <= s.PolicyOf(p).maxQueueLen
  }

  lemma PoliciesStay(s: State, m: Move)
    requires Enabled(s, m) && !m.SetPolicy?
    ensures Apply(s, m).policies == s.policies
  {
    if m.FailRunning? || m.Drop? {
      EndingTouches(s, m);
    }
  }

  lemma MoveKeepsPolicy(s: State, m: Move)
    requires Enabled(s, m) && !m.SetPolicy? && WithinPolicy(s)
    ensures WithinPolicy(Apply(s, m))
  {
    PoliciesStay(s, m);
    forall p: string ensures NeverRequeued(Apply(s, m).Queue(p)) <= s.PolicyOf(p).maxQueueLen {
      ShapeIs(s, m, p);
      ShapeCounts(s.Queue(p), ShapeOf(s, m, p), s.nextRequest);
    }
  }

  lemma {:induction false} RunKeepsPolicy(s: State, ms: seq<Move>, s': State)
    requires Runs(s, ms, s') && WithinPolicy(s) && forall m :: m in ms ==> !m.SetPolicy?
    ensures WithinPolicy(s')
    decreases |ms|
  {
    if ms != [] {
      MoveKeepsPolicy(s, ms[0]);
      RunKeepsPolicy(Apply(s, ms[0]), ms[1..], s');
    }
  }
}
