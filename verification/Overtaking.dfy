/** Who is taken from the queues: however many requests one operation gives a worker, none
    overtakes another that the worker serves. */
module Overtaking {
  import opened Seqs
  import opened RelayState
  import opened Moves
  import opened Index
  import opened Progress
  import opened Spec
  import opened Traces
  import opened BulkTraces

  /** w has taken the requests `got`, in this order. */
  ghost predicate Takes(s: State, w: WorkerId, got: seq<RequestId>, t: State)
    decreases |got|
  {
    if got == [] then t == s
    else exists mid :: PullsOne(s, w, got[0], mid) && Takes(mid, w, got[1..], t)
  }

  lemma TakesFirst(s: State, w: WorkerId, got: seq<RequestId>, t: State) returns (mid: State)
    requires Takes(s, w, got, t) && got != []
    ensures PullsOne(s, w, got[0], mid) && Takes(mid, w, got[1..], t)
  {
    mid :| PullsOne(s, w, got[0], mid) && Takes(mid, w, got[1..], t);
  }

  lemma {:induction false} DrainTakes(s: State, w: WorkerId, got: seq<RequestId>, t: State)
    requires Drains(s, w, got, t)
    ensures Takes(s, w, got, t)
    decreases |got|
  {
    if got != [] {
      var mid :| PullsOne(s, w, got[0], mid) && Drains(mid, w, got[1..], t);
      DrainTakes(mid, w, got[1..], t);
    }
  }

  lemma DispatchTakes(s: State, w: WorkerId, got: Option<RequestId>, t: State) returns (ids: seq<RequestId>)
    requires Dispatches(s, w, got, t)
    ensures Takes(s, w, ids, t)
  {
    ids := [];
    if got.Some? {
      ids := [got.value];
      assert Takes(t, w, ids[1..], t);
    }
  }

  // ---- one request taken ----

  /** The two serve the same requests. */
  predicate Alike(a: Worker, b: Worker) { a.models == b.models && a.prefixes == b.prefixes }

  lemma PullIs(s: State, w: WorkerId, id: RequestId, t: State) returns (p: string, i: nat)
    requires PullsOne(s, w, id, t)
    ensures w in s.workers && BestPick(s, w, p, i) && s.queues[p][i].id == id && t == Pulled(s, w, p, i)
  {
    p, i :| BestPick(s, w, p, i) && s.queues[p][i].id == id && t == Pulled(s, w, p, i);
  }

  lemma PulledIs(s: State, w: WorkerId, p: string, i: nat)
    requires Inv(s) && Room(s, w) && FirstServed(s, w, p, i)
    ensures var t := Pulled(s, w, p, i);
      Inv(t) && w in t.workers && Alike(s.workers[w], t.workers[w])
      && forall q, x :: Waits(t)(q, x) <==> Waits(s)(q, x) && !(q == p && x == s.queues[p][i])
  {
    MoveKeeps(s, Pull(w, p, i));
    QueueShrinks(s, Pulled(s, w, p, i), p, i);
  }

  /** Whatever is left was there. */
  ghost predicate Fewer(s: State, t: State) {
    forall q, x :: Waits(t)(q, x) ==> Waits(s)(q, x)
  }

  lemma {:induction false} TakingOnlyTakes(s: State, w: WorkerId, got: seq<RequestId>, t: State)
    requires Inv(s) && Takes(s, w, got, t) && w in s.workers
    ensures Fewer(s, t) && w in t.workers && Alike(s.workers[w], t.workers[w])
    decreases |got|
  {
    if got != [] {
      var mid := TakesFirst(s, w, got, t);
      var p, i := PullIs(s, w, got[0], mid);
      PulledIs(s, w, p, i);
      TakingOnlyTakes(mid, w, got[1..], t);
    }
  }

  // ---- nothing ahead in the same queue ----

  ghost predicate Precedes(q: seq<Request>, a: Request, b: Request) {
    exists i, j :: 0 <= i < j < |q| && q[i] == a && q[j] == b
  }

  lemma RemovalKeepsPrecedes(q: seq<Request>, k: nat, a: Request, b: Request)
    requires k < |q| && Precedes(q, a, b) && q[k] != a && q[k] != b
    ensures Precedes(RemoveAt(q, k), a, b)
  {
    var i, j :| 0 <= i < j < |q| && q[i] == a && q[j] == b;
    var r := RemoveAt(q, k);
    assert r[if i < k then i else i - 1] == a && r[if j < k then j else j - 1] == b;
  }

  lemma WaitsOnce(s: State, p: string, q: string, b: Request)
    requires Inv(s) && Waits(s)(p, b) && Waits(s)(q, b)
    ensures p == q && NoDup(s.queues[p])
  {}

  lemma PullSkipsNobody(s: State, w: WorkerId, p: string, i: nat, a: Request, taker: Worker)
    requires w in s.workers && FirstServed(s, w, p, i) && NoDup(s.queues[p]) && Alike(s.workers[w], taker)
    requires Precedes(s.queues[p], a, s.queues[p][i])
    ensures !taker.Serves(a)
  {}

  lemma PullKeepsPrecedes(s: State, w: WorkerId, home: string, i: nat, p: string, a: Request, b: Request)
    requires Inv(s) && Room(s, w) && FirstServed(s, w, home, i) && Precedes(s.Queue(p), a, b)
    requires s.queues[home][i] != b && Waits(Pulled(s, w, home, i))(p, a)
    ensures Precedes(Pulled(s, w, home, i).Queue(p), a, b)
  {
    PulledIs(s, w, home, i);
    if p == home {
      RemovalKeepsPrecedes(s.queues[p], i, a, b);
    }
  }

  lemma StillWaiting(s: State, w: WorkerId, p: string, b: Request)
    requires Inv(s) && Waits(s)(p, b)
    ensures !Owns(s, w, b.id)
  {}

  /** A request taken has nothing ahead of it, in its own queue, that the worker serves. */
  lemma {:induction false} NothingAheadIsServed(s: State, w: WorkerId, got: seq<RequestId>, t: State, p: string,
                                                a: Request, b: Request)
    requires Inv(s) && Takes(s, w, got, t) && w in s.workers
    requires Precedes(s.Queue(p), a, b) && Waits(t)(p, a) && Owns(t, w, b.id)
    ensures w in t.workers && !t.workers[w].Serves(a)
    decreases |got|
  {
    if got == [] {
      StillWaiting(s, w, p, b);
    } else {
      var mid := TakesFirst(s, w, got, t);
      var home, i := PullIs(s, w, got[0], mid);
      PulledIs(s, w, home, i);
      TakingOnlyTakes(mid, w, got[1..], t);
      if s.queues[home][i] == b {
        assert Waits(s)(home, b) && Waits(s)(p, b);
        WaitsOnce(s, home, p, b);
        PullSkipsNobody(s, w, p, i, a, t.workers[w]);
      } else {
        PullKeepsPrecedes(s, w, home, i, p, a, b);
        NothingAheadIsServed(mid, w, got[1..], t, p, a, b);
      }
    }
  }

  // ---- nothing older at the head of another queue ----

  lemma OneHead(s: State, w: WorkerId, p: string, i: nat, j: nat)
    requires w in s.workers && FirstServed(s, w, p, i) && FirstServed(s, w, p, j)
    ensures i == j
  {}

  lemma HeadStays(s: State, t: State, w: WorkerId, home: string, i: nat, q: string, j: nat)
    requires w in s.workers && w in t.workers && Alike(s.workers[w], t.workers[w])
    requires FirstServed(s, w, home, i) && FirstServed(s, w, q, j)
    requires t.queues == s.queues[home := RemoveAt(s.queues[home], i)] && !Waits(t)(home, s.queues[home][i])
    requires Waits(t)(q, s.queues[q][j])
    ensures home != q && FirstServed(t, w, q, j) && t.queues[q] == s.queues[q]
  {
    if home == q {
      OneHead(s, w, q, i, j);
    }
  }

  /** Of what a worker serves first in each queue, it takes nothing younger before what it leaves. */
  lemma {:induction false} NothingOlderIsLeft(s: State, w: WorkerId, got: seq<RequestId>, t: State, p: string,
                                              b: Request, q: string, j: nat)
    requires Inv(s) && Takes(s, w, got, t) && w in s.workers && Waits(s)(p, b) && Owns(t, w, b.id)
    requires FirstServed(s, w, q, j) && Waits(t)(q, s.queues[q][j])
    ensures b.queuedAt <= s.queues[q][j].queuedAt
    decreases |got|
  {
    if got == [] {
      StillWaiting(s, w, p, b);
    } else {
      var mid := TakesFirst(s, w, got, t);
      var home, i := PullIs(s, w, got[0], mid);
      PulledIs(s, w, home, i);
      if s.queues[home][i] != b {
        TakingOnlyTakes(mid, w, got[1..], t);
        HeadStays(s, mid, w, home, i, q, j);
        NothingOlderIsLeft(mid, w, got[1..], t, p, b, q, j);
      }
    }
  }

  // ---- who takes ----

  lemma PullKeepsOwner(s: State, v: WorkerId, p: string, i: nat, w: WorkerId, id: RequestId)
    requires Inv(s) && Room(s, v) && FirstServed(s, v, p, i) && Owns(s, w, id)
    ensures Owns(Pulled(s, v, p, i), w, id)
  {
    assert Waits(s)(p, s.queues[p][i]);
  }

  lemma {:induction false} TakingKeepsOwner(s: State, v: WorkerId, got: seq<RequestId>, t: State, w: WorkerId,
                                            id: RequestId)
    requires Inv(s) && Takes(s, v, got, t) && Owns(s, w, id)
    ensures Owns(t, w, id)
    decreases |got|
  {
    if got != [] {
      var mid := TakesFirst(s, v, got, t);
      var p, i := PullIs(s, v, got[0], mid);
      PulledIs(s, v, p, i);
      PullKeepsOwner(s, v, p, i, w, id);
      TakingKeepsOwner(mid, v, got[1..], t, w, id);
    }
  }

  /** What waited and runs now runs on the worker that took it. */
  lemma {:induction false} TakerOwns(s: State, v: WorkerId, got: seq<RequestId>, t: State, p: string, b: Request,
                                     w: WorkerId)
    requires Inv(s) && Takes(s, v, got, t) && Waits(s)(p, b) && Owns(t, w, b.id)
    ensures v == w && v in s.workers
    decreases |got|
  {
    if got == [] {
      StillWaiting(s, w, p, b);
    } else {
      var mid := TakesFirst(s, v, got, t);
      var home, i := PullIs(s, v, got[0], mid);
      PulledIs(s, v, home, i);
      if s.queues[home][i] == b {
        TakingKeepsOwner(mid, v, got[1..], t, v, b.id);
      } else {
        TakerOwns(mid, v, got[1..], t, p, b, w);
      }
    }
  }

  // ---- which operations take ----

  /** The request does not run. */
  predicate Unstarted(s: State, id: RequestId) { id in s.active ==> s.active[id].Queued? }

  lemma LawfulStart(active: map<RequestId, Active>, next: nat, c: Change, id: RequestId)
    requires Lawful(active, next, c) && id < next && (id in active ==> active[id].Queued?)
    requires c.Starts? ==> c.r.id !in active
    ensures id in Changed(active, c) ==> Changed(active, c)[id].Queued?
  {}

  lemma AdmitIsFresh(s: State, m: Move)
    requires Inv(s) && Enabled(s, m) && !m.Pull? && ChangeOf(s, m).Starts?
    ensures ChangeOf(s, m).r.id !in s.active
  {}

  lemma OnlyPullsStart(s: State, m: Move, id: RequestId)
    requires Inv(s) && Enabled(s, m) && !m.Pull? && id < s.nextRequest && Unstarted(s, id)
    ensures id < Apply(s, m).nextRequest && Unstarted(Apply(s, m), id)
  {
    ChangeIs(s, m);
    ChangeIsLawful(s, m);
    if ChangeOf(s, m).Starts? {
      AdmitIsFresh(s, m);
    }
    LawfulStart(s.active, s.nextRequest, ChangeOf(s, m), id);
  }

  lemma {:induction false} NoPullNoStart(s: State, ms: seq<Move>, t: State, id: RequestId)
    requires Inv(s) && Runs(s, ms, t) && id < s.nextRequest && Unstarted(s, id)
    requires forall m :: m in ms ==> !m.Pull?
    ensures Unstarted(t, id)
    decreases |ms|
  {
    if ms != [] {
      assert ms[0] in ms;
      forall m | m in ms[1..] ensures m in ms {}
      OnlyPullsStart(s, ms[0], id);
      MoveKeeps(s, ms[0]);
      NoPullNoStart(Apply(s, ms[0]), ms[1..], t, id);
    }
  }

  predicate MayTake(op: Op) { op.UpdateModels? || op.Pong? || op.FinishRequest? || op.CompleteResponse? }

  lemma OthersPullNothing(op: Op, ms: seq<Move>)
    requires AllBelong(op, ms) && !MayTake(op)
    ensures forall m :: m in ms ==> !m.Pull?
  {}

  lemma OthersStartNothing(s: State, op: Op, t: State, id: RequestId)
    requires Sound(s) && Step(s, op, t) && !MayTake(op) && id in s.active && s.active[id].Queued?
    ensures Unstarted(t, id)
  {
    var ms := StepRuns(s, op, t);
    OthersPullNothing(op, ms);
    NoPullNoStart(s, ms, t, id);
  }

  /** A state of the same queues from which the worker takes. */
  ghost predicate TakesFrom(s: State, mid: State, w: WorkerId, got: seq<RequestId>, t: State) {
    Inv(mid) && mid.queues == s.queues && w in mid.workers && Takes(mid, w, got, t)
  }

  lemma RetuneTakes(s: State, v: WorkerId, models: seq<string>, load: nat, got: seq<RequestId>, t: State)
    requires Inv(s) && Retunes(s, v, models, load, got, t) && v in s.workers
    ensures TakesFrom(s, Tuned(s, v, models, load), v, got, t)
  {
    MoveKeeps(s, Tune(v, models, load));
    DrainTakes(Tuned(s, v, models, load), v, got, t);
  }

  lemma LeavingStartsNothing(s: State, v: WorkerId, id: RequestId, w: WorkerId, p: string, b: Request)
    requires Inv(s) && Waits(s)(p, b) && v in s.workers
    ensures !Owns(RemoveWorker(Moves.Finished(s, v, id), v, Some(Completed)), w, b.id)
  {}

  lemma FinishTakes(s: State, v: WorkerId, id: RequestId, one: Option<RequestId>, t: State, p: string, b: Request,
                    w: WorkerId)
    returns (mid: State, got: seq<RequestId>)
    requires Inv(s) && Finishes(s, v, id, one, t) && Waits(s)(p, b) && Owns(t, w, b.id)
    ensures TakesFrom(s, mid, v, got, t)
  {
    StillWaiting(s, w, p, b);
    LeavingStartsNothing(s, v, id, w, p, b);
    mid := Moves.Finished(s, v, id);
    MoveKeeps(s, Finish(v, id));
    got := DispatchTakes(mid, v, one, t);
  }

  lemma ClosedSame(s: State, id: RequestId, body: Bytes, p: string, b: Request)
    requires Inv(s) && Waits(s)(p, b)
    ensures Inv(Closed(s, id, body)) && Closed(s, id, body).queues == s.queues && Waits(Closed(s, id, body))(p, b)
  {
    HousekeepingKeeps(s, Closed(s, id, body));
  }

  lemma ReportTakes(s: State, op: Op, t: State, p: string, b: Request, w: WorkerId)
    returns (mid: State, got: seq<RequestId>)
    requires Inv(s) && Step(s, op, t) && (op.UpdateModels? || op.Pong?) && Waits(s)(p, b) && Owns(t, w, b.id)
    ensures TakesFrom(s, mid, op.w, got, t)
  {
    StillWaiting(s, w, p, b);
    if op.UpdateModels? {
      got :| Retunes(s, op.w, op.models, op.current, got, t);
      RetuneTakes(s, op.w, op.models, op.current, got, t);
      mid := Tuned(s, op.w, op.models, op.current);
    } else {
      got :| Pongs(s, op.w, op.current, got, t);
      RetuneTakes(s, op.w, s.workers[op.w].models, op.current, got, t);
      mid := Tuned(s, op.w, s.workers[op.w].models, op.current);
    }
  }

  lemma CompleteTakes(s: State, v: WorkerId, id: RequestId, body: Bytes, ok: bool, t: State, p: string, b: Request,
                      w: WorkerId)
    returns (mid: State, got: seq<RequestId>)
    requires Inv(s) && Completes(s, v, id, body, ok, t) && t != s && Waits(s)(p, b) && Owns(t, w, b.id)
    ensures TakesFrom(s, mid, v, got, t)
  {
    var u := Closed(s, id, body);
    var one :| Finishes(u, v, id, one, t);
    ClosedSame(s, id, body, p, b);
    mid, got := FinishTakes(u, v, id, one, t, p, b, w);
  }

  lemma CompletionTakes(s: State, op: Op, t: State, p: string, b: Request, w: WorkerId)
    returns (mid: State, got: seq<RequestId>)
    requires Inv(s) && Step(s, op, t) && (op.FinishRequest? || op.CompleteResponse?) && Waits(s)(p, b)
    requires Owns(t, w, b.id)
    ensures TakesFrom(s, mid, op.w, got, t)
  {
    if op.FinishRequest? {
      var one :| Finishes(s, op.w, op.id, one, t);
      mid, got := FinishTakes(s, op.w, op.id, one, t, p, b, w);
    } else {
      StillWaiting(s, w, p, b);
      var ok := Completes(s, op.w, op.id, op.body, true, t);
      mid, got := CompleteTakes(s, op.w, op.id, op.body, ok, t, p, b, w);
    }
  }

  lemma TakerIsOwner(s: State, mid: State, v: WorkerId, got: seq<RequestId>, t: State, p: string, b: Request,
                     w: WorkerId)
    requires TakesFrom(s, mid, v, got, t) && Waits(s)(p, b) && Owns(t, w, b.id)
    ensures TakesFrom(s, mid, w, got, t)
  {
    TakerOwns(mid, v, got, t, p, b, w);
  }

  lemma OthersTakeNothing(s: State, op: Op, t: State, p: string, b: Request, w: WorkerId)
    requires Sound(s) && Step(s, op, t) && !MayTake(op) && Waits(s)(p, b)
    ensures !Owns(t, w, b.id)
  {
    assert s.active[b.id] == Queued(b);
    OthersStartNothing(s, op, t, b.id);
  }

  /** Whoever runs, after an operation, what waited before it took it from these very queues. */
  lemma StepTakes(s: State, op: Op, t: State, p: string, b: Request, w: WorkerId)
    returns (mid: State, got: seq<RequestId>)
    requires Sound(s) && Step(s, op, t) && Waits(s)(p, b) && Owns(t, w, b.id)
    ensures TakesFrom(s, mid, w, got, t)
  {
    if op.UpdateModels? || op.Pong? {
      mid, got := ReportTakes(s, op, t, p, b, w);
      TakerIsOwner(s, mid, op.w, got, t, p, b, w);
    } else if op.FinishRequest? || op.CompleteResponse? {
      mid, got := CompletionTakes(s, op, t, p, b, w);
      TakerIsOwner(s, mid, op.w, got, t, p, b, w);
    } else {
      OthersTakeNothing(s, op, t, p, b, w);
    }
  }

  /** Over one operation, a worker that takes b serves nothing left waiting ahead of b. */
  lemma NobodyAheadServed(s: State, op: Op, t: State, p: string, a: Request, b: Request, w: WorkerId)
    requires Sound(s) && Step(s, op, t) && Precedes(s.Queue(p), a, b) && Owns(t, w, b.id) && Waits(t)(p, a)
    ensures w in t.workers && !t.workers[w].Serves(a)
  {
    var mid, got := StepTakes(s, op, t, p, b, w);
    NothingAheadIsServed(mid, w, got, t, p, a, b);
  }

  /** What is left of a queue in which something was taken was there before. */
  lemma LeftWasThere(s: State, op: Op, t: State, p: string, b: Request, w: WorkerId)
    requires Sound(s) && Step(s, op, t) && Waits(s)(p, b) && Owns(t, w, b.id)
    ensures Fewer(s, t) && w in t.workers
  {
    var mid, got := StepTakes(s, op, t, p, b, w);
    TakingOnlyTakes(mid, w, got, t);
  }

  /** The first entry of a queue that a worker serves as it is now. */
  predicate HeadFor(q: seq<Request>, worker: Worker, j: nat) {
    j < |q| && worker.Serves(q[j]) && forall i :: 0 <= i < j ==> !worker.Serves(q[i])
  }

  /** Over one operation, a worker that takes b leaves nothing older at the head of a queue. */
  lemma NobodyOlderLeft(s: State, op: Op, t: State, p: string, b: Request, w: WorkerId, q: string, j: nat)
    requires Sound(s) && Step(s, op, t) && Waits(s)(p, b) && Owns(t, w, b.id)
    requires w in t.workers && HeadFor(s.Queue(q), t.workers[w], j) && Waits(t)(q, s.Queue(q)[j])
    ensures b.queuedAt <= s.Queue(q)[j].queuedAt
  {
    var mid, got := StepTakes(s, op, t, p, b, w);
    TakingOnlyTakes(mid, w, got, t);
    HeadIsFirst(mid, w, t.workers[w], q, j);
    NothingOlderIsLeft(mid, w, got, t, p, b, q, j);
  }

  lemma HeadIsFirst(s: State, w: WorkerId, worker: Worker, q: string, j: nat)
    requires w in s.workers && Alike(s.workers[w], worker) && HeadFor(s.Queue(q), worker, j)
    ensures FirstServed(s, w, q, j)
  {}
}
