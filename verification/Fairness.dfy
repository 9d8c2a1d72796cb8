/** What selection guarantees: it finds a worker whenever one is eligible, honours the
    client's routing, decides uniquely, and serves tied workers in turn. */
module Fairness {
  import opened Seqs
  import opened RelayState
  import opened Moves
  import opened Selection
  import opened Spec
  import opened Traces
  import opened BulkTraces
  import opened Executions

  // ---- one selection ----

  lemma TurnsDiffer(cursor: Option<nat>, size: nat, a: int, b: int)
    requires 0 <= a < size && 0 <= b < size && Turn(cursor, size, a) == Turn(cursor, size, b)
    ensures a == b
  {}

  lemma SelectsInUnique(s: State, scope: Scope, want: Wanted, key: SelectionKey, c: Option<Choice>, d: Option<Choice>)
    requires SelectsIn(s, scope, want, key, c) && SelectsIn(s, scope, want, key, d)
    ensures c == d
  {
    if c.Some? && d.Some? {
      var p, q := c.value.position, d.value.position;
      TurnsDiffer(Cursor(s, key), |s.order|, p, q);
    }
  }

  lemma FirstPreferredUnique(s: State, want: Wanted, routing: Routing, j: int, k: int)
    requires FirstPreferred(s, want, routing, j) && FirstPreferred(s, want, routing, k)
    ensures j == k
  {}

  /** There is never a choice left to make. */
  lemma SelectsUnique(s: State, want: Wanted, c: Option<Choice>, d: Option<Choice>)
    requires Selects(s, want, c) && Selects(s, want, d)
    ensures c == d
  {
    if want.routing.Some? && AnyEligible(s, Routed(want.routing.value), want) {
      var routing := want.routing.value;
      if exists k :: Preferred(s, want, routing, k) {
        var j :| FirstPreferred(s, want, routing, j) && SelectsPreferred(s, want, routing, j, c.value);
        var k :| FirstPreferred(s, want, routing, k) && SelectsPreferred(s, want, routing, k, d.value);
        FirstPreferredUnique(s, want, routing, j, k);
      } else {
        SelectsInUnique(s, Routed(routing), want, SelectionKey(want.provider, want.model), c, d);
      }
    } else {
      SelectsUnroutedUnique(s, want, c, d);
    }
  }

  lemma SelectsUnroutedUnique(s: State, want: Wanted, c: Option<Choice>, d: Option<Choice>)
    requires (SelectsUnrouted(s, want, c) && SelectsUnrouted(s, want, d)) || (c == None && d == None)
    ensures c == d
  {
    if AnyEligible(s, Named(want.provider), want) && c.Some? {
      SelectsInUnique(s, Named(want.provider), want, SelectionKey(want.provider, want.model), c, d);
    } else if SelectsUnrouted(s, want, c) {
      if !AnyEligible(s, Named(want.provider), want) {
        SelectsInUnique(s, Anyone, want, SelectionKey(ANY_PROVIDER, want.model), c, d);
      }
    }
  }

  lemma NamedIsAnyone(s: State, want: Wanted, p: string, pos: int)
    requires Eligible(s, Named(p), want, pos)
    ensures Eligible(s, Anyone, want, pos)
  {}

  /** Unrouted: a worker is found exactly when anybody is eligible; the request's own
      provider comes first; and nobody eligible there is less loaded. */
  lemma UnroutedSelection(s: State, want: Wanted, c: Option<Choice>)
    requires SelectsUnrouted(s, want, c)
    ensures c.Some? <==> AnyEligible(s, Anyone, want)
    ensures c.Some? ==> Eligible(s, Anyone, want, c.value.position) && c.value.worker == s.order[c.value.position]
    ensures c.Some? && AnyEligible(s, Named(want.provider), want) ==>
      ProviderAt(s, c.value.position) == want.provider
      && forall q :: Eligible(s, Named(want.provider), want, q) ==> LoadAt(s, c.value.position) <= LoadAt(s, q)
    ensures c.Some? && !AnyEligible(s, Named(want.provider), want) ==>
      forall q :: Eligible(s, Anyone, want, q) ==> LoadAt(s, c.value.position) <= LoadAt(s, q)
  {
    if AnyEligible(s, Named(want.provider), want) {
      var pos :| Eligible(s, Named(want.provider), want, pos);
      NamedIsAnyone(s, want, want.provider, pos);
      NamedIsAnyone(s, want, want.provider, c.value.position);
    }
  }

  /** A worker of provider p that no other of p's workers passing the filters undercuts. */
  ghost predicate LeastOf(s: State, want: Wanted, routing: Routing, p: string, pos: int) {
    Eligible(s, Routed(routing), want, pos) && ProviderAt(s, pos) == p
    && forall q :: Eligible(s, Routed(routing), want, q) && ProviderAt(s, q) == p ==> LoadAt(s, pos) <= LoadAt(s, q)
  }

  /** Routed: whenever a worker passes every filter, the one selected does; it belongs to
      the first listed provider that has one and is that provider's least loaded, or is
      the least loaded of all when none is listed. Otherwise fallbacks decide. */
  lemma RoutedSelection(s: State, want: Wanted, routing: Routing, c: Option<Choice>)
    requires SelectsRouted(s, want, routing, c)
    ensures AnyEligible(s, Routed(routing), want) ==>
      c.Some? && Eligible(s, Routed(routing), want, c.value.position) && c.value.worker == s.order[c.value.position]
    ensures AnyEligible(s, Routed(routing), want) ==>
      if exists k :: Preferred(s, want, routing, k)
      then (exists k :: FirstPreferred(s, want, routing, k)
                        && LeastOf(s, want, routing, routing.order.value[k], c.value.position))
      else forall q :: Eligible(s, Routed(routing), want, q) ==> LoadAt(s, c.value.position) <= LoadAt(s, q)
    ensures !AnyEligible(s, Routed(routing), want) && routing.allowFallbacks == Some(false) ==> c == None
    ensures !AnyEligible(s, Routed(routing), want) && routing.allowFallbacks != Some(false) ==>
      SelectsUnrouted(s, want, c)
  {
    if AnyEligible(s, Routed(routing), want) && exists k :: Preferred(s, want, routing, k) {
      var k :| FirstPreferred(s, want, routing, k) && SelectsPreferred(s, want, routing, k, c.value);
      assert LeastOf(s, want, routing, routing.order.value[k], c.value.position);
    }
  }

  // ---- many selections under one key ----

  /** p follows the cursor among the positions t, going round. */
  ghost predicate Follows(t: seq<nat>, cursor: Option<nat>, size: nat, p: nat) {
    p in t && forall q :: q in t ==> Turn(cursor, size, p) <= Turn(cursor, size, q)
  }

  lemma NextPlace(t: seq<nat>, i: nat, size: nat, p: nat)
    requires Increasing(t) && i < |t| && (forall x :: x in t ==> x < size)
    requires Follows(t, Some(t[i]), size, p)
    ensures p == t[if i + 1 < |t| then i + 1 else 0]
  {
    var k :| 0 <= k < |t| && t[k] == p;
    var j := if i + 1 < |t| then i + 1 else 0;
    assert t[j] in t;
  }

  ghost predicate InTurn(t: seq<nat>, sizes: seq<nat>, cursor: Option<nat>, picks: seq<nat>) {
    |sizes| == |picks| && forall k :: 0 <= k < |picks| ==> TurnAt(t, sizes, cursor, picks, k)
  }

  ghost predicate TurnAt(t: seq<nat>, sizes: seq<nat>, cursor: Option<nat>, picks: seq<nat>, k: int)
    requires |sizes| == |picks| && 0 <= k < |picks|
  {
    (forall x :: x in t ==> x < sizes[k])
    && Follows(t, if k == 0 then cursor else Some(picks[k - 1]), sizes[k], picks[k])
  }

  function Place(start: nat, k: nat, n: nat): int
  {
    if start + k < n then start + k else start + k - n
  }

  lemma {:induction false} PickPlace(t: seq<nat>, sizes: seq<nat>, cursor: Option<nat>, picks: seq<nat>, start: nat,
                                     k: nat)
    requires Increasing(t) && InTurn(t, sizes, cursor, picks) && k < |picks| <= |t|
    requires start < |t| && picks[0] == t[start]
    ensures 0 <= Place(start, k, |t|) < |t| && picks[k] == t[Place(start, k, |t|)]
  {
    if k != 0 {
      PickPlace(t, sizes, cursor, picks, start, k - 1);
      assert TurnAt(t, sizes, cursor, picks, k);
      NextPlace(t, Place(start, k - 1, |t|), sizes[k], picks[k]);
    }
  }

  /** As many picks in a row as there are tied workers give each of them exactly one. */
  lemma EachServedOnce(t: seq<nat>, sizes: seq<nat>, cursor: Option<nat>, picks: seq<nat>)
    requires Increasing(t) && InTurn(t, sizes, cursor, picks) && |picks| == |t|
    ensures NoDup(picks) && forall x :: x in picks <==> x in t
  {
    if t != [] {
      assert TurnAt(t, sizes, cursor, picks, 0);
      var start :| 0 <= start < |t| && t[start] == picks[0];
      forall k | 0 <= k < |picks|
        ensures 0 <= Place(start, k, |t|) < |t| && picks[k] == t[Place(start, k, |t|)]
      {
        PickPlace(t, sizes, cursor, picks, start, k);
      }
      forall x | x in t ensures x in picks {
        var i :| 0 <= i < |t| && t[i] == x;
        assert picks[if i >= start then i - start else i + |t| - start] == x;
      }
    }
  }

  /** Picks at which the same positions are tied, each following the cursor left by the one before. */
  lemma PicksTakeTurns(states: seq<State>, picks: seq<nat>, t: seq<nat>, scope: Scope, wants: seq<Wanted>,
                       key: SelectionKey)
    requires |states| == |wants| == |picks| == |t| && Increasing(t)
    requires forall k, x: nat :: 0 <= k < |states| ==> (x in t <==> Least(states[k], scope, wants[k], x))
    requires forall k :: 0 <= k < |states| ==> NextInTurn(states[k], scope, wants[k], key, picks[k])
    requires forall k :: 0 < k < |states| ==> Cursor(states[k], key) == Some(picks[k - 1])
    ensures NoDup(picks) && forall x :: x in picks <==> x in t
  {
    if t != [] {
      var sizes := seq(|states|, i requires 0 <= i < |states| => |states[i].order|);
      forall k | 0 <= k < |picks| ensures TurnAt(t, sizes, Cursor(states[0], key), picks, k) {
        forall x | x in t
          ensures x < sizes[k]
          ensures Turn(Cursor(states[k], key), sizes[k], picks[k]) <= Turn(Cursor(states[k], key), sizes[k], x)
        {
          assert Least(states[k], scope, wants[k], x);
        }
        assert Least(states[k], scope, wants[k], picks[k]);
      }
      EachServedOnce(t, sizes, Cursor(states[0], key), picks);
    }
  }

  // ---- who moves a cursor ----

  /** The operation is a submission that finds a worker under the key. */
  ghost predicate Uses(s: State, op: Op, key: SelectionKey) {
    op.Submit? && exists c: Choice :: Selects(s, op.x.want, Some(c)) && c.key == key
  }

  lemma MoveLeavesCursors(s: State, m: Move)
    requires Enabled(s, m) && !m.Admit?
    ensures Apply(s, m).cursors == s.cursors
  {
    if m.FailRunning? || m.Drop? {
      EndingTouches(s, m);
    }
  }

  lemma {:induction false} RunLeavesCursors(s: State, ms: seq<Move>, t: State)
    requires Runs(s, ms, t) && forall m :: m in ms ==> !m.Admit?
    ensures t.cursors == s.cursors
    decreases |ms|
  {
    if ms != [] {
      assert ms[0] in ms;
      forall m | m in ms[1..] ensures m in ms {}
      MoveLeavesCursors(s, ms[0]);
      RunLeavesCursors(Apply(s, ms[0]), ms[1..], t);
    }
  }

  lemma OthersAdmitNobody(op: Op, ms: seq<Move>)
    requires AllBelong(op, ms) && !op.Submit?
    ensures forall m :: m in ms ==> !m.Admit?
  {}

  lemma OthersLeaveCursors(s: State, op: Op, t: State)
    requires Sound(s) && Step(s, op, t) && !op.Submit?
    ensures t.cursors == s.cursors
  {
    var ms := StepRuns(s, op, t);
    OthersAdmitNobody(op, ms);
    RunLeavesCursors(s, ms, t);
  }

  lemma PlacementIs(s: State, r: Request, c: Option<Choice>, out: Outcome, t: State)
    requires PlacesAs(s, r, c, out, t)
    ensures t.cursors == MovedCursor(s, c).cursors && (c.Some? ==> Owns(t, c.value.worker, r.id))
  {}

  /** What a submission does to the cursors and, if it is dispatched, to the worker it finds. */
  lemma PlacingIs(s: State, x: Submission, out: Outcome, t: State) returns (c: Option<Choice>)
    requires Places(s, x, out, t)
    ensures Selects(s, x.want, c) && t.cursors == MovedCursor(s, c).cursors
    ensures c.Some? ==> Owns(t, c.value.worker, s.nextRequest)
  {
    c :| Selects(s, x.want, c) && PlacesAs(s, RequestOf(s, x), c, out, t);
    PlacementIs(s, RequestOf(s, x), c, out, t);
  }

  lemma SubmissionIs(s: State, x: Submission, t: State) returns (c: Option<Choice>)
    requires Step(s, Submit(x), t)
    ensures Selects(s, x.want, c) && t.cursors == MovedCursor(s, c).cursors
    ensures c.Some? ==> Owns(t, c.value.worker, s.nextRequest)
  {
    var out :| Submits(s, x, out, t);
    var mid := SubmitParts(s, x, out, t);
    c := PlacingIs(s, x, out, mid);
  }

  /** Only a submission that finds a worker under the key moves the key's cursor. */
  lemma CursorStays(s: State, op: Op, t: State, key: SelectionKey)
    requires Sound(s) && Step(s, op, t) && !Uses(s, op, key)
    ensures Cursor(t, key) == Cursor(s, key)
  {
    if op.Submit? {
      var c := SubmissionIs(s, op.x, t);
    } else {
      OthersLeaveCursors(s, op, t);
    }
  }

  /** And it moves it to the position it picks. */
  lemma CursorMoves(s: State, x: Submission, t: State, c: Choice)
    requires Step(s, Submit(x), t) && Selects(s, x.want, Some(c))
    ensures Cursor(t, c.key) == Some(c.position) && Owns(t, c.worker, s.nextRequest)
  {
    var d := SubmissionIs(s, x, t);
    SelectsUnique(s, x.want, Some(c), d);
  }

  // ---- whole runs ----

  /** Step k submits a request that the tied positions t may take, and picks position pos. */
  ghost predicate PicksAmong(e: Execution, k: nat, scope: Scope, key: SelectionKey, t: seq<nat>, pos: nat)
    requires e.Valid() && k < |e.ops|
  {
    var s := e.states[k];
    e.ops[k].Submit? && pos < |s.order| && NextInTurn(s, scope, e.ops[k].x.want, key, pos)
    && Selects(s, e.ops[k].x.want, Some(Choice(s.order[pos], pos, key)))
    && forall x: nat :: x in t <==> Least(s, scope, e.ops[k].x.want, x)
  }

  /** Between steps i and k, nothing else finds a worker under the key. */
  ghost predicate Unused(e: Execution, i: nat, k: nat, key: SelectionKey)
    requires e.Valid() && k < |e.ops|
  {
    forall j :: i < j < k ==> !Uses(e.states[j], e.ops[j], key)
  }

  lemma StepLeavesCursor(e: Execution, k: nat, key: SelectionKey)
    requires e.Valid() && k < |e.ops| && !Uses(e.states[k], e.ops[k], key)
    ensures Cursor(e.states[k + 1], key) == Cursor(e.states[k], key)
  {
    AlwaysSound(e, k);
    assert e.StepAt(k);
    CursorStays(e.states[k], e.ops[k], e.states[k + 1], key);
  }

  lemma {:induction false} CursorWaits(e: Execution, i: nat, j: nat, k: nat, key: SelectionKey)
    requires e.Valid() && i < j <= k < |e.ops| && Unused(e, i, k, key)
    ensures Cursor(e.states[j], key) == Cursor(e.states[i + 1], key)
    decreases j
  {
    if i + 1 < j {
      CursorWaits(e, i, j - 1, k, key);
      StepLeavesCursor(e, j - 1, key);
    }
  }

  /** The request that step k submits runs, after it, on the worker at position pos. */
  ghost predicate Gets(e: Execution, k: nat, pos: nat)
    requires e.Valid() && k < |e.ops|
  {
    pos < |e.states[k].order| && Owns(e.states[k + 1], e.states[k].order[pos], e.states[k].nextRequest)
  }

  lemma PickMovesCursor(e: Execution, k: nat, scope: Scope, key: SelectionKey, t: seq<nat>, pos: nat)
    requires e.Valid() && k < |e.ops| && PicksAmong(e, k, scope, key, t, pos)
    ensures Cursor(e.states[k + 1], key) == Some(pos) && Gets(e, k, pos)
  {
    assert e.StepAt(k);
    CursorMoves(e.states[k], e.ops[k].x, e.states[k + 1], Choice(e.states[k].order[pos], pos, key));
  }

  lemma CursorArrives(e: Execution, i: nat, k: nat, scope: Scope, key: SelectionKey, t: seq<nat>, pos: nat)
    requires e.Valid() && i < k < |e.ops| && PicksAmong(e, i, scope, key, t, pos) && Unused(e, i, k, key)
    ensures Cursor(e.states[k], key) == Some(pos)
  {
    PickMovesCursor(e, i, scope, key, t, pos);
    CursorWaits(e, i, k, k, key);
  }

  /** Tied workers take turns: if the same positions are tied at as many submissions as there
      are such positions, and nothing else uses their key in between, then each position is
      picked exactly once, and its worker is given the request. */
  lemma TiedWorkersTakeTurns(e: Execution, at: seq<nat>, picks: seq<nat>, t: seq<nat>, scope: Scope, key: SelectionKey)
    requires e.Valid() && |at| == |picks| == |t| && Increasing(at) && Increasing(t)
    requires forall i :: 0 <= i < |at| ==> at[i] < |e.ops| && PicksAmong(e, at[i], scope, key, t, picks[i])
    requires forall i :: 0 < i < |at| ==> Unused(e, at[i - 1], at[i], key)
    ensures NoDup(picks) && forall x :: x in picks <==> x in t
    ensures forall i :: 0 <= i < |at| ==> Gets(e, at[i], picks[i])
  {
    var states := seq(|at|, i requires 0 <= i < |at| => e.states[at[i]]);
    var wants := seq(|at|, i requires 0 <= i < |at| => e.ops[at[i]].x.want);
    forall i | 0 <= i < |at|
      ensures Gets(e, at[i], picks[i]) && NextInTurn(states[i], scope, wants[i], key, picks[i])
      ensures forall x: nat :: x in t <==> Least(states[i], scope, wants[i], x)
    {
      PickMovesCursor(e, at[i], scope, key, t, picks[i]);
    }
    forall i | 0 < i < |at| ensures Cursor(states[i], key) == Some(picks[i - 1]) {
      CursorArrives(e, at[i - 1], at[i], scope, key, t, picks[i - 1]);
    }
    PicksTakeTurns(states, picks, t, scope, wants, key);
  }
}
