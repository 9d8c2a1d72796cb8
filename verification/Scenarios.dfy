/** Concrete runs in which the code does what one may not expect. */
module Scenarios {
  import opened Seqs
  import opened RelayState
  import opened Moves
  import opened Selection
  import opened Spec
  import opened Executions
  import Guarantees
  import opened WorkerSocket

  // ---- two workers, the first of which serves a client ----

  const WORKER := NewWorker("a", ["*"], [], 1, None)
  const ARRIVAL := Register("a", ["*"], [], 1, None)
  const ASKED := Submission(Wanted("a", "m", "/", None), true, 0, Some(Streaming))
  const RECORD := Request(1, "a", "m", 0, "/", true, None, 0)

  function One(): State { Added(INITIAL, WORKER) }

  function Two(): State { Added(One(), WORKER) }

  function Placed(): State { Admitted(Two(), RECORD, 1, SelectionKey("a", "m"), 0) }

  function Serving(): State { Opened(Placed(), 1, Streaming) }

  lemma FirstInTurn()
    ensures Selects(Two(), ASKED.want, Some(Choice(1, 0, SelectionKey("a", "m"))))
  {
    var s, want, scope := Two(), ASKED.want, Named("a");
    assert WILDCARD in WORKER.models;
    assert Eligible(s, scope, want, 0);
    assert NextInTurn(s, scope, want, SelectionKey("a", "m"), 0);
  }

  lemma ServingStarts()
    ensures Step(Two(), Submit(ASKED), Serving())
  {
    FirstInTurn();
    assert RequestOf(Two(), ASKED) == RECORD;
    assert PlacesAs(Two(), RECORD, Some(Choice(1, 0, SelectionKey("a", "m"))), Dispatched(1, 1), Placed());
    assert Places(Two(), ASKED, Dispatched(1, 1), Placed());
    assert Submits(Two(), ASKED, Dispatched(1, 1), Serving());
  }

  /** The run with one more step. */
  function Then(e: Execution, op: Op, t: State): Execution {
    Execution(e.states + [t], e.ops + [op])
  }

  ghost predicate EndsIn(e: Execution, t: State) {
    e.Valid() && e.states[|e.ops|] == t
  }

  lemma OneStepMore(e: Execution, s: State, op: Op, t: State)
    requires EndsIn(e, s) && Step(s, op, t)
    ensures EndsIn(Then(e, op, t), t)
  {
    var x := Then(e, op, t);
    forall k | 0 <= k < |x.ops| ensures x.StepAt(k) {
      if k < |e.ops| {
        assert e.StepAt(k);
      }
    }
  }

  lemma ThreeSteps(x: Op, s: State, y: Op, t: State, z: Op, u: State)
    requires Step(INITIAL, x, s) && Step(s, y, t) && Step(t, z, u)
    ensures EndsIn(Execution([INITIAL, s, t, u], [x, y, z]), u)
  {
    var e := Execution([INITIAL, s, t, u], [x, y, z]);
    forall k | 0 <= k < 3 ensures e.StepAt(k) {
      assert k == 0 || k == 1 || k == 2;
    }
  }

  const SERVED := Execution([INITIAL, One(), Two(), Serving()], [ARRIVAL, ARRIVAL, Submit(ASKED)])

  lemma ServedIsARun()
    ensures EndsIn(SERVED, Serving())
  {
    ServingStarts();
    ThreeSteps(ARRIVAL, One(), ARRIVAL, Two(), Submit(ASKED), Serving());
  }

  // ---- a stranger's completion ----

  lemma StrangerCompletes(body: Bytes)
    ensures Completes(Serving(), 2, 1, body, false, Closed(Serving(), 1, body))
    ensures Responds(Serving(), 2, 1, body, false, Closed(Serving(), 1, body))
  {
    var s := Serving();
    var t := Closed(s, 1, body);
    assert Finishes(t, 2, 1, None, t);
    assert Completes(s, 2, 1, body, false, t);
    assert Retries(t, 2, 1, false, t);
  }

  /** From an empty core: two workers register, the first is given a client's request, and
      the second sends a completion for it. The client has its answer, from a worker that
      never ran the request, while the first runs on. */
  lemma StrangerCanAnswer(body: Bytes) returns (e: Execution)
    ensures e.Valid() && e.ops == [ARRIVAL, ARRIVAL, Submit(ASKED), CompleteResponse(2, 1, body)]
    ensures Owns(e.states[3], 1, 1) && Responds(e.states[3], 2, 1, body, false, e.states[4])
    ensures e.states[3].Replies(1) == [] && e.states[4].Replies(1) == [Complete(body)]
    ensures Owns(e.states[4], 1, 1) && 1 !in e.states[4].senders
  {
    var t := Closed(Serving(), 1, body);
    StrangerCompletes(body);
    ServedIsARun();
    OneStepMore(SERVED, Serving(), CompleteResponse(2, 1, body), t);
    e := Then(SERVED, CompleteResponse(2, 1, body), t);
  }

  // ---- a late chunk ----

  /** From an empty core: the client's request is cancelled, and a chunk that its worker
      sends afterwards still reaches the client. */
  lemma LateChunkCanArrive(reason: CancelReason, data: Bytes) returns (e: Execution)
    ensures e.Valid()
    ensures e.ops == [ARRIVAL, ARRIVAL, Submit(ASKED), CancelRequest(1, reason), StreamChunk(1, 1, data)]
    ensures Owns(e.states[4], 1, 1) && e.states[4].active[1].cancellation == Some(reason)
    ensures e.states[4].Replies(1) == [] && e.states[5].Replies(1) == [Chunk(data)]
  {
    var s := Serving();
    var t := Marked(s, 1, reason);
    var u := Chunked(t, 1, 1, data);
    assert Cancels(s, 1, reason, Some(Signalled(CancelSignal(1, 1, reason))), t);
    ServedIsARun();
    OneStepMore(SERVED, s, CancelRequest(1, reason), t);
    OneStepMore(Then(SERVED, CancelRequest(1, reason), t), t, StreamChunk(1, 1, data), u);
    e := Then(Then(SERVED, CancelRequest(1, reason), t), StreamChunk(1, 1, data), u);
  }

  // ---- a cancellation that misses ----

  const ELSEWHERE := NewWorker("b", ["*"], [], 1, None)
  const JOINING := Register("b", ["*"], [], 1, None)
  const SENT_TO_A := Submission(Wanted("a", "m", "/", None), false, 0, None)
  const FALLEN := Request(1, "a", "m", 0, "/", false, None, 0)

  function Joined(): State { Added(INITIAL, ELSEWHERE) }

  function Away(): State { Admitted(Joined(), FALLEN, 1, SelectionKey(ANY_PROVIDER, "m"), 0) }

  lemma FallsToB()
    ensures Step(Joined(), Submit(SENT_TO_A), Away())
  {
    var s, want := Joined(), SENT_TO_A.want;
    assert WILDCARD in s.workers[1].models;
    assert Eligible(s, Anyone, want, 0);
    var choice := Choice(1, 0, SelectionKey(ANY_PROVIDER, "m"));
    assert NextInTurn(s, Anyone, want, choice.key, 0);
    assert Selects(s, want, Some(choice));
    assert PlacesAs(s, FALLEN, Some(choice), Dispatched(1, 1), Away());
    assert RequestOf(s, SENT_TO_A) == FALLEN;
    assert Places(s, SENT_TO_A, Dispatched(1, 1), Away());
    assert Submits(s, SENT_TO_A, Dispatched(1, 1), Away());
  }

  lemma PutBackInB()
    ensures Disconnected(Away(), 1).Queue("b") == [Bumped(FALLEN)]
    ensures Disconnected(Away(), 1).Queue("a") == []
    ensures 1 in Disconnected(Away(), 1).active && Disconnected(Away(), 1).active[1] == Queued(Bumped(FALLEN))
  {
    var s := Away();
    assert s.workers[1].inFlight == [1];
    assert RequeuedRecords(s.active, [1]) == [Bumped(FALLEN)] by {
      assert [1][..0] == [];
    }
    Guarantees.RequeuedGoToTheFront(s, 1);
  }

  lemma MissesInB()
    ensures Cancels(Disconnected(Away(), 1), 1, ClientDisconnected, None, Disconnected(Away(), 1))
  {
    PutBackInB();
    var t := Disconnected(Away(), 1);
    assert forall i: nat :: !AtHome(t, t.active[1].request, i);
  }

  function Lost(): State { Disconnected(Away(), 1) }

  const LOST := Execution([INITIAL, Joined(), Away(), Lost()], [JOINING, Submit(SENT_TO_A), Disconnect(1)])

  lemma LostIsARun()
    ensures EndsIn(LOST, Lost())
  {
    FallsToB();
    ThreeSteps(JOINING, Joined(), Submit(SENT_TO_A), Away(), Disconnect(1), Lost());
  }

  /** From an empty core: a worker of provider b takes a request sent to provider a and is
      lost; the request waits in b's queue, and cancelling it does nothing. */
  lemma CancelCanMiss() returns (e: Execution)
    ensures e.Valid() && e.ops == [JOINING, Submit(SENT_TO_A), Disconnect(1), CancelRequest(1, ClientDisconnected)]
    ensures 1 in e.states[3].active && e.states[3].active[1].Queued? && e.states[3].Queue("b") == [Bumped(FALLEN)]
    ensures Cancels(e.states[3], 1, ClientDisconnected, None, e.states[4]) && e.states[4] == e.states[3]
  {
    LostIsARun();
    PutBackInB();
    MissesInB();
    OneStepMore(LOST, Lost(), CancelRequest(1, ClientDisconnected), Lost());
    e := Then(LOST, CancelRequest(1, ClientDisconnected), Lost());
  }
}
