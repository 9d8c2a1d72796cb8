/** What workers are sent: each message says what its request's submission said. */
module Contents {
  import opened Seqs
  import opened RelayState
  import opened Moves
  import opened Index
  import opened Progress
  import opened Selection
  import opened Spec
  import opened Traces
  import opened BulkTraces
  import opened Executions
  import opened Submissions

  /** Whatever carries the submission's id carries its model, path and streaming flag. */
  predicate MessageSays(m: Message, id: RequestId, x: Submission) {
    m.id == id ==> m.model == x.want.model && m.path == x.want.path && m.streaming == x.streaming
  }

  predicate RecordSays(r: Request, id: RequestId, x: Submission) {
    r.id == id ==> r.model == x.want.model && r.path == x.want.path && r.streaming == x.streaming
  }

  ghost predicate EntrySays(active: map<RequestId, Active>, id: RequestId, x: Submission) {
    id in active ==> active[id].request.id == id && RecordSays(active[id].request, id, x)
  }

  ghost predicate BoxSays(box: seq<Message>, id: RequestId, x: Submission) {
    forall m :: m in box ==> MessageSays(m, id, x)
  }

  /** The index and w's outbox say of the request what its submission said. */
  ghost predicate Says(s: State, w: WorkerId, id: RequestId, x: Submission) {
    id < s.nextRequest && EntrySays(s.active, id, x) && BoxSays(s.Outbox(w), id, x)
  }

  /** Every message in w's outbox has an id that has been issued. */
  ghost predicate BoxIssued(s: State, w: WorkerId) {
    forall m :: m in s.Outbox(w) ==> m.id < s.nextRequest
  }

  // ---- one move ----

  lemma AssignBox(s: State, v: WorkerId, r: Request, w: WorkerId)
    requires v in s.workers
    ensures Assign(s, v, r).Outbox(w)
         == s.Outbox(w) + if v == w then [Message(r.id, r.model, r.path, r.streaming)] else []
  {
    assert s.Outbox(w) + [] == s.Outbox(w);
  }

  /** What a move adds to w's outbox, if it adds anything. */
  function Adds(s: State, m: Move, w: WorkerId): Option<Request>
    requires Enabled(s, m)
  {
    match m
    case Admit(r, v, _, _) => if v == w then Some(r) else None
    case Pull(v, p, i) => if v == w then Some(s.queues[p][i]) else None
    case _ => None
  }

  lemma GivingBox(s: State, m: Move, w: WorkerId)
    requires Enabled(s, m) && (m.Admit? || m.Pull?)
    ensures var r := Adds(s, m, w);
      Apply(s, m).Outbox(w) ==
        s.Outbox(w) + if r.Some? then [Message(r.value.id, r.value.model, r.value.path, r.value.streaming)] else []
  {
    match m
    case Admit(r, v, key, position) => AdmissionBox(s, r, Choice(v, position, key), w);
    case Pull(v, p, i) => AssignBox(Unqueued(s, p, i), v, s.queues[p][i], w);
  }

  /** Nothing else is ever added to an outbox. */
  lemma OtherBox(s: State, m: Move, w: WorkerId)
    requires Enabled(s, m) && !m.Admit? && !m.Pull?
    ensures forall x :: x in Apply(s, m).Outbox(w) ==> x in s.Outbox(w)
  {
    if m.FailRunning? || m.Drop? {
      EndingTouches(s, m);
    }
  }

  /** A move makes a request no other than it was, and issues no id twice. */
  lemma MoveKeepsEntry(s: State, m: Move, id: RequestId, x: Submission)
    requires Inv(s) && Enabled(s, m) && id < s.nextRequest && EntrySays(s.active, id, x)
    ensures id < Apply(s, m).nextRequest && EntrySays(Apply(s, m).active, id, x)
  {
    ChangeIs(s, m);
    ChangeIsLawful(s, m);
    ChangeKeepsEntry(s.active, s.nextRequest, ChangeOf(s, m), id, x);
  }

  lemma ChangeKeepsEntry(a: map<RequestId, Active>, n: nat, c: Change, id: RequestId, x: Submission)
    requires Lawful(a, n, c) && id < n && EntrySays(a, id, x)
    ensures EntrySays(Changed(a, c), id, x)
  {}

  /** What is given was in the index, or has a fresh id. */
  lemma GivenSays(s: State, m: Move, w: WorkerId, id: RequestId, x: Submission)
    requires Inv(s) && Enabled(s, m) && (m.Admit? || m.Pull?) && id < s.nextRequest && EntrySays(s.active, id, x)
    ensures Adds(s, m, w).Some? ==> RecordSays(Adds(s, m, w).value, id, x) && Adds(s, m, w).value.id <= s.nextRequest
    ensures m.Pull? && Adds(s, m, w).Some? ==> Adds(s, m, w).value.id < s.nextRequest
  {
    if m.Pull? {
      assert Waits(s)(m.provider, s.queues[m.provider][m.index]);
    }
  }

  lemma MoveKeepsSaying(s: State, m: Move, w: WorkerId, id: RequestId, x: Submission)
    requires Inv(s) && Enabled(s, m) && Says(s, w, id, x)
    ensures Says(Apply(s, m), w, id, x)
  {
    MoveKeepsEntry(s, m, id, x);
    if m.Admit? || m.Pull? {
      GivingKeepsBox(s, m, w, id, x);
    } else {
      OtherBox(s, m, w);
    }
  }

  lemma GivingKeepsBox(s: State, m: Move, w: WorkerId, id: RequestId, x: Submission)
    requires Inv(s) && Enabled(s, m) && (m.Admit? || m.Pull?) && Says(s, w, id, x)
    ensures BoxSays(Apply(s, m).Outbox(w), id, x)
  {
    GivingBox(s, m, w);
    GivenSays(s, m, w, id, x);
  }

  lemma GivenIssued(s: State, m: Move, w: WorkerId)
    requires Inv(s) && Enabled(s, m) && (m.Admit? || m.Pull?) && Adds(s, m, w).Some?
    ensures Adds(s, m, w).value.id < Apply(s, m).nextRequest
  {
    NextRequestIs(s, m);
    if m.Pull? {
      assert Waits(s)(m.provider, s.queues[m.provider][m.index]);
    }
  }

  lemma MoveKeepsIssued(s: State, m: Move, w: WorkerId)
    requires Inv(s) && Enabled(s, m) && BoxIssued(s, w)
    ensures BoxIssued(Apply(s, m), w)
  {
    NextRequestIs(s, m);
    if m.Admit? || m.Pull? {
      GivingBox(s, m, w);
      if Adds(s, m, w).Some? {
        GivenIssued(s, m, w);
      }
    } else {
      OtherBox(s, m, w);
    }
  }

  // ---- one operation ----

  lemma {:induction false} RunKeepsSaying(s: State, ms: seq<Move>, t: State, w: WorkerId, id: RequestId, x: Submission)
    requires Inv(s) && Runs(s, ms, t) && Says(s, w, id, x)
    ensures Says(t, w, id, x)
    decreases |ms|
  {
    if ms != [] {
      MoveKeepsSaying(s, ms[0], w, id, x);
      MoveKeeps(s, ms[0]);
      RunKeepsSaying(Apply(s, ms[0]), ms[1..], t, w, id, x);
    }
  }

  lemma {:induction false} RunKeepsIssued(s: State, ms: seq<Move>, t: State, w: WorkerId)
    requires Inv(s) && Runs(s, ms, t) && BoxIssued(s, w)
    ensures BoxIssued(t, w)
    decreases |ms|
  {
    if ms != [] {
      MoveKeepsIssued(s, ms[0], w);
      MoveKeeps(s, ms[0]);
      RunKeepsIssued(Apply(s, ms[0]), ms[1..], t, w);
    }
  }

  lemma StepKeepsSaying(s: State, op: Op, t: State, w: WorkerId, id: RequestId, x: Submission)
    requires Sound(s) && Step(s, op, t) && Says(s, w, id, x)
    ensures Says(t, w, id, x)
  {
    var ms := StepRuns(s, op, t);
    RunKeepsSaying(s, ms, t, w, id, x);
  }

  lemma StepKeepsIssued(s: State, op: Op, t: State, w: WorkerId)
    requires Sound(s) && Step(s, op, t) && BoxIssued(s, w)
    ensures BoxIssued(t, w)
  {
    var ms := StepRuns(s, op, t);
    RunKeepsIssued(s, ms, t, w);
  }

  /** Right after a submission, nothing says anything else of it. */
  lemma SubmissionSays(s: State, x: Submission, t: State, w: WorkerId)
    requires Sound(s) && Step(s, Submit(x), t) && BoxIssued(s, w)
    ensures Says(t, w, s.nextRequest, x)
  {
    var out :| Submits(s, x, out, t);
    SubmissionBecomes(s, x, out, t);
    StepIssues(s, x, out, t);
    var c := SubmissionParts(s, x, out, t);
    SubmissionBox(s, x, out, t, w);
  }

  lemma StepIssues(s: State, x: Submission, out: Outcome, t: State)
    requires Inv(s) && Submits(s, x, out, t)
    ensures t.nextRequest == s.nextRequest + 1 && (out.Rejected? ==> s.nextRequest !in t.active)
  {
    var mid := SubmitParts(s, x, out, t);
    var m := PlaceMoves(s, x, out, mid);
    if out.Rejected? {
      SubmissionBecomes(s, x, out, t);
    }
  }

  /** A submission adds to an outbox its own message or nothing. */
  lemma SubmissionBox(s: State, x: Submission, out: Outcome, t: State, w: WorkerId)
    requires Inv(s) && Submits(s, x, out, t)
    ensures forall m :: m in t.Outbox(w) ==>
      m in s.Outbox(w) || m == Message(s.nextRequest, x.want.model, x.want.path, x.streaming)
  {
    var mid := SubmitParts(s, x, out, t);
    var c :| Selects(s, x.want, c) && PlacesAs(s, RequestOf(s, x), c, out, mid);
    PlacementBox(s, x, c, out, mid, w);
    SameBox(mid, t, w);
  }

  lemma SameBox(s: State, t: State, w: WorkerId)
    requires t.outbox == s.outbox
    ensures t.Outbox(w) == s.Outbox(w)
  {}

  lemma PlacementBox(s: State, x: Submission, c: Option<Choice>, out: Outcome, t: State, w: WorkerId)
    requires PlacesAs(s, RequestOf(s, x), c, out, t)
    ensures forall m :: m in t.Outbox(w) ==>
      m in s.Outbox(w) || m == Message(s.nextRequest, x.want.model, x.want.path, x.streaming)
  {
    if c.Some? {
      AdmissionBox(s, RequestOf(s, x), c.value, w);
    }
  }

  lemma AdmissionBox(s: State, r: Request, c: Choice, w: WorkerId)
    requires c.worker in s.workers
    ensures Admitted(s, r, c.worker, c.key, c.position).Outbox(w)
         == s.Outbox(w) + if c.worker == w then [Message(r.id, r.model, r.path, r.streaming)] else []
  {
    AssignBox(s.(nextRequest := s.nextRequest + 1, cursors := s.cursors[c.key := c.position]), c.worker, r, w);
  }

  // ---- whole runs ----

  lemma StepIssuesStill(e: Execution, k: nat, w: WorkerId)
    requires e.Valid() && k < |e.ops| && BoxIssued(e.states[k], w)
    ensures BoxIssued(e.states[k + 1], w)
  {
    AlwaysSound(e, k);
    assert e.StepAt(k);
    StepKeepsIssued(e.states[k], e.ops[k], e.states[k + 1], w);
  }

  lemma {:induction false} AlwaysIssued(e: Execution, k: nat, w: WorkerId)
    requires e.Valid() && k < |e.states|
    ensures BoxIssued(e.states[k], w)
    decreases k
  {
    if k != 0 {
      AlwaysIssued(e, k - 1, w);
      StepIssuesStill(e, k - 1, w);
    }
  }

  lemma StartsSaying(e: Execution, i: nat, w: WorkerId)
    requires e.Valid() && i < |e.ops| && e.ops[i].Submit?
    ensures Says(e.states[i + 1], w, e.states[i].nextRequest, e.ops[i].x)
  {
    AlwaysSound(e, i);
    AlwaysIssued(e, i, w);
    assert e.StepAt(i);
    SubmissionSays(e.states[i], e.ops[i].x, e.states[i + 1], w);
  }

  lemma GoesOnSaying(e: Execution, k: nat, w: WorkerId, id: RequestId, x: Submission)
    requires e.Valid() && k < |e.ops| && Says(e.states[k], w, id, x)
    ensures Says(e.states[k + 1], w, id, x)
  {
    AlwaysSound(e, k);
    assert e.StepAt(k);
    StepKeepsSaying(e.states[k], e.ops[k], e.states[k + 1], w, id, x);
  }

  lemma {:induction false} AlwaysSays(e: Execution, i: nat, k: nat, w: WorkerId)
    requires e.Valid() && i < k < |e.states| && e.ops[i].Submit?
    ensures Says(e.states[k], w, e.states[i].nextRequest, e.ops[i].x)
    decreases k
  {
    if k == i + 1 {
      StartsSaying(e, i, w);
    } else {
      AlwaysSays(e, i, k - 1, w);
      GoesOnSaying(e, k - 1, w, e.states[i].nextRequest, e.ops[i].x);
    }
  }

  /** Whatever a collection of requests hands to a worker's socket says what was submitted:
      the model, the path and whether to stream, of the very submission that was issued the
      message's id. */
  lemma WorkersAreSentWhatWasSubmitted(e: Execution, i: nat, k: nat, w: WorkerId, m: Message)
    requires e.Valid() && i < k < |e.ops| && e.ops[i].Submit? && e.ops[k] == TakeRequests(w)
    requires m in e.states[k].Outbox(w) && m.id == e.states[i].nextRequest
    ensures m.model == e.ops[i].x.want.model && m.path == e.ops[i].x.want.path && m.streaming == e.ops[i].x.streaming
  {
    AlwaysSays(e, i, k, w);
  }

  lemma SubmissionRecorded(e: Execution, i: nat)
    requires e.Valid() && i < |e.ops| && e.ops[i].Submit? && e.states[i].nextRequest in e.states[i + 1].active
    ensures Records(e.states[i + 1].active[e.states[i].nextRequest].request, e.states[i].nextRequest, e.ops[i].x)
    ensures e.states[i].nextRequest < e.states[i + 1].nextRequest
  {
    AlwaysSound(e, i);
    assert e.StepAt(i);
    var out :| Submits(e.states[i], e.ops[i].x, out, e.states[i + 1]);
    SubmissionBecomes(e.states[i], e.ops[i].x, out, e.states[i + 1]);
    StepIssues(e.states[i], e.ops[i].x, out, e.states[i + 1]);
  }

  /** And what is kept of a request, for as long as it lasts, is what was submitted, but for
      how often it has been put back. */
  lemma RequestsAreWhatWasSubmitted(e: Execution, i: nat, k: nat)
    requires e.Valid() && i < k < |e.states| && e.ops[i].Submit? && e.states[i].nextRequest in e.states[k].active
    ensures Records(e.states[k].active[e.states[i].nextRequest].request.(requeues := 0), e.states[i].nextRequest,
                    e.ops[i].x)
  {
    AlwaysLasts(e, i + 1, k);
    StartsSaying(e, i, 0);
    SubmissionRecorded(e, i);
  }
}
