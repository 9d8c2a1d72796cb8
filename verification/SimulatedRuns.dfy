/** Whole runs of the core are runs of the dispatch harness. */
module SimulatedRuns {
  import opened RelayState
  import opened Index
  import opened Spec
  import opened Executions
  import opened Answers
  import opened Simulation
  import H = DispatchHarness

  ghost predicate HarnessStepAt(hs: seq<H.Harness>, ops: seq<Op>, answers: seq<H.Answer>, k: int)
    requires 0 <= k < |ops| && k + 1 < |hs| && k < |answers|
  {
    H.Step(hs[k], ops[k], answers[k], hs[k + 1])
  }

  /** Step k of the run tells its caller the k-th answer, and is of the shared kind. */
  ghost predicate SharedAt(e: Execution, answers: seq<H.Answer>, p: string, k: int)
    requires |e.states| == |e.ops| + 1 && 0 <= k < |e.ops| && k < |answers|
  {
    StepAs(e.states[k], e.ops[k], answers[k], e.states[k + 1]) && Shared(e.states[k], e.ops[k], p)
  }

  lemma NextIsSound(e: Execution, k: nat)
    requires e.Valid() && k < |e.ops|
    ensures Inv(e.states[k + 1])
  {
    AlwaysSound(e, k + 1);
  }

  lemma InitiallyMatched(p: string)
    ensures Matched(RelayState.INITIAL, H.INITIAL, p)
  {
    InitialInv();
  }

  lemma ExecutionStep(e: Execution, answers: seq<H.Answer>, k: nat, h: H.Harness, p: string) returns (next: H.Harness)
    requires e.Valid() && k < |e.ops| && k < |answers| && SharedAt(e, answers, p, k) && Matched(e.states[k], h, p)
    ensures H.Step(h, e.ops[k], answers[k], next) && Matched(e.states[k + 1], next, p)
  {
    NextIsSound(e, k);
    next := StepMatches(e.states[k], h, p, e.ops[k], answers[k], e.states[k + 1]);
  }

  lemma HarnessGrows(hs: seq<H.Harness>, ops: seq<Op>, answers: seq<H.Answer>, next: H.Harness)
    requires 0 < |hs| <= |ops| && |hs| <= |answers|
    requires H.Step(hs[|hs| - 1], ops[|hs| - 1], answers[|hs| - 1], next)
    requires forall i :: 0 <= i < |hs| - 1 ==> HarnessStepAt(hs, ops, answers, i)
    ensures forall i :: 0 <= i < |hs| ==> HarnessStepAt(hs + [next], ops, answers, i)
  {
    forall i | 0 <= i < |hs| ensures HarnessStepAt(hs + [next], ops, answers, i) {
      if i < |hs| - 1 {
        assert HarnessStepAt(hs, ops, answers, i);
      }
    }
  }

  ghost predicate MatchedAt(e: Execution, hs: seq<H.Harness>, p: string, k: int)
    requires 0 <= k < |e.states| && k < |hs|
  {
    Matched(e.states[k], hs[k], p)
  }

  lemma MatchedGrows(e: Execution, p: string, hs: seq<H.Harness>, next: H.Harness)
    requires 0 < |hs| < |e.states| && Matched(e.states[|hs|], next, p)
    requires forall i :: 0 <= i < |hs| ==> MatchedAt(e, hs, p, i)
    ensures forall i :: 0 <= i <= |hs| ==> MatchedAt(e, hs + [next], p, i)
  {
    forall i | 0 <= i <= |hs| ensures MatchedAt(e, hs + [next], p, i) {
      if i < |hs| {
        assert MatchedAt(e, hs, p, i);
      }
    }
  }

  /** The harness's run so far: one state for each of the first core states, step by step. */
  ghost predicate RunsAlong(e: Execution, answers: seq<H.Answer>, p: string, hs: seq<H.Harness>)
    requires |e.states| == |e.ops| + 1
  {
    0 < |hs| <= |e.states| && |hs| <= |answers| + 1
    && (forall i :: 0 <= i < |hs| ==> MatchedAt(e, hs, p, i))
    && forall i :: 0 <= i < |hs| - 1 ==> HarnessStepAt(hs, e.ops, answers, i)
  }

  lemma RunGrows(e: Execution, answers: seq<H.Answer>, p: string, hs: seq<H.Harness>, next: H.Harness)
    requires |e.states| == |e.ops| + 1 && RunsAlong(e, answers, p, hs) && |hs| <= |e.ops| && |hs| <= |answers|
    requires H.Step(hs[|hs| - 1], e.ops[|hs| - 1], answers[|hs| - 1], next) && Matched(e.states[|hs|], next, p)
    ensures RunsAlong(e, answers, p, hs + [next])
  {
    HarnessGrows(hs, e.ops, answers, next);
    MatchedGrows(e, p, hs, next);
  }

  lemma NextStep(e: Execution, answers: seq<H.Answer>, p: string, hs: seq<H.Harness>) returns (next: H.Harness)
    requires e.Valid() && RunsAlong(e, answers, p, hs) && |hs| <= |e.ops| && |hs| <= |answers|
    requires SharedAt(e, answers, p, |hs| - 1)
    ensures H.Step(hs[|hs| - 1], e.ops[|hs| - 1], answers[|hs| - 1], next) && Matched(e.states[|hs|], next, p)
  {
    assert MatchedAt(e, hs, p, |hs| - 1);
    next := ExecutionStep(e, answers, |hs| - 1, hs[|hs| - 1], p);
  }

  lemma ExtendRun(e: Execution, answers: seq<H.Answer>, p: string, hs: seq<H.Harness>) returns (more: seq<H.Harness>)
    requires e.Valid() && RunsAlong(e, answers, p, hs) && |hs| <= |e.ops| && |hs| <= |answers|
    requires SharedAt(e, answers, p, |hs| - 1)
    ensures |more| == |hs| + 1 && more[0] == hs[0] && RunsAlong(e, answers, p, more)
  {
    var next := NextStep(e, answers, p, hs);
    RunGrows(e, answers, p, hs, next);
    more := hs + [next];
  }

  /** Every run has answers to go with it. */
  lemma RunAnswers(e: Execution) returns (answers: seq<H.Answer>)
    requires e.Valid()
    ensures |answers| == |e.ops|
    ensures forall k :: 0 <= k < |e.ops| ==> StepAs(e.states[k], e.ops[k], answers[k], e.states[k + 1])
  {
    answers := [];
    for k := 0 to |e.ops|
      invariant |answers| == k
      invariant forall i :: 0 <= i < k ==> StepAs(e.states[i], e.ops[i], answers[i], e.states[i + 1])
    {
      assert e.StepAt(k);
      var a := StepAnswers(e.states[k], e.ops[k], e.states[k + 1]);
      answers := answers + [a];
    }
  }

  /** Forward simulation: any run of shared operations from an empty core, with the answers
      it gives, is a run of the harness with the same answers through corresponding states:
      the same assignments, queues, cursors, workers and cancel signals after every step. */
  lemma {:induction false} CoreSimulatesHarness(e: Execution, answers: seq<H.Answer>, p: string, n: nat)
    returns (hs: seq<H.Harness>)
    requires e.Valid() && n <= |e.ops| && n <= |answers|
    requires forall k :: 0 <= k < n ==> SharedAt(e, answers, p, k)
    ensures |hs| == n + 1 && hs[0] == H.INITIAL && RunsAlong(e, answers, p, hs)
  {
    if n == 0 {
      InitiallyMatched(p);
      hs := [H.INITIAL];
    } else {
      var before := CoreSimulatesHarness(e, answers, p, n - 1);
      hs := ExtendRun(e, answers, p, before);
    }
  }
}
