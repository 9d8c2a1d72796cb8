/** Queue policies over whole runs, configured or not. */
module Settings {
  import opened Seqs
  import opened RelayState
  import opened Moves
  import opened Spec
  import opened Traces
  import opened Executions
  import opened PlainTerms
  import opened Submissions

  lemma MoveKeepsPolicies(s: State, m: Move)
    requires Enabled(s, m) && !m.SetPolicy?
    ensures Apply(s, m).policies == s.policies
  {
    if m.FailRunning? || m.Drop? {
      EndingTouches(s, m);
    }
  }

  lemma {:induction false} RunKeepsPolicies(s: State, ms: seq<Move>, t: State)
    requires Runs(s, ms, t) && forall m :: m in ms ==> !m.SetPolicy?
    ensures t.policies == s.policies
    decreases |ms|
  {
    if ms != [] {
      assert ms[0] in ms;
      MoveKeepsPolicies(s, ms[0]);
      assert forall m :: m in ms[1..] ==> m in ms;
      RunKeepsPolicies(Apply(s, ms[0]), ms[1..], t);
    }
  }

  lemma SetsNoPolicy(op: Op, ms: seq<Move>)
    requires AllBelong(op, ms) && !op.Configure?
    ensures forall m :: m in ms ==> !m.SetPolicy?
  {}

  lemma StepPolicies(e: Execution, k: nat)
    requires e.Valid() && k < |e.ops|
    ensures e.states[k + 1].policies ==
      if e.ops[k].Configure? then e.states[k].policies[e.ops[k].provider := e.ops[k].policy] else e.states[k].policies
  {
    if e.ops[k].Configure? {
      assert e.StepAt(k);
    } else {
      var ms := StepAsRun(e, k);
      SetsNoPolicy(e.ops[k], ms);
      RunKeepsPolicies(e.states[k], ms, e.states[k + 1]);
    }
  }

  ghost predicate Configures(e: Execution, j: nat, p: string)
    requires e.Valid()
  {
    j < |e.ops| && e.ops[j].Configure? && e.ops[j].provider == p
  }

  /** A provider that has not been configured so far. */
  ghost predicate Unconfigured(e: Execution, k: nat, p: string)
    requires e.Valid()
  {
    forall j: nat :: j < k ==> !Configures(e, j, p)
  }

  /** The last configuration of a provider so far is the one at j. */
  ghost predicate LastConfigured(e: Execution, j: nat, k: nat, p: string)
    requires e.Valid()
  {
    j < k && Configures(e, j, p) && forall i: nat :: j < i < k ==> !Configures(e, i, p)
  }

  lemma {:induction false} UnconfiguredHasNone(e: Execution, k: nat, p: string)
    requires e.Valid() && k < |e.states| && Unconfigured(e, k, p)
    ensures p !in e.states[k].policies
    decreases k
  {
    if k != 0 {
      UnconfiguredHasNone(e, k - 1, p);
      StepPolicies(e, k - 1);
      assert !Configures(e, k - 1, p);
    }
  }

  lemma {:induction false} LastConfigurationHolds(e: Execution, j: nat, k: nat, p: string)
    requires e.Valid() && k < |e.states| && LastConfigured(e, j, k, p)
    ensures p in e.states[k].policies && e.states[k].policies[p] == e.ops[j].policy
    decreases k
  {
    StepPolicies(e, k - 1);
    if j + 1 < k {
      LastConfigurationHolds(e, j, k - 1, p);
      assert !Configures(e, k - 1, p);
    }
  }

  // ---- refusing ----

  /** A submission nobody can take is refused exactly when its provider's queue holds as many
      as was configured last. */
  lemma RefusedExactlyWhenFull(e: Execution, j: nat, k: nat, x: Submission, out: Outcome, t: State)
    requires e.Valid() && k < |e.states| && Submits(e.states[k], x, out, t)
    requires LastConfigured(e, j, k, x.want.provider)
    ensures out.Rejected? <==> !Servable(e.states[k], x.want)
                               && |WaitingAt(e.states[k], x.want.provider)| >= e.ops[j].policy.maxQueueLen
  {
    LastConfigurationHolds(e, j, k, x.want.provider);
    AlwaysSound(e, k);
    SubmissionBecomes(e.states[k], x, out, t);
  }

  /** Without a configuration, nothing short of what a counter can hold is ever refused. */
  lemma UnconfiguredNeverRefuses(e: Execution, k: nat, x: Submission, out: Outcome, t: State)
    requires e.Valid() && k < |e.states| && Submits(e.states[k], x, out, t)
    requires Unconfigured(e, k, x.want.provider)
    ensures out.Rejected? ==> |WaitingAt(e.states[k], x.want.provider)| >= COUNTER_MAX
  {
    UnconfiguredHasNone(e, k, x.want.provider);
    AlwaysSound(e, k);
    SubmissionBecomes(e.states[k], x, out, t);
  }

  // ---- timing out ----

  lemma DueIsExpired(policy: Policy, r: Request, now: nat)
    ensures Expired(policy, r, now) <==> Due(policy, r.queuedAt, now)
  {}

  lemma SweptQueue(s: State, now: nat, t: State, p: string)
    requires Step(s, ExpireQueues(now), t) && p in s.queues
    ensures p in t.queues
    ensures forall r :: r in t.queues[p] <==> r in s.queues[p] && !Expired(s.PolicyOf(p), r, now)
    ensures (forall r :: r in s.queues[p] ==> !Expired(s.PolicyOf(p), r, now)) ==> t.queues[p] == s.queues[p]
  {
    FilterMembers(s.queues[p], Unexpired(PolicyIn(s.policies, p), now));
    if forall r :: r in s.queues[p] ==> !Expired(s.PolicyOf(p), r, now) {
      FilterAll(s.queues[p], Unexpired(PolicyIn(s.policies, p), now));
    }
  }

  /** A sweep takes from a queue exactly what is due by the provider's last configuration. */
  lemma SweptExactlyWhenDue(e: Execution, j: nat, k: nat, p: string, r: Request)
    requires e.Valid() && k < |e.ops| && e.ops[k].ExpireQueues? && LastConfigured(e, j, k, p)
    requires r in WaitingAt(e.states[k], p)
    ensures r in WaitingAt(e.states[k + 1], p) <==> !Due(e.ops[j].policy, r.queuedAt, e.ops[k].now)
  {
    LastConfigurationHolds(e, j, k, p);
    assert e.StepAt(k);
    SweptQueue(e.states[k], e.ops[k].now, e.states[k + 1], p);
    DueIsExpired(e.ops[j].policy, r, e.ops[k].now);
  }

  /** Without a configuration, nothing ever times out. */
  lemma UnconfiguredNeverTimesOut(e: Execution, k: nat, p: string)
    requires e.Valid() && k < |e.ops| && e.ops[k].ExpireQueues? && Unconfigured(e, k, p)
    ensures WaitingAt(e.states[k + 1], p) == WaitingAt(e.states[k], p)
  {
    UnconfiguredHasNone(e, k, p);
    assert e.StepAt(k);
    if p in e.states[k].queues {
      SweptQueue(e.states[k], e.ops[k].now, e.states[k + 1], p);
    }
  }
}
