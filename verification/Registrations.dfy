/** What a worker registers as, and how long that lasts. */
module Registrations {
  import opened Seqs
  import opened RelayState
  import opened Moves
  import opened Index
  import opened Draining
  import opened Spec
  import opened Traces
  import opened BulkTraces
  import opened Executions
  import opened PlainTerms
  import Guarantees
  import Reported

  ghost predicate SameBuild(a: Worker, b: Worker) {
    b.provider == a.provider && b.prefixes == a.prefixes && b.maxConcurrent == a.maxConcurrent
  }

  lemma TouchKeepsBuild(worker: Worker, touch: Touch)
    ensures SameBuild(worker, Touched(worker, touch))
    ensures !touch.Tuned? ==> Touched(worker, touch).models == worker.models
  {}

  lemma OnlyTuneTunes(s: State, m: Move, w: WorkerId)
    requires Enabled(s, m) && w in s.workers
    ensures TouchOf(s, m, w).Tuned? <==> m.Tune? && m.w == w
  {}

  lemma MoveKeepsBuild(s: State, m: Move, w: WorkerId)
    requires Listed(s) && Enabled(s, m) && w in s.workers && w in Apply(s, m).workers
    ensures SameBuild(s.workers[w], Apply(s, m).workers[w])
    ensures !(m.Tune? && m.w == w) ==> Apply(s, m).workers[w].models == s.workers[w].models
  {
    TouchIs(s, m, w);
    TouchKeepsBuild(s.workers[w], TouchOf(s, m, w));
    OnlyTuneTunes(s, m, w);
  }

  lemma {:induction false} RunKeepsBuild(s: State, ms: seq<Move>, t: State, w: WorkerId)
    requires Inv(s) && Runs(s, ms, t) && w in s.workers && w in t.workers
    ensures SameBuild(s.workers[w], t.workers[w])
    ensures (forall m :: m in ms ==> !(m.Tune? && m.w == w)) ==> t.workers[w].models == s.workers[w].models
    decreases |ms|
  {
    if ms != [] {
      StaysForRest(s, ms, t, w);
      MoveKeepsBuild(s, ms[0], w);
      MoveKeeps(s, ms[0]);
      assert ms[0] in ms;
      assert forall m :: m in ms[1..] ==> m in ms;
      RunKeepsBuild(Apply(s, ms[0]), ms[1..], t, w);
    }
  }

  lemma StaysForRest(s: State, ms: seq<Move>, t: State, w: WorkerId)
    requires Inv(s) && ms != [] && Runs(s, ms, t) && w in s.workers && w in t.workers
    ensures w in Apply(s, ms[0]).workers
  {
    NextWorkerGrows(s, ms[0]);
    if w !in Apply(s, ms[0]).workers {
      NobodyReturnsInRun(Apply(s, ms[0]), ms[1..], t, w);
    }
  }

  lemma TunesBelong(op: Op, ms: seq<Move>, w: WorkerId)
    requires AllBelong(op, ms) && !((op.UpdateModels? || op.Pong?) && op.w == w)
    ensures forall m :: m in ms ==> !(m.Tune? && m.w == w)
  {}

  /** No operation changes what a worker was registered as, and only its own update changes
      its models. */
  lemma StepKeepsBuild(s: State, op: Op, t: State, w: WorkerId)
    requires Sound(s) && Step(s, op, t) && w in s.workers && w in t.workers
    ensures SameBuild(s.workers[w], t.workers[w])
    ensures !(op.UpdateModels? && op.w == w) ==> t.workers[w].models == s.workers[w].models
  {
    var ms := StepRuns(s, op, t);
    RunKeepsBuild(s, ms, t, w);
    if op.Pong? && op.w == w {
      var got := Reported.PongIsRecorded(s, w, op.current, t);
    } else if !(op.UpdateModels? && op.w == w) {
      TunesBelong(op, ms, w);
    }
  }

  /** Step i registers the worker w. */
  ghost predicate Registers(e: Execution, i: nat, w: WorkerId)
    requires e.Valid()
  {
    i < |e.ops| && e.ops[i].Register? && w == e.states[i].nextWorker
  }

  /** Right after its registration a worker is what it said it is, and runs nothing. */
  lemma RegisteredAsSent(e: Execution, i: nat, w: WorkerId)
    requires e.Valid() && Registers(e, i, w)
    ensures w in e.states[i + 1].workers
    ensures var op, worker := e.ops[i], e.states[i + 1].workers[w];
      worker.provider == op.provider && worker.models == op.models && worker.prefixes == op.prefixes
      && worker.maxConcurrent == (if op.max == 0 then 1 else op.max)
      && worker.reportedLoad == (if op.load.Some? then op.load.value else 0)
      && worker.inFlight == [] && worker.deadline == None
    ensures w !in e.states[i].workers && w < e.states[i + 1].nextWorker
  {
    AlwaysSound(e, i);
    assert e.StepAt(i);
  }

  /** What step i registers lasts as long as the worker: provider, prefixes and capacity. */
  lemma {:induction false} RegistrationLasts(e: Execution, i: nat, k: nat, w: WorkerId)
    requires e.Valid() && Registers(e, i, w) && i < k < |e.states| && w in e.states[k].workers
    ensures e.states[k].workers[w].provider == e.ops[i].provider
    ensures e.states[k].workers[w].prefixes == e.ops[i].prefixes
    ensures e.states[k].workers[w].maxConcurrent == if e.ops[i].max == 0 then 1 else e.ops[i].max
    decreases k
  {
    RegisteredAsSent(e, i, w);
    if i + 1 < k {
      StillThere(e, i, k, w);
      RegistrationLasts(e, i, k - 1, w);
      StepKeepsBuildAt(e, k - 1, w);
    }
  }

  lemma StillThere(e: Execution, i: nat, k: nat, w: WorkerId)
    requires e.Valid() && Registers(e, i, w) && i + 1 < k < |e.states| && w in e.states[k].workers
    ensures w in e.states[k - 1].workers
  {
    RegisteredAsSent(e, i, w);
    Guarantees.NextWorkerGrowsOver(e, i + 1, k - 1);
    if w !in e.states[k - 1].workers {
      Guarantees.GoneForGood(e, k - 1, k, w);
    }
  }

  lemma StepKeepsBuildAt(e: Execution, k: nat, w: WorkerId)
    requires e.Valid() && k < |e.ops| && w in e.states[k].workers && w in e.states[k + 1].workers
    ensures SameBuild(e.states[k].workers[w], e.states[k + 1].workers[w])
    ensures !(e.ops[k].UpdateModels? && e.ops[k].w == w) ==>
      e.states[k + 1].workers[w].models == e.states[k].workers[w].models
  {
    AlwaysSound(e, k);
    assert e.StepAt(k);
    StepKeepsBuild(e.states[k], e.ops[k], e.states[k + 1], w);
  }

  /** And its models stay as registered until its next update. */
  lemma {:induction false} ModelsLast(e: Execution, i: nat, k: nat, w: WorkerId)
    requires e.Valid() && Registers(e, i, w) && i < k < |e.states| && w in e.states[k].workers
    requires forall j :: i < j < k ==> !(e.ops[j].UpdateModels? && e.ops[j].w == w)
    ensures e.states[k].workers[w].models == e.ops[i].models
    decreases k
  {
    RegisteredAsSent(e, i, w);
    if i + 1 < k {
      StillThere(e, i, k, w);
      ModelsLast(e, i, k - 1, w);
      StepKeepsBuildAt(e, k - 1, w);
    }
  }

  /** Whatever a worker runs has a path under one of the prefixes it registered with, if it
      registered with any. */
  lemma WithinRegisteredPrefixes(e: Execution, i: nat, k: nat, w: WorkerId, id: RequestId)
    requires e.Valid() && Registers(e, i, w) && i < k < |e.states|
    requires w in e.states[k].workers && id in e.states[k].workers[w].inFlight
    ensures id in e.states[k].active && AnyPrefix(e.ops[i].prefixes, e.states[k].active[id].request.path)
  {
    RegistrationLasts(e, i, k, w);
    AlwaysSound(e, k);
    assert Running(e.states[k])(w, id);
    Guarantees.AlwaysWithinPrefixes(e, k, w, id);
    PrefixIs(e.states[k].workers[w], e.states[k].active[id].request.path);
  }

  /** And it never runs more than the capacity it registered with. */
  lemma WithinRegisteredCapacity(e: Execution, i: nat, k: nat, w: WorkerId)
    requires e.Valid() && Registers(e, i, w) && i < k < |e.states| && w in e.states[k].workers
    ensures |e.states[k].workers[w].inFlight| <= if e.ops[i].max == 0 then 1 else e.ops[i].max
  {
    RegistrationLasts(e, i, k, w);
    AlwaysSound(e, k);
  }

  // ---- the listing ----

  ghost predicate InOrder(order: seq<WorkerId>) {
    forall i, j :: 0 <= i < j < |order| ==> order[i] < order[j]
  }

  lemma FilterKeepsOrder(order: seq<WorkerId>, f: WorkerId -> bool)
    requires InOrder(order)
    ensures InOrder(Filter(order, f))
  {
    var places := FilterInOrder(order, f);
  }

  lemma OrderLeft(s: State, m: Move)
    requires Enabled(s, m) && !m.AddWorker? && !m.Leave?
    ensures Apply(s, m).order == s.order
  {
    if m.FailRunning? || m.Drop? {
      EndingTouches(s, m);
    }
  }

  lemma MoveKeepsOrder(s: State, m: Move)
    requires Listed(s) && Enabled(s, m) && InOrder(s.order)
    ensures InOrder(Apply(s, m).order)
  {
    if m.Leave? {
      FilterKeepsOrder(s.order, Outside({m.w}));
    } else if m.AddWorker? {
      assert forall i :: 0 <= i < |s.order| ==> s.order[i] in s.workers;
    } else {
      OrderLeft(s, m);
    }
  }

  lemma {:induction false} RunKeepsOrder(s: State, ms: seq<Move>, t: State)
    requires Inv(s) && Runs(s, ms, t) && InOrder(s.order)
    ensures InOrder(t.order)
    decreases |ms|
  {
    if ms != [] {
      MoveKeepsOrder(s, ms[0]);
      MoveKeeps(s, ms[0]);
      RunKeepsOrder(Apply(s, ms[0]), ms[1..], t);
    }
  }

  lemma StepKeepsOrder(e: Execution, k: nat)
    requires e.Valid() && k < |e.ops| && InOrder(e.states[k].order)
    ensures InOrder(e.states[k + 1].order)
  {
    var ms := StepAsRun(e, k);
    RunKeepsOrder(e.states[k], ms, e.states[k + 1]);
  }

  /** The listing that ties and cursors go by is in the order of registration. */
  lemma {:induction false} ListedByRegistration(e: Execution, k: nat)
    requires e.Valid() && k < |e.states|
    ensures InOrder(e.states[k].order)
    decreases k
  {
    if k != 0 {
      ListedByRegistration(e, k - 1);
      StepKeepsOrder(e, k - 1);
    }
  }
}
