/** What a worker may be given, and how it leaves: its running requests stay within its
    endpoint prefixes, a draining worker's list only shrinks, and a worker that leaves by
    draining, timing out or losing its provider has exactly one close reason. */
module Draining {
  import opened Seqs
  import opened RelayState
  import opened Moves
  import opened Index
  import opened Progress

  // ---- what a move does to one worker ----

  datatype Touch = Untouched | Tuned(models: seq<string>, load: nat) | Given(id: RequestId)
                 | Took(id: RequestId, load: nat)
                 | Deadline(deadline: nat)

  function Touched(worker: Worker, touch: Touch): Worker {
    match touch
    case Untouched => worker
    case Tuned(models, load) => worker.(models := models, reportedLoad := load)
    case Given(id) => worker.Took(id)
    case Took(id, load) => worker.(inFlight := Without(worker.inFlight, id), reportedLoad := load)
    case Deadline(deadline) => worker.(deadline := Some(deadline))
  }

  function TouchOf(s: State, m: Move, w: WorkerId): Touch
    requires Enabled(s, m) && w in s.workers
  {
    match m
    case Tune(v, models, load) => if v == w then Touch.Tuned(models, load) else Untouched
    case Admit(r, v, _, _) => if v == w then Given(r.id) else Untouched
    case Pull(v, p, i) => if v == w then Given(s.queues[p][i].id) else Untouched
    case Finish(v, id) => if v == w then Took(id, SaturatingSub(s.workers[w].reportedLoad, 1)) else Untouched
    case FailRunning(v, id, _) => if v == w then Took(id, s.workers[w].reportedLoad) else Untouched
    case Requeue(v, id) => if v == w then Took(id, s.workers[w].reportedLoad) else Untouched
    case StartDrain(signal, deadline) => if signal.worker == w then Deadline(deadline) else Untouched
    case _ => Untouched
  }

  lemma GivesIs(s: State, m: Move, w: WorkerId)
    requires Enabled(s, m) && w in s.workers && (m.Admit? || m.Pull?)
    ensures w in Apply(s, m).workers && Apply(s, m).workers[w] == Touched(s.workers[w], TouchOf(s, m, w))
  {}

  lemma TakesIs(s: State, m: Move, w: WorkerId)
    requires Enabled(s, m) && w in s.workers && (m.Finish? || m.FailRunning? || m.Requeue?)
    ensures w in Apply(s, m).workers && Apply(s, m).workers[w] == Touched(s.workers[w], TouchOf(s, m, w))
  {}

  lemma TunesIs(s: State, m: Move, w: WorkerId)
    requires Enabled(s, m) && w in s.workers && (m.Tune? || m.StartDrain? || m.Leave?)
    ensures w in Apply(s, m).workers <==> !(m.Leave? && m.w == w)
    ensures w in Apply(s, m).workers ==> Apply(s, m).workers[w] == Touched(s.workers[w], TouchOf(s, m, w))
  {}

  lemma DropLeavesWorkers(s: State, m: Move)
    requires Enabled(s, m) && m.Drop?
    ensures Apply(s, m).workers == s.workers
  {
    EndingTouches(s, m);
  }

  lemma RestLeavesWorkers(s: State, m: Move)
    requires Enabled(s, m) && !m.AddWorker? && !m.Drop?
    requires !(m.Admit? || m.Pull? || m.Finish? || m.FailRunning? || m.Requeue?)
    requires !(m.Tune? || m.StartDrain? || m.Leave?)
    ensures Apply(s, m).workers == s.workers
  {}

  lemma OthersAre(s: State, m: Move, w: WorkerId)
    requires Enabled(s, m) && w in s.workers && w < s.nextWorker
    requires !(m.Admit? || m.Pull? || m.Finish? || m.FailRunning? || m.Requeue?)
    requires !(m.Tune? || m.StartDrain? || m.Leave?)
    ensures w in Apply(s, m).workers && Apply(s, m).workers[w] == s.workers[w] && TouchOf(s, m, w) == Untouched
  {
    if m.Drop? {
      DropLeavesWorkers(s, m);
    } else if !m.AddWorker? {
      RestLeavesWorkers(s, m);
    }
  }

  /** A move changes a worker only as its touch says, and only Leave removes it. */
  lemma TouchIs(s: State, m: Move, w: WorkerId)
    requires Enabled(s, m) && w in s.workers && Listed(s)
    ensures w in Apply(s, m).workers <==> !(m.Leave? && m.w == w)
    ensures w in Apply(s, m).workers ==> Apply(s, m).workers[w] == Touched(s.workers[w], TouchOf(s, m, w))
  {
    if m.Admit? || m.Pull? {
      GivesIs(s, m, w);
    } else if m.Finish? || m.FailRunning? || m.Requeue? {
      TakesIs(s, m, w);
    } else if m.Tune? || m.StartDrain? || m.Leave? {
      TunesIs(s, m, w);
    } else {
      OthersAre(s, m, w);
    }
  }

  /** Only a registration brings in a worker, and it brings in a new one. */
  lemma NobodyReturns(s: State, m: Move, w: WorkerId)
    requires Enabled(s, m) && w !in s.workers && w < s.nextWorker
    ensures w !in Apply(s, m).workers && s.nextWorker <= Apply(s, m).nextWorker
  {
    NextWorkerGrows(s, m);
    if m.FailRunning? || m.Drop? {
      EndingTouches(s, m);
    }
  }

  lemma NextWorkerGrows(s: State, m: Move)
    requires Enabled(s, m)
    ensures s.nextWorker <= Apply(s, m).nextWorker
  {
    if m.FailRunning? || m.Drop? {
      EndingTouches(s, m);
    }
  }

  lemma {:induction false} NobodyReturnsInRun(s: State, ms: seq<Move>, s': State, w: WorkerId)
    requires Runs(s, ms, s') && w !in s.workers && w < s.nextWorker
    ensures w !in s'.workers
    decreases |ms|
  {
    if ms != [] {
      NobodyReturns(s, ms[0], w);
      NobodyReturnsInRun(Apply(s, ms[0]), ms[1..], s', w);
    }
  }

  // ---- endpoints ----

  ghost predicate EndpointOk(s: State, w: WorkerId, id: RequestId) {
    Running(s)(w, id) && id in s.active ==> s.workers[w].SupportsEndpoint(s.active[id].request.path)
  }

  lemma TouchKeepsEndpoint(worker: Worker, touch: Touch, path: string)
    ensures Touched(worker, touch).SupportsEndpoint(path) == worker.SupportsEndpoint(path)
  {}

  lemma TouchLists(worker: Worker, touch: Touch, id: RequestId)
    requires NoDup(worker.inFlight)
    ensures id in Touched(worker, touch).inFlight ==> id in worker.inFlight || touch == Given(id)
  {
    if touch.Took? {
      WithoutMembers(worker.inFlight, touch.id);
    }
  }

  lemma GivenServes(s: State, m: Move, w: WorkerId, id: RequestId)
    requires Inv(s) && Enabled(s, m) && w in s.workers && TouchOf(s, m, w) == Given(id)
    ensures id in Apply(s, m).active && s.workers[w].SupportsEndpoint(Apply(s, m).active[id].request.path)
  {
    ChangeIs(s, m);
    GivenStarts(s, m, w, id);
  }

  lemma GivenStarts(s: State, m: Move, w: WorkerId, id: RequestId)
    requires Enabled(s, m) && w in s.workers && TouchOf(s, m, w) == Given(id)
    ensures ChangeOf(s, m).Starts? && ChangeOf(s, m).r.id == id
    ensures s.workers[w].SupportsEndpoint(ChangeOf(s, m).r.path)
  {}

  /** An active request that a move leaves active keeps its path. */
  lemma PathStays(s: State, m: Move, id: RequestId)
    requires Inv(s) && Enabled(s, m) && id in s.active && id in Apply(s, m).active
    ensures Apply(s, m).active[id].request.path == s.active[id].request.path
  {
    ChangeIs(s, m);
    ChangeIsLawful(s, m);
    ChangeLasts(s.active, s.nextRequest, ChangeOf(s, m), Apply(s, m).nextRequest);
  }

  lemma MoveKeepsEndpoint(s: State, m: Move, w: WorkerId, id: RequestId)
    requires Inv(s) && Enabled(s, m) && EndpointOk(s, w, id)
    ensures EndpointOk(Apply(s, m), w, id)
  {
    var t := Apply(s, m);
    if Running(t)(w, id) && id in t.active {
      if w !in s.workers {
        NewcomerIsIdle(s, m, w);
      } else {
        TouchIs(s, m, w);
        var touch := TouchOf(s, m, w);
        TouchLists(s.workers[w], touch, id);
        TouchKeepsEndpoint(s.workers[w], touch, t.active[id].request.path);
        if touch == Given(id) {
          GivenServes(s, m, w, id);
        } else {
          assert Running(s)(w, id);
          PathStays(s, m, id);
        }
      }
    }
  }

  lemma NewcomerIsIdle(s: State, m: Move, w: WorkerId)
    requires Enabled(s, m) && w !in s.workers && w in Apply(s, m).workers
    ensures Apply(s, m).workers[w].inFlight == []
  {
    if m.FailRunning? || m.Drop? {
      EndingTouches(s, m);
    }
  }

  lemma {:induction false} RunKeepsEndpoints(s: State, ms: seq<Move>, s': State, w: WorkerId, id: RequestId)
    requires Inv(s) && Runs(s, ms, s') && EndpointOk(s, w, id)
    ensures EndpointOk(s', w, id)
    decreases |ms|
  {
    if ms != [] {
      MoveKeepsEndpoint(s, ms[0], w, id);
      MoveKeeps(s, ms[0]);
      RunKeepsEndpoints(Apply(s, ms[0]), ms[1..], s', w, id);
    }
  }

  // ---- draining ----

  /** A draining worker keeps its deadline and takes on nothing. */
  ghost predicate OnlyShrinks(a: Worker, b: Worker) {
    b.deadline == a.deadline && |b.inFlight| <= |a.inFlight| && forall id :: id in b.inFlight ==> id in a.inFlight
  }

  lemma DrainingTouch(s: State, m: Move, w: WorkerId)
    requires Inv(s) && Enabled(s, m) && w in s.workers && s.workers[w].Draining()
    ensures OnlyShrinks(s.workers[w], Touched(s.workers[w], TouchOf(s, m, w)))
  {
    var touch := TouchOf(s, m, w);
    if touch.Took? {
      WithoutMembers(s.workers[w].inFlight, touch.id);
    }
  }

  lemma {:induction false} RunOnlyShrinks(s: State, ms: seq<Move>, s': State, w: WorkerId)
    requires Inv(s) && Runs(s, ms, s') && w in s.workers && s.workers[w].Draining()
    ensures w in s'.workers ==> OnlyShrinks(s.workers[w], s'.workers[w])
    decreases |ms|
  {
    if ms != [] {
      var t := Apply(s, ms[0]);
      TouchIs(s, ms[0], w);
      DrainingTouch(s, ms[0], w);
      MoveKeeps(s, ms[0]);
      NextWorkerGrows(s, ms[0]);
      if w in t.workers {
        RunOnlyShrinks(t, ms[1..], s', w);
      } else {
        NobodyReturnsInRun(t, ms[1..], s', w);
      }
    }
  }

  // ---- close reasons ----

  lemma ReasonsLeft(s: State, m: Move)
    requires Enabled(s, m) && !m.Leave? && !m.TakeClose?
    ensures Apply(s, m).closeReasons == s.closeReasons
  {
    if m.FailRunning? || m.Drop? {
      EndingTouches(s, m);
    }
  }

  lemma LeaveReasons(s: State, v: WorkerId, close: Option<CloseReason>, w: WorkerId)
    requires Listed(s) && v in s.workers
    ensures var t := RemoveWorker(s, v, close);
      (v != w ==> (w in t.closeReasons <==> w in s.closeReasons))
      && (w in s.closeReasons ==> w in t.closeReasons && t.closeReasons[w] == s.closeReasons[w])
      && (v == w ==> (w in t.closeReasons <==> close.Some?) && w !in t.workers)
      && (v == w && close.Some? ==> t.closeReasons[w] == close.value)
  {}

  lemma ReasonAfter(s: State, m: Move, w: WorkerId)
    requires Listed(s) && Enabled(s, m) && m != TakeClose(w)
    ensures w in s.closeReasons ==> w in Apply(s, m).closeReasons && Apply(s, m).closeReasons[w] == s.closeReasons[w]
    ensures w !in s.closeReasons && w in Apply(s, m).closeReasons ==>
      m.Leave? && m.w == w && m.close == Some(Apply(s, m).closeReasons[w])
    ensures m.Leave? && m.w == w && m.close.Some? ==> w in Apply(s, m).closeReasons
  {
    if m.Leave? {
      LeaveReasons(s, m.w, m.close, w);
    } else if !m.TakeClose? {
      ReasonsLeft(s, m);
    }
  }

  /** A worker gone after a run has the reason that the run's departures give. */
  lemma {:induction false} GoneWithReason(s: State, ms: seq<Move>, s': State, w: WorkerId, close: Option<CloseReason>)
    requires Inv(s) && Runs(s, ms, s') && w < s.nextWorker && w !in s'.workers
    requires forall m :: m in ms ==> !m.TakeClose? && (m.Leave? ==> m.close == close)
    requires w in s.workers
      || (if close.Some? then w in s.closeReasons && s.closeReasons[w] == close.value else w !in s.closeReasons)
    ensures if close.Some? then w in s'.closeReasons && s'.closeReasons[w] == close.value else w !in s'.closeReasons
    decreases |ms|
  {
    if ms != [] {
      var t := Apply(s, ms[0]);
      assert ms[0] in ms;
      ReasonAfter(s, ms[0], w);
      NextWorkerGrows(s, ms[0]);
      if w in s.workers {
        TouchIs(s, ms[0], w);
      }
      MoveKeeps(s, ms[0]);
      GoneWithReason(t, ms[1..], s', w, close);
    }
  }
}
