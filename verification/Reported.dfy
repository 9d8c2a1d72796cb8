/** What a report or a finish does to its worker, in plain fields. */
module Reported {
  import opened Seqs
  import opened RelayState
  import opened Moves
  import opened Index
  import opened Spec
  import opened Traces
  import opened Overtaking
  import opened PlainTerms

  /** w has been given `got`, after whatever it was running, and nothing else about it changed. */
  ghost predicate Given(a: Worker, b: Worker, got: seq<RequestId>) {
    b.inFlight == a.inFlight + got && b.models == a.models && b.prefixes == a.prefixes && b.provider == a.provider
    && b.maxConcurrent == a.maxConcurrent && b.deadline == a.deadline
    && b.reportedLoad == SaturatingAdd(a.reportedLoad, |got|)
  }

  lemma PullGives(s: State, w: WorkerId, id: RequestId, t: State)
    requires PullsOne(s, w, id, t)
    ensures w in s.workers && w in t.workers && Given(s.workers[w], t.workers[w], [id])
  {}

  lemma GivenFirst(a: Worker, b: Worker, c: Worker, got: seq<RequestId>)
    requires got != [] && Given(a, b, [got[0]]) && Given(b, c, got[1..]) && a.reportedLoad <= USIZE_MAX
    ensures Given(a, c, got)
  {
    assert a.inFlight + [got[0]] + got[1..] == a.inFlight + ([got[0]] + got[1..]);
    assert [got[0]] + got[1..] == got;
  }

  lemma {:induction false} TakingGives(s: State, w: WorkerId, got: seq<RequestId>, t: State)
    requires Takes(s, w, got, t) && w in s.workers && s.workers[w].reportedLoad <= USIZE_MAX
    ensures w in t.workers && Given(s.workers[w], t.workers[w], got)
    decreases |got|
  {
    if got != [] {
      var mid := TakesFirst(s, w, got, t);
      PullGives(s, w, got[0], mid);
      TakingGives(mid, w, got[1..], t);
      GivenFirst(s.workers[w], mid.workers[w], t.workers[w], got);
    }
  }

  /** A worker without room takes nothing. */
  lemma FullTakesNothing(s: State, w: WorkerId, got: seq<RequestId>, t: State)
    requires Takes(s, w, got, t) && w in s.workers && !HasRoom(s.workers[w])
    ensures got == [] && t == s
  {
    RoomIs(s.workers[w]);
    if got != [] {
      var mid := TakesFirst(s, w, got, t);
    }
  }

  /** Nothing waits that the worker could take. */
  ghost predicate NothingLeft(s: State, w: WorkerId)
    requires w in s.workers
  {
    HasRoom(s.workers[w]) ==>
      forall p, i :: p in s.queues && 0 <= i < |s.queues[p]| ==>
        !(Advertises(s.workers[w], s.queues[p][i].model) && AnyPrefix(s.workers[w].prefixes, s.queues[p][i].path))
  }

  lemma IdleMeansNothingLeft(s: State, w: WorkerId)
    requires Idle(s, w) && w in s.workers
    ensures NothingLeft(s, w)
  {
    RoomIs(s.workers[w]);
    if HasRoom(s.workers[w]) {
      forall p, i | p in s.queues && 0 <= i < |s.queues[p]|
        ensures !(Advertises(s.workers[w], s.queues[p][i].model)
                  && AnyPrefix(s.workers[w].prefixes, s.queues[p][i].path))
      {
        ServesIs(s.workers[w], s.queues[p][i]);
      }
    }
  }

  lemma {:induction false} DrainEndsIdle(s: State, w: WorkerId, got: seq<RequestId>, t: State)
    requires Drains(s, w, got, t)
    ensures Idle(t, w)
    decreases |got|
  {
    if got != [] {
      var mid :| PullsOne(s, w, got[0], mid) && Drains(mid, w, got[1..], t);
      DrainEndsIdle(mid, w, got[1..], t);
    }
  }

  /** What a report of these models and this load makes of the worker. */
  ghost predicate Follows(a: Worker, b: Worker, models: seq<string>, load: nat, got: seq<RequestId>) {
    b.models == models && b.inFlight == a.inFlight + got && b.reportedLoad == load + |got|
    && b.prefixes == a.prefixes && b.provider == a.provider && b.maxConcurrent == a.maxConcurrent
    && b.deadline == a.deadline
  }

  lemma RetuneFollows(s: State, w: WorkerId, models: seq<string>, load: u32, got: seq<RequestId>, t: State)
    requires Inv(s) && w in s.workers && Retunes(s, w, models, load, got, t)
    ensures w in t.workers && Follows(s.workers[w], t.workers[w], models, load, got) && NothingLeft(t, w)
    ensures load >= s.workers[w].maxConcurrent ==> got == [] && t.queues == s.queues
    ensures s.workers[w].deadline.Some? ==> got == [] && t.queues == s.queues
  {
    var u := Tuned(s, w, models, load);
    RetuneTakes(s, w, models, load, got, t);
    TakingGives(u, w, got, t);
    GotAtMost(u, w, got, t);
    DrainEndsIdle(u, w, got, t);
    IdleMeansNothingLeft(t, w);
    if !HasRoom(u.workers[w]) {
      FullTakesNothing(u, w, got, t);
    }
  }

  /** No more is taken than there is room for, so no counter comes near its ceiling. */
  lemma {:induction false} GotAtMost(s: State, w: WorkerId, got: seq<RequestId>, t: State)
    requires Takes(s, w, got, t) && w in s.workers && |s.workers[w].inFlight| <= s.workers[w].maxConcurrent
    ensures |s.workers[w].inFlight| + |got| <= s.workers[w].maxConcurrent
    decreases |got|
  {
    if got != [] {
      var mid := TakesFirst(s, w, got, t);
      PullGives(s, w, got[0], mid);
      TakeNeedsRoom(s, w, got[0], mid);
      GotAtMost(mid, w, got[1..], t);
    }
  }

  lemma TakeNeedsRoom(s: State, w: WorkerId, id: RequestId, t: State)
    requires PullsOne(s, w, id, t)
    ensures |s.workers[w].inFlight| < s.workers[w].maxConcurrent
  {}

  /** After a pong the worker's load is the reported one and one more for each request the
      pong has given it; a worker that reports itself full is given nothing, and while it still
      has room nothing is left waiting that it could take. */
  lemma PongIsRecorded(s: State, w: WorkerId, load: u32, t: State) returns (got: seq<RequestId>)
    requires Inv(s) && w in s.workers && Step(s, Pong(w, load), t)
    ensures w in t.workers && t.workers[w].inFlight == s.workers[w].inFlight + got
    ensures t.workers[w].reportedLoad == load + |got| && t.workers[w].models == s.workers[w].models
    ensures load >= s.workers[w].maxConcurrent ==> got == [] && t.queues == s.queues
    ensures NothingLeft(t, w)
  {
    got :| Pongs(s, w, load, got, t);
    RetuneFollows(s, w, s.workers[w].models, load, got, t);
  }

  /** The same of an update, whose models are the worker's models from then on. */
  lemma UpdateIsRecorded(s: State, w: WorkerId, models: seq<string>, load: u32, t: State) returns (got: seq<RequestId>)
    requires Inv(s) && w in s.workers && Step(s, UpdateModels(w, models, load), t)
    ensures w in t.workers && t.workers[w].inFlight == s.workers[w].inFlight + got
    ensures t.workers[w].reportedLoad == load + |got| && t.workers[w].models == models
    ensures load >= s.workers[w].maxConcurrent ==> got == [] && t.queues == s.queues
    ensures NothingLeft(t, w)
  {
    got :| Retunes(s, w, models, load, got, t);
    RetuneFollows(s, w, models, load, got, t);
  }

  lemma WithoutAt(l: seq<RequestId>, id: RequestId) returns (i: nat)
    requires id in l
    ensures i < |l| && l[i] == id && Without(l, id) == l[..i] + l[i + 1..]
  {
    i := IndexOf(l, id);
  }

  /** A worker told to drain leaves with the last request it finishes, and no other does. */
  lemma LeavesWithItsLast(s: State, w: WorkerId, id: RequestId, t: State)
    requires Listed(s) && w in s.workers && id in s.workers[w].inFlight && Step(s, FinishRequest(w, id), t)
    ensures w in t.workers <==> !(s.workers[w].deadline.Some? && |s.workers[w].inFlight| == 1)
  {
    var got :| Finishes(s, w, id, got, t);
    var i := WithoutAt(s.workers[w].inFlight, id);
    if got.Some? {
      PullGives(Moves.Finished(s, w, id), w, got.value, t);
    }
  }

  lemma FinishLeavesNothing(s: State, w: WorkerId, id: RequestId, t: State)
    requires w in s.workers && id in s.workers[w].inFlight && Finishes(s, w, id, None, t) && w in t.workers
    ensures NothingLeft(t, w)
  {
    IdleMeansNothingLeft(t, w);
  }

  lemma FinishGives(s: State, w: WorkerId, id: RequestId, got: Option<RequestId>, t: State)
    requires w in s.workers && id in s.workers[w].inFlight && Finishes(s, w, id, got, t) && w in t.workers
    requires s.workers[w].maxConcurrent <= U32_MAX
    ensures var a, b, more := s.workers[w], t.workers[w], if got.Some? then [got.value] else [];
      b.inFlight == Without(a.inFlight, id) + more
      && b.reportedLoad == (if a.reportedLoad == 0 then 0 else a.reportedLoad - 1) + |more|
      && b.models == a.models && b.deadline == a.deadline
  {
    var u := Moves.Finished(s, w, id);
    if got.Some? {
      PullGives(u, w, got.value, t);
    }
  }

  /** Finishing takes one request out of the worker's list and one off its load, and adds the
      one it is given instead, if any; none is given only when none is left that it could take. */
  lemma FinishIsRecorded(s: State, w: WorkerId, id: RequestId, t: State) returns (got: Option<RequestId>, i: nat)
    requires Listed(s) && w in s.workers && id in s.workers[w].inFlight && Step(s, FinishRequest(w, id), t)
    requires w in t.workers
    ensures var a, b, more := s.workers[w], t.workers[w], if got.Some? then [got.value] else [];
      i < |a.inFlight| && a.inFlight[i] == id && b.inFlight == a.inFlight[..i] + a.inFlight[i + 1..] + more
      && b.reportedLoad == (if a.reportedLoad == 0 then 0 else a.reportedLoad - 1) + |more|
      && b.models == a.models && b.deadline == a.deadline
    ensures got == None ==> NothingLeft(t, w)
  {
    got :| Finishes(s, w, id, got, t);
    FinishGives(s, w, id, got, t);
    i := WithoutAt(s.workers[w].inFlight, id);
    if got == None {
      FinishLeavesNothing(s, w, id, t);
    }
  }

  // ---- who takes what waits ----

  lemma PickIsServed(s: State, w: WorkerId, p: string, i: nat, taker: Worker)
    requires w in s.workers && FirstServed(s, w, p, i) && Alike(s.workers[w], taker)
    ensures taker.Serves(s.queues[p][i])
  {}

  lemma {:induction false} TakerServes(s: State, w: WorkerId, got: seq<RequestId>, t: State, p: string, b: Request)
    requires Inv(s) && Takes(s, w, got, t) && w in s.workers && Waits(s)(p, b) && Owns(t, w, b.id)
    ensures w in t.workers && t.workers[w].Serves(b)
    decreases |got|
  {
    if got == [] {
      StillWaiting(s, w, p, b);
    } else {
      var mid := TakesFirst(s, w, got, t);
      var home, i := PullIs(s, w, got[0], mid);
      PulledIs(s, w, home, i);
      TakingOnlyTakes(mid, w, got[1..], t);
      if s.queues[home][i] == b {
        PickIsServed(s, w, home, i, t.workers[w]);
      } else {
        TakerServes(mid, w, got[1..], t, p, b);
      }
    }
  }

  /** A request that waited and now runs is run by a worker that advertises its model and has
      a prefix for its path, if it has any. */
  lemma TakenByOneThatServesIt(s: State, op: Op, t: State, p: string, b: Request, w: WorkerId)
    requires Sound(s) && Step(s, op, t) && p in s.queues && b in s.queues[p]
    requires b.id in t.active && t.active[b.id].InFlight? && t.active[b.id].worker == w
    ensures w in t.workers && Advertises(t.workers[w], b.model) && AnyPrefix(t.workers[w].prefixes, b.path)
  {
    assert Waits(s)(p, b);
    var mid, got := StepTakes(s, op, t, p, b, w);
    TakerServes(mid, w, got, t, p, b);
    ServesIs(t.workers[w], b);
  }
}
