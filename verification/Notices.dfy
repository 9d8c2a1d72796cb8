/** Each worker told to drain gets one notice and one deadline. */
module Notices {
  import opened Seqs
  import opened RelayState
  import opened Moves
  import opened Index
  import opened Draining
  import opened Spec
  import opened Traces
  import opened Executions
  import Registrations

  function To(w: WorkerId): ShutdownSignal -> bool { (x: ShutdownSignal) => x.worker == w }

  /** The notices that wait for w. */
  function NoticesOf(s: State, w: WorkerId): seq<ShutdownSignal> { Filter(s.shutdownSignals, To(w)) }

  lemma DueIsNotices(s: State, w: WorkerId)
    requires w in s.workers
    ensures DueShutdowns(s, w) == NoticesOf(s, w)
  {
    FilterAgree(s.shutdownSignals, RegisteredHere(s.workers.Keys, w), To(w));
  }

  /** Only registered workers that drain have notices waiting. */
  ghost predicate NoticesDrain(s: State) {
    forall x :: x in s.shutdownSignals ==> x.worker in s.workers && s.workers[x.worker].deadline.Some?
  }

  lemma NoNotice(s: State, w: WorkerId)
    requires NoticesDrain(s) && (w in s.workers ==> s.workers[w].deadline == None)
    ensures NoticesOf(s, w) == []
  {
    FilterNone(s.shutdownSignals, To(w));
  }

  // ---- one move ----

  lemma NoticesLeft(s: State, m: Move)
    requires Enabled(s, m) && !m.StartDrain? && !m.Leave? && !m.TakeShutdowns?
    ensures Apply(s, m).shutdownSignals == s.shutdownSignals
  {
    if m.FailRunning? || m.Drop? {
      EndingTouches(s, m);
    }
  }

  lemma DeadlineStays(s: State, m: Move, w: WorkerId)
    requires Listed(s) && Enabled(s, m) && w in s.workers && s.workers[w].deadline.Some? && w in Apply(s, m).workers
    ensures Apply(s, m).workers[w].deadline == s.workers[w].deadline
  {
    TouchIs(s, m, w);
  }

  lemma StaysDraining(s: State, m: Move, w: WorkerId)
    requires Listed(s) && Enabled(s, m) && w in s.workers && s.workers[w].deadline.Some? && !(m.Leave? && m.w == w)
    ensures w in Apply(s, m).workers && Apply(s, m).workers[w].deadline.Some?
  {
    TouchIs(s, m, w);
  }

  /** What waits after a move waited before, or is the notice of a worker that starts to drain. */
  lemma NoticesGrow(s: State, m: Move, x: ShutdownSignal)
    requires Enabled(s, m) && x in Apply(s, m).shutdownSignals
    ensures (x in s.shutdownSignals && !(m.Leave? && m.w == x.worker)) || (m.StartDrain? && m.signal == x)
  {
    if m.Leave? {
      FilterMembers(s.shutdownSignals, ShutdownOutside({m.w}));
    } else if m.TakeShutdowns? {
      FilterMembers(s.shutdownSignals, RegisteredElsewhere(s.workers.Keys, m.w));
    } else if !m.StartDrain? {
      NoticesLeft(s, m);
    }
  }

  lemma MoveKeepsNoticesDrain(s: State, m: Move)
    requires Listed(s) && Enabled(s, m) && NoticesDrain(s)
    ensures NoticesDrain(Apply(s, m))
  {
    var t := Apply(s, m);
    forall x | x in t.shutdownSignals ensures x.worker in t.workers && t.workers[x.worker].deadline.Some? {
      NoticesGrow(s, m, x);
      if x in s.shutdownSignals && !(m.Leave? && m.w == x.worker) {
        StaysDraining(s, m, x.worker);
      }
    }
  }

  /** A draining worker's notices wait until they are taken or the worker leaves. */
  lemma MoveLeavesNotices(s: State, m: Move, w: WorkerId)
    requires Listed(s) && Enabled(s, m) && w in s.workers && s.workers[w].deadline.Some?
    requires m != TakeShutdowns(w) && !(m.Leave? && m.w == w)
    ensures NoticesOf(Apply(s, m), w) == NoticesOf(s, w)
  {
    if m.Leave? {
      FilterTwice(s.shutdownSignals, ShutdownOutside({m.w}), To(w), To(w));
    } else if m.TakeShutdowns? {
      FilterTwice(s.shutdownSignals, RegisteredElsewhere(s.workers.Keys, m.w), To(w), To(w));
    } else if m.StartDrain? {
      FilterAppend(s.shutdownSignals, [m.signal], To(w));
      assert [m.signal][..0] == [];
    } else {
      NoticesLeft(s, m);
    }
  }

  // ---- one operation ----

  lemma {:induction false} RunKeepsNoticesDrain(s: State, ms: seq<Move>, t: State)
    requires Inv(s) && Runs(s, ms, t) && NoticesDrain(s)
    ensures NoticesDrain(t)
    decreases |ms|
  {
    if ms != [] {
      MoveKeepsNoticesDrain(s, ms[0]);
      MoveKeeps(s, ms[0]);
      RunKeepsNoticesDrain(Apply(s, ms[0]), ms[1..], t);
    }
  }

  lemma {:induction false} RunLeavesNotices(s: State, ms: seq<Move>, t: State, w: WorkerId)
    requires Inv(s) && Runs(s, ms, t) && w in s.workers && s.workers[w].deadline.Some? && w in t.workers
    requires forall m :: m in ms ==> m != TakeShutdowns(w)
    ensures NoticesOf(t, w) == NoticesOf(s, w) && t.workers[w].deadline == s.workers[w].deadline
    decreases |ms|
  {
    if ms != [] {
      assert ms[0] in ms;
      Registrations.StaysForRest(s, ms, t, w);
      TouchIs(s, ms[0], w);
      MoveLeavesNotices(s, ms[0], w);
      DeadlineStays(s, ms[0], w);
      MoveKeeps(s, ms[0]);
      assert forall m :: m in ms[1..] ==> m in ms;
      RunLeavesNotices(Apply(s, ms[0]), ms[1..], t, w);
    }
  }

  lemma {:induction false} NoticesAmong(ws: seq<WorkerId>, notice: Option<string>, timeout: nat, w: WorkerId)
    requires NoDup(ws)
    ensures Filter(ShutdownSignals(ws, notice, timeout), To(w))
         == if w in ws then [ShutdownSignal(w, notice, timeout)] else []
    decreases |ws|
  {
    if ws != [] {
      var init, last := ws[..|ws| - 1], ws[|ws| - 1];
      NoticesAmong(init, notice, timeout, w);
      var all := ShutdownSignals(ws, notice, timeout);
      assert all[..|all| - 1] == ShutdownSignals(init, notice, timeout);
      assert all[|all| - 1] == ShutdownSignal(last, notice, timeout);
      assert ws == init + [last] && last !in init;
    }
  }

  lemma BegunNotices(s: State, notice: Option<string>, timeout: nat, now: nat, w: WorkerId)
    requires Listed(s) && w in s.workers
    ensures NoticesOf(ShutdownBegun(s, notice, timeout, now), w)
         == NoticesOf(s, w) + if s.workers[w].deadline == None then [ShutdownSignal(w, notice, timeout)] else []
  {
    FilterAppend(s.shutdownSignals, ShutdownSignals(NotDraining(s), notice, timeout), To(w));
    FilterMembers(s.order, Undrained(s));
    NoticesAmong(NotDraining(s), notice, timeout, w);
  }

  /** Beginning a shutdown gives each worker that is not draining yet its deadline and one
      notice, and leaves every other worker and its notices as they were. */
  lemma ShutdownIsAnnounced(s: State, notice: Option<string>, timeout: nat, now: nat, t: State, w: WorkerId)
    requires Listed(s) && NoticesDrain(s) && Step(s, BeginShutdown(notice, timeout, now), t) && w in s.workers
    ensures w in t.workers
    ensures s.workers[w].deadline == None ==>
      t.workers[w] == s.workers[w].(deadline := Some(now + timeout))
      && NoticesOf(t, w) == [ShutdownSignal(w, notice, timeout)]
    ensures s.workers[w].deadline.Some? ==> t.workers[w] == s.workers[w] && NoticesOf(t, w) == NoticesOf(s, w)
  {
    BegunNotices(s, notice, timeout, now, w);
    if s.workers[w].deadline == None {
      NoNotice(s, w);
    }
  }

  lemma NotTakenHere(op: Op, ms: seq<Move>, w: WorkerId)
    requires AllBelong(op, ms) && op != TakeShutdownSignals(w)
    ensures forall m :: m in ms ==> m != TakeShutdowns(w)
  {}

  // ---- whole runs ----

  lemma StepKeepsNoticesDrain(e: Execution, k: nat)
    requires e.Valid() && k < |e.ops| && NoticesDrain(e.states[k])
    ensures NoticesDrain(e.states[k + 1])
  {
    var ms := StepAsRun(e, k);
    RunKeepsNoticesDrain(e.states[k], ms, e.states[k + 1]);
  }

  lemma {:induction false} AlwaysNoticesDrain(e: Execution, k: nat)
    requires e.Valid() && k < |e.states|
    ensures NoticesDrain(e.states[k])
    decreases k
  {
    if k != 0 {
      AlwaysNoticesDrain(e, k - 1);
      StepKeepsNoticesDrain(e, k - 1);
    }
  }

  /** w drains by the deadline, and these notices wait for it. */
  ghost predicate Told(s: State, w: WorkerId, deadline: nat, notices: seq<ShutdownSignal>) {
    w in s.workers ==> s.workers[w].deadline == Some(deadline) && NoticesOf(s, w) == notices
  }

  lemma StepKeepsTold(e: Execution, k: nat, w: WorkerId, deadline: nat, notices: seq<ShutdownSignal>)
    requires e.Valid() && k < |e.ops| && w < e.states[k].nextWorker && Told(e.states[k], w, deadline, notices)
    requires e.ops[k] != TakeShutdownSignals(w)
    ensures w < e.states[k + 1].nextWorker && Told(e.states[k + 1], w, deadline, notices)
  {
    var ms := StepAsRun(e, k);
    NotTakenHere(e.ops[k], ms, w);
    NobodyBack(e.states[k], ms, e.states[k + 1], w);
    if w in e.states[k + 1].workers {
      RunLeavesNotices(e.states[k], ms, e.states[k + 1], w);
    }
  }

  lemma {:induction false} NobodyBack(s: State, ms: seq<Move>, t: State, w: WorkerId)
    requires Runs(s, ms, t) && w < s.nextWorker
    ensures w < t.nextWorker && (w in t.workers ==> w in s.workers)
    decreases |ms|
  {
    if ms != [] {
      NextWorkerGrows(s, ms[0]);
      if w !in s.workers {
        NobodyReturns(s, ms[0], w);
      }
      NobodyBack(Apply(s, ms[0]), ms[1..], t, w);
    }
  }

  lemma {:induction false} ToldUntilTaken(e: Execution, i: nat, k: nat, w: WorkerId, deadline: nat,
                                          notices: seq<ShutdownSignal>)
    requires e.Valid() && i <= k < |e.states| && w < e.states[i].nextWorker && Told(e.states[i], w, deadline, notices)
    requires forall j :: i <= j < k ==> e.ops[j] != TakeShutdownSignals(w)
    ensures Told(e.states[k], w, deadline, notices)
    decreases k - i
  {
    if i < k {
      StepKeepsTold(e, i, w, deadline, notices);
      ToldUntilTaken(e, i + 1, k, w, deadline, notices);
    }
  }

  /** Step i begins a shutdown that w was not already part of. */
  ghost predicate TellsAt(e: Execution, i: nat, w: WorkerId)
    requires e.Valid()
  {
    i < |e.ops| && e.ops[i].BeginShutdown? && w in e.states[i].workers && e.states[i].workers[w].deadline == None
  }

  lemma ListedAt(e: Execution, k: nat)
    requires e.Valid() && k < |e.states|
    ensures Listed(e.states[k])
  {
    AlwaysSound(e, k);
  }

  lemma Announced(e: Execution, i: nat, w: WorkerId)
    requires e.Valid() && TellsAt(e, i, w) && Listed(e.states[i]) && NoticesDrain(e.states[i])
    ensures Told(e.states[i + 1], w, e.ops[i].now + e.ops[i].timeout,
                 [ShutdownSignal(w, e.ops[i].notice, e.ops[i].timeout)])
  {
    assert e.StepAt(i);
    ShutdownIsAnnounced(e.states[i], e.ops[i].notice, e.ops[i].timeout, e.ops[i].now, e.states[i + 1], w);
  }

  lemma ToldHere(e: Execution, i: nat, w: WorkerId)
    requires e.Valid() && TellsAt(e, i, w)
    ensures w < e.states[i + 1].nextWorker
    ensures Told(e.states[i + 1], w, e.ops[i].now + e.ops[i].timeout,
                 [ShutdownSignal(w, e.ops[i].notice, e.ops[i].timeout)])
  {
    ListedAt(e, i);
    ListedAt(e, i + 1);
    AlwaysNoticesDrain(e, i);
    Announced(e, i, w);
    assert e.StepAt(i);
  }

  /** The notice reaches its worker: the first collection of a worker told to shut down, as
      long as it is registered, hands over exactly that one notice. */
  lemma NoticeReachesItsWorker(e: Execution, i: nat, k: nat, w: WorkerId)
    requires e.Valid() && TellsAt(e, i, w) && i < k < |e.ops| && w in e.states[k].workers
    requires e.ops[k] == TakeShutdownSignals(w) && forall j :: i < j < k ==> e.ops[j] != TakeShutdownSignals(w)
    ensures DueShutdowns(e.states[k], w) == [ShutdownSignal(w, e.ops[i].notice, e.ops[i].timeout)]
  {
    ToldHere(e, i, w);
    ToldUntilTaken(e, i + 1, k, w, e.ops[i].now + e.ops[i].timeout,
                   [ShutdownSignal(w, e.ops[i].notice, e.ops[i].timeout)]);
    DueIsNotices(e.states[k], w);
  }

  lemma TakenIsGone(e: Execution, k: nat, w: WorkerId, deadline: nat)
    requires e.Valid() && k < |e.ops| && e.ops[k] == TakeShutdownSignals(w)
    requires w < e.states[k].nextWorker
    requires w in e.states[k].workers ==> e.states[k].workers[w].deadline == Some(deadline)
    ensures w < e.states[k + 1].nextWorker && Told(e.states[k + 1], w, deadline, [])
  {
    assert e.StepAt(k);
    var t := e.states[k + 1];
    FilterMembers(e.states[k].shutdownSignals, RegisteredElsewhere(e.states[k].workers.Keys, w));
    FilterNone(t.shutdownSignals, To(w));
  }

  lemma {:induction false} NothingFurther(e: Execution, i: nat, k: nat, w: WorkerId, deadline: nat)
    requires e.Valid() && i <= k < |e.states| && w < e.states[i].nextWorker && Told(e.states[i], w, deadline, [])
    ensures Told(e.states[k], w, deadline, [])
    decreases k - i
  {
    if i < k {
      if e.ops[i] == TakeShutdownSignals(w) {
        TakenIsGone(e, i, w, deadline);
      } else {
        StepKeepsTold(e, i, w, deadline, []);
      }
      NothingFurther(e, i + 1, k, w, deadline);
    }
  }

  /** And no later collection hands over another, whatever shutdowns are begun. */
  lemma NoticeComesOnce(e: Execution, j: nat, k: nat, w: WorkerId)
    requires e.Valid() && j < k < |e.ops| && e.ops[j] == TakeShutdownSignals(w)
    requires w in e.states[j].workers && e.states[j].workers[w].deadline.Some?
    requires w in e.states[k].workers
    ensures DueShutdowns(e.states[k], w) == []
  {
    ListedAt(e, j);
    var deadline := e.states[j].workers[w].deadline.value;
    TakenIsGone(e, j, w, deadline);
    NothingFurther(e, j + 1, k, w, deadline);
    DueIsNotices(e.states[k], w);
  }

  // ---- the deadline ----

  /** An expiry removes exactly the draining workers whose deadline has come, and changes
      nothing about the others. */
  lemma ExpiryRemovesTheOverdue(s: State, now: nat, t: State, w: WorkerId)
    requires Step(s, ExpireShutdown(now), t) && w in s.workers
    ensures w in t.workers <==> (s.workers[w].deadline.Some? ==> now < s.workers[w].deadline.value)
    ensures w in t.workers ==> t.workers[w] == s.workers[w]
  {}

  /** A worker told at some time to shut down within a timeout is removed by an expiry
      exactly when that much time has passed. */
  lemma DeadlineIsKept(e: Execution, i: nat, k: nat, w: WorkerId)
    requires e.Valid() && TellsAt(e, i, w) && i < k < |e.ops| && e.ops[k].ExpireShutdown? && w in e.states[k].workers
    ensures w !in e.states[k + 1].workers <==> e.ops[i].now + e.ops[i].timeout <= e.ops[k].now
  {
    ToldHere(e, i, w);
    DeadlineFrom(e, i + 1, k, w, e.ops[i].now + e.ops[i].timeout);
    assert e.StepAt(k);
    ExpiryRemovesTheOverdue(e.states[k], e.ops[k].now, e.states[k + 1], w);
  }

  lemma DrainingStays(e: Execution, k: nat, w: WorkerId, deadline: nat)
    requires e.Valid() && k < |e.ops| && w < e.states[k].nextWorker
    requires w in e.states[k].workers ==> e.states[k].workers[w].deadline == Some(deadline)
    ensures w < e.states[k + 1].nextWorker
    ensures w in e.states[k + 1].workers ==> e.states[k + 1].workers[w].deadline == Some(deadline)
  {
    if e.ops[k] == TakeShutdownSignals(w) {
      TakenIsGone(e, k, w, deadline);
    } else {
      StepKeepsTold(e, k, w, deadline, NoticesOf(e.states[k], w));
    }
  }

  lemma {:induction false} DeadlineFrom(e: Execution, i: nat, k: nat, w: WorkerId, deadline: nat)
    requires e.Valid() && i <= k < |e.states| && w < e.states[i].nextWorker
    requires w in e.states[i].workers ==> e.states[i].workers[w].deadline == Some(deadline)
    ensures w in e.states[k].workers ==> e.states[k].workers[w].deadline == Some(deadline)
    decreases k - i
  {
    if i < k {
      DrainingStays(e, i, w, deadline);
      DeadlineFrom(e, i + 1, k, w, deadline);
    }
  }
}
