/** What travels between a worker's socket and its daemon, counted by request. */
module Traffic {
  import opened RelayState
  import opened WorkerSocket
  import opened Assignments

  datatype Down = Ack | Work(message: Message) | Cancel(id: RequestId, reason: CancelReason) | Shutdown | Ping | Refresh

  datatype Event = Outbound(frame: Frame) | Finished(id: RequestId) | Failed(id: RequestId)

  // ---- counting ----

  function Works(down: seq<Down>): multiset<RequestId> {
    if down == [] then multiset{}
    else
      Works(down[..|down| - 1]) + WorkOf(down[|down| - 1])
  }

  function WorkOf(d: Down): multiset<RequestId> {
    if d.Work? then multiset{d.message.id} else multiset{}
  }

  function Completions(frames: seq<Frame>): multiset<RequestId> {
    if frames == [] then multiset{}
    else
      Completions(frames[..|frames| - 1]) + CompletionOf(frames[|frames| - 1])
  }

  function CompletionOf(f: Frame): multiset<RequestId> {
    if f.ResponseComplete? then multiset{f.id} else multiset{}
  }

  /** The frames among the daemon's events, in order. */
  function Sent(events: seq<Event>): seq<Frame> {
    if events == [] then []
    else
      var last := events[|events| - 1];
      Sent(events[..|events| - 1]) + if last.Outbound? then [last.frame] else []
  }

  lemma PlusAssociates<T>(a: multiset<T>, b: multiset<T>, c: multiset<T>)
    ensures a + b + c == a + (b + c)
  {}

  lemma InitAndLast<T>(a: seq<T>, b: seq<T>)
    requires b != []
    ensures (a + b)[..|a + b| - 1] == a + b[..|b| - 1] && (a + b)[|a + b| - 1] == b[|b| - 1]
  {}

  lemma {:induction false} WorksJoin(a: seq<Down>, b: seq<Down>)
    ensures Works(a + b) == Works(a) + Works(b)
  {
    if b == [] {
      assert a + b == a;
    } else {
      var init, last := b[..|b| - 1], b[|b| - 1];
      WorksJoin(a, init);
      InitAndLast(a, b);
      PlusAssociates(Works(a), Works(init), WorkOf(last));
    }
  }

  lemma {:induction false} CompletionsJoin(a: seq<Frame>, b: seq<Frame>)
    ensures Completions(a + b) == Completions(a) + Completions(b)
  {
    if b == [] {
      assert a + b == a;
    } else {
      var init, last := b[..|b| - 1], b[|b| - 1];
      CompletionsJoin(a, init);
      InitAndLast(a, b);
      PlusAssociates(Completions(a), Completions(init), CompletionOf(last));
    }
  }

  lemma {:induction false} SentJoin(a: seq<Event>, b: seq<Event>)
    ensures Sent(a + b) == Sent(a) + Sent(b)
  {
    if b == [] {
      assert a + b == a;
    } else {
      SentJoin(a, b[..|b| - 1]);
      assert (a + b)[..|a + b| - 1] == a + b[..|b| - 1];
    }
  }

  lemma WorksOne(d: Down)
    ensures Works([d]) == WorkOf(d)
  {
    assert [d][..0] == [];
  }

  lemma CompletionsOne(f: Frame)
    ensures Completions([f]) == CompletionOf(f)
  {
    assert [f][..0] == [];
  }

  lemma SentOne(e: Event)
    ensures Sent([e]) == if e.Outbound? then [e.frame] else []
  {
    assert [e][..0] == [];
  }

  lemma WorksPush(down: seq<Down>, d: Down)
    ensures Works(down + [d]) == Works(down) + WorkOf(d)
  {
    WorksJoin(down, [d]);
    WorksOne(d);
  }

  lemma WorksPop(down: seq<Down>)
    requires down != []
    ensures Works(down) == WorkOf(down[0]) + Works(down[1..])
  {
    WorksJoin([down[0]], down[1..]);
    WorksOne(down[0]);
    assert [down[0]] + down[1..] == down;
  }

  lemma CompletionsPop(frames: seq<Frame>)
    requires frames != []
    ensures Completions(frames) == CompletionOf(frames[0]) + Completions(frames[1..])
  {
    CompletionsJoin([frames[0]], frames[1..]);
    CompletionsOne(frames[0]);
    assert [frames[0]] + frames[1..] == frames;
  }

  lemma CompletionsPush(frames: seq<Frame>, f: Frame)
    ensures Completions(frames + [f]) == Completions(frames) + CompletionOf(f)
  {
    CompletionsJoin(frames, [f]);
    CompletionsOne(f);
  }

  lemma SentPush(events: seq<Event>, e: Event)
    ensures Sent(events + [e]) == Sent(events) + if e.Outbound? then [e.frame] else []
  {
    SentJoin(events, [e]);
    SentOne(e);
  }

  lemma SentPop(events: seq<Event>)
    requires events != []
    ensures Sent(events) == (if events[0].Outbound? then [events[0].frame] else []) + Sent(events[1..])
  {
    SentJoin([events[0]], events[1..]);
    SentOne(events[0]);
    assert [events[0]] + events[1..] == events;
  }

  /** The requests of an outbox, as they are sent. */
  function Requests(ms: seq<Message>): seq<Down> {
    if ms == [] then [] else Requests(ms[..|ms| - 1]) + [Work(ms[|ms| - 1])]
  }

  lemma {:induction false} RequestsAreWork(ms: seq<Message>)
    ensures Works(Requests(ms)) == multiset(MessageIds(ms))
  {
    if ms != [] {
      RequestsAreWork(ms[..|ms| - 1]);
      WorksPush(Requests(ms[..|ms| - 1]), Work(ms[|ms| - 1]));
    }
  }

  function Cancels(signals: seq<CancelSignal>): seq<Down> {
    if signals == [] then []
    else Cancels(signals[..|signals| - 1]) + [Cancel(signals[|signals| - 1].id, signals[|signals| - 1].reason)]
  }

  lemma {:induction false} CancelsAreNoWork(signals: seq<CancelSignal>)
    ensures Works(Cancels(signals)) == multiset{}
  {
    if signals != [] {
      CancelsAreNoWork(signals[..|signals| - 1]);
      WorksPush(Cancels(signals[..|signals| - 1]), Cancel(signals[|signals| - 1].id, signals[|signals| - 1].reason));
    }
  }

  function Shutdowns(n: nat): seq<Down> {
    if n == 0 then [] else Shutdowns(n - 1) + [Shutdown]
  }

  lemma {:induction false} ShutdownsAreNoWork(n: nat)
    ensures Works(Shutdowns(n)) == multiset{}
  {
    if n != 0 {
      ShutdownsAreNoWork(n - 1);
      WorksPush(Shutdowns(n - 1), Shutdown);
    }
  }

  // ---- chunks before their completion ----

  ghost predicate CompletedLater(frames: seq<Frame>, i: int)
    requires 0 <= i < |frames| && frames[i].ResponseChunk?
  {
    exists j :: i < j < |frames| && frames[j].ResponseComplete? && frames[j].id == frames[i].id
  }

  /** Every chunk on its way is of a request in `others`, or its completion follows it. */
  ghost predicate Supported(frames: seq<Frame>, others: multiset<RequestId>) {
    forall i :: 0 <= i < |frames| && frames[i].ResponseChunk? ==> frames[i].id in others || CompletedLater(frames, i)
  }

  lemma SupportPush(frames: seq<Frame>, others: multiset<RequestId>, f: Frame)
    requires Supported(frames, others) && (f.ResponseChunk? ==> f.id in others)
    ensures Supported(frames + [f], others)
  {
    var more := frames + [f];
    forall i | 0 <= i < |more| && more[i].ResponseChunk? ensures more[i].id in others || CompletedLater(more, i) {
      if i < |frames| && frames[i].id !in others {
        var j :| i < j < |frames| && frames[j].ResponseComplete? && frames[j].id == frames[i].id;
        assert more[j] == frames[j];
      }
    }
  }

  lemma SupportComplete(frames: seq<Frame>, others: multiset<RequestId>, f: Frame, left: multiset<RequestId>)
    requires Supported(frames, others) && f.ResponseComplete?
    requires forall id :: id in others && id != f.id ==> id in left
    ensures Supported(frames + [f], left)
  {
    var more := frames + [f];
    forall i | 0 <= i < |more| && more[i].ResponseChunk? ensures more[i].id in left || CompletedLater(more, i) {
      assert i < |frames| && more[i] == frames[i];
      if frames[i].id in others {
        if frames[i].id == f.id {
          assert more[|frames|].id == more[i].id;
        }
      } else {
        var j :| i < j < |frames| && frames[j].ResponseComplete? && frames[j].id == frames[i].id;
        assert more[j] == frames[j];
      }
    }
  }

  lemma SupportPop(frames: seq<Frame>, others: multiset<RequestId>)
    requires Supported(frames, others) && frames != []
    ensures Supported(frames[1..], others)
  {
    var rest := frames[1..];
    forall i | 0 <= i < |rest| && rest[i].ResponseChunk? ensures rest[i].id in others || CompletedLater(rest, i) {
      if rest[i].id !in others {
        assert CompletedLater(frames, i + 1);
        var j :| i + 1 < j < |frames| && frames[j].ResponseComplete? && frames[j].id == frames[i + 1].id;
        assert rest[j - 1] == frames[j];
      }
    }
  }

  lemma SupportMore(frames: seq<Frame>, others: multiset<RequestId>, more: multiset<RequestId>)
    requires Supported(frames, others) && forall id :: id in others ==> id in more
    ensures Supported(frames, more)
  {}

  lemma {:induction false} CompletionAt(frames: seq<Frame>, j: nat)
    requires j < |frames| && frames[j].ResponseComplete?
    ensures frames[j].id in Completions(frames)
  {
    if j < |frames| - 1 {
      CompletionAt(frames[..|frames| - 1], j);
    }
  }

  /** The frames b are lost; the requests they would have completed count among the others. */
  lemma SupportCut(a: seq<Frame>, b: seq<Frame>, others: multiset<RequestId>, more: multiset<RequestId>)
    requires Supported(a + b, others)
    requires forall id :: id in others || id in Completions(b) ==> id in more
    ensures Supported(a, more)
  {
    var all := a + b;
    forall i | 0 <= i < |a| && a[i].ResponseChunk? ensures a[i].id in more || CompletedLater(a, i) {
      assert all[i] == a[i];
      if all[i].id !in others {
        var j :| i < j < |all| && all[j].ResponseComplete? && all[j].id == all[i].id;
        if j < |a| {
          assert a[j] == all[j];
        } else {
          CompletionAt(b, j - |a|);
        }
      }
    }
  }

  lemma SupportedHead(frames: seq<Frame>, others: multiset<RequestId>)
    requires Supported(frames, others) && frames != [] && frames[0].ResponseChunk?
    ensures frames[0].id in others + Completions(frames)
  {
    if frames[0].id !in others {
      var j :| 0 < j < |frames| && frames[j].ResponseComplete? && frames[j].id == frames[0].id;
      CompletionAt(frames, j);
    }
  }
}
