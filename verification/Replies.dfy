/** HTTP replies: every reply channel receives chunks and then at most one ending,
    and a channel still open belongs to a request still active. Only the owner of a request
    adds chunks to its reply. */
module Replies {
  import opened Seqs
  import opened RelayState
  import opened Moves
  import opened Index
  import opened Progress

  /** Chunks, then at most one Complete or Failure, then nothing. */
  ghost predicate EndsOnce(log: seq<ReplyEvent>) {
    forall i :: 0 <= i < |log| - 1 ==> log[i].Chunk?
  }

  /** A channel whose sender is still held has not ended; a unary one is empty. */
  ghost predicate StillOpen(log: seq<ReplyEvent>, sender: Sender) {
    (forall i :: 0 <= i < |log| ==> log[i].Chunk?) && (sender == Unary ==> log == [])
  }

  ghost predicate LogsAgree(senders: map<RequestId, Sender>, replies: map<RequestId, seq<ReplyEvent>>, next: nat) {
    (forall id :: id in senders ==> id in replies && StillOpen(replies[id], senders[id]))
    && (forall id :: id in replies ==> id < next && EndsOnce(replies[id]))
  }

  ghost predicate Channels(s: State) {
    LogsAgree(s.senders, s.replies, s.nextRequest)
  }

  /** A reply's log only grows, and a log whose sender is gone never changes again. */
  ghost predicate LogsGrow(s: State, t: State) {
    forall id :: id in s.replies ==>
      id in t.replies && s.replies[id] <= t.replies[id]
      && (id !in s.senders ==> t.replies[id] == s.replies[id] && id !in t.senders)
  }

  /** No sender outlives its request. */
  ghost predicate SendersActive(s: State) {
    forall id :: id in s.senders ==> id in s.active
  }

  /** What the HTTP and socket handlers never do: finish a request whose sender is still
      held. `complete_http_response` takes the sender first. */
  predicate Handled(s: State, m: Move) {
    m.Finish? ==> m.id !in s.senders
  }

  lemma SendKeeps(s: State, id: RequestId, event: ReplyEvent)
    requires Channels(s) && id in s.senders
    ensures event.Chunk? && s.senders[id].Streaming? ==> Channels(Send(s, id, event))
    ensures Channels(Send(s, id, event).(senders := s.senders - {id}))
    ensures LogsGrow(s, Send(s, id, event))
    ensures LogsGrow(s, Send(s, id, event).(senders := s.senders - {id}))
  {}

  lemma FailReplyKeeps(s: State, id: RequestId, why: FailureReason)
    requires Channels(s)
    ensures Channels(FailReply(s, id, why)) && LogsGrow(s, FailReply(s, id, why))
    ensures FailReply(s, id, why).senders == s.senders - {id}
  {
    if id in s.senders {
      SendKeeps(s, id, Failure(why));
    }
  }

  /** The moves that touch no reply channel. */
  predicate Silent(m: Move) {
    !(m.FailRunning? || m.Drop? || m.OpenReply? || m.SendChunk? || m.CloseReply?)
  }

  lemma SilentLeaves(s: State, m: Move)
    requires Enabled(s, m) && Silent(m)
    ensures Apply(s, m).senders == s.senders && Apply(s, m).replies == s.replies
    ensures s.nextRequest <= Apply(s, m).nextRequest
  {}

  /** Only the three fields matter. */
  lemma SameChannels(s: State, t: State)
    requires Channels(s) && t.senders == s.senders && t.replies == s.replies && s.nextRequest <= t.nextRequest
    ensures Channels(t) && LogsGrow(s, t)
  {}

  lemma DropKeepsChannels(s: State, p: string, i: nat, failure: Option<FailureReason>)
    requires Channels(s) && p in s.queues && i < |s.queues[p]|
    ensures Channels(Dropped(s, p, i, failure)) && LogsGrow(s, Dropped(s, p, i, failure))
  {
    var id := s.queues[p][i].id;
    var s' := Unqueued(s, p, i).(active := s.active - {id});
    SameChannels(s, s');
    if failure.Some? {
      FailReplyKeeps(s', id, failure.value);
    }
  }

  lemma FailKeepsChannels(s: State, w: WorkerId, id: RequestId, why: FailureReason)
    requires Channels(s) && w in s.workers
    ensures Channels(FailReply(Detach(s, w, id), id, why))
    ensures LogsGrow(s, FailReply(Detach(s, w, id), id, why))
  {
    SameChannels(s, Detach(s, w, id));
    FailReplyKeeps(Detach(s, w, id), id, why);
  }

  lemma OpenKeepsChannels(s: State, id: RequestId, sender: Sender)
    requires Channels(s) && id < s.nextRequest && id !in s.replies
    ensures Channels(Opened(s, id, sender)) && LogsGrow(s, Opened(s, id, sender))
  {}

  lemma MoveKeepsChannels(s: State, m: Move)
    requires Channels(s) && Enabled(s, m)
    ensures Channels(Apply(s, m)) && LogsGrow(s, Apply(s, m))
  {
    if Silent(m) {
      SilentLeaves(s, m);
      SameChannels(s, Apply(s, m));
    } else {
      match m
      case FailRunning(w, id, why) => FailKeepsChannels(s, w, id, why);
      case Drop(p, i, failure) => DropKeepsChannels(s, p, i, failure);
      case OpenReply(id, sender) => OpenKeepsChannels(s, id, sender);
      case SendChunk(w, id, data) => SendKeeps(s, id, Chunk(data));
      case CloseReply(id, body) => SendKeeps(s, id, Complete(body));
    }
  }

  lemma {:induction false} RunKeepsChannels(s: State, ms: seq<Move>, s': State)
    requires Channels(s) && Runs(s, ms, s')
    ensures Channels(s') && LogsGrow(s, s')
    decreases |ms|
  {
    if ms != [] {
      var t := Apply(s, ms[0]);
      MoveKeepsChannels(s, ms[0]);
      RunKeepsChannels(t, ms[1..], s');
    }
  }

  // ---- no sender outlives its request ----

  lemma SilentKeepsSenders(s: State, m: Move)
    requires Inv(s) && SendersActive(s) && Enabled(s, m) && Silent(m) && Handled(s, m)
    ensures SendersActive(Apply(s, m))
  {
    SilentLeaves(s, m);
    ChangeIs(s, m);
  }

  /** The senders left after a move that touches a channel. */
  function SendersAfter(s: State, m: Move): set<RequestId>
    requires Enabled(s, m)
  {
    match m
    case FailRunning(_, id, _) => s.senders.Keys - {id}
    case Drop(p, i, _) => s.senders.Keys - {s.queues[p][i].id}
    case OpenReply(id, _) => s.senders.Keys + {id}
    case CloseReply(id, _) => s.senders.Keys - {id}
    case _ => s.senders.Keys
  }

  lemma DropSenders(s: State, p: string, i: nat, failure: Option<FailureReason>)
    requires p in s.queues && i < |s.queues[p]|
    ensures Dropped(s, p, i, failure).senders.Keys == s.senders.Keys - {s.queues[p][i].id}
  {}

  lemma SendersAre(s: State, m: Move)
    requires Enabled(s, m) && !Silent(m)
    ensures Apply(s, m).senders.Keys == SendersAfter(s, m)
  {
    if m.Drop? {
      DropSenders(s, m.provider, m.index, m.failure);
    }
  }

  lemma LoudKeepsSenders(s: State, m: Move)
    requires Inv(s) && SendersActive(s) && Enabled(s, m) && !Silent(m)
    ensures SendersActive(Apply(s, m))
  {
    ChangeIs(s, m);
    SendersAre(s, m);
    SendersStay(s.senders.Keys, SendersAfter(s, m), s.active, ChangeOf(s, m));
  }

  lemma SendersStay(before: set<RequestId>, after: set<RequestId>, active: map<RequestId, Active>, c: Change)
    requires forall id :: id in before ==> id in active
    requires c.Ends? ==> c.id !in after
    requires forall id :: id in after ==> id in before || (id in active && !c.Ends?)
    ensures forall id :: id in after ==> id in Changed(active, c)
  {}

  lemma MoveKeepsSenders(s: State, m: Move)
    requires Inv(s) && SendersActive(s) && Enabled(s, m) && Handled(s, m)
    ensures SendersActive(Apply(s, m))
  {
    if Silent(m) {
      SilentKeepsSenders(s, m);
    } else {
      LoudKeepsSenders(s, m);
    }
  }

  // ---- chunks come only from the owner ----

  /** Nothing but endings is added to any log. */
  ghost predicate OnlyEndings(s: State, t: State) {
    forall id, i :: |s.Replies(id)| <= i < |t.Replies(id)| ==> !t.Replies(id)[i].Chunk?
  }

  lemma FailReplyAddsEnding(s: State, id: RequestId, why: FailureReason)
    ensures OnlyEndings(s, FailReply(s, id, why))
  {}

  lemma DropAddsEnding(s: State, p: string, i: nat, failure: Option<FailureReason>)
    requires p in s.queues && i < |s.queues[p]|
    ensures OnlyEndings(s, Dropped(s, p, i, failure))
  {
    var id := s.queues[p][i].id;
    if failure.Some? {
      FailReplyAddsEnding(Unqueued(s, p, i).(active := s.active - {id}), id, failure.value);
    }
  }

  lemma MoveAddsNoChunk(s: State, m: Move)
    requires Enabled(s, m) && !m.SendChunk?
    ensures OnlyEndings(s, Apply(s, m))
  {
    if Silent(m) {
      SilentLeaves(s, m);
    } else if m.FailRunning? {
      FailReplyAddsEnding(Detach(s, m.w, m.id), m.id, m.why);
    } else if m.Drop? {
      DropAddsEnding(s, m.provider, m.index, m.failure);
    }
  }

  lemma OnlyEndingsTwice(s: State, t: State, u: State)
    requires OnlyEndings(s, t) && OnlyEndings(t, u) && LogsGrow(t, u)
    ensures OnlyEndings(s, u)
  {
    forall id, i | |s.Replies(id)| <= i < |u.Replies(id)| ensures !u.Replies(id)[i].Chunk? {
      if i < |t.Replies(id)| {
        assert t.Replies(id) <= u.Replies(id);
        assert u.Replies(id)[i] == t.Replies(id)[i];
      }
    }
  }

  lemma {:induction false} RunAddsNoChunk(s: State, ms: seq<Move>, s': State)
    requires Channels(s) && Runs(s, ms, s') && forall m :: m in ms ==> !m.SendChunk?
    ensures OnlyEndings(s, s')
    decreases |ms|
  {
    if ms != [] {
      var t := Apply(s, ms[0]);
      MoveAddsNoChunk(s, ms[0]);
      MoveKeepsChannels(s, ms[0]);
      RunKeepsChannels(t, ms[1..], s');
      RunAddsNoChunk(t, ms[1..], s');
      OnlyEndingsTwice(s, t, s');
    }
  }
}
