/** How waiting work ends: what a timeout sweep takes and leaves, and which waiting
    requests a cancellation reaches. */
module Endings {
  import opened Seqs
  import opened RelayState
  import opened Moves
  import opened Index
  import opened Spec
  import opened BulkTraces

  // ---- timeouts ----

  /** The request waits in a queue whose policy's timeout it has reached. */
  ghost predicate TimesOut(s: State, id: RequestId, now: nat) {
    id in s.active && exists p :: Waits(s)(p, s.active[id].request) && Expired(s.PolicyOf(p), s.active[id].request, now)
  }

  lemma TimesOutIsExpired(s: State, id: RequestId, now: nat)
    requires Inv(s)
    ensures TimesOut(s, id, now) <==> id in ExpiredIds(s, now)
  {
    if id in ExpiredIds(s, now) {
      var p, r :| p in s.queues && r in s.queues[p] && Expired(s.PolicyOf(p), r, now) && r.id == id;
      assert Waits(s)(p, r);
    }
    if TimesOut(s, id, now) {
      var p :| Waits(s)(p, s.active[id].request) && Expired(s.PolicyOf(p), s.active[id].request, now);
    }
  }

  /** A sweep keeps each queue's unexpired requests, in order, and touches no other: the kept
      queue is the old one at exactly the places of its unexpired requests. */
  lemma SweepSplitsQueues(s: State, now: nat, p: string) returns (places: seq<nat>)
    requires p in s.queues
    ensures p in QueuesExpired(s, now).queues
    ensures KeepsAt(s.queues[p], Unexpired(s.PolicyOf(p), now), QueuesExpired(s, now).queues[p], places)
    ensures s.PolicyOf(p).timeout == None ==> QueuesExpired(s, now).queues[p] == s.queues[p]
  {
    places := FilterInOrder(s.queues[p], Unexpired(s.PolicyOf(p), now));
    if s.PolicyOf(p).timeout == None {
      FilterAll(s.queues[p], Unexpired(s.PolicyOf(p), now));
    }
  }

  /** Each request that times out fails once and is gone from the index and the senders;
      every other request, waiting or running, is as it was. */
  lemma SweepEndsExactlyTheExpired(s: State, now: nat, id: RequestId)
    requires Inv(s)
    ensures var t := QueuesExpired(s, now);
      if TimesOut(s, id, now) then
        id !in t.active && id !in t.senders
        && t.Replies(id) == s.Replies(id) + if id in s.senders then [Failure(QueueTimedOut)] else []
      else
        (id in t.active <==> id in s.active) && (id in s.active ==> t.active[id] == s.active[id])
        && (id in t.senders <==> id in s.senders) && t.Replies(id) == s.Replies(id)
  {
    TimesOutIsExpired(s, id, now);
    SweptEntry(s, now, id);
    SweptReply(s, now, id);
  }

  lemma SweptEntry(s: State, now: nat, id: RequestId)
    ensures var t := QueuesExpired(s, now);
      if id in ExpiredIds(s, now) then id !in t.active
      else (id in t.active <==> id in s.active) && (id in s.active ==> t.active[id] == s.active[id])
  {}

  lemma SweptReply(s: State, now: nat, id: RequestId)
    ensures var t := QueuesExpired(s, now);
      if id in ExpiredIds(s, now) then
        id !in t.senders && t.Replies(id) == s.Replies(id) + if id in s.senders then [Failure(QueueTimedOut)] else []
      else (id in t.senders <==> id in s.senders) && t.Replies(id) == s.Replies(id)
  {
    if id !in s.senders {
      assert s.Replies(id) + [] == s.Replies(id);
    }
  }

  lemma RunningNeverTimesOut(s: State, id: RequestId, now: nat)
    requires Inv(s) && id in s.active && s.active[id].InFlight?
    ensures !TimesOut(s, id, now)
  {
    assert s.active[id].request.id == id;
  }

  // ---- cancelling waiting work ----

  /** Nothing of the request is left: not its record, its index entry or its reply sender. */
  ghost predicate Vanished(s: State, id: RequestId) {
    id !in s.active && id !in s.senders && forall p, r :: Waits(s)(p, r) ==> r.id != id
  }

  lemma AtHomeMeans(s: State, id: RequestId)
    requires Inv(s) && id in s.active && s.active[id].Queued?
    ensures (exists i: nat :: AtHome(s, s.active[id].request, i)) <==>
      Waits(s)(s.active[id].request.provider, s.active[id].request)
  {
    var r := s.active[id].request;
    var p := r.provider;
    if exists i: nat :: AtHome(s, r, i) {
      var i: nat :| AtHome(s, r, i);
      assert Waits(s)(p, s.queues[p][i]);
    }
    if Waits(s)(p, r) {
      FirstOfId(s.queues[p], r.id, IndexOf(s.queues[p], r));
      var k: nat :| k < |s.queues[p]| && s.queues[p][k].id == r.id
        && forall j :: 0 <= j < k ==> s.queues[p][j].id != r.id;
      assert AtHome(s, r, k);
    }
  }

  lemma {:induction false} FirstOfId(q: seq<Request>, id: RequestId, i: nat)
    requires i < |q| && q[i].id == id
    ensures exists k: nat :: k < |q| && q[k].id == id && forall j :: 0 <= j < k ==> q[j].id != id
  {
    if exists j :: 0 <= j < i && q[j].id == id {
      var j :| 0 <= j < i && q[j].id == id;
      FirstOfId(q, id, j);
    }
  }

  lemma DroppedVanishes(s: State, id: RequestId, i: nat)
    requires Inv(s) && id in s.active && s.active[id].Queued? && AtHome(s, s.active[id].request, i)
    ensures Vanished(Dropped(s, s.active[id].request.provider, i, None), id)
  {
    var r := s.active[id].request;
    var p := r.provider;
    var t := Dropped(s, p, i, None);
    QueueShrinks(s, t, p, i);
    WaitsAlone(s, p, s.queues[p][i]);
  }

  /** Cancelling a waiting request removes it everywhere exactly when it waits in the queue
      of the provider it was sent to; otherwise nothing happens at all. A request that was
      never requeued always waits there. */
  lemma CancelReachesHomeQueueOnly(s: State, id: RequestId, reason: CancelReason, out: Option<CancelOutcome>, t: State)
    requires Inv(s) && id in s.active && s.active[id].Queued? && Cancels(s, id, reason, out, t)
    ensures var home := Waits(s)(s.active[id].request.provider, s.active[id].request);
      (out == Some(Removed(id)) <==> home) && (Vanished(t, id) <==> home) && (!home ==> t == s && out == None)
    ensures s.active[id].request.requeues == 0 ==> out == Some(Removed(id))
  {
    AtHomeMeans(s, id);
    var r := s.active[id].request;
    var p :| Waits(s)(p, r);
    if exists i: nat :: AtHome(s, r, i) {
      var i: nat :| AtHome(s, r, i) && t == Dropped(s, r.provider, i, None);
      DroppedVanishes(s, id, i);
    }
  }

  // ---- chunks of cancelled work ----

  /** A chunk reaches its client exactly when its sender runs the request and the client
      still holds a streaming reply; being cancelled makes no difference. */
  lemma ChunkReachesClientExactlyWhen(s: State, w: WorkerId, id: RequestId, data: Bytes)
    ensures Chunked(s, w, id, data).Replies(id) == s.Replies(id) + [Chunk(data)]
       <==> Owns(s, w, id) && id in s.senders && s.senders[id].Streaming?
  {
    if !(Owns(s, w, id) && id in s.senders && s.senders[id].Streaming?) {
      assert |Chunked(s, w, id, data).Replies(id)| == |s.Replies(id)|;
    }
  }

  /** Chunks that arrive after a cancellation are still forwarded. */
  lemma LateChunkIsForwarded(s: State, w: WorkerId, id: RequestId, reason: CancelReason, data: Bytes)
    requires Owns(s, w, id) && s.active[id].cancellation == None && id in s.senders && s.senders[id].Streaming?
    ensures Cancels(s, id, reason, Some(Signalled(CancelSignal(w, id, reason))), Marked(s, id, reason))
    ensures Chunked(Marked(s, id, reason), w, id, data).Replies(id) == s.Replies(id) + [Chunk(data)]
  {
    ChunkReachesClientExactlyWhen(Marked(s, id, reason), w, id, data);
  }
}
