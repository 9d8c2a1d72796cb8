/** The repository's own model of passing responses through, and why it and the server
    forward the same chunks. */
module ResponseHarness {
  import opened Seqs
  import opened RelayState
  import opened StreamingResponse

  datatype Forwarded = Forwarded(sequence: nat, data: Bytes, flushed: bool)

  datatype Passing = Passing(forwarded: seq<Forwarded>, streamed: nat)

  datatype Delivery = Passed(chunk: Forwarded) | Terminated

  /** Delivering one chunk: what becomes of the request, and what the client sees. */
  function Deliver(x: Passing, data: Bytes, flush: bool, limit: nat): (Option<Passing>, Delivery) {
    var total := SaturatingAdd(x.streamed, |data|);
    if total > limit then (None, Terminated)
    else
      var chunk := Forwarded(|x.forwarded| + 1, data, flush);
      (Some(Passing(x.forwarded + [chunk], total)), Passed(chunk))
  }

  class ResponseHarness {
    var nextRequestId: nat
    var activeRequests: map<RequestId, Passing>
    var maxStreamBytes: nat

    constructor (limit: nat)
      ensures nextRequestId == 1 && activeRequests == map[] && maxStreamBytes == limit
    {
      nextRequestId, activeRequests, maxStreamBytes := 1, map[], limit;
    }

    method StartRequest() returns (id: RequestId)
      modifies this
      ensures id == old(nextRequestId) && nextRequestId == id + 1 && maxStreamBytes == old(maxStreamBytes)
      ensures activeRequests == old(activeRequests)[id := Passing([], 0)]
    {
      id := nextRequestId;
      nextRequestId := nextRequestId + 1;
      activeRequests := activeRequests[id := Passing([], 0)];
    }

    method DeliverResponseChunk(id: RequestId, data: Bytes, flush: bool) returns (out: Option<Delivery>)
      modifies this
      ensures nextRequestId == old(nextRequestId) && maxStreamBytes == old(maxStreamBytes)
      ensures id !in old(activeRequests) ==> out == None && activeRequests == old(activeRequests)
      ensures id in old(activeRequests) ==>
        var (left, delivery) := Deliver(old(activeRequests)[id], data, flush, maxStreamBytes);
        out == Some(delivery)
        && activeRequests == if left.Some? then old(activeRequests)[id := left.value] else old(activeRequests) - {id}
    {
      if id !in activeRequests {
        return None;
      }
      var active := activeRequests[id];
      var total := SaturatingAdd(active.streamed, |data|);
      if total > maxStreamBytes {
        activeRequests := activeRequests - {id};
        return Some(Terminated);
      }
      var chunk := Forwarded(|active.forwarded| + 1, data, flush);
      activeRequests := activeRequests[id := Passing(active.forwarded + [chunk], total)];
      return Some(Passed(chunk));
    }

    method DeliverResponseComplete(id: RequestId) returns (streamed: Option<seq<Forwarded>>)
      modifies this
      ensures nextRequestId == old(nextRequestId) && maxStreamBytes == old(maxStreamBytes)
      ensures streamed == if id in old(activeRequests) then Some(old(activeRequests)[id].forwarded) else None
      ensures activeRequests == old(activeRequests) - {id}
    {
      streamed := if id in activeRequests then Some(activeRequests[id].forwarded) else None;
      activeRequests := activeRequests - {id};
    }

    /** Delivers the chunks in turn, stopping when the request is terminated. */
    method DeliverAll(id: RequestId, chunks: seq<Bytes>) returns (seen: seq<Delivery>)
      requires id in activeRequests && activeRequests[id] == Passing([], 0) && maxStreamBytes < USIZE_MAX
      modifies this
      ensures seen == Deliveries(chunks, 0, 0, old(maxStreamBytes))
    {
      seen := [];
      for i := 0 to |chunks|
        invariant maxStreamBytes == old(maxStreamBytes)
        invariant id in activeRequests && |activeRequests[id].forwarded| == i
        invariant Deliveries(chunks, 0, 0, maxStreamBytes)
               == seen + Deliveries(chunks[i..], i, activeRequests[id].streamed, maxStreamBytes)
      {
        assert chunks[i..][1..] == chunks[i + 1..];
        var out := DeliverResponseChunk(id, chunks[i], true);
        seen := seen + [out.value];
        if out.value.Terminated? {
          return;
        }
      }
      assert chunks[|chunks|..] == [];
    }
  }

  // ---- what a client sees of a whole response ----

  /** The deliveries of `chunks`, after `n` chunks and `sent` bytes. */
  function Deliveries(chunks: seq<Bytes>, n: nat, sent: nat, limit: nat): seq<Delivery> {
    if chunks == [] then []
    else if SaturatingAdd(sent, |chunks[0]|) > limit then [Terminated]
    else
      [Passed(Forwarded(n + 1, chunks[0], true))]
      + Deliveries(chunks[1..], n + 1, SaturatingAdd(sent, |chunks[0]|), limit)
  }

  /** Chunks numbered from n + 1. */
  function Numbered(chunks: seq<Bytes>, n: nat): seq<Delivery> {
    seq(|chunks|, i requires 0 <= i < |chunks| => Passed(Forwarded(n + i + 1, chunks[i], true)))
  }

  /** The harness forwards the longest run of chunks that fits, numbered in order, and then
      terminates exactly when another chunk would pass the limit. */
  lemma {:induction false} DeliveriesFit(chunks: seq<Bytes>, n: nat, sent: nat, limit: nat) returns (k: nat)
    requires sent <= limit < USIZE_MAX
    ensures LongestFit(chunks, sent, limit, k)
    ensures Deliveries(chunks, n, sent, limit) == Numbered(chunks[..k], n) + if k < |chunks| then [Terminated] else []
  {
    if chunks == [] || sent + |chunks[0]| > limit {
      FitNone(chunks, sent, limit);
      k := 0;
    } else {
      var m := DeliveriesFit(chunks[1..], n + 1, sent + |chunks[0]|, limit);
      FitFirst(chunks, sent, limit, m);
      k := m + 1;
      assert Numbered(chunks[..k], n)
        == [Passed(Forwarded(n + 1, chunks[0], true))] + Numbered(chunks[1..][..m], n + 1);
    }
  }

  function ItemOf(d: Delivery): Item {
    match d
    case Passed(chunk) => Data(chunk.data)
    case Terminated => Oversized
  }

  /** Under the same limit, the server's stream and the harness show the client the same
      chunks in the same order, and stop with an error for the same chunk. */
  lemma SameChunksForwarded(first: Bytes, events: seq<ReplyEvent>, limit: nat)
    requires limit < USIZE_MAX
    ensures var body := Body(Stream(first, events), limit);
      var seen := Deliveries([first] + LeadingChunks(events), 0, 0, limit);
      |body| == |seen| && forall i :: 0 <= i < |body| ==> body[i] == ItemOf(seen[i])
  {
    var chunks := [first] + LeadingChunks(events);
    var m := BodyFits(Stream(first, events), limit);
    var n := DeliveriesFit(chunks, 0, 0, limit);
    FitUnique(chunks, 0, limit, m, n);
  }
}
