/** The body of a streamed HTTP response: chunks as they come, up to a limit. */
module StreamingResponse {
  import opened Seqs
  import opened RelayState

  const MAX_STREAM_RESPONSE_BYTES: nat := 10 * 1024 * 1024 * 1024

  datatype Item = Data(chunk: Bytes) | Oversized

  /** What one step passes to the next. `events` is what the reply channel still holds; an
      empty one is closed. `armed` says whether dropping the stream cancels the request. */
  datatype Unfolding = Unfolding(next: Option<Bytes>, events: seq<ReplyEvent>, armed: bool, streamed: nat,
                                 terminated: bool)

  datatype Yield = Yield(item: Item, rest: Unfolding) | End(armed: bool)

  function Offer(x: Unfolding, chunk: Bytes, events: seq<ReplyEvent>, limit: nat): Yield {
    var total := SaturatingAdd(x.streamed, |chunk|);
    if total > limit then Yield(Oversized, Unfolding(None, events, false, x.streamed, true))
    else Yield(Data(chunk), Unfolding(None, events, x.armed, total, false))
  }

  function Step(x: Unfolding, limit: nat): Yield {
    if x.terminated then End(x.armed)
    else if x.next.Some? then Offer(x, x.next.value, x.events, limit)
    else if x.events == [] then End(x.armed)
    else if x.events[0].Chunk? then Offer(x, x.events[0].data, x.events[1..], limit)
    else End(false)
  }

  function Size(x: Unfolding): nat {
    |x.events| + (if x.next.Some? then 1 else 0) + if x.terminated then 0 else 1
  }

  /** Everything the stream yields, if nobody drops it. */
  function Body(x: Unfolding, limit: nat): seq<Item>
    decreases Size(x)
  {
    match Step(x, limit)
    case End(_) => []
    case Yield(item, rest) => [item] + Body(rest, limit)
  }

  /** Whether the guard is still armed when the stream has ended. */
  function ArmedAtEnd(x: Unfolding, limit: nat): bool
    decreases Size(x)
  {
    match Step(x, limit)
    case End(armed) => armed
    case Yield(_, rest) => ArmedAtEnd(rest, limit)
  }

  /** The stream of a response whose first chunk has come. */
  function Stream(first: Bytes, events: seq<ReplyEvent>): Unfolding {
    Unfolding(Some(first), events, true, 0, false)
  }

  // ---- which chunks fit ----

  /** The chunks before the first ending. */
  function LeadingChunks(events: seq<ReplyEvent>): seq<Bytes> {
    if events == [] || !events[0].Chunk? then [] else [events[0].data] + LeadingChunks(events[1..])
  }

  predicate HasEnding(events: seq<ReplyEvent>) {
    exists i :: 0 <= i < |events| && !events[i].Chunk?
  }

  function Total(chunks: seq<Bytes>): nat {
    if chunks == [] then 0 else |chunks[0]| + Total(chunks[1..])
  }

  /** n is the length of the longest run of chunks that stays within the limit. */
  ghost predicate LongestFit(chunks: seq<Bytes>, sent: nat, limit: nat, n: nat) {
    n <= |chunks| && sent + Total(chunks[..n]) <= limit
    && forall k :: n < k <= |chunks| ==> sent + Total(chunks[..k]) > limit
  }

  function Items(chunks: seq<Bytes>): seq<Item> {
    seq(|chunks|, i requires 0 <= i < |chunks| => Data(chunks[i]))
  }

  lemma TotalFirst(chunks: seq<Bytes>, k: nat)
    requires 0 < k <= |chunks|
    ensures Total(chunks[..k]) == |chunks[0]| + Total(chunks[1..][..k - 1])
  {
    assert chunks[..k][1..] == chunks[1..][..k - 1];
  }

  lemma FitFirst(chunks: seq<Bytes>, sent: nat, limit: nat, n: nat)
    requires chunks != [] && LongestFit(chunks[1..], sent + |chunks[0]|, limit, n)
    ensures LongestFit(chunks, sent, limit, n + 1)
  {
    TotalFirst(chunks, n + 1);
    forall k | n + 1 < k <= |chunks| ensures sent + Total(chunks[..k]) > limit {
      TotalFirst(chunks, k);
    }
  }

  lemma FitNone(chunks: seq<Bytes>, sent: nat, limit: nat)
    requires sent <= limit && (chunks == [] || sent + |chunks[0]| > limit)
    ensures LongestFit(chunks, sent, limit, 0)
  {
    forall k | 0 < k <= |chunks| ensures sent + Total(chunks[..k]) > limit {
      TotalFirst(chunks, k);
    }
  }

  lemma FitUnique(chunks: seq<Bytes>, sent: nat, limit: nat, m: nat, n: nat)
    requires LongestFit(chunks, sent, limit, m) && LongestFit(chunks, sent, limit, n)
    ensures m == n
  {}

  // ---- the body ----

  /** The chunks a stream has still to offer. */
  function Pending(x: Unfolding): seq<Bytes> {
    (if x.next.Some? then [x.next.value] else []) + LeadingChunks(x.events)
  }

  lemma OneChunk(x: Unfolding, limit: nat)
    requires !x.terminated && x.streamed <= limit < USIZE_MAX && Pending(x) != []
    ensures Step(x, limit).Yield?
    ensures x.streamed + |Pending(x)[0]| > limit ==>
      Step(x, limit).item == Oversized && Step(x, limit).rest.terminated && !Step(x, limit).rest.armed
    ensures x.streamed + |Pending(x)[0]| <= limit ==>
      var y := Step(x, limit).rest;
      Step(x, limit).item == Data(Pending(x)[0]) && Pending(y) == Pending(x)[1..] && !y.terminated && y.armed == x.armed
      && y.streamed == x.streamed + |Pending(x)[0]| && (HasEnding(y.events) <==> HasEnding(x.events))
  {
    if x.next == None {
      EndingLater(x.events);
    }
  }

  lemma EndingLater(events: seq<ReplyEvent>)
    requires events != [] && events[0].Chunk?
    ensures HasEnding(events[1..]) <==> HasEnding(events)
  {
    if HasEnding(events) {
      var i :| 0 <= i < |events| && !events[i].Chunk?;
      assert !events[1..][i - 1].Chunk?;
    }
    if HasEnding(events[1..]) {
      var i :| 0 <= i < |events[1..]| && !events[1..][i].Chunk?;
      assert !events[i + 1].Chunk?;
    }
  }

  lemma NoChunk(x: Unfolding, limit: nat)
    requires !x.terminated && Pending(x) == []
    ensures Body(x, limit) == [] && ArmedAtEnd(x, limit) == (x.armed && !HasEnding(x.events))
  {
    if x.events != [] {
      assert !x.events[0].Chunk?;
    }
  }

  lemma OverflowEnds(x: Unfolding, limit: nat)
    requires !x.terminated && x.streamed <= limit < USIZE_MAX && Pending(x) != []
    requires x.streamed + |Pending(x)[0]| > limit
    ensures Body(x, limit) == [Oversized] && !ArmedAtEnd(x, limit)
  {
    OneChunk(x, limit);
    var rest := Step(x, limit).rest;
    assert Body(rest, limit) == [];
  }

  lemma {:induction false} BodyFits(x: Unfolding, limit: nat) returns (n: nat)
    requires !x.terminated && x.armed && x.streamed <= limit < USIZE_MAX
    ensures LongestFit(Pending(x), x.streamed, limit, n)
    ensures Body(x, limit) == Items(Pending(x)[..n]) + if n < |Pending(x)| then [Oversized] else []
    ensures ArmedAtEnd(x, limit) == (n == |Pending(x)| && !HasEnding(x.events))
    decreases Size(x)
  {
    var chunks := Pending(x);
    if chunks == [] {
      NoChunk(x, limit);
      FitNone(chunks, x.streamed, limit);
      n := 0;
    } else if x.streamed + |chunks[0]| > limit {
      OverflowEnds(x, limit);
      FitNone(chunks, x.streamed, limit);
      n := 0;
    } else {
      OneChunk(x, limit);
      var m := BodyFits(Step(x, limit).rest, limit);
      FitFirst(chunks, x.streamed, limit, m);
      n := m + 1;
      assert Items(chunks[..n]) == [Data(chunks[0])] + Items(chunks[1..][..m]);
    }
  }

  /** The streamed body is the longest run of chunks before the first ending whose total
      stays within the limit, then one error exactly when another chunk would pass it, then
      nothing. Dropped at its end, the stream cancels the request only if the channel closed
      without an ending: passing the limit disarms it, and the request runs on. */
  lemma StreamedBody(first: Bytes, events: seq<ReplyEvent>) returns (n: nat)
    ensures var chunks := [first] + LeadingChunks(events);
      LongestFit(chunks, 0, MAX_STREAM_RESPONSE_BYTES, n)
      && Body(Stream(first, events), MAX_STREAM_RESPONSE_BYTES)
         == Items(chunks[..n]) + (if n < |chunks| then [Oversized] else [])
      && ArmedAtEnd(Stream(first, events), MAX_STREAM_RESPONSE_BYTES) == (n == |chunks| && !HasEnding(events))
  {
    n := BodyFits(Stream(first, events), MAX_STREAM_RESPONSE_BYTES);
  }
}
