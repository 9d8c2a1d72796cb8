/** When a silent worker is dropped: the heartbeat of its socket's loop. Times are in
    milliseconds of one clock. */
module Heartbeat {
  import opened Seqs

  const READ_TIMEOUT: nat := 25

  datatype Config = Config(interval: nat, pongTimeout: nat)

  /** What the loop remembers: the last activity, and since when it waits for an answer. */
  datatype Beat = Beat(activityAt: nat, awaiting: Option<nat>)

  /** A frame arrives, or nothing does for the read timeout; `sent` is when the ping that may
      follow has gone out. */
  datatype Tick = Received(at: nat) | Silence(at: nat, sent: nat)

  predicate Stale(b: Beat, at: nat, c: Config) {
    b.awaiting.Some? && at - b.awaiting.value >= c.pongTimeout
  }

  predicate PingDue(b: Beat, at: nat, c: Config) {
    b.awaiting == None && at - b.activityAt >= c.interval
  }

  function Beaten(b: Beat, t: Tick, c: Config): Beat {
    match t
    case Received(at) => Beat(at, None)
    case Silence(at, sent) => if PingDue(b, at, c) then b.(awaiting := Some(sent)) else b
  }

  /** The loop's two variables. */
  class Heart {
    const config: Config
    var lastHeartbeatActivityAt: nat
    var awaitingPongSince: Option<nat>

    function View(): Beat
      reads this
    {
      Beat(lastHeartbeatActivityAt, awaitingPongSince)
    }

    /** Started when the socket opens, before anything is received. */
    constructor (c: Config, openedAt: nat)
      ensures config == c && View() == Beat(openedAt, None)
    {
      config, lastHeartbeatActivityAt, awaitingPongSince := c, openedAt, None;
    }

    method OnFrame(at: nat)
      modifies this
      ensures View() == Beaten(old(View()), Received(at), config)
    {
      lastHeartbeatActivityAt := at;
      awaitingPongSince := None;
    }

    /** Nothing came: the worker is stale, or it may be time for a ping, sent at `sent`. */
    method OnSilence(at: nat, sent: nat) returns (stale: bool)
      modifies this
      ensures stale == Stale(old(View()), at, config)
      ensures View() == if stale then old(View()) else Beaten(old(View()), Silence(at, sent), config)
    {
      if awaitingPongSince.Some? && at - awaitingPongSince.value >= config.pongTimeout {
        return true;
      }
      if awaitingPongSince == None && at - lastHeartbeatActivityAt >= config.interval {
        awaitingPongSince := Some(sent);
      }
      return false;
    }
  }

  // ---- runs of the loop ----

  function EndOf(t: Tick): nat {
    match t
    case Received(at) => at
    case Silence(at, sent) => if sent < at then at else sent
  }

  /** Ticks one after another, from `now` on, a silence lasting at least the read timeout. */
  predicate Timely(now: nat, ticks: seq<Tick>)
    decreases |ticks|
  {
    ticks == [] ||
    (match ticks[0] {
       case Received(at) => now <= at
       case Silence(at, sent) => now + READ_TIMEOUT <= at <= sent
     } && Timely(EndOf(ticks[0]), ticks[1..]))
  }

  /** The loop goes through all but the last tick and drops the worker at the last. */
  predicate DropsAtEnd(b: Beat, ticks: seq<Tick>, c: Config)
    decreases |ticks|
  {
    ticks != []
    && if |ticks| == 1 then ticks[0].Silence? && Stale(b, ticks[0].at, c)
       else (ticks[0].Silence? ==> !Stale(b, ticks[0].at, c)) && DropsAtEnd(Beaten(b, ticks[0], c), ticks[1..], c)
  }

  /** The last frame of a run, if it has any. */
  function LastFrame(ticks: seq<Tick>, before: nat): nat {
    if ticks == [] then before
    else LastFrame(ticks[1..], if ticks[0].Received? then ticks[0].at else before)
  }

  /** An answer is awaited only after an interval of silence. */
  predicate Patient(b: Beat, c: Config) {
    b.awaiting.Some? ==> b.awaiting.value >= b.activityAt + c.interval
  }

  /** From the time the loop counts from, a drop takes the whole interval and the whole
      timeout, over every interleaving of frames and silences. */
  lemma {:induction false} DropTakesBoth(b: Beat, now: nat, ticks: seq<Tick>, c: Config)
    requires Timely(now, ticks) && Patient(b, c) && DropsAtEnd(b, ticks, c)
    ensures ticks[|ticks| - 1].at >= LastFrame(ticks, b.activityAt) + c.interval + c.pongTimeout
    decreases |ticks|
  {
    if |ticks| > 1 {
      DropTakesBoth(Beaten(b, ticks[0], c), EndOf(ticks[0]), ticks[1..], c);
    }
  }

  // ---- counted from the registration ----

  /** A socket opening at `opening` that has received its registration at `registered`. */
  predicate DropsRegistered(opening: nat, registered: nat, ticks: seq<Tick>, c: Config) {
    opening <= registered && Timely(registered, ticks) && DropsAtEnd(Beat(opening, None), ticks, c)
  }

  /** Counting the registration among the frames received. */
  predicate DropsTooSoon(opening: nat, registered: nat, ticks: seq<Tick>, c: Config) {
    DropsRegistered(opening, registered, ticks, c)
    && ticks[|ticks| - 1].at < LastFrame(ticks, registered) + c.interval + c.pongTimeout
  }

  function Max(a: int, b: int): int { if a < b then b else a }

  /** The earliest drop of a worker that never sends anything after its registration: the
      interval counts from the opening, and each of the two waits ends at a read timeout. */
  function EarliestDrop(opening: nat, registered: nat, c: Config): int {
    Max(opening + c.interval, registered + READ_TIMEOUT) + Max(c.pongTimeout, READ_TIMEOUT)
  }

  lemma {:induction false} FrameSeen(ticks: seq<Tick>, before: nat, other: nat)
    requires exists i :: 0 <= i < |ticks| && ticks[i].Received?
    ensures LastFrame(ticks, before) == LastFrame(ticks, other)
  {
    if !ticks[0].Received? {
      var i :| 0 <= i < |ticks| && ticks[i].Received?;
      assert ticks[1..][i - 1].Received?;
      FrameSeen(ticks[1..], before, other);
    }
  }

  ghost predicate Silent(ticks: seq<Tick>) {
    forall i :: 0 <= i < |ticks| ==> ticks[i].Silence?
  }

  lemma {:induction false} SilentSeen(ticks: seq<Tick>, before: nat)
    requires Silent(ticks)
    ensures LastFrame(ticks, before) == before
  {
    if ticks != [] {
      SilentSeen(ticks[1..], before);
    }
  }

  lemma {:induction false} AwaitedDrop(b: Beat, now: nat, ticks: seq<Tick>, c: Config)
    requires Timely(now, ticks) && DropsAtEnd(b, ticks, c) && Silent(ticks)
    requires b.awaiting.Some? && b.awaiting.value <= now
    ensures ticks[|ticks| - 1].at >= Max(b.awaiting.value + c.pongTimeout, now + READ_TIMEOUT)
    decreases |ticks|
  {
    if |ticks| > 1 {
      AwaitedDrop(b, EndOf(ticks[0]), ticks[1..], c);
    }
  }

  lemma {:induction false} SilentDrop(opening: nat, now: nat, ticks: seq<Tick>, c: Config)
    requires Timely(now, ticks) && DropsAtEnd(Beat(opening, None), ticks, c) && Silent(ticks)
    ensures ticks[|ticks| - 1].at >= EarliestDrop(opening, now, c)
    decreases |ticks|
  {
    var b := Beat(opening, None);
    if |ticks| > 1 {
      if PingDue(b, ticks[0].at, c) {
        AwaitedDrop(Beaten(b, ticks[0], c), ticks[0].sent, ticks[1..], c);
      } else {
        SilentDrop(opening, EndOf(ticks[0]), ticks[1..], c);
      }
    }
  }

  /** A run that drops as early as it can. */
  function EarliestTicks(opening: nat, registered: nat, c: Config): seq<Tick> {
    var ping := Max(opening + c.interval, registered + READ_TIMEOUT) as nat;
    [Silence(ping, ping),
     Silence((ping + Max(c.pongTimeout, READ_TIMEOUT)) as nat, (ping + Max(c.pongTimeout, READ_TIMEOUT)) as nat)]
  }

  lemma EarliestIsReached(opening: nat, registered: nat, c: Config)
    requires opening <= registered
    ensures DropsRegistered(opening, registered, EarliestTicks(opening, registered, c), c)
    ensures EarliestTicks(opening, registered, c)[1].at == EarliestDrop(opening, registered, c)
    ensures LastFrame(EarliestTicks(opening, registered, c), registered) == registered
  {
    var ticks := EarliestTicks(opening, registered, c);
    assert ticks[1..] == [ticks[1]];
    assert DropsAtEnd(Beaten(Beat(opening, None), ticks[0], c), ticks[1..], c);
    assert Timely(EndOf(ticks[0]), ticks[1..]);
    SilentSeen(ticks, registered);
  }

  /** A worker that has sent anything since its registration is never dropped too soon. */
  lemma HeardFromMeansPatience(opening: nat, registered: nat, ticks: seq<Tick>, c: Config)
    requires DropsRegistered(opening, registered, ticks, c) && exists i :: 0 <= i < |ticks| && ticks[i].Received?
    ensures !DropsTooSoon(opening, registered, ticks, c)
  {
    DropTakesBoth(Beat(opening, None), registered, ticks, c);
    FrameSeen(ticks, opening, registered);
  }

  /** The registration itself does not restart the clock: a worker can be dropped less than
      the interval and the timeout after it registered, exactly when the time its
      registration took is not made up by the read timeouts. */
  lemma TooSoonExactlyWhen(opening: nat, registered: nat, c: Config)
    requires opening <= registered
    ensures (exists ticks: seq<Tick> :: DropsTooSoon(opening, registered, ticks, c))
       <==> EarliestDrop(opening, registered, c) < registered + c.interval + c.pongTimeout
  {
    EarliestIsReached(opening, registered, c);
    if EarliestDrop(opening, registered, c) < registered + c.interval + c.pongTimeout {
      assert DropsTooSoon(opening, registered, EarliestTicks(opening, registered, c), c);
    }
    forall ticks: seq<Tick> | DropsTooSoon(opening, registered, ticks, c)
      ensures EarliestDrop(opening, registered, c) < registered + c.interval + c.pongTimeout
    {
      if exists i :: 0 <= i < |ticks| && ticks[i].Received? {
        HeardFromMeansPatience(opening, registered, ticks, c);
      } else {
        SilentSeen(ticks, registered);
        SilentDrop(opening, registered, ticks, c);
      }
    }
  }

  /** With a 30 second interval and a 10 second timeout, a worker that took 20 seconds to
      register can be dropped 20 seconds after it did. */
  lemma SlowRegistrationIsDropped()
    ensures DropsTooSoon(0, 20_000, EarliestTicks(0, 20_000, Config(30_000, 10_000)), Config(30_000, 10_000))
    ensures EarliestDrop(0, 20_000, Config(30_000, 10_000)) == 40_000
  {
    EarliestIsReached(0, 20_000, Config(30_000, 10_000));
  }
}
