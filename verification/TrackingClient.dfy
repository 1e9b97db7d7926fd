/** The self-healing client: when it opens a stream, how it backs off, what it counts. Times are in
    milliseconds of the steady clock; what the channel answers is input. */
module TrackingClient {

  const MIN_BACKOFF: nat := 200
  const MAX_BACKOFF: nat := 5000

  /** `opens` and `failures` are history: streams opened ever, failures since the last opening. */
  datatype Client = Client(hasStream: bool, connected: bool, openedOnce: bool, stopping: bool,
                           backoff: nat, nextRetry: int, reconnects: nat, opens: nat, failures: nat)

  const FRESH := Client(false, false, false, false, MIN_BACKOFF, 0, 0, 0, 0)

  /** What the outside world answers during one call: the clock, whether the channel is ready, whether
      a stream could be made, whether a write went through. */
  datatype World = World(now: int, later: int, ready: bool, made: bool, written: bool)

  function Min(a: nat, b: nat): nat { if a < b then a else b }

  function Retry(c: Client, now: int): Client {
    c.(nextRetry := now + c.backoff, backoff := Min(c.backoff * 2, MAX_BACKOFF), failures := c.failures + 1)
  }

  /** `open_locked`: the client after it, and whether a stream is open. */
  function Opened(c: Client, w: World): (Client, bool) {
    if w.now < c.nextRetry then (c, false)
    else if !w.ready || !w.made then (Retry(c.(hasStream := if w.ready then false else c.hasStream), w.later), false)
    else
      (c.(hasStream := true, connected := true, openedOnce := true, backoff := MIN_BACKOFF,
          reconnects := c.reconnects + (if c.openedOnce then 1 else 0), opens := c.opens + 1, failures := 0),
       true)
  }

  function Closed(c: Client, w: World): Client {
    Retry(c.(hasStream := false, connected := false), w.later)
  }

  function Sent(c: Client, w: World): Client {
    if c.stopping then c
    else
      var (d, ok) := if c.hasStream then (c, true) else Opened(c, w);
      if ok && !w.written then Closed(d, w) else d
  }

  function Stopped(c: Client): Client {
    c.(stopping := true, connected := false, hasStream := false)
  }

  datatype Call = Start(w: World) | Send(w: World) | Stop

  function After(c: Client, call: Call): Client {
    match call
    case Start(w) => Opened(c, w).0
    case Send(w) => Sent(c, w)
    case Stop => Stopped(c)
  }

  // ---- the object -----------------------------------------------------------

  class TrackingClient {
    var hasStream: bool
    var connected: bool
    var openedOnce: bool
    var stopping: bool
    var backoff: nat
    var nextRetry: int
    var reconnects: nat
    ghost var opens: nat
    ghost var failures: nat

    constructor ()
      ensures Value() == FRESH
    {
      hasStream, connected, openedOnce, stopping := false, false, false, false;
      backoff, nextRetry, reconnects := MIN_BACKOFF, 0, 0;
      opens, failures := 0, 0;
    }

    ghost function Value(): Client
      reads this
    {
      Client(hasStream, connected, openedOnce, stopping, backoff, nextRetry, reconnects, opens, failures)
    }

    method ScheduleRetry(now: int)
      modifies this
      ensures Value() == Retry(old(Value()), now)
    {
      nextRetry := now + backoff;
      backoff := Min(backoff * 2, MAX_BACKOFF);
      failures := failures + 1;
    }

    method Open(w: World) returns (ok: bool)
      modifies this
      ensures (Value(), ok) == Opened(old(Value()), w)
    {
      if w.now < nextRetry {
        return false;
      }
      if !w.ready {
        ScheduleRetry(w.later);
        return false;
      }
      hasStream := w.made;
      if !hasStream {
        ScheduleRetry(w.later);
        return false;
      }
      backoff := MIN_BACKOFF;
      if openedOnce {
        reconnects := reconnects + 1;
      }
      openedOnce := true;
      connected := true;
      opens, failures := opens + 1, 0;
      return true;
    }

    method Close(w: World)
      modifies this
      ensures Value() == Closed(old(Value()), w)
    {
      if hasStream {
        hasStream := false;
      }
      connected := false;
      ScheduleRetry(w.later);
    }

    method Send(w: World)
      modifies this
      ensures Value() == Sent(old(Value()), w)
    {
      if stopping {
        return;
      }
      if !hasStream {
        var ok := Open(w);
        if !ok {
          return;
        }
      }
      if !w.written {
        Close(w);
      }
    }

    method Stop()
      modifies this
      ensures Value() == Stopped(old(Value()))
    {
      stopping := true;
      connected := false;
      if !hasStream {
        return;
      }
      hasStream := false;
    }
  }

  // ---- what every run keeps -------------------------------------------------

  function At(calls: seq<Call>, n: nat): Client
    requires n <= |calls|
  {
    if n == 0 then FRESH else After(At(calls, n - 1), calls[n - 1])
  }

  /** The gap after `n` failures in a row: 200 ms doubling up to 5 s. */
  function Gap(n: nat): nat { if n == 0 then MIN_BACKOFF else Min(Gap(n - 1) * 2, MAX_BACKOFF) }

  /** `start` is called once, before any send: a stream is never opened on top of another. */
  ghost predicate StartsFirst(calls: seq<Call>) {
    forall k :: 0 < k < |calls| ==> !calls[k].Start?
  }

  ghost predicate Ok(c: Client) {
    && (c.connected <==> c.hasStream)
    && (c.openedOnce <==> c.opens > 0)
    && c.reconnects == (if c.opens == 0 then 0 else c.opens - 1)
    && c.backoff == Gap(c.failures) && MIN_BACKOFF <= c.backoff <= MAX_BACKOFF
  }

  /** A call keeps the client consistent, with one exception: `start` on top of an open stream, when
      the channel is ready but gives no new stream, leaves it connected without one. */
  lemma AfterOkIff(c: Client, call: Call)
    requires Ok(c)
    ensures Ok(After(c, call))
      <==> !(call.Start? && c.hasStream && call.w.now >= c.nextRetry && call.w.ready && !call.w.made)
  {
    assert Gap(0) == MIN_BACKOFF && Gap(1) == Min(Gap(0) * 2, MAX_BACKOFF);
    assert Gap(c.failures + 1) == Min(Gap(c.failures) * 2, MAX_BACKOFF);
  }

  /** The gap after each failure in a row, the first taken from a fresh backoff. */
  lemma Gaps(n: nat)
    ensures Gap(0) == 200 && Gap(1) == 400 && Gap(2) == 800 && Gap(3) == 1600 && Gap(4) == 3200
    ensures n >= 5 ==> Gap(n) == 5000
  {
    assert Gap(1) == 400 && Gap(2) == 800 && Gap(3) == 1600 && Gap(4) == 3200;
    if n > 5 {
      Gaps(n - 1);
    }
  }

  /** The exception is reached by starting twice: the second time on a ready channel that gives no stream. */
  lemma StartedTwice()
    ensures var ready, empty := World(0, 0, true, true, true), World(0, 0, true, false, true);
      var c := At([Start(ready), Start(empty)], 2);
      c.connected && !c.hasStream && !Ok(c)
  {
    var calls := [Start(World(0, 0, true, true, true)), Start(World(0, 0, true, false, true))];
    assert At(calls, 1) == After(FRESH, calls[0]);
    assert At(calls, 2) == After(At(calls, 1), calls[1]);
  }

  /** After any calls: connected exactly while a stream is open, one reconnect for every opening but
      the first, and a backoff that has doubled with every failure in a row, within 200 to 5000 ms. */
  lemma {:induction false} RunOk(calls: seq<Call>, n: nat)
    requires StartsFirst(calls) && n <= |calls|
    ensures Ok(At(calls, n))
  {
    if n > 0 {
      RunOk(calls, n - 1);
      AfterOkIff(At(calls, n - 1), calls[n - 1]);
    }
  }

  /** The send reaches for the channel and fails: no stream, or a write that breaks it. */
  predicate Fails(c: Client, w: World) {
    !c.stopping && if c.hasStream then !w.written else w.now >= c.nextRetry && !(w.ready && w.made && w.written)
  }

  /** A send that fails keeps the client from the channel for a gap of 200 ms to 5 s, and no longer:
      the first send after the gap, with a willing channel, opens a stream and writes. */
  lemma RetriesInTime(c: Client, failed: World, w: World)
    requires Ok(c) && Fails(c, failed)
    ensures var d, gap := Sent(c, failed), Sent(c, failed).nextRetry - failed.later;
      && 200 <= gap <= 5000 && !d.hasStream
      && (w.now < failed.later + gap ==> Sent(d, w) == d)
      && (w.now >= failed.later + gap && w.ready && w.made && w.written ==>
        Sent(d, w).connected && Sent(d, w).failures == 0)
  {}

  /** Once `stop` has been called, no later send opens a stream or writes to one: they all leave the
      client as `stop` left it. */
  lemma {:induction false} StoppedStaysStopped(calls: seq<Call>, k: nat, n: nat)
    requires k < n <= |calls| && calls[k] == Stop && forall j :: k < j < n ==> !calls[j].Start?
    ensures var c := At(calls, n); c == At(calls, k + 1) && c.stopping && !c.connected && !c.hasStream
  {
    if n > k + 1 {
      StoppedStaysStopped(calls, k, n - 1);
    }
  }
}
