/** Per-track suspicion: an exponentially weighted average with hysteresis. */
module Suspicion {
  import opened Geometry

  const ALPHA := 0.30
  const RAISE_AT := 0.35
  const CLEAR_AT := 0.15
  const HISTORY_LEN: nat := 32
  const STALE_NS: int := 30_000_000_000
  const SHOPLIFTING: int := 3

  datatype Observation = Observation(frame: int, mono: int, cls: int, confidence: real, box: Box)

  /** The state of one track. */
  datatype Track = Track(ewma: real, raised: bool, since: int, lastSeen: int, history: seq<Observation>)

  const FRESH := Track(0.0, false, 0, 0, [])

  function Weight(cls: int): real { if cls == SHOPLIFTING then 1.0 else 0.0 }

  function Signal(o: Observation): real { Weight(o.cls) * o.confidence }

  /** A bounded deque forgets its oldest entry. */
  function Append(history: seq<Observation>, o: Observation): (r: seq<Observation>)
    ensures |history| <= HISTORY_LEN ==> |r| <= HISTORY_LEN
    ensures r != [] && r[|r| - 1] == o
  {
    if |history| >= HISTORY_LEN then history[1..] + [o] else history + [o]
  }

  function Observed(t: Track, o: Observation): Track {
    var e := ALPHA * Signal(o) + (1.0 - ALPHA) * t.ewma;
    var seen := t.(ewma := e, lastSeen := o.mono, history := Append(t.history, o));
    if !t.raised && e >= RAISE_AT then seen.(raised := true, since := o.mono)
    else if t.raised && e <= CLEAR_AT then seen.(raised := false, since := 0)
    else seen
  }

  /** A track after its first `n` observations. */
  function StateAt(obs: seq<Observation>, n: nat): Track
    requires n <= |obs|
  {
    if n == 0 then FRESH else Observed(StateAt(obs, n - 1), obs[n - 1])
  }

  /** A track after all its observations. */
  function Replay(obs: seq<Observation>): Track { StateAt(obs, |obs|) }

  class TrackState {
    const streamId: string
    const trackId: int
    var ewma: real
    var raised: bool
    var raisedSince: int
    var lastSeen: int
    var history: seq<Observation>

    constructor (streamId: string, trackId: int)
      ensures this.streamId == streamId && this.trackId == trackId && Value() == FRESH
    {
      this.streamId, this.trackId := streamId, trackId;
      ewma, raised, raisedSince, lastSeen, history := 0.0, false, 0, 0, [];
    }

    function Value(): Track
      reads this
    {
      Track(ewma, raised, raisedSince, lastSeen, history)
    }

    method Observe(o: Observation)
      modifies this
      ensures Value() == Observed(old(Value()), o)
    {
      var signal := Weight(o.cls) * o.confidence;
      ewma := ALPHA * signal + (1.0 - ALPHA) * ewma;
      lastSeen := o.mono;
      history := Append(history, o);
      if !raised && ewma >= RAISE_AT {
        raised := true;
        raisedSince := o.mono;
      } else if raised && ewma <= CLEAR_AT {
        raised := false;
        raisedSince := 0;
      }
    }
  }

  // ---- what the average is --------------------------------------------------

  ghost predicate InUnit(x: real) { 0.0 <= x <= 1.0 }

  ghost predicate Plausible(obs: seq<Observation>) {
    forall k :: 0 <= k < |obs| ==> InUnit(obs[k].confidence)
  }

  function Power(x: real, n: nat): real { if n == 0 then 1.0 else x * Power(x, n - 1) }

  /** One weighted term. */
  function Term(age: nat, signal: real): real { ALPHA * Power(1.0 - ALPHA, age) * signal }

  /** The sum of ALPHA * (1 - ALPHA)^age * signal over the first `n` observations, the newest of
      `total` having age 0. */
  function WeightedSum(obs: seq<Observation>, n: nat, total: nat): real
    requires n <= |obs| && n <= total
  {
    if n == 0 then 0.0
    else WeightedSum(obs, n - 1, total) + Term(total - n, Signal(obs[n - 1]))
  }

  lemma ScaledTwice(r: real, e: real)
    ensures (1.0 - ALPHA) * (r * e) == ((1.0 - ALPHA) * r) * e
  {}

  lemma TermOlder(age: nat, signal: real)
    ensures Term(age + 1, signal) == (1.0 - ALPHA) * Term(age, signal)
  {
    var p := Power(1.0 - ALPHA, age);
    assert Power(1.0 - ALPHA, age + 1) == (1.0 - ALPHA) * p;
    ScaledTwice(ALPHA * p, signal);
  }

  lemma {:induction false} WeightedSumOlder(obs: seq<Observation>, n: nat, total: nat)
    requires n <= |obs| && n <= total
    ensures WeightedSum(obs, n, total + 1) == (1.0 - ALPHA) * WeightedSum(obs, n, total)
  {
    hide Term, Signal;
    if n > 0 {
      WeightedSumOlder(obs, n - 1, total);
      TermOlder(total - n, Signal(obs[n - 1]));
    }
  }

  lemma NewestTerm(signal: real)
    ensures Term(0, signal) == ALPHA * signal
  {}

  /** The average is the weighted sum of all signals so far, and stays in [0, 1]. */
  lemma {:induction false} EwmaIsWeightedSum(obs: seq<Observation>, n: nat)
    requires Plausible(obs) && n <= |obs|
    ensures StateAt(obs, n).ewma == WeightedSum(obs, n, n)
    ensures InUnit(StateAt(obs, n).ewma)
  {
    hide Term, StateAt, Signal, Power;
    if n == 0 {
      NothingSeen(obs);
    } else {
      EwmaStep(obs, n);
      assert WeightedSum(obs, n, n) == WeightedSum(obs, n - 1, n) + Term(0, Signal(obs[n - 1]));
      hide WeightedSum;
      EwmaIsWeightedSum(obs, n - 1);
      WeightedSumOlder(obs, n - 1, n - 1);
      NewestTerm(Signal(obs[n - 1]));
    }
  }

  lemma NothingSeen(obs: seq<Observation>)
    ensures StateAt(obs, 0) == FRESH
  {}

  lemma EwmaStep(obs: seq<Observation>, n: nat)
    requires 0 < n <= |obs|
    ensures StateAt(obs, n).ewma == ALPHA * Signal(obs[n - 1]) + (1.0 - ALPHA) * StateAt(obs, n - 1).ewma
    ensures InUnit(obs[n - 1].confidence) ==> InUnit(Signal(obs[n - 1]))
  {}

  // ---- hysteresis -----------------------------------------------------------

  /** Raised tracks are above the band, the others below it. */
  lemma {:induction false} Hysteresis(obs: seq<Observation>, n: nat)
    requires n <= |obs|
    ensures var t := StateAt(obs, n); if t.raised then t.ewma > CLEAR_AT else t.ewma < RAISE_AT
    ensures |StateAt(obs, n).history| <= HISTORY_LEN
  {
    if n > 0 {
      Hysteresis(obs, n - 1);
    }
  }

  /** Since the `i`-th observation lifted the average to 0.35, it has stayed above 0.15. */
  ghost predicate LiftedSince(obs: seq<Observation>, i: nat, n: nat)
    requires n <= |obs|
  {
    1 <= i <= n && StateAt(obs, i).ewma >= 0.35 && forall j: nat :: i <= j <= n ==> StateAt(obs, j).ewma > 0.15
  }

  ghost predicate Lifted(obs: seq<Observation>, n: nat)
    requires n <= |obs|
  {
    exists i: nat :: LiftedSince(obs, i, n)
  }

  lemma RaisedStep(obs: seq<Observation>, n: nat)
    requires 0 < n <= |obs|
    ensures var e := StateAt(obs, n).ewma;
      StateAt(obs, n).raised <==> e >= 0.35 || (StateAt(obs, n - 1).raised && e > 0.15)
  {}

  lemma LiftedStep(obs: seq<Observation>, n: nat)
    requires 0 < n <= |obs|
    ensures var e := StateAt(obs, n).ewma;
      Lifted(obs, n) <==> e >= 0.35 || (Lifted(obs, n - 1) && e > 0.15)
  {
    hide StateAt;
    if StateAt(obs, n).ewma >= 0.35 {
      assert LiftedSince(obs, n, n);
    } else if Lifted(obs, n - 1) && StateAt(obs, n).ewma > 0.15 {
      var i: nat :| LiftedSince(obs, i, n - 1);
      assert LiftedSince(obs, i, n);
    }
    if Lifted(obs, n) {
      var i: nat :| LiftedSince(obs, i, n);
      assert i < n ==> LiftedSince(obs, i, n - 1);
    }
  }

  lemma NothingLifted(obs: seq<Observation>)
    ensures !Lifted(obs, 0)
  {}

  /** The hysteresis, without its flag: a track is raised exactly if its average has been lifted to 0.35
      at some point and has stayed above 0.15 ever since. */
  lemma {:induction false} RaisedIff(obs: seq<Observation>, n: nat)
    requires n <= |obs|
    ensures StateAt(obs, n).raised <==> Lifted(obs, n)
  {
    hide StateAt, Lifted;
    NothingSeen(obs);
    NothingLifted(obs);
    if n > 0 {
      RaisedIff(obs, n - 1);
      RaisedStep(obs, n);
      LiftedStep(obs, n);
    }
  }

  lemma Decay(t: Track, o: Observation)
    requires InUnit(o.confidence)
    ensures Observed(t, o).ewma >= (1.0 - ALPHA) * t.ewma
    ensures Signal(o) == 0.0 ==> Observed(t, o).ewma == (1.0 - ALPHA) * t.ewma
  {}

  /** A raise lasts at least three observations: the one that raised, and the two after it. */
  lemma RaiseLastsThree(obs: seq<Observation>, k: nat)
    requires Plausible(obs) && k + 2 < |obs|
    requires !StateAt(obs, k).raised && StateAt(obs, k + 1).raised
    ensures StateAt(obs, k + 2).raised && StateAt(obs, k + 3).raised
  {
    var raised := StateAt(obs, k + 1);
    assert raised == Observed(StateAt(obs, k), obs[k]) && raised.ewma >= RAISE_AT;
    Decay(raised, obs[k + 1]);
    assert StateAt(obs, k + 2) == Observed(raised, obs[k + 1]);
    Decay(StateAt(obs, k + 2), obs[k + 2]);
  }

  ghost predicate Silent(obs: seq<Observation>, from: nat, to: nat) {
    forall k :: from <= k < to && k < |obs| ==> Signal(obs[k]) == 0.0
  }

  /** What is left of an average after `n` observations without signal. */
  function Faded(e: real, n: nat): real { if n == 0 then e else (1.0 - ALPHA) * Faded(e, n - 1) }

  lemma SilentPart(obs: seq<Observation>, k: nat, n: nat)
    requires n > 0 && Plausible(obs) && k + n <= |obs| && Silent(obs, k, k + n)
    ensures Silent(obs, k, k + n - 1) && Signal(obs[k + n - 1]) == 0.0
  {}

  lemma {:induction false} SilenceDecays(obs: seq<Observation>, k: nat, n: nat)
    requires Plausible(obs) && k + n <= |obs| && Silent(obs, k, k + n)
    ensures StateAt(obs, k + n).ewma == Faded(StateAt(obs, k).ewma, n)
  {
    hide StateAt, Signal, Plausible;
    if n > 0 {
      SilentPart(obs, k, n);
      hide Silent;
      SilenceDecays(obs, k, n - 1);
      EwmaStep(obs, k + n);
    }
  }

  /** Six observations without signal always clear a track. */
  lemma SixSilentClear(obs: seq<Observation>, k: nat)
    requires Plausible(obs) && k + 6 <= |obs| && Silent(obs, k, k + 6)
    ensures !StateAt(obs, k + 6).raised
  {
    hide StateAt, Signal;
    EwmaIsWeightedSum(obs, k);
    SilenceDecays(obs, k, 6);
    Hysteresis(obs, k + 6);
    var e := StateAt(obs, k).ewma;
    assert Faded(e, 1) <= 0.7;
    assert Faded(e, 2) == 0.7 * Faded(e, 1) && Faded(e, 3) == 0.7 * Faded(e, 2);
    assert Faded(e, 4) == 0.7 * Faded(e, 3) && Faded(e, 5) == 0.7 * Faded(e, 4) && Faded(e, 6) == 0.7 * Faded(e, 5);
  }

  lemma RaiseKept(obs: seq<Observation>, n: nat)
    requires 0 < n <= |obs| && StateAt(obs, n - 1).raised && StateAt(obs, n).ewma > CLEAR_AT
    ensures StateAt(obs, n).raised
  {}

  /** Five may not be enough: a fresh track sure of Shoplifting seven times and silent five times is
      still raised. So six is exact. */
  lemma FiveSilentMayNot() returns (obs: seq<Observation>)
    ensures |obs| == 12 && Plausible(obs) && Silent(obs, 7, 12) && StateAt(obs, 12).raised
  {
    obs := seq(12, i => Observation(0, 0, 3, if i < 7 then 1.0 else 0.0, Box(0.0, 0.0, 1.0, 1.0)));
    hide StateAt;
    NothingSeen(obs);
    ghost var e := 0.0;
    for n := 0 to 7
      invariant StateAt(obs, n).ewma == e && e == Built(n)
    {
      EwmaStep(obs, n + 1);
      e := StateAt(obs, n + 1).ewma;
    }
    BuiltSeven();
    Hysteresis(obs, 7);
    for n := 7 to 12
      invariant StateAt(obs, n).raised && StateAt(obs, n).ewma == Faded(Built(7), n - 7)
    {
      EwmaStep(obs, n + 1);
      StillAbove(n + 1 - 7);
      RaiseKept(obs, n + 1);
    }
  }

  /** The average after `n` observations sure of Shoplifting. */
  function Built(n: nat): real { if n == 0 then 0.0 else ALPHA + (1.0 - ALPHA) * Built(n - 1) }

  lemma BuiltSeven()
    ensures Built(7) == 0.9176457
  {
    assert Built(1) == 0.3 && Built(2) == 0.51 && Built(3) == 0.657;
    assert Built(4) == 0.7599 && Built(5) == 0.83193 && Built(6) == 0.882351;
  }

  lemma StillAbove(n: nat)
    requires n <= 5
    ensures Faded(Built(7), n) > CLEAR_AT
  {
    BuiltSeven();
    var e := Built(7);
    assert Faded(e, 1) == 0.7 * e && Faded(e, 2) == 0.49 * e && Faded(e, 3) == 0.343 * e;
    assert Faded(e, 4) == 0.2401 * e && Faded(e, 5) == 0.16807 * e;
  }

  /** A track keeps its last 32 observations, all of them while there are no more. */
  lemma {:induction false} HistoryIsRecent(obs: seq<Observation>, n: nat)
    requires n <= |obs|
    ensures StateAt(obs, n).history == obs[if n > 32 then n - 32 else 0..n]
  {
    if n > 0 {
      HistoryIsRecent(obs, n - 1);
    }
  }

  /** Shoplifting is class 3. */
  ghost predicate AtMostOneShoplifting(obs: seq<Observation>) {
    forall j, k :: 0 <= j < k < |obs| ==> obs[j].cls != 3 || obs[k].cls != 3
  }

  /** A fresh track is never raised before its second Shoplifting observation. */
  lemma {:induction false} NeedsTwoShoplifting(obs: seq<Observation>, n: nat)
    requires Plausible(obs) && AtMostOneShoplifting(obs) && n <= |obs|
    ensures !StateAt(obs, n).raised && 0.0 <= StateAt(obs, n).ewma <= ALPHA
    ensures (forall k :: 0 <= k < n ==> obs[k].cls != 3) ==> StateAt(obs, n).ewma == 0.0
  {
    if n > 0 {
      NeedsTwoShoplifting(obs, n - 1);
    }
  }

  ghost predicate Above(obs: seq<Observation>, n: nat) {
    n <= |obs| && StateAt(obs, n).raised && StateAt(obs, n).ewma > 0.15
  }

  /** Why a track is raised: some observation raised it at the recorded instant, and after every
      observation since, its average stayed above the clearing threshold. */
  ghost predicate RaisedSince(obs: seq<Observation>, i: nat, n: nat)
    requires n <= |obs|
  {
    && i < n && obs[i].mono == StateAt(obs, n).since
    && !StateAt(obs, i).raised
    && forall j: nat :: i < j <= n ==> Above(obs, j)
  }

  lemma SinceKept(obs: seq<Observation>, n: nat)
    requires n <= |obs| && StateAt(obs, n).raised
    ensures n > 0 && Above(obs, n)
    ensures StateAt(obs, n).since == if StateAt(obs, n - 1).raised then StateAt(obs, n - 1).since else obs[n - 1].mono
  {
    Hysteresis(obs, n);
  }

  lemma {:induction false} RaiseIsBacked(obs: seq<Observation>, n: nat) returns (i: nat)
    requires n <= |obs| && StateAt(obs, n).raised
    ensures RaisedSince(obs, i, n)
  {
    hide StateAt, Observed, Above;
    SinceKept(obs, n);
    if StateAt(obs, n - 1).raised {
      i := RaiseIsBacked(obs, n - 1);
    } else {
      i := n - 1;
    }
  }

  /** More observations do not change what came before. */
  lemma {:induction false} StateStays(obs: seq<Observation>, more: seq<Observation>, n: nat)
    requires n <= |obs| <= |more| && forall k :: 0 <= k < |obs| ==> more[k] == obs[k]
    ensures StateAt(more, n) == StateAt(obs, n)
  {
    if n > 0 {
      StateStays(obs, more, n - 1);
    }
  }
}
