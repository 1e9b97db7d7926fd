/** What `BYTETracker.update` keeps, frame after frame: list membership, ids, detections, ages. */
module TrackerInvariant {
  import opened Assignment
  import opened TrackLists
  import opened TrackerModel
  import opened TrackerPhases
  import K = Kalman

  function LastSeen(h: Heap): int -> int {
    x => if x in h then h[x].frame else 0
  }

  /** A tracked track was matched or born in this frame; it is confirmed unless born in it, after the first. */
  ghost predicate TrackedOk(t: Track, f: int) {
    t.state == Tracked && t.frame == f && t.start <= f && (t.activated <==> f == 1 || t.start < f)
  }

  /** A lost track was confirmed and last matched in an earlier frame. */
  ghost predicate LostOk(t: Track, f: int) {
    t.activated && t.start <= t.frame < f && (t.state == Lost || t.state == Removed)
  }

  /** `limit` bounds the detections of a frame, `count` is the id counter. */
  ghost predicate Inv(s: Tracker, limit: nat, count: int) {
    && s.frame >= 0 && count >= 0
    && Known(s.heap, s.tracked) && Known(s.heap, s.lost)
    && Distinct(s.tracked) && Distinct(s.lost) && (forall x :: x in s.tracked ==> x !in s.lost)
    && (forall x :: x in s.heap ==> 1 <= x <= count)
    && (forall x :: x in s.tracked ==> TrackedOk(s.heap[x], s.frame))
    && (forall x :: x in s.lost ==> LostOk(s.heap[x], s.frame))
    && HoldsApart(s.heap, s.tracked, s.lost, limit)
    && SortedBy(s.lost, LastSeen(s.heap))
    && |s.removed| <= REMOVED_KEPT
  }

  /** No two listed tracks share both frame and detection. */
  ghost predicate HoldsApart(h: Heap, tracked: seq<int>, lost: seq<int>, limit: nat) {
    && (forall x :: x in h && (x in tracked || x in lost) ==> 0 <= h[x].det < limit)
    && (forall x, y ::
          (x in h && y in h && (x in tracked || x in lost) && (y in tracked || y in lost)
           && x != y && h[x].frame == h[y].frame) ==> h[x].det != h[y].det)
  }

  // ---- everything a frame settles -------------------------------------------

  ghost predicate WasTracked(t: Track, u: Track, f: int, newlyLost: bool) {
    if u.frame == f then u.state == Tracked && u.activated && u.start == t.start
    else
      && u.start == t.start && u.frame == t.frame && u.det == t.det && u.state != Tracked
      && newlyLost == t.activated
      && (t.activated ==> u.state == Lost && u.activated)
  }

  ghost predicate WasLost(t: Track, u: Track, f: int, maxLost: nat) {
    if u.frame == f then u.state == Tracked && u.activated && u.start == t.start
    else
      && u.start == t.start && u.frame == t.frame && u.det == t.det && u.activated == t.activated
      && u.state == (if f - u.frame > maxLost then Removed else t.state)
  }

  ghost predicate Settled(s: Tracker, r: FrameRun, cfg: Config, count: int, n: nat)
    requires Known(s.heap, s.tracked) && Known(s.heap, s.lost)
  {
    var h, f := r.settled, s.frame + 1;
    && Known(h, s.tracked) && Known(h, s.lost) && Known(h, r.births.born)
    && Known(h, r.activated) && Known(h, r.confirmed.refind) && Known(h, r.confirmed.lost)
    && (forall x :: x in h ==> 1 <= x <= r.births.count)
    && r.births.count >= count
    && (forall x :: x in s.tracked ==> WasTracked(s.heap[x], h[x], f, x in r.confirmed.lost))
    && (forall x :: x in s.lost ==> WasLost(s.heap[x], h[x], f, cfg.maxLost))
    && (forall x :: x in r.confirmed.lost ==> x in s.tracked && h[x].frame != f)
    && Distinct(r.confirmed.lost)
    && (forall x :: x in r.births.born <==> count < x <= r.births.count)
    && (forall x :: x in r.births.born ==> TrackedOk(h[x], f) && h[x].activated == (f == 1) && x in r.activated)
    && (forall x :: x in r.activated ==>
          h[x].frame == f && h[x].state == Tracked && (x in s.tracked || x in r.births.born))
    && (forall x :: x in r.confirmed.refind <==> x in s.lost && h[x].frame == f)
    && Clean(h, Everyone(s, r), f, {}, n)
    && (forall x :: x in r.overdue <==> x in s.lost && f - h[x].frame > cfg.maxLost)
    && Distinct(r.overdue) && SortedBy(r.overdue, LastSeen(s.heap))
  }

  ghost function Members(s: seq<int>): (e: set<int>)
    ensures forall x :: x in e <==> x in s
  {
    set x | x in s
  }

  ghost function Listed(s: Tracker): (e: set<int>)
    ensures forall x :: x in e <==> x in s.tracked || x in s.lost
  {
    Members(s.tracked) + Members(s.lost)
  }

  ghost function Everyone(s: Tracker, r: FrameRun): (e: set<int>)
    ensures forall x :: x in e <==> x in s.tracked || x in s.lost || x in r.births.born
  {
    Listed(s) + Members(r.births.born)
  }

  lemma {:induction false} PredictFacts(h: Heap, ids: seq<int>)
    requires Known(h, ids)
    ensures forall x :: x in h ==> PredictAll(h, ids)[x] == h[x].(kf := PredictAll(h, ids)[x].kf)
    ensures forall x :: x in h && x !in ids ==> PredictAll(h, ids)[x] == h[x]
  {
    hide K.Predict, K.FreezeHeightVelocity;
    if ids != [] {
      PredictFacts(h, ids[..|ids| - 1]);
    }
  }

  /** What the phases of one frame did, phase by phase. */
  ghost predicate Phases(s: Tracker, r: FrameRun, cfg: Config, count: int)
    requires Known(s.heap, s.tracked) && Known(s.heap, s.lost)
  {
    && (forall x :: x in r.pool <==> (x in s.tracked && s.heap[x].activated) || x in s.lost)
    && (forall x :: x in r.unconfirmed <==> x in s.tracked && !s.heap[x].activated)
    && r.predicted.Keys == s.heap.Keys
    && (forall x :: x in s.heap ==> r.predicted[x] == s.heap[x].(kf := r.predicted[x].kf))
    && ConfirmedOutcome(r.predicted, r.pool, s.frame + 1, r.confirmed)
    && TentativeOutcome(r.confirmed.heap, r.unconfirmed, s.frame + 1, r.tentative)
    && BirthsOutcome(r.tentative.heap, r.tentative.spare, s.frame + 1, count, r.births)
    && (forall x :: x in r.overdue <==>
      x in s.lost && x in r.births.heap && s.frame + 1 - r.births.heap[x].frame > cfg.maxLost)
    && Distinct(r.overdue) && SortedBy(r.overdue, LastSeen(s.heap))
    && r.settled.Keys == r.births.heap.Keys
    && (forall x :: x in r.settled ==>
          r.settled[x] == if x in r.overdue then r.births.heap[x].(state := Removed) else r.births.heap[x])
    && r.activated == r.confirmed.activated + r.tentative.activated + r.births.born
  }

  lemma BeforePhases(s: Tracker, r: FrameRun, limit: nat, count: int)
    requires Inv(s, limit, count)
    requires r.unconfirmed == WithActivation(s.heap, s.tracked, false)
    requires r.pool == Joint(WithActivation(s.heap, s.tracked, true), s.lost)
    requires r.predicted.Keys == s.heap.Keys
    requires forall x :: x in s.heap ==> r.predicted[x] == s.heap[x].(kf := r.predicted[x].kf)
    ensures Distinct(r.pool) && Distinct(r.unconfirmed)
    ensures forall x :: x in r.pool <==> (x in s.tracked && s.heap[x].activated) || x in s.lost
    ensures forall x :: x in r.unconfirmed <==> x in s.tracked && !s.heap[x].activated
    ensures forall x :: x in r.pool ==> x !in r.unconfirmed
  {
    hide HoldsApart, SortedBy, LostOk, TrackedOk;
  }

  /** Before a frame every listed track was last matched earlier. */
  lemma MatchedEarlier(s: Tracker, h: Heap, limit: nat, count: int, n: nat)
    requires Inv(s, limit, count) && h.Keys == s.heap.Keys
    requires forall x :: x in s.heap ==> h[x] == s.heap[x].(kf := h[x].kf)
    ensures forall x :: x in s.tracked || x in s.lost ==> x in h && h[x].frame < s.frame + 1
    ensures Clean(h, Listed(s), s.frame + 1, UpTo(n), n)
  {
    hide HoldsApart, SortedBy;
    forall x | x in s.tracked || x in s.lost ensures x in h && h[x].frame < s.frame + 1 {
      if x in s.tracked {
        assert TrackedOk(s.heap[x], s.frame);
      } else {
        assert LostOk(s.heap[x], s.frame);
      }
    }
  }

  lemma FramePhases(s: Tracker, fr: Frame, cfg: Config, limit: nat, count: int)
    requires ConfigOk(cfg) && Aligned(fr) && Inv(s, limit, count)
    ensures var r := Ran(s, fr, cfg, count);
      Phases(s, r, cfg, count) && Clean(r.settled, Everyone(s, r), s.frame + 1, {}, |fr.scores|)
  {
    RanEquations(s, fr, cfg, count);
    var r := Ran(s, fr, cfg, count);
    hide Ran, RanAs, Phases, Clean, HoldsApart, SortedBy, Inv, ConfigOk, ConfirmedOutcome;
    InvBasics(s, limit, count);
    var free := ConfirmedPhase(s, fr, cfg, limit, count, r);
    LaterPhases(s, fr, cfg, count, r, free);
  }

  lemma RanEquations(s: Tracker, fr: Frame, cfg: Config, count: int)
    requires ConfigOk(cfg) && Aligned(fr) && Known(s.heap, s.tracked) && Known(s.heap, s.lost)
    ensures RanAs(s, fr, cfg, count, Ran(s, fr, cfg, count))
  {
    hide PredictAll, MatchConfirmed, MatchTentative, Spawn, MarkAll, High, Low, Filter, Joint, ConfigOk;
  }

  lemma StepParts(s: Tracker, fr: Frame, cfg: Config, count: int)
    requires ConfigOk(cfg) && Aligned(fr) && Known(s.heap, s.tracked) && Known(s.heap, s.lost)
    ensures var r := Ran(s, fr, cfg, count);
      && Known(r.settled, s.tracked) && Known(r.settled, s.lost)
      && Step(s, fr, cfg, count)
      == (Merge(s, r.settled, s.frame + 1, r.activated, r.confirmed.refind, r.confirmed.lost,
                r.tentative.gone + r.overdue),
          r.births.count)
  {
    hide Ran, Merge, ConfigOk;
  }

  /** The list bookkeeping touches no track. */
  lemma MergeHeap(s: Tracker, h: Heap, f: int, activated: seq<int>, refind: seq<int>, newlyLost: seq<int>,
                  gone: seq<int>)
    requires Known(h, s.tracked) && Known(h, s.lost)
    requires Known(h, activated) && Known(h, refind) && Known(h, newlyLost)
    ensures Merge(s, h, f, activated, refind, newlyLost, gone).heap == h
  {
    hide WithoutDuplicates, Joint, Sub, InState, DropsTracked, DropsLost;
  }

  /** The steps of a frame, as equations between its parts. */
  ghost predicate RanAs(s: Tracker, fr: Frame, cfg: Config, count: int, r: FrameRun)
    requires ConfigOk(cfg) && Aligned(fr) && Known(s.heap, s.tracked) && Known(s.heap, s.lost)
  {
    var f := s.frame + 1;
    && r.high == High(fr, cfg, |fr.scores|) && r.low == Low(fr, cfg, |fr.scores|)
    && r.unconfirmed == WithActivation(s.heap, s.tracked, false)
    && r.pool == Joint(WithActivation(s.heap, s.tracked, true), s.lost)
    && r.predicted == PredictAll(s.heap, r.pool)
    && r.confirmed == MatchConfirmed(r.predicted, r.pool, fr, r.high, r.low, f, cfg)
    && r.tentative == MatchTentative(r.confirmed.heap, r.unconfirmed, fr, r.confirmed.left, f, cfg)
    && r.births == Spawn(r.tentative.heap, fr, r.tentative.spare, f, cfg, count)
    && r.overdue == Overdue(r.births.heap, s.lost, f, cfg.maxLost)
    && r.settled == MarkAll(r.births.heap, r.overdue, Removed)
    && r.activated == r.confirmed.activated + r.tentative.activated + r.births.born
  }

  /** Where a frame stands once confirmed and lost tracks have been matched. */
  ghost predicate ConfirmedDone(s: Tracker, r: FrameRun, fr: Frame, free: set<int>)
    requires Known(s.heap, s.tracked) && Known(s.heap, s.lost)
  {
    && (forall x :: x in r.pool <==> (x in s.tracked && s.heap[x].activated) || x in s.lost)
    && (forall x :: x in r.unconfirmed <==> x in s.tracked && !s.heap[x].activated)
    && Distinct(r.unconfirmed)
    && r.predicted.Keys == s.heap.Keys
    && (forall x :: x in s.heap ==> r.predicted[x] == s.heap[x].(kf := r.predicted[x].kf))
    && (forall x :: x in r.unconfirmed ==> x !in r.pool && x in r.predicted && r.predicted[x].frame < s.frame + 1)
    && ConfirmedOutcome(r.predicted, r.pool, s.frame + 1, r.confirmed)
    && Clean(r.confirmed.heap, Listed(s), s.frame + 1, free, |fr.scores|)
    && (forall i: nat :: i in r.confirmed.left ==> i in free && i < |fr.scores|)
    && InFrame(fr, r.confirmed.left) && Known(r.confirmed.heap, r.unconfirmed)
  }

  lemma LaterPhases(s: Tracker, fr: Frame, cfg: Config, count: int, r: FrameRun, free: set<int>)
    requires ConfigOk(cfg) && Aligned(fr) && Known(s.heap, s.tracked) && Known(s.heap, s.lost)
    requires Distinct(s.lost) && SortedBy(s.lost, LastSeen(s.heap)) && forall x :: x in s.heap ==> x <= count
    requires ConfirmedDone(s, r, fr, free)
    requires RanAs(s, fr, cfg, count, r)
    ensures Phases(s, r, cfg, count)
    ensures Clean(r.settled, Everyone(s, r), s.frame + 1, {}, |fr.scores|)
  {
    hide MatchTentative, Spawn, Clean, SortedBy, ConfirmedOutcome, TentativeOutcome, BirthsOutcome, Phases;
    var f, n := s.frame + 1, |fr.scores|;
    var all := Listed(s);
    assert r.overdue == Overdue(r.births.heap, s.lost, f, cfg.maxLost);
    UnconfirmedUntouched(r.predicted, r.pool, f, r.confirmed, r.unconfirmed);
    var free2 := TentativeFacts(r.confirmed.heap, r.unconfirmed, fr, r.confirmed.left, f, cfg, all, free, n);
    SpareDistinct(r.confirmed.heap, r.unconfirmed, f, r.tentative);
    SpawnFacts(r.tentative.heap, fr, r.tentative.spare, f, cfg, count);
    CleanSpawn(r.tentative.heap, r.tentative.spare, f, count, r.births, all, free2, n, Everyone(s, r));
    CleanMark(r.births.heap, r.overdue, Removed, Everyone(s, r), f, {}, n);
    FilterSorted(s.lost, IsOverdue(r.births.heap, f, cfg.maxLost), LastSeen(s.heap));
    CollectPhases(s, r, cfg, count);
  }

  lemma CollectPhases(s: Tracker, r: FrameRun, cfg: Config, count: int)
    requires Known(s.heap, s.tracked) && Known(s.heap, s.lost)
    requires forall x :: x in r.pool <==> (x in s.tracked && s.heap[x].activated) || x in s.lost
    requires forall x :: x in r.unconfirmed <==> x in s.tracked && !s.heap[x].activated
    requires r.predicted.Keys == s.heap.Keys
    requires forall x :: x in s.heap ==> r.predicted[x] == s.heap[x].(kf := r.predicted[x].kf)
    requires ConfirmedOutcome(r.predicted, r.pool, s.frame + 1, r.confirmed)
    requires TentativeOutcome(r.confirmed.heap, r.unconfirmed, s.frame + 1, r.tentative)
    requires BirthsOutcome(r.tentative.heap, r.tentative.spare, s.frame + 1, count, r.births)
    requires r.overdue == Overdue(r.births.heap, s.lost, s.frame + 1, cfg.maxLost)
    requires Distinct(r.overdue) && SortedBy(r.overdue, LastSeen(s.heap))
    requires Known(r.births.heap, r.overdue) && r.settled == MarkAll(r.births.heap, r.overdue, Removed)
    requires r.activated == r.confirmed.activated + r.tentative.activated + r.births.born
    ensures Phases(s, r, cfg, count)
  {
    hide ConfirmedOutcome, TentativeOutcome, BirthsOutcome, SortedBy;
  }

  lemma InvBasics(s: Tracker, limit: nat, count: int)
    requires Inv(s, limit, count)
    ensures Distinct(s.tracked) && Distinct(s.lost) && SortedBy(s.lost, LastSeen(s.heap))
    ensures forall x :: x in s.heap ==> x <= count
  {}

  /** Before the first round: who is in the pool, and that nobody has been matched yet. */
  ghost predicate PoolReady(s: Tracker, r: FrameRun, fr: Frame)
    requires Known(s.heap, s.tracked) && Known(s.heap, s.lost)
  {
    && (forall x :: x in r.pool <==> (x in s.tracked && s.heap[x].activated) || x in s.lost)
    && (forall x :: x in r.unconfirmed <==> x in s.tracked && !s.heap[x].activated)
    && (forall x :: x in r.unconfirmed ==> x !in r.pool)
    && Distinct(r.pool) && Distinct(r.unconfirmed)
    && r.predicted.Keys == s.heap.Keys
    && (forall x :: x in s.heap ==> r.predicted[x] == s.heap[x].(kf := r.predicted[x].kf))
    && (forall x :: x in s.tracked || x in s.lost ==> x in r.predicted && r.predicted[x].frame < s.frame + 1)
    && Clean(r.predicted, Listed(s), s.frame + 1, UpTo(|fr.scores|), |fr.scores|)
  }

  lemma PoolPhase(s: Tracker, fr: Frame, limit: nat, count: int, r: FrameRun)
    requires Inv(s, limit, count)
    requires r.unconfirmed == WithActivation(s.heap, s.tracked, false)
    requires r.pool == Joint(WithActivation(s.heap, s.tracked, true), s.lost)
    requires r.predicted == PredictAll(s.heap, r.pool)
    ensures PoolReady(s, r, fr)
  {
    hide PredictAll, Clean, HoldsApart, WithActivation, Joint;
    PredictFacts(s.heap, r.pool);
    BeforePhases(s, r, limit, count);
    MatchedEarlier(s, r.predicted, limit, count, |fr.scores|);
  }

  lemma ConfirmedPhase(s: Tracker, fr: Frame, cfg: Config, limit: nat, count: int, r: FrameRun) returns (free: set<int>)
    requires ConfigOk(cfg) && Aligned(fr) && Inv(s, limit, count)
    requires RanAs(s, fr, cfg, count, r)
    ensures ConfirmedDone(s, r, fr, free)
  {
    hide PredictAll, MatchConfirmed, MatchTentative, Spawn, MarkAll, WithActivation, Joint, High, Low;
    hide ConfirmedDone, ConfigOk, HoldsApart, Clean, ConfirmedOutcome;
    PoolPhase(s, fr, limit, count, r);
    hide Inv;
    free := PoolMatched(s, fr, cfg, r);
  }

  lemma PoolMatched(s: Tracker, fr: Frame, cfg: Config, r: FrameRun) returns (free: set<int>)
    requires ConfigOk(cfg) && Aligned(fr) && Known(s.heap, s.tracked) && Known(s.heap, s.lost)
    requires PoolReady(s, r, fr)
    requires r.high == High(fr, cfg, |fr.scores|) && r.low == Low(fr, cfg, |fr.scores|)
    requires Known(r.predicted, r.pool)
    requires r.confirmed == MatchConfirmed(r.predicted, r.pool, fr, r.high, r.low, s.frame + 1, cfg)
    ensures ConfirmedDone(s, r, fr, free)
  {
    hide MatchConfirmed, ConfirmedDone, ConfigOk, Clean, ConfirmedOutcome;
    free := ConfirmedFacts(r.predicted, r.pool, fr, r.high, r.low, s.frame + 1, cfg,
                           Listed(s), UpTo(|fr.scores|), |fr.scores|);
    CollectConfirmed(s, r, fr, free);
  }

  lemma CollectConfirmed(s: Tracker, r: FrameRun, fr: Frame, free: set<int>)
    requires Known(s.heap, s.tracked) && Known(s.heap, s.lost)
    requires forall x :: x in r.pool <==> (x in s.tracked && s.heap[x].activated) || x in s.lost
    requires forall x :: x in r.unconfirmed <==> x in s.tracked && !s.heap[x].activated
    requires Distinct(r.unconfirmed)
    requires r.predicted.Keys == s.heap.Keys
    requires forall x :: x in s.heap ==> r.predicted[x] == s.heap[x].(kf := r.predicted[x].kf)
    requires forall x :: x in r.unconfirmed ==> x !in r.pool
    requires forall x :: x in s.tracked || x in s.lost ==> x in r.predicted && r.predicted[x].frame < s.frame + 1
    requires r.confirmed.heap.Keys == r.predicted.Keys
    requires ConfirmedOutcome(r.predicted, r.pool, s.frame + 1, r.confirmed)
    requires Clean(r.confirmed.heap, Listed(s), s.frame + 1, free, |fr.scores|)
    requires forall i: nat :: i in r.confirmed.left ==> i in free && i in r.high
    requires forall i: nat :: i in r.high ==> i < |fr.scores|
    requires InFrame(fr, r.confirmed.left)
    ensures ConfirmedDone(s, r, fr, free)
  {
    hide ConfirmedOutcome, Clean;
  }

  lemma UnconfirmedUntouched(h: Heap, pool: seq<int>, f: int, c: Confirmed, ids: seq<int>)
    requires ConfirmedOutcome(h, pool, f, c)
    requires forall x :: x in ids ==> x in h && x !in pool
    ensures forall x :: x in ids ==> x in c.heap && c.heap[x] == h[x]
    ensures DistinctNats(c.left)
  {}

  lemma SpareDistinct(h: Heap, ids: seq<int>, f: int, t: Tentative)
    requires TentativeOutcome(h, ids, f, t)
    ensures DistinctNats(t.spare)
  {}

  lemma TrackedSettles(s: Tracker, r: FrameRun, cfg: Config, limit: nat, count: int, x: int)
    requires Inv(s, limit, count) && Phases(s, r, cfg, count) && x in s.tracked
    ensures x in r.settled && WasTracked(s.heap[x], r.settled[x], s.frame + 1, x in r.confirmed.lost)
  {
    hide HoldsApart, SortedBy;
    assert x !in s.lost && x in s.heap && TrackedOk(s.heap[x], s.frame);
    if s.heap[x].activated {
      assert x in r.pool && x !in r.unconfirmed;
    } else {
      assert x !in r.pool && x in r.unconfirmed;
    }
  }

  lemma LostSettles(s: Tracker, r: FrameRun, cfg: Config, limit: nat, count: int, x: int)
    requires Inv(s, limit, count) && Phases(s, r, cfg, count) && x in s.lost
    ensures x in r.settled && WasLost(s.heap[x], r.settled[x], s.frame + 1, cfg.maxLost)
    ensures x in r.overdue <==> s.frame + 1 - r.settled[x].frame > cfg.maxLost
    ensures x in r.confirmed.refind <==> r.settled[x].frame == s.frame + 1
  {
    hide HoldsApart, SortedBy;
    assert x !in s.tracked && x in s.heap && LostOk(s.heap[x], s.frame);
    assert x in r.pool && x !in r.unconfirmed;
  }

  lemma ActivatedSettles(s: Tracker, r: FrameRun, cfg: Config, limit: nat, count: int, x: int)
    requires Inv(s, limit, count) && Phases(s, r, cfg, count) && x in r.activated
    ensures x in r.settled && r.settled[x].frame == s.frame + 1 && r.settled[x].state == Tracked
    ensures x in s.tracked || x in r.births.born
  {
    hide HoldsApart, SortedBy;
    if x in r.confirmed.activated {
      assert x in r.pool && x !in r.unconfirmed;
    } else if x in r.tentative.activated {
      assert x in r.unconfirmed && x !in r.pool;
    }
  }

  lemma NewlyLostSettles(s: Tracker, r: FrameRun, cfg: Config, limit: nat, count: int, x: int)
    requires Inv(s, limit, count) && Phases(s, r, cfg, count) && x in r.confirmed.lost
    ensures x in r.settled && x in s.tracked && r.settled[x].frame != s.frame + 1
  {
    hide HoldsApart, SortedBy;
    assert x in r.pool && x !in r.unconfirmed;
    assert x in s.lost ==> LostOk(s.heap[x], s.frame);
  }

  lemma BornSettles(s: Tracker, r: FrameRun, cfg: Config, limit: nat, count: int, x: int)
    requires Inv(s, limit, count) && Phases(s, r, cfg, count) && x in r.births.born
    ensures x in r.settled && TrackedOk(r.settled[x], s.frame + 1) && x in r.activated
    ensures r.settled[x].activated == (s.frame + 1 == 1)
  {
    hide HoldsApart, SortedBy;
    assert x !in s.lost;
  }

  lemma HeapSettles(s: Tracker, r: FrameRun, cfg: Config, limit: nat, count: int)
    requires Inv(s, limit, count) && Phases(s, r, cfg, count)
    ensures forall x :: x in r.settled ==> 1 <= x <= r.births.count
    ensures r.births.count >= count && forall x :: x in r.births.born <==> count < x <= r.births.count
    ensures forall x :: x in r.confirmed.refind ==> x in r.settled && x in s.lost
    ensures Distinct(r.confirmed.lost)
    ensures forall x :: x in r.overdue ==> x in s.lost
    ensures Distinct(r.overdue) && SortedBy(r.overdue, LastSeen(s.heap))
  {
    hide HoldsApart, SortedBy, LostOk, TrackedOk;
    forall x | x in r.confirmed.refind ensures x in r.settled && x in s.lost {
      assert x in s.tracked ==> TrackedOk(s.heap[x], s.frame);
      RefindWasLost(s, r, cfg, limit, count, x);
    }
  }

  lemma RefindWasLost(s: Tracker, r: FrameRun, cfg: Config, limit: nat, count: int, x: int)
    requires Inv(s, limit, count) && Phases(s, r, cfg, count) && x in r.confirmed.refind
    ensures x in r.settled && x in s.lost
  {
    hide HoldsApart, SortedBy;
    assert x in s.tracked ==> TrackedOk(s.heap[x], s.frame);
  }

  lemma FrameSettles(s: Tracker, fr: Frame, cfg: Config, limit: nat, count: int)
    requires ConfigOk(cfg) && Aligned(fr) && Inv(s, limit, count)
    ensures Settled(s, Ran(s, fr, cfg, count), cfg, count, |fr.scores|)
  {
    var r := Ran(s, fr, cfg, count);
    FramePhases(s, fr, cfg, limit, count);
    PhasesSettle(s, r, cfg, limit, count, |fr.scores|);
  }

  lemma PhasesSettle(s: Tracker, r: FrameRun, cfg: Config, limit: nat, count: int, n: nat)
    requires Inv(s, limit, count) && Phases(s, r, cfg, count)
    requires Clean(r.settled, Everyone(s, r), s.frame + 1, {}, n)
    ensures Settled(s, r, cfg, count, n)
  {
    hide Phases, Clean, HoldsApart, SortedBy, WasTracked, WasLost, LostOk, LastSeen;
    HeapSettles(s, r, cfg, limit, count);
    forall x | x in s.tracked
      ensures x in r.settled && WasTracked(s.heap[x], r.settled[x], s.frame + 1, x in r.confirmed.lost)
    {
      TrackedSettles(s, r, cfg, limit, count, x);
    }
    forall x | x in s.lost
      ensures x in r.settled && WasLost(s.heap[x], r.settled[x], s.frame + 1, cfg.maxLost)
      ensures x in r.overdue <==> s.frame + 1 - r.settled[x].frame > cfg.maxLost
      ensures x in r.confirmed.refind <==> r.settled[x].frame == s.frame + 1
    {
      LostSettles(s, r, cfg, limit, count, x);
    }
    forall x | x in r.activated
      ensures x in r.settled && r.settled[x].frame == s.frame + 1 && r.settled[x].state == Tracked
      ensures x in s.tracked || x in r.births.born
    {
      ActivatedSettles(s, r, cfg, limit, count, x);
    }
    forall x | x in r.confirmed.lost
      ensures x in r.settled && x in s.tracked && r.settled[x].frame != s.frame + 1
    {
      NewlyLostSettles(s, r, cfg, limit, count, x);
    }
    forall x | x in r.births.born
      ensures x in r.settled && TrackedOk(r.settled[x], s.frame + 1) && x in r.activated
      ensures r.settled[x].activated == (s.frame + 1 == 1)
    {
      BornSettles(s, r, cfg, limit, count, x);
    }
  }

  // ---- the lists at the end of a frame --------------------------------------

  lemma LostStays(s: Tracker, r: FrameRun, cfg: Config, limit: nat, count: int, n: nat, x: int)
    requires Inv(s, limit, count) && Settled(s, r, cfg, count, n)
    requires (x in s.lost && x in r.settled && r.settled[x].frame != s.frame + 1) || x in r.confirmed.lost
    ensures x in r.settled && LostOk(r.settled[x], s.frame + 1)
  {
    hide Clean, SortedBy, HoldsApart;
    if x in r.confirmed.lost {
      assert WasTracked(s.heap[x], r.settled[x], s.frame + 1, true);
      assert TrackedOk(s.heap[x], s.frame);
    } else {
      assert WasLost(s.heap[x], r.settled[x], s.frame + 1, cfg.maxLost);
      assert LostOk(s.heap[x], s.frame);
    }
  }

  lemma MergeLists(s: Tracker, r: FrameRun, cfg: Config, limit: nat, count: int, n: nat, tracked: seq<int>,
                   lost: seq<int>)
    requires Inv(s, limit, count) && Settled(s, r, cfg, count, n)
    requires tracked == Joint(Joint(InState(r.settled, s.tracked, Tracked), r.activated), r.confirmed.refind)
    requires lost == Sub(Sub(s.lost, tracked) + r.confirmed.lost, s.removed)
    ensures Distinct(tracked) && Distinct(lost)
    ensures forall x :: x in tracked ==> x in r.settled && TrackedOk(r.settled[x], s.frame + 1)
    ensures forall x :: x in tracked ==> x in Everyone(s, r) && r.settled[x].frame == s.frame + 1
    ensures forall x :: x in lost ==>
      && x in r.settled && r.settled[x].frame != s.frame + 1
      && ((x in s.lost && x !in s.removed) || x in r.confirmed.lost)
  {
    hide Inv, Settled, InState, Sub;
    MergeDistinct(s, r, cfg, limit, count, n);
    forall x | x in tracked
      ensures x in r.settled && TrackedOk(r.settled[x], s.frame + 1) && x in Everyone(s, r)
    {
      MergedTracked(s, r, cfg, limit, count, n, x);
    }
    forall x | x in lost
      ensures x in r.settled && r.settled[x].frame != s.frame + 1
    {
      MergedLost(s, r, cfg, limit, count, n, tracked, x);
    }
  }

  lemma MergeDistinct(s: Tracker, r: FrameRun, cfg: Config, limit: nat, count: int, n: nat)
    requires Inv(s, limit, count) && Settled(s, r, cfg, count, n)
    ensures Distinct(s.tracked)
  {}

  lemma MergedTracked(s: Tracker, r: FrameRun, cfg: Config, limit: nat, count: int, n: nat, x: int)
    requires Inv(s, limit, count) && Settled(s, r, cfg, count, n)
    requires (x in s.tracked && x in r.settled && r.settled[x].state == Tracked)
          || x in r.activated || x in r.confirmed.refind
    ensures x in r.settled && TrackedOk(r.settled[x], s.frame + 1) && x in Everyone(s, r)
  {
    hide Clean, SortedBy, HoldsApart;
    if x in r.births.born {
    } else if x in s.tracked {
      assert WasTracked(s.heap[x], r.settled[x], s.frame + 1, x in r.confirmed.lost);
    } else {
      assert x in s.lost;
      assert WasLost(s.heap[x], r.settled[x], s.frame + 1, cfg.maxLost);
    }
  }

  lemma MergedLost(s: Tracker, r: FrameRun, cfg: Config, limit: nat, count: int, n: nat, tracked: seq<int>, x: int)
    requires Inv(s, limit, count) && Settled(s, r, cfg, count, n)
    requires (x in s.lost && x !in tracked) || x in r.confirmed.lost
    requires forall y :: y in r.confirmed.refind ==> y in tracked
    ensures x in r.settled && r.settled[x].frame != s.frame + 1
  {
    hide Clean, SortedBy, HoldsApart, WasTracked, WasLost;
  }

  lemma NewHoldsApart(s: Tracker, r: FrameRun, cfg: Config, limit: nat, count: int, n: nat, tracked: seq<int>,
                      lost: seq<int>)
    requires Inv(s, limit, count) && Settled(s, r, cfg, count, n) && n <= limit
    requires forall x :: x in tracked ==> x in r.settled && r.settled[x].frame == s.frame + 1 && x in Everyone(s, r)
    requires forall x :: x in lost ==>
      x in r.settled && r.settled[x].frame != s.frame + 1 && (x in s.tracked || x in s.lost)
    ensures HoldsApart(r.settled, tracked, lost, limit)
  {
    hide SortedBy, Inv, Settled;
    var h := r.settled;
    ApartAndClean(s, r, cfg, limit, count, n);
    forall x | x in lost
      ensures x in s.heap && h[x].frame == s.heap[x].frame && h[x].det == s.heap[x].det && h[x].frame <= s.frame
    {
      UnmatchedKeeps(s, r, cfg, limit, count, n, x);
    }
  }

  lemma ApartAndClean(s: Tracker, r: FrameRun, cfg: Config, limit: nat, count: int, n: nat)
    requires Inv(s, limit, count) && Settled(s, r, cfg, count, n)
    ensures HoldsApart(s.heap, s.tracked, s.lost, limit)
    ensures Clean(r.settled, Everyone(s, r), s.frame + 1, {}, n)
  {
    hide HoldsApart, Clean, SortedBy;
  }

  lemma UnmatchedKeeps(s: Tracker, r: FrameRun, cfg: Config, limit: nat, count: int, n: nat, x: int)
    requires Inv(s, limit, count) && Settled(s, r, cfg, count, n)
    requires x in r.settled && r.settled[x].frame != s.frame + 1 && (x in s.tracked || x in s.lost)
    ensures x in s.heap && r.settled[x].frame == s.heap[x].frame && r.settled[x].det == s.heap[x].det
    ensures r.settled[x].frame <= s.frame
  {
    hide HoldsApart, SortedBy, Clean;
    if x in s.tracked {
      assert WasTracked(s.heap[x], r.settled[x], s.frame + 1, x in r.confirmed.lost);
      assert TrackedOk(s.heap[x], s.frame);
    } else {
      assert WasLost(s.heap[x], r.settled[x], s.frame + 1, cfg.maxLost);
      assert LostOk(s.heap[x], s.frame);
    }
  }

  /** The lost list stays ordered by the frame a track was last matched in. */
  lemma LostSorted(s: Tracker, r: FrameRun, cfg: Config, limit: nat, count: int, n: nat, tracked: seq<int>,
                   lost: seq<int>)
    requires Inv(s, limit, count) && Settled(s, r, cfg, count, n)
    requires forall x :: x in s.lost && x !in tracked ==> x in r.settled && r.settled[x].frame != s.frame + 1
    requires lost == Sub(Sub(s.lost, tracked) + r.confirmed.lost, s.removed)
    ensures SortedBy(lost, LastSeen(r.settled))
  {
    hide Settled, HoldsApart, LostOk, TrackedOk, SortedBy;
    var kept := Sub(s.lost, tracked);
    SubSorted(s.lost, tracked, LastSeen(s.heap));
    AllSorted(s, r, cfg, limit, count, n, kept);
    SubSorted(kept + r.confirmed.lost, s.removed, LastSeen(r.settled));
  }

  lemma AllSorted(s: Tracker, r: FrameRun, cfg: Config, limit: nat, count: int, n: nat, kept: seq<int>)
    requires Inv(s, limit, count) && Settled(s, r, cfg, count, n)
    requires Distinct(kept) && SortedBy(kept, LastSeen(s.heap))
    requires forall x :: x in kept ==> x in s.lost && x in r.settled && r.settled[x].frame != s.frame + 1
    ensures Distinct(kept + r.confirmed.lost) && SortedBy(kept + r.confirmed.lost, LastSeen(r.settled))
  {
    hide HoldsApart, Clean;
    var newly := r.confirmed.lost;
    forall k | 0 <= k < |kept|
      ensures LastSeen(r.settled)(kept[k]) == LastSeen(s.heap)(kept[k]) && LastSeen(s.heap)(kept[k]) < s.frame
    {
      var x := kept[k];
      assert x in kept;
      UnmatchedKeeps(s, r, cfg, limit, count, n, x);
      assert LostOk(s.heap[x], s.frame);
    }
    forall k | 0 <= k < |newly| ensures LastSeen(r.settled)(newly[k]) == s.frame && newly[k] !in kept {
      var x := newly[k];
      assert x in newly;
      UnmatchedKeeps(s, r, cfg, limit, count, n, x);
      assert TrackedOk(s.heap[x], s.frame);
    }
    SortedConcat(kept, newly, LastSeen(r.settled), s.frame);
  }

  lemma SortedConcat(a: seq<int>, b: seq<int>, key: int -> int, bound: int)
    requires Distinct(a) && Distinct(b) && SortedBy(a, key)
    requires forall k :: 0 <= k < |a| ==> key(a[k]) < bound
    requires forall k :: 0 <= k < |b| ==> key(b[k]) == bound && b[k] !in a
    ensures Distinct(a + b) && SortedBy(a + b, key)
  {}

  /** `BYTETracker.update` keeps the invariant, for any frame of at most `limit` detections. */
  lemma StepKeepsInv(s: Tracker, fr: Frame, cfg: Config, limit: nat, count: int)
    requires ConfigOk(cfg) && Aligned(fr) && Inv(s, limit, count)
    requires |fr.scores| <= limit
    ensures Inv(Step(s, fr, cfg, count).0, limit, Step(s, fr, cfg, count).1)
    ensures Step(s, fr, cfg, count).1 >= count
    ensures Step(s, fr, cfg, count).0.frame == s.frame + 1
  {
    hide Settled, ConfigOk, Ran, Merge;
    var r := Ran(s, fr, cfg, count);
    hide Inv;
    FrameSettles(s, fr, cfg, limit, count);
    MergeKeepsInv(s, r, cfg, limit, count, |fr.scores|);
    SettledCount(s, r, cfg, count, |fr.scores|);
  }

  lemma SettledCount(s: Tracker, r: FrameRun, cfg: Config, count: int, n: nat)
    requires Known(s.heap, s.tracked) && Known(s.heap, s.lost) && Settled(s, r, cfg, count, n)
    ensures r.births.count >= count
  {}

  lemma SettledKnown(s: Tracker, r: FrameRun, cfg: Config, limit: nat, count: int, n: nat)
    requires Inv(s, limit, count) && Settled(s, r, cfg, count, n)
    ensures Known(r.settled, s.tracked) && Known(r.settled, s.lost)
    ensures Known(r.settled, r.activated) && Known(r.settled, r.confirmed.refind) && Known(r.settled, r.confirmed.lost)
    ensures forall x :: x in r.settled ==> 1 <= x <= r.births.count
    ensures r.births.count >= 0 && s.frame >= 0
    ensures forall x :: x in r.overdue ==> x in r.settled
    ensures forall x :: x in r.confirmed.lost ==> x in s.tracked
    ensures forall x :: x in s.lost && r.settled[x].frame == s.frame + 1 ==> x in r.confirmed.refind
  {
    hide Clean, SortedBy, HoldsApart;
  }

  lemma KeptSorted(h: Heap, tracked: seq<int>, lost: seq<int>)
    requires Known(h, tracked) && Known(h, lost) && SortedBy(lost, LastSeen(h))
    ensures SortedBy(WithoutDuplicates(h, tracked, lost).1, LastSeen(h))
  {
    FilterSorted(lost, KeepsLost(h, tracked), LastSeen(h));
  }

  lemma CollectInv(s: Tracker, limit: nat, count: int)
    requires s.frame >= 0 && count >= 0
    requires Known(s.heap, s.tracked) && Known(s.heap, s.lost)
    requires Distinct(s.tracked) && Distinct(s.lost) && forall x :: x in s.tracked ==> x !in s.lost
    requires forall x :: x in s.heap ==> 1 <= x <= count
    requires forall x :: x in s.tracked ==> TrackedOk(s.heap[x], s.frame)
    requires forall x :: x in s.lost ==> LostOk(s.heap[x], s.frame)
    requires HoldsApart(s.heap, s.tracked, s.lost, limit) && SortedBy(s.lost, LastSeen(s.heap))
    requires |s.removed| <= REMOVED_KEPT
    ensures Inv(s, limit, count)
  {
    hide HoldsApart, SortedBy, TrackedOk, LostOk;
  }

  lemma LastFew(s: seq<int>, n: nat)
    ensures |LastOf(s, n)| <= n
  {}

  lemma MergeKeepsInv(s: Tracker, r: FrameRun, cfg: Config, limit: nat, count: int, n: nat)
    requires Inv(s, limit, count) && Settled(s, r, cfg, count, n) && n <= limit
    requires Known(r.settled, s.tracked) && Known(r.settled, s.lost)
    requires Known(r.settled, r.activated) && Known(r.settled, r.confirmed.refind) && Known(r.settled, r.confirmed.lost)
    ensures Inv(Merge(s, r.settled, s.frame + 1, r.activated, r.confirmed.refind, r.confirmed.lost,
                      r.tentative.gone + r.overdue),
                limit, r.births.count)
  {
    hide Inv, Settled, LostOk, TrackedOk, HoldsApart, SortedBy, InState, Sub, WithoutDuplicates, Joint, LastOf;
    hide DropsTracked, DropsLost, Distinct;
    var h, f := r.settled, s.frame + 1;
    SettledKnown(s, r, cfg, limit, count, n);
    var tracked := Joint(Joint(InState(h, s.tracked, Tracked), r.activated), r.confirmed.refind);
    var lost := Sub(Sub(s.lost, tracked) + r.confirmed.lost, s.removed);
    MergeLists(s, r, cfg, limit, count, n, tracked, lost);
    var removed := LastOf(s.removed + (r.tentative.gone + r.overdue), REMOVED_KEPT);
    LastFew(s.removed + (r.tentative.gone + r.overdue), REMOVED_KEPT);
    forall x | x in lost ensures LostOk(h[x], f) {
      LostStays(s, r, cfg, limit, count, n, x);
    }
    var (keptTracked, keptLost) := WithoutDuplicates(h, tracked, lost);
    NewHoldsApart(s, r, cfg, limit, count, n, keptTracked, keptLost);
    LostSorted(s, r, cfg, limit, count, n, tracked, lost);
    KeptSorted(h, tracked, lost);
    CollectInv(Tracker(h, keptTracked, keptLost, removed, f), limit, r.births.count);
  }
}
