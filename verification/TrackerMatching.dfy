/** Which detections a frame gives to which tracks: within the gates, and leaving nothing that still fits. */
module TrackerMatching {
  import opened Assignment
  import opened Geometry
  import opened TrackLists
  import opened TrackerModel
  import opened TrackerRounds
  import opened TrackerPhases
  import opened TrackerInvariant
  import opened TrackerRuns
  import K = Kalman

  /** How far a track's box is from a detection. */
  function Gap(t: Track, fr: Frame, i: nat): real
    requires i < |fr.boxes|
  {
    1.0 - Iou(TrackBox(t), fr.boxes[i])
  }

  ghost predicate Holds(h: Heap, x: int, f: int, i: int) { x in h && h[x].frame == f && h[x].det == i }

  // ---- one round ------------------------------------------------------------

  /** Matches are within the gate, what is left over is beyond it, and a detection not left over is held. */
  ghost predicate Tight(h: Heap, ids: seq<int>, fr: Frame, dets: seq<nat>, thresh: real, f: int, s: Stage)
    requires InFrame(fr, dets)
  {
    && s.heap.Keys == h.Keys
    && (forall x :: x in ids && x !in s.rows ==> x in h && Within(h[x], s.heap[x].det, fr, dets, thresh))
    && (forall x, i :: x in s.rows && i in s.cols ==> x in h && Beyond(h[x], i, fr, thresh))
    && (forall i: nat :: i in dets && i !in s.cols ==> exists x :: x in ids && x !in s.rows && Holds(s.heap, x, f, i))
  }

  ghost predicate Within(t: Track, i: int, fr: Frame, dets: seq<nat>, thresh: real)
    requires InFrame(fr, dets)
  {
    0 <= i < |fr.boxes| && i in dets && Gap(t, fr, i) <= thresh
  }

  ghost predicate Beyond(t: Track, i: int, fr: Frame, thresh: real) { 0 <= i < |fr.boxes| && Gap(t, fr, i) > thresh }

  lemma CostIsGap(h: Heap, ids: seq<int>, fr: Frame, dets: seq<nat>, r: nat, q: nat)
    requires Known(h, ids) && InFrame(fr, dets) && r < |ids| && q < |dets|
    ensures ids[r] in h && dets[q] < |fr.boxes|
    ensures Distances(h, ids, fr, dets).at[r][q] == Gap(h[ids[r]], fr, dets[q])
  {
    hide Iou, TrackBox;
    var x := ids[r];
    assert x in ids;
  }

  lemma RoundIsTight(h: Heap, ids: seq<int>, fr: Frame, dets: seq<nat>, thresh: real, f: int, cfg: Config, direct: bool)
    requires ConfigOk(cfg) && Known(h, ids) && InFrame(fr, dets) && Distinct(ids) && DistinctNats(dets)
    ensures Tight(h, ids, fr, dets, thresh, f, MatchRound(h, ids, fr, dets, thresh, f, cfg, direct))
  {
    hide LinearAssignment, Distances, Rematched, ApplyMatches, Gap, Within, Beyond;
    var c, m := Distances(h, ids, fr, dets), Associate(h, ids, fr, dets, thresh, cfg);
    LinearAssignmentSound(c, thresh, cfg.solver);
    MatchesApplied(h, ids, fr, dets, m.matches, f, cfg, direct);
    var r := ApplyMatches(h, ids, fr, dets, m.matches, f, cfg, direct);
    var s := MatchRound(h, ids, fr, dets, thresh, f, cfg, direct);
    hide Applied;
    forall x | x in ids && x !in s.rows ensures x in h && Within(h[x], s.heap[x].det, fr, dets, thresh) {
      var k := MatchOf(h, ids, fr, dets, m, f, cfg, direct, r, x);
      MatchWithin(h, ids, fr, dets, m, thresh, f, cfg, direct, k);
    }
    forall x, i | x in s.rows && i in s.cols ensures x in h && Beyond(h[x], i, fr, thresh) {
      LeftoversBeyond(h, ids, fr, dets, m, thresh, x, i);
    }
    forall i: nat | i in dets && i !in s.cols ensures exists x :: x in ids && x !in s.rows && Holds(s.heap, x, f, i) {
      var x := TakenIsHeld(h, ids, fr, dets, m, f, cfg, direct, r, i);
    }
  }

  lemma MatchWithin(h: Heap, ids: seq<int>, fr: Frame, dets: seq<nat>, m: Matching, thresh: real, f: int, cfg: Config,
                    direct: bool, k: nat)
    requires ConfigOk(cfg) && Known(h, ids) && InFrame(fr, dets) && Result(m, |ids|, |dets|) && k < |m.matches|
    requires IsGatedMatching(Distances(h, ids, fr, dets), thresh, m.matches)
    ensures var x, i := ids[m.matches[k].0], dets[m.matches[k].1];
      x in h && i < |fr.boxes| && Within(h[x], Rematched(h[x], fr, i, f, cfg, direct).det, fr, dets, thresh)
  {
    hide Distances, Gap, K.Update;
    CostIsGap(h, ids, fr, dets, m.matches[k].0, m.matches[k].1);
  }

  lemma LeftoversBeyond(h: Heap, ids: seq<int>, fr: Frame, dets: seq<nat>, m: Matching, thresh: real, x: int, i: nat)
    requires Known(h, ids) && InFrame(fr, dets) && Result(m, |ids|, |dets|)
    requires forall r, q :: r in m.rows && q in m.cols ==>
      r < |ids| && q < |dets| && Distances(h, ids, fr, dets).at[r][q] > thresh
    requires x in At(ids, m.rows) && i in At(dets, m.cols)
    ensures x in h && Beyond(h[x], i, fr, thresh)
  {
    hide Distances, Gap;
    var j :| 0 <= j < |m.rows| && At(ids, m.rows)[j] == x;
    var k :| 0 <= k < |m.cols| && At(dets, m.cols)[k] == i;
    assert m.rows[j] in m.rows && m.cols[k] in m.cols;
    CostIsGap(h, ids, fr, dets, m.rows[j], m.cols[k]);
  }

  lemma LeftIsListed(dets: seq<nat>, m: Matching, q: nat)
    requires q in m.cols && q < |dets| && forall k :: 0 <= k < |m.cols| ==> m.cols[k] < |dets|
    ensures dets[q] in At(dets, m.cols)
  {
    var j :| 0 <= j < |m.cols| && m.cols[j] == q;
    assert At(dets, m.cols)[j] == dets[q];
  }

  /** A detection not left over is held by the track it was matched to. */
  lemma TakenIsHeld(h: Heap, ids: seq<int>, fr: Frame, dets: seq<nat>, m: Matching, f: int, cfg: Config, direct: bool,
                    r: Round, i: nat) returns (x: int)
    requires ConfigOk(cfg) && Known(h, ids) && InFrame(fr, dets) && Distinct(ids) && Result(m, |ids|, |dets|)
    requires forall p: nat :: p in m.rows <==> p < |ids| && !RowUsed(m.matches, p)
    requires forall q: nat :: q in m.cols <==> q < |dets| && !ColUsed(m.matches, q)
    requires Applied(h, ids, fr, dets, m.matches, f, cfg, direct, r) && i in dets && i !in At(dets, m.cols)
    ensures x in ids && x !in At(ids, m.rows) && Holds(r.heap, x, f, i)
  {
    hide K.Update;
    var q: nat :| q < |dets| && dets[q] == i;
    if q in m.cols {
      LeftIsListed(dets, m, q);
    }
    var k :| 0 <= k < |m.matches| && m.matches[k].1 == q;
    x := ids[m.matches[k].0];
    assert x in ids && HitBy(ids, m.matches, x, k);
    RowsUnmatched(ids, m, x);
  }

  // ---- confirmed and lost tracks --------------------------------------------

  /** What both rounds over the pool leave: every match within its gate, nothing left that still fits, and
      every strong detection not left over held. */
  ghost predicate PoolTight(h: Heap, pool: seq<int>, fr: Frame, high: seq<nat>, low: seq<nat>, f: int, cfg: Config,
                            c: Confirmed)
    requires InFrame(fr, high) && InFrame(fr, low)
  {
    && c.heap.Keys == h.Keys
    && (forall x :: x in pool ==> x in h && TightAt(h[x], c.heap[x], fr, high, low, f, cfg, c.left))
    && (forall x, i: nat ::
          (x in pool && x in h && h[x].state == Tracked && c.heap[x].frame != f && i in low
           && !HeldAmong(c.heap, pool, f, i)) ==> Beyond(h[x], i, fr, SECOND_THRESH))
    && (forall i: nat :: i in high && i !in c.left ==> HeldAmong(c.heap, pool, f, i))
  }

  /** The track before and after: matched within a gate, or every strong detection left is beyond it. */
  ghost predicate TightAt(t: Track, u: Track, fr: Frame, high: seq<nat>, low: seq<nat>, f: int, cfg: Config,
                          left: seq<nat>)
    requires InFrame(fr, high) && InFrame(fr, low)
  {
    && (u.frame == f ==>
          || Within(t, u.det, fr, high, cfg.matchThresh)
          || (t.state == Tracked && Within(t, u.det, fr, low, SECOND_THRESH)))
    && (!(u.frame == f && u.det in high) ==> forall i :: i in left ==> Beyond(t, i, fr, cfg.matchThresh))
  }

  ghost predicate HeldAmong(h: Heap, ids: seq<int>, f: int, i: int) { exists x :: x in ids && Holds(h, x, f, i) }

  ghost predicate Apart(high: seq<nat>, low: seq<nat>) { forall i: nat :: i in low ==> i !in high }

  /** What became of one track of the pool: matched in the first round, in the second, or in neither. */
  ghost predicate Fate(h: Heap, fr: Frame, high: seq<nat>, low: seq<nat>, f: int, cfg: Config,
                       s1: Stage, rest: seq<int>, s2: Stage, c: Confirmed, x: int)
    requires InFrame(fr, high) && InFrame(fr, low)
  {
    && x in h && x in c.heap && x in s1.heap && x in s2.heap
    && (c.heap[x].frame == f ==>
          || (x !in s1.rows && Within(h[x], c.heap[x].det, fr, high, cfg.matchThresh))
          || (x in s1.rows && h[x].state == Tracked && Within(h[x], c.heap[x].det, fr, low, SECOND_THRESH)))
    && (c.heap[x].frame != f ==> x in s1.rows && (h[x].state == Tracked ==> x in s2.rows && s1.heap[x] == h[x]))
    && (x !in s1.rows ==> c.heap[x].frame == f && c.heap[x].det == s1.heap[x].det && c.heap[x].det in high)
    && (x in rest && x !in s2.rows ==> c.heap[x].frame == f && c.heap[x].det == s2.heap[x].det)
  }

  lemma FateOf(h: Heap, pool: seq<int>, fr: Frame, high: seq<nat>, low: seq<nat>, f: int, cfg: Config,
               s1: Stage, rest: seq<int>, s2: Stage, newlyLost: seq<int>, c: Confirmed, x: int)
    requires InFrame(fr, high) && InFrame(fr, low) && x in pool
    requires RanTwice(h, pool, high, low, f, s1, rest, s2, newlyLost, c)
    requires Tight(h, pool, fr, high, cfg.matchThresh, f, s1) && Tight(s1.heap, rest, fr, low, SECOND_THRESH, f, s2)
    ensures Fate(h, fr, high, low, f, cfg, s1, rest, s2, c, x)
  {
    hide Within, Beyond;
  }

  lemma StrongAreHeld(h: Heap, pool: seq<int>, fr: Frame, high: seq<nat>, low: seq<nat>, f: int, cfg: Config,
                      s1: Stage, rest: seq<int>, s2: Stage, c: Confirmed, i: nat)
    requires InFrame(fr, high) && InFrame(fr, low)
    requires forall x :: x in pool ==> Fate(h, fr, high, low, f, cfg, s1, rest, s2, c, x)
    requires Tight(h, pool, fr, high, cfg.matchThresh, f, s1) && i in high && i !in s1.cols
    ensures HeldAmong(c.heap, pool, f, i)
  {
    hide Within, Beyond;
    var x :| x in pool && x !in s1.rows && Holds(s1.heap, x, f, i);
    assert Fate(h, fr, high, low, f, cfg, s1, rest, s2, c, x);
    assert Holds(c.heap, x, f, i);
  }

  lemma WeakAreHeld(h: Heap, pool: seq<int>, fr: Frame, high: seq<nat>, low: seq<nat>, f: int, cfg: Config,
                    s1: Stage, rest: seq<int>, s2: Stage, c: Confirmed, i: nat)
    requires InFrame(fr, high) && InFrame(fr, low) && forall y :: y in rest ==> y in pool
    requires forall y :: y in pool ==> Fate(h, fr, high, low, f, cfg, s1, rest, s2, c, y)
    requires Tight(s1.heap, rest, fr, low, SECOND_THRESH, f, s2) && i in low && i !in s2.cols
    ensures HeldAmong(c.heap, pool, f, i)
  {
    hide Within, Beyond;
    var y :| y in rest && y !in s2.rows && Holds(s2.heap, y, f, i);
    assert Fate(h, fr, high, low, f, cfg, s1, rest, s2, c, y);
    assert Holds(c.heap, y, f, i);
  }

  lemma WeakLeftBeyond(h: Heap, pool: seq<int>, fr: Frame, high: seq<nat>, low: seq<nat>, f: int, cfg: Config,
                       s1: Stage, rest: seq<int>, s2: Stage, c: Confirmed, x: int, i: nat)
    requires InFrame(fr, high) && InFrame(fr, low) && forall y :: y in rest ==> y in pool
    requires forall y :: y in pool ==> Fate(h, fr, high, low, f, cfg, s1, rest, s2, c, y)
    requires Tight(s1.heap, rest, fr, low, SECOND_THRESH, f, s2)
    requires x in pool && x in h && x in c.heap && h[x].state == Tracked && c.heap[x].frame != f && i in low
    requires !HeldAmong(c.heap, pool, f, i)
    ensures Beyond(h[x], i, fr, SECOND_THRESH)
  {
    hide Within, Beyond;
    assert Fate(h, fr, high, low, f, cfg, s1, rest, s2, c, x);
    if i !in s2.cols {
      WeakAreHeld(h, pool, fr, high, low, f, cfg, s1, rest, s2, c, i);
    }
  }

  lemma OneTight(h: Heap, pool: seq<int>, fr: Frame, high: seq<nat>, low: seq<nat>, f: int, cfg: Config,
                 s1: Stage, rest: seq<int>, s2: Stage, c: Confirmed, x: int)
    requires InFrame(fr, high) && InFrame(fr, low) && Apart(high, low) && x in pool
    requires Fate(h, fr, high, low, f, cfg, s1, rest, s2, c, x) && Tight(h, pool, fr, high, cfg.matchThresh, f, s1)
    ensures x in h && x in c.heap && TightAt(h[x], c.heap[x], fr, high, low, f, cfg, s1.cols)
  {
    hide Within, Beyond;
  }

  lemma PoolIsTight(h: Heap, pool: seq<int>, fr: Frame, high: seq<nat>, low: seq<nat>, f: int, cfg: Config,
                    s1: Stage, rest: seq<int>, s2: Stage, newlyLost: seq<int>, c: Confirmed)
    requires InFrame(fr, high) && InFrame(fr, low) && Apart(high, low)
    requires RanTwice(h, pool, high, low, f, s1, rest, s2, newlyLost, c)
    requires Tight(h, pool, fr, high, cfg.matchThresh, f, s1) && Tight(s1.heap, rest, fr, low, SECOND_THRESH, f, s2)
    ensures PoolTight(h, pool, fr, high, low, f, cfg, c)
  {
    hide RanTwice, Beyond, Within, Tight, Fate, HeldAmong, Apart, TightAt;
    TwoRoundsShape(h, pool, high, low, f, s1, rest, s2, newlyLost, c);
    RestInPool(h, pool, high, low, f, s1, rest, s2, newlyLost, c);
    forall x | x in pool ensures Fate(h, fr, high, low, f, cfg, s1, rest, s2, c, x) {
      FateOf(h, pool, fr, high, low, f, cfg, s1, rest, s2, newlyLost, c, x);
    }
    EachTight(h, pool, fr, high, low, f, cfg, s1, rest, s2, c);
    WeakLeftAllBeyond(h, pool, fr, high, low, f, cfg, s1, rest, s2, c);
    forall i: nat | i in high && i !in c.left ensures HeldAmong(c.heap, pool, f, i) {
      StrongAreHeld(h, pool, fr, high, low, f, cfg, s1, rest, s2, c, i);
    }
  }

  lemma EachTight(h: Heap, pool: seq<int>, fr: Frame, high: seq<nat>, low: seq<nat>, f: int, cfg: Config,
                  s1: Stage, rest: seq<int>, s2: Stage, c: Confirmed)
    requires InFrame(fr, high) && InFrame(fr, low) && Apart(high, low)
    requires Tight(h, pool, fr, high, cfg.matchThresh, f, s1)
    requires forall x :: x in pool ==> Fate(h, fr, high, low, f, cfg, s1, rest, s2, c, x)
    ensures forall x :: x in pool ==>
      x in h && x in c.heap && TightAt(h[x], c.heap[x], fr, high, low, f, cfg, s1.cols)
  {
    hide Tight, Fate, Apart, TightAt;
    forall x | x in pool ensures x in h && x in c.heap && TightAt(h[x], c.heap[x], fr, high, low, f, cfg, s1.cols) {
      OneTight(h, pool, fr, high, low, f, cfg, s1, rest, s2, c, x);
    }
  }

  lemma WeakLeftAllBeyond(h: Heap, pool: seq<int>, fr: Frame, high: seq<nat>, low: seq<nat>, f: int, cfg: Config,
                          s1: Stage, rest: seq<int>, s2: Stage, c: Confirmed)
    requires InFrame(fr, high) && InFrame(fr, low) && forall y :: y in rest ==> y in pool
    requires forall y :: y in pool ==> Fate(h, fr, high, low, f, cfg, s1, rest, s2, c, y)
    requires Tight(s1.heap, rest, fr, low, SECOND_THRESH, f, s2) && c.heap.Keys == h.Keys
    ensures forall x, i: nat ::
      (x in pool && x in h && h[x].state == Tracked && c.heap[x].frame != f && i in low
       && !HeldAmong(c.heap, pool, f, i)) ==> Beyond(h[x], i, fr, SECOND_THRESH)
  {
    hide Tight, Fate, HeldAmong, Beyond;
    forall x, i: nat | x in pool && x in h && h[x].state == Tracked && c.heap[x].frame != f && i in low
                       && !HeldAmong(c.heap, pool, f, i)
      ensures Beyond(h[x], i, fr, SECOND_THRESH)
    {
      WeakLeftBeyond(h, pool, fr, high, low, f, cfg, s1, rest, s2, c, x, i);
    }
  }

  lemma RestInPool(h: Heap, pool: seq<int>, high: seq<nat>, low: seq<nat>, f: int,
                   s1: Stage, rest: seq<int>, s2: Stage, newlyLost: seq<int>, c: Confirmed)
    requires RanTwice(h, pool, high, low, f, s1, rest, s2, newlyLost, c)
    ensures c.left == s1.cols && (forall x :: x in rest ==> x in pool) && (forall i: nat :: i in s1.cols ==> i in high)
  {}

  lemma ConfirmedTight(h: Heap, pool: seq<int>, fr: Frame, high: seq<nat>, low: seq<nat>, f: int, cfg: Config)
    requires ConfigOk(cfg) && Known(h, pool) && InFrame(fr, high) && InFrame(fr, low) && Apart(high, low)
    requires Distinct(pool) && DistinctNats(high) && DistinctNats(low) && forall x :: x in pool ==> h[x].frame < f
    ensures PoolTight(h, pool, fr, high, low, f, cfg, MatchConfirmed(h, pool, fr, high, low, f, cfg))
  {
    hide MatchRound, RoundOutcome, RanTwice, Tight, PoolTight, Apart, ConfigOk;
    var s1 := MatchRound(h, pool, fr, high, cfg.matchThresh, f, cfg, false);
    RoundFacts(h, pool, fr, high, cfg.matchThresh, f, cfg, false);
    RoundIsTight(h, pool, fr, high, cfg.matchThresh, f, cfg, false);
    RowsDistinct(h, pool, high, f, false, s1);
    var rest := InState(s1.heap, s1.rows, Tracked);
    var s2 := MatchRound(s1.heap, rest, fr, low, SECOND_THRESH, f, cfg, false);
    RoundFacts(s1.heap, rest, fr, low, SECOND_THRESH, f, cfg, false);
    RoundIsTight(s1.heap, rest, fr, low, SECOND_THRESH, f, cfg, false);
    RowsDistinct(s1.heap, rest, low, f, false, s2);
    var newlyLost := Filter(s2.rows, NotLost(s2.heap));
    var c := MatchConfirmed(h, pool, fr, high, low, f, cfg);
    CollectRounds(h, pool, high, low, f, s1, rest, s2, newlyLost, c);
    PoolIsTight(h, pool, fr, high, low, f, cfg, s1, rest, s2, newlyLost, c);
  }

  lemma RowsDistinct(h: Heap, ids: seq<int>, dets: seq<nat>, f: int, direct: bool, s: Stage)
    requires RoundOutcome(h, ids, dets, f, direct, s)
    ensures Distinct(s.rows)
  {}

  // ---- the whole frame ------------------------------------------------------

  lemma {:induction false} StrongAreBorn(h: Heap, fr: Frame, dets: seq<nat>, f: int, cfg: Config, count: int, i: nat)
    requires InFrame(fr, dets) && i in dets && i < |fr.scores| && fr.scores[i] >= cfg.trackThresh + 0.1
    ensures var b := Spawn(h, fr, dets, f, cfg, count); HeldAmong(b.heap, b.born, f, i)
  {
    hide K.Initiate;
    var ds := dets[..|dets| - 1];
    var before, b := Spawn(h, fr, ds, f, cfg, count), Spawn(h, fr, dets, f, cfg, count);
    if dets[|dets| - 1] == i {
      assert b.count in b.born && Holds(b.heap, b.count, f, i);
    } else {
      assert i in ds;
      StrongAreBorn(h, fr, ds, f, cfg, count, i);
      var x :| x in before.born && Holds(before.heap, x, f, i);
      SpawnBounds(h, fr, ds, f, cfg, count);
      assert x in b.born && Holds(b.heap, x, f, i);
    }
  }

  lemma {:induction false} SpawnBounds(h: Heap, fr: Frame, dets: seq<nat>, f: int, cfg: Config, count: int)
    requires InFrame(fr, dets)
    ensures var b := Spawn(h, fr, dets, f, cfg, count);
      && b.count >= count && (forall x :: x in b.born ==> count < x <= b.count)
      && (forall x :: x in b.born ==> x in b.heap && b.heap[x].frame == f && b.heap[x].det in dets
                                      && 0 <= b.heap[x].det < |fr.scores|
                                      && fr.scores[b.heap[x].det] >= cfg.trackThresh + 0.1)
  {
    hide K.Initiate;
    if dets != [] {
      SpawnBounds(h, fr, dets[..|dets| - 1], f, cfg, count);
    }
  }

  ghost predicate Strong(fr: Frame, cfg: Config, i: int) { 0 <= i < |fr.scores| && fr.scores[i] >= cfg.trackThresh }

  ghost predicate Weak(fr: Frame, cfg: Config, i: int) { 0 <= i < |fr.scores| && 0.1 < fr.scores[i] < cfg.trackThresh }

  /** Tracks matched before their frame: confirmed ones and lost ones. */
  ghost predicate Veteran(s: Tracker, x: int) {
    x in s.heap && (x in s.lost || (x in s.tracked && s.heap[x].activated))
  }

  ghost predicate Newcomer(s: Tracker, x: int) { x in s.heap && x in s.tracked && !s.heap[x].activated }

  ghost predicate HeldByVeteran(s: Tracker, g: Heap, i: int) {
    exists x :: Veteran(s, x) && Holds(g, x, s.frame + 1, i)
  }

  ghost predicate HeldByOld(s: Tracker, g: Heap, i: int) {
    exists x :: (Veteran(s, x) || Newcomer(s, x)) && Holds(g, x, s.frame + 1, i)
  }

  ghost predicate HeldBySome(g: Heap, f: int, i: int) { exists x :: Holds(g, x, f, i) }

  /** The association of one frame: who holds what, and that nothing left over still fits. `g` has the
      tracks as they are in the end. */
  ghost predicate Associated(s: Tracker, fr: Frame, cfg: Config, g: Heap)
    requires Aligned(fr)
  {
    && (forall x :: Veteran(s, x) && x in g ==> VeteranFits(s, fr, cfg, g, x))
    && (forall x :: Newcomer(s, x) && x in g ==> NewcomerFits(s, fr, cfg, g, x))
    && (forall x :: x in g && x !in s.heap ==>
          g[x].frame == s.frame + 1 && 0 <= g[x].det < |fr.scores| && fr.scores[g[x].det] >= cfg.trackThresh + 0.1)
    && (forall i :: 0 <= i < |fr.scores| && fr.scores[i] >= cfg.trackThresh + 0.1 ==> HeldBySome(g, s.frame + 1, i))
  }

  /** A confirmed or lost track holds a strong detection within the match gate or, unless it was lost, a
      weak one within 0.5 of its predicted box. Without a strong one, every strong detection no such
      track holds is beyond the gate; a tracked one without any is beyond 0.5 of every weak one left. */
  ghost predicate VeteranFits(s: Tracker, fr: Frame, cfg: Config, g: Heap, x: int)
    requires Aligned(fr) && x in s.heap && x in g
  {
    var t, f := Predicted(s.heap[x]), s.frame + 1;
    && (g[x].frame == f ==>
          || (Strong(fr, cfg, g[x].det) && Gap(t, fr, g[x].det) <= cfg.matchThresh)
          || (x in s.tracked && Weak(fr, cfg, g[x].det) && Gap(t, fr, g[x].det) <= 0.5))
    && (!(g[x].frame == f && Strong(fr, cfg, g[x].det)) ==>
          forall i :: Strong(fr, cfg, i) && !HeldByVeteran(s, g, i) ==> Gap(t, fr, i) > cfg.matchThresh)
    && (g[x].frame != f && x in s.tracked ==>
          forall i :: Weak(fr, cfg, i) && !HeldByVeteran(s, g, i) ==> Gap(t, fr, i) > 0.5)
  }

  /** An unconfirmed track holds a strong detection within 0.7 of its last box, or every strong one left
      to it is further away. */
  ghost predicate NewcomerFits(s: Tracker, fr: Frame, cfg: Config, g: Heap, x: int)
    requires Aligned(fr) && x in s.heap && x in g
  {
    if g[x].frame == s.frame + 1 then Strong(fr, cfg, g[x].det) && Gap(s.heap[x], fr, g[x].det) <= 0.7
    else forall i :: Strong(fr, cfg, i) && !HeldByOld(s, g, i) ==> Gap(s.heap[x], fr, i) > 0.7
  }

  lemma {:induction false} PredictOnce(h: Heap, ids: seq<int>)
    requires Known(h, ids) && Distinct(ids)
    ensures forall x :: x in h ==> PredictAll(h, ids)[x] == if x in ids then Predicted(h[x]) else h[x]
  {
    hide Predicted;
    if ids != [] {
      PredictOnce(h, ids[..|ids| - 1]);
      assert ids[|ids| - 1] !in ids[..|ids| - 1];
      assert forall x :: x in ids <==> x in ids[..|ids| - 1] || x == ids[|ids| - 1];
    }
  }

  /** The end of a frame shows what the rounds over confirmed and lost tracks decided for one of them. */
  ghost predicate VeteranEnds(s: Tracker, r: FrameRun, x: int) {
    && x in s.heap && x in r.confirmed.heap && x in r.settled && x in r.predicted
    && r.settled[x].frame == r.confirmed.heap[x].frame && r.settled[x].det == r.confirmed.heap[x].det
    && r.predicted[x] == Predicted(s.heap[x]) && r.predicted[x].frame < s.frame + 1
    && (r.predicted[x].state == Tracked <==> x in s.tracked)
  }

  ghost predicate NewcomerEnds(s: Tracker, r: FrameRun, x: int) {
    && x in s.heap && x in r.tentative.heap && x in r.settled && x in r.confirmed.heap
    && r.settled[x].frame == r.tentative.heap[x].frame && r.settled[x].det == r.tentative.heap[x].det
    && r.confirmed.heap[x] == s.heap[x] && s.heap[x].frame < s.frame + 1
  }

  ghost predicate NewbornEnds(r: FrameRun, x: int) {
    && x in r.births.heap && x in r.settled
    && r.settled[x].frame == r.births.heap[x].frame && r.settled[x].det == r.births.heap[x].det
  }

  lemma VeteranLinked(s: Tracker, r: FrameRun, cfg: Config, limit: nat, count: int, x: int)
    requires Inv(s, limit, count) && Phases(s, r, cfg, count) && x in r.pool
    requires x in s.heap && x in r.predicted && r.predicted[x] == Predicted(s.heap[x])
    ensures VeteranEnds(s, r, x)
  {
    hide HoldsApart, SortedBy, K.Predict, K.FreezeHeightVelocity;
    assert x !in r.unconfirmed;
    assert x in s.tracked ==> TrackedOk(s.heap[x], s.frame);
    assert x in s.lost ==> LostOk(s.heap[x], s.frame);
  }

  lemma NewcomerLinked(s: Tracker, r: FrameRun, cfg: Config, limit: nat, count: int, x: int)
    requires Inv(s, limit, count) && Phases(s, r, cfg, count) && x in r.unconfirmed
    requires x in s.heap && x in r.predicted && r.predicted[x] == s.heap[x]
    ensures NewcomerEnds(s, r, x)
  {
    hide HoldsApart, SortedBy, K.Predict, K.FreezeHeightVelocity;
    assert x !in r.pool && x !in s.lost;
    assert TrackedOk(s.heap[x], s.frame);
  }

  lemma NewbornLinked(s: Tracker, r: FrameRun, cfg: Config, limit: nat, count: int)
    requires Inv(s, limit, count) && Phases(s, r, cfg, count)
    ensures forall x :: x in r.births.born ==> NewbornEnds(r, x)
    ensures forall x :: x in r.settled && x !in s.heap ==> x in r.births.born
  {
    hide HoldsApart, SortedBy, TrackedOk, LostOk;
  }

  lemma MembersAre(s: Tracker, r: FrameRun, limit: nat, count: int, cfg: Config)
    requires Inv(s, limit, count) && Phases(s, r, cfg, count)
    ensures forall x :: x in r.pool <==> Veteran(s, x)
    ensures forall x :: x in r.unconfirmed <==> Newcomer(s, x)
    ensures forall x :: x in r.pool ==> x !in r.unconfirmed
  {
    hide HoldsApart, SortedBy, TrackedOk, LostOk, ConfirmedOutcome, TentativeOutcome, BirthsOutcome;
  }

  ghost predicate NewcomersTight(h: Heap, ids: seq<int>, fr: Frame, left: seq<nat>, f: int, t: Tentative)
    requires InFrame(fr, left)
  {
    && t.heap.Keys == h.Keys
    && (forall x :: x in ids && x in h && t.heap[x].frame == f ==>
          Within(h[x], t.heap[x].det, fr, left, UNCONFIRMED_THRESH))
    && (forall x, i :: x in ids && x in h && t.heap[x].frame != f && i in t.spare ==>
          Beyond(h[x], i, fr, UNCONFIRMED_THRESH))
    && (forall i: nat :: i in left && i !in t.spare ==> HeldAmong(t.heap, ids, f, i))
  }

  lemma NewcomersOnce(h: Heap, ids: seq<int>, fr: Frame, left: seq<nat>, f: int, s: Stage)
    requires InFrame(fr, left) && Known(h, ids) && Known(s.heap, s.rows) && forall x :: x in ids ==> h[x].frame < f
    requires RoundOutcome(h, ids, left, f, true, s) && Tight(h, ids, fr, left, UNCONFIRMED_THRESH, f, s)
    ensures NewcomersTight(h, ids, fr, left, f,
                           Tentative(MarkAll(s.heap, s.rows, Removed), s.activated, s.rows, s.cols))
  {
    hide MarkAll, Within, Beyond;
    var g := MarkAll(s.heap, s.rows, Removed);
    forall i: nat | i in left && i !in s.cols ensures HeldAmong(g, ids, f, i) {
      var x :| x in ids && x !in s.rows && Holds(s.heap, x, f, i);
      assert Holds(g, x, f, i);
    }
  }

  lemma TentativeTight(h: Heap, ids: seq<int>, fr: Frame, left: seq<nat>, f: int, cfg: Config)
    requires ConfigOk(cfg) && Known(h, ids) && InFrame(fr, left) && Distinct(ids) && DistinctNats(left)
    requires forall x :: x in ids ==> h[x].frame < f
    ensures NewcomersTight(h, ids, fr, left, f, MatchTentative(h, ids, fr, left, f, cfg))
  {
    hide MatchRound, RoundOutcome, Tight, NewcomersTight, ConfigOk;
    RoundFacts(h, ids, fr, left, UNCONFIRMED_THRESH, f, cfg, true);
    RoundIsTight(h, ids, fr, left, UNCONFIRMED_THRESH, f, cfg, true);
    NewcomersOnce(h, ids, fr, left, f, MatchRound(h, ids, fr, left, UNCONFIRMED_THRESH, f, cfg, true));
  }

  lemma LevelsApart(fr: Frame, cfg: Config)
    ensures Apart(High(fr, cfg, |fr.scores|), Low(fr, cfg, |fr.scores|))
    ensures forall i: nat :: i in High(fr, cfg, |fr.scores|) <==> Strong(fr, cfg, i)
    ensures forall i: nat :: i in Low(fr, cfg, |fr.scores|) <==> Weak(fr, cfg, i)
  {}

  lemma PoolStage(s: Tracker, fr: Frame, cfg: Config, limit: nat, count: int, r: FrameRun)
    requires ConfigOk(cfg) && Aligned(fr) && Inv(s, limit, count) && RanAs(s, fr, cfg, count, r)
    ensures InFrame(fr, r.high) && InFrame(fr, r.low)
    ensures PoolTight(r.predicted, r.pool, fr, r.high, r.low, s.frame + 1, cfg, r.confirmed)
  {
    hide PredictAll, MatchConfirmed, MatchTentative, Spawn, MarkAll, WithActivation, Joint, High, Low;
    hide PoolTight, PoolReady, ConfigOk;
    LevelsApart(fr, cfg);
    PoolPhase(s, fr, limit, count, r);
    hide Inv;
    PoolFacts(s, r, fr);
    ConfirmedTight(r.predicted, r.pool, fr, r.high, r.low, s.frame + 1, cfg);
  }

  lemma NewcomerStage(s: Tracker, fr: Frame, cfg: Config, limit: nat, count: int, r: FrameRun)
    requires ConfigOk(cfg) && Aligned(fr) && Inv(s, limit, count) && RanAs(s, fr, cfg, count, r)
    ensures InFrame(fr, r.confirmed.left) && InFrame(fr, r.tentative.spare)
    ensures NewcomersTight(r.confirmed.heap, r.unconfirmed, fr, r.confirmed.left, s.frame + 1, r.tentative)
  {
    hide PredictAll, MatchConfirmed, MatchTentative, Spawn, MarkAll, WithActivation, Joint, High, Low;
    hide NewcomersTight, ConfirmedDone, ConfigOk;
    var free := ConfirmedPhase(s, fr, cfg, limit, count, r);
    hide Inv;
    LeftFacts(s, r, fr, free);
    TentativeTight(r.confirmed.heap, r.unconfirmed, fr, r.confirmed.left, s.frame + 1, cfg);
  }

  lemma PoolFacts(s: Tracker, r: FrameRun, fr: Frame)
    requires Known(s.heap, s.tracked) && Known(s.heap, s.lost) && PoolReady(s, r, fr)
    ensures Distinct(r.pool) && forall x :: x in r.pool ==> x in r.predicted && r.predicted[x].frame < s.frame + 1
  {
    hide Clean;
  }

  lemma LeftFacts(s: Tracker, r: FrameRun, fr: Frame, free: set<int>)
    requires Known(s.heap, s.tracked) && Known(s.heap, s.lost) && ConfirmedDone(s, r, fr, free)
    ensures Distinct(r.unconfirmed) && DistinctNats(r.confirmed.left) && Known(r.confirmed.heap, r.unconfirmed)
    ensures InFrame(fr, r.confirmed.left)
    ensures forall x :: x in r.unconfirmed ==> x in r.confirmed.heap && r.confirmed.heap[x].frame < s.frame + 1
  {
    hide Clean;
  }

  /** Everything the phases of a frame leave, in one place. */
  ghost predicate Ended(s: Tracker, fr: Frame, cfg: Config, r: FrameRun) {
    && Aligned(fr) && InFrame(fr, r.high) && InFrame(fr, r.low) && InFrame(fr, r.confirmed.left)
    && (forall x :: x in r.pool <==> Veteran(s, x)) && (forall x :: x in r.unconfirmed <==> Newcomer(s, x))
    && (forall x :: x in r.pool ==> VeteranEnds(s, r, x))
    && (forall x :: x in r.unconfirmed ==> NewcomerEnds(s, r, x))
    && (forall i: nat :: i in r.high <==> Strong(fr, cfg, i)) && (forall i: nat :: i in r.low <==> Weak(fr, cfg, i))
    && PoolTight(r.predicted, r.pool, fr, r.high, r.low, s.frame + 1, cfg, r.confirmed)
    && NewcomersTight(r.confirmed.heap, r.unconfirmed, fr, r.confirmed.left, s.frame + 1, r.tentative)
    && (forall i: nat :: i in r.confirmed.left ==> i in r.high)
  }

  lemma VeteranHolds(s: Tracker, fr: Frame, cfg: Config, r: FrameRun, i: int)
    requires Ended(s, fr, cfg, r)
    ensures HeldAmong(r.confirmed.heap, r.pool, s.frame + 1, i) ==> HeldByVeteran(s, r.settled, i)
    ensures HeldByVeteran(s, r.settled, i) ==> HeldAmong(r.confirmed.heap, r.pool, s.frame + 1, i)
  {
    hide PoolTight, NewcomersTight, NewcomerEnds;
    if HeldAmong(r.confirmed.heap, r.pool, s.frame + 1, i) {
      var x :| x in r.pool && Holds(r.confirmed.heap, x, s.frame + 1, i);
      assert VeteranEnds(s, r, x) && Holds(r.settled, x, s.frame + 1, i);
    }
    if HeldByVeteran(s, r.settled, i) {
      var x :| Veteran(s, x) && Holds(r.settled, x, s.frame + 1, i);
      assert VeteranEnds(s, r, x) && Holds(r.confirmed.heap, x, s.frame + 1, i);
    }
  }

  lemma NewcomerHolds(s: Tracker, fr: Frame, cfg: Config, r: FrameRun, i: int)
    requires Ended(s, fr, cfg, r) && HeldAmong(r.tentative.heap, r.unconfirmed, s.frame + 1, i)
    ensures HeldByOld(s, r.settled, i)
  {
    hide PoolTight, NewcomersTight, VeteranEnds;
    var x :| x in r.unconfirmed && Holds(r.tentative.heap, x, s.frame + 1, i);
    assert NewcomerEnds(s, r, x) && Holds(r.settled, x, s.frame + 1, i);
  }

  /** A strong detection is held by a track from before, or left to the end. */
  lemma HeldOrSpare(s: Tracker, fr: Frame, cfg: Config, r: FrameRun, i: nat)
    requires Ended(s, fr, cfg, r) && Strong(fr, cfg, i)
    ensures HeldByVeteran(s, r.settled, i) || i in r.confirmed.left
    ensures HeldByOld(s, r.settled, i) || i in r.tentative.spare
  {
    hide VeteranEnds, NewcomerEnds, HeldByVeteran, HeldByOld, Holds, HeldAmong, Within, Beyond;
    if i !in r.confirmed.left {
      VeteranHolds(s, fr, cfg, r, i);
      VeteransAreOld(s, r.settled, i);
    } else if i !in r.tentative.spare {
      NewcomerHolds(s, fr, cfg, r, i);
    }
  }

  lemma VeteransAreOld(s: Tracker, g: Heap, i: int)
    requires HeldByVeteran(s, g, i)
    ensures HeldByOld(s, g, i)
  {}

  lemma VeteranDone(s: Tracker, fr: Frame, cfg: Config, r: FrameRun, x: int)
    requires Ended(s, fr, cfg, r) && Veteran(s, x)
    ensures x in s.heap && x in r.settled && VeteranFits(s, fr, cfg, r.settled, x)
  {
    hide NewcomersTight, NewcomerEnds, HeldByVeteran, HeldAmong, Gap, Predicted;
    assert x in r.pool && VeteranEnds(s, r, x);
    var t := Predicted(s.heap[x]);
    forall i | Strong(fr, cfg, i) && !HeldByVeteran(s, r.settled, i) ensures i in r.confirmed.left {
      HeldOrSpare(s, fr, cfg, r, i);
    }
    forall i | Weak(fr, cfg, i) && !HeldByVeteran(s, r.settled, i)
      ensures !HeldAmong(r.confirmed.heap, r.pool, s.frame + 1, i)
    {
      VeteranHolds(s, fr, cfg, r, i);
    }
  }

  lemma NewcomerDone(s: Tracker, fr: Frame, cfg: Config, r: FrameRun, x: int)
    requires Ended(s, fr, cfg, r) && Newcomer(s, x)
    ensures x in s.heap && x in r.settled && NewcomerFits(s, fr, cfg, r.settled, x)
  {
    hide PoolTight, VeteranEnds, HeldByVeteran, HeldByOld, HeldAmong, Gap;
    assert x in r.unconfirmed && NewcomerEnds(s, r, x);
    forall i | Strong(fr, cfg, i) && !HeldByOld(s, r.settled, i) ensures i in r.tentative.spare {
      HeldOrSpare(s, fr, cfg, r, i);
    }
  }

  lemma FrameEnds(s: Tracker, fr: Frame, cfg: Config, limit: nat, count: int)
    requires ConfigOk(cfg) && Aligned(fr) && Inv(s, limit, count)
    ensures var r := Ran(s, fr, cfg, count);
      && Ended(s, fr, cfg, r) && InFrame(fr, r.tentative.spare)
      && r.births == Spawn(r.tentative.heap, fr, r.tentative.spare, s.frame + 1, cfg, count)
      && (forall x :: x in r.births.born ==> NewbornEnds(r, x))
      && (forall x :: x in r.settled && x !in s.heap ==> x in r.births.born)
  {
    InvKnown(s, limit, count);
    RanEquations(s, fr, cfg, count);
    FramePhases(s, fr, cfg, limit, count);
    var r := Ran(s, fr, cfg, count);
    hide Ran, Phases, Inv, RanAs, PoolTight, NewcomersTight, VeteranEnds, NewcomerEnds, NewbornEnds, ConfigOk, Spawn;
    EndedAs(s, fr, cfg, limit, count, r);
  }

  lemma EndedAs(s: Tracker, fr: Frame, cfg: Config, limit: nat, count: int, r: FrameRun)
    requires ConfigOk(cfg) && Aligned(fr) && Inv(s, limit, count)
    requires RanAs(s, fr, cfg, count, r) && Phases(s, r, cfg, count)
    ensures Ended(s, fr, cfg, r) && InFrame(fr, r.tentative.spare)
    ensures r.births == Spawn(r.tentative.heap, fr, r.tentative.spare, s.frame + 1, cfg, count)
    ensures forall x :: x in r.births.born ==> NewbornEnds(r, x)
    ensures forall x :: x in r.settled && x !in s.heap ==> x in r.births.born
  {
    hide PredictAll, MatchConfirmed, MatchTentative, Spawn, MarkAll, WithActivation, Joint, High, Low, ConfigOk;
    hide PoolTight, NewcomersTight, VeteranEnds, NewcomerEnds, NewbornEnds, Phases, Predicted;
    LevelsApart(fr, cfg);
    PoolStage(s, fr, cfg, limit, count, r);
    NewcomerStage(s, fr, cfg, limit, count, r);
    MembersAre(s, r, limit, count, cfg);
    NewbornLinked(s, r, cfg, limit, count);
    LeftIsHigh(s, fr, cfg, limit, count, r);
    PredictedOnce(s, fr, limit, count, r);
    hide Inv, RanAs;
    forall x | x in r.pool ensures VeteranEnds(s, r, x) {
      VeteranLinked(s, r, cfg, limit, count, x);
    }
    forall x | x in r.unconfirmed ensures NewcomerEnds(s, r, x) {
      NewcomerLinked(s, r, cfg, limit, count, x);
    }
  }

  lemma PredictedOnce(s: Tracker, fr: Frame, limit: nat, count: int, r: FrameRun)
    requires Inv(s, limit, count)
    requires r.unconfirmed == WithActivation(s.heap, s.tracked, false)
    requires r.pool == Joint(WithActivation(s.heap, s.tracked, true), s.lost)
    requires r.predicted == PredictAll(s.heap, r.pool)
    ensures forall x :: x in s.heap ==> x in r.predicted
    ensures forall x :: x in s.heap ==> r.predicted[x] == if x in r.pool then Predicted(s.heap[x]) else s.heap[x]
    ensures forall x :: x in r.pool ==> x in s.heap && x !in r.unconfirmed
    ensures forall x :: x in r.unconfirmed ==> x in s.heap && x !in r.pool
  {
    hide PredictAll, WithActivation, Joint, PoolReady, Predicted;
    PoolPhase(s, fr, limit, count, r);
    PoolOnce(s, r, fr);
    PredictOnce(s.heap, r.pool);
  }

  lemma PoolOnce(s: Tracker, r: FrameRun, fr: Frame)
    requires Known(s.heap, s.tracked) && Known(s.heap, s.lost) && PoolReady(s, r, fr)
    ensures Distinct(r.pool) && (forall x :: x in r.pool ==> x in s.heap && x !in r.unconfirmed)
    ensures forall x :: x in r.unconfirmed ==> x in s.heap
  {
    hide Clean;
  }

  lemma LeftIsHigh(s: Tracker, fr: Frame, cfg: Config, limit: nat, count: int, r: FrameRun)
    requires ConfigOk(cfg) && Aligned(fr) && Inv(s, limit, count) && RanAs(s, fr, cfg, count, r)
    ensures forall i: nat :: i in r.confirmed.left ==> i in r.high
  {
    hide PredictAll, MatchConfirmed, MatchTentative, Spawn, MarkAll, WithActivation, Joint, High, Low;
    hide PoolReady, ConfigOk;
    LevelsApart(fr, cfg);
    PoolPhase(s, fr, limit, count, r);
    hide Inv;
    PoolFacts(s, r, fr);
    LeftAmongHigh(r.predicted, r.pool, fr, r.high, r.low, s.frame + 1, cfg);
  }

  lemma LeftAmongHigh(h: Heap, pool: seq<int>, fr: Frame, high: seq<nat>, low: seq<nat>, f: int, cfg: Config)
    requires ConfigOk(cfg) && Known(h, pool) && InFrame(fr, high) && InFrame(fr, low)
    requires Distinct(pool) && DistinctNats(high)
    ensures forall i: nat :: i in MatchConfirmed(h, pool, fr, high, low, f, cfg).left ==> i in high
  {
    hide MatchRound, RoundOutcome, ConfigOk;
    RoundFacts(h, pool, fr, high, cfg.matchThresh, f, cfg, false);
    RoundCols(h, pool, high, f, false, MatchRound(h, pool, fr, high, cfg.matchThresh, f, cfg, false));
  }

  /** The association of every frame: matches lie within the gates, each kind of track takes the
      detections of its rounds, nothing left over still fits, and every detection strong enough to
      start a track is held in the end. */
  lemma FrameAssociates(s: Tracker, fr: Frame, cfg: Config, limit: nat, count: int)
    requires ConfigOk(cfg) && Aligned(fr) && Inv(s, limit, count)
    ensures Known(s.heap, s.tracked) && Known(s.heap, s.lost)
    ensures Associated(s, fr, cfg, Step(s, fr, cfg, count).0.heap)
  {
    InvKnown(s, limit, count);
    hide Ran, Inv, Ended, ConfigOk, Merge, Spawn, Associated, NewbornEnds;
    var r := Ran(s, fr, cfg, count);
    FrameEnds(s, fr, cfg, limit, count);
    SettledAssociates(s, fr, cfg, r, count);
    StepParts(s, fr, cfg, count);
    MergeHeap(s, r.settled, s.frame + 1, r.activated, r.confirmed.refind, r.confirmed.lost,
              r.tentative.gone + r.overdue);
  }

  lemma SettledAssociates(s: Tracker, fr: Frame, cfg: Config, r: FrameRun, count: int)
    requires Ended(s, fr, cfg, r) && Aligned(fr) && InFrame(fr, r.tentative.spare)
    requires r.births == Spawn(r.tentative.heap, fr, r.tentative.spare, s.frame + 1, cfg, count)
    requires forall x :: x in r.births.born ==> NewbornEnds(r, x)
    requires forall x :: x in r.settled && x !in s.heap ==> x in r.births.born
    ensures Associated(s, fr, cfg, r.settled)
  {
    hide Ended, Spawn, VeteranFits, NewcomerFits, HeldBySome, Veteran, Newcomer;
    SpawnBounds(r.tentative.heap, fr, r.tentative.spare, s.frame + 1, cfg, count);
    forall x | Veteran(s, x) ensures x in s.heap && x in r.settled && VeteranFits(s, fr, cfg, r.settled, x) {
      VeteranDone(s, fr, cfg, r, x);
    }
    forall x | Newcomer(s, x) ensures x in s.heap && x in r.settled && NewcomerFits(s, fr, cfg, r.settled, x) {
      NewcomerDone(s, fr, cfg, r, x);
    }
    forall i | 0 <= i < |fr.scores| && fr.scores[i] >= cfg.trackThresh + 0.1
      ensures HeldBySome(r.settled, s.frame + 1, i)
    {
      StrongAllHeld(s, fr, cfg, r, count, i);
    }
  }

  lemma StrongAllHeld(s: Tracker, fr: Frame, cfg: Config, r: FrameRun, count: int, i: nat)
    requires Ended(s, fr, cfg, r) && InFrame(fr, r.tentative.spare)
    requires r.births == Spawn(r.tentative.heap, fr, r.tentative.spare, s.frame + 1, cfg, count)
    requires forall x :: x in r.births.born ==> NewbornEnds(r, x)
    requires i < |fr.scores| && fr.scores[i] >= cfg.trackThresh + 0.1
    ensures HeldBySome(r.settled, s.frame + 1, i)
  {
    hide Spawn;
    HeldOrSpare(s, fr, cfg, r, i);
    hide Ended;
    if i in r.tentative.spare {
      StrongAreBorn(r.tentative.heap, fr, r.tentative.spare, s.frame + 1, cfg, count, i);
      var x :| x in r.births.born && Holds(r.births.heap, x, s.frame + 1, i);
      assert NewbornEnds(r, x) && Holds(r.settled, x, s.frame + 1, i);
    }
  }
}
