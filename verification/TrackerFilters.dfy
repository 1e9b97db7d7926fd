/** The filters of a stream's tracks over whole runs: usable always, positive definite while every
    gate of the association is below 1. */
module TrackerFilters {
  import opened Assignment
  import opened Geometry
  import opened TrackLists
  import opened TrackerModel
  import opened TrackerInvariant
  import opened TrackerRuns
  import K = Kalman

  /** The filter is usable. With gated matches it is also positive definite, and a track matched in
      frame `f` has a positive height. */
  ghost predicate Sound(t: Track, f: int, gated: bool) {
    && K.Healthy(t.kf) && t.frame <= f
    && (gated ==> K.AllDefinite(t.kf) && (t.frame == f ==> t.kf.mean[3] > 0.0))
  }

  ghost predicate AllSound(h: Heap, f: int, gated: bool) {
    forall x :: x in h ==> Sound(h[x], f, gated)
  }

  ghost predicate TallBoxes(fr: Frame) {
    forall i :: 0 <= i < |fr.boxes| ==> fr.boxes[i].y2 > fr.boxes[i].y1
  }

  /** All matched tracks are predicted with a positive height. */
  ghost predicate TallRows(h: Heap, ids: seq<int>, ms: seq<Pair>)
    requires Known(h, ids) && forall k :: 0 <= k < |ms| ==> ms[k].0 < |ids|
  {
    forall k :: 0 <= k < |ms| ==> Nth(h, ids, ms[k].0).kf.mean[3] > 0.0
  }

  // ---- the box of a track ---------------------------------------------------

  /** A new track has exactly the box of its detection. */
  lemma NewTrackHasItsBox(fr: Frame, i: nat, f: int)
    requires Aligned(fr) && i < |fr.boxes| && fr.boxes[i].y2 != fr.boxes[i].y1
    ensures TrackBox(Activated(fr, i, f)) == fr.boxes[i]
  {
    var b := fr.boxes[i];
    var w, h := b.x2 - b.x1, b.y2 - b.y1;
    assert K.Initiate(Xyah(b)).mean[..4] == Xyah(b);
    assert (w / h) * h == w;
  }

  /** Prediction moves every coordinate by its velocity and keeps the velocities. A track that coasts
      keeps its height instead, and the height velocity is gone. */
  lemma PredictedMoves(t: Track)
    requires K.Healthy(t.kf)
    ensures var m, u := t.kf.mean, Predicted(t).kf.mean;
      && u[0] == m[0] + m[4] && u[1] == m[1] + m[5] && u[2] == m[2] + m[6]
      && u[4] == m[4] && u[5] == m[5] && u[6] == m[6]
      && (if t.state == Tracked then u[3] == m[3] + m[7] && u[7] == m[7] else u[3] == m[3] && u[7] == 0.0)
  {
    hide K.Predict;
    if t.state == Tracked {
      K.PredictBlocks(t.kf);
    } else {
      K.FreezeHealthy(t.kf);
      var s := K.FreezeHeightVelocity(t.kf);
      K.PredictBlocks(s);
      assert Predicted(t).kf == K.Predict(s) && s.mean == t.kf.mean[7 := 0.0];
      assert s.mean[3] == t.kf.mean[3] && s.mean[7] == 0.0;
      assert s.mean[0] == t.kf.mean[0] && s.mean[1] == t.kf.mean[1] && s.mean[2] == t.kf.mean[2];
      assert s.mean[4] == t.kf.mean[4] && s.mean[5] == t.kf.mean[5] && s.mean[6] == t.kf.mean[6];
    }
  }

  /** So a new track is first looked for where it was found. */
  lemma NewTrackStandsStill(fr: Frame, i: nat, f: int)
    requires Aligned(fr) && i < |fr.boxes| && fr.boxes[i].y2 > fr.boxes[i].y1
    ensures TrackBox(Predicted(Activated(fr, i, f))) == fr.boxes[i]
  {
    var t := Activated(fr, i, f);
    NewTrackHasItsBox(fr, i, f);
    K.InitiateHealthy(Xyah(fr.boxes[i]));
    K.RestingBlocks(Xyah(fr.boxes[i]));
    PredictedMoves(t);
    hide Predicted, TrackBox, Xyah;
    assert t.kf.mean[4] == t.kf.mean[5] == t.kf.mean[6] == t.kf.mean[7] == 0.0;
    hide Activated;
    SameCorners(t, Predicted(t));
  }

  lemma SameCorners(t: Track, u: Track)
    requires forall i :: 0 <= i < 4 ==> u.kf.mean[i] == t.kf.mean[i]
    ensures TrackBox(u) == TrackBox(t)
  {}

  // ---- a gate below 1 keeps flat tracks out ---------------------------------

  lemma FlatOverlapsNothing(a: Box, b: Box)
    requires a.y2 <= a.y1
    ensures Iou(a, b) == 0.0
  {
    assert OverlapHeight(a, b) == 0.0;
    assert Inter(a, b) == OverlapWidth(a, b) * 0.0;
  }

  lemma FlatTrackBox(t: Track)
    ensures TrackBox(t).y2 - TrackBox(t).y1 == t.kf.mean[3]
  {}

  /** A track predicted at height 0 or below is at distance 1 from every detection, so a gate
      below 1 never lets it be measured. */
  lemma MatchedAreTall(h: Heap, ids: seq<int>, fr: Frame, dets: seq<nat>, thresh: real, cfg: Config)
    requires ConfigOk(cfg) && Known(h, ids) && InFrame(fr, dets) && thresh < 1.0
    ensures TallRows(h, ids, Associate(h, ids, fr, dets, thresh, cfg).matches)
  {
    hide LinearAssignment, Iou, TrackBox;
    var c, ms := Distances(h, ids, fr, dets), Associate(h, ids, fr, dets, thresh, cfg).matches;
    LinearAssignmentSound(c, thresh, cfg.solver);
    forall k | 0 <= k < |ms| ensures Nth(h, ids, ms[k].0).kf.mean[3] > 0.0 {
      var t, b := Nth(h, ids, ms[k].0), fr.boxes[dets[ms[k].1]];
      assert c.at[ms[k].0][ms[k].1] == 1.0 - Iou(TrackBox(t), b);
      FlatTrackBox(t);
      if t.kf.mean[3] <= 0.0 {
        FlatOverlapsNothing(TrackBox(t), b);
      }
    }
  }

  // ---- one frame ------------------------------------------------------------

  lemma {:induction false} PredictKeepsSound(h: Heap, ids: seq<int>, f: int, gated: bool)
    requires Known(h, ids) && AllSound(h, f - 1, gated)
    ensures AllSound(PredictAll(h, ids), f, gated)
    ensures forall x :: x in h ==> PredictAll(h, ids)[x].frame < f
  {
    hide K.Healthy, K.AllDefinite, K.Predict, K.FreezeHeightVelocity;
    if ids != [] {
      PredictKeepsSound(h, ids[..|ids| - 1], f, gated);
      var g, x := PredictAll(h, ids[..|ids| - 1]), ids[|ids| - 1];
      assert x in ids;
      K.FreezeHealthy(g[x].kf);
      K.PredictHealthy(if g[x].state != Tracked then K.FreezeHeightVelocity(g[x].kf) else g[x].kf);
    }
  }

  /** One measurement of a sound track. */
  lemma MatchKeepsSound(t: Track, fr: Frame, i: nat, f: int, cfg: Config, direct: bool, gated: bool)
    requires ConfigOk(cfg) && Aligned(fr) && TallBoxes(fr) && i < |fr.boxes| && Sound(t, f, gated)
    requires gated ==> t.kf.mean[3] > 0.0
    ensures Sound(Rematched(t, fr, i, f, cfg, direct), f, gated)
    ensures gated ==> Rematched(t, fr, i, f, cfg, direct).kf.mean[3] > 0.0
  {
    hide K.Healthy, K.AllDefinite, K.Update, K.SolverOk;
    K.UpdateHealthy(t.kf, Xyah(fr.boxes[i]), cfg.solve);
    assert K.Between(K.Update(t.kf, Xyah(fr.boxes[i]), cfg.solve).mean[3], t.kf.mean[3], Xyah(fr.boxes[i])[3]);
  }

  lemma {:induction false} MatchesKeepSound(h: Heap, ids: seq<int>, fr: Frame, dets: seq<nat>, ms: seq<Pair>,
                                            f: int, cfg: Config, direct: bool, gated: bool)
    requires ConfigOk(cfg) && Known(h, ids) && InFrame(fr, dets) && Fits(ms, |ids|, |dets|) && TallBoxes(fr)
    requires AllSound(h, f, gated) && (gated ==> TallRows(h, ids, ms))
    ensures var g := ApplyMatches(h, ids, fr, dets, ms, f, cfg, direct).heap;
      && AllSound(g, f, gated)
      && (gated ==> forall x :: x in h && h[x].kf.mean[3] > 0.0 ==> g[x].kf.mean[3] > 0.0)
  {
    hide Sound, Rematched, ConfigOk, TallBoxes;
    if ms != [] {
      MatchesKeepSound(h, ids, fr, dets, ms[..|ms| - 1], f, cfg, direct, gated);
      var g := ApplyMatches(h, ids, fr, dets, ms[..|ms| - 1], f, cfg, direct).heap;
      var (it, idet) := ms[|ms| - 1];
      var x := ids[it];
      assert x in ids;
      assert gated ==> Nth(h, ids, it).kf.mean[3] > 0.0;
      MatchKeepsSound(g[x], fr, dets[idet], f, cfg, direct, gated);
    }
  }

  lemma {:induction false} SpawnKeepsSound(h: Heap, fr: Frame, dets: seq<nat>, f: int, cfg: Config, count: int,
                                           gated: bool)
    requires InFrame(fr, dets) && AllSound(h, f, gated) && TallBoxes(fr)
    ensures AllSound(Spawn(h, fr, dets, f, cfg, count).heap, f, gated)
  {
    hide K.Healthy, K.AllDefinite;
    if dets != [] {
      SpawnKeepsSound(h, fr, dets[..|dets| - 1], f, cfg, count, gated);
      K.InitiateHealthy(Xyah(fr.boxes[dets[|dets| - 1]]));
    }
  }

  lemma MarkKeepsSound(h: Heap, ids: seq<int>, state: TrackState, f: int, gated: bool)
    requires Known(h, ids) && AllSound(h, f, gated)
    ensures AllSound(MarkAll(h, ids, state), f, gated)
  {
    hide K.Healthy, K.AllDefinite, MarkAll;
  }

  lemma RoundKeepsSound(h: Heap, ids: seq<int>, fr: Frame, dets: seq<nat>, thresh: real, f: int, cfg: Config,
                        direct: bool, gated: bool)
    requires ConfigOk(cfg) && Known(h, ids) && InFrame(fr, dets) && AllSound(h, f, gated) && TallBoxes(fr)
    requires gated ==> thresh < 1.0
    ensures AllSound(MatchRound(h, ids, fr, dets, thresh, f, cfg, direct).heap, f, gated)
  {
    hide Associate, ApplyMatches, AllSound, ConfigOk, TallBoxes, TallRows;
    var m := Associate(h, ids, fr, dets, thresh, cfg);
    if gated {
      MatchedAreTall(h, ids, fr, dets, thresh, cfg);
    }
    MatchesKeepSound(h, ids, fr, dets, m.matches, f, cfg, direct, gated);
  }

  lemma ConfirmedKeepsSound(h: Heap, pool: seq<int>, fr: Frame, high: seq<nat>, low: seq<nat>, f: int, cfg: Config,
                            gated: bool)
    requires ConfigOk(cfg) && Known(h, pool) && InFrame(fr, high) && InFrame(fr, low)
    requires AllSound(h, f, gated) && TallBoxes(fr) && (gated ==> cfg.matchThresh < 1.0)
    ensures AllSound(MatchConfirmed(h, pool, fr, high, low, f, cfg).heap, f, gated)
  {
    hide MatchRound, AllSound, ConfigOk, TallBoxes;
    var s1 := MatchRound(h, pool, fr, high, cfg.matchThresh, f, cfg, false);
    RoundKeepsSound(h, pool, fr, high, cfg.matchThresh, f, cfg, false, gated);
    var rest := InState(s1.heap, s1.rows, Tracked);
    var s2 := MatchRound(s1.heap, rest, fr, low, SECOND_THRESH, f, cfg, false);
    RoundKeepsSound(s1.heap, rest, fr, low, SECOND_THRESH, f, cfg, false, gated);
    MarkKeepsSound(s2.heap, Filter(s2.rows, NotLost(s2.heap)), Lost, f, gated);
  }

  lemma TentativeKeepsSound(h: Heap, ids: seq<int>, fr: Frame, left: seq<nat>, f: int, cfg: Config, gated: bool)
    requires ConfigOk(cfg) && Known(h, ids) && InFrame(fr, left) && AllSound(h, f, gated) && TallBoxes(fr)
    ensures AllSound(MatchTentative(h, ids, fr, left, f, cfg).heap, f, gated)
  {
    hide MatchRound, AllSound, ConfigOk, TallBoxes;
    var s := MatchRound(h, ids, fr, left, UNCONFIRMED_THRESH, f, cfg, true);
    RoundKeepsSound(h, ids, fr, left, UNCONFIRMED_THRESH, f, cfg, true, gated);
    MarkKeepsSound(s.heap, s.rows, Removed, f, gated);
  }

  lemma StepKeepsSound(s: Tracker, fr: Frame, cfg: Config, count: int, gated: bool)
    requires ConfigOk(cfg) && Aligned(fr) && Known(s.heap, s.tracked) && Known(s.heap, s.lost)
    requires AllSound(s.heap, s.frame, gated) && TallBoxes(fr) && (gated ==> cfg.matchThresh < 1.0)
    ensures AllSound(Step(s, fr, cfg, count).0.heap, s.frame + 1, gated)
    ensures Step(s, fr, cfg, count).0.frame == s.frame + 1
  {
    hide AllSound, TallBoxes, ConfigOk, Ran, Merge, PredictAll, MatchConfirmed, MatchTentative, Spawn, MarkAll;
    hide High, Low, Filter, Joint;
    StepParts(s, fr, cfg, count);
    RanEquations(s, fr, cfg, count);
    var r, f := Ran(s, fr, cfg, count), s.frame + 1;
    PredictKeepsSound(s.heap, r.pool, f, gated);
    ConfirmedKeepsSound(r.predicted, r.pool, fr, r.high, r.low, f, cfg, gated);
    TentativeKeepsSound(r.confirmed.heap, r.unconfirmed, fr, r.confirmed.left, f, cfg, gated);
    SpawnKeepsSound(r.tentative.heap, fr, r.tentative.spare, f, cfg, count, gated);
    MarkKeepsSound(r.births.heap, r.overdue, Removed, f, gated);
    MergeHeap(s, r.settled, f, r.activated, r.confirmed.refind, r.confirmed.lost, r.tentative.gone + r.overdue);
  }

  // ---- whole runs -----------------------------------------------------------

  ghost predicate TallInputs(inputs: seq<Input>) {
    forall k :: 0 <= k < |inputs| ==> Aligned(inputs[k].frame) && TallBoxes(inputs[k].frame)
  }

  lemma {:induction false} RunStaysSound(cfg: Config, inputs: seq<Input>, gated: bool)
    requires ConfigOk(cfg) && TallInputs(inputs) && (gated ==> cfg.matchThresh < 1.0)
    ensures AllSound(Run(cfg, inputs).0.heap, |inputs|, gated) && Run(cfg, inputs).0.frame == |inputs|
  {
    hide Run, Step, ConfigOk, Sound;
    if inputs == [] {
      RunStarts(cfg, 0);
    } else {
      RunAdvances(cfg, inputs);
      RunStaysSound(cfg, inputs[..|inputs| - 1], gated);
      var before, last := Run(cfg, inputs[..|inputs| - 1]), inputs[|inputs| - 1];
      StepKeepsSound(before.0, last.frame, cfg, before.1 + last.others, gated);
    }
  }

  /** Every filter can be updated: its innovation matrix has an inverse. */
  ghost predicate Usable(h: Heap) {
    forall x :: x in h ==> K.Healthy(h[x].kf) && exists t :: K.Inverse4(K.Project(h[x].kf).1, t)
  }

  /** Every track a stream ever spawned keeps a usable filter, as long as detections have height:
      no measurement update of a whole run meets a singular innovation matrix. */
  lemma FiltersStayHealthy(cfg: Config, inputs: seq<Input>)
    requires ConfigOk(cfg) && TallInputs(inputs)
    ensures Usable(Run(cfg, inputs).0.heap)
  {
    hide Run, ConfigOk, AllSound, Usable;
    RunStaysSound(cfg, inputs, false);
    SoundIsUsable(Run(cfg, inputs).0.heap, |inputs|);
  }

  lemma SoundIsUsable(h: Heap, f: int)
    requires AllSound(h, f, false)
    ensures Usable(h)
  {
    hide K.Healthy, K.Inverse4, K.Project;
    forall x | x in h ensures K.Healthy(h[x].kf) && exists t :: K.Inverse4(K.Project(h[x].kf).1, t) {
      assert Sound(h[x], f, false);
      K.HealthyFacts(h[x].kf);
    }
  }

  ghost predicate Definite(h: Heap) {
    forall x :: x in h ==> K.PositiveDefinite(h[x].kf.cov)
  }

  /** The tracked tracks have boxes of positive height. */
  ghost predicate TallTracks(s: Tracker) {
    forall x :: x in s.tracked ==> x in s.heap && TrackBox(s.heap[x]).y1 < TrackBox(s.heap[x]).y2
  }

  /** With a match gate below 1, every covariance of every run is positive definite, and every
      tracked track has a box of positive height. */
  lemma FiltersStayDefinite(cfg: Config, inputs: seq<Input>)
    requires ConfigOk(cfg) && TallInputs(inputs) && cfg.matchThresh < 1.0
    ensures Definite(Run(cfg, inputs).0.heap) && TallTracks(Run(cfg, inputs).0)
  {
    hide Run, ConfigOk, Inv, AllSound, Definite, TallTracks;
    RunStaysSound(cfg, inputs, true);
    var limit := SomeLimit(inputs);
    RunKeepsInv(cfg, inputs, limit);
    var (s, count) := Run(cfg, inputs);
    SoundIsDefinite(s.heap, s.frame);
    SoundIsTall(s, limit, count);
  }

  lemma SoundIsDefinite(h: Heap, f: int)
    requires AllSound(h, f, true)
    ensures Definite(h)
  {
    hide K.Healthy, K.PositiveDefinite, K.AllDefinite;
    forall x | x in h ensures K.PositiveDefinite(h[x].kf.cov) {
      assert Sound(h[x], f, true);
      K.HealthyFacts(h[x].kf);
    }
  }

  lemma SoundIsTall(s: Tracker, limit: nat, count: int)
    requires AllSound(s.heap, s.frame, true) && Inv(s, limit, count)
    ensures TallTracks(s)
  {
    hide K.Healthy, K.AllDefinite, HoldsApart, SortedBy, LostOk, TrackBox;
    forall x | x in s.tracked ensures x in s.heap && TrackBox(s.heap[x]).y1 < TrackBox(s.heap[x]).y2 {
      assert TrackedOk(s.heap[x], s.frame) && Sound(s.heap[x], s.frame, true);
      FlatTrackBox(s.heap[x]);
    }
  }

  // ---- a gate of 1 lets flat tracks in --------------------------------------

  /** A round over nobody, with at most one detection. */
  lemma NobodyRound(h: Heap, fr: Frame, dets: seq<nat>, thresh: real, f: int, cfg: Config, direct: bool)
    requires ConfigOk(cfg) && InFrame(fr, dets) && |dets| <= 1
    ensures MatchRound(h, [], fr, dets, thresh, f, cfg, direct) == Stage(h, [], [], [], dets)
  {
    hide LinearAssignment, Leftovers, Distances;
    var c := Distances(h, [], fr, dets);
    AssignmentLeftovers(c, thresh, cfg.solver);
    var m := Associate(h, [], fr, dets, thresh, cfg);
    NobodyPairs(m, c);
    assert At(dets, m.cols) == dets;
  }

  lemma NobodyPairs(m: Matching, c: Cost)
    requires c.rows == 0 && c.cols <= 1 && Result(m, 0, c.cols) && Leftovers(m, c)
    ensures m.matches == [] && m.rows == [] && m.cols == if c.cols == 0 then [] else [0]
  {
    assert |m.matches| > 0 ==> m.matches[0].0 < 0;
    assert m.matches == [];
    assert (set p | p in m.matches :: p.0) == {} && (set p | p in m.matches :: p.1) == {};
    UnusedOfNone();
    hide Unused;
  }

  lemma UnusedOfNone()
    ensures Unused(0, {}) == [] && Unused(1, {}) == [0]
  {}

  ghost predicate Leftovers(m: Matching, c: Cost) {
    && m.rows == Unused(c.rows, set p | p in m.matches :: p.0)
    && m.cols == Unused(c.cols, set p | p in m.matches :: p.1)
  }

  lemma AssignmentLeftovers(c: Cost, thresh: real, solver: Solver)
    requires SolverOk(solver)
    ensures Leftovers(LinearAssignment(c, thresh, solver), c)
  {}

  lemma OverlapNotNegative(a: Box, b: Box)
    ensures Iou(a, b) >= 0.0
  {
    ProductMonotone(0.0, 0.0, OverlapWidth(a, b), OverlapHeight(a, b));
  }

  /** With a gate of 1 or more, a single track is always given a single detection. */
  lemma LoneRound(h: Heap, x: int, fr: Frame, thresh: real, f: int, cfg: Config)
    requires ConfigOk(cfg) && x in h && Aligned(fr) && |fr.boxes| == 1 && h[x].state == Tracked && thresh >= 1.0
    ensures MatchRound(h, [x], fr, [0], thresh, f, cfg, false)
         == Stage(h[x := Updated(h[x], fr, 0, f, cfg)], [x], [], [], [])
  {
    hide LinearAssignment, Leftovers, Iou, TrackBox, Updated;
    var c := Distances(h, [x], fr, [0]);
    LinearAssignmentSound(c, thresh, cfg.solver);
    AssignmentLeftovers(c, thresh, cfg.solver);
    var m := Associate(h, [x], fr, [0], thresh, cfg);
    OverlapNotNegative(TrackBox(h[x]), fr.boxes[0]);
    assert [x][0] == x && [0][0] == 0 && Nth(h, [x], 0) == h[x];
    assert c.at[0][0] == 1.0 - Iou(TrackBox(h[x]), fr.boxes[0]) <= thresh;
    LonePair(m, c);
    assert [(0, 0)][..0] == [];
    LoneMatch(h, x, fr, f, cfg);
  }

  lemma LoneMatch(h: Heap, x: int, fr: Frame, f: int, cfg: Config)
    requires ConfigOk(cfg) && x in h && Aligned(fr) && |fr.boxes| == 1 && h[x].state == Tracked
    ensures ApplyMatches(h, [x], fr, [0], [(0, 0)], f, cfg, false)
         == Round(h[x := Updated(h[x], fr, 0, f, cfg)], [x], [])
  {
    hide Updated, ConfigOk;
    var ms: seq<Pair> := [(0, 0)];
    assert ms[..|ms| - 1] == [];
    assert ApplyMatches(h, [x], fr, [0], [], f, cfg, false) == Round(h, [], []);
  }

  lemma OnePairAtMost(ms: seq<Pair>, c: Cost)
    requires c.rows == c.cols == 1 && IsMatching(c, ms)
    ensures ms == [] || ms == [(0, 0)]
  {
    assert |ms| > 0 ==> ms[0] == (0, 0);
    assert |ms| > 1 ==> ms[1] == (0, 0) && ms[0].0 != ms[1].0;
  }

  lemma LeftOfNone(m: Matching, c: Cost)
    requires c.rows == c.cols == 1 && Leftovers(m, c)
    ensures m.matches == [] ==> m.rows == [0] && m.cols == [0]
  {
    if m.matches == [] {
      assert (set p | p in m.matches :: p.0) == {} && (set p | p in m.matches :: p.1) == {};
      assert Unused(1, {}) == [0];
    }
  }

  lemma LeftOfPair(m: Matching, c: Cost)
    requires c.rows == c.cols == 1 && Leftovers(m, c)
    ensures m.matches == [(0, 0)] ==> m.rows == [] && m.cols == []
  {
    if m.matches == [(0, 0)] {
      assert (set p | p in m.matches :: p.0) == {0} && (set p | p in m.matches :: p.1) == {0};
      assert Unused(1, {0}) == [];
    }
  }

  lemma LonePair(m: Matching, c: Cost)
    requires c.rows == c.cols == 1 && IsMatching(c, m.matches) && Result(m, 1, 1)
    requires Leftovers(m, c) && !(0 in m.rows && 0 in m.cols)
    ensures m.matches == [(0, 0)] && m.rows == [] && m.cols == []
  {
    hide Leftovers;
    OnePairAtMost(m.matches, c);
    LeftOfNone(m, c);
    LeftOfPair(m, c);
  }

  /** A tracker with one confirmed track and nothing else. */
  ghost predicate Lone(s: Tracker, x: int) {
    s.tracked == [x] && s.lost == [] && x in s.heap && s.heap[x].state == Tracked && s.heap[x].activated
  }

  ghost predicate LoneWith(s: Tracker, x: int, kf: K.State) {
    Lone(s, x) && s.heap[x].kf == kf
  }

  ghost predicate OneStrong(fr: Frame, cfg: Config) {
    |fr.boxes| == |fr.classes| == |fr.scores| == 1 && fr.scores[0] >= cfg.trackThresh + 0.1
  }

  lemma OneHigh(fr: Frame, cfg: Config)
    requires OneStrong(fr, cfg)
    ensures High(fr, cfg, 1) == [0] && Low(fr, cfg, 1) == []
  {
    assert High(fr, cfg, 0) == [] && Low(fr, cfg, 0) == [];
  }

  lemma LonePool(s: Tracker, x: int)
    requires Lone(s, x)
    ensures Joint(WithActivation(s.heap, s.tracked, true), s.lost) == [x]
    ensures WithActivation(s.heap, s.tracked, false) == []
  {
    Sole(WithActivation(s.heap, s.tracked, true), x);
    Empty(WithActivation(s.heap, s.tracked, false));
  }

  lemma Sole(s: seq<int>, x: int)
    requires Distinct(s) && forall y :: y in s <==> y == x
    ensures s == [x]
  {
    assert x in s;
    assert s[0] in s;
    if |s| > 1 {
      FirstTwo(s);
    }
  }

  lemma FirstTwo(s: seq<int>)
    requires Distinct(s) && |s| > 1
    ensures s[0] in s && s[1] in s && s[0] != s[1]
  {}

  lemma PredictLone(h: Heap, x: int)
    requires x in h
    ensures PredictAll(h, [x]) == h[x := Predicted(h[x])]
  {
    hide Predicted;
    assert [x][..0] == [];
    assert PredictAll(h, []) == h;
  }

  lemma LoneConfirmed(h: Heap, x: int, fr: Frame, f: int, cfg: Config)
    requires ConfigOk(cfg) && x in h && Aligned(fr) && |fr.boxes| == 1 && h[x].state == Tracked
    requires cfg.matchThresh >= 1.0
    ensures MatchConfirmed(h, [x], fr, [0], [], f, cfg)
         == Confirmed(h[x := Updated(h[x], fr, 0, f, cfg)], [x], [], [], [])
  {
    hide MatchRound, ConfigOk, Updated;
    LoneRound(h, x, fr, cfg.matchThresh, f, cfg);
    NobodyRound(h[x := Updated(h[x], fr, 0, f, cfg)], fr, [], SECOND_THRESH, f, cfg, false);
  }

  lemma NobodyConfirmed(h: Heap, fr: Frame, f: int, cfg: Config)
    requires ConfigOk(cfg) && InFrame(fr, [0])
    ensures MatchConfirmed(h, [], fr, [0], [], f, cfg) == Confirmed(h, [], [], [], [0])
  {
    hide MatchRound, ConfigOk;
    NobodyRound(h, fr, [0], cfg.matchThresh, f, cfg, false);
    NobodyRound(h, fr, [], SECOND_THRESH, f, cfg, false);
  }

  lemma NobodyTentative(h: Heap, fr: Frame, left: seq<nat>, f: int, cfg: Config)
    requires ConfigOk(cfg) && InFrame(fr, left) && |left| <= 1
    ensures MatchTentative(h, [], fr, left, f, cfg) == Tentative(h, [], [], left)
  {
    hide MatchRound, ConfigOk;
    NobodyRound(h, fr, left, UNCONFIRMED_THRESH, f, cfg, true);
  }

  /** Merging when `x` is the only track left. */
  lemma LoneMerge(s: Tracker, h: Heap, f: int, x: int)
    requires Known(h, s.tracked) && s.lost == [] && x in h && h[x].state == Tracked && h[x].activated
    requires s.tracked == [] || s.tracked == [x]
    ensures Lone(Merge(s, h, f, [x], [], [], []), x) && Merge(s, h, f, [x], [], [], []).heap == h
  {
    hide InState, Sub, WithoutDuplicates;
    var tracked := Joint(Joint(InState(h, s.tracked, Tracked), [x]), []);
    var lost := Sub(Sub(s.lost, tracked) + [], s.removed);
    Sole(tracked, x);
    Empty(lost);
    Sole(WithoutDuplicates(h, tracked, lost).0, x);
    Empty(WithoutDuplicates(h, tracked, lost).1);
  }

  /** A lone track takes the only detection, whatever the distance. */
  lemma LoneStep(s: Tracker, x: int, kf: K.Filter, fr: Frame, cfg: Config, count: int)
    requires ConfigOk(cfg) && LoneWith(s, x, kf) && OneStrong(fr, cfg) && cfg.matchThresh >= 1.0
    ensures LoneWith(Step(s, fr, cfg, count).0, x, K.Update(K.Predict(kf), Xyah(fr.boxes[0]), cfg.solve))
  {
    hide Ran, MatchConfirmed, MatchTentative, PredictAll, Joint, High, Low, ConfigOk, Merge, K.Update, K.Predict;
    RanEquations(s, fr, cfg, count);
    StepParts(s, fr, cfg, count);
    var r, f := Ran(s, fr, cfg, count), s.frame + 1;
    OneHigh(fr, cfg);
    LonePool(s, x);
    PredictLone(s.heap, x);
    LoneConfirmed(r.predicted, x, fr, f, cfg);
    NobodyTentative(r.confirmed.heap, fr, [], f, cfg);
    assert r.births == Births(r.confirmed.heap, [], count) && r.overdue == [] && r.settled == r.confirmed.heap;
    assert r.activated == [x] && r.confirmed.lost == [] && r.confirmed.refind == []
      && r.tentative.gone + r.overdue == [];
    LoneMerge(s, r.settled, f, x);
  }

  /** The first detection of a stream becomes its lone track. */
  lemma LoneStart(fr: Frame, cfg: Config)
    requires ConfigOk(cfg) && OneStrong(fr, cfg)
    ensures LoneWith(Step(Fresh(), fr, cfg, 0).0, 1, K.Initiate(Xyah(fr.boxes[0])))
  {
    hide Ran, MatchConfirmed, MatchTentative, PredictAll, Joint, High, Low, ConfigOk, Merge, K.Initiate;
    var s := Fresh();
    RanEquations(s, fr, cfg, 0);
    StepParts(s, fr, cfg, 0);
    var r := Ran(s, fr, cfg, 0);
    OneHigh(fr, cfg);
    Empty(r.pool);
    Empty(r.unconfirmed);
    NobodyConfirmed(r.predicted, fr, 1, cfg);
    NobodyTentative(r.confirmed.heap, fr, [0], 1, cfg);
    assert [0][..0] == [];
    assert Spawn(r.tentative.heap, fr, [], 1, cfg, 0) == Births(r.tentative.heap, [], 0);
    assert r.births == Births(r.tentative.heap[1 := Activated(fr, 0, 1)], [1], 1) && r.overdue == [];
    LoneMerge(s, r.settled, 1, 1);
  }

  /** A square around the origin. */
  function Square(side: real): Box {
    Box(-side / 2.0, -side / 2.0, side / 2.0, side / 2.0)
  }

  function SquareFrame(cfg: Config, side: real): Frame {
    Frame([Square(side)], [0], [cfg.trackThresh + 0.1])
  }

  /** A unit box shrinks to 9/130 of its height, then is a unit box again. */
  function Shrinking(cfg: Config): (r: seq<Input>)
    ensures TallInputs(r)
  {
    [Input(SquareFrame(cfg, 1.0), 0), Input(SquareFrame(cfg, 9.0 / 130.0), 0), Input(SquareFrame(cfg, 1.0), 0)]
  }

  lemma SquareMeasures(side: real)
    requires side > 0.0
    ensures Xyah(Square(side)) == [0.0, 0.0, 1.0, side]
  {
    var b := Square(side);
    assert b.x2 - b.x1 == side && b.y2 - b.y1 == side && side / side == 1.0;
  }

  lemma LoneAdvance(cfg: Config, inputs: seq<Input>, longer: seq<Input>, x: int, kf: K.Filter, fr: Frame)
    requires ConfigOk(cfg) && TallInputs(inputs) && TallInputs(longer) && longer == inputs + [Input(fr, 0)]
    requires OneStrong(fr, cfg) && cfg.matchThresh >= 1.0 && LoneWith(Run(cfg, inputs).0, x, kf)
    ensures LoneWith(Run(cfg, longer).0, x, K.Update(K.Predict(kf), Xyah(fr.boxes[0]), cfg.solve))
  {
    hide Run, Step, LoneWith, K.Update, K.Predict, Xyah, K.SolverOk, SolverOk, Known;
    var (s, count) := Run(cfg, inputs);
    assert longer[..|longer| - 1] == inputs;
    RunAdvances(cfg, longer);
    LoneStep(s, x, kf, fr, cfg, count);
  }

  /** With a gate of 1 or more a track is measured at height 0, and its covariance is not positive
      definite any more. */
  lemma OpenGateFails(cfg: Config)
    requires ConfigOk(cfg) && cfg.matchThresh >= 1.0
    ensures !Definite(Run(cfg, Shrinking(cfg)).0.heap)
  {
    hide Run, Step, LoneWith, K.Update, K.Predict, K.Initiate, K.PositiveDefinite, K.SolverOk, Xyah;
    var first, second := SquareFrame(cfg, 1.0), SquareFrame(cfg, 9.0 / 130.0);
    SquareMeasures(1.0);
    SquareMeasures(9.0 / 130.0);
    var one: seq<Input> := [Input(first, 0)];
    var two, three := one + [Input(second, 0)], Shrinking(cfg);
    assert one[..0] == [] && three == two + [Input(first, 0)];
    RunStarts(cfg, 0);
    RunAdvances(cfg, one);
    LoneStart(first, cfg);
    var z0, z := [0.0, 0.0, 1.0, 1.0], [0.0, 0.0, 1.0, 9.0 / 130.0];
    LoneAdvance(cfg, one, two, 1, K.Initiate(z0), second);
    LoneAdvance(cfg, two, three, 1, K.Update(K.Predict(K.Initiate(z0)), z, cfg.solve), first);
    K.SingularUpdate(cfg.solve);
    LoneIndefinite(Run(cfg, three).0, 1,
                   K.Update(K.Predict(K.Update(K.Predict(K.Initiate(z0)), z, cfg.solve)), z0, cfg.solve));
  }

  lemma LoneIndefinite(s: Tracker, x: int, kf: K.State)
    requires LoneWith(s, x, kf) && !K.PositiveDefinite(kf.cov)
    ensures !Definite(s.heap)
  {
    hide K.PositiveDefinite;
  }

  /** Positive definite covariances in all runs: if and only if the match gate is below 1. */
  lemma FiltersDefiniteIff(cfg: Config)
    requires ConfigOk(cfg)
    ensures (forall inputs :: TallInputs(inputs) ==> Definite(Run(cfg, inputs).0.heap)) <==> cfg.matchThresh < 1.0
  {
    hide Run, Definite;
    if cfg.matchThresh < 1.0 {
      forall inputs | TallInputs(inputs) ensures Definite(Run(cfg, inputs).0.heap) {
        FiltersStayDefinite(cfg, inputs);
      }
    } else {
      OpenGateFails(cfg);
    }
  }
}
