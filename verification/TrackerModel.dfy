/** One frame of the ByteTrack lifecycle as a function on values. A track id stands for the
    track object it names; `Heap` gives the fields of every track spawned so far. */
module TrackerModel {
  import opened Assignment
  import opened Geometry
  import opened TrackLists
  import K = Kalman

  datatype TrackState = New | Tracked | Lost | Removed

  datatype Track = Track(
    state: TrackState, activated: bool, score: real, cls: int,
    det: int,       // index of the detection held in frame `frame`
    len: int, frame: int, start: int, kf: K.Filter)

  type Heap = map<int, Track>

  /** One frame of detections: parallel arrays. */
  datatype Frame = Frame(boxes: seq<Box>, classes: seq<int>, scores: seq<real>)

  ghost predicate Aligned(fr: Frame) {
    |fr.boxes| == |fr.classes| == |fr.scores|
  }

  datatype Config = Config(trackThresh: real, matchThresh: real, maxLost: nat,
                           solver: Solver, solve: K.LinearSolver)

  ghost predicate ConfigOk(cfg: Config) {
    SolverOk(cfg.solver) && K.SolverOk(cfg.solve)
  }

  const LOW_THRESH := 0.1
  const SECOND_THRESH := 0.5
  const UNCONFIRMED_THRESH := 0.7
  const DUPLICATE_DISTANCE := 0.15
  const REMOVED_KEPT: nat := 1000

  /** The tracker's lists hold ids. */
  datatype Tracker = Tracker(heap: Heap, tracked: seq<int>, lost: seq<int>, removed: seq<int>, frame: int)

  // ---- one track ------------------------------------------------------------

  /** Detection corners to (cx, cy, aspect, height); numpy's infinite aspect of a flat box is 0 here. */
  function Xyah(b: Box): K.Vec {
    var w, h := b.x2 - b.x1, b.y2 - b.y1;
    [b.x1 + w / 2.0, b.y1 + h / 2.0, if h == 0.0 then 0.0 else w / h, h]
  }

  /** The corners of a track, from its filter mean. */
  function TrackBox(t: Track): Box {
    var w, h := t.kf.mean[2] * t.kf.mean[3], t.kf.mean[3];
    var x, y := t.kf.mean[0] - w / 2.0, t.kf.mean[1] - h / 2.0;
    Box(x, y, w + x, h + y)
  }

  function Activated(fr: Frame, i: nat, f: int): Track
    requires Aligned(fr) && i < |fr.boxes|
  {
    Track(Tracked, f == 1, fr.scores[i], fr.classes[i], i, 0, f, f, K.Initiate(Xyah(fr.boxes[i])))
  }

  function Updated(t: Track, fr: Frame, i: nat, f: int, cfg: Config): Track
    requires ConfigOk(cfg) && Aligned(fr) && i < |fr.boxes|
  {
    Track(Tracked, true, fr.scores[i], fr.classes[i], i, t.len + 1, f, t.start,
          K.Update(t.kf, Xyah(fr.boxes[i]), cfg.solve))
  }

  function Reactivated(t: Track, fr: Frame, i: nat, f: int, cfg: Config): Track
    requires ConfigOk(cfg) && Aligned(fr) && i < |fr.boxes|
  {
    Updated(t, fr, i, f, cfg).(len := 0)
  }

  /** What a match makes of a track: a tracked one is updated, a lost one brought back. The
      unconfirmed round is `direct`: it always updates. */
  function Rematched(t: Track, fr: Frame, i: nat, f: int, cfg: Config, direct: bool): Track
    requires ConfigOk(cfg) && Aligned(fr) && i < |fr.boxes|
  {
    if direct || t.state == Tracked then Updated(t, fr, i, f, cfg) else Reactivated(t, fr, i, f, cfg)
  }

  function Predicted(t: Track): Track {
    t.(kf := K.Predict(if t.state != Tracked then K.FreezeHeightVelocity(t.kf) else t.kf))
  }

  // ---- the loops over tracks ------------------------------------------------

  ghost predicate Known(h: Heap, ids: seq<int>) {
    forall x :: x in ids ==> x in h
  }

  ghost predicate InFrame(fr: Frame, dets: seq<nat>) {
    Aligned(fr) && forall k :: 0 <= k < |dets| ==> dets[k] < |fr.boxes|
  }

  function Nth(h: Heap, ids: seq<int>, k: nat): Track
    requires Known(h, ids) && k < |ids|
  {
    var x := ids[k];
    assert x in ids;
    h[x]
  }

  function PredictAll(h: Heap, ids: seq<int>): (r: Heap)
    requires Known(h, ids)
    ensures r.Keys == h.Keys
  {
    if ids == [] then h
    else
      var g := PredictAll(h, ids[..|ids| - 1]);
      var x := ids[|ids| - 1];
      assert x in ids;
      g[x := Predicted(g[x])]
  }

  function MarkAll(h: Heap, ids: seq<int>, state: TrackState): (r: Heap)
    requires Known(h, ids)
    ensures r.Keys == h.Keys
    ensures forall x :: x in h ==> r[x] == if x in ids then h[x].(state := state) else h[x]
  {
    if ids == [] then h
    else
      var g := MarkAll(h, ids[..|ids| - 1], state);
      var x := ids[|ids| - 1];
      assert x in ids;
      assert forall y :: y in ids <==> y in ids[..|ids| - 1] || y == x;
      g[x := g[x].(state := state)]
  }

  function DistanceRow(t: Track, fr: Frame, dets: seq<nat>): (r: seq<real>)
    requires InFrame(fr, dets)
    ensures |r| == |dets|
  {
    seq(|dets|, c requires 0 <= c < |dets| => 1.0 - Iou(TrackBox(t), fr.boxes[dets[c]]))
  }

  /** Cost 1 - IoU between tracks and detections. */
  function Distances(h: Heap, ids: seq<int>, fr: Frame, dets: seq<nat>): (c: Cost)
    requires Known(h, ids) && InFrame(fr, dets)
    ensures c.rows == |ids| && c.cols == |dets|
  {
    Matrix(|ids|, |dets|, seq(|ids|, r requires 0 <= r < |ids| =>
      DistanceRow(Nth(h, ids, r), fr, dets)))
  }

  /** Heap after a round of matches, with the ids that were updated and those brought back. */
  datatype Round = Round(heap: Heap, activated: seq<int>, refind: seq<int>)

  ghost predicate Fits(ms: seq<Pair>, rows: nat, cols: nat) {
    forall k :: 0 <= k < |ms| ==> ms[k].0 < rows && ms[k].1 < cols
  }

  /** The loop over matches. */
  function ApplyMatches(h: Heap, ids: seq<int>, fr: Frame, dets: seq<nat>, ms: seq<Pair>,
                        f: int, cfg: Config, direct: bool): (r: Round)
    requires ConfigOk(cfg) && Known(h, ids) && InFrame(fr, dets) && Fits(ms, |ids|, |dets|)
    ensures r.heap.Keys == h.Keys
  {
    if ms == [] then Round(h, [], [])
    else
      var r := ApplyMatches(h, ids, fr, dets, ms[..|ms| - 1], f, cfg, direct);
      var (it, idet) := ms[|ms| - 1];
      var x := ids[it];
      assert x in ids;
      var g := r.heap[x := Rematched(r.heap[x], fr, dets[idet], f, cfg, direct)];
      if direct || r.heap[x].state == Tracked then Round(g, r.activated + [x], r.refind)
      else Round(g, r.activated, r.refind + [x])
  }

  /** The loop that spawns tracks from leftover detections strong enough to start one. */
  datatype Births = Births(heap: Heap, born: seq<int>, count: int)

  function Spawn(h: Heap, fr: Frame, dets: seq<nat>, f: int, cfg: Config, count: int): (b: Births)
    requires InFrame(fr, dets)
    ensures b.heap.Keys >= h.Keys && Known(b.heap, b.born)
  {
    if dets == [] then Births(h, [], count)
    else
      var b := Spawn(h, fr, dets[..|dets| - 1], f, cfg, count);
      var i := dets[|dets| - 1];
      if fr.scores[i] < cfg.trackThresh + 0.1 then b
      else Births(b.heap[b.count + 1 := Activated(fr, i, f)], b.born + [b.count + 1], b.count + 1)
  }

  // ---- selections -----------------------------------------------------------

  predicate IsHigh(fr: Frame, cfg: Config, i: nat)
    requires i < |fr.scores|
  {
    fr.scores[i] >= cfg.trackThresh
  }

  predicate IsLow(fr: Frame, cfg: Config, i: nat)
    requires i < |fr.scores|
  {
    LOW_THRESH < fr.scores[i] < cfg.trackThresh
  }

  function High(fr: Frame, cfg: Config, n: nat): (r: seq<nat>)
    requires n <= |fr.scores|
    ensures forall i: nat :: i in r <==> i < n && IsHigh(fr, cfg, i)
    ensures forall k :: 0 <= k < |r| ==> r[k] < n
    ensures DistinctNats(r)
  {
    if n == 0 then [] else High(fr, cfg, n - 1) + if IsHigh(fr, cfg, n - 1) then [n - 1] else []
  }

  function Low(fr: Frame, cfg: Config, n: nat): (r: seq<nat>)
    requires n <= |fr.scores|
    ensures forall i: nat :: i in r <==> i < n && IsLow(fr, cfg, i)
    ensures forall k :: 0 <= k < |r| ==> r[k] < n
    ensures DistinctNats(r)
  {
    if n == 0 then [] else Low(fr, cfg, n - 1) + if IsLow(fr, cfg, n - 1) then [n - 1] else []
  }

  ghost predicate DistinctNats(s: seq<nat>) {
    forall j, k :: 0 <= j < k < |s| ==> s[j] != s[k]
  }

  function HasActivation(h: Heap, flag: bool): int -> bool {
    x => x in h && h[x].activated == flag
  }

  function HasState(h: Heap, state: TrackState): int -> bool {
    x => x in h && h[x].state == state
  }

  function NotLost(h: Heap): int -> bool {
    x => x in h && h[x].state != Lost
  }

  function WithActivation(h: Heap, ids: seq<int>, flag: bool): (r: seq<int>)
    ensures forall x :: x in r <==> x in ids && x in h && h[x].activated == flag
    ensures Distinct(ids) ==> Distinct(r)
  {
    Filter(ids, HasActivation(h, flag))
  }

  function InState(h: Heap, ids: seq<int>, state: TrackState): (r: seq<int>)
    ensures forall x :: x in r <==> x in ids && x in h && h[x].state == state
    ensures Distinct(ids) ==> Distinct(r)
  {
    Filter(ids, HasState(h, state))
  }

  function IsOverdue(h: Heap, f: int, maxLost: nat): int -> bool {
    x => x in h && f - h[x].frame > maxLost
  }

  function Overdue(h: Heap, ids: seq<int>, f: int, maxLost: nat): (r: seq<int>)
    ensures forall x :: x in r <==> x in ids && x in h && f - h[x].frame > maxLost
    ensures Distinct(ids) ==> Distinct(r)
  {
    Filter(ids, IsOverdue(h, f, maxLost))
  }

  // ---- duplicates -----------------------------------------------------------

  /** Two tracks whose boxes nearly coincide. */
  predicate Close(h: Heap, a: int, b: int)
    requires a in h && b in h
  {
    1.0 - Iou(TrackBox(h[a]), TrackBox(h[b])) < DUPLICATE_DISTANCE
  }

  function Age(h: Heap, x: int): int
    requires x in h
  {
    h[x].frame - h[x].start
  }

  /** A tracked id goes when some lost one is close and at least as old. */
  predicate DropsTracked(h: Heap, p: int, lost: seq<int>)
    requires p in h && Known(h, lost)
  {
    exists q :: q in lost && Close(h, p, q) && Age(h, p) <= Age(h, q)
  }

  predicate DropsLost(h: Heap, q: int, tracked: seq<int>)
    requires q in h && Known(h, tracked)
  {
    exists p :: p in tracked && Close(h, p, q) && Age(h, p) > Age(h, q)
  }

  function KeepsTracked(h: Heap, lost: seq<int>): int -> bool
    requires Known(h, lost)
  {
    x => x in h && !DropsTracked(h, x, lost)
  }

  function KeepsLost(h: Heap, tracked: seq<int>): int -> bool
    requires Known(h, tracked)
  {
    x => x in h && !DropsLost(h, x, tracked)
  }

  function WithoutDuplicates(h: Heap, tracked: seq<int>, lost: seq<int>): (r: (seq<int>, seq<int>))
    requires Known(h, tracked) && Known(h, lost)
    ensures forall x :: x in r.0 <==> x in tracked && !DropsTracked(h, x, lost)
    ensures forall x :: x in r.1 <==> x in lost && !DropsLost(h, x, tracked)
    ensures Distinct(tracked) ==> Distinct(r.0)
    ensures Distinct(lost) ==> Distinct(r.1)
  {
    (Filter(tracked, KeepsTracked(h, lost)), Filter(lost, KeepsLost(h, tracked)))
  }

  // ---- the phases of one frame ----------------------------------------------

  /** One association round: matches applied, and the ids and detections left over. */
  datatype Stage = Stage(heap: Heap, activated: seq<int>, refind: seq<int>, rows: seq<int>, cols: seq<nat>)

  ghost predicate Result(m: Matching, rows: nat, cols: nat) {
    && Fits(m.matches, rows, cols)
    && (forall k :: 0 <= k < |m.rows| ==> m.rows[k] < rows)
    && (forall k :: 0 <= k < |m.cols| ==> m.cols[k] < cols)
  }

  lemma AssociationFits(c: Cost, thresh: real, solver: Solver)
    requires SolverOk(solver)
    ensures Result(LinearAssignment(c, thresh, solver), c.rows, c.cols)
  {
    hide LinearAssignment;
    LinearAssignmentSound(c, thresh, solver);
    var m := LinearAssignment(c, thresh, solver);
    forall k | 0 <= k < |m.rows| ensures m.rows[k] < c.rows {
      assert m.rows[k] in m.rows;
    }
    forall k | 0 <= k < |m.cols| ensures m.cols[k] < c.cols {
      assert m.cols[k] in m.cols;
    }
  }

  /** `linear_assignment` on the distances between `ids` and `dets`. */
  function Associate(h: Heap, ids: seq<int>, fr: Frame, dets: seq<nat>, thresh: real, cfg: Config): (m: Matching)
    requires ConfigOk(cfg) && Known(h, ids) && InFrame(fr, dets)
    ensures Result(m, |ids|, |dets|)
  {
    AssociationFits(Distances(h, ids, fr, dets), thresh, cfg.solver);
    LinearAssignment(Distances(h, ids, fr, dets), thresh, cfg.solver)
  }

  function MatchRound(h: Heap, ids: seq<int>, fr: Frame, dets: seq<nat>, thresh: real,
                      f: int, cfg: Config, direct: bool): (s: Stage)
    requires ConfigOk(cfg) && Known(h, ids) && InFrame(fr, dets)
    ensures s.heap.Keys == h.Keys && InFrame(fr, s.cols)
    ensures Known(h, s.activated) && Known(h, s.refind) && Known(h, s.rows)
  {
    var m := Associate(h, ids, fr, dets, thresh, cfg);
    var r := ApplyMatches(h, ids, fr, dets, m.matches, f, cfg, direct);
    RoundKnown(h, ids, fr, dets, m.matches, f, cfg, direct);
    Stage(r.heap, r.activated, r.refind, At(ids, m.rows), At(dets, m.cols))
  }

  /** After both rounds over confirmed and lost tracks. */
  datatype Confirmed = Confirmed(heap: Heap, activated: seq<int>, refind: seq<int>,
                                 lost: seq<int>, left: seq<nat>)

  function MatchConfirmed(h: Heap, pool: seq<int>, fr: Frame, high: seq<nat>, low: seq<nat>,
                          f: int, cfg: Config): (c: Confirmed)
    requires ConfigOk(cfg) && Known(h, pool) && InFrame(fr, high) && InFrame(fr, low)
    ensures c.heap.Keys == h.Keys && InFrame(fr, c.left)
    ensures Known(h, c.activated) && Known(h, c.refind) && Known(h, c.lost)
  {
    var s1 := MatchRound(h, pool, fr, high, cfg.matchThresh, f, cfg, false);
    var rest := InState(s1.heap, s1.rows, Tracked);
    var s2 := MatchRound(s1.heap, rest, fr, low, SECOND_THRESH, f, cfg, false);
    var newlyLost := Filter(s2.rows, NotLost(s2.heap));
    Confirmed(MarkAll(s2.heap, newlyLost, Lost), s1.activated + s2.activated,
              s1.refind + s2.refind, newlyLost, s1.cols)
  }

  /** After the round over unconfirmed tracks. */
  datatype Tentative = Tentative(heap: Heap, activated: seq<int>, gone: seq<int>, spare: seq<nat>)

  function MatchTentative(h: Heap, unconfirmed: seq<int>, fr: Frame, left: seq<nat>,
                          f: int, cfg: Config): (t: Tentative)
    requires ConfigOk(cfg) && Known(h, unconfirmed) && InFrame(fr, left)
    ensures t.heap.Keys == h.Keys && InFrame(fr, t.spare)
    ensures Known(h, t.activated) && Known(h, t.gone)
  {
    var s := MatchRound(h, unconfirmed, fr, left, UNCONFIRMED_THRESH, f, cfg, true);
    Tentative(MarkAll(s.heap, s.rows, Removed), s.activated, s.rows, s.cols)
  }

  function LastOf(s: seq<int>, n: nat): seq<int> {
    if |s| > n then s[|s| - n..] else s
  }

  /** The list bookkeeping at the end of a frame. */
  function Merge(s: Tracker, h: Heap, f: int, activated: seq<int>, refind: seq<int>,
                 newlyLost: seq<int>, removed: seq<int>): (t: Tracker)
    requires Known(h, s.tracked) && Known(h, s.lost)
    requires Known(h, activated) && Known(h, refind) && Known(h, newlyLost)
    ensures Known(t.heap, t.tracked) && Known(t.heap, t.lost) && t.frame == f
  {
    var tracked := Joint(Joint(InState(h, s.tracked, Tracked), activated), refind);
    var lost := Sub(Sub(s.lost, tracked) + newlyLost, s.removed);
    var (keptTracked, keptLost) := WithoutDuplicates(h, tracked, lost);
    Tracker(h, keptTracked, keptLost, LastOf(s.removed + removed, REMOVED_KEPT), f)
  }

  /** Everything one frame computes. */
  datatype FrameRun = FrameRun(
    pool: seq<int>, unconfirmed: seq<int>, high: seq<nat>, low: seq<nat>,
    predicted: Heap, confirmed: Confirmed, tentative: Tentative, births: Births,
    overdue: seq<int>, settled: Heap, activated: seq<int>)

  function Ran(s: Tracker, fr: Frame, cfg: Config, count: int): (r: FrameRun)
    requires ConfigOk(cfg) && Aligned(fr) && Known(s.heap, s.tracked) && Known(s.heap, s.lost)
    ensures r.settled.Keys >= s.heap.Keys
    ensures Known(r.settled, r.activated) && Known(r.settled, r.confirmed.refind) && Known(r.settled, r.confirmed.lost)
  {
    var f, n := s.frame + 1, |fr.scores|;
    var high, low := High(fr, cfg, n), Low(fr, cfg, n);
    var unconfirmed := WithActivation(s.heap, s.tracked, false);
    var pool := Joint(WithActivation(s.heap, s.tracked, true), s.lost);
    var predicted := PredictAll(s.heap, pool);
    var c := MatchConfirmed(predicted, pool, fr, high, low, f, cfg);
    var t := MatchTentative(c.heap, unconfirmed, fr, c.left, f, cfg);
    var b := Spawn(t.heap, fr, t.spare, f, cfg, count);
    var overdue := Overdue(b.heap, s.lost, f, cfg.maxLost);
    FrameRun(pool, unconfirmed, high, low, predicted, c, t, b, overdue,
             MarkAll(b.heap, overdue, Removed), c.activated + t.activated + b.born)
  }

  /** `BYTETracker.update`: the new tracker and the new value of the id counter. */
  function Step(s: Tracker, fr: Frame, cfg: Config, count: int): (r: (Tracker, int))
    requires ConfigOk(cfg) && Aligned(fr) && Known(s.heap, s.tracked) && Known(s.heap, s.lost)
    ensures Known(r.0.heap, r.0.tracked) && Known(r.0.heap, r.0.lost)
  {
    var r := Ran(s, fr, cfg, count);
    (Merge(s, r.settled, s.frame + 1, r.activated, r.confirmed.refind, r.confirmed.lost,
           r.tentative.gone + r.overdue),
     r.births.count)
  }

  /** The online tracks `update` returns. */
  function Online(s: Tracker): seq<int> {
    WithActivation(s.heap, s.tracked, true)
  }

  // ---- what the phases know -------------------------------------------------

  lemma {:induction false} RoundKnown(h: Heap, ids: seq<int>, fr: Frame, dets: seq<nat>, ms: seq<Pair>,
                                      f: int, cfg: Config, direct: bool)
    requires ConfigOk(cfg) && Known(h, ids) && InFrame(fr, dets) && Fits(ms, |ids|, |dets|)
    ensures var r := ApplyMatches(h, ids, fr, dets, ms, f, cfg, direct);
      (forall x :: x in r.activated ==> x in ids) && (forall x :: x in r.refind ==> x in ids)
  {
    if ms != [] {
      RoundKnown(h, ids, fr, dets, ms[..|ms| - 1], f, cfg, direct);
    }
  }
}
