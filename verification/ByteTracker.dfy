/** The tracker itself: fields and lists updated in place, proved to compute `TrackerModel.Step`. */
module ByteTracker {
  import opened TrackLists
  import opened TrackerModel
  import opened TrackerRounds
  import opened TrackerInvariant
  import opened Tracks
  import opened TrackLoops

  lemma SelectionInFrame(fr: Frame, cfg: Config)
    requires Aligned(fr)
    ensures InFrame(fr, High(fr, cfg, |fr.scores|)) && InFrame(fr, Low(fr, cfg, |fr.scores|))
  {}

  /** Track objects for the selected detections. */
  method MakeDetections(fr: Frame, sel: seq<nat>, ghost objs: Registry)
    returns (dets: seq<STrack>)
    requires InFrame(fr, sel)
    ensures Detections(objs, dets, fr, sel) && forall k :: 0 <= k < |dets| ==> fresh(dets[k])
  {
    dets := [];
    for k := 0 to |sel|
      invariant |dets| == k
      invariant forall j :: 0 <= j < k ==> fresh(dets[j]) && dets[j].Holds(fr, sel[j]) && dets[j] !in objs.Values
      invariant forall i, j :: 0 <= i < j < k ==> dets[i] != dets[j]
    {
      var i := sel[k];
      var det := new STrack(fr.boxes[i], fr.scores[i], fr.classes[i], i);
      dets := dets + [det];
    }
  }

  /** Both rounds over confirmed and lost tracks. */
  method MatchPool(pool: seq<STrack>, high: seq<STrack>, low: seq<STrack>, frame: int, cfg: Config,
                   ghost objs: Registry,
                   ghost ids: seq<int>, ghost fr: Frame, ghost highIdx: seq<nat>, ghost lowIdx: seq<nat>)
    returns (activated: seq<STrack>, refind: seq<STrack>, lost: seq<STrack>, left: seq<STrack>,
             ghost c: TrackerModel.Confirmed)
    requires Registered(objs) && Lists(objs, pool, ids) && ConfigOk(cfg) && Distinct(ids)
    requires InFrame(fr, highIdx) && InFrame(fr, lowIdx) && DistinctNats(highIdx) && DistinctNats(lowIdx)
    requires Detections(objs, high, fr, highIdx) && Detections(objs, low, fr, lowIdx)
    modifies objs.Values
    ensures Registered(objs) && Known(old(Values(objs)), ids)
    ensures c == MatchConfirmed(old(Values(objs)), ids, fr, highIdx, lowIdx, frame, cfg)
    ensures Values(objs) == c.heap && Detections(objs, left, fr, c.left)
    ensures Lists(objs, activated, c.activated) && Lists(objs, refind, c.refind) && Lists(objs, lost, c.lost)
    ensures forall d :: d in left ==> d in high
  {
    ghost var h := Values(objs);
    assert Known(h, ids);
    hide Registered, Values, Lists, ConfigOk, MatchRound, RoundOutcome, Distinct, DistinctNats, Detections, Filter,
         MarkAll;
    RoundFacts(h, ids, fr, highIdx, cfg.matchThresh, frame, cfg, false);
    DetectionsApart(objs, low, fr, lowIdx);
    var rows1;
    ghost var s1;
    activated, refind, rows1, left, s1 := MatchStage(pool, high, cfg.matchThresh, frame, cfg, false, objs, ids, fr,
                                                     highIdx);
    DetectionsApart(objs, left, fr, s1.cols);
    RowsDistinct(h, ids, highIdx, frame, false, s1);
    var activated2, refind2;
    ghost var s2, lostIds;
    activated2, refind2, lost, s2, lostIds := RetryTracked(rows1, low, frame, cfg, objs, s1.rows, fr, lowIdx);
    ListsConcat(objs, activated, s1.activated, activated2, s2.activated);
    ListsConcat(objs, refind, s1.refind, refind2, s2.refind);
    activated, refind := activated + activated2, refind + refind2;
    c := Confirmed(Values(objs), s1.activated + s2.activated, s1.refind + s2.refind, lostIds, s1.cols);
  }

  /** The second round: the tracked leftovers of the first against the low-score detections. */
  method RetryTracked(rows: seq<STrack>, low: seq<STrack>, frame: int, cfg: Config, ghost objs: Registry,
                      ghost ids: seq<int>, ghost fr: Frame, ghost lowIdx: seq<nat>)
    returns (activated: seq<STrack>, refind: seq<STrack>, lost: seq<STrack>, ghost s: Stage, ghost lostIds: seq<int>)
    requires Registered(objs) && Lists(objs, rows, ids) && ConfigOk(cfg) && Distinct(ids)
    requires InFrame(fr, lowIdx) && DistinctNats(lowIdx) && Detections(objs, low, fr, lowIdx)
    modifies objs.Values
    ensures Registered(objs) && Known(old(Values(objs)), ids)
    ensures s == MatchRound(old(Values(objs)), InState(old(Values(objs)), ids, Tracked), fr, lowIdx, SECOND_THRESH,
                            frame, cfg, false)
    ensures lostIds == Filter(s.rows, NotLost(s.heap)) && Known(s.heap, lostIds)
    ensures Values(objs) == MarkAll(s.heap, lostIds, Lost)
    ensures Lists(objs, activated, s.activated) && Lists(objs, refind, s.refind) && Lists(objs, lost, lostIds)
  {
    ghost var h := Values(objs);
    assert Known(h, ids);
    hide Registered, Values, Lists, ConfigOk, MatchRound, RoundOutcome, Distinct, DistinctNats, Detections, Filter,
         MarkAll;
    var rest, restIds := TracksIn(rows, Tracked, objs, ids);
    RoundFacts(h, restIds, fr, lowIdx, SECOND_THRESH, frame, cfg, false);
    var left, others;
    activated, refind, left, others, s := MatchStage(rest, low, SECOND_THRESH, frame, cfg, false, objs, restIds, fr,
                                                     lowIdx);
    RowsDistinct(h, restIds, lowIdx, frame, false, s);
    lost, lostIds := MarkLost(left, objs, s.rows);
  }

  lemma RowsDistinct(h: Heap, ids: seq<int>, dets: seq<nat>, f: int, direct: bool, s: Stage)
    requires RoundOutcome(h, ids, dets, f, direct, s)
    ensures Distinct(s.rows)
  {}

  lemma ListsConcat(objs: Registry, s: seq<STrack>, a: seq<int>, t: seq<STrack>, b: seq<int>)
    requires Lists(objs, s, a) && Lists(objs, t, b)
    ensures Lists(objs, s + t, a + b)
  {}

  lemma ListsGrowBy(objs: Registry, more: Registry, s: seq<STrack>, a: seq<int>, t: seq<STrack>, b: seq<int>)
    requires Lists(objs, s, a) && Lists(more, t, b) && Grown(objs, more)
    ensures Lists(more, s + t, a + b)
  {
    hide Lists;
    ListsGrow(objs, more, s, a);
    ListsConcat(more, s, a, t, b);
  }

  /** The round over unconfirmed tracks: those left over are removed. */
  method MatchUnconfirmed(s: seq<STrack>, left: seq<STrack>, frame: int, cfg: Config,
                          ghost objs: Registry, ghost ids: seq<int>, ghost fr: Frame, ghost leftIdx: seq<nat>)
    returns (activated: seq<STrack>, gone: seq<STrack>, spare: seq<STrack>, ghost t: Tentative)
    requires Registered(objs) && Lists(objs, s, ids) && ConfigOk(cfg)
    requires InFrame(fr, leftIdx) && Detections(objs, left, fr, leftIdx)
    modifies objs.Values
    ensures Registered(objs) && Known(old(Values(objs)), ids)
    ensures t == MatchTentative(old(Values(objs)), ids, fr, leftIdx, frame, cfg)
    ensures Values(objs) == t.heap && Detections(objs, spare, fr, t.spare)
    ensures Lists(objs, activated, t.activated) && Lists(objs, gone, t.gone)
    ensures forall d :: d in spare ==> d in left
  {
    hide Registered, Values, Lists, ConfigOk, MatchRound;
    ghost var h := Values(objs);
    var refind;
    ghost var st;
    activated, refind, gone, spare, st := MatchStage(s, left, UNCONFIRMED_THRESH, frame, cfg, true, objs, ids, fr,
                                                     leftIdx);
    MarkEach(gone, Removed, objs, st.rows);
    t := Tentative(Values(objs), st.activated, st.rows, st.cols);
  }

  method LastTracks(s: seq<STrack>, n: nat, ghost objs: Registry, ghost ids: seq<int>) returns (r: seq<STrack>)
    requires Lists(objs, s, ids)
    ensures Lists(objs, r, LastOf(ids, n))
  {
    r := if |s| > n then s[|s| - n..] else s;
  }

  /** Splits the tracked list, joins its confirmed part with the lost tracks, and predicts them. */
  method PreparePool(tracked: seq<STrack>, lostStracks: seq<STrack>, ghost objs: Registry, ghost s: Tracker)
    returns (pool: seq<STrack>, unconfirmed: seq<STrack>)
    requires Registered(objs) && Lists(objs, tracked, s.tracked) && Lists(objs, lostStracks, s.lost)
    requires s.heap == Values(objs)
    modifies objs.Values
    ensures Registered(objs) && Known(s.heap, PoolOf(s))
    ensures Values(objs) == PredictAll(s.heap, PoolOf(s))
    ensures Lists(objs, pool, PoolOf(s)) && Lists(objs, unconfirmed, WithActivation(s.heap, s.tracked, false))
  {
    hide Registered, Values, Lists, Distinct, Joint, WithActivation;
    var confirmed, confirmedOf := TracksFlagged(tracked, true, objs, s.tracked);
    ghost var unconfirmedOf;
    unconfirmed, unconfirmedOf := TracksFlagged(tracked, false, objs, s.tracked);
    pool := JointStracks(confirmed, lostStracks, objs, confirmedOf, s.lost);
    MultiPredict(pool, objs, PoolOf(s));
  }

  ghost function PoolOf(s: Tracker): seq<int> {
    Joint(WithActivation(s.heap, s.tracked, true), s.lost)
  }

  lemma PoolDistinct(s: Tracker)
    requires Distinct(s.tracked)
    ensures Distinct(PoolOf(s))
  {}

  lemma SelectionsDistinct(fr: Frame, cfg: Config)
    requires Aligned(fr)
    ensures DistinctNats(High(fr, cfg, |fr.scores|)) && DistinctNats(Low(fr, cfg, |fr.scores|))
  {}

  /** Prediction and both rounds over confirmed and lost tracks, from the detections of a frame. */
  method MatchExisting(tracked: seq<STrack>, lostStracks: seq<STrack>, fr: Frame, frame: int, cfg: Config,
                       ghost objs: Registry, ghost s: Tracker)
    returns (unconfirmed: seq<STrack>, activated: seq<STrack>, refind: seq<STrack>, lost: seq<STrack>,
             left: seq<STrack>,
             ghost c: TrackerModel.Confirmed)
    requires Registered(objs) && Lists(objs, tracked, s.tracked) && Lists(objs, lostStracks, s.lost)
    requires s.heap == Values(objs)
    requires ConfigOk(cfg) && Aligned(fr) && Distinct(s.tracked)
    modifies objs.Values
    ensures Registered(objs) && Known(s.heap, PoolOf(s))
    ensures InFrame(fr, High(fr, cfg, |fr.scores|)) && InFrame(fr, Low(fr, cfg, |fr.scores|))
    ensures c == MatchConfirmed(PredictAll(s.heap, PoolOf(s)), PoolOf(s), fr, High(fr, cfg, |fr.scores|),
                                Low(fr, cfg, |fr.scores|), frame, cfg)
    ensures Values(objs) == c.heap && Detections(objs, left, fr, c.left) && forall d :: d in left ==> fresh(d)
    ensures Lists(objs, activated, c.activated) && Lists(objs, refind, c.refind) && Lists(objs, lost, c.lost)
    ensures Lists(objs, unconfirmed, WithActivation(s.heap, s.tracked, false))
  {
    hide Registered, Values, Lists, ConfigOk, Distinct, DistinctNats, PoolOf, WithActivation, PredictAll,
         MatchConfirmed, High, Low, Detections;
    PoolDistinct(s);
    SelectionInFrame(fr, cfg);
    SelectionsDistinct(fr, cfg);
    var highIdx, lowIdx := High(fr, cfg, |fr.scores|), Low(fr, cfg, |fr.scores|);
    var high := MakeDetections(fr, highIdx, objs);
    var low := MakeDetections(fr, lowIdx, objs);
    DetectionsApart(objs, high, fr, highIdx);
    DetectionsApart(objs, low, fr, lowIdx);
    var pool;
    pool, unconfirmed := PreparePool(tracked, lostStracks, objs, s);
    activated, refind, lost, left, c := MatchPool(pool, high, low, frame, cfg, objs, PoolOf(s), fr, highIdx, lowIdx);
  }

  lemma ListsKnown(objs: Registry, s: seq<STrack>, ids: seq<int>)
    requires Lists(objs, s, ids)
    ensures forall x :: x in ids ==> x in objs
  {}

  /** The lists a frame leaves for the bookkeeping at its end. */
  datatype Outcome = Outcome(activated: seq<STrack>, refind: seq<STrack>, lost: seq<STrack>, removed: seq<STrack>)

  /** `c` and `t` are what the rounds of a frame compute. */
  ghost predicate RoundsOf(s: Tracker, fr: Frame, f: int, cfg: Config, c: TrackerModel.Confirmed, t: Tentative)
    requires ConfigOk(cfg) && Aligned(fr)
  {
    var high, low := High(fr, cfg, |fr.scores|), Low(fr, cfg, |fr.scores|);
    && Known(s.heap, PoolOf(s)) && InFrame(fr, high) && InFrame(fr, low)
    && c == MatchConfirmed(PredictAll(s.heap, PoolOf(s)), PoolOf(s), fr, high, low, f, cfg)
    && Known(c.heap, WithActivation(s.heap, s.tracked, false))
    && t == MatchTentative(c.heap, WithActivation(s.heap, s.tracked, false), fr, c.left, f, cfg)
  }

  /** All three association rounds of a frame. */
  method MatchAll(tracked: seq<STrack>, lostStracks: seq<STrack>, fr: Frame, frame: int, cfg: Config,
                  ghost objs: Registry, ghost s: Tracker)
    returns (activated: seq<STrack>, refind: seq<STrack>, lost: seq<STrack>, gone: seq<STrack>, spare: seq<STrack>,
             ghost c: TrackerModel.Confirmed, ghost t: Tentative)
    requires Registered(objs) && Lists(objs, tracked, s.tracked) && Lists(objs, lostStracks, s.lost)
    requires s.heap == Values(objs)
    requires ConfigOk(cfg) && Aligned(fr) && Distinct(s.tracked)
    modifies objs.Values
    ensures Registered(objs) && RoundsOf(s, fr, frame, cfg, c, t)
    ensures Values(objs) == t.heap && InFrame(fr, t.spare) && Detections(objs, spare, fr, t.spare)
    ensures forall k :: 0 <= k < |spare| ==> fresh(spare[k])
    ensures Lists(objs, activated, c.activated + t.activated) && Lists(objs, refind, c.refind)
    ensures Lists(objs, lost, c.lost) && Lists(objs, gone, t.gone)
  {
    hide Registered, Values, Lists, Distinct, Detections, PoolOf, ConfigOk;
    hide WithActivation, MatchConfirmed, MatchTentative, PredictAll, High, Low;
    var unconfirmed, left, activated2;
    unconfirmed, activated, refind, lost, left, c := MatchExisting(tracked, lostStracks, fr, frame, cfg, objs, s);
    activated2, gone, spare, t :=
      MatchUnconfirmed(unconfirmed, left, frame, cfg, objs, WithActivation(s.heap, s.tracked, false), fr, c.left);
    ListsConcat(objs, activated, c.activated, activated2, t.activated);
    activated := activated + activated2;
    forall k | 0 <= k < |spare| ensures fresh(spare[k]) {
      assert spare[k] in spare;
    }
  }

  /** Every registered object stays registered. */
  ghost predicate Grown(was: Registry, objs: Registry) {
    forall x :: x in was ==> x in objs && objs[x] == was[x]
  }

  lemma GrownValues(was: Registry, objs: Registry, spare: seq<STrack>)
    requires Grown(was, objs) && forall x :: x in objs && x !in was ==> objs[x] in spare
    ensures forall x :: x in objs ==> objs[x] in was.Values || objs[x] in spare
  {
    forall x | x in objs ensures objs[x] in was.Values || objs[x] in spare {
      assert x in was ==> was[x] in was.Values;
    }
  }

  /** Births and ageing. */
  method StartAndAge(spare: seq<STrack>, lostStracks: seq<STrack>, frame: int, cfg: Config, counter: Counter,
                     ghost was: Registry, ghost lostIds: seq<int>, ghost fr: Frame, ghost spareIdx: seq<nat>)
    returns (born: seq<STrack>, overdue: seq<STrack>, ghost objs: Registry, ghost b: Births, ghost overdueIds: seq<int>)
    requires Registered(was) && Lists(was, lostStracks, lostIds) && IdsUpTo(was, counter.n)
    requires InFrame(fr, spareIdx) && Detections(was, spare, fr, spareIdx)
    modifies counter, spare, was.Values
    ensures Registered(objs) && IdsUpTo(objs, counter.n) && Grown(was, objs)
    ensures forall x :: x in objs && x !in was ==> objs[x] in spare
    ensures b == Spawn(old(Values(was)), fr, spareIdx, frame, cfg, old(counter.n)) && counter.n == b.count
    ensures overdueIds == Overdue(b.heap, lostIds, frame, cfg.maxLost) && Known(b.heap, overdueIds)
    ensures Values(objs) == MarkAll(b.heap, overdueIds, Removed)
    ensures Lists(objs, born, b.born) && Lists(objs, overdue, overdueIds)
  {
    hide Registered, Values, Lists, Spawn, Overdue, MarkAll;
    born, objs, b := SpawnEach(spare, counter, frame, cfg, was, fr, spareIdx);
    ListsGrow(was, objs, lostStracks, lostIds);
    GrownValues(was, objs, spare);
    overdue, overdueIds := AgeOut(lostStracks, frame, cfg.maxLost, objs, lostIds);
  }

  /** The parts of a frame one after the other. */
  method MatchAndStart(tracked: seq<STrack>, lostStracks: seq<STrack>, fr: Frame, frame: int, cfg: Config,
                       counter: Counter, ghost was: Registry, ghost s: Tracker)
    returns (o: Outcome, born: seq<STrack>, overdue: seq<STrack>, ghost objs: Registry,
             ghost c: TrackerModel.Confirmed, ghost t: Tentative, ghost b: Births, ghost overdueIds: seq<int>)
    requires Registered(was) && Lists(was, tracked, s.tracked) && Lists(was, lostStracks, s.lost)
    requires s.heap == Values(was)
    requires ConfigOk(cfg) && Aligned(fr) && Distinct(s.tracked) && frame == s.frame + 1 && IdsUpTo(was, counter.n)
    modifies counter, was.Values
    ensures Registered(objs) && IdsUpTo(objs, counter.n) && Grown(was, objs)
    ensures forall x :: x in objs && x !in was ==> fresh(objs[x])
    ensures RoundsOf(s, fr, frame, cfg, c, t) && InFrame(fr, t.spare)
    ensures b == Spawn(t.heap, fr, t.spare, frame, cfg, old(counter.n)) && counter.n == b.count
    ensures overdueIds == Overdue(b.heap, s.lost, frame, cfg.maxLost) && Known(b.heap, overdueIds)
    ensures Values(objs) == MarkAll(b.heap, overdueIds, Removed)
    ensures Lists(was, o.activated, c.activated + t.activated) && Lists(was, o.refind, c.refind)
    ensures Lists(was, o.lost, c.lost) && Lists(was, o.removed, t.gone)
    ensures Lists(objs, born, b.born) && Lists(objs, overdue, overdueIds)
  {
    hide Registered, Values, Lists, Distinct, Detections, ConfigOk, IdsUpTo, Known, InFrame, Aligned;
    hide RoundsOf, Spawn, MarkAll, Overdue, Grown;
    var activated, refind, lost, gone, spare;
    activated, refind, lost, gone, spare, c, t := MatchAll(tracked, lostStracks, fr, frame, cfg, was, s);
    o := Outcome(activated, refind, lost, gone);
    born, overdue, objs, b, overdueIds :=
      StartAndAge(spare, lostStracks, frame, cfg, counter, was, s.lost, fr, t.spare);
  }

  /** Association, births and ageing of one frame. */
  method MatchFrame(tracked: seq<STrack>, lostStracks: seq<STrack>, fr: Frame, frame: int, cfg: Config,
                    counter: Counter, ghost was: Registry, ghost s: Tracker)
    returns (o: Outcome, ghost objs: Registry, ghost r: FrameRun)
    requires Registered(was) && Lists(was, tracked, s.tracked) && Lists(was, lostStracks, s.lost)
    requires s.heap == Values(was)
    requires ConfigOk(cfg) && Aligned(fr) && Distinct(s.tracked) && frame == s.frame + 1 && IdsUpTo(was, counter.n)
    modifies counter, was.Values
    ensures Registered(objs) && IdsUpTo(objs, counter.n) && Grown(was, objs)
    ensures forall x :: x in objs && x !in was ==> fresh(objs[x])
    ensures Known(s.heap, s.tracked) && Known(s.heap, s.lost)
    ensures r == Ran(s, fr, cfg, old(counter.n)) && counter.n == r.births.count && Values(objs) == r.settled
    ensures Lists(objs, o.activated, r.activated) && Lists(objs, o.refind, r.confirmed.refind)
    ensures Lists(objs, o.lost, r.confirmed.lost) && Lists(objs, o.removed, r.tentative.gone + r.overdue)
  {
    ListsKnown(was, tracked, s.tracked);
    ListsKnown(was, lostStracks, s.lost);
    assert Known(s.heap, s.tracked) && Known(s.heap, s.lost);
    hide Registered, Values, Lists, Distinct, ConfigOk, IdsUpTo, Ran, Known, InFrame, Aligned;
    hide RoundsOf, Spawn, MarkAll, Overdue, Grown;
    var p, born, overdue;
    ghost var c, t, b, overdueIds;
    p, born, overdue, objs, c, t, b, overdueIds :=
      MatchAndStart(tracked, lostStracks, fr, frame, cfg, counter, was, s);
    RanFromParts(s, fr, cfg, old(counter.n), c, t, b, overdueIds);
    OutcomeLists(was, objs, p, born, overdue, c, t, b.born, overdueIds);
    r := Ran(s, fr, cfg, old(counter.n));
    o := p.(activated := p.activated + born, removed := p.removed + overdue);
  }

  /** The lists of the rounds still stand for their ids among the objects of the frame, and take on what
      births and ageing add. */
  lemma OutcomeLists(was: Registry, objs: Registry, o: Outcome, born: seq<STrack>, overdue: seq<STrack>,
                     c: TrackerModel.Confirmed, t: Tentative, bornIds: seq<int>, overdueIds: seq<int>)
    requires Grown(was, objs)
    requires Lists(was, o.activated, c.activated + t.activated) && Lists(was, o.refind, c.refind)
    requires Lists(was, o.lost, c.lost) && Lists(was, o.removed, t.gone)
    requires Lists(objs, born, bornIds) && Lists(objs, overdue, overdueIds)
    ensures Lists(objs, o.activated + born, c.activated + t.activated + bornIds) && Lists(objs, o.refind, c.refind)
    ensures Lists(objs, o.lost, c.lost) && Lists(objs, o.removed + overdue, t.gone + overdueIds)
  {
    hide Lists;
    ListsGrow(was, objs, o.refind, c.refind);
    ListsGrow(was, objs, o.lost, c.lost);
    ListsGrowBy(was, objs, o.activated, c.activated + t.activated, born, bornIds);
    ListsGrowBy(was, objs, o.removed, t.gone, overdue, overdueIds);
  }

  /** The parts computed one after the other are those of `Ran`. */
  lemma RanFromParts(s: Tracker, fr: Frame, cfg: Config, count: int,
                     c: TrackerModel.Confirmed, t: Tentative, b: Births, overdue: seq<int>)
    requires ConfigOk(cfg) && Aligned(fr) && Known(s.heap, s.tracked) && Known(s.heap, s.lost)
    requires RoundsOf(s, fr, s.frame + 1, cfg, c, t) && InFrame(fr, t.spare)
    requires b == Spawn(t.heap, fr, t.spare, s.frame + 1, cfg, count)
    requires overdue == Overdue(b.heap, s.lost, s.frame + 1, cfg.maxLost) && Known(b.heap, overdue)
    ensures var r := Ran(s, fr, cfg, count);
      && r.confirmed == c && r.tentative == t && r.births == b && r.overdue == overdue
      && r.settled == MarkAll(b.heap, overdue, Removed)
      && r.activated == c.activated + t.activated + b.born
  {
    hide PredictAll, MatchConfirmed, MatchTentative, Spawn, MarkAll, Overdue, High, Low, Filter, Joint,
         WithActivation, ConfigOk;
  }

  /** The list bookkeeping at the end of a frame. */
  method MergeLists(tracked: seq<STrack>, lost: seq<STrack>, removed: seq<STrack>, o: Outcome, ghost objs: Registry,
                    ghost s: Tracker, ghost f: int, ghost activated: seq<int>, ghost refind: seq<int>,
                    ghost newlyLost: seq<int>, ghost gone: seq<int>)
    returns (tracked': seq<STrack>, lost': seq<STrack>, removed': seq<STrack>, ghost m: Tracker)
    requires Registered(objs) && Lists(objs, tracked, s.tracked) && Lists(objs, lost, s.lost)
    requires Lists(objs, removed, s.removed)
    requires Lists(objs, o.activated, activated) && Lists(objs, o.refind, refind)
    requires Lists(objs, o.lost, newlyLost) && Lists(objs, o.removed, gone)
    ensures Known(Values(objs), s.tracked) && Known(Values(objs), s.lost)
    ensures Known(Values(objs), activated) && Known(Values(objs), refind) && Known(Values(objs), newlyLost)
    ensures Lists(objs, tracked', Merge(s, Values(objs), f, activated, refind, newlyLost, gone).tracked)
    ensures Lists(objs, lost', Merge(s, Values(objs), f, activated, refind, newlyLost, gone).lost)
    ensures Lists(objs, removed', Merge(s, Values(objs), f, activated, refind, newlyLost, gone).removed)
    ensures m == Merge(s, Values(objs), f, activated, refind, newlyLost, gone)
  {
    hide Registered, Values, Lists, Joint, Sub, InState, WithoutDuplicates, LastOf, Known, DropsTracked, DropsLost,
         Distinct, Merge;
    ListsInHeap(objs, tracked, s.tracked);
    ListsInHeap(objs, lost, s.lost);
    ListsInHeap(objs, o.activated, activated);
    ListsInHeap(objs, o.refind, refind);
    ListsInHeap(objs, o.lost, newlyLost);
    ghost var h := Values(objs);
    ghost var nowIds := Joint(Joint(InState(h, s.tracked, Tracked), activated), refind);
    ghost var awayIds := Sub(Sub(s.lost, nowIds) + newlyLost, s.removed);
    var now := MergeTracked(tracked, o, objs, s.tracked, activated, refind);
    var away := MergeLost(lost, now, removed, o, objs, s.lost, nowIds, s.removed, newlyLost);
    ListsConcat(objs, removed, s.removed, o.removed, gone);
    tracked', lost' := RemoveDuplicates(now, away, objs, nowIds, awayIds);
    removed' := LastTracks(removed + o.removed, REMOVED_KEPT, objs, s.removed + gone);
    m := MergedAs(s, h, f, activated, refind, newlyLost, gone);
  }

  /** `Merge`, as equations between its lists. */
  lemma MergedAs(s: Tracker, h: Heap, f: int, activated: seq<int>, refind: seq<int>, newlyLost: seq<int>,
                 gone: seq<int>)
    returns (m: Tracker)
    requires Known(h, s.tracked) && Known(h, s.lost)
    requires Known(h, activated) && Known(h, refind) && Known(h, newlyLost)
    ensures m == Merge(s, h, f, activated, refind, newlyLost, gone)
    ensures var tracked := Joint(Joint(InState(h, s.tracked, Tracked), activated), refind);
      var lost := Sub(Sub(s.lost, tracked) + newlyLost, s.removed);
      Known(h, tracked) && Known(h, lost)
      && m.tracked == WithoutDuplicates(h, tracked, lost).0 && m.lost == WithoutDuplicates(h, tracked, lost).1
    ensures m.removed == LastOf(s.removed + gone, REMOVED_KEPT)
  {
    hide WithoutDuplicates, LastOf, Joint, Sub, InState, DropsTracked, DropsLost;
    m := Merge(s, h, f, activated, refind, newlyLost, gone);
  }

  method MergeTracked(tracked: seq<STrack>, o: Outcome, ghost objs: Registry,
                      ghost ids: seq<int>, ghost activated: seq<int>, ghost refind: seq<int>)
    returns (now: seq<STrack>)
    requires Registered(objs) && Lists(objs, tracked, ids)
    requires Lists(objs, o.activated, activated) && Lists(objs, o.refind, refind)
    ensures Lists(objs, now, Joint(Joint(InState(Values(objs), ids, Tracked), activated), refind))
  {
    hide Registered, Values, Lists, Joint, InState;
    ghost var nowIds;
    now, nowIds := TracksIn(tracked, Tracked, objs, ids);
    now := JointStracks(now, o.activated, objs, nowIds, activated);
    now := JointStracks(now, o.refind, objs, Joint(nowIds, activated), refind);
  }

  method MergeLost(lost: seq<STrack>, now: seq<STrack>, removed: seq<STrack>, o: Outcome, ghost objs: Registry,
                   ghost ids: seq<int>, ghost nowIds: seq<int>, ghost removedIds: seq<int>, ghost newlyLost: seq<int>)
    returns (away: seq<STrack>)
    requires Registered(objs) && Lists(objs, lost, ids) && Lists(objs, now, nowIds)
    requires Lists(objs, removed, removedIds) && Lists(objs, o.lost, newlyLost)
    ensures Lists(objs, away, Sub(Sub(ids, nowIds) + newlyLost, removedIds))
  {
    hide Registered, Values, Lists, Sub;
    away := SubStracks(lost, now, objs, ids, nowIds);
    ListsConcat(objs, away, Sub(ids, nowIds), o.lost, newlyLost);
    away := SubStracks(away + o.lost, removed, objs, Sub(ids, nowIds) + newlyLost, removedIds);
  }

  lemma {:induction false} MergeDistinct(s: Tracker, h: Heap, f: int, activated: seq<int>, refind: seq<int>,
                                         newlyLost: seq<int>, gone: seq<int>)
    requires Known(h, s.tracked) && Known(h, s.lost)
    requires Known(h, activated) && Known(h, refind) && Known(h, newlyLost) && Distinct(s.tracked)
    ensures Distinct(Merge(s, h, f, activated, refind, newlyLost, gone).tracked)
    ensures Distinct(Merge(s, h, f, activated, refind, newlyLost, gone).lost)
  {
    hide DropsTracked, DropsLost;
  }

  /** One frame over the three lists. */
  method RunFrame(tracked: seq<STrack>, lost: seq<STrack>, removed: seq<STrack>, fr: Frame, frame: int, cfg: Config,
                  counter: Counter, ghost was: Registry, ghost s: Tracker)
    returns (tracked': seq<STrack>, lost': seq<STrack>, removed': seq<STrack>, online: seq<STrack>,
             ghost objs: Registry, ghost m: Tracker)
    requires Registered(was) && IdsUpTo(was, counter.n) && s.heap == Values(was) && frame == s.frame + 1
    requires Lists(was, tracked, s.tracked) && Lists(was, lost, s.lost) && Lists(was, removed, s.removed)
    requires ConfigOk(cfg) && Aligned(fr) && Distinct(s.tracked)
    modifies counter, was.Values
    ensures Registered(objs) && IdsUpTo(objs, counter.n) && m.heap == Values(objs) && Grown(was, objs)
    ensures forall x :: x in objs && x !in was ==> fresh(objs[x])
    ensures Known(s.heap, s.tracked) && Known(s.heap, s.lost)
    ensures m == Step(s, fr, cfg, old(counter.n)).0 && counter.n == Step(s, fr, cfg, old(counter.n)).1
    ensures Lists(objs, tracked', m.tracked) && Lists(objs, lost', m.lost) && Lists(objs, removed', m.removed)
    ensures Lists(objs, online, Online(m)) && Distinct(m.tracked) && Distinct(m.lost) && m.frame == frame
  {
    hide Registered, Values, Lists, Distinct, ConfigOk, Ran, Merge, Step, IdsUpTo, Known, Grown, WithActivation;
    var o, grown, r := MatchFrame(tracked, lost, fr, frame, cfg, counter, was, s);
    objs := grown;
    GrownLists(was, objs, tracked, s.tracked);
    GrownLists(was, objs, lost, s.lost);
    GrownLists(was, objs, removed, s.removed);
    StepParts(s, fr, cfg, old(counter.n));
    tracked', lost', removed', m := MergeLists(tracked, lost, removed, o, objs,
      s, frame, r.activated, r.confirmed.refind, r.confirmed.lost, r.tentative.gone + r.overdue);
    MergeHeap(s, Values(objs), frame, r.activated, r.confirmed.refind, r.confirmed.lost, r.tentative.gone + r.overdue);
    StepDistinct(s, fr, cfg, old(counter.n));
    ghost var onlineIds;
    online, onlineIds := TracksFlagged(tracked', true, objs, m.tracked);
  }

  lemma GrownLists(was: Registry, objs: Registry, s: seq<STrack>, ids: seq<int>)
    requires Grown(was, objs) && Lists(was, s, ids)
    ensures Lists(objs, s, ids)
  {
    ListsGrow(was, objs, s, ids);
  }

  lemma StepDistinct(s: Tracker, fr: Frame, cfg: Config, count: int)
    requires ConfigOk(cfg) && Aligned(fr) && Known(s.heap, s.tracked) && Known(s.heap, s.lost) && Distinct(s.tracked)
    ensures Distinct(Step(s, fr, cfg, count).0.tracked) && Distinct(Step(s, fr, cfg, count).0.lost)
    ensures Step(s, fr, cfg, count).0.frame == s.frame + 1
  {
    hide Ran, Merge, Step, ConfigOk, Distinct;
    StepParts(s, fr, cfg, count);
    var r := Ran(s, fr, cfg, count);
    MergeDistinct(s, r.settled, s.frame + 1, r.activated, r.confirmed.refind, r.confirmed.lost,
                  r.tentative.gone + r.overdue);
  }

  datatype View = View(objs: Registry, tracked: seq<int>, lost: seq<int>, removed: seq<int>)

  class BYTETracker {
    const cfg: Config
    const counter: Counter
    var trackedStracks: seq<STrack>
    var lostStracks: seq<STrack>
    var removedStracks: seq<STrack>
    var frameId: int

    /** The registry, and the ids of the three lists. */
    ghost var view: View

    constructor (cfg: Config, counter: Counter)
      ensures this.cfg == cfg && this.counter == counter
      ensures Valid() && Model() == Tracker(map[], [], [], [], 0)
    {
      this.cfg, this.counter := cfg, counter;
      trackedStracks, lostStracks, removedStracks := [], [], [];
      frameId, view := 0, View(map[], [], [], []);
    }

    ghost predicate Valid()
      reads this, counter, view.objs.Values
    {
      && Registered(view.objs) && IdsUpTo(view.objs, counter.n)
      && Lists(view.objs, trackedStracks, view.tracked) && Lists(view.objs, lostStracks, view.lost)
      && Lists(view.objs, removedStracks, view.removed)
      && Distinct(view.tracked) && Distinct(view.lost)
    }

    ghost function Model(): (s: Tracker)
      requires Valid()
      reads this, counter, view.objs.Values
      ensures Known(s.heap, s.tracked) && Known(s.heap, s.lost)
    {
      Tracker(Values(view.objs), view.tracked, view.lost, view.removed, frameId)
    }

    /** One frame. The new state is exactly what `Step` computes from the old one. */
    method Update(fr: Frame) returns (online: seq<STrack>)
      requires Valid() && ConfigOk(cfg) && Aligned(fr)
      modifies this, counter, view.objs.Values
      ensures Valid() && Grown(old(view.objs), view.objs)
      ensures forall x :: x in view.objs && x !in old(view.objs) ==> fresh(view.objs[x])
      ensures Model() == Step(old(Model()), fr, cfg, old(counter.n)).0
      ensures counter.n == Step(old(Model()), fr, cfg, old(counter.n)).1
      ensures Lists(view.objs, online, Online(Model()))
    {
      hide Registered, Values, Lists, Distinct, ConfigOk, Step, IdsUpTo, Known, Grown, Online;
      ghost var s := Model();
      hide Valid;
      frameId := frameId + 1;
      ghost var m, objs;
      trackedStracks, lostStracks, removedStracks, online, objs, m :=
        RunFrame(trackedStracks, lostStracks, removedStracks, fr, frameId, cfg, counter, view.objs, s);
      view := View(objs, m.tracked, m.lost, m.removed);
    }
  }
}
