/** Track objects, updated in place, and the loops of the tracker over lists of them. A ghost
    registry `objs` gives the object of every id, so that each loop can be proved against the
    function on values of `TrackerModel`. */
module Tracks {
  import opened Assignment
  import opened Geometry
  import opened TrackLists
  import opened TrackerModel
  import K = Kalman

  datatype Option<T> = None | Some(value: T)

  /** The id counter every tracker shares. */
  class Counter {
    var n: int

    constructor ()
      ensures n == 0
    {
      n := 0;
    }
  }

  class STrack {
    const box: Box
    var kf: Option<K.Filter>
    var isActivated: bool
    var score: real
    var cls: int
    var detIndex: int
    var trackId: int
    var state: TrackState
    var trackletLen: int
    var frameId: int
    var startFrame: int

    constructor (box: Box, score: real, cls: int, detIndex: int)
      ensures this.box == box && kf == None && this.score == score && this.cls == cls && this.detIndex == detIndex
      ensures trackId == 0 && state == New && !isActivated
    {
      this.box, this.kf, this.isActivated := box, None, false;
      this.score, this.cls, this.detIndex := score, cls, detIndex;
      this.trackId, this.state, this.trackletLen := 0, New, 0;
      this.frameId, this.startFrame := 0, 0;
    }

    function Value(): Track
      requires kf.Some?
      reads this
    {
      Track(state, isActivated, score, cls, detIndex, trackletLen, frameId, startFrame, kf.value)
    }

    /** `tlbr`: the detection's corners until there is a filter, the filter's afterwards. */
    function Corners(): Box
      reads this
    {
      if kf.None? then box else TrackBox(Value())
    }

    /** Holds the `i`-th detection of a frame, not yet tracked. */
    predicate Holds(fr: Frame, i: nat)
      reads this
    {
      && kf.None? && !isActivated && detIndex == i
      && i < |fr.boxes| == |fr.scores| == |fr.classes|
      && box == fr.boxes[i] && score == fr.scores[i] && cls == fr.classes[i]
    }

    method Activate(counter: Counter, frame: int, ghost fr: Frame, ghost i: nat)
      requires Holds(fr, i)
      modifies this, counter
      ensures counter.n == old(counter.n) + 1 && trackId == counter.n
      ensures kf.Some? && Value() == Activated(fr, i, frame)
    {
      counter.n := counter.n + 1;
      trackId := counter.n;
      kf := Some(K.Initiate(Xyah(box)));
      trackletLen := 0;
      state := Tracked;
      if frame == 1 {
        isActivated := true;
      }
      frameId := frame;
      startFrame := frame;
    }

    method ReActivate(det: STrack, frame: int, cfg: Config, ghost fr: Frame, ghost i: nat)
      requires kf.Some? && ConfigOk(cfg) && det.Holds(fr, i)
      modifies this
      ensures kf.Some? && trackId == old(trackId)
      ensures Value() == Reactivated(old(Value()), fr, i, frame, cfg)
    {
      hide K.Update;
      kf := Some(K.Update(kf.value, Xyah(det.Corners()), cfg.solve));
      trackletLen := 0;
      state := Tracked;
      isActivated := true;
      frameId := frame;
      score := det.score;
      cls := det.cls;
      detIndex := det.detIndex;
    }

    method Update(det: STrack, frame: int, cfg: Config, ghost fr: Frame, ghost i: nat)
      requires kf.Some? && ConfigOk(cfg) && det.Holds(fr, i)
      modifies this
      ensures kf.Some? && trackId == old(trackId)
      ensures Value() == Updated(old(Value()), fr, i, frame, cfg)
    {
      hide K.Update;
      frameId := frame;
      trackletLen := trackletLen + 1;
      kf := Some(K.Update(kf.value, Xyah(det.Corners()), cfg.solve));
      state := Tracked;
      isActivated := true;
      score := det.score;
      cls := det.cls;
      detIndex := det.detIndex;
    }

    method Predict()
      requires kf.Some?
      modifies this
      ensures kf.Some? && trackId == old(trackId)
      ensures Value() == Predicted(old(Value()))
    {
      hide K.Predict, K.FreezeHeightVelocity;
      if state != Tracked {
        kf := Some(K.FreezeHeightVelocity(kf.value));
      }
      kf := Some(K.Predict(kf.value));
    }

    method Mark(state: TrackState)
      requires kf.Some?
      modifies this
      ensures kf.Some? && trackId == old(trackId)
      ensures Value() == old(Value()).(state := state)
    {
      this.state := state;
    }
  }

  // ---- the registry ---------------------------------------------------------

  type Registry = map<int, STrack>

  ghost predicate Registered(objs: Registry)
    reads objs.Values
  {
    forall id :: id in objs ==> objs[id].trackId == id && objs[id].kf.Some?
  }

  ghost function Values(objs: Registry): (h: Heap)
    requires Registered(objs)
    reads objs.Values
    ensures h.Keys == objs.Keys
  {
    map id | id in objs :: objs[id].Value()
  }

  /** `s` is the list of the objects with these ids. */
  ghost predicate Lists(objs: Registry, s: seq<STrack>, ids: seq<int>) {
    |s| == |ids| && forall k :: 0 <= k < |s| ==> ids[k] in objs && objs[ids[k]] == s[k]
  }

  /** `s` holds the detections `dets` of a frame, none of them tracked yet. */
  ghost predicate Detections(objs: Registry, s: seq<STrack>, fr: Frame, dets: seq<nat>)
    reads s
  {
    && |s| == |dets|
    && (forall k :: 0 <= k < |s| ==> s[k].Holds(fr, dets[k]) && s[k] !in objs.Values)
    && (forall j, k :: 0 <= j < k < |s| ==> s[j] != s[k])
  }

  lemma OneChanged(objs: Registry, was: Heap, x: int)
    requires Registered(objs) && x in objs && was.Keys == objs.Keys
    requires forall y :: y in objs && y != x ==> objs[y].Value() == was[y]
    ensures Values(objs) == was[x := objs[x].Value()]
  {}

  lemma ListsEmpty(objs: Registry)
    ensures Lists(objs, [], [])
  {}

  lemma ListsSnoc(objs: Registry, s: seq<STrack>, ids: seq<int>, x: int)
    requires Lists(objs, s, ids) && x in objs
    ensures Lists(objs, s + [objs[x]], ids + [x])
  {}

  lemma ListedAt(objs: Registry, s: seq<STrack>, ids: seq<int>, k: nat)
    requires Registered(objs) && Lists(objs, s, ids) && k < |s|
    ensures ids[k] in objs && objs[ids[k]] == s[k] && s[k].kf.Some? && s[k].trackId == ids[k]
    ensures Values(objs)[ids[k]] == s[k].Value()
  {
    var x := ids[k];
    assert x in objs && objs[x] == s[k];
  }

  lemma DetectionsApart(objs: Registry, s: seq<STrack>, fr: Frame, idx: seq<nat>)
    requires Detections(objs, s, fr, idx)
    ensures forall d :: d in s ==> d !in objs.Values
  {}

  lemma ListsInHeap(objs: Registry, s: seq<STrack>, ids: seq<int>)
    requires Registered(objs) && Lists(objs, s, ids)
    ensures Known(Values(objs), ids)
  {}

  lemma DetectionAt(objs: Registry, s: seq<STrack>, fr: Frame, idx: seq<nat>, k: nat)
    requires Detections(objs, s, fr, idx) && k < |s|
    ensures s[k].Holds(fr, idx[k]) && s[k] !in objs.Values
    ensures Aligned(fr)
  {}

  // ---- one registered track -------------------------------------------------

  method PredictOne(t: STrack, ghost objs: Registry, ghost x: int)
    requires Registered(objs) && x in objs && objs[x] == t
    modifies t
    ensures Registered(objs)
    ensures Values(objs) == old(Values(objs))[x := Predicted(old(Values(objs))[x])]
  {
    hide Predicted;
    ghost var was := Values(objs);
    assert forall y :: y in objs && y != x ==> objs[y] != t;
    t.Predict();
    OneChanged(objs, was, x);
  }

  method MarkOne(t: STrack, state: TrackState, ghost objs: Registry, ghost x: int)
    requires Registered(objs) && x in objs && objs[x] == t
    modifies t
    ensures Registered(objs)
    ensures Values(objs) == old(Values(objs))[x := old(Values(objs))[x].(state := state)]
  {
    ghost var was := Values(objs);
    assert forall y :: y in objs && y != x ==> objs[y] != t;
    t.Mark(state);
    OneChanged(objs, was, x);
  }

  /** A match: a tracked track is updated, any other one is brought back; the unconfirmed round is `direct`. */
  method RematchOne(t: STrack, det: STrack, frame: int, cfg: Config, direct: bool,
                    ghost objs: Registry, ghost x: int, ghost fr: Frame, ghost i: nat)
    returns (updated: bool)
    requires Registered(objs) && x in objs && objs[x] == t && ConfigOk(cfg)
    requires Aligned(fr) && det.Holds(fr, i)
    modifies t
    ensures Registered(objs)
    ensures Values(objs) == old(Values(objs))[x := Rematched(old(Values(objs))[x], fr, i, frame, cfg, direct)]
    ensures updated == (direct || old(Values(objs))[x].state == Tracked)
  {
    hide ConfigOk, Updated, Reactivated;
    ghost var was := Values(objs);
    assert forall y :: y in objs && y != x ==> objs[y] != t;
    if direct || t.state == Tracked {
      t.Update(det, frame, cfg, fr, i);
      updated := true;
    } else {
      t.ReActivate(det, frame, cfg, fr, i);
      updated := false;
    }
    OneChanged(objs, was, x);
  }

  // ---- loops over tracks ----------------------------------------------------

  method MultiPredict(s: seq<STrack>, ghost objs: Registry, ghost ids: seq<int>)
    requires Registered(objs) && Lists(objs, s, ids)
    modifies objs.Values
    ensures Registered(objs) && Known(old(Values(objs)), ids)
    ensures Values(objs) == PredictAll(old(Values(objs)), ids)
  {
    hide Predicted;
    ghost var h := Values(objs);
    assert ids[..0] == [];
    for k := 0 to |s|
      invariant Registered(objs) && Known(h, ids[..k])
      invariant Values(objs) == PredictAll(h, ids[..k])
    {
      assert ids[..k + 1][..k] == ids[..k] && ids[..k + 1][k] == ids[k];
      PredictOne(s[k], objs, ids[k]);
    }
    assert ids[..|s|] == ids;
  }

  method MarkEach(s: seq<STrack>, state: TrackState, ghost objs: Registry, ghost ids: seq<int>)
    requires Registered(objs) && Lists(objs, s, ids)
    modifies objs.Values
    ensures Registered(objs) && Known(old(Values(objs)), ids)
    ensures Values(objs) == MarkAll(old(Values(objs)), ids, state)
  {
    ghost var h := Values(objs);
    assert ids[..0] == [];
    for k := 0 to |s|
      invariant Registered(objs) && Known(h, ids[..k])
      invariant Values(objs) == MarkAll(h, ids[..k], state)
    {
      assert ids[..k + 1][..k] == ids[..k] && ids[..k + 1][k] == ids[k];
      MarkOne(s[k], state, objs, ids[k]);
    }
    assert ids[..|s|] == ids;
  }

  /** One more match, from the round so far. */
  lemma ApplySnoc(h: Heap, ids: seq<int>, fr: Frame, idx: seq<nat>, ms: seq<Pair>, k: nat, f: int, cfg: Config,
                  direct: bool)
    requires ConfigOk(cfg) && Known(h, ids) && InFrame(fr, idx) && Fits(ms, |ids|, |idx|) && k < |ms|
    ensures var r, x := ApplyMatches(h, ids, fr, idx, ms[..k], f, cfg, direct), ids[ms[k].0];
      && x in r.heap
      && var g := r.heap[x := Rematched(r.heap[x], fr, idx[ms[k].1], f, cfg, direct)];
        ApplyMatches(h, ids, fr, idx, ms[..k + 1], f, cfg, direct)
        == if direct || r.heap[x].state == Tracked then Round(g, r.activated + [x], r.refind)
           else Round(g, r.activated, r.refind + [x])
  {
    hide ConfigOk, Rematched;
    assert ms[..k + 1][..k] == ms[..k];
    assert ids[ms[k].0] in ids;
  }

  lemma PrefixesFit(ms: seq<Pair>, rows: nat, cols: nat)
    requires Fits(ms, rows, cols)
    ensures forall k :: 0 <= k <= |ms| ==> Fits(ms[..k], rows, cols)
    ensures forall k :: 0 <= k < |ms| ==> ms[k].0 < rows && ms[k].1 < cols
  {}

  lemma ApplyNone(h: Heap, ids: seq<int>, fr: Frame, idx: seq<nat>, f: int, cfg: Config, direct: bool)
    requires ConfigOk(cfg) && Known(h, ids) && InFrame(fr, idx)
    ensures ApplyMatches(h, ids, fr, idx, [], f, cfg, direct) == Round(h, [], [])
  {}

  /** One match: the track is updated or brought back, and listed accordingly. */
  method ApplyOne(t: STrack, det: STrack, frame: int, cfg: Config, direct: bool, activated: seq<STrack>,
                  refind: seq<STrack>,
                  ghost objs: Registry, ghost x: int, ghost fr: Frame, ghost i: nat, ghost r: Round)
    returns (activated': seq<STrack>, refind': seq<STrack>, ghost r': Round)
    requires Registered(objs) && x in objs && objs[x] == t && Values(objs) == r.heap
    requires Lists(objs, activated, r.activated) && Lists(objs, refind, r.refind)
    requires ConfigOk(cfg) && Aligned(fr) && det.Holds(fr, i)
    modifies t
    ensures x in r.heap && i < |fr.boxes|
    ensures Registered(objs) && Values(objs) == r'.heap
    ensures Lists(objs, activated', r'.activated) && Lists(objs, refind', r'.refind)
    ensures var g := r.heap[x := Rematched(r.heap[x], fr, i, frame, cfg, direct)];
      r' == if direct || r.heap[x].state == Tracked then Round(g, r.activated + [x], r.refind)
            else Round(g, r.activated, r.refind + [x])
  {
    hide ConfigOk, Rematched, Registered, Values, Lists;
    var updated := RematchOne(t, det, frame, cfg, direct, objs, x, fr, i);
    activated', refind' := activated, refind;
    if updated {
      ListsSnoc(objs, activated, r.activated, x);
      activated' := activated + [t];
      r' := Round(Values(objs), r.activated + [x], r.refind);
    } else {
      ListsSnoc(objs, refind, r.refind, x);
      refind' := refind + [t];
      r' := Round(Values(objs), r.activated, r.refind + [x]);
    }
  }

  /** The loop over the matches of one association round. */
  method ApplyEach(s: seq<STrack>, dets: seq<STrack>, ms: seq<Pair>, frame: int, cfg: Config, direct: bool,
                   ghost objs: Registry, ghost ids: seq<int>, ghost fr: Frame, ghost idx: seq<nat>)
    returns (activated: seq<STrack>, refind: seq<STrack>, ghost r: Round)
    requires Registered(objs) && Lists(objs, s, ids) && Detections(objs, dets, fr, idx)
    requires ConfigOk(cfg) && InFrame(fr, idx) && Fits(ms, |s|, |dets|)
    modifies objs.Values
    ensures Registered(objs) && Known(old(Values(objs)), ids)
    ensures r == ApplyMatches(old(Values(objs)), ids, fr, idx, ms, frame, cfg, direct)
    ensures Values(objs) == r.heap && Lists(objs, activated, r.activated) && Lists(objs, refind, r.refind)
  {
    ListsInHeap(objs, s, ids);
    DetectionsApart(objs, dets, fr, idx);
    assert |s| == |ids| && |dets| == |idx|;
    PrefixesFit(ms, |ids|, |idx|);
    hide ConfigOk, Rematched, Registered, Values, Lists, Detections, Known, ApplyMatches, Fits, InFrame;
    activated, refind := [], [];
    ListsEmpty(objs);
    ghost var h := Values(objs);
    r := Round(h, [], []);
    assert ms[..0] == [];
    ApplyNone(h, ids, fr, idx, frame, cfg, direct);
    for k := 0 to |ms|
      invariant Registered(objs)
      invariant r == ApplyMatches(h, ids, fr, idx, ms[..k], frame, cfg, direct)
      invariant Values(objs) == r.heap && Lists(objs, activated, r.activated) && Lists(objs, refind, r.refind)
    {
      var (it, idet) := ms[k];
      ApplySnoc(h, ids, fr, idx, ms, k, frame, cfg, direct);
      ListedAt(objs, s, ids, it);
      DetectionAt(objs, dets, fr, idx, idet);
      activated, refind, r := ApplyOne(s[it], dets[idet], frame, cfg, direct, activated, refind, objs, ids[it], fr,
                                       idx[idet], r);
    }
    assert ms[..|ms|] == ms;
  }
}
