/** The list-building loops of the tracker, over track objects. */
module TrackLoops {
  import opened Assignment
  import opened Geometry
  import opened TrackLists
  import opened TrackerModel
  import opened TrackerRounds
  import opened Tracks

  lemma FilterSnoc(s: seq<int>, k: nat, keep: int -> bool)
    requires k < |s|
    ensures Filter(s[..k + 1], keep) == Filter(s[..k], keep) + if keep(s[k]) then [s[k]] else []
  {
    assert s[..k + 1][..k] == s[..k];
  }

  lemma FilterEmpty(keep: int -> bool)
    ensures Filter([], keep) == []
  {}

  lemma JointSnoc(a: seq<int>, b: seq<int>, k: nat)
    requires k < |b|
    ensures Joint(a, b[..k + 1])
         == if b[k] in Joint(a, b[..k]) then Joint(a, b[..k]) else Joint(a, b[..k]) + [b[k]]
  {
    assert b[..k + 1][..k] == b[..k];
  }

  /** `known` holds the ids of a list. */
  ghost predicate Knows(known: set<int>, ids: seq<int>) {
    forall x :: x in known <==> x in ids
  }

  lemma KnowsMore(known: set<int>, ids: seq<int>, x: int)
    requires Knows(known, ids)
    ensures Knows(known + {x}, ids + [x])
  {}

  lemma NothingKnown(ids: seq<int>)
    ensures Knows({}, ids[..0])
  {}

  lemma JointEmpty(a: seq<int>)
    ensures Joint(a, []) == a
  {}

  lemma MarkSnoc(h: Heap, ids: seq<int>, x: int, state: TrackState)
    requires Known(h, ids) && x in h
    ensures Known(h, ids + [x])
    ensures MarkAll(h, ids + [x], state) == MarkAll(h, ids, state)[x := MarkAll(h, ids, state)[x].(state := state)]
  {
    assert (ids + [x])[..|ids|] == ids;
  }

  lemma MarkNone(h: Heap, state: TrackState)
    ensures MarkAll(h, [], state) == h
  {}

  // ---- selections -----------------------------------------------------------

  /** The tracks with the given confirmation flag. */
  method TracksFlagged(s: seq<STrack>, flag: bool, ghost objs: Registry, ghost ids: seq<int>)
    returns (r: seq<STrack>, ghost rids: seq<int>)
    requires Registered(objs) && Lists(objs, s, ids)
    ensures Lists(objs, r, WithActivation(Values(objs), ids, flag))
    ensures rids == WithActivation(Values(objs), ids, flag)
  {
    hide Filter, Registered, Values;
    r, rids := [], [];
    ghost var h := Values(objs);
    assert ids[..0] == [];
    FilterEmpty(HasActivation(h, flag));
    for k := 0 to |s|
      invariant rids == Filter(ids[..k], HasActivation(h, flag)) && Lists(objs, r, rids)
    {
      FilterSnoc(ids, k, HasActivation(h, flag));
      ListedAt(objs, s, ids, k);
      if s[k].isActivated == flag {
        r, rids := r + [s[k]], rids + [ids[k]];
      }
    }
    assert ids[..|s|] == ids;
  }

  /** The tracks in the given state. */
  method TracksIn(s: seq<STrack>, state: TrackState, ghost objs: Registry, ghost ids: seq<int>)
    returns (r: seq<STrack>, ghost rids: seq<int>)
    requires Registered(objs) && Lists(objs, s, ids)
    ensures Lists(objs, r, InState(Values(objs), ids, state))
    ensures rids == InState(Values(objs), ids, state)
  {
    hide Filter, Registered, Values;
    r, rids := [], [];
    ghost var h := Values(objs);
    assert ids[..0] == [];
    FilterEmpty(HasState(h, state));
    for k := 0 to |s|
      invariant rids == Filter(ids[..k], HasState(h, state)) && Lists(objs, r, rids)
    {
      FilterSnoc(ids, k, HasState(h, state));
      ListedAt(objs, s, ids, k);
      if s[k].state == state {
        r, rids := r + [s[k]], rids + [ids[k]];
      }
    }
    assert ids[..|s|] == ids;
  }

  /** Marks the tracks a round left over as lost, and lists them. */
  method MarkLost(s: seq<STrack>, ghost objs: Registry, ghost ids: seq<int>)
    returns (lost: seq<STrack>, ghost lostIds: seq<int>)
    requires Registered(objs) && Lists(objs, s, ids) && Distinct(ids)
    modifies objs.Values
    ensures Registered(objs) && Lists(objs, lost, lostIds)
    ensures lostIds == Filter(ids, NotLost(old(Values(objs)))) && Known(old(Values(objs)), lostIds)
    ensures Values(objs) == MarkAll(old(Values(objs)), lostIds, Lost)
  {
    assert |s| == |ids|;
    hide Filter, Registered, Values, MarkAll, Lists;
    lost, lostIds := [], [];
    ListsEmpty(objs);
    ghost var h := Values(objs);
    assert ids[..0] == [];
    FilterEmpty(NotLost(h));
    MarkNone(h, Lost);
    for k := 0 to |s|
      invariant Registered(objs) && Lists(objs, lost, lostIds) && Known(h, lostIds)
      invariant lostIds == Filter(ids[..k], NotLost(h))
      invariant Values(objs) == MarkAll(h, lostIds, Lost)
    {
      ghost var x := ids[k];
      FilterSnoc(ids, k, NotLost(h));
      ListedAt(objs, s, ids, k);
      assert x !in ids[..k];
      if s[k].state != Lost {
        MarkSnoc(h, lostIds, x, Lost);
        ListsSnoc(objs, lost, lostIds, x);
        MarkOne(s[k], Lost, objs, x);
        lost, lostIds := lost + [s[k]], lostIds + [x];
      }
    }
    assert ids[..|s|] == ids;
  }

  lemma MarkedOverdue(h: Heap, marked: seq<int>, x: int, frame: int, maxLost: nat)
    requires Known(h, marked) && x in h
    ensures IsOverdue(h, frame, maxLost)(x) <==> frame - MarkAll(h, marked, Removed)[x].frame > maxLost
  {}

  /** Of the first `k` ids of a list the overdue ones are `marked`, which turned `h` into `now`. */
  ghost predicate Aged(h: Heap, now: Heap, ids: seq<int>, k: nat, marked: seq<int>, frame: int, maxLost: nat)
    requires k <= |ids|
  {
    marked == Overdue(h, ids[..k], frame, maxLost) && Known(h, marked) && now == MarkAll(h, marked, Removed)
  }

  lemma NoneAged(h: Heap, ids: seq<int>, frame: int, maxLost: nat)
    ensures Aged(h, h, ids, 0, [], frame, maxLost)
  {}

  lemma NextAged(h: Heap, now: Heap, ids: seq<int>, k: nat, marked: seq<int>, frame: int, maxLost: nat)
    requires k < |ids| && ids[k] in h && Aged(h, now, ids, k, marked, frame, maxLost)
    ensures var x := ids[k];
      && x in now
      && if frame - now[x].frame > maxLost
         then Aged(h, now[x := now[x].(state := Removed)], ids, k + 1, marked + [x], frame, maxLost)
         else Aged(h, now, ids, k + 1, marked, frame, maxLost)
  {
    hide Filter;
    FilterSnoc(ids, k, IsOverdue(h, frame, maxLost));
    MarkedOverdue(h, marked, ids[k], frame, maxLost);
    if frame - now[ids[k]].frame > maxLost {
      MarkSnoc(h, marked, ids[k], Removed);
    }
  }

  lemma AllAged(h: Heap, now: Heap, ids: seq<int>, marked: seq<int>, frame: int, maxLost: nat)
    requires Aged(h, now, ids, |ids|, marked, frame, maxLost)
    ensures marked == Overdue(h, ids, frame, maxLost) && Known(h, marked) && now == MarkAll(h, marked, Removed)
  {
    assert ids[..|ids|] == ids;
  }

  /** Marks lost tracks past their time as removed, and lists them. */
  method AgeOut(s: seq<STrack>, frame: int, maxLost: nat, ghost objs: Registry, ghost ids: seq<int>)
    returns (removed: seq<STrack>, ghost removedIds: seq<int>)
    requires Registered(objs) && Lists(objs, s, ids)
    modifies objs.Values
    ensures Registered(objs) && Lists(objs, removed, removedIds)
    ensures removedIds == Overdue(old(Values(objs)), ids, frame, maxLost) && Known(old(Values(objs)), removedIds)
    ensures Values(objs) == MarkAll(old(Values(objs)), removedIds, Removed)
  {
    assert |s| == |ids|;
    hide Registered, Values, Lists, Aged, MarkAll, Known, Overdue;
    removed, removedIds := [], [];
    ListsEmpty(objs);
    ghost var h := Values(objs);
    NoneAged(h, ids, frame, maxLost);
    for k := 0 to |s|
      invariant Registered(objs) && Lists(objs, removed, removedIds)
      invariant Aged(h, Values(objs), ids, k, removedIds, frame, maxLost)
    {
      ghost var x := ids[k];
      ListedAt(objs, s, ids, k);
      NextAged(h, Values(objs), ids, k, removedIds, frame, maxLost);
      if frame - s[k].frameId > maxLost {
        ListsSnoc(objs, removed, removedIds, x);
        MarkOne(s[k], Removed, objs, x);
        removed, removedIds := removed + [s[k]], removedIds + [x];
      }
    }
    AllAged(h, Values(objs), ids, removedIds, frame, maxLost);
  }

  // ---- joint_stracks and sub_stracks ----------------------------------------

  method JointStracks(a: seq<STrack>, b: seq<STrack>, ghost objs: Registry, ghost aids: seq<int>, ghost bids: seq<int>)
    returns (res: seq<STrack>)
    requires Registered(objs) && Lists(objs, a, aids) && Lists(objs, b, bids)
    ensures Lists(objs, res, Joint(aids, bids))
  {
    assert |a| == |aids| && |b| == |bids|;
    hide Joint, Registered, Lists, Knows;
    NothingKnown(aids);
    var known: set<int> := {};
    res := [];
    for k := 0 to |a|
      invariant res == a[..k] && Knows(known, aids[..k])
    {
      SeenStep(a, objs, aids, known, k);
      known := known + {a[k].trackId};
      res := res + [a[k]];
    }
    JointStart(a, aids, bids);
    for k := 0 to |b|
      invariant Lists(objs, res, Joint(aids, bids[..k])) && Knows(known, Joint(aids, bids[..k]))
    {
      JointStep(b, objs, aids, bids, res, known, k);
      if b[k].trackId !in known {
        known := known + {b[k].trackId};
        res := res + [b[k]];
      }
    }
    assert bids[..|b|] == bids;
  }

  lemma SeenStep(a: seq<STrack>, objs: Registry, aids: seq<int>, known: set<int>, k: nat)
    requires Registered(objs) && Lists(objs, a, aids) && k < |a| == |aids| && Knows(known, aids[..k])
    ensures Knows(known + {a[k].trackId}, aids[..k + 1]) && a[..k + 1] == a[..k] + [a[k]]
  {
    ListedAt(objs, a, aids, k);
    KnowsMore(known, aids[..k], aids[k]);
    assert aids[..k + 1] == aids[..k] + [aids[k]];
  }

  lemma JointStart(a: seq<STrack>, aids: seq<int>, bids: seq<int>)
    requires |a| == |aids|
    ensures a[..|a|] == a && aids[..|a|] == aids && Joint(aids, bids[..0]) == aids
  {
    assert bids[..0] == [];
    JointEmpty(aids);
  }

  lemma JointStep(b: seq<STrack>, objs: Registry, aids: seq<int>, bids: seq<int>, res: seq<STrack>, known: set<int>,
                  k: nat)
    requires Registered(objs) && Lists(objs, b, bids) && k < |b| == |bids|
    requires Lists(objs, res, Joint(aids, bids[..k])) && Knows(known, Joint(aids, bids[..k]))
    ensures var now := Joint(aids, bids[..k + 1]);
      if b[k].trackId in known then Lists(objs, res, now) && Knows(known, now)
      else Lists(objs, res + [b[k]], now) && Knows(known + {b[k].trackId}, now)
  {
    ListedAt(objs, b, bids, k);
    hide Joint, Registered, Lists;
    JointSnoc(aids, bids, k);
    KnowsMore(known, Joint(aids, bids[..k]), bids[k]);
    ListsSnoc(objs, res, Joint(aids, bids[..k]), bids[k]);
  }

  /** The dictionary holds the objects of `order`, except those of `gone`. */
  ghost predicate Keyed(objs: Registry, d: map<int, STrack>, order: seq<int>, gone: seq<int>) {
    && (forall x :: x in d <==> x in order && x !in gone)
    && (forall x :: x in d ==> x in objs && d[x] == objs[x])
  }

  lemma PutStep(objs: Registry, d: map<int, STrack>, order: seq<int>, x: int)
    requires Keyed(objs, d, order, []) && x in objs
    ensures x in d <==> x in order
    ensures Keyed(objs, d[x := objs[x]], if x in order then order else order + [x], [])
  {}

  lemma PopStep(objs: Registry, d: map<int, STrack>, order: seq<int>, gone: seq<int>, x: int)
    requires Keyed(objs, d, order, gone)
    ensures Keyed(objs, d - {x}, order, gone + [x])
  {}

  lemma ListStep(objs: Registry, d: map<int, STrack>, order: seq<int>, gone: seq<int>, res: seq<STrack>, k: nat)
    requires Keyed(objs, d, order, gone) && k < |order| && Lists(objs, res, Filter(order[..k], NotIn(gone)))
    ensures Lists(objs, if order[k] in d then res + [d[order[k]]] else res, Filter(order[..k + 1], NotIn(gone)))
  {
    var x := order[k];
    assert x in order;
    assert NotIn(gone)(x) <==> x !in gone;
    assert x in d <==> x !in gone;
    hide Filter, Lists, Keyed;
    FilterSnoc(order, k, NotIn(gone));
    if order[k] in d {
      ListsSnoc(objs, res, Filter(order[..k], NotIn(gone)), order[k]);
    }
  }

  /** An insertion-ordered dictionary is built from `a`, the ids of `b` are popped, its values are listed. */
  method SubStracks(a: seq<STrack>, b: seq<STrack>, ghost objs: Registry, ghost aids: seq<int>, ghost bids: seq<int>)
    returns (res: seq<STrack>)
    requires Registered(objs) && Lists(objs, a, aids) && Lists(objs, b, bids)
    ensures Lists(objs, res, Sub(aids, bids))
  {
    assert |a| == |aids| && |b| == |bids| && aids[..0] == [] && bids[..0] == [];
    var order: seq<int>, d: map<int, STrack> := [], map[];
    assert Keyed(objs, d, order, []);
    hide Filter, Joint, Registered, Lists, Keyed;
    JointEmpty([]);
    for k := 0 to |a|
      invariant order == Joint([], aids[..k]) && Keyed(objs, d, order, [])
    {
      JointSnoc([], aids, k);
      ListedAt(objs, a, aids, k);
      PutStep(objs, d, order, aids[k]);
      if a[k].trackId !in d {
        order := order + [a[k].trackId];
      }
      d := d[a[k].trackId := a[k]];
    }
    for k := 0 to |b|
      invariant Keyed(objs, d, order, bids[..k])
    {
      ListedAt(objs, b, bids, k);
      PopStep(objs, d, order, bids[..k], bids[k]);
      assert bids[..k + 1] == bids[..k] + [bids[k]];
      d := d - {b[k].trackId};
    }
    assert aids[..|a|] == aids && bids[..|b|] == bids && order[..0] == [];
    res := [];
    FilterEmpty(NotIn(bids));
    ListsEmpty(objs);
    for k := 0 to |order|
      invariant Lists(objs, res, Filter(order[..k], NotIn(bids)))
    {
      ListStep(objs, d, order, bids, res, k);
      if order[k] in d {
        res := res + [d[order[k]]];
      }
    }
    assert order[..|order|] == order;
  }

  // ---- distances ------------------------------------------------------------

  function CornersOf(s: seq<STrack>): (r: seq<Box>)
    reads s
    ensures |r| == |s| && forall k :: 0 <= k < |s| ==> r[k] == s[k].Corners()
  {
    if s == [] then [] else CornersOf(s[..|s| - 1]) + [s[|s| - 1].Corners()]
  }

  /** 1 - IoU of every pair. */
  function PairDistances(a: seq<Box>, b: seq<Box>): Cost {
    Matrix(|a|, |b|, seq(|a|, i requires 0 <= i < |a| =>
      seq(|b|, j requires 0 <= j < |b| => 1.0 - Iou(a[i], b[j]))))
  }

  lemma DistancesAgree(objs: Registry, s: seq<STrack>, ids: seq<int>, dets: seq<STrack>, fr: Frame, idx: seq<nat>)
    requires Registered(objs) && Lists(objs, s, ids) && Detections(objs, dets, fr, idx) && InFrame(fr, idx)
    ensures Known(Values(objs), ids)
    ensures PairDistances(CornersOf(s), CornersOf(dets)) == Distances(Values(objs), ids, fr, idx)
  {
    hide TrackBox, Iou;
    var h := Values(objs);
    var p, q := PairDistances(CornersOf(s), CornersOf(dets)), Distances(h, ids, fr, idx);
    forall i | 0 <= i < |s| ensures p.at[i] == q.at[i] {
      ListedAt(objs, s, ids, i);
      assert q.at[i] == DistanceRow(Nth(h, ids, i), fr, idx);
      forall j | 0 <= j < |dets| ensures p.at[i][j] == q.at[i][j] {
        assert dets[j].Holds(fr, idx[j]);
      }
    }
  }

  // ---- duplicates -----------------------------------------------------------

  ghost predicate Loses(h: Heap, p: int, q: int) {
    p in h && q in h && Close(h, p, q) && Age(h, p) <= Age(h, q)
  }

  ghost predicate Wins(h: Heap, p: int, q: int) {
    p in h && q in h && Close(h, p, q) && Age(h, p) > Age(h, q)
  }

  ghost predicate RowDrops(h: Heap, p: int, lost: seq<int>) {
    exists k :: 0 <= k < |lost| && Loses(h, p, lost[k])
  }

  ghost predicate ColDrops(h: Heap, q: int, tracked: seq<int>) {
    exists k :: 0 <= k < |tracked| && Wins(h, tracked[k], q)
  }

  lemma RowDropsSnoc(h: Heap, p: int, lost: seq<int>, n: nat)
    requires n < |lost|
    ensures RowDrops(h, p, lost[..n + 1]) <==> RowDrops(h, p, lost[..n]) || Loses(h, p, lost[n])
  {
    hide Loses;
    var s, t := lost[..n], lost[..n + 1];
    assert t[n] == lost[n] && forall k :: 0 <= k < n ==> t[k] == s[k];
    if RowDrops(h, p, s) {
      var k :| 0 <= k < |s| && Loses(h, p, s[k]);
      assert Loses(h, p, t[k]);
    }
  }

  lemma ColDropsSnoc(h: Heap, q: int, tracked: seq<int>, n: nat)
    requires n < |tracked|
    ensures ColDrops(h, q, tracked[..n + 1]) <==> ColDrops(h, q, tracked[..n]) || Wins(h, tracked[n], q)
  {
    hide Wins;
    var s, t := tracked[..n], tracked[..n + 1];
    assert t[n] == tracked[n] && forall k :: 0 <= k < n ==> t[k] == s[k];
    if ColDrops(h, q, s) {
      var k :| 0 <= k < |s| && Wins(h, s[k], q);
      assert Wins(h, t[k], q);
    }
  }

  lemma DropsByIndex(h: Heap, x: int, ids: seq<int>)
    requires x in h && Known(h, ids)
    ensures RowDrops(h, x, ids) <==> DropsTracked(h, x, ids)
    ensures ColDrops(h, x, ids) <==> DropsLost(h, x, ids)
  {
    hide Close, Age;
    if DropsTracked(h, x, ids) {
      var q :| q in ids && Close(h, x, q) && Age(h, x) <= Age(h, q);
      var k :| 0 <= k < |ids| && ids[k] == q;
      assert Loses(h, x, ids[k]);
    }
    if DropsLost(h, x, ids) {
      var p :| p in ids && Close(h, p, x) && Age(h, p) > Age(h, x);
      var k :| 0 <= k < |ids| && ids[k] == p;
      assert Wins(h, ids[k], x);
    }
  }

  /** The rows before `p` with a close entry of `lost` at least as old. */
  ghost function DroppedRows(h: Heap, tracked: seq<int>, lost: seq<int>, p: nat): set<int>
    requires p <= |tracked|
  {
    set i | 0 <= i < p && RowDrops(h, tracked[i], lost)
  }

  /** The columns with a close, older entry in `tracked`. */
  ghost function DroppedCols(h: Heap, tracked: seq<int>, lost: seq<int>): set<int> {
    set j | 0 <= j < |lost| && ColDrops(h, lost[j], tracked)
  }

  ghost function Beaten(h: Heap, x: int, lost: seq<int>, n: nat): set<int>
    requires n <= |lost|
  {
    set j | 0 <= j < n && Wins(h, x, lost[j])
  }

  lemma DroppedRowsSnoc(h: Heap, tracked: seq<int>, lost: seq<int>, p: nat)
    requires p < |tracked|
    ensures DroppedRows(h, tracked, lost, p + 1)
         == DroppedRows(h, tracked, lost, p) + if RowDrops(h, tracked[p], lost) then {p} else {}
  {
    hide RowDrops;
  }

  lemma DroppedColsSnoc(h: Heap, tracked: seq<int>, lost: seq<int>, p: nat)
    requires p < |tracked|
    ensures DroppedCols(h, tracked[..p + 1], lost)
         == DroppedCols(h, tracked[..p], lost) + Beaten(h, tracked[p], lost, |lost|)
  {
    hide ColDrops, Wins;
    forall j | 0 <= j < |lost|
      ensures ColDrops(h, lost[j], tracked[..p + 1]) <==>
        ColDrops(h, lost[j], tracked[..p]) || Wins(h, tracked[p], lost[j])
    {
      ColDropsSnoc(h, lost[j], tracked, p);
    }
  }

  lemma BeatenSnoc(h: Heap, x: int, lost: seq<int>, q: nat)
    requires q < |lost|
    ensures Beaten(h, x, lost, q + 1) == Beaten(h, x, lost, q) + if Wins(h, x, lost[q]) then {q} else {}
  {
    hide Wins;
  }

  /** What the first `q` pairs of row `p` add to the marks. */
  ghost predicate RowScanned(h: Heap, x: int, p: nat, bids: seq<int>, q: nat, firstA: set<int>, firstB: set<int>,
                             dupa: set<int>, dupb: set<int>)
    requires q <= |bids|
  {
    dupa == firstA + (if RowDrops(h, x, bids[..q]) then {p} else {}) && dupb == firstB + Beaten(h, x, bids, q)
  }

  lemma RowStarts(h: Heap, x: int, p: nat, bids: seq<int>, firstA: set<int>, firstB: set<int>)
    ensures RowScanned(h, x, p, bids, 0, firstA, firstB, firstA, firstB)
  {}

  lemma RowGoesOn(h: Heap, x: int, p: nat, bids: seq<int>, q: nat, firstA: set<int>, firstB: set<int>,
                  dupa: set<int>, dupb: set<int>)
    requires q < |bids| && RowScanned(h, x, p, bids, q, firstA, firstB, dupa, dupb)
    ensures var a := if Loses(h, x, bids[q]) then dupa + {p} else dupa;
      var b := if Wins(h, x, bids[q]) then dupb + {q} else dupb;
      RowScanned(h, x, p, bids, q + 1, firstA, firstB, a, b)
  {
    hide Loses, Wins, RowDrops, Beaten;
    RowDropsSnoc(h, x, bids, q);
    BeatenSnoc(h, x, bids, q);
  }

  lemma RowEnds(h: Heap, x: int, p: nat, bids: seq<int>, firstA: set<int>, firstB: set<int>,
                dupa: set<int>, dupb: set<int>)
    requires RowScanned(h, x, p, bids, |bids|, firstA, firstB, dupa, dupb)
    ensures dupa == firstA + if RowDrops(h, x, bids) then {p} else {}
    ensures dupb == firstB + Beaten(h, x, bids, |bids|)
  {
    assert bids[..|bids|] == bids;
  }

  /** One row of the scan over close pairs. */
  method ScanRow(sa: seq<STrack>, sb: seq<STrack>, pdist: Cost, p: nat, firstA: set<int>, firstB: set<int>,
                 ghost objs: Registry, ghost aids: seq<int>, ghost bids: seq<int>)
    returns (dupa: set<int>, dupb: set<int>)
    requires Registered(objs) && Lists(objs, sa, aids) && Lists(objs, sb, bids) && p < |sa|
    requires pdist == PairDistances(CornersOf(sa), CornersOf(sb))
    ensures RowScanned(Values(objs), aids[p], p, bids, |bids|, firstA, firstB, dupa, dupb)
  {
    ghost var h := Values(objs);
    dupa, dupb := firstA, firstB;
    assert |sa| == |aids| && |sb| == |bids|;
    hide Loses, Wins, RowDrops, Registered, Values, Lists, Beaten, PairDistances, CornersOf, RowScanned;
    RowStarts(h, aids[p], p, bids, firstA, firstB);
    for q := 0 to |sb|
      invariant RowScanned(h, aids[p], p, bids, q, firstA, firstB, dupa, dupb)
    {
      RowGoesOn(h, aids[p], p, bids, q, firstA, firstB, dupa, dupb);
      PairAt(objs, sa, sb, aids, bids, p, q);
      if pdist.at[p][q] < DUPLICATE_DISTANCE {
        var timep, timeq := sa[p].frameId - sa[p].startFrame, sb[q].frameId - sb[q].startFrame;
        if timep > timeq {
          dupb := dupb + {q};
        } else {
          dupa := dupa + {p};
        }
      }
    }
  }

  /** The marks after the first `p` rows. */
  ghost predicate Scanned(h: Heap, aids: seq<int>, bids: seq<int>, p: nat, dupa: set<int>, dupb: set<int>)
    requires p <= |aids|
  {
    dupa == DroppedRows(h, aids, bids, p) && dupb == DroppedCols(h, aids[..p], bids)
  }

  lemma ScanStarts(h: Heap, aids: seq<int>, bids: seq<int>)
    ensures Scanned(h, aids, bids, 0, {}, {})
  {
    hide RowDrops, ColDrops;
    forall y ensures !ColDrops(h, y, aids[..0]) {
      NoneDrops(h, y, aids[..0]);
    }
  }

  lemma ScanGoesOn(h: Heap, aids: seq<int>, bids: seq<int>, p: nat, firstA: set<int>, firstB: set<int>,
                   dupa: set<int>, dupb: set<int>)
    requires p < |aids| && Scanned(h, aids, bids, p, firstA, firstB)
    requires RowScanned(h, aids[p], p, bids, |bids|, firstA, firstB, dupa, dupb)
    ensures Scanned(h, aids, bids, p + 1, dupa, dupb)
  {
    hide RowDrops, DroppedRows, DroppedCols, Beaten;
    RowEnds(h, aids[p], p, bids, firstA, firstB, dupa, dupb);
    DroppedRowsSnoc(h, aids, bids, p);
    DroppedColsSnoc(h, aids, bids, p);
  }

  lemma ScanEnds(h: Heap, aids: seq<int>, bids: seq<int>, dupa: set<int>, dupb: set<int>)
    requires Scanned(h, aids, bids, |aids|, dupa, dupb)
    ensures dupa == DroppedRows(h, aids, bids, |aids|) && dupb == DroppedCols(h, aids, bids)
  {
    assert aids[..|aids|] == aids;
  }

  /** The scan over close pairs: in each, the younger of the two is a duplicate, the tracked one on a tie. */
  method FindDuplicates(sa: seq<STrack>, sb: seq<STrack>, ghost objs: Registry, ghost aids: seq<int>,
                        ghost bids: seq<int>)
    returns (dupa: set<int>, dupb: set<int>)
    requires Registered(objs) && Lists(objs, sa, aids) && Lists(objs, sb, bids)
    ensures dupa == DroppedRows(Values(objs), aids, bids, |aids|)
    ensures dupb == DroppedCols(Values(objs), aids, bids)
  {
    assert |sa| == |aids| && |sb| == |bids|;
    hide RowScanned, Registered, Values, Lists, PairDistances, CornersOf, Scanned, DroppedRows, DroppedCols;
    hide TrackBox, Iou, STrack.Corners;
    ghost var h := Values(objs);
    var pdist := PairDistances(CornersOf(sa), CornersOf(sb));
    dupa, dupb := {}, {};
    ScanStarts(h, aids, bids);
    for p := 0 to |sa|
      invariant Scanned(h, aids, bids, p, dupa, dupb)
    {
      ghost var firstA, firstB := dupa, dupb;
      dupa, dupb := ScanRow(sa, sb, pdist, p, dupa, dupb, objs, aids, bids);
      ScanGoesOn(h, aids, bids, p, firstA, firstB, dupa, dupb);
    }
    ScanEnds(h, aids, bids, dupa, dupb);
  }

  lemma NoneDrops(h: Heap, x: int, s: seq<int>)
    requires s == []
    ensures !RowDrops(h, x, s) && !ColDrops(h, x, s)
  {}

  lemma PairAt(objs: Registry, sa: seq<STrack>, sb: seq<STrack>, aids: seq<int>, bids: seq<int>, p: nat, q: nat)
    requires Registered(objs) && Lists(objs, sa, aids) && Lists(objs, sb, bids) && p < |sa| && q < |sb|
    ensures |PairDistances(CornersOf(sa), CornersOf(sb)).at| == |sa|
    ensures |PairDistances(CornersOf(sa), CornersOf(sb)).at[p]| == |sb|
    ensures var near := PairDistances(CornersOf(sa), CornersOf(sb)).at[p][q] < DUPLICATE_DISTANCE;
      var older := sa[p].frameId - sa[p].startFrame > sb[q].frameId - sb[q].startFrame;
      && (Loses(Values(objs), aids[p], bids[q]) <==> near && !older)
      && (Wins(Values(objs), aids[p], bids[q]) <==> near && older)
  {
    hide TrackBox, Iou;
    ListedAt(objs, sa, aids, p);
    ListedAt(objs, sb, bids, q);
  }

  /** `dup` holds the positions whose id is not to be kept. */
  ghost predicate Marks(dup: set<int>, ids: seq<int>, keep: int -> bool) {
    forall k :: 0 <= k < |ids| ==> (k in dup <==> !keep(ids[k]))
  }

  method DropIndices(s: seq<STrack>, dup: set<int>, ghost objs: Registry, ghost ids: seq<int>, ghost keep: int -> bool)
    returns (r: seq<STrack>)
    requires Lists(objs, s, ids) && Marks(dup, ids, keep)
    ensures Lists(objs, r, Filter(ids, keep))
  {
    r := [];
    assert |s| == |ids|;
    DropNone(objs, ids, keep);
    hide Filter, Lists, Marks;
    for k := 0 to |s|
      invariant Lists(objs, r, Filter(ids[..k], keep))
    {
      DropStep(s, dup, objs, ids, keep, r, k);
      if k !in dup {
        r := r + [s[k]];
      }
    }
    assert ids[..|s|] == ids;
  }

  lemma DropNone(objs: Registry, ids: seq<int>, keep: int -> bool)
    ensures Lists(objs, [], Filter(ids[..0], keep))
  {
    assert ids[..0] == [];
  }

  /** One pass through the loop keeps the object exactly when its id is kept. */
  lemma DropStep(s: seq<STrack>, dup: set<int>, objs: Registry, ids: seq<int>, keep: int -> bool, r: seq<STrack>,
                 k: nat)
    requires Lists(objs, s, ids) && Marks(dup, ids, keep) && k < |s|
    requires Lists(objs, r, Filter(ids[..k], keep))
    ensures Lists(objs, if k in dup then r else r + [s[k]], Filter(ids[..k + 1], keep))
  {
    assert |s| == |ids|;
    MarksAt(dup, objs, s, ids, keep, k);
    hide Filter, Lists, Marks;
    FilterSnoc(ids, k, keep);
    if k !in dup {
      ListsSnoc(objs, r, Filter(ids[..k], keep), ids[k]);
    }
  }

  lemma MarksAt(dup: set<int>, objs: Registry, s: seq<STrack>, ids: seq<int>, keep: int -> bool, k: nat)
    requires Lists(objs, s, ids) && Marks(dup, ids, keep) && k < |s|
    ensures ids[k] in objs && objs[ids[k]] == s[k]
    ensures k in dup <==> !keep(ids[k])
  {}

  method RemoveDuplicates(sa: seq<STrack>, sb: seq<STrack>, ghost objs: Registry, ghost aids: seq<int>,
                          ghost bids: seq<int>)
    returns (ra: seq<STrack>, rb: seq<STrack>)
    requires Registered(objs) && Lists(objs, sa, aids) && Lists(objs, sb, bids)
    ensures Known(Values(objs), aids) && Known(Values(objs), bids)
    ensures Lists(objs, ra, WithoutDuplicates(Values(objs), aids, bids).0)
    ensures Lists(objs, rb, WithoutDuplicates(Values(objs), aids, bids).1)
  {
    ghost var h := Values(objs);
    assert Known(h, aids) && Known(h, bids) && |sa| == |aids| && |sb| == |bids|;
    hide DroppedRows, DroppedCols, Filter, Registered, Values, Lists, Known, KeepsTracked, KeepsLost,
         WithoutDuplicates, Marks;
    hide DropsTracked, DropsLost, Close, Age;
    KeptLists(h, aids, bids);
    var dupa, dupb := FindDuplicates(sa, sb, objs, aids, bids);
    KeptByIndex(h, aids, bids);
    ra := DropIndices(sa, dupa, objs, aids, KeepsTracked(h, bids));
    rb := DropIndices(sb, dupb, objs, bids, KeepsLost(h, aids));
  }

  lemma KeptLists(h: Heap, aids: seq<int>, bids: seq<int>)
    requires Known(h, aids) && Known(h, bids)
    ensures WithoutDuplicates(h, aids, bids).0 == Filter(aids, KeepsTracked(h, bids))
    ensures WithoutDuplicates(h, aids, bids).1 == Filter(bids, KeepsLost(h, aids))
  {}

  lemma KeptByIndex(h: Heap, aids: seq<int>, bids: seq<int>)
    requires Known(h, aids) && Known(h, bids)
    ensures Marks(DroppedRows(h, aids, bids, |aids|), aids, KeepsTracked(h, bids))
    ensures Marks(DroppedCols(h, aids, bids), bids, KeepsLost(h, aids))
  {
    hide RowDrops, ColDrops, DropsTracked, DropsLost;
    forall i | 0 <= i < |aids| ensures i in DroppedRows(h, aids, bids, |aids|) <==> !KeepsTracked(h, bids)(aids[i]) {
      assert aids[i] in aids;
      DropsByIndex(h, aids[i], bids);
    }
    forall j | 0 <= j < |bids| ensures j in DroppedCols(h, aids, bids) <==> !KeepsLost(h, aids)(bids[j]) {
      assert bids[j] in bids;
      DropsByIndex(h, bids[j], aids);
    }
  }

  // ---- one association round ------------------------------------------------

  ghost predicate Increasing(idx: seq<nat>) {
    forall j, k :: 0 <= j < k < |idx| ==> idx[j] < idx[k]
  }

  /** The assignment on the objects' corners is the one on their values. */
  lemma StageMatching(objs: Registry, s: seq<STrack>, ids: seq<int>, dets: seq<STrack>, fr: Frame, idx: seq<nat>,
                      thresh: real, cfg: Config)
    requires Registered(objs) && Lists(objs, s, ids) && Detections(objs, dets, fr, idx) && InFrame(fr, idx)
    requires ConfigOk(cfg)
    ensures Known(Values(objs), ids)
    ensures var m := LinearAssignment(PairDistances(CornersOf(s), CornersOf(dets)), thresh, cfg.solver);
      m == Associate(Values(objs), ids, fr, idx, thresh, cfg) && Result(m, |s|, |dets|) && Increasing(m.cols)
  {
    DistancesAgree(objs, s, ids, dets, fr, idx);
    hide LinearAssignment, Distances;
    var dists := PairDistances(CornersOf(s), CornersOf(dets));
    AssociationFits(dists, thresh, cfg.solver);
    UnusedIncreasing(dists, thresh, cfg.solver);
  }

  lemma ChosenTracks(objs: Registry, s: seq<STrack>, ids: seq<int>, rows: seq<nat>)
    requires Lists(objs, s, ids) && forall k :: 0 <= k < |rows| ==> rows[k] < |s|
    ensures Lists(objs, At(s, rows), At(ids, rows))
  {}

  lemma ChosenDetections(objs: Registry, s: seq<STrack>, fr: Frame, idx: seq<nat>, cols: seq<nat>)
    requires Detections(objs, s, fr, idx) && Increasing(cols) && forall k :: 0 <= k < |cols| ==> cols[k] < |s|
    ensures Detections(objs, At(s, cols), fr, At(idx, cols))
    ensures forall d :: d in At(s, cols) ==> d in s
  {}

  /** One association round: distances, assignment, the loop over matches, the leftovers. */
  method MatchStage(s: seq<STrack>, dets: seq<STrack>, thresh: real, frame: int, cfg: Config, direct: bool,
                    ghost objs: Registry, ghost ids: seq<int>, ghost fr: Frame, ghost idx: seq<nat>)
    returns (activated: seq<STrack>, refind: seq<STrack>, rows: seq<STrack>, cols: seq<STrack>, ghost st: Stage)
    requires Registered(objs) && Lists(objs, s, ids) && Detections(objs, dets, fr, idx)
    requires ConfigOk(cfg) && InFrame(fr, idx)
    modifies objs.Values
    ensures Registered(objs) && Known(old(Values(objs)), ids)
    ensures st == MatchRound(old(Values(objs)), ids, fr, idx, thresh, frame, cfg, direct)
    ensures Values(objs) == st.heap
    ensures Lists(objs, activated, st.activated) && Lists(objs, refind, st.refind)
    ensures Lists(objs, rows, st.rows) && Detections(objs, cols, fr, st.cols)
    ensures forall d :: d in cols ==> d in dets
  {
    StageMatching(objs, s, ids, dets, fr, idx, thresh, cfg);
    assert |s| == |ids| && |dets| == |idx|;
    ghost var h := Values(objs);
    var m := LinearAssignment(PairDistances(CornersOf(s), CornersOf(dets)), thresh, cfg.solver);
    hide LinearAssignment, PairDistances, Associate, ConfigOk, ApplyMatches, Increasing, Registered, Values, Lists,
         Detections;
    ghost var r;
    activated, refind, r := ApplyEach(s, dets, m.matches, frame, cfg, direct, objs, ids, fr, idx);
    ChosenTracks(objs, s, ids, m.rows);
    ChosenDetections(objs, dets, fr, idx, m.cols);
    rows, cols := At(s, m.rows), At(dets, m.cols);
    st := Stage(r.heap, r.activated, r.refind, At(ids, m.rows), At(idx, m.cols));
  }

  // ---- new tracks -----------------------------------------------------------

  ghost predicate IdsUpTo(objs: Registry, n: int) {
    forall x :: x in objs ==> x <= n
  }

  method SpawnOne(det: STrack, counter: Counter, frame: int, ghost was: Registry, ghost fr: Frame, ghost i: nat)
    returns (ghost objs: Registry)
    requires Registered(was) && Aligned(fr) && det.Holds(fr, i) && det !in was.Values && IdsUpTo(was, counter.n)
    modifies det, counter
    ensures counter.n == old(counter.n) + 1 && objs == was[counter.n := det]
    ensures Registered(objs) && IdsUpTo(objs, counter.n) && counter.n !in was
    ensures Values(objs) == old(Values(was))[counter.n := Activated(fr, i, frame)]
  {
    hide Activated;
    ghost var h := Values(was);
    det.Activate(counter, frame, fr, i);
    objs := was[counter.n := det];
    assert forall x :: x in was ==> was[x] != det;
    OneChanged(objs, h[counter.n := Activated(fr, i, frame)], counter.n);
  }

  /** The loop that starts a track on every leftover detection that is strong enough. */
  method SpawnEach(dets: seq<STrack>, counter: Counter, frame: int, cfg: Config,
                   ghost was: Registry, ghost fr: Frame, ghost idx: seq<nat>)
    returns (born: seq<STrack>, ghost objs: Registry, ghost b: Births)
    requires Registered(was) && Detections(was, dets, fr, idx) && InFrame(fr, idx) && IdsUpTo(was, counter.n)
    modifies dets, counter
    ensures Registered(objs) && b == Spawn(old(Values(was)), fr, idx, frame, cfg, old(counter.n))
    ensures counter.n == b.count && Values(objs) == b.heap && Lists(objs, born, b.born) && IdsUpTo(objs, counter.n)
    ensures forall x :: x in was ==> x in objs && objs[x] == was[x]
    ensures forall x :: x in objs && x !in was ==> objs[x] in dets
  {
    hide Activated, Registered, Values, Lists;
    born, objs := [], was;
    ListsEmpty(objs);
    ghost var h := Values(was);
    b := Births(h, [], counter.n);
    assert idx[..0] == [];
    for k := 0 to |dets|
      invariant Registered(objs) && Values(objs) == b.heap && counter.n == b.count
      invariant b == Spawn(h, fr, idx[..k], frame, cfg, old(counter.n))
      invariant Lists(objs, born, b.born) && IdsUpTo(objs, counter.n)
      invariant forall j :: k <= j < |dets| ==> dets[j].Holds(fr, idx[j]) && dets[j] !in objs.Values
      invariant forall x :: x in was ==> x in objs && objs[x] == was[x]
      invariant forall x :: x in objs && x !in was ==> objs[x] in dets
    {
      var det := dets[k];
      assert idx[..k + 1][..k] == idx[..k] && idx[..k + 1][k] == idx[k];
      assert det.Holds(fr, idx[k]);
      if det.score < cfg.trackThresh + 0.1 {
        continue;
      }
      ghost var before := objs;
      objs := SpawnOne(det, counter, frame, before, fr, idx[k]);
      ListsGrow(before, objs, born, b.born);
      ListsSnoc(objs, born, b.born, counter.n);
      born := born + [det];
      b := Births(Values(objs), b.born + [counter.n], counter.n);
    }
    assert idx[..|dets|] == idx;
  }

  lemma ListsGrow(objs: Registry, more: Registry, s: seq<STrack>, ids: seq<int>)
    requires Lists(objs, s, ids) && forall x :: x in objs ==> x in more && more[x] == objs[x]
    ensures Lists(more, s, ids)
  {
    forall k | 0 <= k < |s| ensures ids[k] in more && more[ids[k]] == s[k] {
      var x := ids[k];
      assert x in objs && objs[x] == s[k];
    }
  }
}
