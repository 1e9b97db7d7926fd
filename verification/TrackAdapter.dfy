/** `ByteTrackTracker`: one id per detection of the frame, -1 where no track holds it. */
module TrackAdapter {
  import opened TrackLists
  import opened TrackerModel
  import opened TrackerInvariant
  import opened Tracks
  import opened TrackLoops
  import opened TrackerRuns
  import B = ByteTracker

  /** Each track writes its id at its detection, if that index exists. */
  function Scatter(h: Heap, ids: seq<int>, n: nat): (r: seq<int>)
    requires Known(h, ids)
    ensures |r| == n
  {
    if ids == [] then seq(n, _ => -1)
    else
      var r := Scatter(h, ids[..|ids| - 1], n);
      var x := ids[|ids| - 1];
      assert x in ids;
      if 0 <= h[x].det < n then r[h[x].det := x] else r
  }

  /** The listed tracks hold different detections among the first `n`. */
  ghost predicate HoldOwn(h: Heap, ids: seq<int>, n: nat)
    requires Known(h, ids)
  {
    && (forall x :: x in ids ==> x >= 1 && 0 <= h[x].det < n)
    && (forall x, y :: x in ids && y in ids && x != y ==> h[x].det != h[y].det)
  }

  /** `r` names, for every detection, the one track that holds it. */
  ghost predicate Aligns(h: Heap, ids: seq<int>, n: nat, r: seq<int>)
    requires Known(h, ids)
  {
    && |r| == n
    && (forall x :: x in ids ==> 0 <= h[x].det < n && r[h[x].det] == x)
    && (forall i :: 0 <= i < n ==> r[i] == -1 || (r[i] in ids && r[i] >= 1 && h[r[i]].det == i))
  }

  lemma {:induction false} ScatterAligns(h: Heap, ids: seq<int>, n: nat)
    requires Known(h, ids) && HoldOwn(h, ids, n)
    ensures Aligns(h, ids, n, Scatter(h, ids, n))
  {
    if ids != [] {
      var init, x := ids[..|ids| - 1], ids[|ids| - 1];
      assert x in ids && forall y :: y in ids <==> y in init || y == x;
      ScatterAligns(h, init, n);
    }
  }

  /** Right after a frame, every tracked track holds a detection of that frame, its own. */
  lemma TrackedHoldOwn(s: Tracker, fr: Frame, cfg: Config, limit: nat, count: int)
    requires ConfigOk(cfg) && Aligned(fr) && Inv(s, limit, count) && |fr.scores| <= limit
    ensures var t := Step(s, fr, cfg, count).0;
      Known(t.heap, Online(t)) && HoldOwn(t.heap, Online(t), |fr.scores|)
  {
    hide Settled, ConfigOk, Ran, Inv;
    InvKnown(s, limit, count);
    var r := Ran(s, fr, cfg, count);
    FrameSettles(s, fr, cfg, limit, count);
    StepKeepsInv(s, fr, cfg, limit, count);
    SettledKnown(s, r, cfg, limit, count, |fr.scores|);
    StepParts(s, fr, cfg, count);
    hide Step;
    MergedHoldOwn(s, r, cfg, limit, count, |fr.scores|);
  }

  lemma MergedHoldOwn(s: Tracker, r: FrameRun, cfg: Config, limit: nat, count: int, n: nat)
    requires Inv(s, limit, count) && Settled(s, r, cfg, count, n)
    requires Known(r.settled, s.tracked) && Known(r.settled, s.lost)
    requires Known(r.settled, r.activated) && Known(r.settled, r.confirmed.refind) && Known(r.settled, r.confirmed.lost)
    ensures var t := Merge(s, r.settled, s.frame + 1, r.activated, r.confirmed.refind, r.confirmed.lost,
                           r.tentative.gone + r.overdue);
      Known(t.heap, Online(t)) && HoldOwn(t.heap, Online(t), n)
  {
    var h := r.settled;
    hide Inv, Settled, InState, Sub, Joint, DropsTracked, DropsLost;
    ApartAndClean(s, r, cfg, limit, count, n);
    SettledKnown(s, r, cfg, limit, count, n);
    var tracked := Joint(Joint(InState(h, s.tracked, Tracked), r.activated), r.confirmed.refind);
    var lost := Sub(Sub(s.lost, tracked) + r.confirmed.lost, s.removed);
    MergeLists(s, r, cfg, limit, count, n, tracked, lost);
    var kept := WithoutDuplicates(h, tracked, lost).0;
    assert forall x :: x in kept ==> x in tracked;
  }

  /** The adapter around one tracker. */
  class ByteTrackTracker {
    const impl: B.BYTETracker

    constructor (impl: B.BYTETracker)
      ensures this.impl == impl
    {
      this.impl := impl;
    }

    method Update(fr: Frame) returns (ids: seq<int>)
      requires impl.Valid() && ConfigOk(impl.cfg) && Aligned(fr)
      modifies impl, impl.counter, impl.view.objs.Values
      ensures impl.Valid() && impl.Model() == Step(old(impl.Model()), fr, impl.cfg, old(impl.counter.n)).0
      ensures Known(impl.Model().heap, Online(impl.Model()))
      ensures ids == Scatter(impl.Model().heap, Online(impl.Model()), |fr.boxes|)
    {
      hide ConfigOk, Step;
      var online := impl.Update(fr);
      ids := WriteIds(online, |fr.boxes|, impl.view.objs, Online(impl.Model()));
    }
  }

  method WriteIds(online: seq<STrack>, n: nat, ghost objs: Registry, ghost of: seq<int>) returns (ids: seq<int>)
    requires Registered(objs) && Lists(objs, online, of)
    ensures Known(Values(objs), of) && ids == Scatter(Values(objs), of, n)
  {
    ghost var h := Values(objs);
    ids := seq(n, _ => -1);
    assert of[..0] == [];
    for k := 0 to |online|
      invariant Known(h, of[..k]) && ids == Scatter(h, of[..k], n)
    {
      ListedAt(objs, online, of, k);
      assert of[..k + 1][..k] == of[..k];
      if 0 <= online[k].detIndex < |ids| {
        ids := ids[online[k].detIndex := online[k].trackId];
      }
    }
    assert of[..|online|] == of;
  }

  /** `r` names, for every detection, the one tracked track that holds it, if that one was born before
      this frame or the frame is the first. */
  ghost predicate NamesEstablished(t: Tracker, n: nat, r: seq<int>) {
    && |r| == n
    && (forall x :: x in t.tracked && x in t.heap && (t.frame == 1 || t.heap[x].start < t.frame) ==>
          0 <= t.heap[x].det < n && r[t.heap[x].det] == x)
    && (forall i :: 0 <= i < n && r[i] != -1 ==>
          r[i] in t.tracked && r[i] in t.heap && r[i] >= 1 && t.heap[r[i]].det == i
          && (t.frame == 1 || t.heap[r[i]].start < t.frame))
  }

  lemma AlignedNames(t: Tracker, n: nat, r: seq<int>, limit: nat, count: int)
    requires Inv(t, limit, count) && Known(t.heap, Online(t)) && Aligns(t.heap, Online(t), n, r)
    ensures NamesEstablished(t, n, r)
  {
    hide HoldsApart, SortedBy, LostOk;
    forall x ensures x in Online(t) <==> x in t.tracked && x in t.heap && (t.frame == 1 || t.heap[x].start < t.frame) {
      assert x in t.tracked ==> TrackedOk(t.heap[x], t.frame);
    }
    hide Online;
  }

  /** The promise of the tracker interface: ids aligned with the detections, every established track
      named exactly once, no track lost to the range guard. */
  lemma IdsAligned(s: Tracker, fr: Frame, cfg: Config, limit: nat, count: int)
    requires ConfigOk(cfg) && Aligned(fr) && Inv(s, limit, count) && |fr.scores| <= limit
    ensures var t := Step(s, fr, cfg, count).0;
      && Known(t.heap, Online(t))
      && var ids := Scatter(t.heap, Online(t), |fr.boxes|);
      && Aligns(t.heap, Online(t), |fr.boxes|, ids) && NamesEstablished(t, |fr.boxes|, ids)
      && (forall i, j :: 0 <= i < j < |ids| && ids[i] >= 0 && ids[j] >= 0 ==> ids[i] != ids[j])
  {
    hide Step, Inv, ConfigOk;
    InvKnown(s, limit, count);
    TrackedHoldOwn(s, fr, cfg, limit, count);
    var t := Step(s, fr, cfg, count).0;
    ScatterAligns(t.heap, Online(t), |fr.boxes|);
    StepKeepsInv(s, fr, cfg, limit, count);
    AlignedNames(t, |fr.boxes|, Scatter(t.heap, Online(t), |fr.boxes|), limit, Step(s, fr, cfg, count).1);
  }
}
