/** How long lost tracks stay listed, and how large a tracker's lists can grow. */
module TrackerAges {
  import opened Assignment
  import opened TrackLists
  import opened TrackerModel
  import opened TrackerPhases
  import opened TrackerInvariant
  import opened TrackerRuns

  /** Frames a lost track can go unmatched before it is overdue; at least one, because a track
      is not aged in the frame that loses it. */
  function Grace(cfg: Config): nat {
    if cfg.maxLost == 0 then 1 else cfg.maxLost
  }

  /** A lost track is marked Removed exactly in its last frame on the list, and is then listed as removed. */
  ghost predicate OnTime(t: Track, id: int, f: int, grace: nat, removed: seq<int>) {
    && f - t.frame <= grace + 1
    && t.state == (if f - t.frame == grace + 1 then Removed else Lost)
    && (t.state == Removed ==> id in removed)
  }

  ghost predicate Timely(s: Tracker, cfg: Config) {
    forall x :: x in s.lost && x in s.heap ==> OnTime(s.heap[x], x, s.frame, Grace(cfg), s.removed)
  }

  /** A lost id that survives the bookkeeping: not matched, and not already listed as removed. */
  lemma LostAges(s: Tracker, r: FrameRun, cfg: Config, limit: nat, count: int, n: nat, x: int, removed: seq<int>)
    requires Inv(s, limit, count) && Timely(s, cfg) && Settled(s, r, cfg, count, n)
    requires (x in s.lost && r.settled[x].frame != s.frame + 1 && x !in s.removed) || x in r.confirmed.lost
    requires forall y :: y in r.overdue && s.frame + 1 - r.settled[y].frame == Grace(cfg) + 1 ==> y in removed
    ensures x in r.settled && OnTime(r.settled[x], x, s.frame + 1, Grace(cfg), removed)
  {
    hide Clean, SortedBy;
    if x in r.confirmed.lost {
      assert WasTracked(s.heap[x], r.settled[x], s.frame + 1, true);
      assert TrackedOk(s.heap[x], s.frame);
    } else {
      assert WasLost(s.heap[x], r.settled[x], s.frame + 1, cfg.maxLost);
      assert LostOk(s.heap[x], s.frame) && OnTime(s.heap[x], x, s.frame, Grace(cfg), s.removed);
    }
  }

  lemma DistinctBounded(s: seq<int>, n: nat)
    requires Distinct(s) && forall k :: 0 <= k < |s| ==> 0 <= s[k] < n
    ensures |s| <= n
  {
    DistinctSize(s);
    var e := Elements(s);
    forall x | x in e ensures x in UpTo(n) {
      var k :| 0 <= k < |s| && s[k] == x;
    }
    SubsetSize(e, UpTo(n));
  }

  lemma DistinctSize(s: seq<int>)
    requires Distinct(s)
    ensures |Elements(s)| == |s|
  {
    if s != [] {
      DistinctSize(s[..|s| - 1]);
      assert s[|s| - 1] !in s[..|s| - 1];
    }
  }

  /** Distinct ids whose keys are distinct numbers below `n` are at most `n`. */
  lemma KeysBound(s: seq<int>, key: int -> int, n: nat)
    requires forall k :: 0 <= k < |s| ==> 0 <= key(s[k]) < n
    requires forall j, k :: 0 <= j < k < |s| ==> key(s[j]) != key(s[k])
    ensures |s| <= n
  {
    var keys := seq(|s|, k requires 0 <= k < |s| => key(s[k]));
    DistinctBounded(keys, n);
  }

  /** An id overdue for the first time is among the last `limit` of the overdue list, so it
      survives the truncation of the removed list to its last 1000 entries. */
  lemma FreshlyOverdueKept(s: Tracker, r: FrameRun, cfg: Config, limit: nat, count: int, n: nat, x: int,
                           before: seq<int>)
    requires Inv(s, limit, count) && Timely(s, cfg) && Settled(s, r, cfg, count, n) && limit <= REMOVED_KEPT
    requires x in r.overdue && x in r.settled && s.frame + 1 - r.settled[x].frame == Grace(cfg) + 1
    ensures x in LastOf(before + r.overdue, REMOVED_KEPT)
  {
    hide Inv, Timely, Settled, LastOf;
    OverdueDistinct(s, r, cfg, limit, count, n);
    var od := r.overdue;
    var p :| 0 <= p < |od| && od[p] == x;
    SameFrameAfter(s, r, cfg, limit, count, n, p, p);
    forall k | p <= k < |od|
      ensures od[k] in s.lost && od[k] in s.heap && s.heap[od[k]].frame == s.heap[x].frame
    {
      SameFrameAfter(s, r, cfg, limit, count, n, p, k);
      assert r.overdue[p] == x;
    }
    TailBound(s, cfg, limit, count, od[p..], x);
    SuffixKept(before, od, p, REMOVED_KEPT);
  }

  lemma OverdueDistinct(s: Tracker, r: FrameRun, cfg: Config, limit: nat, count: int, n: nat)
    requires Inv(s, limit, count) && Settled(s, r, cfg, count, n)
    ensures Distinct(r.overdue)
  {
    hide Clean, Distinct, WasTracked, WasLost, HoldsApart;
  }

  lemma SameFrameAfter(s: Tracker, r: FrameRun, cfg: Config, limit: nat, count: int, n: nat, p: nat, k: nat)
    requires Inv(s, limit, count) && Timely(s, cfg) && Settled(s, r, cfg, count, n) && p <= k < |r.overdue|
    requires r.overdue[p] in r.settled && s.frame + 1 - r.settled[r.overdue[p]].frame == Grace(cfg) + 1
    ensures r.overdue[p] in s.heap && r.overdue[k] in s.lost && r.overdue[k] in s.heap
    ensures s.heap[r.overdue[k]].frame == s.heap[r.overdue[p]].frame
  {
    hide Clean, HoldsApart, Inv, Timely, WasLost, WasTracked;
    OverdueFrame(s, r, cfg, limit, count, n, r.overdue[p]);
    OverdueFrame(s, r, cfg, limit, count, n, r.overdue[k]);
    assert p < k ==> LastSeen(s.heap)(r.overdue[p]) <= LastSeen(s.heap)(r.overdue[k]);
  }

  lemma SuffixKept(before: seq<int>, s: seq<int>, p: nat, n: nat)
    requires p < |s| && |s| - p <= n
    ensures s[p] in LastOf(before + s, n)
  {
    var all := before + s;
    var kept := LastOf(all, n);
    assert all[|before| + p] == s[p];
    if |all| > n {
      assert kept[|before| + p - (|all| - n)] == s[p];
    }
  }

  lemma OverdueFrame(s: Tracker, r: FrameRun, cfg: Config, limit: nat, count: int, n: nat, y: int)
    requires Inv(s, limit, count) && Timely(s, cfg) && Settled(s, r, cfg, count, n) && y in r.overdue
    ensures y in s.lost && y in s.heap && y in r.settled && r.settled[y].frame == s.heap[y].frame
    ensures s.heap[y].frame <= s.frame - Grace(cfg)
  {
    hide Clean, SortedBy, HoldsApart;
    assert WasLost(s.heap[y], r.settled[y], s.frame + 1, cfg.maxLost);
    assert LostOk(s.heap[y], s.frame) && OnTime(s.heap[y], y, s.frame, Grace(cfg), s.removed);
  }

  lemma TailBound(s: Tracker, cfg: Config, limit: nat, count: int, tail: seq<int>, x: int)
    requires Inv(s, limit, count) && Distinct(tail) && x in s.heap
    requires forall k :: 0 <= k < |tail| ==>
      tail[k] in s.lost && tail[k] in s.heap && s.heap[tail[k]].frame == s.heap[x].frame
    ensures |tail| <= limit
  {
    var key := (y: int) => if y in s.heap then s.heap[y].det else 0;
    forall k | 0 <= k < |tail| ensures 0 <= key(tail[k]) < limit {
      var y := tail[k];
      assert y in s.heap && (y in s.tracked || y in s.lost);
      assert 0 <= s.heap[y].det < limit;
    }
    KeysBound(tail, key, limit);
  }

  /** While no frame has more detections than the removed list holds, a frame keeps every age in bounds. */
  lemma StepKeepsAges(s: Tracker, fr: Frame, cfg: Config, limit: nat, count: int)
    requires ConfigOk(cfg) && Aligned(fr) && Inv(s, limit, count) && Timely(s, cfg)
    requires |fr.scores| <= limit <= REMOVED_KEPT
    ensures Timely(Step(s, fr, cfg, count).0, cfg)
  {
    hide Settled, ConfigOk, Ran, Inv, Timely;
    InvKnown(s, limit, count);
    var r := Ran(s, fr, cfg, count);
    FrameSettles(s, fr, cfg, limit, count);
    SettledKnown(s, r, cfg, limit, count, |fr.scores|);
    StepParts(s, fr, cfg, count);
    hide Step;
    MergeKeepsAges(s, r, cfg, limit, count, |fr.scores|);
  }

  lemma MergeKeepsAges(s: Tracker, r: FrameRun, cfg: Config, limit: nat, count: int, n: nat)
    requires Inv(s, limit, count) && Timely(s, cfg) && Settled(s, r, cfg, count, n) && n <= limit <= REMOVED_KEPT
    requires Known(r.settled, s.tracked) && Known(r.settled, s.lost)
    requires Known(r.settled, r.activated) && Known(r.settled, r.confirmed.refind) && Known(r.settled, r.confirmed.lost)
    ensures Timely(Merge(s, r.settled, s.frame + 1, r.activated, r.confirmed.refind, r.confirmed.lost,
                         r.tentative.gone + r.overdue), cfg)
  {
    hide Inv, Settled, OnTime, InState, Sub, WithoutDuplicates;
    var h, f := r.settled, s.frame + 1;
    SettledKnown(s, r, cfg, limit, count, n);
    var tracked := Joint(Joint(InState(h, s.tracked, Tracked), r.activated), r.confirmed.refind);
    var lost := Sub(Sub(s.lost, tracked) + r.confirmed.lost, s.removed);
    MergeLists(s, r, cfg, limit, count, n, tracked, lost);
    var removed := LastOf(s.removed + (r.tentative.gone + r.overdue), REMOVED_KEPT);
    assert s.removed + (r.tentative.gone + r.overdue) == (s.removed + r.tentative.gone) + r.overdue;
    forall y | y in r.overdue && f - h[y].frame == Grace(cfg) + 1 ensures y in removed {
      FreshlyOverdueKept(s, r, cfg, limit, count, n, y, s.removed + r.tentative.gone);
    }
    forall x | x in lost ensures OnTime(h[x], x, f, Grace(cfg), removed) {
      LostAges(s, r, cfg, limit, count, n, x, removed);
    }
  }

  lemma FreshTimely(cfg: Config)
    ensures Timely(Fresh(), cfg)
  {}

  lemma {:induction false} RunKeepsAges(cfg: Config, inputs: seq<Input>, limit: nat)
    requires ConfigOk(cfg) && ValidInputs(inputs, limit) && limit <= REMOVED_KEPT
    ensures Timely(Run(cfg, inputs).0, cfg)
  {
    hide Run, Inv, Timely, Step, ConfigOk;
    if inputs == [] {
      RunStarts(cfg, limit);
      FreshTimely(cfg);
    } else {
      RunAdvances(cfg, inputs);
      var before, last := Run(cfg, inputs[..|inputs| - 1]), inputs[|inputs| - 1];
      RunKeepsAges(cfg, inputs[..|inputs| - 1], limit);
      RunKeepsInv(cfg, inputs[..|inputs| - 1], limit);
      InvWithMoreIds(before.0, limit, before.1, before.1 + last.others);
      StepKeepsAges(before.0, last.frame, cfg, limit, before.1 + last.others);
    }
  }

  // ---- bounds on the lists ---------------------------------------------------------------

  /** A tracker never tracks more than one frame's detections. */
  lemma TrackedBound(s: Tracker, limit: nat, count: int)
    requires Inv(s, limit, count)
    ensures |s.tracked| <= limit
  {
    var det := (x: int) => if x in s.heap then s.heap[x].det else 0;
    forall k | 0 <= k < |s.tracked| ensures 0 <= det(s.tracked[k]) < limit {
      TrackedListed(s, limit, count, k);
    }
    forall j, k | 0 <= j < k < |s.tracked| ensures det(s.tracked[j]) != det(s.tracked[k]) {
      TrackedListed(s, limit, count, j);
      TrackedListed(s, limit, count, k);
      ApartAt(s, limit, count, s.tracked[j], s.tracked[k]);
    }
    KeysBound(s.tracked, det, limit);
  }

  lemma TrackedListed(s: Tracker, limit: nat, count: int, k: nat)
    requires Inv(s, limit, count) && k < |s.tracked|
    ensures var x := s.tracked[k];
      x in s.tracked && x in s.heap && s.heap[x].frame == s.frame && 0 <= s.heap[x].det < limit
  {
    hide SortedBy;
    var x := s.tracked[k];
    assert x in s.tracked;
    assert TrackedOk(s.heap[x], s.frame);
  }

  lemma ApartAt(s: Tracker, limit: nat, count: int, x: int, y: int)
    requires Inv(s, limit, count) && x in s.heap && y in s.heap && x != y
    requires (x in s.tracked || x in s.lost) && (y in s.tracked || y in s.lost)
    ensures s.heap[x].frame == s.heap[y].frame ==> s.heap[x].det != s.heap[y].det
  {}

  /** A number for each (frames since last match, detection). */
  function Slot(limit: nat, age: int, det: int): int {
    limit * (age - 1) + det
  }

  lemma TimesMonotone(k: nat, a: int, b: int)
    requires a <= b
    ensures k * a <= k * b
  {}

  lemma SlotInRange(limit: nat, periods: nat, age: nat, det: nat)
    requires 1 <= age <= periods && det < limit
    ensures 0 <= Slot(limit, age, det) < limit * periods
  {
    assert limit * (age - 1) + limit == limit * age;
    TimesMonotone(limit, age, periods);
    TimesMonotone(limit, 0, age - 1);
  }

  lemma SlotGrows(limit: nat, a: int, b: int, d: nat, e: nat)
    requires d < limit && a < b
    ensures Slot(limit, a, d) < Slot(limit, b, e)
  {
    assert limit * (a - 1) + limit == limit * a;
    TimesMonotone(limit, a, b - 1);
  }

  lemma SameAgeSlots(limit: nat, a: int, d: int, e: int)
    requires d != e
    ensures Slot(limit, a, d) != Slot(limit, a, e)
  {}

  /** The lost list is bounded for ever, by a frame's detections for every frame a track may stay lost. */
  lemma LostBound(s: Tracker, cfg: Config, limit: nat, count: int)
    requires Inv(s, limit, count) && Timely(s, cfg)
    ensures |s.lost| <= limit * (Grace(cfg) + 1)
  {
    hide HoldsApart, SortedBy, Slot, LostOk;
    var key := (x: int) => if x in s.heap then Slot(limit, s.frame - s.heap[x].frame, s.heap[x].det) else 0;
    forall k | 0 <= k < |s.lost| ensures 0 <= key(s.lost[k]) < limit * (Grace(cfg) + 1) {
      var x := s.lost[k];
      assert x in s.lost;
      LostListed(s, cfg, limit, count, x);
      SlotInRange(limit, Grace(cfg) + 1, s.frame - s.heap[x].frame, s.heap[x].det);
    }
    forall j, k | 0 <= j < k < |s.lost| ensures key(s.lost[j]) != key(s.lost[k]) {
      LostSlotsDiffer(s, cfg, limit, count, j, k);
    }
    KeysBound(s.lost, key, limit * (Grace(cfg) + 1));
  }

  lemma LostSlotsDiffer(s: Tracker, cfg: Config, limit: nat, count: int, j: nat, k: nat)
    requires Inv(s, limit, count) && Timely(s, cfg) && j < k < |s.lost|
    ensures s.lost[j] in s.heap && s.lost[k] in s.heap
    ensures Slot(limit, s.frame - s.heap[s.lost[j]].frame, s.heap[s.lost[j]].det)
         != Slot(limit, s.frame - s.heap[s.lost[k]].frame, s.heap[s.lost[k]].det)
  {
    hide HoldsApart, SortedBy, Slot, LostOk;
    var x, y := s.lost[j], s.lost[k];
    assert x in s.lost && y in s.lost;
    LostListed(s, cfg, limit, count, x);
    LostListed(s, cfg, limit, count, y);
    ApartAt(s, limit, count, x, y);
    var a, b := s.frame - s.heap[x].frame, s.frame - s.heap[y].frame;
    if a < b {
      SlotGrows(limit, a, b, s.heap[x].det, s.heap[y].det);
    } else if b < a {
      SlotGrows(limit, b, a, s.heap[y].det, s.heap[x].det);
    } else {
      SameAgeSlots(limit, a, s.heap[x].det, s.heap[y].det);
    }
  }

  lemma LostListed(s: Tracker, cfg: Config, limit: nat, count: int, x: int)
    requires Inv(s, limit, count) && Timely(s, cfg) && x in s.lost
    ensures x in s.heap && 1 <= s.frame - s.heap[x].frame <= Grace(cfg) + 1 && 0 <= s.heap[x].det < limit
  {
    assert x in s.heap && LostOk(s.heap[x], s.frame) && OnTime(s.heap[x], x, s.frame, Grace(cfg), s.removed);
    hide SortedBy;
  }

  /** No lost track outstays its grace by more than a frame. */
  ghost predicate AgesBounded(s: Tracker, cfg: Config) {
    forall x :: x in s.lost && x in s.heap ==> s.frame - s.heap[x].frame <= Grace(cfg) + 1
  }

  lemma TimelyAges(s: Tracker, cfg: Config)
    requires Timely(s, cfg)
    ensures AgesBounded(s, cfg)
  {}

  /** After any run: who is tracked, who is lost, that no two of them share frame and detection, and how
      large the lists are. Only the ages, and with them the size of the lost list, need frames small
      enough for the removed list. */
  lemma AfterAnyRun(cfg: Config, inputs: seq<Input>, limit: nat)
    requires ConfigOk(cfg) && ValidInputs(inputs, limit)
    ensures var s := Run(cfg, inputs).0;
      && (forall x :: x in s.tracked ==> x in s.heap && s.heap[x].state == Tracked && s.heap[x].frame == |inputs|
                                         && (!s.heap[x].activated ==> s.heap[x].start == |inputs|))
      && (forall x :: x in s.lost ==> x in s.heap && x !in s.tracked && s.heap[x].activated
                                      && s.heap[x].frame < |inputs|
                                      && (s.heap[x].state == Lost || s.heap[x].state == Removed))
      && Distinct(s.tracked) && Distinct(s.lost) && HoldsApart(s.heap, s.tracked, s.lost, limit)
      && |s.tracked| <= limit && |s.removed| <= 1000
      && (limit <= 1000 ==> AgesBounded(s, cfg) && |s.lost| <= limit * (Grace(cfg) + 1))
  {
    hide Run, ConfigOk, Timely;
    RunKeepsInv(cfg, inputs, limit);
    var (s, count) := Run(cfg, inputs);
    TrackedBound(s, limit, count);
    if limit <= 1000 {
      RunKeepsAges(cfg, inputs, limit);
      TimelyAges(s, cfg);
      LostBound(s, cfg, limit, count);
    }
  }
}
