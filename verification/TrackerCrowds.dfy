/** Frames with more detections than the removed list holds: lost tracks outstay their grace. */
module TrackerCrowds {
  import opened Assignment
  import opened Geometry
  import opened TrackLists
  import opened TrackerModel
  import opened TrackerPhases
  import opened TrackerInvariant
  import opened TrackerRuns
  import opened TrackerAges

  /** `n` detections in one place, strong enough to start tracks. */
  function Crowd(cfg: Config, n: nat): (fr: Frame)
    ensures Aligned(fr) && |fr.scores| == n
  {
    Frame(seq(n, _ => Box(0.0, 0.0, 1.0, 1.0)), seq(n, _ => 0), seq(n, _ => cfg.trackThresh + 0.1))
  }

  function Nothing(): Frame {
    Frame([], [], [])
  }

  function CrowdThenNothing(cfg: Config, n: nat, quiet: nat): (r: seq<Input>)
    ensures |r| == quiet + 1 && ValidInputs(r, n)
  {
    if quiet == 0 then [Input(Crowd(cfg, n), 0)]
    else CrowdThenNothing(cfg, n, quiet - 1) + [Input(Nothing(), 0)]
  }

  ghost predicate AtLeast(fr: Frame, score: real) {
    forall i :: 0 <= i < |fr.scores| ==> fr.scores[i] >= score
  }

  lemma {:induction false} AllHigh(fr: Frame, cfg: Config, n: nat)
    requires n <= |fr.scores| && AtLeast(fr, cfg.trackThresh + 0.1)
    ensures |High(fr, cfg, n)| == n
  {
    if n > 0 {
      AllHigh(fr, cfg, n - 1);
    }
  }

  lemma {:induction false} AllSpawn(h: Heap, fr: Frame, dets: seq<nat>, f: int, cfg: Config, count: int)
    requires InFrame(fr, dets) && AtLeast(fr, cfg.trackThresh + 0.1)
    ensures Spawn(h, fr, dets, f, cfg, count).count == count + |dets|
  {
    if dets != [] {
      AllSpawn(h, fr, dets[..|dets| - 1], f, cfg, count);
    }
  }

  /** A round over nobody leaves every detection over. */
  lemma NobodyMatched(h: Heap, fr: Frame, dets: seq<nat>, thresh: real, f: int, cfg: Config, direct: bool)
    requires ConfigOk(cfg) && InFrame(fr, dets)
    ensures |MatchRound(h, [], fr, dets, thresh, f, cfg, direct).cols| >= |dets|
  {
    hide LinearAssignment, ApplyMatches;
    var c := Distances(h, [], fr, dets);
    LinearAssignmentSound(c, thresh, cfg.solver);
    var m := Associate(h, [], fr, dets, thresh, cfg);
    assert forall j: nat :: j < |dets| ==> !ColUsed(m.matches, j);
    assert UpTo(|dets|) <= Elements(m.cols);
    SubsetSize(UpTo(|dets|), Elements(m.cols));
  }

  /** What a frame without detections does to a tracker with confirmed tracks only. */
  ghost predicate Quietly(s: Tracker, t: Tracker, cfg: Config) {
    && t.frame == s.frame + 1 && |t.removed| <= REMOVED_KEPT
    && QuietLists(s, t, cfg)
    && (forall x :: x in t.lost ==> x in t.heap && t.heap[x].activated)
  }

  ghost predicate QuietLists(s: Tracker, t: Tracker, cfg: Config) {
    && t.tracked == []
    && (forall x :: x in t.lost <==> (x in s.tracked || x in s.lost) && x !in s.removed)
    && (forall x :: x in s.tracked || x in s.lost ==> x in s.heap && x in t.heap && t.heap[x].frame == s.heap[x].frame)
    && (s.removed == [] && (forall x :: x in s.lost && x in s.heap ==> s.frame + 1 - s.heap[x].frame <= cfg.maxLost)
        ==> t.removed == [])
  }

  ghost predicate AllConfirmed(s: Tracker) {
    forall x :: x in s.tracked ==> x in s.heap && s.heap[x].activated
  }

  /** In a frame without detections everyone tracked is lost, and the lost age. */
  lemma QuietFrame(s: Tracker, cfg: Config, limit: nat, count: int)
    requires ConfigOk(cfg) && Inv(s, limit, count) && AllConfirmed(s)
    ensures Quietly(s, Step(s, Nothing(), cfg, count).0, cfg)
  {
    hide Ran, Settled, Phases, ConfigOk, Inv, Quietly;
    InvKnown(s, limit, count);
    var fr := Nothing();
    var r := Ran(s, fr, cfg, count);
    FrameSettles(s, fr, cfg, limit, count);
    FramePhases(s, fr, cfg, limit, count);
    SettledKnown(s, r, cfg, limit, count, 0);
    StepParts(s, fr, cfg, count);
    StepKeepsInv(s, fr, cfg, limit, count);
    hide Step, Merge, AllConfirmed;
    QuietMerge(s, r, cfg, limit, count);
    var (t, after) := Step(s, fr, cfg, count);
    LostActivated(t, limit, after);
    CollectQuietly(s, t, cfg);
  }

  lemma CollectQuietly(s: Tracker, t: Tracker, cfg: Config)
    requires Known(s.heap, s.tracked) && Known(s.heap, s.lost) && t.frame == s.frame + 1 && |t.removed| <= REMOVED_KEPT
    requires QuietLists(s, t, cfg)
    requires forall x :: x in t.lost ==> x in t.heap && t.heap[x].activated
    ensures Quietly(s, t, cfg)
  {}

  lemma LostActivated(s: Tracker, limit: nat, count: int)
    requires Inv(s, limit, count)
    ensures forall x :: x in s.lost ==> x in s.heap && s.heap[x].activated
    ensures |s.removed| <= REMOVED_KEPT
  {
    hide HoldsApart, SortedBy, TrackedOk;
    forall x | x in s.lost ensures x in s.heap && s.heap[x].activated {
      assert LostOk(s.heap[x], s.frame);
    }
  }

  lemma QuietMerge(s: Tracker, r: FrameRun, cfg: Config, limit: nat, count: int)
    requires Inv(s, limit, count) && Settled(s, r, cfg, count, 0) && Phases(s, r, cfg, count)
    requires AllConfirmed(s)
    requires Known(r.settled, s.tracked) && Known(r.settled, s.lost)
    requires Known(r.settled, r.activated) && Known(r.settled, r.confirmed.refind) && Known(r.settled, r.confirmed.lost)
    ensures QuietLists(s, Merge(s, r.settled, s.frame + 1, r.activated, r.confirmed.refind, r.confirmed.lost,
                                r.tentative.gone + r.overdue), cfg)
  {
    hide Inv, Settled, Phases, InState, Sub, WithoutDuplicates;
    var h, f := r.settled, s.frame + 1;
    InvKnown(s, limit, count);
    QuietOutcome(s, r, cfg, limit, count);
    var tracked := Joint(Joint(InState(h, s.tracked, Tracked), r.activated), r.confirmed.refind);
    var lost := Sub(Sub(s.lost, tracked) + r.confirmed.lost, s.removed);
    MergeLists(s, r, cfg, limit, count, 0, tracked, lost);
    forall x ensures x !in tracked {}
    Empty(WithoutDuplicates(h, tracked, lost).0);
  }

  /** Nobody can hold a detection of a frame that has none. */
  lemma NobodyHolds(s: Tracker, r: FrameRun, cfg: Config, count: int, x: int)
    requires Known(s.heap, s.tracked) && Known(s.heap, s.lost) && Settled(s, r, cfg, count, 0) && x in Everyone(s, r)
    ensures x in r.settled && r.settled[x].frame != s.frame + 1
  {
    hide WasTracked, WasLost, SortedBy;
  }

  lemma QuietOutcome(s: Tracker, r: FrameRun, cfg: Config, limit: nat, count: int)
    requires Inv(s, limit, count) && Settled(s, r, cfg, count, 0) && Phases(s, r, cfg, count)
    requires AllConfirmed(s)
    ensures forall x :: x in Everyone(s, r) ==> x in r.settled && r.settled[x].frame != s.frame + 1
    ensures forall x :: x in s.tracked || x in s.lost ==> x in r.settled && r.settled[x].frame == s.heap[x].frame
    ensures forall x :: x in r.confirmed.lost <==> x in s.tracked
    ensures r.tentative.gone == []
    ensures (forall x :: x in s.lost ==> s.frame + 1 - s.heap[x].frame <= cfg.maxLost) ==> r.overdue == []
  {
    hide Inv, Settled, Phases;
    InvKnown(s, limit, count);
    forall x | x in Everyone(s, r) ensures x in r.settled && r.settled[x].frame != s.frame + 1 {
      NobodyHolds(s, r, cfg, count, x);
    }
    forall x | x in s.tracked || x in s.lost || x in r.confirmed.lost
      ensures x in r.settled && x in s.heap && r.settled[x].frame == s.heap[x].frame
      ensures x in r.confirmed.lost <==> x in s.tracked
    {
      Unmatched(s, r, cfg, limit, count, x);
    }
    NobodyGone(s, r, cfg, count);
    OverdueWereLost(s, r, cfg, count);
    if forall x :: x in s.lost ==> s.frame + 1 - s.heap[x].frame <= cfg.maxLost {
      assert forall x :: x in s.lost ==> s.frame + 1 - r.settled[x].frame <= cfg.maxLost;
      Empty(r.overdue);
    }
  }

  lemma Unmatched(s: Tracker, r: FrameRun, cfg: Config, limit: nat, count: int, x: int)
    requires Inv(s, limit, count) && Settled(s, r, cfg, count, 0)
    requires x in s.tracked || x in s.lost || x in r.confirmed.lost
    requires x in s.tracked ==> x in s.heap && s.heap[x].activated
    ensures x in r.settled && x in s.heap && r.settled[x].frame == s.heap[x].frame
    ensures x in r.confirmed.lost <==> x in s.tracked
  {
    hide Clean, SortedBy, HoldsApart;
    assert x in s.tracked || x in s.lost;
    assert x in Everyone(s, r);
    NobodyHolds(s, r, cfg, count, x);
    assert x in s.tracked ==> WasTracked(s.heap[x], r.settled[x], s.frame + 1, x in r.confirmed.lost);
    assert x in s.lost ==> WasLost(s.heap[x], r.settled[x], s.frame + 1, cfg.maxLost);
  }

  lemma NobodyGone(s: Tracker, r: FrameRun, cfg: Config, count: int)
    requires Known(s.heap, s.tracked) && Known(s.heap, s.lost) && Phases(s, r, cfg, count)
    requires AllConfirmed(s)
    ensures r.tentative.gone == []
  {
    hide SortedBy, ConfirmedOutcome, BirthsOutcome;
    assert forall x :: x in r.tentative.gone ==> x in r.unconfirmed;
    Empty(r.tentative.gone);
  }

  lemma OverdueWereLost(s: Tracker, r: FrameRun, cfg: Config, count: int)
    requires Known(s.heap, s.tracked) && Known(s.heap, s.lost) && Settled(s, r, cfg, count, 0)
    ensures forall x :: x in r.overdue ==>
      x in s.lost && x in r.settled && s.frame + 1 - r.settled[x].frame > cfg.maxLost
  {
    hide Clean, SortedBy, WasTracked, WasLost;
  }

  /** The first `n` ids are all tracked, or all lost, since frame 1; nothing has been removed yet. */
  ghost predicate Held(s: Tracker, n: nat, quiet: nat) {
    && s.frame == quiet + 1 && s.removed == []
    && (if quiet == 0 then s.lost == [] else s.tracked == [])
    && (forall x :: x in s.tracked || x in s.lost ==> x in s.heap && s.heap[x].activated && s.heap[x].frame == 1)
    && (forall x :: 1 <= x <= n ==> x in s.tracked || x in s.lost)
  }

  lemma CrowdBorn(cfg: Config, n: nat, r: FrameRun)
    requires ConfigOk(cfg) && RanAs(Fresh(), Crowd(cfg, n), cfg, 0, r)
    ensures r.births.count >= n
  {
    CrowdStrong(cfg, n);
    hide High, Low, MatchRound, Spawn, ConfigOk, Crowd, AtLeast, LinearAssignment, PredictAll, MarkAll, Filter, Joint;
    var fr := Crowd(cfg, n);
    AllHigh(fr, cfg, n);
    Empty(r.pool);
    Empty(r.unconfirmed);
    NobodyMatched(r.predicted, fr, r.high, cfg.matchThresh, 1, cfg, false);
    NobodyMatched(r.confirmed.heap, fr, r.confirmed.left, UNCONFIRMED_THRESH, 1, cfg, true);
    AllSpawn(r.tentative.heap, fr, r.tentative.spare, 1, cfg, 0);
  }

  lemma CrowdStrong(cfg: Config, n: nat)
    ensures AtLeast(Crowd(cfg, n), cfg.trackThresh + 0.1)
  {}

  /** In its first frame a crowd is tracked, all of it. */
  lemma CrowdAppears(cfg: Config, n: nat)
    requires ConfigOk(cfg)
    ensures Held(Run(cfg, CrowdThenNothing(cfg, n, 0)).0, n, 0)
  {
    hide Run, ConfigOk, Ran, Settled, Step, Crowd, Inv, RanAs, Held;
    var s, fr, inputs := Fresh(), Crowd(cfg, n), CrowdThenNothing(cfg, n, 0);
    assert inputs == [Input(fr, 0)] && inputs[..0] == [];
    RunAdvances(cfg, inputs);
    RunStarts(cfg, n);
    var r := Ran(s, fr, cfg, 0);
    RanEquations(s, fr, cfg, 0);
    FrameSettles(s, fr, cfg, n, 0);
    StepParts(s, fr, cfg, 0);
    CrowdBorn(cfg, n, r);
    FramePhases(s, fr, cfg, n, 0);
    CrowdHeld(cfg, n, r);
  }

  lemma CrowdHeld(cfg: Config, n: nat, r: FrameRun)
    requires Inv(Fresh(), n, 0) && Settled(Fresh(), r, cfg, 0, n) && Phases(Fresh(), r, cfg, 0) && r.births.count >= n
    requires Known(r.settled, r.activated) && Known(r.settled, r.confirmed.refind) && Known(r.settled, r.confirmed.lost)
    ensures Held(Merge(Fresh(), r.settled, 1, r.activated, r.confirmed.refind, r.confirmed.lost,
                       r.tentative.gone + r.overdue), n, 0)
  {
    hide Inv, Settled, Phases, InState, Sub, WithoutDuplicates;
    var s, h := Fresh(), r.settled;
    CrowdSettled(n, cfg, r);
    NobodyGone(s, r, cfg, 0);
    var tracked := Joint(Joint(InState(h, s.tracked, Tracked), r.activated), r.confirmed.refind);
    var lost := Sub(Sub(s.lost, tracked) + r.confirmed.lost, s.removed);
    Empty(lost);
    Empty(WithoutDuplicates(h, tracked, lost).1);
  }

  lemma CrowdSettled(n: nat, cfg: Config, r: FrameRun)
    requires Inv(Fresh(), n, 0) && Settled(Fresh(), r, cfg, 0, n) && Phases(Fresh(), r, cfg, 0) && r.births.count >= n
    ensures forall x :: 1 <= x <= n ==> x in r.activated
    ensures forall x :: x in r.activated ==> x in r.settled && r.settled[x].activated && r.settled[x].frame == 1
    ensures r.confirmed.lost == [] && r.confirmed.refind == [] && r.overdue == []
  {
    hide Inv, Clean, SortedBy, WasTracked, WasLost, Phases;
    Empty(r.confirmed.lost);
    Empty(r.confirmed.refind);
    Empty(r.overdue);
  }

  lemma QuietInputs(cfg: Config, n: nat, quiet: nat)
    requires quiet > 0
    ensures var inputs := CrowdThenNothing(cfg, n, quiet);
      && inputs[..|inputs| - 1] == CrowdThenNothing(cfg, n, quiet - 1) && inputs[|inputs| - 1] == Input(Nothing(), 0)
  {}

  lemma QuietAdvance(cfg: Config, n: nat, quiet: nat)
    requires ConfigOk(cfg) && quiet > 0
    ensures var (s, count) := Run(cfg, CrowdThenNothing(cfg, n, quiet - 1));
      Known(s.heap, s.tracked) && Known(s.heap, s.lost)
        && Run(cfg, CrowdThenNothing(cfg, n, quiet)).0 == Step(s, Nothing(), cfg, count).0
  {
    hide Run, Step, ConfigOk, CrowdThenNothing, Known;
    QuietInputs(cfg, n, quiet);
    RunAdvances(cfg, CrowdThenNothing(cfg, n, quiet));
  }

  /** The last of the quiet frames after a crowd. */
  lemma LastQuiet(cfg: Config, n: nat, quiet: nat)
    requires ConfigOk(cfg) && quiet > 0
    requires AllConfirmed(Run(cfg, CrowdThenNothing(cfg, n, quiet - 1)).0)
    ensures Quietly(Run(cfg, CrowdThenNothing(cfg, n, quiet - 1)).0, Run(cfg, CrowdThenNothing(cfg, n, quiet)).0, cfg)
  {
    hide Run, Step, ConfigOk, Inv, CrowdThenNothing, Quietly, AllConfirmed, Known;
    QuietAdvance(cfg, n, quiet);
    RunKeepsInv(cfg, CrowdThenNothing(cfg, n, quiet - 1), n);
    var (s, count) := Run(cfg, CrowdThenNothing(cfg, n, quiet - 1));
    QuietFrame(s, cfg, n, count);
  }

  /** Until its grace is over nothing of a crowd is removed. */
  lemma {:induction false} CrowdStays(cfg: Config, n: nat, quiet: nat)
    requires ConfigOk(cfg) && quiet <= Grace(cfg)
    ensures Held(Run(cfg, CrowdThenNothing(cfg, n, quiet)).0, n, quiet)
  {
    hide Run, Step, ConfigOk, Inv, Held, Quietly, AllConfirmed, CrowdThenNothing;
    if quiet == 0 {
      CrowdAppears(cfg, n);
    } else {
      CrowdStays(cfg, n, quiet - 1);
      var s := Run(cfg, CrowdThenNothing(cfg, n, quiet - 1)).0;
      HeldActivated(s, n, quiet - 1);
      LastQuiet(cfg, n, quiet);
      OneMoreQuiet(s, Run(cfg, CrowdThenNothing(cfg, n, quiet)).0, cfg, n, quiet);
    }
  }

  lemma OneMoreQuiet(s: Tracker, t: Tracker, cfg: Config, n: nat, quiet: nat)
    requires Quietly(s, t, cfg) && 1 <= quiet <= Grace(cfg) && Held(s, n, quiet - 1)
    ensures Held(t, n, quiet)
  {}

  lemma HeldActivated(s: Tracker, n: nat, quiet: nat)
    requires Held(s, n, quiet)
    ensures AllConfirmed(s)
  {}

  /** Beyond 1000 detections a frame the ages fail, whatever the configuration: of more than 1000
      tracks overdue in one frame, the removed list forgets some, and they stay on the lost list. */
  lemma LargerFramesFail(cfg: Config, n: nat)
    requires ConfigOk(cfg) && n > REMOVED_KEPT
    ensures !AgesBounded(Run(cfg, CrowdThenNothing(cfg, n, Grace(cfg) + 2)).0, cfg)
  {
    hide Run, ConfigOk, CrowdThenNothing, Held, Quietly, AgesBounded, AllConfirmed;
    var g := Grace(cfg);
    var s := Run(cfg, CrowdThenNothing(cfg, n, g)).0;
    var t := Run(cfg, CrowdThenNothing(cfg, n, g + 1)).0;
    CrowdStays(cfg, n, g);
    HeldActivated(s, n, g);
    LastQuiet(cfg, n, g + 1);
    QuietTracksNone(s, t, cfg);
    LastQuiet(cfg, n, g + 2);
    SomeoneOutstays(s, t, Run(cfg, CrowdThenNothing(cfg, n, g + 2)).0, cfg, n);
  }

  lemma QuietTracksNone(s: Tracker, t: Tracker, cfg: Config)
    requires Quietly(s, t, cfg)
    ensures AllConfirmed(t)
  {}

  lemma SomeoneOutstays(s: Tracker, t: Tracker, u: Tracker, cfg: Config, n: nat)
    requires Held(s, n, Grace(cfg)) && Quietly(s, t, cfg) && Quietly(t, u, cfg) && n > REMOVED_KEPT
    ensures !AgesBounded(u, cfg)
  {
    var x := Forgotten(t.removed, n);
    assert x in t.lost;
    assert x in u.lost && x in u.heap && u.heap[x].frame == 1;
  }

  /** Some of the first `n` ids is not on a shorter list. */
  lemma Forgotten(removed: seq<int>, n: nat) returns (x: int)
    requires |removed| < n
    ensures 1 <= x <= n && x !in removed
  {
    if forall x :: 1 <= x <= n ==> x in removed {
      SubsetSize(UpTo(n + 1), Elements([0] + removed));
      assert false;
    }
    x :| 1 <= x <= n && x !in removed;
  }

  /** The ages of lost tracks are bounded in all runs if and only if no frame can have more
      detections than the removed list holds. */
  lemma AgesBoundedIff(cfg: Config, limit: nat)
    requires ConfigOk(cfg)
    ensures (forall inputs :: ValidInputs(inputs, limit) ==> AgesBounded(Run(cfg, inputs).0, cfg)) <==>
      limit <= REMOVED_KEPT
  {
    hide Run, ConfigOk, AgesBounded, Timely;
    if limit <= REMOVED_KEPT {
      forall inputs | ValidInputs(inputs, limit) ensures AgesBounded(Run(cfg, inputs).0, cfg) {
        RunKeepsAges(cfg, inputs, limit);
        TimelyAges(Run(cfg, inputs).0, cfg);
      }
    } else {
      LargerFramesFail(cfg, limit);
    }
  }
}
