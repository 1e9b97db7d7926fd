/** Whole runs of one stream's tracker: the invariant, ids, duplicates. */
module TrackerRuns {
  import opened TrackLists
  import opened Geometry
  import opened TrackerModel
  import opened TrackerPhases
  import opened TrackerInvariant

  // ---- runs -----------------------------------------------------------------

  /** A frame for this stream; `others` counts the ids other streams took from the shared
      counter since this stream's last frame. */
  datatype Input = Input(frame: Frame, others: nat)

  ghost predicate ValidInputs(inputs: seq<Input>, limit: nat) {
    forall k :: 0 <= k < |inputs| ==> Aligned(inputs[k].frame) && |inputs[k].frame.scores| <= limit
  }

  /** The frames of a run have a largest one. */
  lemma {:induction false} SomeLimit(inputs: seq<Input>) returns (limit: nat)
    requires forall k :: 0 <= k < |inputs| ==> Aligned(inputs[k].frame)
    ensures ValidInputs(inputs, limit)
  {
    if inputs == [] {
      limit := 0;
    } else {
      var l := SomeLimit(inputs[..|inputs| - 1]);
      var n := |inputs[|inputs| - 1].frame.scores|;
      limit := if l < n then n else l;
      forall k | 0 <= k < |inputs| ensures Aligned(inputs[k].frame) && |inputs[k].frame.scores| <= limit {
        assert k < |inputs| - 1 ==> inputs[..|inputs| - 1][k] == inputs[k];
      }
    }
  }

  function Fresh(): Tracker {
    Tracker(map[], [], [], [], 0)
  }

  /** The tracker and the shared id counter after a whole run. */
  function Run(cfg: Config, inputs: seq<Input>): (r: (Tracker, int))
    requires ConfigOk(cfg) && forall k :: 0 <= k < |inputs| ==> Aligned(inputs[k].frame)
    ensures Known(r.0.heap, r.0.tracked) && Known(r.0.heap, r.0.lost)
  {
    if inputs == [] then (Fresh(), 0)
    else
      var before := Run(cfg, inputs[..|inputs| - 1]);
      var last := inputs[|inputs| - 1];
      Advance(cfg, before, last)
  }

  /** One more frame of a run. */
  function Advance(cfg: Config, before: (Tracker, int), last: Input): (r: (Tracker, int))
    requires ConfigOk(cfg) && Aligned(last.frame) && Known(before.0.heap, before.0.tracked)
    requires Known(before.0.heap, before.0.lost)
    ensures Known(r.0.heap, r.0.tracked) && Known(r.0.heap, r.0.lost)
  {
    Step(before.0, last.frame, cfg, before.1 + last.others)
  }

  lemma InvWithMoreIds(s: Tracker, limit: nat, count: int, more: int)
    requires Inv(s, limit, count) && count <= more
    ensures Inv(s, limit, more)
  {
    hide HoldsApart, SortedBy, LostOk, TrackedOk;
  }

  lemma RunStarts(cfg: Config, limit: nat)
    requires ConfigOk(cfg)
    ensures Run(cfg, []) == (Fresh(), 0) && Inv(Fresh(), limit, 0)
  {
    hide ConfigOk;
  }

  lemma RunAdvances(cfg: Config, inputs: seq<Input>)
    requires ConfigOk(cfg) && inputs != [] && forall k :: 0 <= k < |inputs| ==> Aligned(inputs[k].frame)
    ensures var before, last := Run(cfg, inputs[..|inputs| - 1]), inputs[|inputs| - 1];
      Run(cfg, inputs) == Advance(cfg, before, last)
  {
    hide Advance, ConfigOk, Known, Aligned;
  }

  /** The invariant holds after every frame of every run; `limit` bounds the detections of its frames. */
  lemma {:induction false} RunKeepsInv(cfg: Config, inputs: seq<Input>, limit: nat)
    requires ConfigOk(cfg) && ValidInputs(inputs, limit)
    ensures Inv(Run(cfg, inputs).0, limit, Run(cfg, inputs).1)
    ensures Run(cfg, inputs).0.frame == |inputs|
  {
    hide Run, Inv, Step, ConfigOk;
    if inputs == [] {
      RunStarts(cfg, limit);
    } else {
      RunAdvances(cfg, inputs);
      var before, last := Run(cfg, inputs[..|inputs| - 1]), inputs[|inputs| - 1];
      RunKeepsInv(cfg, inputs[..|inputs| - 1], limit);
      InvWithMoreIds(before.0, limit, before.1, before.1 + last.others);
      StepKeepsInv(before.0, last.frame, cfg, limit, before.1 + last.others);
    }
  }

  // ---- ids are never reused -------------------------------------------------

  lemma StepOnlyAddsIds(s: Tracker, fr: Frame, cfg: Config, limit: nat, count: int)
    requires ConfigOk(cfg) && Aligned(fr) && Inv(s, limit, count)
    ensures var t := Step(s, fr, cfg, count);
      && (forall x :: x in s.heap ==> x in t.0.heap)
      && (forall x :: x in t.0.heap && x !in s.heap ==> count < x <= t.1)
      && (forall x :: x in t.0.tracked || x in t.0.lost ==> x in t.0.heap)
      && t.1 >= count
  {
    hide Inv, ConfigOk, Clean, SortedBy, HoldsApart, ConfirmedOutcome, TentativeOutcome, Ran;
    InvKnown(s, limit, count);
    var r := Ran(s, fr, cfg, count);
    FramePhases(s, fr, cfg, limit, count);
    PhasesAddIds(s, r, cfg, count);
  }

  lemma InvKnown(s: Tracker, limit: nat, count: int)
    requires Inv(s, limit, count)
    ensures Known(s.heap, s.tracked) && Known(s.heap, s.lost) && forall x :: x in s.heap ==> 1 <= x <= count
  {}

  lemma PhasesAddIds(s: Tracker, r: FrameRun, cfg: Config, count: int)
    requires Known(s.heap, s.tracked) && Known(s.heap, s.lost) && Phases(s, r, cfg, count)
    ensures forall x :: x in s.heap ==> x in r.settled
    ensures forall x :: x in r.settled && x !in s.heap ==> count < x <= r.births.count
    ensures r.births.count >= count
  {
    hide SortedBy;
  }

  /** An id that first appears in a later frame is larger than every id any earlier state of
      the run ever knew, lost and forgotten ones included. */
  lemma {:induction false} IdsNeverReused(cfg: Config, inputs: seq<Input>, earlier: nat, limit: nat)
    requires ConfigOk(cfg) && ValidInputs(inputs, limit) && earlier <= |inputs|
    ensures var was, now := Run(cfg, inputs[..earlier]), Run(cfg, inputs);
      && was.1 <= now.1
      && (forall x :: x in was.0.heap ==> 1 <= x <= was.1 && x in now.0.heap)
      && (forall x :: x in now.0.heap && x !in was.0.heap ==> was.1 < x <= now.1)
    decreases |inputs|
  {
    hide Run, Step, Inv, ConfigOk;
    if earlier == |inputs| {
      assert inputs[..earlier] == inputs;
      RunKeepsInv(cfg, inputs, limit);
      InvKnown(Run(cfg, inputs).0, limit, Run(cfg, inputs).1);
    } else {
      var init, last := inputs[..|inputs| - 1], inputs[|inputs| - 1];
      assert init[..earlier] == inputs[..earlier];
      IdsNeverReused(cfg, init, earlier, limit);
      RunKeepsInv(cfg, init, limit);
      RunAdvances(cfg, inputs);
      var before := Run(cfg, init);
      InvWithMoreIds(before.0, limit, before.1, before.1 + last.others);
      StepOnlyAddsIds(before.0, last.frame, cfg, limit, before.1 + last.others);
    }
  }

  // ---- what a frame answers -------------------------------------------------

  /** Worth reporting: seen before this frame, or there from the first frame on. */
  predicate Established(s: Tracker, x: int) {
    x in s.heap && (s.frame == 1 || s.heap[x].start < s.frame)
  }

  function IsEstablished(s: Tracker): int -> bool { x => Established(s, x) }

  lemma {:induction false} SameFilter(s: seq<int>, p: int -> bool, q: int -> bool)
    requires forall x :: x in s ==> p(x) == q(x)
    ensures Filter(s, p) == Filter(s, q)
  {
    if s != [] {
      assert s[|s| - 1] in s;
      SameFilter(s[..|s| - 1], p, q);
    }
  }

  lemma OnlineIsEstablished(s: Tracker, limit: nat, count: int) returns (idx: seq<nat>)
    requires Inv(s, limit, count)
    ensures Picks(Online(s), s.tracked, IsEstablished(s), idx) && Distinct(Online(s))
  {
    forall x | x in s.tracked ensures HasActivation(s.heap, true)(x) == IsEstablished(s)(x) {
      assert TrackedOk(s.heap[x], s.frame);
    }
    hide HoldsApart, SortedBy, LostOk, TrackedOk, Picks;
    SameFilter(s.tracked, HasActivation(s.heap, true), IsEstablished(s));
    idx := FilterPicks(s.tracked, IsEstablished(s));
  }

  /** A frame returns exactly the tracked tracks born before it, in the first frame all of them: each
      once, in the order of the tracked list. */
  lemma FrameReturns(s: Tracker, fr: Frame, cfg: Config, limit: nat, count: int) returns (idx: seq<nat>)
    requires ConfigOk(cfg) && Aligned(fr) && Inv(s, limit, count) && |fr.scores| <= limit
    ensures var t := Step(s, fr, cfg, count).0;
      && Picks(Online(t), t.tracked, x => x in t.heap && (t.frame == 1 || t.heap[x].start < t.frame), idx)
      && Distinct(Online(t))
  {
    hide Step, ConfigOk, Inv, Picks, Online;
    InvKnown(s, limit, count);
    StepKeepsInv(s, fr, cfg, limit, count);
    var (t, after) := Step(s, fr, cfg, count);
    idx := OnlineIsEstablished(t, limit, after);
    PicksSame(Online(t), t.tracked, IsEstablished(t),
              x => x in t.heap && (t.frame == 1 || t.heap[x].start < t.frame), idx);
  }

  lemma PicksSame(r: seq<int>, s: seq<int>, p: int -> bool, q: int -> bool, idx: seq<nat>)
    requires Picks(r, s, p, idx) && forall x :: p(x) == q(x)
    ensures Picks(r, s, q, idx)
  {
    forall i: nat | i < |s| ensures q(s[i]) <==> i in idx {
      var x := s[i];
      assert p(x) == q(x);
    }
  }

  /** So the answer to the last frame of any run. */
  lemma RunReturns(cfg: Config, inputs: seq<Input>) returns (idx: seq<nat>)
    requires ConfigOk(cfg) && forall k :: 0 <= k < |inputs| ==> Aligned(inputs[k].frame)
    ensures var t, n := Run(cfg, inputs).0, |inputs|;
      && Picks(Online(t), t.tracked, x => x in t.heap && (n == 1 || t.heap[x].start < n), idx)
      && Distinct(Online(t))
  {
    hide Run, ConfigOk, Inv, Picks, Online;
    var limit := SomeLimit(inputs);
    RunKeepsInv(cfg, inputs, limit);
    var (t, count) := Run(cfg, inputs);
    idx := OnlineIsEstablished(t, limit, count);
    PicksSame(Online(t), t.tracked, IsEstablished(t), x => x in t.heap && (|inputs| == 1 || t.heap[x].start < |inputs|),
              idx);
  }

  // ---- duplicates -----------------------------------------------------------

  /** The boxes of two tracks overlap by more than 0.85. */
  ghost predicate NearlyCoincide(h: Heap, p: int, q: int) {
    p in h && q in h && Iou(TrackBox(h[p]), TrackBox(h[q])) > 0.85
  }

  /** Track `p` has been followed for longer than track `q`. */
  ghost predicate Older(h: Heap, p: int, q: int) {
    p in h && q in h && h[p].frame - h[p].start > h[q].frame - h[q].start
  }

  /** Dropping duplicates leaves no tracked track nearly coinciding with a lost one. A track goes exactly
      if it nearly coincides with one of the other kind that outlasts it: a lost one not younger, or a
      tracked one older. */
  lemma NoDuplicatesLeft(h: Heap, tracked: seq<int>, lost: seq<int>)
    requires Known(h, tracked) && Known(h, lost)
    ensures var (a, b) := WithoutDuplicates(h, tracked, lost);
      && (forall p, q :: p in a && q in b ==> !NearlyCoincide(h, p, q))
      && (forall p :: p in a <==>
            p in tracked && !exists q :: q in lost && NearlyCoincide(h, p, q) && !Older(h, p, q))
      && (forall q :: q in b <==>
            q in lost && !exists p :: p in tracked && NearlyCoincide(h, p, q) && Older(h, p, q))
  {
    hide Iou, TrackBox;
    var (a, b) := WithoutDuplicates(h, tracked, lost);
    forall p | p in tracked
      ensures p in a <==> !exists q :: q in lost && NearlyCoincide(h, p, q) && !Older(h, p, q)
    {
      if p !in a {
        var q :| q in lost && Close(h, p, q) && Age(h, p) <= Age(h, q);
        assert NearlyCoincide(h, p, q) && !Older(h, p, q);
      }
      assert forall q :: q in lost && NearlyCoincide(h, p, q) && !Older(h, p, q) ==>
        Close(h, p, q) && Age(h, p) <= Age(h, q);
    }
    forall q | q in lost
      ensures q in b <==> !exists p :: p in tracked && NearlyCoincide(h, p, q) && Older(h, p, q)
    {
      if q !in b {
        var p :| p in tracked && Close(h, p, q) && Age(h, p) > Age(h, q);
        assert NearlyCoincide(h, p, q) && Older(h, p, q);
      }
      assert forall p :: p in tracked && NearlyCoincide(h, p, q) && Older(h, p, q) ==>
        Close(h, p, q) && Age(h, p) > Age(h, q);
    }
  }

  /** So after every frame, from any state, no tracked track nearly coincides with a lost one. */
  lemma FrameLeavesNoDuplicates(s: Tracker, fr: Frame, cfg: Config, count: int)
    requires ConfigOk(cfg) && Aligned(fr) && Known(s.heap, s.tracked) && Known(s.heap, s.lost)
    ensures var t := Step(s, fr, cfg, count).0;
      forall p, q :: p in t.tracked && q in t.lost ==> !NearlyCoincide(t.heap, p, q)
  {
    hide Ran, NearlyCoincide, Older, WithoutDuplicates, InState, Joint, Sub, ConfigOk;
    StepParts(s, fr, cfg, count);
    hide Step;
    var r := Ran(s, fr, cfg, count);
    var h := r.settled;
    var tracked := Joint(Joint(InState(h, s.tracked, Tracked), r.activated), r.confirmed.refind);
    NoDuplicatesLeft(h, tracked, Sub(Sub(s.lost, tracked) + r.confirmed.lost, s.removed));
  }
}
