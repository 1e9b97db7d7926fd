/** What a track says about itself is what its detection said: class and score follow the match. */
module TrackerLabels {
  import opened TrackerModel
  import opened TrackerInvariant
  import opened TrackerRuns
  import opened TrackerFates
  import K = Kalman

  /** No track is from the future, and those matched in frame `f` carry their detection's labels. */
  ghost predicate Carries(h: Heap, fr: Frame, f: int) {
    forall x :: x in h ==> CarriesOwn(h[x], fr, f)
  }

  ghost predicate CarriesOwn(t: Track, fr: Frame, f: int) {
    && t.frame <= f
    && (t.frame == f ==>
          0 <= t.det < |fr.boxes| == |fr.scores| == |fr.classes|
          && t.score == fr.scores[t.det] && t.cls == fr.classes[t.det])
  }

  ghost predicate Past(h: Heap, f: int) {
    forall x :: x in h ==> h[x].frame <= f
  }

  lemma CarriesPast(h: Heap, fr: Frame, f: int)
    requires Carries(h, fr, f)
    ensures Past(h, f)
  {}

  lemma FatesCarry(s: Tracker, fr: Frame, cfg: Config, count: int, after: int, g: Heap)
    requires ConfigOk(cfg) && Aligned(fr) && Past(s.heap, s.frame) && FatesOf(s, fr, cfg, count, after, g)
    ensures Carries(g, fr, s.frame + 1)
  {
    hide K.Update, K.Initiate, K.Predict, K.FreezeHeightVelocity, Xyah, ConfigOk;
    forall x | x in g ensures CarriesOwn(g[x], fr, s.frame + 1) {
      assert x in s.tracked || x in s.lost ==> FateOf(s, fr, cfg, g, x);
    }
  }

  /** After any run, every track matched in the last frame carries the class and the score of the
      detection it holds there, and no track claims a later frame. */
  lemma {:induction false} LabelsFollowDetections(cfg: Config, inputs: seq<Input>)
    requires ConfigOk(cfg) && forall k :: 0 <= k < |inputs| ==> Aligned(inputs[k].frame)
    ensures Past(Run(cfg, inputs).0.heap, |inputs|) && Run(cfg, inputs).0.frame == |inputs|
    ensures inputs != [] ==> Carries(Run(cfg, inputs).0.heap, inputs[|inputs| - 1].frame, |inputs|)
  {
    hide Run, Step, ConfigOk, Carries, Past, Inv, FatesOf;
    if inputs == [] {
      RunStarts(cfg, 0);
      NothingPast();
    } else {
      RunAdvances(cfg, inputs);
      LabelsFollowDetections(cfg, inputs[..|inputs| - 1]);
      var before, last := Run(cfg, inputs[..|inputs| - 1]), inputs[|inputs| - 1];
      var limit := SomeLimit(inputs[..|inputs| - 1]);
      RunKeepsInv(cfg, inputs[..|inputs| - 1], limit);
      InvWithMoreIds(before.0, limit, before.1, before.1 + last.others);
      TracksAfter(before.0, last.frame, cfg, limit, before.1 + last.others);
      var (t, after) := Step(before.0, last.frame, cfg, before.1 + last.others);
      FatesCarry(before.0, last.frame, cfg, before.1 + last.others, after, t.heap);
      StepFrame(before.0, last.frame, cfg, before.1 + last.others);
      CarriesPast(Run(cfg, inputs).0.heap, last.frame, |inputs|);
    }
  }

  lemma NothingPast()
    ensures Past(Fresh().heap, 0)
  {}

  lemma StepFrame(s: Tracker, fr: Frame, cfg: Config, count: int)
    requires ConfigOk(cfg) && Aligned(fr) && Known(s.heap, s.tracked) && Known(s.heap, s.lost)
    ensures Step(s, fr, cfg, count).0.frame == s.frame + 1
  {
    hide Ran, Merge, ConfigOk;
    StepParts(s, fr, cfg, count);
  }
}
