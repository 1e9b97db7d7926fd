/** Many streams, one tracker each, one id counter for all of them. */
module TrackerEngine {
  import opened Geometry
  import opened TrackLists
  import opened TrackerModel
  import opened TrackerInvariant
  import opened TrackerRuns
  import opened TrackAdapter

  /** The trackers created so far, by stream, and the shared id counter. */
  datatype Engine = Engine(trackers: map<string, Tracker>, count: int)

  datatype Event = Event(stream: string, frame: Frame)

  ghost predicate EngineOk(e: Engine) {
    forall s :: s in e.trackers ==>
      Known(e.trackers[s].heap, e.trackers[s].tracked) && Known(e.trackers[s].heap, e.trackers[s].lost)
  }

  /** `_tracker`: the stream's tracker, a new one the first time. */
  function TrackerOf(e: Engine, stream: string): (s: Tracker)
    requires EngineOk(e)
    ensures Known(s.heap, s.tracked) && Known(s.heap, s.lost)
  {
    if stream in e.trackers then e.trackers[stream] else Fresh()
  }

  /** The engine once a stream's tracker has moved on. */
  function Seated(e: Engine, stream: string, r: (Tracker, int)): (f: Engine)
    requires EngineOk(e) && Known(r.0.heap, r.0.tracked) && Known(r.0.heap, r.0.lost)
    ensures EngineOk(f)
  {
    Engine(e.trackers[stream := r.0], r.1)
  }

  function EngineStep(cfg: Config, e: Engine, ev: Event): (r: Engine)
    requires ConfigOk(cfg) && Aligned(ev.frame) && EngineOk(e)
    ensures EngineOk(r)
  {
    Seated(e, ev.stream, Step(TrackerOf(e, ev.stream), ev.frame, cfg, e.count))
  }

  ghost predicate ValidEvents(events: seq<Event>, limit: nat) {
    forall k :: 0 <= k < |events| ==> Aligned(events[k].frame) && |events[k].frame.scores| <= limit
  }

  function EngineRun(cfg: Config, events: seq<Event>): (e: Engine)
    requires ConfigOk(cfg) && forall k :: 0 <= k < |events| ==> Aligned(events[k].frame)
    ensures EngineOk(e)
  {
    if events == [] then Engine(map[], 0)
    else EngineStep(cfg, EngineRun(cfg, events[..|events| - 1]), events[|events| - 1])
  }

  // ---- one stream among many ------------------------------------------------

  lemma {:induction false} SpawnOnlyCounts(h: Heap, fr: Frame, dets: seq<nat>, f: int, cfg: Config, count: int)
    requires InFrame(fr, dets)
    ensures Spawn(h, fr, dets, f, cfg, count).count >= count
  {
    if dets != [] {
      SpawnOnlyCounts(h, fr, dets[..|dets| - 1], f, cfg, count);
    }
  }

  lemma BirthsOnlyCount(s: Tracker, fr: Frame, cfg: Config, count: int)
    requires ConfigOk(cfg) && Aligned(fr) && Known(s.heap, s.tracked) && Known(s.heap, s.lost)
    ensures Ran(s, fr, cfg, count).births.count >= count
  {
    hide Ran, ConfigOk, Filter, Joint, PredictAll, MatchConfirmed, MatchTentative, Spawn, MarkAll, High, Low;
    RanEquations(s, fr, cfg, count);
    var r := Ran(s, fr, cfg, count);
    SpawnOnlyCounts(r.tentative.heap, fr, r.tentative.spare, s.frame + 1, cfg, count);
  }

  lemma StepOnlyCounts(s: Tracker, fr: Frame, cfg: Config, count: int)
    requires ConfigOk(cfg) && Aligned(fr) && Known(s.heap, s.tracked) && Known(s.heap, s.lost)
    ensures Step(s, fr, cfg, count).1 >= count
  {
    hide Ran, Merge, Step, ConfigOk;
    StepParts(s, fr, cfg, count);
    var r := Ran(s, fr, cfg, count);
    BirthsOnlyCount(s, fr, cfg, count);
  }

  /** The frames of one stream, in order, each with the number of ids other streams took meanwhile;
      and the number they took since the last of them. */
  ghost function Own(cfg: Config, events: seq<Event>, stream: string): (r: (seq<Input>, nat))
    requires ConfigOk(cfg) && forall k :: 0 <= k < |events| ==> Aligned(events[k].frame)
    ensures forall k :: 0 <= k < |r.0| ==> Aligned(r.0[k].frame)
  {
    if events == [] then ([], 0)
    else
      var init, last := events[..|events| - 1], events[|events| - 1];
      var (mine, others) := Own(cfg, init, stream);
      if last.stream == stream then (mine + [Input(last.frame, others)], 0)
      else
        var before := EngineRun(cfg, init);
        StepOnlyCounts(TrackerOf(before, last.stream), last.frame, cfg, before.count);
        (mine, others + (EngineStep(cfg, before, last).count - before.count))
  }

  lemma OwnAdvances(cfg: Config, mine: seq<Input>, last: Input)
    requires ConfigOk(cfg) && Aligned(last.frame) && forall k :: 0 <= k < |mine| ==> Aligned(mine[k].frame)
    ensures Run(cfg, mine + [last]) == Advance(cfg, Run(cfg, mine), last)
  {
    hide Advance, ConfigOk, Known, Aligned;
    assert (mine + [last])[..|mine|] == mine;
  }

  /** Whatever the interleaving with other streams, a stream's tracker is the one its own frames
      alone would have produced; the others only take ids from the shared counter. */
  lemma {:induction false} StreamIsolated(cfg: Config, events: seq<Event>, stream: string)
    requires ConfigOk(cfg) && forall k :: 0 <= k < |events| ==> Aligned(events[k].frame)
    ensures var own := Own(cfg, events, stream);
      && TrackerOf(EngineRun(cfg, events), stream) == Run(cfg, own.0).0
      && EngineRun(cfg, events).count == Run(cfg, own.0).1 + own.1
  {
    hide Step, ConfigOk, Run;
    if events == [] {
      RunStarts(cfg, 0);
    } else {
      var init, last := events[..|events| - 1], events[|events| - 1];
      StreamIsolated(cfg, init, stream);
      var own := Own(cfg, init, stream);
      if last.stream == stream {
        OwnAdvances(cfg, own.0, Input(last.frame, own.1));
      }
    }
  }

  lemma {:induction false} OwnFrames(cfg: Config, events: seq<Event>, stream: string, limit: nat)
    requires ConfigOk(cfg) && ValidEvents(events, limit)
    ensures ValidInputs(Own(cfg, events, stream).0, limit)
  {
    hide EngineStep, EngineRun, ConfigOk;
    if events != [] {
      OwnFrames(cfg, events[..|events| - 1], stream, limit);
    }
  }

  /** So every stream of a busy engine keeps the tracker's invariant. */
  lemma EveryStreamKeepsInv(cfg: Config, events: seq<Event>, stream: string, limit: nat)
    requires ConfigOk(cfg) && ValidEvents(events, limit)
    ensures Inv(TrackerOf(EngineRun(cfg, events), stream), limit, EngineRun(cfg, events).count)
  {
    hide EngineRun, Own, Inv, Run, ConfigOk, TrackerOf;
    OwnFrames(cfg, events, stream, limit);
    StreamIsolated(cfg, events, stream);
    var own := Own(cfg, events, stream);
    RunKeepsInv(cfg, own.0, limit);
    InvWithMoreIds(Run(cfg, own.0).0, limit, Run(cfg, own.0).1, EngineRun(cfg, events).count);
  }

  /** No id ever names tracks of two streams. */
  lemma {:induction false} IdsUniqueAcrossStreams(cfg: Config, events: seq<Event>, limit: nat, a: string, b: string)
    requires ConfigOk(cfg) && ValidEvents(events, limit) && a != b
    ensures var e := EngineRun(cfg, events);
      forall x :: x in TrackerOf(e, a).heap ==> x !in TrackerOf(e, b).heap
    decreases |events|
  {
    hide Step, Inv, ConfigOk;
    if events != [] {
      var init, last := events[..|events| - 1], events[|events| - 1];
      var e := EngineRun(cfg, init);
      IdsUniqueAcrossStreams(cfg, init, limit, a, b);
      EveryStreamKeepsInv(cfg, init, a, limit);
      EveryStreamKeepsInv(cfg, init, b, limit);
      InvKnown(TrackerOf(e, a), limit, e.count);
      InvKnown(TrackerOf(e, b), limit, e.count);
      if last.stream == a || last.stream == b {
        StepOnlyAddsIds(TrackerOf(e, last.stream), last.frame, cfg, limit, e.count);
      }
    }
  }

  // ---- the engine object ----------------------------------------------------

  /** A detection message: its box and labels are input, its track id is filled in. */
  class Detection {
    const box: Box
    const score: real
    const cls: int
    var gTrackId: int

    constructor (box: Box, score: real, cls: int)
      ensures this.box == box && this.score == score && this.cls == cls
    {
      this.box, this.score, this.cls, this.gTrackId := box, score, cls, 0;
    }
  }

  function FrameOf(dets: seq<Detection>): (fr: Frame)
    ensures Aligned(fr) && |fr.boxes| == |dets|
  {
    Frame(seq(|dets|, i requires 0 <= i < |dets| => dets[i].box),
          seq(|dets|, i requires 0 <= i < |dets| => dets[i].cls),
          seq(|dets|, i requires 0 <= i < |dets| => dets[i].score))
  }

  /** The message at `i` occurs again before position `n`. */
  predicate Repeated(dets: seq<Detection>, i: nat, n: nat)
    requires i < n <= |dets|
  {
    exists j :: i < j < n && dets[j] == dets[i]
  }

  class TrackingEngine {
    const cfg: Config
    var trackers: map<string, Tracker>
    var count: int

    constructor (cfg: Config)
      ensures this.cfg == cfg && Value() == Engine(map[], 0)
    {
      this.cfg, trackers, count := cfg, map[], 0;
    }

    function Value(): Engine
      reads this
    {
      Engine(trackers, count)
    }

    method Update(stream: string, dets: seq<Detection>) returns (result: seq<(Detection, int)>)
      requires ConfigOk(cfg) && EngineOk(Value())
      modifies this, dets
      ensures Value() == EngineStep(cfg, old(Value()), Event(stream, FrameOf(dets))) && EngineOk(Value())
      ensures stream in trackers && Known(trackers[stream].heap, Online(trackers[stream]))
      ensures var ids := Scatter(trackers[stream].heap, Online(trackers[stream]), |dets|);
        && |result| == |dets|
        && (forall i :: 0 <= i < |dets| ==> result[i] == (dets[i], ids[i]))
        && (forall i :: 0 <= i < |dets| && !Repeated(dets, i, |dets|) ==> dets[i].gTrackId == ids[i])
    {
      hide ConfigOk, Step, Scatter, Online;
      var fr := FrameOf(dets);
      if stream !in trackers {
        trackers := trackers[stream := Fresh()];
      }
      var (t, n) := Step(trackers[stream], fr, cfg, count);
      trackers, count := trackers[stream := t], n;
      OnlineKnown(t);
      var ids := Scatter(t.heap, Online(t), |dets|);
      result := [];
      for i := 0 to |dets|
        invariant Value() == Engine(trackers, n) && trackers == old(trackers)[stream := t]
        invariant |result| == i && forall j :: 0 <= j < i ==> result[j] == (dets[j], ids[j])
        invariant forall j :: 0 <= j < i && !Repeated(dets, j, i) ==> dets[j].gTrackId == ids[j]
      {
        dets[i].gTrackId := ids[i];
        result := result + [(dets[i], ids[i])];
      }
    }
  }

  lemma OnlineKnown(s: Tracker)
    ensures Known(s.heap, Online(s))
  {}
}
