/** What a frame makes of every track: its fields, and the list it ends up on. */
module TrackerFates {
  import opened Assignment
  import opened Geometry
  import opened TrackLists
  import opened TrackerModel
  import opened TrackerRounds
  import opened TrackerPhases
  import opened TrackerInvariant
  import opened TrackerRuns
  import opened TrackerMatching
  import K = Kalman

  // ---- lists ----------------------------------------------------------------

  /** Listed before the frame or born in it, with an id up to `after`; and matched or born in it. */
  ghost predicate Matched(s: Tracker, h: Heap, count: int, after: int, x: int) {
    (x in s.tracked || x in s.lost || count < x <= after) && x in h && h[x].frame == s.frame + 1
  }

  /** Confirmed or lost before the frame and not matched in it, nor on the removed list by then. */
  ghost predicate Missing(s: Tracker, h: Heap, x: int) {
    && (x in s.lost || (x in s.tracked && x in s.heap && s.heap[x].activated))
    && x in h && h[x].frame != s.frame + 1 && x !in s.removed
  }

  /** A missing track, at least as old, nearly coincides with `x`. */
  ghost predicate LosesToMissing(s: Tracker, h: Heap, x: int) {
    exists q :: Missing(s, h, q) && NearlyCoincide(h, x, q) && !Older(h, x, q)
  }

  /** A matched track, older, nearly coincides with `x`. */
  ghost predicate LosesToMatched(s: Tracker, h: Heap, count: int, after: int, x: int) {
    exists p :: Matched(s, h, count, after, p) && NearlyCoincide(h, p, x) && Older(h, p, x)
  }

  lemma OnTracked(s: Tracker, r: FrameRun, cfg: Config, limit: nat, count: int, n: nat, x: int)
    requires Inv(s, limit, count) && Settled(s, r, cfg, count, n)
    ensures (x in s.tracked && x in r.settled && r.settled[x].state == Tracked)
         || x in r.activated || x in r.confirmed.refind
        <==> Matched(s, r.settled, count, r.births.count, x)
  {
    hide Clean, SortedBy, HoldsApart;
    assert x in s.tracked ==> WasTracked(s.heap[x], r.settled[x], s.frame + 1, x in r.confirmed.lost);
  }

  lemma OnLost(s: Tracker, r: FrameRun, cfg: Config, limit: nat, count: int, n: nat, x: int)
    requires Inv(s, limit, count) && Settled(s, r, cfg, count, n)
    ensures ((x in s.lost && !Matched(s, r.settled, count, r.births.count, x)) || x in r.confirmed.lost)
            && x !in s.removed
        <==> Missing(s, r.settled, x)
  {
    hide Clean, SortedBy, HoldsApart;
    assert x in s.tracked ==> WasTracked(s.heap[x], r.settled[x], s.frame + 1, x in r.confirmed.lost);
  }

  lemma BeforeDuplicates(s: Tracker, r: FrameRun, cfg: Config, limit: nat, count: int, n: nat,
                         tracked: seq<int>, lost: seq<int>)
    requires Inv(s, limit, count) && Settled(s, r, cfg, count, n)
    requires tracked == Joint(Joint(InState(r.settled, s.tracked, Tracked), r.activated), r.confirmed.refind)
    requires lost == Sub(Sub(s.lost, tracked) + r.confirmed.lost, s.removed)
    ensures forall x :: x in tracked <==> Matched(s, r.settled, count, r.births.count, x)
    ensures forall x :: x in lost <==> Missing(s, r.settled, x)
  {
    hide Inv, Settled, Matched, Missing, Joint, Sub, Filter;
    forall x ensures x in tracked <==> Matched(s, r.settled, count, r.births.count, x) {
      OnTracked(s, r, cfg, limit, count, n, x);
    }
    forall x ensures x in lost <==> Missing(s, r.settled, x) {
      OnLost(s, r, cfg, limit, count, n, x);
    }
  }

  lemma Losers(s: Tracker, h: Heap, count: int, after: int, tracked: seq<int>, lost: seq<int>, x: int)
    requires forall y :: y in tracked <==> Matched(s, h, count, after, y)
    requires forall y :: y in lost <==> Missing(s, h, y)
    ensures LosesToMissing(s, h, x) <==> exists q :: q in lost && NearlyCoincide(h, x, q) && !Older(h, x, q)
    ensures LosesToMatched(s, h, count, after, x)
        <==> exists p :: p in tracked && NearlyCoincide(h, p, x) && Older(h, p, x)
  {
    hide Matched, Missing, NearlyCoincide, Older;
  }

  /** The lists after every frame: tracked is every matched track that does not lose to a missing one, lost
      every missing one that does not lose to a matched one. */
  lemma ListsAfter(s: Tracker, fr: Frame, cfg: Config, limit: nat, count: int)
    requires ConfigOk(cfg) && Aligned(fr) && Inv(s, limit, count)
    ensures Known(s.heap, s.tracked) && Known(s.heap, s.lost)
    ensures var (t, after) := Step(s, fr, cfg, count);
      && (forall x :: x in t.tracked <==>
            Matched(s, t.heap, count, after, x) && !LosesToMissing(s, t.heap, x))
      && (forall x :: x in t.lost <==>
            Missing(s, t.heap, x) && !LosesToMatched(s, t.heap, count, after, x))
  {
    InvKnown(s, limit, count);
    FrameSettles(s, fr, cfg, limit, count);
    StepParts(s, fr, cfg, count);
    hide Ran, Inv, Settled, Step, ConfigOk, Matched, Missing, LosesToMissing, LosesToMatched, Joint, Sub, InState;
    hide NearlyCoincide, Older, WithoutDuplicates;
    var r := Ran(s, fr, cfg, count);
    var h, after := r.settled, r.births.count;
    var tracked := Joint(Joint(InState(h, s.tracked, Tracked), r.activated), r.confirmed.refind);
    var lost := Sub(Sub(s.lost, tracked) + r.confirmed.lost, s.removed);
    BeforeDuplicates(s, r, cfg, limit, count, |fr.scores|, tracked, lost);
    NoDuplicatesLeft(h, tracked, lost);
    var t := Step(s, fr, cfg, count).0;
    forall x
      ensures x in t.tracked <==> Matched(s, h, count, after, x) && !LosesToMissing(s, h, x)
      ensures x in t.lost <==> Missing(s, h, x) && !LosesToMatched(s, h, count, after, x)
    {
      Losers(s, h, count, after, tracked, lost, x);
    }
  }

  // ---- fields ---------------------------------------------------------------

  /** A matched track has its label, score and measurement from the detection it holds, keeps its start, and
      counts its frames, from 0 if it was lost; any other one keeps everything but its state. */
  ghost predicate Kept(t: Track, u: Track, fr: Frame, f: int, cfg: Config)
    requires ConfigOk(cfg) && Aligned(fr)
  {
    if u.frame == f then
      && 0 <= u.det < |fr.boxes| && u.activated && u.start == t.start
      && u.score == fr.scores[u.det] && u.cls == fr.classes[u.det]
      && u.kf == K.Update(t.kf, Xyah(fr.boxes[u.det]), cfg.solve)
      && u.len == (if t.state == Tracked then t.len + 1 else 0)
    else u == t.(state := u.state)
  }

  /** A new track: its filter starts from the box of its detection. */
  ghost predicate Newborn(u: Track, fr: Frame, f: int)
    requires Aligned(fr)
  {
    && 0 <= u.det < |fr.boxes| && u.frame == u.start == f && u.state == Tracked && (u.activated <==> f == 1)
    && u.len == 0 && u.score == fr.scores[u.det] && u.cls == fr.classes[u.det]
    && u.kf == K.Initiate(Xyah(fr.boxes[u.det]))
  }

  lemma RematchKeeps(t: Track, fr: Frame, i: nat, f: int, cfg: Config, direct: bool)
    requires ConfigOk(cfg) && Aligned(fr) && i < |fr.boxes| && (direct ==> t.state == Tracked)
    ensures Kept(t, Rematched(t, fr, i, f, cfg, direct), fr, f, cfg)
  {
    hide K.Update, Xyah;
  }

  lemma RoundKeeps(p: Track, h: Heap, ids: seq<int>, fr: Frame, dets: seq<nat>, thresh: real, f: int, cfg: Config,
                   direct: bool, x: int)
    requires ConfigOk(cfg) && Known(h, ids) && InFrame(fr, dets) && Distinct(ids)
    requires x in h && Kept(p, h[x], fr, f, cfg) && (x in ids ==> h[x] == p && (direct ==> p.state == Tracked))
    ensures var s := MatchRound(h, ids, fr, dets, thresh, f, cfg, direct);
      x in s.heap && Kept(p, s.heap[x], fr, f, cfg)
  {
    hide Associate, ApplyMatches, Rematched, Kept, ConfigOk;
    var m := Associate(h, ids, fr, dets, thresh, cfg);
    AssociationInjective(h, ids, fr, dets, thresh, cfg);
    MatchesApplied(h, ids, fr, dets, m.matches, f, cfg, direct);
    var r := ApplyMatches(h, ids, fr, dets, m.matches, f, cfg, direct);
    if Hits(ids, m.matches, x) {
      var k :| HitBy(ids, m.matches, x, k);
      assert x in ids;
      assert r.heap[x] == Rematched(h[x], fr, dets[m.matches[k].1], f, cfg, direct);
      RematchKeeps(p, fr, dets[m.matches[k].1], f, cfg, direct);
    }
  }

  lemma AssociationInjective(h: Heap, ids: seq<int>, fr: Frame, dets: seq<nat>, thresh: real, cfg: Config)
    requires ConfigOk(cfg) && Known(h, ids) && InFrame(fr, dets)
    ensures Injective(Associate(h, ids, fr, dets, thresh, cfg).matches)
  {
    hide LinearAssignment, Distances;
    LinearAssignmentSound(Distances(h, ids, fr, dets), thresh, cfg.solver);
  }

  lemma MarkKeeps(p: Track, h: Heap, ids: seq<int>, state: TrackState, fr: Frame, f: int, cfg: Config, x: int)
    requires ConfigOk(cfg) && Aligned(fr) && Known(h, ids) && x in h && Kept(p, h[x], fr, f, cfg)
    ensures x in MarkAll(h, ids, state) && Kept(p, MarkAll(h, ids, state)[x], fr, f, cfg)
  {
    hide MarkAll, K.Update, Xyah, ConfigOk;
  }

  lemma ConfirmedKeeps(p: Track, h: Heap, pool: seq<int>, fr: Frame, high: seq<nat>, low: seq<nat>, f: int,
                       cfg: Config, x: int)
    requires ConfigOk(cfg) && Known(h, pool) && InFrame(fr, high) && InFrame(fr, low)
    requires Distinct(pool) && DistinctNats(high) && x in h && Kept(p, h[x], fr, f, cfg)
    requires x in pool ==> h[x] == p
    ensures var c := MatchConfirmed(h, pool, fr, high, low, f, cfg);
      x in c.heap && Kept(p, c.heap[x], fr, f, cfg)
  {
    hide MatchRound, Kept, ConfigOk, RoundOutcome;
    var s1 := MatchRound(h, pool, fr, high, cfg.matchThresh, f, cfg, false);
    RoundKeeps(p, h, pool, fr, high, cfg.matchThresh, f, cfg, false, x);
    RoundFacts(h, pool, fr, high, cfg.matchThresh, f, cfg, false);
    LeftAlone(h, pool, high, f, s1, x);
    var rest := InState(s1.heap, s1.rows, Tracked);
    var s2 := MatchRound(s1.heap, rest, fr, low, SECOND_THRESH, f, cfg, false);
    RoundKeeps(p, s1.heap, rest, fr, low, SECOND_THRESH, f, cfg, false, x);
    MarkKeeps(p, s2.heap, Filter(s2.rows, NotLost(s2.heap)), Lost, fr, f, cfg, x);
  }

  lemma LeftAlone(h: Heap, ids: seq<int>, dets: seq<nat>, f: int, s: Stage, x: int)
    requires RoundOutcome(h, ids, dets, f, false, s) && x in h
    ensures Distinct(s.rows) && x in s.heap && (x in s.rows ==> x in ids && s.heap[x] == h[x])
  {}

  lemma TentativeKeeps(p: Track, h: Heap, ids: seq<int>, fr: Frame, left: seq<nat>, f: int, cfg: Config, x: int)
    requires ConfigOk(cfg) && Known(h, ids) && InFrame(fr, left) && Distinct(ids)
    requires x in h && Kept(p, h[x], fr, f, cfg) && (x in ids ==> h[x] == p && p.state == Tracked)
    ensures var t := MatchTentative(h, ids, fr, left, f, cfg);
      x in t.heap && Kept(p, t.heap[x], fr, f, cfg)
  {
    hide MatchRound, Kept, ConfigOk;
    var s := MatchRound(h, ids, fr, left, UNCONFIRMED_THRESH, f, cfg, true);
    RoundKeeps(p, h, ids, fr, left, UNCONFIRMED_THRESH, f, cfg, true, x);
    MarkKeeps(p, s.heap, s.rows, Removed, fr, f, cfg, x);
  }

  lemma {:induction false} SpawnBears(h: Heap, fr: Frame, dets: seq<nat>, f: int, cfg: Config, count: int)
    requires InFrame(fr, dets)
    ensures var b := Spawn(h, fr, dets, f, cfg, count); forall x :: x in b.heap && x !in h ==> Newborn(b.heap[x], fr, f)
  {
    hide K.Initiate, Xyah;
    if dets != [] {
      SpawnBears(h, fr, dets[..|dets| - 1], f, cfg, count);
    }
  }

  // ---- a whole frame --------------------------------------------------------

  lemma RoundsKeep(p: Track, r: FrameRun, fr: Frame, f: int, cfg: Config, x: int)
    requires ConfigOk(cfg) && Known(r.predicted, r.pool) && InFrame(fr, r.high) && InFrame(fr, r.low)
    requires Distinct(r.pool) && Distinct(r.unconfirmed) && DistinctNats(r.high) && DistinctNats(r.low)
    requires r.confirmed == MatchConfirmed(r.predicted, r.pool, fr, r.high, r.low, f, cfg)
    requires Known(r.confirmed.heap, r.unconfirmed) && InFrame(fr, r.confirmed.left)
    requires r.tentative == MatchTentative(r.confirmed.heap, r.unconfirmed, fr, r.confirmed.left, f, cfg)
    requires x in r.predicted && Kept(p, r.predicted[x], fr, f, cfg) && (x in r.pool ==> r.predicted[x] == p)
    requires x in r.unconfirmed && x in r.confirmed.heap ==> r.confirmed.heap[x] == p && p.state == Tracked
    ensures x in r.tentative.heap && Kept(p, r.tentative.heap[x], fr, f, cfg)
  {
    hide MatchConfirmed, MatchTentative, ConfigOk, Kept, Known, InFrame, Distinct, DistinctNats;
    ConfirmedKeeps(p, r.predicted, r.pool, fr, r.high, r.low, f, cfg, x);
    TentativeKeeps(p, r.confirmed.heap, r.unconfirmed, fr, r.confirmed.left, f, cfg, x);
  }

  /** What `RoundsKeep` asks for. */
  lemma RoundsReady(s: Tracker, fr: Frame, cfg: Config, limit: nat, count: int, r: FrameRun, x: int)
    requires ConfigOk(cfg) && Aligned(fr) && Inv(s, limit, count)
    requires RanAs(s, fr, cfg, count, r) && Phases(s, r, cfg, count) && (x in s.tracked || x in s.lost)
    ensures x in s.heap && x in r.predicted && r.predicted[x].frame < s.frame + 1
    ensures Known(r.predicted, r.pool) && InFrame(fr, r.high) && InFrame(fr, r.low)
    ensures Distinct(r.pool) && Distinct(r.unconfirmed) && DistinctNats(r.high) && DistinctNats(r.low)
    ensures r.confirmed == MatchConfirmed(r.predicted, r.pool, fr, r.high, r.low, s.frame + 1, cfg)
    ensures Known(r.confirmed.heap, r.unconfirmed) && InFrame(fr, r.confirmed.left)
    ensures r.tentative == MatchTentative(r.confirmed.heap, r.unconfirmed, fr, r.confirmed.left, s.frame + 1, cfg)
    ensures x in r.unconfirmed && x in r.confirmed.heap ==>
      r.confirmed.heap[x] == r.predicted[x] && r.predicted[x].state == Tracked
  {
    hide PredictAll, MatchConfirmed, MatchTentative, Spawn, MarkAll, WithActivation, Joint, High, Low, ConfigOk, Clean,
         ConfirmedOutcome, TentativeOutcome, BirthsOutcome, InFrame, Overdue, PoolReady, Inv, Phases;
    InvKnown(s, limit, count);
    InvTracked(s, limit, count);
    PoolPhase(s, fr, limit, count, r);
    ListedReady(s, r, fr, x);
    LevelsDistinct(fr, cfg);
    UntouchedByPool(s, r, cfg, count, x);
  }

  /** The parts of a frame, from the pool on, keep what a listed track is. */
  lemma ListedKept(s: Tracker, fr: Frame, cfg: Config, limit: nat, count: int, r: FrameRun, x: int)
    requires ConfigOk(cfg) && Aligned(fr) && Inv(s, limit, count)
    requires RanAs(s, fr, cfg, count, r) && Phases(s, r, cfg, count) && (x in s.tracked || x in s.lost)
    ensures x in s.heap && x in r.predicted && x in r.settled
    ensures Kept(r.predicted[x], r.settled[x], fr, s.frame + 1, cfg)
  {
    RoundsReady(s, fr, cfg, limit, count, r, x);
    hide MatchConfirmed, MatchTentative, ConfigOk, Kept, Known, InFrame, Distinct, DistinctNats, Inv, RanAs;
    var p, f := r.predicted[x], s.frame + 1;
    StartKept(p, fr, f, cfg);
    RoundsKeep(p, r, fr, f, cfg, x);
    SettledKeeps(s, r, cfg, count, fr, p, x);
  }

  lemma InvTracked(s: Tracker, limit: nat, count: int)
    requires Inv(s, limit, count)
    ensures Known(s.heap, s.tracked) && forall x :: x in s.tracked ==> TrackedOk(s.heap[x], s.frame)
  {}

  lemma LevelsDistinct(fr: Frame, cfg: Config)
    requires Aligned(fr)
    ensures DistinctNats(High(fr, cfg, |fr.scores|)) && DistinctNats(Low(fr, cfg, |fr.scores|))
    ensures InFrame(fr, High(fr, cfg, |fr.scores|)) && InFrame(fr, Low(fr, cfg, |fr.scores|))
  {
    hide High, Low;
  }

  lemma StartKept(t: Track, fr: Frame, f: int, cfg: Config)
    requires ConfigOk(cfg) && Aligned(fr) && t.frame < f
    ensures Kept(t, t, fr, f, cfg)
  {
    hide K.Update, Xyah, ConfigOk;
  }

  lemma ListedReady(s: Tracker, r: FrameRun, fr: Frame, x: int)
    requires Known(s.heap, s.tracked) && Known(s.heap, s.lost) && PoolReady(s, r, fr)
    requires x in s.tracked || x in s.lost
    ensures Distinct(r.pool) && Distinct(r.unconfirmed) && Known(r.predicted, r.pool)
    ensures x in s.heap && x in r.predicted && r.predicted[x].frame < s.frame + 1
    ensures x in r.unconfirmed ==> x !in r.pool
  {
    hide Clean;
  }

  lemma UntouchedByPool(s: Tracker, r: FrameRun, cfg: Config, count: int, x: int)
    requires Known(s.heap, s.tracked) && Known(s.heap, s.lost) && Phases(s, r, cfg, count)
    requires x in r.predicted && (x in r.unconfirmed ==> x !in r.pool)
    requires forall y :: y in s.tracked ==> TrackedOk(s.heap[y], s.frame)
    ensures x in r.confirmed.heap
    ensures x in r.unconfirmed ==> r.confirmed.heap[x] == r.predicted[x] && r.predicted[x].state == Tracked
  {
    hide SortedBy;
  }

  lemma SettledKeeps(s: Tracker, r: FrameRun, cfg: Config, count: int, fr: Frame, p: Track, x: int)
    requires ConfigOk(cfg) && Aligned(fr) && Known(s.heap, s.tracked) && Known(s.heap, s.lost)
    requires Phases(s, r, cfg, count) && x in r.tentative.heap && Kept(p, r.tentative.heap[x], fr, s.frame + 1, cfg)
    ensures x in r.settled && Kept(p, r.settled[x], fr, s.frame + 1, cfg)
  {
    hide SortedBy, ConfigOk, K.Update, Xyah, ConfirmedOutcome, TentativeOutcome;
  }

  /** A listed track as the rounds first see it: confirmed and lost ones predicted, unconfirmed ones as they were. */
  function Prior(s: Tracker, x: int): Track
    requires x in s.heap
  {
    if x in s.lost || s.heap[x].activated then Predicted(s.heap[x]) else s.heap[x]
  }

  /** The state of a listed track after a frame that left it like `u`. */
  function StateAfter(s: Tracker, x: int, u: Track, maxLost: nat): TrackState
    requires x in s.heap
  {
    if u.frame == s.frame + 1 then Tracked
    else if x in s.lost then (if s.frame + 1 - u.frame > maxLost then Removed else s.heap[x].state)
    else if s.heap[x].activated then Lost else Removed
  }

  /** What a frame makes of the tracks: the listed ones keep what `Kept` says and take the state due, the
      others stay as they were, and what is new starts from its detection. */
  ghost predicate FatesOf(s: Tracker, fr: Frame, cfg: Config, count: int, after: int, g: Heap)
    requires ConfigOk(cfg) && Aligned(fr)
  {
    && (forall x :: x in s.tracked || x in s.lost ==> x in s.heap && x in g && FateOf(s, fr, cfg, g, x))
    && (forall x :: x in s.heap && x !in s.tracked && x !in s.lost ==> x in g && g[x] == s.heap[x])
    && (forall x :: x in g && x !in s.heap <==> count < x <= after)
    && (forall x :: x in g && x !in s.heap ==> Newborn(g[x], fr, s.frame + 1))
  }

  ghost predicate FateOf(s: Tracker, fr: Frame, cfg: Config, g: Heap, x: int)
    requires ConfigOk(cfg) && Aligned(fr) && x in s.heap && x in g
  {
    Kept(Prior(s, x), g[x], fr, s.frame + 1, cfg) && g[x].state == StateAfter(s, x, g[x], cfg.maxLost)
  }

  lemma StateIsDue(s: Tracker, r: FrameRun, cfg: Config, limit: nat, count: int, x: int)
    requires Inv(s, limit, count) && Phases(s, r, cfg, count) && (x in s.tracked || x in s.lost)
    ensures x in s.heap && x in r.settled && r.settled[x].state == StateAfter(s, x, r.settled[x], cfg.maxLost)
  {
    hide Phases, HoldsApart, SortedBy;
    if x in s.lost {
      LostSettles(s, r, cfg, limit, count, x);
    } else {
      TrackedSettles(s, r, cfg, limit, count, x);
      if !s.heap[x].activated {
        UnconfirmedGo(s, r, cfg, limit, count, x);
      }
    }
  }

  lemma UnconfirmedGo(s: Tracker, r: FrameRun, cfg: Config, limit: nat, count: int, x: int)
    requires Inv(s, limit, count) && Phases(s, r, cfg, count) && x in s.tracked && !s.heap[x].activated
    ensures x in r.settled && (r.settled[x].frame != s.frame + 1 ==> r.settled[x].state == Removed)
  {
    hide HoldsApart, SortedBy, TrackedOk, LostOk;
    assert x !in s.lost && x !in r.pool && x in r.unconfirmed;
  }

  lemma StrangersStay(s: Tracker, r: FrameRun, cfg: Config, limit: nat, count: int, x: int)
    requires Inv(s, limit, count) && Phases(s, r, cfg, count)
    requires x in s.heap && x !in s.tracked && x !in s.lost && x in r.predicted && r.predicted[x] == s.heap[x]
    ensures x in r.settled && r.settled[x] == s.heap[x]
  {
    hide HoldsApart, SortedBy;
    assert x !in r.pool && x !in r.unconfirmed;
  }

  lemma NewIsBorn(s: Tracker, r: FrameRun, cfg: Config, limit: nat, count: int, x: int)
    requires Inv(s, limit, count) && Phases(s, r, cfg, count)
    ensures x in r.settled && x !in s.heap <==> count < x <= r.births.count
    ensures x in r.settled && x !in s.heap ==>
      x in r.births.heap && x !in r.tentative.heap && r.settled[x] == r.births.heap[x]
  {
    hide HoldsApart, SortedBy, ConfirmedOutcome, TrackedOk, LostOk;
    assert r.tentative.heap.Keys == s.heap.Keys by {
      OldKeys(s, r, cfg, count);
    }
    hide TentativeOutcome;
    assert x in r.overdue ==> x in s.heap;
  }

  lemma OldKeys(s: Tracker, r: FrameRun, cfg: Config, count: int)
    requires Known(s.heap, s.tracked) && Known(s.heap, s.lost) && Phases(s, r, cfg, count)
    ensures r.tentative.heap.Keys == s.heap.Keys
  {
    hide SortedBy, BirthsOutcome;
  }

  lemma NewOnes(s: Tracker, r: FrameRun, fr: Frame, cfg: Config, limit: nat, count: int)
    requires ConfigOk(cfg) && Aligned(fr) && Inv(s, limit, count) && Phases(s, r, cfg, count)
    requires InFrame(fr, r.tentative.spare)
    requires r.births == Spawn(r.tentative.heap, fr, r.tentative.spare, s.frame + 1, cfg, count)
    ensures forall x :: x in r.settled && x !in s.heap <==> count < x <= r.births.count
    ensures forall x :: x in r.settled && x !in s.heap ==> Newborn(r.settled[x], fr, s.frame + 1)
  {
    hide Spawn, Newborn, Phases, Inv, ConfigOk, InFrame;
    SpawnBears(r.tentative.heap, fr, r.tentative.spare, s.frame + 1, cfg, count);
    forall x
      ensures x in r.settled && x !in s.heap <==> count < x <= r.births.count
      ensures x in r.settled && x !in s.heap ==> Newborn(r.settled[x], fr, s.frame + 1)
    {
      NewIsBorn(s, r, cfg, limit, count, x);
    }
  }

  lemma PriorIsPredicted(s: Tracker, fr: Frame, cfg: Config, limit: nat, count: int, r: FrameRun)
    requires ConfigOk(cfg) && Aligned(fr) && Inv(s, limit, count) && RanAs(s, fr, cfg, count, r)
    ensures forall x :: x in s.heap ==> x in r.predicted
    ensures forall x :: x in s.tracked || x in s.lost ==>
      x in s.heap && x in r.predicted && r.predicted[x] == Prior(s, x)
    ensures forall x :: x in s.heap && x !in s.tracked && x !in s.lost ==> r.predicted[x] == s.heap[x]
  {
    hide PredictAll, MatchConfirmed, MatchTentative, Spawn, MarkAll, Joint, High, Low, ConfigOk, Predicted,
         WithActivation, Inv, Overdue, InFrame;
    InvKnown(s, limit, count);
    PredictedOnce(s, fr, limit, count, r);
    PoolMembers(s, r);
  }

  lemma PoolMembers(s: Tracker, r: FrameRun)
    requires Known(s.heap, s.tracked) && Known(s.heap, s.lost)
    requires r.pool == Joint(WithActivation(s.heap, s.tracked, true), s.lost)
    ensures forall x :: x in r.pool <==> (x in s.tracked && s.heap[x].activated) || x in s.lost
  {
    hide Joint, Filter;
  }

  lemma FatesFrom(s: Tracker, fr: Frame, cfg: Config, limit: nat, count: int, r: FrameRun)
    requires ConfigOk(cfg) && Aligned(fr) && Inv(s, limit, count) && InFrame(fr, r.tentative.spare)
    requires RanAs(s, fr, cfg, count, r) && Phases(s, r, cfg, count)
    requires r.births == Spawn(r.tentative.heap, fr, r.tentative.spare, s.frame + 1, cfg, count)
    ensures FatesOf(s, fr, cfg, count, r.births.count, r.settled)
  {
    hide Phases, Inv, RanAs, ConfigOk, Kept, Prior, StateAfter, Newborn, Spawn, InFrame, Known;
    InvKnown(s, limit, count);
    PriorIsPredicted(s, fr, cfg, limit, count, r);
    NewOnes(s, r, fr, cfg, limit, count);
    forall x | x in s.tracked || x in s.lost ensures x in s.heap && x in r.settled && FateOf(s, fr, cfg, r.settled, x) {
      ListedKept(s, fr, cfg, limit, count, r, x);
      StateIsDue(s, r, cfg, limit, count, x);
    }
    forall x | x in s.heap && x !in s.tracked && x !in s.lost ensures x in r.settled && r.settled[x] == s.heap[x] {
      StrangersStay(s, r, cfg, limit, count, x);
    }
  }

  lemma SettledFates(s: Tracker, fr: Frame, cfg: Config, limit: nat, count: int)
    requires ConfigOk(cfg) && Aligned(fr) && Inv(s, limit, count)
    ensures Known(s.heap, s.tracked) && Known(s.heap, s.lost)
    ensures var r := Ran(s, fr, cfg, count);
      FatesOf(s, fr, cfg, count, r.births.count, r.settled)
  {
    hide Ran, Phases, Inv, RanAs, ConfigOk, FatesOf, Ended, Clean, Spawn, InFrame, Known, NewbornEnds;
    InvKnown(s, limit, count);
    RanEquations(s, fr, cfg, count);
    FramePhases(s, fr, cfg, limit, count);
    FrameEnds(s, fr, cfg, limit, count);
    FatesFrom(s, fr, cfg, limit, count, Ran(s, fr, cfg, count));
  }

  /** What every frame makes of every track. */
  lemma TracksAfter(s: Tracker, fr: Frame, cfg: Config, limit: nat, count: int)
    requires ConfigOk(cfg) && Aligned(fr) && Inv(s, limit, count)
    ensures Known(s.heap, s.tracked) && Known(s.heap, s.lost)
    ensures var (t, after) := Step(s, fr, cfg, count); FatesOf(s, fr, cfg, count, after, t.heap)
  {
    hide Ran, Inv, ConfigOk, FatesOf, Merge;
    SettledFates(s, fr, cfg, limit, count);
    StepParts(s, fr, cfg, count);
    var r := Ran(s, fr, cfg, count);
    MergeHeap(s, r.settled, s.frame + 1, r.activated, r.confirmed.refind, r.confirmed.lost,
              r.tentative.gone + r.overdue);
  }

  /** Unconfirmed and not matched, or lost for longer than the grace. */
  ghost predicate Goes(s: Tracker, h: Heap, maxLost: nat, x: int) {
    && x in s.heap && x in h
    && if x in s.lost then s.frame + 1 - h[x].frame > maxLost
       else x in s.tracked && !s.heap[x].activated && h[x].frame != s.frame + 1
  }

  lemma WhoGoes(s: Tracker, r: FrameRun, cfg: Config, limit: nat, count: int, x: int)
    requires Inv(s, limit, count) && Phases(s, r, cfg, count)
    ensures x in r.tentative.gone + r.overdue <==> Goes(s, r.settled, cfg.maxLost, x)
  {
    hide HoldsApart, SortedBy, ConfirmedOutcome;
    OldKeys(s, r, cfg, count);
    assert x in r.tentative.gone + r.overdue <==> x in r.tentative.gone || x in r.overdue;
    assert x in r.unconfirmed <==> x in s.tracked && !s.heap[x].activated;
    assert x in s.lost ==> x !in s.tracked;
  }

  /** The removed list takes on what goes in the frame, and remembers its last 1000 entries. */
  lemma RemovedAfter(s: Tracker, fr: Frame, cfg: Config, limit: nat, count: int) returns (gone: seq<int>)
    requires ConfigOk(cfg) && Aligned(fr) && Inv(s, limit, count)
    ensures Known(s.heap, s.tracked) && Known(s.heap, s.lost)
    ensures var t, all := Step(s, fr, cfg, count).0, s.removed + gone;
      && (forall x :: x in gone <==> Goes(s, t.heap, cfg.maxLost, x))
      && t.removed == if |all| > 1000 then all[|all| - 1000..] else all
  {
    hide Ran, Inv, ConfigOk, Goes, Phases, Clean, Joint, Sub, InState, WithoutDuplicates;
    InvKnown(s, limit, count);
    FramePhases(s, fr, cfg, limit, count);
    StepParts(s, fr, cfg, count);
    hide Step;
    var r := Ran(s, fr, cfg, count);
    gone := r.tentative.gone + r.overdue;
    forall x ensures x in gone <==> Goes(s, r.settled, cfg.maxLost, x) {
      WhoGoes(s, r, cfg, limit, count, x);
    }
  }

  // ---- order ----------------------------------------------------------------

  ghost function Position(ids: seq<int>, x: int): nat {
    if x in ids then var i: nat :| i < |ids| && ids[i] == x; i else |ids|
  }

  /** Tracked ones by their old places, then new ones by their ids, then the lost ones that were found again. */
  ghost function Rank(s: Tracker, count: int, after: int): int -> int {
    x => if x in s.tracked then Position(s.tracked, x)
         else if x > count then |s.tracked| + x - count
         else |s.tracked| + after - count + 1
  }

  lemma {:induction false} JointSorted(a: seq<int>, b: seq<int>, key: int -> int)
    requires SortedBy(a, key)
    requires forall x, y :: x in a && y in b && y !in a ==> key(x) <= key(y)
    requires forall j, k :: 0 <= j < k < |b| && b[j] !in a && b[k] !in a ==> key(b[j]) <= key(b[k])
    ensures SortedBy(Joint(a, b), key)
  {
    if b != [] {
      var n := |b| - 1;
      JointSorted(a, b[..n], key);
      var r := Joint(a, b[..n]);
      forall j | 0 <= j < |r| && b[n] !in r ensures key(r[j]) <= key(b[n]) {
        var x, y := r[j], b[n];
        assert x in r && y in b && y !in a;
        if x !in a {
          assert x in b[..n];
          var i :| 0 <= i < n && b[i] == x;
          assert key(b[i]) <= key(b[n]);
        } else {
          assert key(x) <= key(y);
        }
      }
    }
  }

  ghost predicate Ascending(ids: seq<int>) {
    forall j, k :: 0 <= j < k < |ids| ==> ids[j] <= ids[k]
  }

  lemma {:induction false} SpawnAscends(h: Heap, fr: Frame, dets: seq<nat>, f: int, cfg: Config, count: int)
    requires InFrame(fr, dets)
    ensures var b := Spawn(h, fr, dets, f, cfg, count);
      Ascending(b.born) && forall x :: x in b.born ==> x <= b.count
  {
    hide K.Initiate, Activated;
    if dets != [] {
      SpawnAscends(h, fr, dets[..|dets| - 1], f, cfg, count);
      var b := Spawn(h, fr, dets[..|dets| - 1], f, cfg, count);
      assert forall j :: 0 <= j < |b.born| ==> b.born[j] in b.born;
    }
  }

  lemma OldOrder(s: Tracker, count: int, after: int)
    requires Distinct(s.tracked)
    ensures SortedBy(s.tracked, Rank(s, count, after))
  {
    forall j, k | 0 <= j < k < |s.tracked|
      ensures Rank(s, count, after)(s.tracked[j]) <= Rank(s, count, after)(s.tracked[k])
    {
      assert s.tracked[j] in s.tracked && s.tracked[k] in s.tracked;
    }
  }

  /** Ranks of those that were not tracked before. */
  lemma RanksOf(s: Tracker, count: int, after: int, x: int)
    requires count <= after
    ensures x in s.tracked ==> Rank(s, count, after)(x) <= |s.tracked|
    ensures x !in s.tracked && count < x <= after ==> Rank(s, count, after)(x) == |s.tracked| + x - count
    ensures x !in s.tracked && x <= count ==> Rank(s, count, after)(x) == |s.tracked| + after - count + 1
  {}

  lemma NewComesLast(tracked: seq<int>, before: seq<int>, born: seq<int>, ids: seq<int>, j: nat)
    requires ids == before + born && j < |ids| && ids[j] !in tracked && forall x :: x in before ==> x in tracked
    ensures j >= |before| && ids[j] == born[j - |before|]
  {
    assert forall i :: 0 <= i < |before| ==> before[i] in before && ids[i] == before[i];
  }

  /** Of the activated ones only the newborn are new, and they come last, in order. */
  lemma ActivatedInOrder(s: Tracker, r: FrameRun, cfg: Config, limit: nat, count: int, n: nat)
    requires Inv(s, limit, count) && Settled(s, r, cfg, count, n) && Ascending(r.births.born)
    requires r.activated == r.confirmed.activated + r.tentative.activated + r.births.born
    requires forall x :: x in r.confirmed.activated + r.tentative.activated ==> x in s.tracked
    ensures var key := Rank(s, count, r.births.count);
      forall j, k :: 0 <= j < k < |r.activated| && r.activated[j] !in s.tracked && r.activated[k] !in s.tracked ==>
        key(r.activated[j]) <= key(r.activated[k])
  {
    hide Inv, Rank, Clean, SortedBy;
    var before := r.confirmed.activated + r.tentative.activated;
    forall j, k | 0 <= j < k < |r.activated| && r.activated[j] !in s.tracked && r.activated[k] !in s.tracked
      ensures Rank(s, count, r.births.count)(r.activated[j]) <= Rank(s, count, r.births.count)(r.activated[k])
    {
      NewComesLast(s.tracked, before, r.births.born, r.activated, j);
      NewComesLast(s.tracked, before, r.births.born, r.activated, k);
      var i, m := j - |before|, k - |before|;
      assert r.births.born[i] in r.births.born && r.births.born[m] in r.births.born;
      RanksOf(s, count, r.births.count, r.activated[j]);
      RanksOf(s, count, r.births.count, r.activated[k]);
    }
  }

  lemma MergedInOrder(s: Tracker, r: FrameRun, cfg: Config, limit: nat, count: int, n: nat)
    requires Inv(s, limit, count) && Settled(s, r, cfg, count, n) && Ascending(r.births.born)
    requires r.activated == r.confirmed.activated + r.tentative.activated + r.births.born
    requires forall x :: x in r.confirmed.activated + r.tentative.activated ==> x in s.tracked
    ensures SortedBy(Joint(Joint(InState(r.settled, s.tracked, Tracked), r.activated), r.confirmed.refind),
                     Rank(s, count, r.births.count))
  {
    hide Inv, Settled, Rank, Ascending, Joint, Filter, SortedBy, Distinct;
    SettledRanks(s, r, cfg, limit, count, n);
    ActivatedInOrder(s, r, cfg, limit, count, n);
    var key := Rank(s, count, r.births.count);
    OldOrder(s, count, r.births.count);
    FilterSorted(s.tracked, HasState(r.settled, Tracked), key);
    var a, b := InState(r.settled, s.tracked, Tracked), r.activated;
    forall j, k | 0 <= j < k < |b| && b[j] !in a && b[k] !in a ensures key(b[j]) <= key(b[k]) {
      var x, y := b[j], b[k];
      assert x in b && y in b;
      assert x !in s.tracked && y !in s.tracked;
    }
    JoinedInOrder(a, b, r.confirmed.refind, key, |s.tracked|,
                  |s.tracked| + r.births.count - count);
  }

  lemma JoinedInOrder(a: seq<int>, b: seq<int>, c: seq<int>, key: int -> int, n: int, m: int)
    requires n <= m && SortedBy(a, key) && forall x :: x in a ==> key(x) <= n
    requires forall x :: x in b && x !in a ==> n < key(x) <= m
    requires forall j, k :: 0 <= j < k < |b| && b[j] !in a && b[k] !in a ==> key(b[j]) <= key(b[k])
    requires forall x :: x in c ==> key(x) == m + 1
    ensures SortedBy(Joint(Joint(a, b), c), key)
  {
    hide Joint, SortedBy;
    JointSorted(a, b, key);
    forall j, k | 0 <= j < k < |c| ensures key(c[j]) <= key(c[k]) {
      var x, y := c[j], c[k];
      assert x in c && y in c;
      assert key(x) == m + 1 && key(y) == m + 1;
    }
    JointSorted(Joint(a, b), c, key);
  }

  /** How the ranks of the joined lists compare. */
  lemma SettledRanks(s: Tracker, r: FrameRun, cfg: Config, limit: nat, count: int, n: nat)
    requires Inv(s, limit, count) && Settled(s, r, cfg, count, n)
    ensures Distinct(s.tracked) && count <= r.births.count
    ensures var key := Rank(s, count, r.births.count);
      && (forall x :: x in s.tracked ==> key(x) <= |s.tracked|)
      && (forall x :: x in r.activated && x !in s.tracked ==>
            |s.tracked| < key(x) <= |s.tracked| + r.births.count - count)
      && (forall x :: x in r.confirmed.refind ==> key(x) == |s.tracked| + r.births.count - count + 1)
    ensures forall x :: x in r.activated && x in s.tracked ==> x in InState(r.settled, s.tracked, Tracked)
  {
    hide Clean, SortedBy, HoldsApart, TrackedOk, LostOk;
  }

  lemma ActivatedWereTracked(s: Tracker, r: FrameRun, cfg: Config, limit: nat, count: int)
    requires Inv(s, limit, count) && Phases(s, r, cfg, count)
    ensures forall x :: x in r.confirmed.activated + r.tentative.activated ==> x in s.tracked
    ensures r.activated == r.confirmed.activated + r.tentative.activated + r.births.born
  {
    hide HoldsApart, SortedBy, BirthsOutcome, TrackedOk;
    assert forall x :: x in s.lost ==> LostOk(s.heap[x], s.frame);
  }

  lemma KeptTrackedSorted(h: Heap, tracked: seq<int>, lost: seq<int>, key: int -> int)
    requires Known(h, tracked) && Known(h, lost) && SortedBy(tracked, key)
    ensures SortedBy(WithoutDuplicates(h, tracked, lost).0, key)
  {
    FilterSorted(tracked, KeepsTracked(h, lost), key);
  }

  /** The order of the tracked list after every frame: those tracked before in their old order, then the new
      ones by their ids, then the lost ones that were found again. */
  lemma OrderAfter(s: Tracker, fr: Frame, cfg: Config, limit: nat, count: int)
    requires ConfigOk(cfg) && Aligned(fr) && Inv(s, limit, count)
    ensures Known(s.heap, s.tracked) && Known(s.heap, s.lost)
    ensures var (t, after) := Step(s, fr, cfg, count); SortedBy(t.tracked, Rank(s, count, after))
  {
    InvKnown(s, limit, count);
    FramePhases(s, fr, cfg, limit, count);
    FrameSettles(s, fr, cfg, limit, count);
    FrameEnds(s, fr, cfg, limit, count);
    hide Ran, Inv, ConfigOk, Phases, Settled, Clean, Ended, Joint, Sub, InState, WithoutDuplicates, Rank, Spawn;
    hide SortedBy, Ascending;
    var r := Ran(s, fr, cfg, count);
    SpawnAscends(r.tentative.heap, fr, r.tentative.spare, s.frame + 1, cfg, count);
    ActivatedWereTracked(s, r, cfg, limit, count);
    MergedInOrder(s, r, cfg, limit, count, |fr.scores|);
    StepParts(s, fr, cfg, count);
    hide Step;
    var tracked := Joint(Joint(InState(r.settled, s.tracked, Tracked), r.activated), r.confirmed.refind);
    var lost := Sub(Sub(s.lost, tracked) + r.confirmed.lost, s.removed);
    KeptTrackedSorted(r.settled, tracked, lost, Rank(s, count, r.births.count));
  }
}
