/** What each phase of a frame does to the tracks it touches. */
module TrackerRounds {
  import opened Assignment
  import opened TrackLists
  import opened TrackerModel
  import K = Kalman

  ghost predicate Hits(ids: seq<int>, ms: seq<Pair>, x: int) {
    exists k :: HitBy(ids, ms, x, k)
  }

  ghost predicate HitBy(ids: seq<int>, ms: seq<Pair>, x: int, k: int) {
    0 <= k < |ms| && ms[k].0 < |ids| && ids[ms[k].0] == x
  }

  ghost predicate Applied(h: Heap, ids: seq<int>, fr: Frame, dets: seq<nat>, ms: seq<Pair>,
                          f: int, cfg: Config, direct: bool, r: Round)
    requires ConfigOk(cfg) && InFrame(fr, dets) && Fits(ms, |ids|, |dets|)
  {
    && r.heap.Keys == h.Keys
    && (forall x :: x in h && !Hits(ids, ms, x) ==> r.heap[x] == h[x])
    && (forall x, k :: x in h && HitBy(ids, ms, x, k) ==>
          r.heap[x] == Rematched(h[x], fr, dets[ms[k].1], f, cfg, direct))
    && (forall x :: x in r.activated <==> x in h && Hits(ids, ms, x) && (direct || h[x].state == Tracked))
    && (forall x :: x in r.refind <==> x in h && Hits(ids, ms, x) && !(direct || h[x].state == Tracked))
  }

  lemma HitsOneMore(ids: seq<int>, ms: seq<Pair>, p: Pair, y: int)
    requires p.0 < |ids|
    ensures Hits(ids, ms + [p], y) <==> Hits(ids, ms, y) || y == ids[p.0]
    ensures forall k :: HitBy(ids, ms + [p], y, k) ==> HitBy(ids, ms, y, k) || (k == |ms| && y == ids[p.0])
  {
    var ns := ms + [p];
    if Hits(ids, ms, y) {
      var k :| HitBy(ids, ms, y, k);
      assert HitBy(ids, ns, y, k);
    }
    if y == ids[p.0] {
      assert HitBy(ids, ns, y, |ms|);
    }
    forall k | HitBy(ids, ns, y, k) ensures HitBy(ids, ms, y, k) || (k == |ms| && y == ids[p.0]) {
      assert k < |ms| ==> ns[k] == ms[k];
    }
  }

  lemma AppliedOneMore(h: Heap, ids: seq<int>, fr: Frame, dets: seq<nat>, ms: seq<Pair>, p: Pair,
                       f: int, cfg: Config, direct: bool, r: Round, s: Round)
    requires ConfigOk(cfg) && Known(h, ids) && InFrame(fr, dets) && Fits(ms + [p], |ids|, |dets|)
    requires Fits(ms, |ids|, |dets|) && p.0 < |ids| && p.1 < |dets|
    requires Applied(h, ids, fr, dets, ms, f, cfg, direct, r)
    requires ids[p.0] in h && !Hits(ids, ms, ids[p.0])
    requires s.heap == r.heap[ids[p.0] := Rematched(r.heap[ids[p.0]], fr, dets[p.1], f, cfg, direct)]
    requires if direct || r.heap[ids[p.0]].state == Tracked
      then s.activated == r.activated + [ids[p.0]] && s.refind == r.refind
      else s.activated == r.activated && s.refind == r.refind + [ids[p.0]]
    ensures Applied(h, ids, fr, dets, ms + [p], f, cfg, direct, s)
  {
    hide Rematched;
    var x := ids[p.0];
    assert r.heap[x] == h[x];
    forall y ensures Hits(ids, ms + [p], y) <==> Hits(ids, ms, y) || y == x {
      HitsOneMore(ids, ms, p, y);
    }
    forall y, k | y in h && HitBy(ids, ms + [p], y, k)
      ensures s.heap[y] == Rematched(h[y], fr, dets[(ms + [p])[k].1], f, cfg, direct)
    {
      HitsOneMore(ids, ms, p, y);
    }
  }

  lemma LastIsNew(ids: seq<int>, ns: seq<Pair>, p: Pair)
    requires Distinct(ids) && p.0 < |ids| && Injective(ns + [p])
    ensures !Hits(ids, ns, ids[p.0])
  {
    forall k | 0 <= k < |ns| ensures !HitBy(ids, ns, ids[p.0], k) {
      assert (ns + [p])[k] == ns[k] && (ns + [p])[|ns|] == p;
    }
  }

  /** What the last match of a loop over matches does. */
  lemma LastMatch(h: Heap, ids: seq<int>, fr: Frame, dets: seq<nat>, ms: seq<Pair>, f: int, cfg: Config, direct: bool)
    requires ConfigOk(cfg) && Known(h, ids) && InFrame(fr, dets) && Fits(ms, |ids|, |dets|) && ms != []
    ensures var ns, p := ms[..|ms| - 1], ms[|ms| - 1];
      && Fits(ns, |ids|, |dets|) && p.0 < |ids| && p.1 < |dets| && ids[p.0] in h
      && var r := ApplyMatches(h, ids, fr, dets, ns, f, cfg, direct);
         var s := ApplyMatches(h, ids, fr, dets, ms, f, cfg, direct);
         && ids[p.0] in r.heap
         && s.heap == r.heap[ids[p.0] := Rematched(r.heap[ids[p.0]], fr, dets[p.1], f, cfg, direct)]
         && if direct || r.heap[ids[p.0]].state == Tracked
            then s.activated == r.activated + [ids[p.0]] && s.refind == r.refind
            else s.activated == r.activated && s.refind == r.refind + [ids[p.0]]
  {
    hide Rematched, ConfigOk;
    var p := ms[|ms| - 1];
    var x := ids[p.0];
    assert x in ids;
    assert x in h;
  }

  lemma NoneApplied(h: Heap, ids: seq<int>, fr: Frame, dets: seq<nat>, f: int, cfg: Config, direct: bool)
    requires ConfigOk(cfg) && Known(h, ids) && InFrame(fr, dets)
    ensures Applied(h, ids, fr, dets, [], f, cfg, direct, ApplyMatches(h, ids, fr, dets, [], f, cfg, direct))
  {
    hide Rematched, ConfigOk;
    assert forall x :: !Hits(ids, [], x);
  }

  lemma {:induction false} MatchesApplied(h: Heap, ids: seq<int>, fr: Frame, dets: seq<nat>, ms: seq<Pair>,
                                          f: int, cfg: Config, direct: bool)
    requires ConfigOk(cfg) && Known(h, ids) && InFrame(fr, dets) && Fits(ms, |ids|, |dets|)
    requires Distinct(ids) && Injective(ms)
    ensures Applied(h, ids, fr, dets, ms, f, cfg, direct, ApplyMatches(h, ids, fr, dets, ms, f, cfg, direct))
  {
    hide Rematched, Applied, ConfigOk, Hits, ApplyMatches, InFrame;
    if ms != [] {
      var ns, p := ms[..|ms| - 1], ms[|ms| - 1];
      assert ns + [p] == ms;
      LastMatch(h, ids, fr, dets, ms, f, cfg, direct);
      MatchesApplied(h, ids, fr, dets, ns, f, cfg, direct);
      LastIsNew(ids, ns, p);
      AppliedOneMore(h, ids, fr, dets, ns, p, f, cfg, direct,
                     ApplyMatches(h, ids, fr, dets, ns, f, cfg, direct),
                     ApplyMatches(h, ids, fr, dets, ms, f, cfg, direct));
    } else {
      NoneApplied(h, ids, fr, dets, f, cfg, direct);
    }
  }

  // ---- one association round ------------------------------------------------

  /** A round either gives a track one of the detections, or leaves the track alone and lists it. */
  ghost predicate RoundOutcome(h: Heap, ids: seq<int>, dets: seq<nat>, f: int, direct: bool, s: Stage) {
    && s.heap.Keys == h.Keys
    && (forall x :: x in h && (x !in ids || x in s.rows) ==> s.heap[x] == h[x])
    && (forall x :: x in h && x in ids && x !in s.rows ==>
          && s.heap[x].frame == f && s.heap[x].state == Tracked && s.heap[x].activated
          && s.heap[x].start == h[x].start
          && s.heap[x].det in dets && s.heap[x].det !in s.cols)
    && (forall x, y :: x in h && y in h && x in ids && y in ids && x !in s.rows && y !in s.rows && x != y ==>
          s.heap[x].det != s.heap[y].det)
    && (forall x :: x in s.rows ==> x in ids)
    && (forall i :: i in s.cols ==> i in dets)
    && (forall x :: x in s.activated <==> x in h && x in ids && x !in s.rows && (direct || h[x].state == Tracked))
    && (forall x :: x in s.refind <==> x in h && x in ids && x !in s.rows && !(direct || h[x].state == Tracked))
    && Distinct(s.rows) && DistinctNats(s.cols)
  }

  lemma RowsUnmatched(ids: seq<int>, m: Matching, x: int)
    requires Distinct(ids) && forall k :: 0 <= k < |m.rows| ==> m.rows[k] < |ids|
    requires forall i: nat :: i in m.rows <==> i < |ids| && !RowUsed(m.matches, i)
    ensures x in At(ids, m.rows) <==> x in ids && !Hits(ids, m.matches, x)
  {
    var rows := At(ids, m.rows);
    if x in rows {
      var k :| 0 <= k < |rows| && rows[k] == x;
      assert m.rows[k] in m.rows;
      assert ids[m.rows[k]] == x;
      assert !Hits(ids, m.matches, x);
    }
    if x in ids && !Hits(ids, m.matches, x) {
      var i: nat :| i < |ids| && ids[i] == x;
      forall j | 0 <= j < |m.matches| ensures m.matches[j].0 != i {
        assert !HitBy(ids, m.matches, x, j);
      }
      assert i in m.rows;
      var k :| 0 <= k < |m.rows| && m.rows[k] == i;
      assert rows[k] == x;
    }
  }

  lemma HitIsListed(ids: seq<int>, ms: seq<Pair>, x: int)
    ensures Hits(ids, ms, x) ==> x in ids
  {}

  lemma ColsUnmatched(dets: seq<nat>, m: Matching, k: nat)
    requires DistinctNats(dets) && forall j :: 0 <= j < |m.cols| ==> m.cols[j] < |dets|
    requires forall j: nat :: j in m.cols <==> j < |dets| && !ColUsed(m.matches, j)
    requires k < |m.matches| && m.matches[k].1 < |dets|
    ensures dets[m.matches[k].1] !in At(dets, m.cols)
  {
    var cols := At(dets, m.cols);
    assert ColUsed(m.matches, m.matches[k].1);
    forall j | 0 <= j < |cols| ensures cols[j] != dets[m.matches[k].1] {
      assert m.cols[j] in m.cols;
      assert m.cols[j] != m.matches[k].1;
    }
  }

  lemma {:induction false} UnusedIncreasing(c: Cost, thresh: real, solver: Solver)
    requires SolverOk(solver)
    ensures var m := LinearAssignment(c, thresh, solver);
      && (forall j, k :: 0 <= j < k < |m.rows| ==> m.rows[j] < m.rows[k])
      && (forall j, k :: 0 <= j < k < |m.cols| ==> m.cols[j] < m.cols[k])
  {}

  lemma RoundFacts(h: Heap, ids: seq<int>, fr: Frame, dets: seq<nat>, thresh: real, f: int, cfg: Config, direct: bool)
    requires ConfigOk(cfg) && Known(h, ids) && InFrame(fr, dets) && Distinct(ids) && DistinctNats(dets)
    ensures RoundOutcome(h, ids, dets, f, direct, MatchRound(h, ids, fr, dets, thresh, f, cfg, direct))
  {
    hide LinearAssignment, Distances, Rematched, Applied, ApplyMatches, RoundOutcome;
    var c := Distances(h, ids, fr, dets);
    var m := Associate(h, ids, fr, dets, thresh, cfg);
    LinearAssignmentSound(c, thresh, cfg.solver);
    UnusedIncreasing(c, thresh, cfg.solver);
    MatchesApplied(h, ids, fr, dets, m.matches, f, cfg, direct);
    OutcomeFromMatches(h, ids, fr, dets, m, f, cfg, direct,
                       ApplyMatches(h, ids, fr, dets, m.matches, f, cfg, direct));
  }

  /** The match that holds `x`, if the round did not leave it over. */
  lemma MatchOf(h: Heap, ids: seq<int>, fr: Frame, dets: seq<nat>, m: Matching,
                f: int, cfg: Config, direct: bool, r: Round, x: int) returns (k: nat)
    requires ConfigOk(cfg) && Known(h, ids) && InFrame(fr, dets) && Distinct(ids) && DistinctNats(dets)
    requires Result(m, |ids|, |dets|)
    requires forall i: nat :: i in m.rows <==> i < |ids| && !RowUsed(m.matches, i)
    requires forall j: nat :: j in m.cols <==> j < |dets| && !ColUsed(m.matches, j)
    requires Applied(h, ids, fr, dets, m.matches, f, cfg, direct, r)
    requires x in h && x in ids && x !in At(ids, m.rows)
    ensures k < |m.matches| && m.matches[k].1 < |dets| && HitBy(ids, m.matches, x, k)
    ensures r.heap[x] == Rematched(h[x], fr, dets[m.matches[k].1], f, cfg, direct)
    ensures dets[m.matches[k].1] in dets && dets[m.matches[k].1] !in At(dets, m.cols)
  {
    hide Rematched;
    RowsUnmatched(ids, m, x);
    var j :| HitBy(ids, m.matches, x, j);
    k := j;
    ColsUnmatched(dets, m, k);
  }

  /** A matched track, and that no other one holds its detection. */
  ghost predicate TookOne(h: Heap, ids: seq<int>, dets: seq<nat>, f: int, r: Round, rows: seq<int>, cols: seq<nat>,
                          x: int) {
    && x in h && x in r.heap && r.heap[x].frame == f && r.heap[x].state == Tracked && r.heap[x].activated
    && r.heap[x].start == h[x].start && r.heap[x].det in dets && r.heap[x].det !in cols
    && forall y :: y in h && y in r.heap && y in ids && y !in rows && y != x ==> r.heap[y].det != r.heap[x].det
  }

  lemma AppliedKeys(h: Heap, ids: seq<int>, fr: Frame, dets: seq<nat>, ms: seq<Pair>,
                    f: int, cfg: Config, direct: bool, r: Round)
    requires ConfigOk(cfg) && InFrame(fr, dets) && Fits(ms, |ids|, |dets|)
    requires Applied(h, ids, fr, dets, ms, f, cfg, direct, r)
    ensures r.heap.Keys == h.Keys
  {}

  lemma MatchTakesOne(h: Heap, ids: seq<int>, fr: Frame, dets: seq<nat>, m: Matching,
                     f: int, cfg: Config, direct: bool, r: Round, x: int)
    requires ConfigOk(cfg) && Known(h, ids) && InFrame(fr, dets) && Distinct(ids) && DistinctNats(dets)
    requires Result(m, |ids|, |dets|) && Injective(m.matches)
    requires forall i: nat :: i in m.rows <==> i < |ids| && !RowUsed(m.matches, i)
    requires forall j: nat :: j in m.cols <==> j < |dets| && !ColUsed(m.matches, j)
    requires Applied(h, ids, fr, dets, m.matches, f, cfg, direct, r) && x in ids && x !in At(ids, m.rows)
    ensures TookOne(h, ids, dets, f, r, At(ids, m.rows), At(dets, m.cols), x)
  {
    AppliedKeys(h, ids, fr, dets, m.matches, f, cfg, direct, r);
    hide K.Update, Applied, Distinct;
    var k := MatchOf(h, ids, fr, dets, m, f, cfg, direct, r, x);
    forall y | y in h && y in r.heap && y in ids && y !in At(ids, m.rows) && y != x
      ensures r.heap[y].det != r.heap[x].det
    {
      var j := MatchOf(h, ids, fr, dets, m, f, cfg, direct, r, y);
      assert j != k && m.matches[j].1 != m.matches[k].1;
    }
  }

  lemma OutcomeFromMatches(h: Heap, ids: seq<int>, fr: Frame, dets: seq<nat>, m: Matching,
                           f: int, cfg: Config, direct: bool, r: Round)
    requires ConfigOk(cfg) && Known(h, ids) && InFrame(fr, dets) && Distinct(ids) && DistinctNats(dets)
    requires Result(m, |ids|, |dets|) && Injective(m.matches)
    requires forall i: nat :: i in m.rows <==> i < |ids| && !RowUsed(m.matches, i)
    requires forall j: nat :: j in m.cols <==> j < |dets| && !ColUsed(m.matches, j)
    requires forall j, k :: 0 <= j < k < |m.rows| ==> m.rows[j] < m.rows[k]
    requires forall j, k :: 0 <= j < k < |m.cols| ==> m.cols[j] < m.cols[k]
    requires Applied(h, ids, fr, dets, m.matches, f, cfg, direct, r)
    ensures RoundOutcome(h, ids, dets, f, direct,
                         Stage(r.heap, r.activated, r.refind, At(ids, m.rows), At(dets, m.cols)))
  {
    hide Rematched, Hits, Injective, RowUsed, ColUsed;
    var rows, cols := At(ids, m.rows), At(dets, m.cols);
    forall x ensures (x in rows || Hits(ids, m.matches, x) <==> x in ids) && !(x in rows && Hits(ids, m.matches, x)) {
      RowsUnmatched(ids, m, x);
      HitIsListed(ids, m.matches, x);
    }
    forall x | x in ids && x !in rows ensures TookOne(h, ids, dets, f, r, rows, cols, x) {
      MatchTakesOne(h, ids, fr, dets, m, f, cfg, direct, r, x);
    }
  }
}
