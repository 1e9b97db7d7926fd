/** What each phase of a frame decides about each track, and that no detection is given out twice. */
module TrackerPhases {
  import opened TrackLists
  import opened TrackerModel
  import opened TrackerRounds
  import K = Kalman

  // ---- detections are given out once ----------------------------------------

  ghost function Taken(dets: seq<nat>, cols: seq<nat>): (t: set<int>)
    ensures forall i: int :: i in t <==> i in dets && i !in cols
  {
    set i | i in dets && i !in cols
  }

  /** Among `ids`, no two tracks hold the same detection of frame `f`, and none holds a free one. */
  ghost predicate Clean(h: Heap, ids: set<int>, f: int, free: set<int>, n: nat) {
    && (forall x :: x in ids ==> x in h && h[x].frame <= f)
    && (forall x :: x in ids && h[x].frame == f ==> 0 <= h[x].det < n && h[x].det !in free)
    && (forall x, y :: x in ids && y in ids && x != y && h[x].frame == f && h[y].frame == f ==>
          h[x].det != h[y].det)
  }

  lemma CleanRound(h: Heap, ids: seq<int>, dets: seq<nat>, f: int, direct: bool, s: Stage,
                   all: set<int>, free: set<int>, n: nat)
    requires RoundOutcome(h, ids, dets, f, direct, s)
    requires Clean(h, all, f, free, n)
    requires forall x :: x in ids ==> x in all && h[x].frame < f
    requires forall i: nat :: i in dets ==> i in free && i < n
    ensures Clean(s.heap, all, f, free - Taken(dets, s.cols), n)
  {}

  // ---- confirmed and lost tracks --------------------------------------------

  ghost predicate ConfirmedOutcome(h: Heap, pool: seq<int>, f: int, c: Confirmed) {
    && c.heap.Keys == h.Keys
    && (forall x :: x in h && x !in pool ==> c.heap[x] == h[x])
    && (forall x :: x in h && x in pool && c.heap[x].frame == f ==>
          c.heap[x].state == Tracked && c.heap[x].activated && c.heap[x].start == h[x].start)
    && (forall x :: x in h && x in pool && c.heap[x].frame != f ==>
          c.heap[x] == if h[x].state == Tracked then h[x].(state := Lost) else h[x])
    && (forall x :: x in c.lost <==> x in h && x in pool && c.heap[x].frame != f && h[x].state == Tracked)
    && (forall x :: x in c.activated <==> x in h && x in pool && c.heap[x].frame == f && h[x].state == Tracked)
    && (forall x :: x in c.refind <==> x in h && x in pool && c.heap[x].frame == f && h[x].state != Tracked)
    && Distinct(c.lost) && DistinctNats(c.left)
  }

  lemma ConfirmedFacts(h: Heap, pool: seq<int>, fr: Frame, high: seq<nat>, low: seq<nat>, f: int, cfg: Config,
                       all: set<int>, free: set<int>, n: nat) returns (free': set<int>)
    requires ConfigOk(cfg) && Known(h, pool) && InFrame(fr, high) && InFrame(fr, low)
    requires Distinct(pool) && DistinctNats(high) && DistinctNats(low)
    requires forall x :: x in pool ==> x in all && h[x].frame < f
    requires Clean(h, all, f, free, n)
    requires forall i: nat :: i in high ==> i in free && i < n
    requires forall i: nat :: i in low ==> i in free && i < n && i !in high
    ensures var c := MatchConfirmed(h, pool, fr, high, low, f, cfg);
      && ConfirmedOutcome(h, pool, f, c)
      && (forall i: nat :: i in c.left ==> i in high)
      && Clean(c.heap, all, f, free', n) && (forall i: nat :: i in c.left ==> i in free')
  {
    hide MatchRound, Clean, ConfirmedOutcome, RanTwice;
    var s1 := MatchRound(h, pool, fr, high, cfg.matchThresh, f, cfg, false);
    RoundFacts(h, pool, fr, high, cfg.matchThresh, f, cfg, false);
    CleanRound(h, pool, high, f, false, s1, all, free, n);
    var rest := InState(s1.heap, s1.rows, Tracked);
    var s2 := MatchRound(s1.heap, rest, fr, low, SECOND_THRESH, f, cfg, false);
    RoundFacts(s1.heap, rest, fr, low, SECOND_THRESH, f, cfg, false);
    CleanRound(s1.heap, rest, low, f, false, s2, all, free - Taken(high, s1.cols), n);
    var newlyLost := Filter(s2.rows, NotLost(s2.heap));
    var c := MatchConfirmed(h, pool, fr, high, low, f, cfg);
    free' := free - Taken(high, s1.cols) - Taken(low, s2.cols);
    CleanMark(s2.heap, newlyLost, Lost, all, f, free', n);
    CollectRounds(h, pool, high, low, f, s1, rest, s2, newlyLost, c);
    TwoRounds(h, pool, high, low, f, s1, rest, s2, newlyLost, c);
  }

  lemma CleanMark(h: Heap, ids: seq<int>, state: TrackState, all: set<int>, f: int, free: set<int>, n: nat)
    requires Known(h, ids) && Clean(h, all, f, free, n)
    ensures Clean(MarkAll(h, ids, state), all, f, free, n)
  {
    hide Known;
    var g := MarkAll(h, ids, state);
    hide MarkAll;
    CleanSame(h, g, all, f, free, n);
  }

  lemma CleanSame(h: Heap, g: Heap, all: set<int>, f: int, free: set<int>, n: nat)
    requires Clean(h, all, f, free, n) && g.Keys == h.Keys
    requires forall x :: x in h ==> g[x].frame == h[x].frame && g[x].det == h[x].det
    ensures Clean(g, all, f, free, n)
  {}

  /** The two rounds over the pool, one after the other, and the marking of who is left. */
  ghost predicate RanTwice(h: Heap, pool: seq<int>, high: seq<nat>, low: seq<nat>, f: int,
                           s1: Stage, rest: seq<int>, s2: Stage, newlyLost: seq<int>, c: Confirmed) {
    && Known(h, pool) && (forall x :: x in pool ==> h[x].frame < f)
    && RoundOutcome(h, pool, high, f, false, s1)
    && (forall x :: x in rest <==> x in s1.rows && x in s1.heap && s1.heap[x].state == Tracked)
    && RoundOutcome(s1.heap, rest, low, f, false, s2)
    && (forall x :: x in newlyLost <==> x in s2.rows && x in s2.heap && s2.heap[x].state != Lost)
    && Distinct(newlyLost) && Known(s2.heap, newlyLost)
    && c == Confirmed(MarkAll(s2.heap, newlyLost, Lost), s1.activated + s2.activated,
                      s1.refind + s2.refind, newlyLost, s1.cols)
  }

  lemma CollectRounds(h: Heap, pool: seq<int>, high: seq<nat>, low: seq<nat>, f: int,
                      s1: Stage, rest: seq<int>, s2: Stage, newlyLost: seq<int>, c: Confirmed)
    requires Known(h, pool) && forall x :: x in pool ==> h[x].frame < f
    requires RoundOutcome(h, pool, high, f, false, s1)
    requires forall x :: x in rest <==> x in s1.rows && x in s1.heap && s1.heap[x].state == Tracked
    requires RoundOutcome(s1.heap, rest, low, f, false, s2)
    requires forall x :: x in newlyLost <==> x in s2.rows && x in s2.heap && s2.heap[x].state != Lost
    requires Distinct(newlyLost) && Known(s2.heap, newlyLost)
    requires c == Confirmed(MarkAll(s2.heap, newlyLost, Lost), s1.activated + s2.activated,
                            s1.refind + s2.refind, newlyLost, s1.cols)
    ensures RanTwice(h, pool, high, low, f, s1, rest, s2, newlyLost, c)
  {
    hide RoundOutcome, MarkAll;
  }

  lemma TwoRounds(h: Heap, pool: seq<int>, high: seq<nat>, low: seq<nat>, f: int,
                  s1: Stage, rest: seq<int>, s2: Stage, newlyLost: seq<int>, c: Confirmed)
    requires RanTwice(h, pool, high, low, f, s1, rest, s2, newlyLost, c)
    ensures ConfirmedOutcome(h, pool, f, c)
  {
    hide RanTwice;
    TwoRoundsShape(h, pool, high, low, f, s1, rest, s2, newlyLost, c);
    forall x
      ensures x in h && x !in pool ==> c.heap[x] == h[x]
      ensures x in h && x in pool && c.heap[x].frame == f ==>
        c.heap[x].state == Tracked && c.heap[x].activated && c.heap[x].start == h[x].start
      ensures x in h && x in pool && c.heap[x].frame != f ==>
        c.heap[x] == if h[x].state == Tracked then h[x].(state := Lost) else h[x]
      ensures x in c.lost <==> x in h && x in pool && c.heap[x].frame != f && h[x].state == Tracked
      ensures x in c.activated <==> x in h && x in pool && c.heap[x].frame == f && h[x].state == Tracked
      ensures x in c.refind <==> x in h && x in pool && c.heap[x].frame == f && h[x].state != Tracked
    {
      TwoRoundsAt(h, pool, high, low, f, s1, rest, s2, newlyLost, c, x);
    }
  }

  lemma TwoRoundsShape(h: Heap, pool: seq<int>, high: seq<nat>, low: seq<nat>, f: int,
                       s1: Stage, rest: seq<int>, s2: Stage, newlyLost: seq<int>, c: Confirmed)
    requires RanTwice(h, pool, high, low, f, s1, rest, s2, newlyLost, c)
    ensures c.heap.Keys == h.Keys && Distinct(c.lost) && DistinctNats(c.left)
  {
    hide RoundOutcome, MarkAll;
    RoundShape(h, pool, high, f, s1);
    RoundShape(s1.heap, rest, low, f, s2);
  }

  lemma TwoRoundsAt(h: Heap, pool: seq<int>, high: seq<nat>, low: seq<nat>, f: int,
                    s1: Stage, rest: seq<int>, s2: Stage, newlyLost: seq<int>, c: Confirmed, x: int)
    requires RanTwice(h, pool, high, low, f, s1, rest, s2, newlyLost, c) && c.heap.Keys == h.Keys
    ensures x in h && x !in pool ==> c.heap[x] == h[x]
    ensures x in h && x in pool && c.heap[x].frame == f ==>
      c.heap[x].state == Tracked && c.heap[x].activated && c.heap[x].start == h[x].start
    ensures x in h && x in pool && c.heap[x].frame != f ==>
      c.heap[x] == if h[x].state == Tracked then h[x].(state := Lost) else h[x]
    ensures x in c.lost <==> x in h && x in pool && c.heap[x].frame != f && h[x].state == Tracked
    ensures x in c.activated <==> x in h && x in pool && c.heap[x].frame == f && h[x].state == Tracked
    ensures x in c.refind <==> x in h && x in pool && c.heap[x].frame == f && h[x].state != Tracked
  {
    hide RoundOutcome;
    RoundAt(h, pool, high, f, s1, x);
    RoundAt(s1.heap, rest, low, f, s2, x);
  }

  lemma RoundShape(h: Heap, ids: seq<int>, dets: seq<nat>, f: int, s: Stage)
    requires RoundOutcome(h, ids, dets, f, false, s)
    ensures s.heap.Keys == h.Keys && DistinctNats(s.cols)
  {}

  /** What an indirect round does to one track. */
  lemma RoundAt(h: Heap, ids: seq<int>, dets: seq<nat>, f: int, s: Stage, x: int)
    requires RoundOutcome(h, ids, dets, f, false, s)
    ensures x in h <==> x in s.heap
    ensures x in s.rows ==> x in ids
    ensures x in h && (x !in ids || x in s.rows) ==> s.heap[x] == h[x]
    ensures x in h && x in ids && x !in s.rows ==>
      s.heap[x].frame == f && s.heap[x].state == Tracked && s.heap[x].activated && s.heap[x].start == h[x].start
    ensures x in s.activated <==> x in h && x in ids && x !in s.rows && h[x].state == Tracked
    ensures x in s.refind <==> x in h && x in ids && x !in s.rows && h[x].state != Tracked
  {}

  // ---- unconfirmed tracks ---------------------------------------------------

  ghost predicate TentativeOutcome(h: Heap, ids: seq<int>, f: int, t: Tentative) {
    && t.heap.Keys == h.Keys
    && (forall x :: x in h && x !in ids ==> t.heap[x] == h[x])
    && (forall x :: x in h && x in ids && t.heap[x].frame == f ==>
          t.heap[x].state == Tracked && t.heap[x].activated && t.heap[x].start == h[x].start)
    && (forall x :: x in h && x in ids && t.heap[x].frame != f ==> t.heap[x] == h[x].(state := Removed))
    && (forall x :: x in t.gone <==> x in h && x in ids && t.heap[x].frame != f)
    && (forall x :: x in t.activated <==> x in h && x in ids && t.heap[x].frame == f)
    && DistinctNats(t.spare)
  }

  lemma TentativeFacts(h: Heap, ids: seq<int>, fr: Frame, left: seq<nat>, f: int, cfg: Config,
                       all: set<int>, free: set<int>, n: nat) returns (free': set<int>)
    requires ConfigOk(cfg) && Known(h, ids) && InFrame(fr, left) && Distinct(ids) && DistinctNats(left)
    requires forall x :: x in ids ==> x in all && h[x].frame < f
    requires Clean(h, all, f, free, n) && forall i: nat :: i in left ==> i in free && i < n
    ensures var t := MatchTentative(h, ids, fr, left, f, cfg);
      && TentativeOutcome(h, ids, f, t)
      && (forall i: nat :: i in t.spare ==> i in left)
      && Clean(t.heap, all, f, free', n) && (forall i: nat :: i in t.spare ==> i in free')
  {
    hide MatchRound, Clean, RoundOutcome, TentativeOutcome;
    var s := MatchRound(h, ids, fr, left, UNCONFIRMED_THRESH, f, cfg, true);
    RoundFacts(h, ids, fr, left, UNCONFIRMED_THRESH, f, cfg, true);
    CleanRound(h, ids, left, f, true, s, all, free, n);
    free' := free - Taken(left, s.cols);
    CleanMark(s.heap, s.rows, Removed, all, f, free', n);
    RoundCols(h, ids, left, f, true, s);
    TentativeOnce(h, ids, left, f, s);
  }

  lemma RoundCols(h: Heap, ids: seq<int>, dets: seq<nat>, f: int, direct: bool, s: Stage)
    requires RoundOutcome(h, ids, dets, f, direct, s)
    ensures forall i: nat :: i in s.cols ==> i in dets
  {}

  lemma TentativeOnce(h: Heap, ids: seq<int>, left: seq<nat>, f: int, s: Stage)
    requires Known(h, ids) && RoundOutcome(h, ids, left, f, true, s) && Known(s.heap, s.rows)
    requires forall x :: x in ids ==> h[x].frame < f
    ensures TentativeOutcome(h, ids, f, Tentative(MarkAll(s.heap, s.rows, Removed), s.activated, s.rows, s.cols))
  {
    hide MarkAll;
  }

  // ---- new tracks -----------------------------------------------------------

  ghost predicate BirthsOutcome(h: Heap, dets: seq<nat>, f: int, count: int, b: Births) {
    && b.count >= count
    && (forall x :: x in b.born <==> count < x <= b.count)
    && Distinct(b.born)
    && (forall x :: x in b.heap <==> x in h || x in b.born)
    && (forall x :: x in h ==> b.heap[x] == h[x])
    && (forall x :: x in b.born ==>
          && b.heap[x].state == Tracked && b.heap[x].frame == f && b.heap[x].start == f
          && b.heap[x].activated == (f == 1) && b.heap[x].det in dets)
    && (forall x, y :: x in b.born && y in b.born && x != y ==> b.heap[x].det != b.heap[y].det)
  }

  lemma OneBirth(h: Heap, fr: Frame, dets: seq<nat>, i: nat, f: int, count: int, b: Births, next: Births)
    requires InFrame(fr, dets + [i]) && i !in dets && i < |fr.boxes|
    requires forall x :: x in h ==> x <= count
    requires BirthsOutcome(h, dets, f, count, b)
    requires next == b
          || next == Births(b.heap[b.count + 1 := Activated(fr, i, f)], b.born + [b.count + 1], b.count + 1)
    ensures BirthsOutcome(h, dets + [i], f, count, next)
  {
    hide K.Initiate;
    if next == b {
      return;
    }
    var t, id := Activated(fr, i, f), b.count + 1;
    assert i in dets + [i] && t.det == i;
    assert forall x :: x in next.born <==> x in b.born || x == id;
    assert id !in h && id !in b.born;
    forall x | x in next.born
      ensures next.heap[x].state == Tracked && next.heap[x].frame == f && next.heap[x].start == f
      ensures next.heap[x].activated == (f == 1) && next.heap[x].det in dets + [i]
      ensures forall y :: y in next.born && x != y ==> next.heap[x].det != next.heap[y].det
    {
      assert x != id ==> next.heap[x] == b.heap[x];
    }
  }

  lemma {:induction false} SpawnFacts(h: Heap, fr: Frame, dets: seq<nat>, f: int, cfg: Config, count: int)
    requires InFrame(fr, dets) && DistinctNats(dets) && forall x :: x in h ==> x <= count
    ensures BirthsOutcome(h, dets, f, count, Spawn(h, fr, dets, f, cfg, count))
  {
    if dets != [] {
      hide BirthsOutcome, Activated, K.Initiate;
      var ds, i := dets[..|dets| - 1], dets[|dets| - 1];
      SpawnFacts(h, fr, ds, f, cfg, count);
      assert dets == ds + [i];
      OneBirth(h, fr, ds, i, f, count, Spawn(h, fr, ds, f, cfg, count), Spawn(h, fr, dets, f, cfg, count));
    }
  }

  lemma CleanSpawn(h: Heap, dets: seq<nat>, f: int, count: int, b: Births,
                   all: set<int>, free: set<int>, n: nat, everyone: set<int>)
    requires forall x :: x in everyone ==> x in all || x in b.born
    requires BirthsOutcome(h, dets, f, count, b)
    requires Clean(h, all, f, free, n) && forall i: nat :: i in dets ==> i in free && i < n
    requires forall x :: x in h ==> x <= count
    ensures Clean(b.heap, everyone, f, {}, n)
  {}
}
