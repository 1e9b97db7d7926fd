/** Decoding of the raw detector output and greedy per-class non-maximum suppression. */
module Nms {
  import opened Geometry

  const NUM_BOXES: nat := 8400
  const NUM_CLASSES: nat := 4
  const CONF_THRESHOLD := 0.25
  const IOU_THRESHOLD := 0.45

  /** Corners are whole pixels after decoding. */
  datatype Detection = Detection(cls: int, confidence: real, box: Box)

  // ---- decoding -------------------------------------------------------------

  /** Channel-major tensor: attribute `a` of anchor `i`. */
  type Raw = r: seq<real> | |r| == (4 + NUM_CLASSES) * NUM_BOXES witness seq((4 + NUM_CLASSES) * NUM_BOXES, _ => 0.0)

  function Attr(raw: Raw, a: nat, i: nat): real
    requires a < 4 + NUM_CLASSES && i < NUM_BOXES
  {
    raw[a * NUM_BOXES + i]
  }

  function Score(raw: Raw, i: nat, c: nat): real
    requires c < NUM_CLASSES && i < NUM_BOXES
  {
    Attr(raw, 4 + c, i)
  }

  /** The first class with the greatest positive score, and that score; -1 and 0 if none is positive. */
  ghost predicate IsBest(raw: Raw, i: nat, cls: int, score: real)
    requires i < NUM_BOXES
  {
    && -1 <= cls < NUM_CLASSES && score >= 0.0
    && (cls == -1 ==> score == 0.0)
    && (cls >= 0 ==> score == Score(raw, i, cls) > 0.0)
    && (forall c :: 0 <= c < NUM_CLASSES ==> Score(raw, i, c) <= score)
    && (forall c :: 0 <= c < cls ==> Score(raw, i, c) < score)
  }

  /** The pair `IsBest` singles out. */
  function Best(raw: Raw, i: nat): (r: (int, real))
    requires i < NUM_BOXES
    ensures IsBest(raw, i, r.0, r.1)
  {
    var a, b, c, d := Score(raw, i, 0), Score(raw, i, 1), Score(raw, i, 2), Score(raw, i, 3);
    if a > 0.0 && a >= b && a >= c && a >= d then (0, a)
    else if b > 0.0 && b >= c && b >= d then (1, b)
    else if c > 0.0 && c >= d then (2, c)
    else if d > 0.0 then (3, d)
    else (-1, 0.0)
  }

  lemma BestUnique(raw: Raw, i: nat, cls: int, score: real)
    requires i < NUM_BOXES && IsBest(raw, i, cls, score)
    ensures Best(raw, i) == (cls, score)
  {
    var (best, top) := Best(raw, i);
    if cls >= 0 && best >= 0 {
      assert Score(raw, i, cls) <= top && Score(raw, i, best) <= score;
    }
  }

  method BestClass(raw: Raw, i: nat) returns (cls: int, score: real)
    requires i < NUM_BOXES
    ensures IsBest(raw, i, cls, score) && (cls, score) == Best(raw, i)
  {
    cls, score := -1, 0.0;
    for c := 0 to NUM_CLASSES
      invariant -1 <= cls < c && score >= 0.0
      invariant cls == -1 ==> score == 0.0
      invariant cls >= 0 ==> score == Score(raw, i, cls) > 0.0
      invariant forall k :: 0 <= k < c ==> Score(raw, i, k) <= score
      invariant forall k :: 0 <= k < cls ==> Score(raw, i, k) < score
    {
      if Score(raw, i, c) > score {
        cls, score := c, Score(raw, i, c);
      }
    }
    BestUnique(raw, i, cls, score);
  }

  /** The box of an anchor: centre form to whole-pixel corners. */
  function BoxOf(raw: Raw, i: nat): Box
    requires i < NUM_BOXES
  {
    var cx, cy, w, h := Attr(raw, 0, i), Attr(raw, 1, i), Attr(raw, 2, i), Attr(raw, 3, i);
    Box(Round(cx - w / 2.0) as real, Round(cy - h / 2.0) as real,
        Round(cx + w / 2.0) as real, Round(cy + h / 2.0) as real)
  }

  lemma BoxOfWellFormed(raw: Raw, i: nat)
    requires i < NUM_BOXES && Attr(raw, 2, i) >= 0.0 && Attr(raw, 3, i) >= 0.0
    ensures WellFormed(BoxOf(raw, i))
  {
    hide Round;
    var cx, cy, w, h := Attr(raw, 0, i), Attr(raw, 1, i), Attr(raw, 2, i), Attr(raw, 3, i);
    RoundMonotone(cx - w / 2.0, cx + w / 2.0);
    RoundMonotone(cy - h / 2.0, cy + h / 2.0);
  }

  /** The candidates among the first `n` anchors, in anchor order. */
  function Decoded(raw: Raw, n: nat): (r: seq<Detection>)
    requires n <= NUM_BOXES
    ensures forall k :: 0 <= k < |r| ==> r[k].confidence >= CONF_THRESHOLD && 0 <= r[k].cls < NUM_CLASSES
  {
    if n == 0 then []
    else
      var (cls, score) := Best(raw, n - 1);
      Decoded(raw, n - 1) + if score < CONF_THRESHOLD then [] else [Detection(cls, score, BoxOf(raw, n - 1))]
  }

  /** Where the network's sizes are not negative, candidates have well-formed boxes, so their overlaps
      lie in [0, 1]. */
  lemma {:induction false} CandidatesWellFormed(raw: Raw, n: nat)
    requires n <= NUM_BOXES && forall i: nat :: i < n ==> Attr(raw, 2, i) >= 0.0 && Attr(raw, 3, i) >= 0.0
    ensures forall k :: 0 <= k < |Decoded(raw, n)| ==> WellFormed(Decoded(raw, n)[k].box)
    ensures forall j, k :: 0 <= j < |Decoded(raw, n)| && 0 <= k < |Decoded(raw, n)| ==>
      0.0 <= Iou(Decoded(raw, n)[j].box, Decoded(raw, n)[k].box) <= 1.0
  {
    hide BoxOf, Best, Iou, WellFormed;
    var r := Decoded(raw, n);
    if n > 0 {
      CandidatesWellFormed(raw, n - 1);
      BoxOfWellFormed(raw, n - 1);
      var before := Decoded(raw, n - 1);
      forall k | 0 <= k < |r| ensures WellFormed(r[k].box) {
        assert if k < |before| then r[k] == before[k] else r[k].box == BoxOf(raw, n - 1);
      }
    }
    forall j, k | 0 <= j < |r| && 0 <= k < |r| ensures 0.0 <= Iou(r[j].box, r[k].box) <= 1.0 {
      IouInUnit(r[j].box, r[k].box);
    }
  }

  /** The candidate of an anchor, if some class scores at least the threshold: the best class, the first
      on a tie, with its score and the anchor's box, corners to the nearest pixel. */
  ghost predicate IsCandidate(raw: Raw, i: nat, d: Detection) {
    && i < NUM_BOXES && 0 <= d.cls < NUM_CLASSES && d.confidence == Score(raw, i, d.cls) >= 0.25
    && (forall c :: 0 <= c < NUM_CLASSES ==> Score(raw, i, c) <= d.confidence)
    && (forall c :: 0 <= c < d.cls ==> Score(raw, i, c) < d.confidence)
    && var cx, cy, w, h := Attr(raw, 0, i), Attr(raw, 1, i), Attr(raw, 2, i), Attr(raw, 3, i);
      && Nearest(d.box.x1, cx - w / 2.0) && Nearest(d.box.y1, cy - h / 2.0)
      && Nearest(d.box.x2, cx + w / 2.0) && Nearest(d.box.y2, cy + h / 2.0)
  }

  /** A whole number at most half away. */
  ghost predicate Nearest(n: real, x: real) { n == n.Floor as real && -0.5 <= n - x <= 0.5 }

  ghost predicate SomeScore(raw: Raw, i: nat) {
    i < NUM_BOXES && exists c :: 0 <= c < NUM_CLASSES && Score(raw, i, c) >= 0.25
  }

  /** Exactly the anchors where some class scores at least 0.25 become candidates, in anchor order. */
  lemma {:induction false} DecodedAre(raw: Raw, n: nat) returns (idx: seq<nat>)
    requires n <= NUM_BOXES
    ensures |idx| == |Decoded(raw, n)| && forall j, k :: 0 <= j < k < |idx| ==> idx[j] < idx[k]
    ensures forall k :: 0 <= k < |idx| ==> idx[k] < n && IsCandidate(raw, idx[k], Decoded(raw, n)[k])
    ensures forall i: nat :: i < n && SomeScore(raw, i) ==> i in idx
  {
    hide IsCandidate, SomeScore, Best;
    if n == 0 {
      idx := [];
    } else {
      var before := DecodedAre(raw, n - 1);
      var (cls, score) := Best(raw, n - 1);
      ScoredOrNot(raw, n - 1, cls, score);
      idx := before + if score < CONF_THRESHOLD then [] else [n - 1];
    }
  }

  lemma ScoredOrNot(raw: Raw, i: nat, cls: int, score: real)
    requires i < NUM_BOXES && (cls, score) == Best(raw, i)
    ensures score < CONF_THRESHOLD ==> !SomeScore(raw, i)
    ensures score >= CONF_THRESHOLD ==> IsCandidate(raw, i, Detection(cls, score, BoxOf(raw, i)))
  {
    assert IsBest(raw, i, cls, score);
    hide Best, Round;
    var cx, cy, w, h := Attr(raw, 0, i), Attr(raw, 1, i), Attr(raw, 2, i), Attr(raw, 3, i);
    RoundNear(cx - w / 2.0);
    RoundNear(cy - h / 2.0);
    RoundNear(cx + w / 2.0);
    RoundNear(cy + h / 2.0);
  }

  method Decode(raw: Raw) returns (candidates: seq<Detection>)
    ensures candidates == Decoded(raw, NUM_BOXES)
  {
    candidates := [];
    for i := 0 to NUM_BOXES
      invariant candidates == Decoded(raw, i)
    {
      var cls, score := BestClass(raw, i);
      if score < CONF_THRESHOLD {
        continue;
      }
      candidates := candidates + [Detection(cls, score, BoxOf(raw, i))];
    }
  }

  // ---- sorting --------------------------------------------------------------

  ghost predicate Descending(s: seq<Detection>) {
    forall j, k :: 0 <= j < k < |s| ==> s[j].confidence >= s[k].confidence
  }

  /** What `std::sort` by falling confidence promises; it may order ties as it likes. */
  ghost predicate Sorts(s: seq<Detection>, t: seq<Detection>) {
    multiset(t) == multiset(s) && Descending(t)
  }

  ghost predicate DistinctConfidences(s: seq<Detection>) {
    forall j, k :: 0 <= j < k < |s| ==> s[j].confidence != s[k].confidence
  }

  // ---- greedy suppression ---------------------------------------------------

  /** `a` suppresses `b`: the same class, and too much overlap. */
  predicate Hits(a: Detection, b: Detection) {
    a.cls == b.cls && Iou(a.box, b.box) > IOU_THRESHOLD
  }

  /** A box is kept if and only if no earlier kept box of its class overlaps it too much. */
  ghost predicate Keeps(s: seq<Detection>, i: nat)
    requires i < |s|
  {
    forall j: nat :: j < i ==> !(Keeps(s, j) && Hits(s[j], s[i]))
  }

  ghost function Chosen(s: seq<Detection>, n: nat): seq<Detection>
    requires n <= |s|
  {
    if n == 0 then [] else Chosen(s, n - 1) + if Keeps(s, n - 1) then [s[n - 1]] else []
  }

  /** Some box kept among the first `n` suppresses box `j`. */
  ghost predicate Struck(s: seq<Detection>, n: nat, j: nat)
    requires n <= |s| && j < |s|
  {
    exists k: nat :: k < n && k < j && Keeps(s, k) && Hits(s[k], s[j])
  }

  lemma StruckMore(s: seq<Detection>, i: nat, j: nat)
    requires i < j < |s|
    ensures Struck(s, i + 1, j) <==> Struck(s, i, j) || (Keeps(s, i) && Hits(s[i], s[j]))
  {
    hide Keeps, Hits;
  }

  /** The loop over `suppressed` flags keeps exactly those boxes, in order. */
  method Suppress(s: seq<Detection>) returns (result: seq<Detection>)
    ensures result == Chosen(s, |s|)
  {
    hide Hits;
    result := [];
    var suppressed := new bool[|s|](_ => false);
    for i := 0 to |s|
      invariant result == Chosen(s, i)
      invariant forall j :: i <= j < |s| ==> (suppressed[j] <==> Struck(s, i, j))
    {
      assert suppressed[i] <==> !Keeps(s, i);
      if suppressed[i] {
        forall j | i < j < |s| ensures Struck(s, i + 1, j) <==> Struck(s, i, j) {
          StruckMore(s, i, j);
        }
        continue;
      }
      result := result + [s[i]];
      SuppressFrom(s, i, suppressed);
    }
  }

  /** The inner loop: box `i` is kept and suppresses later ones. */
  method SuppressFrom(s: seq<Detection>, i: nat, suppressed: array<bool>)
    requires i < |s| == suppressed.Length && Keeps(s, i)
    requires forall j :: i <= j < |s| ==> (suppressed[j] <==> Struck(s, i, j))
    modifies suppressed
    ensures forall j :: i < j < |s| ==> (suppressed[j] <==> Struck(s, i + 1, j))
  {
    hide Hits, Keeps, Struck;
    for j := i + 1 to |s|
      invariant forall k :: i < k < j ==> (suppressed[k] <==> Struck(s, i + 1, k))
      invariant forall k :: j <= k < |s| ==> (suppressed[k] <==> Struck(s, i, k))
    {
      StruckMore(s, i, j);
      HitsMeans(s[i], s[j]);
      if suppressed[j] {
        continue;
      }
      if s[j].cls != s[i].cls {
        continue;
      }
      if Iou(s[i].box, s[j].box) > IOU_THRESHOLD {
        suppressed[j] := true;
      }
    }
  }

  lemma HitsMeans(a: Detection, b: Detection)
    ensures Hits(a, b) <==> a.cls == b.cls && Iou(a.box, b.box) > IOU_THRESHOLD
  {}

  /** Decode, sort with the library's sort, suppress. */
  method Run(raw: Raw, sorter: seq<Detection> -> seq<Detection>) returns (result: seq<Detection>)
    requires forall s :: Sorts(s, sorter(s))
    ensures var order := sorter(Decoded(raw, NUM_BOXES));
      Sorts(Decoded(raw, NUM_BOXES), order) && result == Chosen(order, |order|)
  {
    var candidates := Decode(raw);
    candidates := sorter(candidates);
    result := Suppress(candidates);
  }

  // ---- what suppression guarantees ------------------------------------------

  ghost predicate IsGreedySet(s: seq<Detection>, keep: set<nat>) {
    forall i: nat :: i in keep <==> i < |s| && !exists j: nat :: j < i && j in keep && Hits(s[j], s[i])
  }

  /** Any such set agrees with the one kept. */
  lemma {:induction false} KeepIsUnique(s: seq<Detection>, keep: set<nat>, i: nat)
    requires IsGreedySet(s, keep) && i < |s|
    ensures i in keep <==> Keeps(s, i)
  {
    hide Hits;
    forall j: nat | j < i ensures j in keep <==> Keeps(s, j) {
      KeepIsUnique(s, keep, j);
    }
  }

  /** A set is greedy if and only if it is the kept one. */
  lemma GreedySetIff(s: seq<Detection>, keep: set<nat>)
    ensures IsGreedySet(s, keep) <==> forall i: nat :: i in keep <==> i < |s| && Keeps(s, i)
  {
    hide Hits;
    if IsGreedySet(s, keep) {
      forall i: nat ensures i in keep <==> i < |s| && Keeps(s, i) {
        if i < |s| {
          KeepIsUnique(s, keep, i);
        }
      }
    }
  }

  /** Kept boxes of one class never overlap too much, and every dropped box is covered by an earlier
      kept box of its class with at least its confidence. */
  lemma KeptApartAndCovering(s: seq<Detection>, i: nat)
    requires i < |s| && Descending(s)
    ensures Keeps(s, i) ==> forall j: nat :: j < |s| && j != i && Keeps(s, j) && s[j].cls == s[i].cls ==>
      Iou(s[i].box, s[j].box) <= 0.45
    ensures !Keeps(s, i) ==>
      exists j: nat :: j < i && Keeps(s, j) && s[j].cls == s[i].cls && Iou(s[j].box, s[i].box) > 0.45
                       && s[j].confidence >= s[i].confidence
  {
    forall j: nat | Keeps(s, i) && j < |s| && j != i && Keeps(s, j) && s[j].cls == s[i].cls
      ensures Iou(s[i].box, s[j].box) <= IOU_THRESHOLD
    {
      IouSymmetric(s[i].box, s[j].box);
      assert i < j ==> !Hits(s[i], s[j]);
      assert j < i ==> !Hits(s[j], s[i]);
    }
  }

  // ---- algebra --------------------------------------------------------------

  ghost predicate Blocked(kept: seq<Detection>, x: Detection) {
    exists k :: 0 <= k < |kept| && Hits(kept[k], x)
  }

  /** Suppression as a fold: the same list, without indices. */
  ghost function Kept(s: seq<Detection>): (r: seq<Detection>)
    ensures |r| <= |s|
  {
    if s == [] then []
    else
      var r, x := Kept(s[..|s| - 1]), s[|s| - 1];
      if Blocked(r, x) then r else r + [x]
  }

  /** One of the boxes kept among the first `n` suppresses `x`. */
  ghost predicate KeptHits(s: seq<Detection>, n: nat, x: Detection)
    requires n <= |s|
  {
    exists j: nat :: j < n && Keeps(s, j) && Hits(s[j], x)
  }

  lemma KeptHitsMore(s: seq<Detection>, n: nat, x: Detection)
    requires n < |s|
    ensures KeptHits(s, n + 1, x) <==> KeptHits(s, n, x) || (Keeps(s, n) && Hits(s[n], x))
  {
    hide Hits, Keeps;
  }

  lemma KeepsMeans(s: seq<Detection>, n: nat)
    requires n < |s|
    ensures Keeps(s, n) <==> !KeptHits(s, n, s[n])
  {
    hide Hits;
  }

  lemma {:induction false} ChosenBlocks(s: seq<Detection>, n: nat, x: Detection)
    requires n <= |s|
    ensures Blocked(Chosen(s, n), x) <==> KeptHits(s, n, x)
  {
    hide Hits, Keeps;
    if n > 0 {
      hide KeptHits, Blocked;
      ChosenBlocks(s, n - 1, x);
      KeptHitsMore(s, n - 1, x);
      assert Chosen(s, n - 1) + [] == Chosen(s, n - 1);
      BlockedSnoc(Chosen(s, n - 1), s[n - 1], x);
    }
  }

  lemma BlockedSnoc(r: seq<Detection>, y: Detection, x: Detection)
    ensures Blocked(r + [y], x) <==> Blocked(r, x) || Hits(y, x)
  {
    hide Hits;
    if Blocked(r, x) {
      var k :| 0 <= k < |r| && Hits(r[k], x);
      assert (r + [y])[k] == r[k];
    }
    assert (r + [y])[|r|] == y;
  }

  lemma {:induction false} ChosenIsKept(s: seq<Detection>, n: nat)
    requires n <= |s|
    ensures Chosen(s, n) == Kept(s[..n])
  {
    hide Hits, Keeps, Blocked, KeptHits;
    if n > 0 {
      ChosenIsKept(s, n - 1);
      assert s[..n][..n - 1] == s[..n - 1];
      ChosenBlocks(s, n - 1, s[n - 1]);
      KeepsMeans(s, n - 1);
    }
  }

  function OfClass(s: seq<Detection>, cls: int): (r: seq<Detection>)
    ensures forall k :: 0 <= k < |r| ==> r[k].cls == cls
  {
    if s == [] then [] else OfClass(s[..|s| - 1], cls) + if s[|s| - 1].cls == cls then [s[|s| - 1]] else []
  }

  lemma OfClassSnoc(s: seq<Detection>, x: Detection, cls: int)
    ensures OfClass(s + [x], cls) == OfClass(s, cls) + if x.cls == cls then [x] else []
  {
    assert (s + [x])[..|s|] == s;
  }

  lemma {:induction false} BlockedByClass(s: seq<Detection>, x: Detection)
    ensures Blocked(OfClass(s, x.cls), x) <==> Blocked(s, x)
  {
    if s != [] {
      var init, y := s[..|s| - 1], s[|s| - 1];
      BlockedByClass(init, x);
      assert init + [y] == s;
      HitsMeans(y, x);
      hide Hits, Blocked, OfClass;
      OfClassSnoc(init, y, x.cls);
      BlockedSnoc(init, y, x);
      BlockedSnoc(OfClass(init, x.cls), y, x);
      assert OfClass(init, x.cls) + [] == OfClass(init, x.cls);
    }
  }

  lemma KeptSnoc(s: seq<Detection>, x: Detection)
    ensures Kept(s + [x]) == if Blocked(Kept(s), x) then Kept(s) else Kept(s) + [x]
  {
    hide Blocked;
    assert (s + [x])[..|s|] == s;
  }

  /** Restricting the result to one class is running suppression on that class alone. */
  lemma {:induction false} ClassesAreIndependent(s: seq<Detection>, cls: int)
    ensures OfClass(Kept(s), cls) == Kept(OfClass(s, cls))
  {
    hide Hits, Blocked, OfClass, Kept;
    if s == [] {
      NoneOfClass(cls);
    } else {
      var init, x := s[..|s| - 1], s[|s| - 1];
      assert init + [x] == s;
      ClassesAreIndependent(init, cls);
      KeptSnoc(init, x);
      OfClassSnoc(init, x, cls);
      OfClassSnoc(Kept(init), x, cls);
      if x.cls == cls {
        KeptSnoc(OfClass(init, cls), x);
        BlockedByClass(Kept(init), x);
      } else {
        assert OfClass(init, cls) + [] == OfClass(init, cls);
        assert OfClass(Kept(init), cls) + [] == OfClass(Kept(init), cls);
      }
    }
  }

  lemma NoneOfClass(cls: int)
    ensures OfClass([], cls) == [] && Kept([]) == []
  {}

  ghost predicate Apart(s: seq<Detection>) {
    forall j, k :: 0 <= j < k < |s| ==> !Hits(s[j], s[k])
  }

  lemma {:induction false} KeptIsApart(s: seq<Detection>)
    ensures Apart(Kept(s))
  {
    hide Hits;
    if s != [] {
      KeptIsApart(s[..|s| - 1]);
    }
  }

  lemma {:induction false} ApartIsKept(s: seq<Detection>)
    requires Apart(s)
    ensures Kept(s) == s
  {
    hide Hits;
    if s != [] {
      var init, x := s[..|s| - 1], s[|s| - 1];
      ApartIsKept(init);
      assert !Blocked(init, x);
    }
  }

  /** Suppression is idempotent. */
  lemma Idempotent(s: seq<Detection>)
    ensures Kept(Kept(s)) == Kept(s)
  {
    KeptIsApart(s);
    ApartIsKept(Kept(s));
  }

  function MapBox(d: Detection, scale: real, dx: real, dy: real): Detection {
    d.(box := Mapped(d.box, scale, dx, dy))
  }

  function MapAll(s: seq<Detection>, scale: real, dx: real, dy: real): (r: seq<Detection>)
    ensures |r| == |s| && forall k :: 0 <= k < |s| ==> r[k] == MapBox(s[k], scale, dx, dy)
  {
    seq(|s|, k requires 0 <= k < |s| => MapBox(s[k], scale, dx, dy))
  }

  lemma HitsMapped(a: Detection, b: Detection, scale: real, dx: real, dy: real)
    requires scale > 0.0
    ensures Hits(MapBox(a, scale, dx, dy), MapBox(b, scale, dx, dy)) <==> Hits(a, b)
  {
    hide Iou, Mapped;
    IouInvariant(a.box, b.box, scale, dx, dy);
  }

  /** Suppression commutes with a uniform scale and a shift: letterboxed space or image space, the
      same boxes survive. */
  lemma {:induction false} ScaleInvariant(s: seq<Detection>, scale: real, dx: real, dy: real)
    requires scale > 0.0
    ensures Kept(MapAll(s, scale, dx, dy)) == MapAll(Kept(s), scale, dx, dy)
  {
    hide Hits, MapBox;
    if s != [] {
      var init, x := s[..|s| - 1], s[|s| - 1];
      var all, y := MapAll(s, scale, dx, dy), MapBox(x, scale, dx, dy);
      assert all[..|s| - 1] == MapAll(init, scale, dx, dy);
      ScaleInvariant(init, scale, dx, dy);
      var r := Kept(init);
      forall k | 0 <= k < |r| ensures Hits(MapAll(r, scale, dx, dy)[k], y) <==> Hits(r[k], x) {
        HitsMapped(r[k], x, scale, dx, dy);
      }
      assert Blocked(MapAll(r, scale, dx, dy), y) <==> Blocked(r, x) by {
        if Blocked(r, x) {
          var k :| 0 <= k < |r| && Hits(r[k], x);
          assert Hits(MapAll(r, scale, dx, dy)[k], y);
        }
      }
      assert MapAll(r + [x], scale, dx, dy) == MapAll(r, scale, dx, dy) + [y];
    }
  }

  // ---- order of anchors -----------------------------------------------------

  lemma Members(s: seq<Detection>, t: seq<Detection>)
    requires multiset(s) == multiset(t)
    ensures |s| == |t| && forall x :: x in s <==> x in t
  {
    assert |multiset(s)| == |s| && |multiset(t)| == |t|;
    forall x ensures x in s <==> x in t {
      assert x in multiset(s) <==> x in multiset(t);
    }
  }

  lemma RestMultiset(s: seq<Detection>)
    requires s != []
    ensures multiset(s[1..]) == multiset(s) - multiset{s[0]}
  {
    assert s == [s[0]] + s[1..];
  }

  lemma SameHead(s: seq<Detection>, t: seq<Detection>)
    requires |s| == |t| && (forall x :: x in s <==> x in t)
    requires Descending(s) && Descending(t) && DistinctConfidences(s) && s != []
    ensures s[0] == t[0]
  {
    var x, y := s[0], t[0];
    assert x in t && y in s;
    var k :| 0 <= k < |s| && s[k] == y;
    assert y.confidence >= x.confidence;
  }

  /** With distinct confidences there is only one sorted order. */
  lemma {:induction false} SortedOrderUnique(s: seq<Detection>, t: seq<Detection>)
    requires multiset(s) == multiset(t) && Descending(s) && Descending(t) && DistinctConfidences(s)
    ensures s == t
  {
    Members(s, t);
    if s != [] {
      SameHead(s, t);
      RestMultiset(s);
      RestMultiset(t);
      SortedOrderUnique(s[1..], t[1..]);
      assert s == [s[0]] + s[1..] && t == [t[0]] + t[1..];
    }
  }

  lemma SortedDistinct(s: seq<Detection>, t: seq<Detection>)
    requires multiset(s) == multiset(t) && DistinctConfidences(s)
    ensures DistinctConfidences(t)
  {
    forall j, k | 0 <= j < k < |t| ensures t[j].confidence != t[k].confidence {
      TwiceInMultiset(s, t, j, k);
    }
  }

  lemma TwiceInMultiset(s: seq<Detection>, t: seq<Detection>, j: nat, k: nat)
    requires multiset(s) == multiset(t) && DistinctConfidences(s) && j < k < |t|
    ensures t[j].confidence != t[k].confidence
  {
    Members(s, t);
    var x, y := t[j], t[k];
    assert x in t && y in t;
    if x == y {
      assert t == t[..j] + [x] + t[j + 1..k] + [y] + t[k + 1..];
      assert multiset(t)[x] >= 2;
      OnceOnly(s, x);
    } else {
      var a :| 0 <= a < |s| && s[a] == x;
      var b :| 0 <= b < |s| && s[b] == y;
    }
  }

  lemma {:induction false} OnceOnly(s: seq<Detection>, x: Detection)
    requires DistinctConfidences(s)
    ensures multiset(s)[x] <= 1
  {
    if s != [] {
      var init, y := s[..|s| - 1], s[|s| - 1];
      assert s == init + [y];
      OnceOnly(init, x);
      if x == y {
        assert x !in init;
        assert multiset(init)[x] == 0;
      }
    }
  }

  /** When confidences are pairwise distinct, the result does not depend on the order of the anchors,
      nor on the sorting algorithm. */
  lemma AnchorOrderIrrelevant(a: seq<Detection>, b: seq<Detection>, sortedA: seq<Detection>, sortedB: seq<Detection>)
    requires multiset(a) == multiset(b) && DistinctConfidences(a) && Sorts(a, sortedA) && Sorts(b, sortedB)
    ensures sortedA == sortedB && Chosen(sortedA, |sortedA|) == Chosen(sortedB, |sortedB|)
  {
    SortedDistinct(a, sortedA);
    SortedOrderUnique(sortedA, sortedB);
  }
}
