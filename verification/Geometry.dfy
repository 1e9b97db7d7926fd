/** Axis-aligned boxes and their intersection over union: `_ious` of the tracker and `iou` of the
    detector compute the same formula. */
module Geometry {

  /** Corners, top-left then bottom-right. */
  datatype Box = Box(x1: real, y1: real, x2: real, y2: real)

  ghost predicate WellFormed(b: Box) {
    b.x1 <= b.x2 && b.y1 <= b.y2
  }

  function Max(a: real, b: real): real { if a < b then b else a }
  function Min(a: real, b: real): real { if a < b then a else b }

  function Area(b: Box): real { (b.x2 - b.x1) * (b.y2 - b.y1) }

  /** The length two intervals share. */
  function Shared(lo1: real, hi1: real, lo2: real, hi2: real): real {
    Max(0.0, Min(hi1, hi2) - Max(lo1, lo2))
  }

  function OverlapWidth(a: Box, b: Box): real { Shared(a.x1, a.x2, b.x1, b.x2) }
  function OverlapHeight(a: Box, b: Box): real { Shared(a.y1, a.y2, b.y1, b.y2) }

  function Inter(a: Box, b: Box): real { OverlapWidth(a, b) * OverlapHeight(a, b) }

  function Union(a: Box, b: Box): real { Area(a) + Area(b) - Inter(a, b) }

  function Iou(a: Box, b: Box): real {
    if Union(a, b) > 0.0 then Inter(a, b) / Union(a, b) else 0.0
  }

  lemma ProductMonotone(a: real, b: real, c: real, d: real)
    requires 0.0 <= a <= c && 0.0 <= b <= d
    ensures 0.0 <= a * b <= c * d
  {
    assert a * b <= c * b;
    assert c * b <= c * d;
  }

  lemma QuotientInUnit(x: real, y: real)
    requires 0.0 <= x <= y && y > 0.0
    ensures 0.0 <= x / y <= 1.0
  {}

  lemma IouSymmetric(a: Box, b: Box)
    ensures Iou(a, b) == Iou(b, a)
  {}

  lemma IouInUnit(a: Box, b: Box)
    requires WellFormed(a) && WellFormed(b)
    ensures 0.0 <= Iou(a, b) <= 1.0
  {
    SharedBound(a.x1, a.x2, b.x1, b.x2);
    SharedBound(a.y1, a.y2, b.y1, b.y2);
    hide Shared;
    InterBound(OverlapWidth(a, b), OverlapHeight(a, b), a);
    InterBound(OverlapWidth(a, b), OverlapHeight(a, b), b);
    hide Inter, Area;
    UnitRatio(Inter(a, b), Area(a), Area(b));
  }

  lemma InterBound(w: real, h: real, b: Box)
    requires 0.0 <= w <= b.x2 - b.x1 && 0.0 <= h <= b.y2 - b.y1
    ensures 0.0 <= w * h <= Area(b)
  {
    ProductMonotone(w, h, b.x2 - b.x1, b.y2 - b.y1);
  }

  lemma SharedBound(lo1: real, hi1: real, lo2: real, hi2: real)
    requires lo1 <= hi1 && lo2 <= hi2
    ensures 0.0 <= Shared(lo1, hi1, lo2, hi2) <= hi1 - lo1
    ensures Shared(lo1, hi1, lo2, hi2) <= hi2 - lo2
  {}

  lemma UnitRatio(inter: real, areaA: real, areaB: real)
    requires 0.0 <= inter <= areaA && inter <= areaB
    ensures var u := areaA + areaB - inter; u > 0.0 ==> 0.0 <= inter / u <= 1.0
  {
    var u := areaA + areaB - inter;
    if u > 0.0 {
      QuotientInUnit(inter, u);
    }
  }

  /** A box of positive area overlaps itself completely. */
  lemma IouSelf(a: Box)
    requires a.x1 < a.x2 && a.y1 < a.y2
    ensures Iou(a, a) == 1.0
  {
    var w, h := a.x2 - a.x1, a.y2 - a.y1;
    assert OverlapWidth(a, a) == w && OverlapHeight(a, a) == h;
    assert w * h > 0.0;
    assert Inter(a, a) == Union(a, a);
  }

  ghost predicate InBox(b: Box, x: real, y: real) { b.x1 <= x <= b.x2 && b.y1 <= y <= b.y2 }

  /** The box `c` is what two boxes have in common, point by point. */
  ghost predicate IsCommon(a: Box, b: Box, c: Box) {
    WellFormed(c) && forall x, y :: InBox(c, x, y) <==> InBox(a, x, y) && InBox(b, x, y)
  }

  lemma CommonCorners(a: Box, b: Box, c: Box)
    requires IsCommon(a, b, c)
    ensures c.x1 == Max(a.x1, b.x1) && c.y1 == Max(a.y1, b.y1) && c.x2 == Min(a.x2, b.x2) && c.y2 == Min(a.y2, b.y2)
  {
    assert InBox(c, c.x1, c.y1) && InBox(c, c.x2, c.y2);
    assert InBox(a, c.x1, c.y1) && InBox(b, c.x1, c.y1) && InBox(a, c.x2, c.y2) && InBox(b, c.x2, c.y2);
    var x1, y1, x2, y2 := Max(a.x1, b.x1), Max(a.y1, b.y1), Min(a.x2, b.x2), Min(a.y2, b.y2);
    assert InBox(a, x1, y1) && InBox(b, x1, y1) && InBox(a, x2, y2) && InBox(b, x2, y2);
    assert InBox(c, x1, y1) && InBox(c, x2, y2);
  }

  lemma CommonIsInter(a: Box, b: Box, c: Box)
    requires IsCommon(a, b, c)
    ensures Inter(a, b) == Area(c)
  {
    CommonCorners(a, b, c);
    assert OverlapWidth(a, b) == c.x2 - c.x1 && OverlapHeight(a, b) == c.y2 - c.y1;
  }

  /** Intersection over union, by areas: what the boxes share, over what they cover together. */
  lemma IouIsSharedOverCovered(a: Box, b: Box, c: Box)
    requires IsCommon(a, b, c)
    ensures var shared := (c.x2 - c.x1) * (c.y2 - c.y1);
      var covered := (a.x2 - a.x1) * (a.y2 - a.y1) + (b.x2 - b.x1) * (b.y2 - b.y1) - shared;
      Iou(a, b) == if covered > 0.0 then shared / covered else 0.0
  {
    hide IsCommon, Inter;
    CommonIsInter(a, b, c);
  }

  /** Boxes without a common point do not overlap at all. */
  lemma IouOfApart(a: Box, b: Box)
    requires WellFormed(a) && WellFormed(b) && forall x, y :: !(InBox(a, x, y) && InBox(b, x, y))
    ensures Iou(a, b) == 0.0
  {
    var x, y := Max(a.x1, b.x1), Max(a.y1, b.y1);
    assert !(InBox(a, x, y) && InBox(b, x, y));
    assert OverlapWidth(a, b) == 0.0 || OverlapHeight(a, b) == 0.0;
    hide OverlapWidth, OverlapHeight, Area;
    assert Inter(a, b) == 0.0;
  }

  function Mapped(a: Box, scale: real, dx: real, dy: real): Box {
    Box(Affine(scale, a.x1, dx), Affine(scale, a.y1, dy), Affine(scale, a.x2, dx), Affine(scale, a.y2, dy))
  }

  lemma ScaledDifference(scale: real, u: real, v: real, d: real)
    ensures (scale * u + d) - (scale * v + d) == scale * (u - v)
  {}

  lemma ScaledOrder(scale: real, u: real, v: real)
    requires scale > 0.0
    ensures u < v <==> scale * u < scale * v
    ensures u <= v <==> scale * u <= scale * v
  {
    if u < v {
      assert scale * (v - u) > 0.0;
    } else if v < u {
      assert scale * (u - v) > 0.0;
    }
  }

  function Affine(scale: real, u: real, d: real): real { scale * u + d }

  lemma ScaledOverlap(scale: real, d: real, lo1: real, hi1: real, lo2: real, hi2: real)
    requires scale > 0.0
    ensures Shared(Affine(scale, lo1, d), Affine(scale, hi1, d), Affine(scale, lo2, d), Affine(scale, hi2, d))
         == scale * Shared(lo1, hi1, lo2, hi2)
  {
    AffineOrder(scale, d, hi1, hi2);
    AffineOrder(scale, d, lo1, lo2);
    hide Affine;
    var hi, lo := Min(hi1, hi2), Max(lo1, lo2);
    var hi', lo' := Affine(scale, hi, d), Affine(scale, lo, d);
    assert Min(Affine(scale, hi1, d), Affine(scale, hi2, d)) == hi';
    assert Max(Affine(scale, lo1, d), Affine(scale, lo2, d)) == lo';
    AffineLength(scale, d, hi, lo);
  }

  lemma AffineOrder(scale: real, d: real, u: real, v: real)
    requires scale > 0.0
    ensures Affine(scale, u, d) < Affine(scale, v, d) <==> u < v
  {
    ScaledOrder(scale, u, v);
  }

  lemma AffineLength(scale: real, d: real, hi: real, lo: real)
    requires scale > 0.0
    ensures Max(0.0, Affine(scale, hi, d) - Affine(scale, lo, d)) == scale * Max(0.0, hi - lo)
  {
    ScaledDifference(scale, hi, lo, d);
    ScaledOrder(scale, 0.0, hi - lo);
    assert scale * 0.0 == 0.0;
  }

  lemma ScaledProduct(scale: real, u: real, v: real)
    ensures (scale * u) * (scale * v) == scale * (scale * (u * v))
  {}

  lemma ScaledQuotient(scale: real, x: real, y: real)
    requires scale > 0.0 && y > 0.0
    ensures scale * y > 0.0 && (scale * x) / (scale * y) == x / y
  {
    ScaledOrder(scale, 0.0, y);
  }

  lemma ScaledSides(a: Box, b: Box, scale: real, dx: real, dy: real)
    requires scale > 0.0
    ensures OverlapWidth(Mapped(a, scale, dx, dy), Mapped(b, scale, dx, dy)) == scale * OverlapWidth(a, b)
    ensures OverlapHeight(Mapped(a, scale, dx, dy), Mapped(b, scale, dx, dy)) == scale * OverlapHeight(a, b)
  {
    hide Shared, Affine;
    ScaledOverlap(scale, dx, a.x1, a.x2, b.x1, b.x2);
    ScaledOverlap(scale, dy, a.y1, a.y2, b.y1, b.y2);
  }

  lemma ScaledInter(a: Box, b: Box, scale: real, dx: real, dy: real)
    requires scale > 0.0
    ensures Inter(Mapped(a, scale, dx, dy), Mapped(b, scale, dx, dy)) == scale * (scale * Inter(a, b))
  {
    hide OverlapWidth, OverlapHeight, Mapped;
    ScaledSides(a, b, scale, dx, dy);
    ScaledProduct(scale, OverlapWidth(a, b), OverlapHeight(a, b));
  }

  lemma ScaledArea(a: Box, scale: real, dx: real, dy: real)
    ensures Area(Mapped(a, scale, dx, dy)) == scale * (scale * Area(a))
  {
    ScaledDifference(scale, a.x2, a.x1, dx);
    ScaledDifference(scale, a.y2, a.y1, dy);
    ScaledProduct(scale, a.x2 - a.x1, a.y2 - a.y1);
  }

  lemma ScaledSum(scale: real, a: real, b: real, c: real)
    ensures scale * (scale * a) + scale * (scale * b) - scale * (scale * c) == scale * (scale * (a + b - c))
  {}

  /** The overlap of two boxes is the same before and after one uniform scaling and shift, as
      between letterboxed and original coordinates. */
  lemma IouInvariant(a: Box, b: Box, scale: real, dx: real, dy: real)
    requires scale > 0.0
    ensures Iou(Mapped(a, scale, dx, dy), Mapped(b, scale, dx, dy)) == Iou(a, b)
  {
    hide Inter, Area, Mapped;
    ScaledInter(a, b, scale, dx, dy);
    ScaledArea(a, scale, dx, dy);
    ScaledArea(b, scale, dx, dy);
    var u := Union(a, b);
    ScaledSum(scale, Area(a), Area(b), Inter(a, b));
    ScaledOrder(scale, 0.0, u);
    ScaledOrder(scale, 0.0, scale * u);
    if u > 0.0 {
      ScaledQuotient(scale, Inter(a, b), u);
      ScaledQuotient(scale, scale * Inter(a, b), scale * u);
    }
  }

  // ---- whole pixels ---------------------------------------------------------

  /** `std::round` and `std::lround`: to the nearest integer, halves away from zero. */
  function Round(x: real): int {
    if x >= 0.0 then (x + 0.5).Floor else -((-x + 0.5).Floor)
  }

  lemma RoundMonotone(x: real, y: real)
    requires x <= y
    ensures Round(x) <= Round(y)
  {}

  /** Halves go away from zero, on both sides. */
  lemma RoundHalves(n: nat)
    ensures Round(n as real + 0.5) == n + 1 && Round(-(n as real + 0.5)) == -(n + 1)
  {}

  lemma RoundNear(x: real)
    ensures -0.5 <= Round(x) as real - x <= 0.5
  {}

  lemma RoundWhole(n: int)
    ensures Round(n as real) == n
  {}
}
