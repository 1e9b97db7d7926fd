/** The geometry a frame goes through: ingest's resize, the detector's letterbox, and the mapping of
    its boxes back to the frame. Scales are exact reals. */
module Letterbox {
  import opened Geometry
  import Nms
  import SharedRing

  const INPUT_SIZE: nat := 640

  /** Width and height in pixels. */
  datatype Size = Size(w: nat, h: nat)

  ghost predicate Sized(s: Size) { s.w >= 1 && s.h >= 1 }

  /** The uniform scale that makes the larger side 640. */
  function FitScale(s: Size): (r: real)
    requires Sized(s)
    ensures r > 0.0
  {
    Min(640.0 / s.w as real, 640.0 / s.h as real)
  }

  function Scaled(n: nat, r: real): int { Round(n as real * r) }

  // ---- ingest ---------------------------------------------------------------

  /** The frame size ingest publishes for a camera size: scaled up or down to fit 640 x 640. */
  function Ingested(s: Size): (int, int)
    requires Sized(s)
  {
    (Scaled(s.w, FitScale(s)), Scaled(s.h, FitScale(s)))
  }

  lemma ScaleOfSide(n: nat)
    requires n >= 1
    ensures n as real * (640.0 / n as real) == 640.0
  {}

  lemma ProductOrder(x: real, a: real, b: real)
    requires x >= 0.0 && a <= b
    ensures x * a <= x * b
  {}

  lemma SideFits(n: nat, r: real)
    requires n >= 1 && 0.0 < r <= 640.0 / n as real
    ensures 0.0 <= n as real * r <= 640.0 && 0 <= Scaled(n, r) <= 640
    ensures r == 640.0 / n as real ==> Scaled(n, r) == 640
  {
    ProductOrder(n as real, 0.0, r);
    ProductOrder(n as real, r, 640.0 / n as real);
    ScaleOfSide(n);
    RoundMonotone(0.0, n as real * r);
    RoundMonotone(n as real * r, 640.0);
    RoundWhole(0);
    RoundWhole(640);
  }

  /** The published frame fits 640 x 640, touches it on one side, and fits a slot of the ring. */
  lemma IngestFits(s: Size)
    requires Sized(s)
    ensures var (w, h) := Ingested(s);
      0 <= w <= 640 && 0 <= h <= 640 && (w == 640 || h == 640) && w * h * 3 <= SharedRing.SLOT_BYTES
  {
    SideFits(s.w, FitScale(s));
    SideFits(s.h, FitScale(s));
    var (w, h) := Ingested(s);
    assert w * h <= 640 * 640 by {
      assert w * h <= w * 640;
    }
  }

  /** A resize to an empty image fails, and then nothing is published; that happens exactly to
      cameras more than 1280 times as long as wide, or as wide as long. */
  lemma IngestedIsNonEmptyIff(s: Size)
    requires Sized(s)
    ensures var (w, h) := Ingested(s); (w >= 1 && h >= 1) <==> s.w <= 1280 * s.h && s.h <= 1280 * s.w
  {
    SideNonEmpty(s.w, s.h);
    SideNonEmpty(s.h, s.w);
  }

  /** Side `n` next to side `m`. */
  lemma SideNonEmpty(n: nat, m: nat)
    requires n >= 1 && m >= 1
    ensures Scaled(n, Min(640.0 / n as real, 640.0 / m as real)) >= 1 <==> m <= 1280 * n
    ensures Min(640.0 / n as real, 640.0 / m as real) == Min(640.0 / m as real, 640.0 / n as real)
  {
    var a, b := n as real, m as real;
    ScaleOfSide(n);
    if n >= m {
      QuotientOrder(b, a);
      RoundWhole(640);
    } else {
      QuotientOrder(a, b);
      HalfAtLeast(a, b);
    }
  }

  lemma QuotientOrder(a: real, b: real)
    requires 0.0 < a <= b
    ensures 640.0 / b <= 640.0 / a
  {}

  lemma HalfAtLeast(a: real, b: real)
    requires a > 0.0 && b > 0.0
    ensures a * (640.0 / b) >= 0.5 <==> b <= 1280.0 * a
  {
    var x := a * (640.0 / b);
    assert x * b == 640.0 * a by {
      assert (640.0 / b) * b == 640.0;
    }
    if x >= 0.5 {
      assert x * b >= 0.5 * b;
    }
    if x < 0.5 {
      assert x * b < 0.5 * b;
    }
  }

  // ---- preprocess and postprocess -------------------------------------------

  /** The detector's transform: a scale, the resized size, and the borders around it. */
  datatype Frame = Frame(r: real, w: int, h: int, left: int, right: int, top: int, bottom: int)

  /** Never upscales. */
  function Shrink(s: Size): (r: real)
    requires Sized(s)
    ensures 0.0 < r <= 1.0
  {
    Min(1.0, FitScale(s))
  }

  /** `preprocess`: no resize when the size stays the same, no border on a full side. */
  function Preprocessed(s: Size): Frame
    requires Sized(s)
  {
    var r := Shrink(s);
    var w, h := Scaled(s.w, r), Scaled(s.h, r);
    if w < INPUT_SIZE || h < INPUT_SIZE then
      var dw, dh := INPUT_SIZE - w, INPUT_SIZE - h;
      Frame(r, w, h, dw / 2, dw - dw / 2, dh / 2, dh - dh / 2)
    else Frame(r, w, h, 0, 0, 0, 0)
  }

  /** The padding `postprocess` works out again on its own. */
  function PadOf(n: nat, r: real): int { (INPUT_SIZE - Scaled(n, r)) / 2 }

  /** The borders fill up exactly 640 on each side, and are the ones `postprocess` removes. */
  lemma PaddingTotals(s: Size)
    requires Sized(s)
    ensures var f := Preprocessed(s);
      && 0 <= f.w <= 640 && 0 <= f.h <= 640
      && f.left + f.w + f.right == 640 && f.top + f.h + f.bottom == 640
      && 0 <= f.left <= f.right <= f.left + 1 && 0 <= f.top <= f.bottom <= f.top + 1
      && f.left == PadOf(s.w, f.r) && f.top == PadOf(s.h, f.r)
  {
    hide Round;
    SideFits(s.w, Shrink(s));
    SideFits(s.h, Shrink(s));
  }

  /** Frames that already fit, as every frame from ingest does, keep their pixels: scale 1. */
  lemma FittingFramesUnscaled(s: Size)
    requires Sized(s) && s.w <= 640 && s.h <= 640
    ensures var f := Preprocessed(s); f.r == 1.0 && f.w == s.w && f.h == s.h
  {
    QuotientOrder(s.w as real, 640.0);
    QuotientOrder(s.h as real, 640.0);
    RoundWhole(s.w);
    RoundWhole(s.h);
  }

  lemma IngestNeverRescaled(s: Size)
    requires Sized(s) && Ingested(s).0 >= 1 && Ingested(s).1 >= 1
    ensures var t := Size(Ingested(s).0, Ingested(s).1);
      Preprocessed(t).r == 1.0 && Preprocessed(t).w == t.w && Preprocessed(t).h == t.h
  {
    hide Preprocessed, Ingested;
    IngestFits(s);
    FittingFramesUnscaled(Size(Ingested(s).0, Ingested(s).1));
  }

  function Clamp(x: int, lo: int, hi: int): int {
    if x < lo then lo else if x > hi then hi else x
  }

  /** One coordinate back into a frame of `size` pixels. */
  function Unmapped(x: real, pad: int, r: real, size: nat): int
    requires r > 0.0
  {
    Clamp(Round((x - pad as real) / r), 0, size - 1)
  }

  function UnmappedBox(b: Box, s: Size): Box
    requires Sized(s)
  {
    var r := Shrink(s);
    var padX, padY := PadOf(s.w, r), PadOf(s.h, r);
    Box(Unmapped(b.x1, padX, r, s.w) as real, Unmapped(b.y1, padY, r, s.h) as real,
        Unmapped(b.x2, padX, r, s.w) as real, Unmapped(b.y2, padY, r, s.h) as real)
  }

  lemma BoxUnmapped(b: Box, s: Size)
    requires Sized(s)
    ensures var r := Shrink(s);
      var padX, padY := (INPUT_SIZE - Scaled(s.w, r)) / 2, (INPUT_SIZE - Scaled(s.h, r)) / 2;
      UnmappedBox(b, s) == Box(Clamp(Round((b.x1 - padX as real) / r), 0, s.w - 1) as real,
                               Clamp(Round((b.y1 - padY as real) / r), 0, s.h - 1) as real,
                               Clamp(Round((b.x2 - padX as real) / r), 0, s.w - 1) as real,
                               Clamp(Round((b.y2 - padY as real) / r), 0, s.h - 1) as real)
  {
    hide Round, Clamp, Shrink, Scaled;
  }

  /** `postprocess`: every detection's corners are rewritten in place. */
  method Postprocess(dets: array<Nms.Detection>, s: Size)
    requires Sized(s)
    modifies dets
    ensures forall k :: 0 <= k < dets.Length ==> dets[k] == old(dets[k]).(box := UnmappedBox(old(dets[k].box), s))
  {
    hide Round, Clamp, Shrink, Scaled, UnmappedBox;
    var r := Shrink(s);
    var newW, newH := Scaled(s.w, r), Scaled(s.h, r);
    var padX, padY := (INPUT_SIZE - newW) / 2, (INPUT_SIZE - newH) / 2;
    for i := 0 to dets.Length
      invariant forall k :: 0 <= k < i ==> dets[k] == old(dets[k]).(box := UnmappedBox(old(dets[k].box), s))
      invariant forall k :: i <= k < dets.Length ==> dets[k] == old(dets[k])
    {
      var b := dets[i].box;
      BoxUnmapped(b, s);
      var x1 := Clamp(Round((b.x1 - padX as real) / r), 0, s.w - 1);
      var y1 := Clamp(Round((b.y1 - padY as real) / r), 0, s.h - 1);
      var x2 := Clamp(Round((b.x2 - padX as real) / r), 0, s.w - 1);
      var y2 := Clamp(Round((b.y2 - padY as real) / r), 0, s.h - 1);
      dets[i] := dets[i].(box := Box(x1 as real, y1 as real, x2 as real, y2 as real));
    }
  }

  // ---- round trip -----------------------------------------------------------

  /** Where a pixel of the frame lands in the detector's input, to the nearest pixel. */
  function Mapped(x: int, pad: int, r: real): int { Round(Landing(x, pad, r)) }

  function Landing(x: int, pad: int, r: real): real { r * x as real + pad as real }

  lemma QuotientMonotone(x: real, y: real, r: real)
    requires x <= y && r > 0.0
    ensures x / r <= y / r
  {}

  lemma QuotientShift(x: real, e: real, r: real)
    requires r > 0.0
    ensures (r * x + e) / r == x + e / r
  {
    assert (r * x + e) / r == (r * x) / r + e / r;
  }

  lemma HalfOver(r: real)
    requires r > 0.0
    ensures 0.5 / r == 1.0 / (2.0 * r) && (-0.5) / r == -(0.5 / r)
  {}

  /** Removing the border and the scale lands within half an input pixel of the start. */
  lemma InverseNear(x: int, pad: int, r: real, there: real)
    requires r > 0.0 && -0.5 <= there - Landing(x, pad, r) <= 0.5
    ensures -(0.5 / r) <= (there - pad as real) / r - x as real <= 0.5 / r
  {
    var e := there - pad as real - r * x as real;
    QuotientShift(x as real, e, r);
    assert there - pad as real == r * x as real + e;
    QuotientMonotone(-0.5, e, r);
    QuotientMonotone(e, 0.5, r);
    HalfOver(r);
  }

  /** From the frame to the detector's input and back, a pixel moves by at most 1/(2r) + 1/2, and
      stays inside the frame. */
  lemma RoundTripError(x: int, pad: int, r: real, size: nat)
    requires 0 <= x < size && r > 0.0
    ensures var back := Unmapped(Mapped(x, pad, r) as real, pad, r, size);
      0 <= back < size && -(1.0 / (2.0 * r) + 0.5) <= (back - x) as real <= 1.0 / (2.0 * r) + 0.5
  {
    hide Round, Clamp, Landing;
    var there := Mapped(x, pad, r) as real;
    RoundNear(Landing(x, pad, r));
    InverseNear(x, pad, r, there);
    RoundNear((there - pad as real) / r);
    HalfOver(r);
    ClampNear(Round((there - pad as real) / r), x, size, 0.5 / r + 0.5);
  }

  lemma ClampNear(y: int, x: int, size: nat, d: real)
    requires 0 <= x < size && -d <= (y - x) as real <= d
    ensures -d <= (Clamp(y, 0, size - 1) - x) as real <= d && 0 <= Clamp(y, 0, size - 1) < size
  {}

  /** At scale 1, which is every frame from ingest, the mapping is inverted exactly. */
  lemma ExactAtScaleOne(x: int, pad: int, size: nat)
    requires 0 <= x < size
    ensures Unmapped(Mapped(x, pad, 1.0) as real, pad, 1.0, size) == x
  {
    RoundWhole(x + pad);
    RoundWhole(x);
  }

  /** Mapped boxes lie inside the frame with their corners in order. */
  lemma BoxesStayInFrame(b: Box, s: Size)
    requires Sized(s)
    ensures var m := UnmappedBox(b, s);
      && 0.0 <= m.x1 <= (s.w - 1) as real && 0.0 <= m.x2 <= (s.w - 1) as real
      && 0.0 <= m.y1 <= (s.h - 1) as real && 0.0 <= m.y2 <= (s.h - 1) as real
      && (WellFormed(b) ==> WellFormed(m))
  {
    hide Round;
    var r := Shrink(s);
    if WellFormed(b) {
      UnmappedMonotone(b.x1, b.x2, PadOf(s.w, r), r, s.w);
      UnmappedMonotone(b.y1, b.y2, PadOf(s.h, r), r, s.h);
    }
  }

  lemma UnmappedMonotone(x: real, y: real, pad: int, r: real, size: nat)
    requires x <= y && r > 0.0 && size >= 1
    ensures Unmapped(x, pad, r, size) <= Unmapped(y, pad, r, size)
  {
    hide Round;
    QuotientMonotone(x - pad as real, y - pad as real, r);
    RoundMonotone((x - pad as real) / r, (y - pad as real) / r);
  }

  /** Where a box of whole pixels lands in the detector's input. */
  function MappedBox(x1: int, y1: int, x2: int, y2: int, f: Frame): Box {
    Box(Mapped(x1, f.left, f.r) as real, Mapped(y1, f.top, f.r) as real,
        Mapped(x2, f.left, f.r) as real, Mapped(y2, f.top, f.r) as real)
  }

  ghost predicate Inside(x: int, y: int, s: Size) { 0 <= x < s.w && 0 <= y < s.h }

  ghost predicate Near(back: real, x: int, d: real) { -d <= back - x as real <= d }

  /** From any frame to the detector's input and back, each of the four sides of a box moves by at most
      1/(2r) + 1/2. */
  lemma BoxRoundTrip(s: Size, x1: int, y1: int, x2: int, y2: int)
    requires Sized(s) && Inside(x1, y1, s) && Inside(x2, y2, s)
    ensures var f := Preprocessed(s);
      var back, d := UnmappedBox(MappedBox(x1, y1, x2, y2, f), s), 1.0 / (2.0 * f.r) + 0.5;
      Near(back.x1, x1, d) && Near(back.y1, y1, d) && Near(back.x2, x2, d) && Near(back.y2, y2, d)
  {
    PaddingTotals(s);
    ScaleAgrees(s);
    var f := Preprocessed(s);
    hide Preprocessed, Mapped, Unmapped, Shrink;
    RoundTripError(x1, f.left, f.r, s.w);
    RoundTripError(y1, f.top, f.r, s.h);
    RoundTripError(x2, f.left, f.r, s.w);
    RoundTripError(y2, f.top, f.r, s.h);
  }

  /** A box inside a frame published by ingest comes back exactly: whatever the camera's size. */
  lemma IngestRoundTrip(s: Size, x1: int, y1: int, x2: int, y2: int)
    requires Sized(s) && Ingested(s).0 >= 1 && Ingested(s).1 >= 1
    requires var t := Size(Ingested(s).0, Ingested(s).1); Inside(x1, y1, t) && Inside(x2, y2, t)
    ensures var t := Size(Ingested(s).0, Ingested(s).1);
      UnmappedBox(MappedBox(x1, y1, x2, y2, Preprocessed(t)), t) == Box(x1 as real, y1 as real, x2 as real, y2 as real)
  {
    var t := Size(Ingested(s).0, Ingested(s).1);
    hide Ingested, Mapped, Round;
    IngestNeverRescaled(s);
    PaddingTotals(t);
    var f := Preprocessed(t);
    hide Preprocessed;
    assert f.r == 1.0;
    ScaleAgrees(t);
    ExactAtScaleOne(x1, f.left, t.w);
    ExactAtScaleOne(y1, f.top, t.h);
    ExactAtScaleOne(x2, f.left, t.w);
    ExactAtScaleOne(y2, f.top, t.h);
  }

  /** A frame too large for the input is scaled down no further than needed: it fills one side. */
  lemma LargeFramesFill(s: Size)
    requires Sized(s) && (s.w > 640 || s.h > 640)
    ensures Preprocessed(s).w == 640 || Preprocessed(s).h == 640
  {
    QuotientOrder(640.0, if s.w >= s.h then s.w as real else s.h as real);
    SideFits(s.w, FitScale(s));
    SideFits(s.h, FitScale(s));
  }

  lemma ScaleAgrees(s: Size)
    requires Sized(s)
    ensures Preprocessed(s).r == Shrink(s)
  {}
}
