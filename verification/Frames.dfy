/** How one machine's coordinates lie on the shared desk (`geserdesk-server/src/desk.rs`).

    The stretch of an axis is the exact ratio `want / have` of two positive integers. */
module Frames {
  import opened Wrappers
  import opened Geometry

  // ---- one axis ------------------------------------------------------------------

  /** A stretch by `want / have`. */
  datatype Scale = Scale(want: int, have: int) {
    predicate Valid() {
      want > 0 && have > 0
    }
  }

  const UNIT: Scale := Scale(1, 1)

  /** `a / d` rounded to the nearest integer, halves away from zero (`f64::round`). */
  function RoundDiv(a: int, d: int): int
    requires d > 0
  {
    if a >= 0 then (2 * a + d) / (2 * d) else -((-2 * a + d) / (2 * d))
  }

  function FloorDiv(a: int, d: int): int
    requires d > 0
  {
    a / d
  }

  function CeilDiv(a: int, d: int): int
    requires d > 0
  {
    -((-a) / d)
  }

  function Stretched(v: int, s: Scale): int
    requires s.Valid()
  {
    RoundDiv(v * s.want, s.have)
  }

  function Unstretched(w: int, s: Scale): int
    requires s.Valid()
  {
    FloorDiv(w * s.have, s.want)
  }

  lemma FloorAtLeast(x: int, n: int, a: int)
    requires n > 0
    ensures FloorDiv(x, n) >= a <==> x >= a * n
  {
    var q := x / n;
    assert x == q * n + x % n;
    if q >= a {
      assert q * n >= a * n;
    } else {
      assert (q + 1) * n <= a * n;
    }
  }

  lemma CeilAtMost(y: int, d: int, w: int)
    requires d > 0
    ensures CeilDiv(y, d) <= w <==> y <= w * d
  {
    FloorAtLeast(-y, d, -w);
    assert (-w) * d == -(w * d);
  }

  lemma RoundIsNear(a: int, d: int)
    requires d > 0
    ensures 2 * a - d <= 2 * d * RoundDiv(a, d) <= 2 * a + d
  {
    var b := if a >= 0 then a else -a;
    var q := (2 * b + d) / (2 * d);
    assert 2 * b + d == q * (2 * d) + (2 * b + d) % (2 * d);
    assert 2 * d * (-q) == -(2 * d * q);
  }

  /** Halves go away from zero, and both signs alike. */
  lemma RoundsHalvesAway(a: int, d: int, q: int)
    requires d > 0 && q >= 0
    ensures 2 * a == 2 * (q * d) + d ==> RoundDiv(a, d) == q + 1
    ensures RoundDiv(-a, d) == -RoundDiv(a, d)
  {
    if 2 * a == 2 * (q * d) + d {
      TwiceProduct(q + 1, d);
      FloorAtLeast(2 * a + d, 2 * d, q + 1);
      TwiceProduct(q + 2, d);
      FloorAtLeast(2 * a + d, 2 * d, q + 2);
      assert q * d >= 0 && (q + 1) * d == q * d + d && (q + 2) * d == q * d + 2 * d;
    }
    if a == 0 {
      FloorAtLeast(d, 2 * d, 0);
      FloorAtLeast(d, 2 * d, 1);
    }
  }

  lemma RoundMonotone(a: int, b: int, d: int)
    requires d > 0 && a <= b
    ensures RoundDiv(a, d) <= RoundDiv(b, d)
  {
    if a >= 0 {
      DivMonotone(2 * a + d, 2 * b + d, 2 * d);
    } else if b < 0 {
      DivMonotone(-2 * b + d, -2 * a + d, 2 * d);
    } else {
      FloorAtLeast(2 * b + d, 2 * d, 0);
      FloorAtLeast(-2 * a + d, 2 * d, 0);
    }
  }

  lemma DivMonotone(x: int, y: int, n: int)
    requires n > 0 && x <= y
    ensures x / n <= y / n
  {
    FloorAtLeast(x, n, x / n);
    FloorAtLeast(y, n, x / n);
  }

  lemma RoundExact(q: int, d: int)
    requires d > 0
    ensures RoundDiv(q * d, d) == q
  {
    if q * d >= 0 {
      FloorAtLeast(2 * (q * d) + d, 2 * d, q);
      FloorAtLeast(2 * (q * d) + d, 2 * d, q + 1);
      TwiceProduct(q, d);
      TwiceProduct(q + 1, d);
    } else {
      FloorAtLeast(-2 * (q * d) + d, 2 * d, -q);
      FloorAtLeast(-2 * (q * d) + d, 2 * d, -q + 1);
      TwiceProduct(-q, d);
      TwiceProduct(-q + 1, d);
    }
  }

  lemma TwiceProduct(q: int, d: int)
    ensures q * (2 * d) == 2 * (q * d) && (-q) * d == -(q * d) && (q - 1) * d == q * d - d
  {
  }

  /** Both directions keep the order of coordinates. */
  lemma AxisMonotone(v: int, w: int, s: Scale)
    requires s.Valid() && v <= w
    ensures Stretched(v, s) <= Stretched(w, s)
    ensures Unstretched(v, s) <= Unstretched(w, s)
  {
    assert v * s.want <= w * s.want;
    assert v * s.have <= w * s.have;
    RoundMonotone(v * s.want, w * s.want, s.have);
    DivMonotone(v * s.have, w * s.have, s.want);
  }

  /** The way back is exact about where a local coordinate begins on the desk: `w` is under
      `a` or beyond exactly when it is at or past `a * want / have` rounded up. */
  lemma UnstretchedReaches(w: int, a: int, s: Scale)
    requires s.Valid()
    ensures Unstretched(w, s) >= a <==> w >= CeilDiv(a * s.want, s.have)
  {
    FloorAtLeast(w * s.have, s.want, a);
    CeilAtMost(a * s.want, s.have, w);
  }

  /** A stretch then its inverse: the same coordinate or the one before it, and the same
      one when nothing is stretched. */
  lemma ThereAndBack(p: int, s: Scale)
    requires s.Valid() && s.want >= s.have
    ensures p - 1 <= Unstretched(Stretched(p, s), s) <= p
    ensures s.want == s.have ==> Unstretched(Stretched(p, s), s) == p
  {
    var a, n, d := p * s.want, s.want, s.have;
    var r := Stretched(p, s);
    RoundIsNear(a, d);
    assert 2 * d * r == 2 * (r * d);
    assert (p - 1) * n == a - n && (p + 1) * n == a + n;
    FloorAtLeast(r * d, n, p - 1);
    FloorAtLeast(r * d, n, p + 1);
    if n == d {
      RoundExact(p, d);
      FloorAtLeast(r * d, n, p);
    }
  }

  /** The inverse then the stretch never overshoots, and falls short by less than the scale
      and a half (both sides times `2 * have`). */
  lemma BackAndThere(w: int, s: Scale)
    requires s.Valid()
    ensures Stretched(Unstretched(w, s), s) <= w
    ensures 2 * s.have * (w - Stretched(Unstretched(w, s), s)) < 2 * s.want + s.have
  {
    NeverOvershoots(w, s);
    FallsShort(w, s.want, s.have, Unstretched(w, s), Stretched(Unstretched(w, s), s));
  }

  lemma NeverOvershoots(w: int, s: Scale)
    requires s.Valid()
    ensures Stretched(Unstretched(w, s), s) <= w
  {
    var q := Unstretched(w, s);
    FloorAtLeast(w * s.have, s.want, q);
    RoundMonotone(q * s.want, w * s.have, s.have);
    RoundExact(w, s.have);
  }

  lemma FallsShort(w: int, n: int, d: int, q: int, r: int)
    requires n > 0 && d > 0 && q == (w * d) / n && r == RoundDiv(q * n, d)
    ensures 2 * d * (w - r) < 2 * n + d
  {
    FloorAtLeast(w * d, n, q + 1);
    RoundIsNear(q * n, d);
    Spread(w, d, r, q, n);
  }

  lemma Spread(w: int, d: int, r: int, q: int, n: int)
    ensures 2 * d * (w - r) == 2 * (w * d) - 2 * d * r && (q + 1) * n == q * n + n
  {
  }

  // ---- the whole frame -------------------------------------------------------------

  const DEFAULT_SIZE: Size := Size(1920, 1080)

  datatype Frame = Frame(origin: Point, base: Point, sx: Scale, sy: Scale) {

    predicate Valid() {
      sx.Valid() && sy.Valid()
    }

    function ToDesk(p: Point): Point
      requires Valid()
    {
      Point(origin.x + base.x + Stretched(p.x - base.x, sx),
            origin.y + base.y + Stretched(p.y - base.y, sy))
    }

    function ToLocal(v: Point): Point
      requires Valid()
    {
      Point(base.x + Unstretched(v.x - origin.x - base.x, sx),
            base.y + Unstretched(v.y - origin.y - base.y, sy))
    }

    function DeskRect(m: Rect): Rect
      requires Valid()
    {
      var a := ToDesk(Point(m.x, m.y));
      var b := ToDesk(Point(m.RightEdge(), m.BottomEdge()));
      Rect(a.x, a.y, b.x - a.x, b.y - a.y)
    }
  }

  /** `want / have`, or 1 where either is not a size. */
  function Ratio(want: int, have: int): (s: Scale)
    ensures s.Valid()
  {
    if want > 0 && have > 0 then Scale(want, have) else UNIT
  }

  function NewFrame(origin: Point, bounds: Option<Rect>, size: Option<Size>): (f: Frame)
    ensures f.Valid()
  {
    var b := if bounds.Some? then bounds.value else Rect(0, 0, DEFAULT_SIZE.w, DEFAULT_SIZE.h);
    var sx := if size.Some? then Ratio(size.value.w, b.w) else UNIT;
    var sy := if size.Some? then Ratio(size.value.h, b.h) else UNIT;
    Frame(origin, Point(b.x, b.y), sx, sy)
  }

  /** The desk size of a machine: the one set, else the extent of its monitors. */
  function DeskSize(monitors: seq<Rect>, size: Option<Size>): Size {
    match (size, UnionAll(monitors))
    case (Some(s), _) => s
    case (None, Some(r)) => Size(r.w, r.h)
    case (None, None) => DEFAULT_SIZE
  }

  /** Where `a` begins on the desk, seen from the way back, is where its stretch puts it. */
  predicate Aligned(a: int, s: Scale)
    requires s.Valid()
  {
    CeilDiv(a * s.want, s.have) == Stretched(a, s)
  }

  /** Every desk coordinate is on the stretched span iff the coordinate under it is on the span. */
  ghost predicate SpansAgree(lo: int, hi: int, s: Scale)
    requires s.Valid()
  {
    forall w: int {:trigger Unstretched(w, s)} ::
      lo <= Unstretched(w, s) < hi <==> Stretched(lo, s) <= w < Stretched(hi, s)
  }

  /** One axis of "a desk point is on the monitor's desk rectangle iff its local point is on
      the monitor": for a span `[lo, hi)` both views agree on every desk coordinate exactly
      when both ends are aligned, or the span is empty in both. */
  lemma SpanAgreement(lo: int, hi: int, s: Scale)
    requires s.Valid()
    ensures SpansAgree(lo, hi, s) <==>
              || (Aligned(lo, s) && Aligned(hi, s))
              || (CeilDiv(lo * s.want, s.have) >= CeilDiv(hi * s.want, s.have) && Stretched(lo, s) >= Stretched(hi, s))
  {
    var cl, ch := CeilDiv(lo * s.want, s.have), CeilDiv(hi * s.want, s.have);
    var rl, rh := Stretched(lo, s), Stretched(hi, s);
    forall w: int
      ensures lo <= Unstretched(w, s) < hi <==> cl <= w < ch
    {
      UnstretchedReaches(w, lo, s);
      UnstretchedReaches(w, hi, s);
    }
    if SpansAgree(lo, hi, s) {
      ghost var probes := [Unstretched(cl, s), Unstretched(ch - 1, s), Unstretched(rl, s), Unstretched(rh - 1, s)];
    }
  }

  lemma UnitAligned(a: int)
    ensures Aligned(a, UNIT)
  {
    RoundExact(a, 1);
    CeilAtMost(a, 1, a);
    CeilAtMost(a, 1, a - 1);
  }

  lemma EndsAligned(s: Scale)
    requires s.Valid()
    ensures Stretched(0, s) == 0 && Aligned(0, s)
    ensures Stretched(s.have, s) == s.want && Aligned(s.have, s)
  {
    RoundExact(s.want, s.have);
    assert s.have * s.want == s.want * s.have;
    CeilAtMost(s.have * s.want, s.have, s.want);
    CeilAtMost(s.have * s.want, s.have, s.want - 1);
    assert (s.want - 1) * s.have == s.want * s.have - s.have;
  }

  /** A span's two views, by their ends: rounded on the way to the desk, rounded up on the way back. */
  lemma SpanEnds(w: int, lo: int, hi: int, s: Scale)
    requires s.Valid()
    ensures lo <= Unstretched(w, s) < hi <==> CeilDiv(lo * s.want, s.have) <= w < CeilDiv(hi * s.want, s.have)
    ensures Stretched(lo, s) <= CeilDiv(lo * s.want, s.have)
    ensures Stretched(hi, s) <= CeilDiv(hi * s.want, s.have) <= Stretched(hi, s) + 1
  {
    UnstretchedReaches(w, lo, s);
    UnstretchedReaches(w, hi, s);
    RoundOrCeil(lo * s.want, s.have);
    RoundOrCeil(hi * s.want, s.have);
  }

  lemma RoundOrCeil(a: int, d: int)
    requires d > 0
    ensures RoundDiv(a, d) <= CeilDiv(a, d) <= RoundDiv(a, d) + 1
  {
    var r := RoundDiv(a, d);
    RoundIsNear(a, d);
    Neighbours(r, d);
    CeilAtMost(a, d, r + 1);
    CeilAtMost(a, d, r - 1);
  }

  lemma Neighbours(r: int, d: int)
    ensures 2 * d * r == 2 * (r * d) && (r + 1) * d == r * d + d && (r - 1) * d == r * d - d
  {
  }

  // ---- one monitor on the desk ---------------------------------------------------------------

  /** All four edges of the monitor round alike both ways. */
  predicate EdgesAligned(f: Frame, m: Rect)
    requires f.Valid()
  {
    Aligned(m.x - f.base.x, f.sx) && Aligned(m.y - f.base.y, f.sy) && FarEdgesAligned(f, m)
  }

  /** The right and the bottom edge do. */
  predicate FarEdgesAligned(f: Frame, m: Rect)
    requires f.Valid()
  {
    Aligned(m.RightEdge() - f.base.x, f.sx) && Aligned(m.BottomEdge() - f.base.y, f.sy)
  }

  /** The frame stretches exactly this monitor, or not at all. */
  predicate FitsFrame(f: Frame, m: Rect) {
    && (f.sx == UNIT || (f.base.x == m.x && f.sx.have == m.w))
    && (f.sy == UNIT || (f.base.y == m.y && f.sy.have == m.h))
  }

  lemma PlainFits(origin: Point, monitors: seq<Rect>, size: Option<Size>, m: Rect)
    requires AllProper(monitors) && m in monitors && (size.None? || |monitors| == 1)
    ensures FitsFrame(NewFrame(origin, UnionAll(monitors), size), m)
  {
    if size.Some? {
      assert monitors == [m];
    }
  }

  /** A machine that is not stretched, or has one monitor, has all its edges aligned. */
  lemma PlainIsAligned(origin: Point, monitors: seq<Rect>, size: Option<Size>, m: Rect)
    requires AllProper(monitors) && m in monitors && (size.None? || |monitors| == 1)
    ensures EdgesAligned(NewFrame(origin, UnionAll(monitors), size), m)
  {
    PlainFits(origin, monitors, size, m);
    FittedIsAligned(NewFrame(origin, UnionAll(monitors), size), m);
  }

  lemma FittedIsAligned(f: Frame, m: Rect)
    requires f.Valid() && FitsFrame(f, m)
    ensures EdgesAligned(f, m)
  {
    AxisAligned(m.x - f.base.x, m.RightEdge() - f.base.x, f.sx);
    AxisAligned(m.y - f.base.y, m.BottomEdge() - f.base.y, f.sy);
  }

  lemma AxisAligned(lo: int, hi: int, s: Scale)
    requires s.Valid() && (s == UNIT || (lo == 0 && s.have == hi))
    ensures Aligned(lo, s) && Aligned(hi, s)
  {
    if s == UNIT {
      UnitAligned(lo);
      UnitAligned(hi);
    } else {
      EndsAligned(s);
    }
  }

  /** With all edges aligned, a desk point lies on the monitor's desk rectangle iff the local point
      under it lies on the monitor. */
  lemma DeskRectIsPreimage(f: Frame, m: Rect, v: Point)
    requires f.Valid() && EdgesAligned(f, m)
    ensures f.DeskRect(m).Contains(v) <==> m.Contains(f.ToLocal(v))
  {
    SpanEnds(v.x - f.origin.x - f.base.x, m.x - f.base.x, m.RightEdge() - f.base.x, f.sx);
    SpanEnds(v.y - f.origin.y - f.base.y, m.y - f.base.y, m.BottomEdge() - f.base.y, f.sy);
  }

  /** A desk point just beyond the right or the bottom edge of the monitor's desk rectangle, with the
      monitor under it. */
  predicate JustOut(f: Frame, m: Rect, v: Point)
    requires f.Valid()
  {
    m.Contains(f.ToLocal(v)) && (v.x == f.DeskRect(m).RightEdge() || v.y == f.DeskRect(m).BottomEdge())
  }

  /** Those are all the desk points over a monitor that its desk rectangle leaves out, and there are
      none beyond an aligned edge. */
  lemma LeftOutIsJustOut(f: Frame, m: Rect, v: Point)
    requires f.Valid()
    ensures m.Contains(f.ToLocal(v)) && !f.DeskRect(m).Contains(v) <==> JustOut(f, m, v)
    ensures FarEdgesAligned(f, m) ==> !JustOut(f, m, v)
  {
    SpanEnds(v.x - f.origin.x - f.base.x, m.x - f.base.x, m.RightEdge() - f.base.x, f.sx);
    SpanEnds(v.y - f.origin.y - f.base.y, m.y - f.base.y, m.BottomEdge() - f.base.y, f.sy);
  }

  /** Alignment is needed: of two monitors side by side, 100 and 101 pixels wide, stretched to 300, the
      second's rectangle begins at desk column 149, but under it is the first. */
  lemma StretchedPairDisagrees(s: Scale)
    requires s == Scale(300, 201)
    ensures !SpansAgree(100, 201, s)
    ensures Stretched(0, s) == 0 && Stretched(100, s) == 149 && Stretched(201, s) == 300 && Unstretched(149, s) == 99
  {
    EndsAligned(s);
    assert RoundDiv(30000, 201) == 149 && FloorDiv(29949, 300) == 99;
    OneDisagrees(100, 201, s, 149);
  }

  lemma OneDisagrees(lo: int, hi: int, s: Scale, w: int)
    requires s.Valid() && !(lo <= Unstretched(w, s) < hi <==> Stretched(lo, s) <= w < Stretched(hi, s))
    ensures !SpansAgree(lo, hi, s)
  {
  }

  /** A stretch to the size it has changes nothing. */
  lemma SameSize(v: int, s: Scale)
    requires s.Valid() && s.want == s.have
    ensures Stretched(v, s) == v && Unstretched(v, s) == v
  {
    RoundExact(v, s.have);
    FloorAtLeast(v * s.have, s.want, v);
    FloorAtLeast(v * s.have, s.want, v + 1);
    Neighbours(v, s.have);
  }

  /** A machine that is not stretched is only moved. */
  lemma PlainIsMoved(f: Frame, m: Rect, v: Point)
    requires f.Valid() && f.sx.want == f.sx.have && f.sy.want == f.sy.have
    ensures f.DeskRect(m) == Rect(m.x + f.origin.x, m.y + f.origin.y, m.w, m.h)
    ensures f.ToLocal(v) == Point(v.x - f.origin.x, v.y - f.origin.y)
  {
    SameSize(m.x - f.base.x, f.sx);
    SameSize(m.RightEdge() - f.base.x, f.sx);
    SameSize(v.x - f.origin.x - f.base.x, f.sx);
    SameSize(m.y - f.base.y, f.sy);
    SameSize(m.BottomEdge() - f.base.y, f.sy);
    SameSize(v.y - f.origin.y - f.base.y, f.sy);
  }

  lemma StretchFillsIt(want: int, have: int)
    requires want > 0 && have > 0
    ensures Stretched(have, Scale(want, have)) == want && Stretched(0, Scale(want, have)) == 0
  {
    assert have * want == want * have;
    RoundExact(want, have);
    RoundExact(0, have);
  }

  /** A machine's frame lays the box around its monitors on the desk where its origin moves it, and in the
      very size the placement reckons with: the one set, or its own. A machine without monitors counts as
      one of 1920 by 1080. */
  lemma FrameHasDeskSize(origin: Point, monitors: seq<Rect>, size: Option<Size>, box: Rect)
    requires AllProper(monitors) && (size.Some? ==> size.value.w > 0 && size.value.h > 0)
    requires box == if monitors == [] then Rect(0, 0, 1920, 1080) else UnionAll(monitors).value
    ensures var d := DeskSize(monitors, size);
      NewFrame(origin, UnionAll(monitors), size).DeskRect(box) == Rect(origin.x + box.x, origin.y + box.y, d.w, d.h)
      && d == if size.Some? then size.value else Size(box.w, box.h)
  {
    var f := NewFrame(origin, UnionAll(monitors), size);
    if size.Some? {
      RatioFills(size.value.w, box.w, f.sx);
      RatioFills(size.value.h, box.h, f.sy);
      FillsTheBox(f, box, size.value.w, size.value.h);
    } else {
      RatioFills(box.w, box.w, f.sx);
      RatioFills(box.h, box.h, f.sy);
      FillsTheBox(f, box, box.w, box.h);
    }
  }

  lemma RatioFills(want: int, have: int, s: Scale)
    requires want > 0 && have > 0 && (s == Ratio(want, have) || (s == UNIT && want == have))
    ensures Stretched(have, s) == want && Stretched(0, s) == 0
  {
    if s == UNIT {
      SameSize(have, s);
      SameSize(0, s);
    } else {
      StretchFillsIt(want, have);
    }
  }

  lemma FillsTheBox(f: Frame, box: Rect, w: int, h: int)
    requires f.Valid() && f.base == Point(box.x, box.y)
    requires Stretched(box.w, f.sx) == w && Stretched(box.h, f.sy) == h && Stretched(0, f.sx) == 0 && Stretched(0, f.sy) == 0
    ensures f.DeskRect(box) == Rect(f.origin.x + box.x, f.origin.y + box.y, w, h)
  {
  }

  /** Monitors of one machine that touch still touch on the desk, and ones that do not overlap
      (one wholly left of, or wholly above, the other) do not overlap there. */
  lemma SeamsSurvive(f: Frame, a: Rect, b: Rect)
    requires f.Valid() && a.Proper() && b.Proper()
    ensures a.RightEdge() == b.x ==> f.DeskRect(a).RightEdge() == f.DeskRect(b).x
    ensures a.BottomEdge() == b.y ==> f.DeskRect(a).BottomEdge() == f.DeskRect(b).y
    ensures Disjoint(a, b) ==> Disjoint(f.DeskRect(a), f.DeskRect(b))
  {
    if Disjoint(a, b) {
      DisjointMeansApart(a, b);
      var (l, r) := if a.RightEdge() <= b.x || a.BottomEdge() <= b.y then (a, b) else (b, a);
      AxisMonotone(l.RightEdge() - f.base.x, Max(l.RightEdge(), r.x) - f.base.x, f.sx);
      AxisMonotone(l.BottomEdge() - f.base.y, Max(l.BottomEdge(), r.y) - f.base.y, f.sy);
    }
  }

  /** Two proper rectangles share no pixel iff one is wholly to one side of the other. */
  lemma DisjointMeansApart(a: Rect, b: Rect)
    requires a.Proper() && b.Proper()
    ensures Disjoint(a, b) <==> a.RightEdge() <= b.x || b.RightEdge() <= a.x || a.BottomEdge() <= b.y || b.BottomEdge() <= a.y
  {
    var corner := Point(Max(a.x, b.x), Max(a.y, b.y));
    if Disjoint(a, b) {
      assert !(a.Contains(corner) && b.Contains(corner));
    }
  }
}
