/** Points, rectangles and the four edges (`geserdesk-proto/src/geometry.rs`), and the two
    point-moving functions of the desk that only need them (`desk.rs`). */
module Geometry {
  import opened Wrappers

  datatype Point = Point(x: int, y: int)

  datatype Size = Size(w: int, h: int)

  datatype Edge = Left | Right | Top | Bottom

  const EDGES: seq<Edge> := [Left, Right, Top, Bottom]

  /** `i32` division: it truncates toward zero. */
  function Half(n: int): int {
    if n >= 0 then n / 2 else -((-n) / 2)
  }

  function Max(a: int, b: int): int {
    if a >= b then a else b
  }

  function Min(a: int, b: int): int {
    if a <= b then a else b
  }

  function ClampTo(v: int, lo: int, hi: int): int
    requires lo <= hi
  {
    if v < lo then lo else if v > hi then hi else v
  }

  /** `[x, x+w)` by `[y, y+h)`. */
  datatype Rect = Rect(x: int, y: int, w: int, h: int) {

    function RightEdge(): int { x + w }

    function BottomEdge(): int { y + h }

    function Center(): Point {
      Point(x + Half(w), y + Half(h))
    }

    predicate Contains(p: Point) {
      x <= p.x < RightEdge() && y <= p.y < BottomEdge()
    }

    /** A rectangle a monitor may have: the handshake drops every other. */
    predicate Proper() {
      w > 0 && h > 0
    }

    function Clamp(p: Point): Point
      requires Proper()
    {
      Point(ClampTo(p.x, x, RightEdge() - 1), ClampTo(p.y, y, BottomEdge() - 1))
    }
  }

  predicate AllProper(rects: seq<Rect>) {
    forall r | r in rects :: r.Proper()
  }

  /** Some monitor of `rects` covers `p`. */
  predicate Covered(p: Point, rects: seq<Rect>) {
    exists r | r in rects :: r.Contains(p)
  }

  ghost predicate Disjoint(a: Rect, b: Rect) {
    forall p: Point :: !(a.Contains(p) && b.Contains(p))
  }

  predicate Inside(a: Rect, b: Rect) {
    b.x <= a.x && a.RightEdge() <= b.RightEdge() && b.y <= a.y && a.BottomEdge() <= b.BottomEdge()
  }

  // ---- the bounding box --------------------------------------------------------

  function Join(a: Rect, b: Rect): Rect {
    var l := Min(a.x, b.x);
    var t := Min(a.y, b.y);
    Rect(l, t, Max(a.RightEdge(), b.RightEdge()) - l, Max(a.BottomEdge(), b.BottomEdge()) - t)
  }

  function UnionAll(rects: seq<Rect>): (box: Option<Rect>)
    ensures rects == [] <==> box.None?
    ensures box.Some? ==> forall r | r in rects :: Inside(r, box.value)
    ensures box.Some? && AllProper(rects) ==> box.value.Proper()
  {
    if rects == [] then None
    else if |rects| == 1 then Some(rects[0])
    else
      var front := rects[..|rects| - 1];
      var last := rects[|rects| - 1];
      assert rects == front + [last] && (forall r | r in front :: r in rects) && last in rects;
      Some(Join(UnionAll(front).value, last))
  }

  /** ... and it is the least box that holds them all. */
  lemma {:induction false} UnionIsLeast(rects: seq<Rect>, c: Rect)
    requires rects != [] && forall r | r in rects :: Inside(r, c)
    ensures Inside(UnionAll(rects).value, c)
  {
    if |rects| > 1 {
      assert forall r | r in rects[..|rects| - 1] :: r in rects;
      UnionIsLeast(rects[..|rects| - 1], c);
    }
    assert rects[|rects| - 1] in rects;
  }

  /** The accumulator loop of `Rect::union_all`. */
  method UnionAllLoop(rects: seq<Rect>) returns (box: Option<Rect>)
    ensures box == UnionAll(rects)
  {
    if |rects| == 0 {
      return None;
    }
    var l, t, r, b := rects[0].x, rects[0].y, rects[0].RightEdge(), rects[0].BottomEdge();
    for i := 1 to |rects|
      invariant UnionAll(rects[..i]) == Some(Rect(l, t, r - l, b - t))
    {
      assert rects[..i + 1][..i] == rects[..i] && rects[..i + 1][i] == rects[i];
      ghost var before := Rect(l, t, r - l, b - t);
      assert UnionAll(rects[..i + 1]) == Some(Join(before, rects[i]));
      l := Min(l, rects[i].x);
      t := Min(t, rects[i].y);
      r := Max(r, rects[i].RightEdge());
      b := Max(b, rects[i].BottomEdge());
    }
    assert rects[..|rects|] == rects;
    return Some(Rect(l, t, r - l, b - t));
  }

  // ---- the nearest point -------------------------------------------------------

  function Sq(n: int): nat {
    if n < 0 then (-n) * (-n) else n * n
  }

  function Dist2(a: Point, b: Point): nat {
    Sq(a.x - b.x) + Sq(a.y - b.y)
  }

  lemma SqMonotone(a: int, b: int)
    requires (if a < 0 then -a else a) <= (if b < 0 then -b else b)
    ensures Sq(a) <= Sq(b)
  {
    var m, n := if a < 0 then -a else a, if b < 0 then -b else b;
    TimesMonotone(m, n, m);
    TimesMonotone(m, n, n);
  }

  lemma {:induction false} TimesMonotone(m: nat, n: nat, k: nat)
    requires m <= n
    ensures m * k <= n * k && k * m == m * k
    decreases k
  {
    if k > 0 {
      TimesMonotone(m, n, k - 1);
      assert m * k == m * (k - 1) + m && n * k == n * (k - 1) + n;
    }
  }

  lemma ClampIsNearest(r: Rect, p: Point, q: Point)
    requires r.Proper() && r.Contains(q)
    ensures r.Contains(r.Clamp(p))
    ensures Dist2(r.Clamp(p), p) <= Dist2(q, p)
  {
    var c := r.Clamp(p);
    SqMonotone(c.x - p.x, q.x - p.x);
    SqMonotone(c.y - p.y, q.y - p.y);
  }

  /** The clamp with the smallest distance; the first of equals (`min_by_key`). */
  function NearestPoint(p: Point, monitors: seq<Rect>): (q: Point)
    requires AllProper(monitors)
  {
    if monitors == [] then p
    else if |monitors| == 1 then monitors[0].Clamp(p)
    else
      var front := NearestPoint(p, monitors[..|monitors| - 1]);
      var last := monitors[|monitors| - 1].Clamp(p);
      if Dist2(last, p) < Dist2(front, p) then last else front
  }

  /** `nearest_point` returns a pixel of a monitor, and no pixel of any monitor is closer. */
  lemma {:induction false} NearestPointMinimises(p: Point, monitors: seq<Rect>)
    requires AllProper(monitors) && monitors != []
    ensures Covered(NearestPoint(p, monitors), monitors)
    ensures forall q: Point | Covered(q, monitors) :: Dist2(NearestPoint(p, monitors), p) <= Dist2(q, p)
    ensures Covered(p, monitors) ==> NearestPoint(p, monitors) == p
  {
    var n := |monitors| - 1;
    var front := monitors[..n];
    var best := NearestPoint(p, monitors);
    assert monitors[n].Contains(monitors[n].Clamp(p));
    assert monitors[n] in monitors;
    if n > 0 {
      NearestPointMinimises(p, front);
      assert forall r | r in front :: r in monitors;
    }
    forall q: Point | Covered(q, monitors)
      ensures Dist2(best, p) <= Dist2(q, p)
    {
      var r :| r in monitors && r.Contains(q);
      if r == monitors[n] {
        ClampIsNearest(r, p, q);
      } else {
        assert r in front;
        assert Covered(q, front);
      }
    }
    if Covered(p, monitors) {
      assert Dist2(best, p) <= Dist2(p, p) == 0;
      ZeroDistance(best, p);
    }
  }

  lemma ZeroDistance(a: Point, b: Point)
    requires Dist2(a, b) == 0
    ensures a == b
  {
    if a.x != b.x {
      SqMonotone(1, a.x - b.x);
    }
    if a.y != b.y {
      SqMonotone(1, a.y - b.y);
    }
  }

  // ---- the inset clamp ---------------------------------------------------------

  function InsetAxis(v: int, lo: int, len: int, inset: int, centre: int): int {
    if len > 2 * inset + 1 then ClampTo(v, lo + inset, lo + len - 1 - inset) else centre
  }

  function InsetClamp(p: Point, r: Rect, inset: int): Point {
    Point(InsetAxis(p.x, r.x, r.w, inset, r.Center().x), InsetAxis(p.y, r.y, r.h, inset, r.Center().y))
  }

  function Gap(a: int, b: int): nat {
    if a < b then b - a else a - b
  }

  /** `c` is in the span `[lo, lo + len)`: where there is room for the inset on both sides, the nearest to
      `v` that keeps it, and else the middle of the span, to the pixel. */
  ghost predicate InsetFrom(c: int, v: int, lo: int, len: int, inset: int) {
    && lo <= c < lo + len
    && (len > 2 * inset + 1 ==>
          lo + inset <= c < lo + len - inset && forall k | lo + inset <= k < lo + len - inset :: Gap(c, v) <= Gap(k, v))
    && (len <= 2 * inset + 1 ==> Gap(2 * (c - lo), len) <= 1)
  }

  /** `inset_clamp` lands in the rectangle, on each axis at the nearest place that keeps the inset. */
  lemma InsetClampLands(p: Point, r: Rect, inset: int)
    requires r.Proper() && inset >= 0
    ensures var c := InsetClamp(p, r, inset);
      r.Contains(c) && InsetFrom(c.x, p.x, r.x, r.w, inset) && InsetFrom(c.y, p.y, r.y, r.h, inset)
  {
  }

  /** The centre of a rectangle is its middle, to the pixel. */
  lemma CenterIsTheMiddle(r: Rect)
    requires r.Proper()
    ensures r.Contains(r.Center()) && Gap(2 * (r.Center().x - r.x), r.w) <= 1 && Gap(2 * (r.Center().y - r.y), r.h) <= 1
  {
  }
}
