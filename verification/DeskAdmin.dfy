/** Accepting a layout that a person arranged (`validate` and `apply_layout` in
    `geserdesk-server/src/admin.rs`), and what an accepted layout guarantees the router. */
module DeskAdmin {
  import opened Wrappers
  import opened Geometry
  import opened Names
  import opened Frames
  import opened Placement
  import opened Router

  const MAX_COORD: int := 1_000_000
  const MIN_SIZE: int := 64

  /** A screen as the layout editor sees it. */
  datatype ScreenView = ScreenView(name: Name, monitors: seq<Rect>, connected: bool, origin: Point)

  datatype AdminError = UnknownScreen(name: Name) | OutOfRange(name: Name) | BadSize(name: Name) | Overlap(a: Name, b: Name)

  /** The origins and the stretched sizes that would replace the stored ones. */
  datatype Arrangement = Arrangement(next: map<Name, Point>, sizes: map<Name, Size>)

  predicate InRange(p: Point) {
    -MAX_COORD <= p.x <= MAX_COORD && -MAX_COORD <= p.y <= MAX_COORD
  }

  function OriginsOf(views: seq<ScreenView>): (origins: map<Name, Point>)
    ensures forall n :: n in origins <==> exists v :: v in views && v.name == n
  {
    if views == [] then map[]
    else
      var last := views[|views| - 1];
      assert views == views[..|views| - 1] + [last];
      OriginsOf(views[..|views| - 1])[last.name := last.origin]
  }

  function FindView(views: seq<ScreenView>, name: Name): (found: Option<ScreenView>)
    ensures found.Some? ==> found.value in views && found.value.name == name
    ensures found.None? ==> forall v | v in views :: v.name != name
  {
    if views == [] then None else if views[0].name == name then Some(views[0]) else FindView(views[1..], name)
  }

  // ---- positions -----------------------------------------------------------------------------

  function MoveAll(names: seq<Name>, requested: map<Name, Point>,
          next: map<Name, Point>): Result<map<Name, Point>, AdminError>
    requires forall n | n in names :: n in requested
    decreases |names|
  {
    if names == [] then Ok(next)
    else
      var n := names[0];
      if n !in next then Err(UnknownScreen(n))
      else if !InRange(requested[n]) then Err(OutOfRange(n))
      else MoveAll(names[1..], requested, next[n := requested[n]])
  }

  /** Why a position is refused: there is no such screen, or a coordinate is beyond a million either way. */
  function MoveFault(next: map<Name, Point>, n: Name, p: Point): Option<AdminError> {
    if n !in next then Some(UnknownScreen(n))
    else if Gap(p.x, 0) > 1_000_000 || Gap(p.y, 0) > 1_000_000 then Some(OutOfRange(n))
    else None
  }

  /** Positions are taken over iff every one names a screen and is in range, and then just those; else the
      first that is not is refused. */
  lemma {:induction false} MoveAllMoves(names: seq<Name>, requested: map<Name, Point>, next: map<Name, Point>)
    requires forall n | n in names :: n in requested
    ensures var r := MoveAll(names, requested, next);
      && (r.Ok? <==> forall n | n in names :: MoveFault(next, n, requested[n]) == None)
      && (forall i | 0 <= i < |names| && MoveFault(next, names[i], requested[names[i]]).Some?
            && (forall j | 0 <= j < i :: MoveFault(next, names[j], requested[names[j]]) == None) ::
            r == Err(MoveFault(next, names[i], requested[names[i]]).value))
      && (r.Ok? ==> r.value.Keys == next.Keys && forall n | n in next :: r.value[n] == if n in names then requested[n] else next[n])
    decreases |names|
  {
    if names != [] {
      assert forall n :: n in names <==> n == names[0] || n in names[1..];
      MoveAllMoves(names[1..], requested, next[names[0] := requested[names[0]]]);
    }
  }

  // ---- sizes ----------------------------------------------------------------------------------

  /** What one size request leaves stored: nothing, when it is the real size or asks for it back. */
  function Resize(views: seq<ScreenView>, name: Name, size: Option<Size>,
          sizes: map<Name, Size>): Result<map<Name, Size>, AdminError> {
    match FindView(views, name)
    case None => Err(UnknownScreen(name))
    case Some(view) =>
      if size.None? || size.value == DeskSize(view.monitors, None) then Ok(sizes - {name})
      else
        var s := size.value;
        if s.w < MIN_SIZE || s.h < MIN_SIZE || s.w > MAX_COORD || s.h > MAX_COORD then Err(BadSize(name))
        else Ok(sizes[name := s])
  }

  function ResizeAll(views: seq<ScreenView>, names: seq<Name>, resized: map<Name, Option<Size>>, sizes: map<Name, Size>)
    : Result<map<Name, Size>, AdminError>
    requires forall n | n in names :: n in resized
    decreases |names|
  {
    if names == [] then Ok(sizes)
    else
      match Resize(views, names[0], resized[names[0]], sizes)
      case Err(e) => Err(e)
      case Ok(more) => ResizeAll(views, names[1..], resized, more)
  }

  /** A size other than the machine's own can be asked for from 64 pixels to a million, each way. */
  predicate MayHave(view: ScreenView, size: Option<Size>) {
    || size.None? || size.value == DeskSize(view.monitors, None)
    || (64 <= size.value.w <= 1_000_000 && 64 <= size.value.h <= 1_000_000)
  }

  /** Why a size is refused. */
  function SizeFault(views: seq<ScreenView>, n: Name, size: Option<Size>): Option<AdminError> {
    match FindView(views, n)
    case None => Some(UnknownScreen(n))
    case Some(view) => if MayHave(view, size) then None else Some(BadSize(n))
  }

  /** Sizes are taken over iff every one names a screen that may have it; else the first that does not is
      refused. */
  lemma {:induction false} SizesAreTakenExactly(views: seq<ScreenView>, names: seq<Name>,
          resized: map<Name, Option<Size>>, sizes: map<Name, Size>)
    requires forall n | n in names :: n in resized
    ensures var r := ResizeAll(views, names, resized, sizes);
      && (r.Ok? <==> forall n | n in names :: SizeFault(views, n, resized[n]) == None)
      && (forall i | 0 <= i < |names| && SizeFault(views, names[i], resized[names[i]]).Some?
            && (forall j | 0 <= j < i :: SizeFault(views, names[j], resized[names[j]]) == None) ::
            r == Err(SizeFault(views, names[i], resized[names[i]]).value))
    decreases |names|
  {
    if names != [] {
      assert forall n :: n in names <==> n == names[0] || n in names[1..];
      var one := Resize(views, names[0], resized[names[0]], sizes);
      assert one.Ok? <==> SizeFault(views, names[0], resized[names[0]]) == None;
      if one.Ok? {
        SizesAreTakenExactly(views, names[1..], resized, one.value);
        forall i | 0 < i < |names| ensures names[i] == names[1..][i - 1] {
        }
      }
    }
  }

  /** A machine that is not named keeps its size; one that is has the one asked for, kept only where
      it is a stretch. */
  lemma {:induction false} ResizeAllResizes(views: seq<ScreenView>, names: seq<Name>,
          resized: map<Name, Option<Size>>, sizes: map<Name, Size>)
    requires forall n | n in names :: n in resized
    ensures var r := ResizeAll(views, names, resized, sizes);
      r.Ok? ==>
        && (forall n | n !in names :: (n in r.value <==> n in sizes) && (n in sizes ==> r.value[n] == sizes[n]))
        && (forall n | n in names :: FindView(views, n).Some?
              && (n in r.value <==> resized[n].Some? && resized[n].value != DeskSize(FindView(views, n).value.monitors, None))
              && DeskSize(FindView(views, n).value.monitors, if n in r.value then Some(r.value[n]) else None)
                 == if resized[n].Some? then resized[n].value else DeskSize(FindView(views, n).value.monitors, None))
    decreases |names|
  {
    if names != [] {
      assert forall n :: n in names <==> n == names[0] || n in names[1..];
      var one := Resize(views, names[0], resized[names[0]], sizes);
      if one.Ok? {
        ResizeAllResizes(views, names[1..], resized, one.value);
      }
    }
  }

  // ---- overlap --------------------------------------------------------------------------------------

  predicate Intersects(a: Rect, b: Rect) {
    a.x < b.RightEdge() && b.x < a.RightEdge() && a.y < b.BottomEdge() && b.y < a.BottomEdge()
  }

  /** Two rectangles with an area intersect iff some point lies in both. */
  lemma IntersectsMeansShares(a: Rect, b: Rect)
    requires a.Proper() && b.Proper()
    ensures Intersects(a, b) <==> exists p: Point :: a.Contains(p) && b.Contains(p)
  {
    if Intersects(a, b) {
      var p := Point(if a.x < b.x then b.x else a.x, if a.y < b.y then b.y else a.y);
      assert a.Contains(p) && b.Contains(p);
    }
  }

  predicate AnyIntersect(ma: seq<Rect>, mb: seq<Rect>) {
    exists x | x in ma :: exists y | y in mb :: Intersects(x, y)
  }

  /** A connected machine's monitors where they lie on the desk. */
  datatype Placed = Placed(name: Name, rects: seq<Rect>)

  function FrameIn(v: ScreenView, a: Arrangement): (f: Frame)
    requires v.name in a.next
    ensures f.Valid()
  {
    NewFrame(a.next[v.name], UnionAll(v.monitors), if v.name in a.sizes then Some(a.sizes[v.name]) else None)
  }

  function DeskRects(f: Frame, monitors: seq<Rect>): (rects: seq<Rect>)
    requires f.Valid()
    ensures forall r :: r in rects <==> exists m :: m in monitors && r == f.DeskRect(m)
  {
    var rects := seq(|monitors|, i requires 0 <= i < |monitors| => f.DeskRect(monitors[i]));
    assert forall m | m in monitors :: f.DeskRect(m) in rects by {
      forall m | m in monitors ensures f.DeskRect(m) in rects {
        var i :| 0 <= i < |monitors| && monitors[i] == m;
        assert rects[i] == f.DeskRect(m);
      }
    }
    rects
  }

  function PlacedIn(v: ScreenView, a: Arrangement): Placed
    requires v.name in a.next
  {
    Placed(v.name, DeskRects(FrameIn(v, a), v.monitors))
  }

  function DeskOf(views: seq<ScreenView>, a: Arrangement): seq<Placed>
    requires forall v | v in views :: v.name in a.next
  {
    if views == [] then []
    else
      var v := views[0];
      assert forall w | w in views[1..] :: w in views;
      (if v.connected then [PlacedIn(v, a)] else []) + DeskOf(views[1..], a)
  }

  /** The first of `others` that overlaps `m`. */
  function OverlapWith(m: Placed, others: seq<Placed>): Option<Name> {
    if others == [] then None
    else if AnyIntersect(m.rects, others[0].rects) then Some(others[0].name)
    else OverlapWith(m, others[1..])
  }

  function FirstOverlap(desk: seq<Placed>): Option<AdminError> {
    if desk == [] then None
    else
      var other := OverlapWith(desk[0], desk[1..]);
      if other.Some? then Some(Overlap(desk[0].name, other.value)) else FirstOverlap(desk[1..])
  }

  lemma {:induction false} OverlapWithFinds(m: Placed, others: seq<Placed>)
    ensures OverlapWith(m, others).None? <==> forall o | o in others :: !AnyIntersect(m.rects, o.rects)
  {
    if others != [] {
      OverlapWithFinds(m, others[1..]);
      assert forall o :: o in others <==> o == others[0] || o in others[1..];
    }
  }

  /** No overlap is reported iff no two machines share a pixel of the desk. */
  lemma {:induction false} FirstOverlapFinds(desk: seq<Placed>)
    ensures FirstOverlap(desk).None? <==> forall i, j | 0 <= i < j < |desk| :: !AnyIntersect(desk[i].rects, desk[j].rects)
  {
    if desk != [] {
      OverlapWithFinds(desk[0], desk[1..]);
      FirstOverlapFinds(desk[1..]);
      if FirstOverlap(desk).None? {
        forall i, j | 0 <= i < j < |desk| ensures !AnyIntersect(desk[i].rects, desk[j].rects) {
          if i == 0 {
            assert desk[j] in desk[1..];
          } else {
            assert desk[1..][i - 1] == desk[i] && desk[1..][j - 1] == desk[j];
          }
        }
      } else if OverlapWith(desk[0], desk[1..]).Some? {
        var o :| o in desk[1..] && AnyIntersect(desk[0].rects, o.rects);
        var j :| 0 <= j < |desk[1..]| && desk[1..][j] == o;
        assert AnyIntersect(desk[0].rects, desk[j + 1].rects);
      } else {
        var i, j :| 0 <= i < j < |desk[1..]| && AnyIntersect(desk[1..][i].rects, desk[1..][j].rects);
        assert AnyIntersect(desk[i + 1].rects, desk[j + 1].rects);
      }
    }
  }

  // ---- the whole check ---------------------------------------------------------------------------------

  lemma OriginsCover(views: seq<ScreenView>, requested: map<Name, Point>)
    ensures var r := MoveAll(Sorted(requested.Keys), requested, OriginsOf(views));
      r.Ok? ==> forall v | v in views :: v.name in r.value
  {
    MoveAllMoves(Sorted(requested.Keys), requested, OriginsOf(views));
  }

  function Validate(views: seq<ScreenView>, sizes: map<Name, Size>, requested: map<Name, Point>,
          resized: map<Name, Option<Size>>)
    : Result<Arrangement, AdminError>
  {
    OriginsCover(views, requested);
    match MoveAll(Sorted(requested.Keys), requested, OriginsOf(views))
    case Err(e) => Err(e)
    case Ok(next) =>
      match ResizeAll(views, Sorted(resized.Keys), resized, sizes)
      case Err(e) => Err(e)
      case Ok(stretched) =>
        var a := Arrangement(next, stretched);
        var overlap := FirstOverlap(DeskOf(views, a));
        if overlap.Some? then Err(overlap.value) else Ok(a)
  }

  method MoveLoop(views: seq<ScreenView>,
          requested: map<Name, Point>) returns (result: Result<map<Name, Point>, AdminError>)
    ensures result == MoveAll(Sorted(requested.Keys), requested, OriginsOf(views))
  {
    var next, names := OriginsOf(views), Sorted(requested.Keys);
    assert names[0..] == names;
    for i := 0 to |names|
      invariant MoveAll(names[i..], requested, next) == MoveAll(names, requested, OriginsOf(views))
    {
      var n := names[i];
      assert names[i..][0] == n && names[i..][1..] == names[i + 1..];
      if n !in next {
        return Err(UnknownScreen(n));
      }
      if !InRange(requested[n]) {
        return Err(OutOfRange(n));
      }
      next := next[n := requested[n]];
    }
    return Ok(next);
  }

  method ResizeLoop(views: seq<ScreenView>, resized: map<Name, Option<Size>>, sizes: map<Name, Size>)
    returns (result: Result<map<Name, Size>, AdminError>)
    ensures result == ResizeAll(views, Sorted(resized.Keys), resized, sizes)
  {
    var stretched, names := sizes, Sorted(resized.Keys);
    assert names[0..] == names;
    for i := 0 to |names|
      invariant ResizeAll(views, names[i..], resized, stretched) == ResizeAll(views, names, resized, sizes)
    {
      var n := names[i];
      assert names[i..][0] == n && names[i..][1..] == names[i + 1..];
      var one := Resize(views, n, resized[n], stretched);
      if one.Err? {
        return one;
      }
      stretched := one.value;
    }
    return Ok(stretched);
  }

  method OverlapLoop(desk: seq<Placed>) returns (overlap: Option<AdminError>)
    ensures overlap == FirstOverlap(desk)
  {
    assert desk[0..] == desk;
    for i := 0 to |desk|
      invariant FirstOverlap(desk[i..]) == FirstOverlap(desk)
    {
      assert desk[i..][0] == desk[i] && desk[i..][1..] == desk[i + 1..];
      for j := i + 1 to |desk|
        invariant OverlapWith(desk[i], desk[j..]) == OverlapWith(desk[i], desk[i + 1..])
      {
        assert desk[j..][0] == desk[j] && desk[j..][1..] == desk[j + 1..];
        if AnyIntersect(desk[i].rects, desk[j].rects) {
          return Some(Overlap(desk[i].name, desk[j].name));
        }
      }
    }
    return None;
  }

  /** `validate`, its three loops one after the other. */
  method ValidateLoops(views: seq<ScreenView>, sizes: map<Name, Size>, requested: map<Name, Point>,
          resized: map<Name, Option<Size>>)
    returns (result: Result<Arrangement, AdminError>)
    ensures result == Validate(views, sizes, requested, resized)
  {
    OriginsCover(views, requested);
    var next := MoveLoop(views, requested);
    if next.Err? {
      return Err(next.error);
    }
    var stretched := ResizeLoop(views, resized, sizes);
    if stretched.Err? {
      return Err(stretched.error);
    }
    var a := Arrangement(next.value, stretched.value);
    var overlap := OverlapLoop(DeskOf(views, a));
    return if overlap.Some? then Err(overlap.value) else Ok(a);
  }

  // ---- what an accepted layout guarantees -------------------------------------------------------------------

  /** The point of the desk belongs to the machine: under it lies one of its monitors. */
  predicate Owns(v: ScreenView, a: Arrangement, p: Point)
    requires v.name in a.next
  {
    Covered(FrameIn(v, a).ToLocal(p), v.monitors)
  }

  lemma {:induction false} InDesk(views: seq<ScreenView>, a: Arrangement, v: ScreenView)
    requires (forall w | w in views :: w.name in a.next) && v in views && v.connected
    ensures PlacedIn(v, a) in DeskOf(views, a)
    decreases |views|
  {
    if views[0] != v {
      assert forall w | w in views[1..] :: w in views;
      InDesk(views[1..], a, v);
    }
  }

  /** Every point the machine owns lies on its rectangles. */
  ghost predicate WhollyPlaced(v: ScreenView, a: Arrangement) {
    v.name in a.next && forall p: Point :: Owns(v, a, p) ==> Covered(p, DeskRects(FrameIn(v, a), v.monitors))
  }

  /** What can be left out is next to a right or a bottom edge that was rounded down: the machine is
      wholly placed exactly if other rectangles of it cover that. */
  lemma WhollyPlacedExactly(v: ScreenView, a: Arrangement)
    requires v.name in a.next
    ensures WhollyPlaced(v, a)
        <==> forall m, p | m in v.monitors && JustOut(FrameIn(v, a), m, p) :: Covered(p, DeskRects(FrameIn(v, a), v.monitors))
  {
    var f := FrameIn(v, a);
    if forall m, p | m in v.monitors && JustOut(f, m, p) :: Covered(p, DeskRects(f, v.monitors)) {
      forall p: Point | Owns(v, a, p)
        ensures Covered(p, DeskRects(f, v.monitors))
      {
        var m :| m in v.monitors && m.Contains(f.ToLocal(p));
        LeftOutIsJustOut(f, m, p);
        assert f.DeskRect(m) in DeskRects(f, v.monitors);
      }
    }
    if WhollyPlaced(v, a) {
      forall m, p | m in v.monitors && JustOut(f, m, p)
        ensures Covered(p, DeskRects(f, v.monitors))
      {
        assert Owns(v, a, p);
      }
    }
  }

  /** Monitors whose right and bottom edges are aligned leave nothing out. */
  lemma AlignedIsWhollyPlaced(v: ScreenView, a: Arrangement)
    requires v.name in a.next && forall m | m in v.monitors :: FarEdgesAligned(FrameIn(v, a), m)
    ensures WhollyPlaced(v, a)
  {
    forall m, p | m in v.monitors
      ensures !JustOut(FrameIn(v, a), m, p)
    {
      LeftOutIsJustOut(FrameIn(v, a), m, p);
    }
    WhollyPlacedExactly(v, a);
  }

  /** Nor does a machine that is not stretched or has one monitor. */
  lemma PlainIsWhollyPlaced(v: ScreenView, a: Arrangement)
    requires v.name in a.next && AllProper(v.monitors) && (v.name !in a.sizes || |v.monitors| == 1)
    ensures WhollyPlaced(v, a)
  {
    forall m | m in v.monitors
      ensures FarEdgesAligned(FrameIn(v, a), m)
    {
      PlainIsAligned(a.next[v.name], v.monitors, if v.name in a.sizes then Some(a.sizes[v.name]) else None, m);
    }
    AlignedIsWhollyPlaced(v, a);
  }

  lemma IntersectBothWays(ma: seq<Rect>, mb: seq<Rect>)
    requires AnyIntersect(ma, mb)
    ensures AnyIntersect(mb, ma)
  {
    var x :| x in ma && exists y | y in mb :: Intersects(x, y);
    var y :| y in mb && Intersects(x, y);
    assert Intersects(y, x);
  }

  lemma NoneShare(desk: seq<Placed>, x: Placed, y: Placed)
    requires FirstOverlap(desk).None? && x in desk && y in desk && x != y
    ensures !AnyIntersect(x.rects, y.rects)
  {
    FirstOverlapFinds(desk);
    var i :| 0 <= i < |desk| && desk[i] == x;
    var j :| 0 <= j < |desk| && desk[j] == y;
    if j < i && AnyIntersect(x.rects, y.rects) {
      IntersectBothWays(x.rects, y.rects);
    }
  }

  /** An accepted layout gives every point of the desk to one at most of the connected machines that are
      wholly placed. */
  lemma OnePointOneOwner(views: seq<ScreenView>, sizes: map<Name, Size>, requested: map<Name, Point>,
          resized: map<Name, Option<Size>>, v: ScreenView, w: ScreenView, p: Point)
    requires Validate(views, sizes, requested, resized).Ok?
    requires v in views && w in views && v.connected && w.connected && v.name != w.name
    requires var a := Validate(views, sizes, requested, resized).value; WhollyPlaced(v, a) && WhollyPlaced(w, a)
    ensures var a := Validate(views, sizes, requested, resized).value;
      && v.name in a.next && w.name in a.next
      && !(Owns(v, a, p) && Owns(w, a, p))
  {
    OriginsCover(views, requested);
    var a := Validate(views, sizes, requested, resized).value;
    InDesk(views, a, v);
    InDesk(views, a, w);
    NoneShare(DeskOf(views, a), PlacedIn(v, a), PlacedIn(w, a));
    if Owns(v, a, p) && Owns(w, a, p) {
      BothPlaced(v, w, a, p);
    }
  }

  lemma BothPlaced(v: ScreenView, w: ScreenView, a: Arrangement, p: Point)
    requires WhollyPlaced(v, a) && WhollyPlaced(w, a) && Owns(v, a, p) && Owns(w, a, p)
    ensures AnyIntersect(DeskRects(FrameIn(v, a), v.monitors), DeskRects(FrameIn(w, a), w.monitors))
  {
    var x :| x in DeskRects(FrameIn(v, a), v.monitors) && x.Contains(p);
    var y :| y in DeskRects(FrameIn(w, a), w.monitors) && y.Contains(p);
    assert Intersects(x, y);
  }

  // ---- where one point has two owners ----------------------------------------------------------------------------

  /** Two screens where they are, with no changes asked for. */
  function AsTheyAre(v: ScreenView, w: ScreenView, sizes: map<Name, Size>): Arrangement {
    Arrangement(OriginsOf([v, w]), sizes)
  }

  lemma AcceptedAsTheyAre(v: ScreenView, w: ScreenView, sizes: map<Name, Size>)
    requires v.connected && w.connected && v.name != w.name
    ensures var a := AsTheyAre(v, w, sizes);
      && v.name in a.next && a.next[v.name] == v.origin && w.name in a.next && a.next[w.name] == w.origin
      && (Validate([v, w], sizes, map[], map[]) == Ok(a)
          <==> !AnyIntersect(DeskRects(FrameIn(v, a), v.monitors), DeskRects(FrameIn(w, a), w.monitors)))
      && (Validate([v, w], sizes, map[], map[]).Ok? ==> Validate([v, w], sizes, map[], map[]) == Ok(a))
  {
    var a, views := AsTheyAre(v, w, sizes), [v, w];
    assert views[..1] == [v] && [v][..0] == [] && OriginsOf([v]) == map[v.name := v.origin];
    assert a.next == map[v.name := v.origin, w.name := w.origin];
    OriginsCover(views, map[]);
    assert views[1..] == [w] && [w][1..] == [];
    assert DeskOf([w], a) == [PlacedIn(w, a)];
    var desk := [PlacedIn(v, a), PlacedIn(w, a)];
    assert DeskOf(views, a) == desk;
    assert desk[1..] == [desk[1]] && [desk[1]][1..] == [];
    assert OverlapWith(desk[0], [desk[1]]) == if AnyIntersect(desk[0].rects, desk[1].rects) then Some(w.name) else None;
    assert FirstOverlap([desk[1]]) == None;
  }

  /** A machine with one pixel, put at a point that another owns but was not placed on: nothing overlaps,
      and both own the point. */
  lemma UnplacedIsShared(v: ScreenView, other: Name, sizes: map<Name, Size>, p: Point) returns (w: ScreenView)
    requires v.connected && other != v.name && other !in sizes
    requires var a := Arrangement(map[v.name := v.origin], sizes);
      Owns(v, a, p) && !Covered(p, DeskRects(FrameIn(v, a), v.monitors))
    ensures w.name == other && w.connected && AllProper(w.monitors)
    ensures var a := AsTheyAre(v, w, sizes);
      && Validate([v, w], sizes, map[], map[]) == Ok(a) && v.name in a.next && w.name in a.next
      && Owns(v, a, p) && Owns(w, a, p)
  {
    w := ScreenView(other, [Rect(0, 0, 1, 1)], true, p);
    AcceptedAsTheyAre(v, w, sizes);
    var a := AsTheyAre(v, w, sizes);
    OnePixel(w, a, p);
    if AnyIntersect(DeskRects(FrameIn(v, a), v.monitors), DeskRects(FrameIn(w, a), w.monitors)) {
      MeetsPixel(DeskRects(FrameIn(v, a), v.monitors), DeskRects(FrameIn(w, a), w.monitors), p);
    }
  }

  lemma MeetsPixel(rects: seq<Rect>, others: seq<Rect>, p: Point)
    requires AnyIntersect(rects, others) && forall r | r in others :: r == Rect(p.x, p.y, 1, 1)
    ensures Covered(p, rects)
  {
    var x :| x in rects && exists y | y in others :: Intersects(x, y);
    assert x.Contains(p);
  }

  lemma OnePixel(w: ScreenView, a: Arrangement, p: Point)
    requires w.monitors == [Rect(0, 0, 1, 1)] && w.name in a.next && a.next[w.name] == p && w.name !in a.sizes
    ensures Owns(w, a, p) && forall r :: r in DeskRects(FrameIn(w, a), w.monitors) <==> r == Rect(p.x, p.y, 1, 1)
  {
    PlainFrame(w, a, w.monitors[0], p);
  }

  /** The condition is exact: no accepted layout of a machine with any other that is not stretched gives
      a point to both, exactly if the machine is wholly placed. */
  lemma OneOwnerExactly(v: ScreenView, other: Name, sizes: map<Name, Size>)
    requires v.connected && other != v.name && other !in sizes
    ensures WhollyPlaced(v, Arrangement(map[v.name := v.origin], sizes)) <==>
      forall w: ScreenView, p: Point
        | w.name == other && w.connected && AllProper(w.monitors) && Validate([v, w], sizes, map[], map[]).Ok? ::
        !BothOwn(v, w, AsTheyAre(v, w, sizes), p)
  {
    var alone := Arrangement(map[v.name := v.origin], sizes);
    if WhollyPlaced(v, alone) {
      forall w: ScreenView, p: Point
        | w.name == other && w.connected && AllProper(w.monitors) && Validate([v, w], sizes, map[], map[]).Ok?
        ensures !BothOwn(v, w, AsTheyAre(v, w, sizes), p)
      {
        NoneShared(v, w, sizes, p);
      }
    } else {
      var p :| Owns(v, alone, p) && !Covered(p, DeskRects(FrameIn(v, alone), v.monitors));
      var w := UnplacedIsShared(v, other, sizes, p);
      assert BothOwn(v, w, AsTheyAre(v, w, sizes), p);
    }
  }

  predicate BothOwn(v: ScreenView, w: ScreenView, a: Arrangement, p: Point) {
    v.name in a.next && w.name in a.next && Owns(v, a, p) && Owns(w, a, p)
  }

  lemma NoneShared(v: ScreenView, w: ScreenView, sizes: map<Name, Size>, p: Point)
    requires v.connected && w.connected && v.name != w.name && w.name !in sizes && AllProper(w.monitors)
    requires Validate([v, w], sizes, map[], map[]).Ok? && WhollyPlaced(v, Arrangement(map[v.name := v.origin], sizes))
    ensures !BothOwn(v, w, AsTheyAre(v, w, sizes), p)
  {
    AcceptedAsTheyAre(v, w, sizes);
    PlainIsWhollyPlaced(w, AsTheyAre(v, w, sizes));
    PlacedAlike(v, Arrangement(map[v.name := v.origin], sizes), AsTheyAre(v, w, sizes));
    OnePointOneOwner([v, w], sizes, map[], map[], v, w, p);
  }

  lemma PlacedAlike(v: ScreenView, a: Arrangement, b: Arrangement)
    requires WhollyPlaced(v, a) && v.name in b.next && b.next[v.name] == a.next[v.name] && b.sizes == a.sizes
    ensures WhollyPlaced(v, b)
  {
    assert FrameIn(v, b) == FrameIn(v, a);
    forall p: Point | Owns(v, b, p) ensures Covered(p, DeskRects(FrameIn(v, b), v.monitors)) {
      assert Owns(v, a, p);
    }
  }

  /** Two monitors side by side, stretched in width, whose seam is rounded down: the desk column it is
      rounded to has the first under it. */
  predicate SeamRoundsDown(c: int, d: int, wide: int)
    requires c > 0 && d > 0 && wide > 0
  {
    Unstretched(Stretched(c, Scale(wide, c + d)), Scale(wide, c + d)) < c
  }

  /** There are such: 100 and 101 pixels wide, stretched to 300. */
  lemma SuchASeam(c: int, d: int, wide: int)
    requires c == 100 && d == 101 && wide == 300
    ensures SeamRoundsDown(c, d, wide)
  {
    StretchedPairDisagrees(Scale(wide, c + d));
  }

  /** It happens: with the second monitor less high than the first, and another machine put right below it
      at the seam, the layout and the stretch are accepted, and the corner point has two owners. */
  lemma SharedPoint(v: ScreenView, w: ScreenView, c: int, d: int, high: int, low: int, n: int, size: Size, p: Point)
    requires c > 0 && d > 0 && 0 < low < high && n > 0 && size.h == high && size.w != c + d
    requires MIN_SIZE <= size.w <= MAX_COORD && MIN_SIZE <= size.h <= MAX_COORD && SeamRoundsDown(c, d, size.w)
    requires p == Point(Stretched(c, Scale(size.w, c + d)), low) && v.name != w.name
    requires v == ScreenView(v.name, [Rect(0, 0, c, high), Rect(c, 0, d, low)], true, Point(0, 0))
    requires w == ScreenView(w.name, [Rect(0, 0, n, n)], true, p)
    ensures var a := AsTheyAre(v, w, map[v.name := size]);
      Validate([v, w], map[], map[], map[v.name := Some(size)]) == Ok(a) && BothOwn(v, w, a, p)
  {
    var a, m0, m1 := AsTheyAre(v, w, map[v.name := size]), v.monitors[0], v.monitors[1];
    AcceptedAsTheyAre(v, w, map[v.name := size]);
    UnionOfTwo(m0, m1);
    SeamFrame(FrameIn(v, a), m0, m1, size, p);
    PairIsPlaced(v, a, m0, m1, p);
    PlainFrame(w, a, w.monitors[0], p);
    NoneTouch(DeskRects(FrameIn(v, a), v.monitors), DeskRects(FrameIn(w, a), w.monitors), p, size, high, low, n);
    StretchIsAccepted(v, w, m0, m1, size);
  }

  lemma UnionOfTwo(m0: Rect, m1: Rect)
    ensures UnionAll([m0, m1]) == Some(Join(m0, m1))
  {
    assert [m0, m1][..1] == [m0];
  }

  lemma SeamFrame(f: Frame, m0: Rect, m1: Rect, size: Size, p: Point)
    requires m0.w > 0 && m1.w > 0 && 0 < m1.h < m0.h && m0.x == m0.y == m1.y == 0 && m1.x == m0.w
    requires size.w > 0 && size.h == m0.h && SeamRoundsDown(m0.w, m1.w, size.w)
    requires f == NewFrame(Point(0, 0), Some(Join(m0, m1)), Some(size))
    requires p == Point(Stretched(m0.w, Scale(size.w, m0.w + m1.w)), m1.h)
    ensures f.DeskRect(m0) == Rect(0, 0, p.x, m0.h) && f.DeskRect(m1) == Rect(p.x, 0, size.w - p.x, m1.h)
    ensures m0.Contains(f.ToLocal(p))
  {
    assert f == Frame(Point(0, 0), Point(0, 0), Scale(size.w, m0.w + m1.w), Scale(size.h, m0.h));
    EndsAligned(f.sx);
    SameSize(0, f.sy);
    SameSize(m0.h, f.sy);
    SameSize(m1.h, f.sy);
    AxisMonotone(0, m0.w, f.sx);
    UnstretchedReaches(p.x, 0, f.sx);
  }

  lemma PairIsPlaced(v: ScreenView, a: Arrangement, m0: Rect, m1: Rect, p: Point)
    requires v.name in a.next && v.monitors == [m0, m1] && m0.Contains(FrameIn(v, a).ToLocal(p))
    ensures Owns(v, a, p)
    ensures forall r | r in DeskRects(FrameIn(v, a), v.monitors) :: r == FrameIn(v, a).DeskRect(m0) || r == FrameIn(v, a).DeskRect(m1)
  {
  }

  lemma NoneTouch(rects: seq<Rect>, others: seq<Rect>, p: Point, size: Size, high: int, low: int, n: int)
    requires forall r | r in rects :: r == Rect(0, 0, p.x, high) || r == Rect(p.x, 0, size.w - p.x, low)
    requires forall r | r in others :: r == Rect(p.x, p.y, n, n)
    requires p.y == low
    ensures !AnyIntersect(rects, others)
  {
  }

  /** A machine with one monitor that is not stretched lies where it was put. */
  lemma PlainFrame(w: ScreenView, a: Arrangement, m: Rect, p: Point)
    requires w.name in a.next && w.name !in a.sizes && w.monitors == [m]
    ensures var o := a.next[w.name];
      && (Owns(w, a, p) <==> m.Contains(Point(p.x - o.x, p.y - o.y)))
      && forall r :: r in DeskRects(FrameIn(w, a), w.monitors) <==> r == Rect(m.x + o.x, m.y + o.y, m.w, m.h)
  {
    var f := FrameIn(w, a);
    PlainIsMoved(f, m, p);
    assert f.DeskRect(m) in DeskRects(f, w.monitors);
  }

  /** Asking for a stretch is the same as having it. */
  lemma StretchIsAccepted(v: ScreenView, w: ScreenView, m0: Rect, m1: Rect, size: Size)
    requires v.name != w.name && v.monitors == [m0, m1] && size != DeskSize([m0, m1], None)
    requires MIN_SIZE <= size.w <= MAX_COORD && MIN_SIZE <= size.h <= MAX_COORD
    ensures Validate([v, w], map[], map[], map[v.name := Some(size)]) == Validate([v, w], map[v.name := size], map[], map[])
  {
    var resized, views := map[v.name := Some(size)], [v, w];
    OriginsCover(views, map[]);
    assert resized.Keys == {v.name};
    SortedOne(v.name);
    assert [v.name][1..] == [];
    assert Resize(views, v.name, Some(size), map[]) == Ok(map[v.name := size]);
    assert ResizeAll(views, [v.name], resized, map[]) == Ok(map[v.name := size]);
  }

  // ---- the router on an accepted layout -------------------------------------------------------------------------

  /** The router's own idea of who owns a point. */
  predicate RouterOwns(c: CoreState, n: Name, p: Point) {
    Covered(c.FrameOf(n).ToLocal(p), c.MonitorsOf(n))
  }

  predicate OneOwner(c: CoreState, names: seq<Name>, p: Point) {
    forall m, n | m in names && n in names && m != n :: !(RouterOwns(c, m, p) && RouterOwns(c, n, p))
  }

  lemma {:induction false} LocateFinds(c: CoreState, names: seq<Name>, p: Point, exclude: Name, n: Name)
    requires n in names && n != exclude && RouterOwns(c, n, p)
    requires forall m | m in names && m != n && m != exclude :: !RouterOwns(c, m, p)
    ensures c.LocateIn(names, p, exclude) == Some((n, c.FrameOf(n).ToLocal(p)))
    decreases |names|
  {
    if names[0] != n {
      assert names[0] in names;
      assert forall m | m in names[1..] :: m in names;
      LocateFinds(c, names[1..], p, exclude, n);
    }
  }

  lemma {:induction false} LocateMisses(c: CoreState, names: seq<Name>, p: Point, exclude: Name)
    requires forall n | n in names && n != exclude :: !RouterOwns(c, n, p)
    ensures c.LocateIn(names, p, exclude) == None
    decreases |names|
  {
    if names != [] {
      assert names[0] in names;
      assert forall m | m in names[1..] :: m in names;
      LocateMisses(c, names[1..], p, exclude);
    }
  }

  /** With one owner at most, where a point leads does not depend on the order names are tried in. */
  lemma OrderDoesNotMatter(c: CoreState, names: seq<Name>, others: seq<Name>, p: Point, exclude: Name)
    requires OneOwner(c, names, p) && forall n :: n in names <==> n in others
    ensures c.LocateIn(names, p, exclude) == c.LocateIn(others, p, exclude)
  {
    if n :| n in names && n != exclude && RouterOwns(c, n, p) {
      assert forall m | m in names && m != n && m != exclude :: !RouterOwns(c, m, p);
      LocateFinds(c, names, p, exclude, n);
      LocateFinds(c, others, p, exclude, n);
    } else {
      LocateMisses(c, names, p, exclude);
      LocateMisses(c, others, p, exclude);
    }
  }

  /** What else the editor goes by: the clients that are there, the monitors of machines now gone, and
      where it drew each machine. */
  datatype Sketch = Sketch(live: map<Name, seq<Rect>>, known: map<Name, seq<Rect>>, origins: Name -> Point)

  /** The monitors the editor shows for a machine: its own, those of a client that is
      there, turned off or not, those it had when it last was, or a stand-in. */
  function MonitorsFor(c: CoreState, k: Sketch, name: Name): seq<Rect> {
    if name == c.local then c.localMonitors
    else if name in k.live then k.live[name]
    else if name in k.known then k.known[name]
    else [Rect(0, 0, DEFAULT_SIZE.w, DEFAULT_SIZE.h)]
  }

  function ViewOf(c: CoreState, k: Sketch, n: Name): ScreenView {
    ScreenView(n, MonitorsFor(c, k, n), n == c.local || n in k.live, k.origins(n))
  }

  /** The screens as the editor shows them. */
  function Views(c: CoreState, k: Sketch): (views: seq<ScreenView>)
    ensures forall n | n in c.layout.screens :: ViewOf(c, k, n) in views
  {
    var names := c.layout.screens;
    var views := seq(|names|, i requires 0 <= i < |names| => ViewOf(c, k, names[i]));
    assert forall n | n in names :: ViewOf(c, k, n) in views by {
      forall n | n in names ensures ViewOf(c, k, n) in views {
        var i :| 0 <= i < |names| && names[i] == n;
        assert views[i] == ViewOf(c, k, n);
      }
    }
    views
  }

  /** The router has taken in the clients that are there, but for those turned off. */
  predicate Knows(c: CoreState, k: Sketch) {
    forall n | n in c.connected :: n in k.live && k.live[n] == c.connected[n]
  }

  /** The router after the hub has announced the accepted sizes and then the positions. */
  function Applied(c: CoreState, a: Arrangement): (c': CoreState)
    requires c.Sound()
    ensures c'.Sound() && c'.local == c.local && c'.connected == c.connected && c'.localMonitors == c.localMonitors
  {
    c.OnHub(Sizes(a.sizes)).0.OnHub(Positions(a.next)).0
  }

  predicate Positive(sizes: map<Name, Size>) {
    forall n | n in sizes :: sizes[n].w > 0
  }

  lemma {:induction false} ResizedIsPositive(views: seq<ScreenView>, names: seq<Name>,
          resized: map<Name, Option<Size>>, sizes: map<Name, Size>)
    requires (forall n | n in names :: n in resized) && Positive(sizes)
    ensures var r := ResizeAll(views, names, resized, sizes); r.Ok? ==> Positive(r.value)
    decreases |names|
  {
    if names != [] {
      var one := Resize(views, names[0], resized[names[0]], sizes);
      if one.Ok? {
        ResizedIsPositive(views, names[1..], resized, one.value);
      }
    }
  }

  lemma SizesAreNotNegative(c: CoreState)
    requires c.Sound() && Positive(c.sizes)
    ensures forall n | n in c.PlacementPlan().order :: c.PlacementPlan().sizeOf(n).w >= 0
  {
    forall n | n in c.PlacementPlan().order ensures c.PlacementPlan().sizeOf(n).w >= 0 {
      assert AllProper(c.MonitorsOf(n));
    }
  }

  lemma ConfiguredIsKept(c: CoreState, n: Name)
    requires c.Sound() && Positive(c.sizes) && n in c.layout.screens && n in c.positions
    ensures var o := c.Refreshed().origins; n in o && o[n] == c.positions[n]
  {
    SizesAreNotNegative(c);
    OriginsPlaceEveryScreen(c.PlacementPlan());
  }

  /** Once both announcements are taken in, the router puts a screen where the arrangement does. */
  lemma AppliedPlaces(c: CoreState, v: ScreenView, a: Arrangement, p: Point)
    requires c.Sound() && v.name in a.next && v.name in c.layout.screens && c.MonitorsOf(v.name) == v.monitors && Positive(a.sizes)
    ensures Applied(c, a).FrameOf(v.name) == FrameIn(v, a) && (RouterOwns(Applied(c, a), v.name, p) <==> Owns(v, a, p))
  {
    var c1 := c.OnHub(Sizes(a.sizes)).0.(positions := a.next);
    assert Applied(c, a) == c1.Refreshed();
    ConfiguredIsKept(c1, v.name);
  }

  /** What `apply_layout` accepts is what the router then has: every screen it knows is where it was
      accepted, and owns the points it was accepted to own. Stored sizes are positive. */
  lemma AppliedIsAccepted(c: CoreState, k: Sketch, sizes: map<Name, Size>, requested: map<Name, Point>,
          resized: map<Name, Option<Size>>, n: Name, p: Point)
    requires c.Sound() && Knows(c, k) && Positive(sizes) && n in c.layout.screens && (n == c.local || n in c.connected)
    requires Validate(Views(c, k), sizes, requested, resized).Ok?
    ensures var v, a := ViewOf(c, k, n), Validate(Views(c, k), sizes, requested, resized).value;
      && v in Views(c, k) && v.connected && v.monitors == c.MonitorsOf(n) && n in a.next
      && Applied(c, a).FrameOf(n) == FrameIn(v, a) && (RouterOwns(Applied(c, a), n, p) <==> Owns(v, a, p))
  {
    OriginsCover(Views(c, k), requested);
    ResizedIsPositive(Views(c, k), Sorted(resized.Keys), resized, sizes);
    AppliedPlaces(c, ViewOf(c, k, n), Validate(Views(c, k), sizes, requested, resized).value, p);
  }

  /** Every screen the router knows is wholly placed. */
  ghost predicate AllPlaced(c: CoreState, k: Sketch, a: Arrangement) {
    forall n | n in c.connected.Keys + {c.local} :: WhollyPlaced(ViewOf(c, k, n), a)
  }

  /** End to end: after `apply_layout` accepts and the router has taken in what it announces, every
      point of the desk leads to the same screen in whatever order the router tries those it knows. */
  lemma LocateIsUnambiguous(c: CoreState, k: Sketch, sizes: map<Name, Size>, requested: map<Name, Point>,
          resized: map<Name, Option<Size>>, others: seq<Name>, p: Point, exclude: Name)
    requires c.Sound() && Knows(c, k) && Positive(sizes) && forall n | n in c.connected.Keys + {c.local} :: n in c.layout.screens
    requires Validate(Views(c, k), sizes, requested, resized).Ok?
    requires AllPlaced(c, k, Validate(Views(c, k), sizes, requested, resized).value)
    requires forall n :: n in others <==> n in c.connected.Keys + {c.local}
    ensures var a := Validate(Views(c, k), sizes, requested, resized).value;
      Applied(c, a).Locate(p, exclude) == Applied(c, a).LocateIn(others, p, exclude)
  {
    var a := Validate(Views(c, k), sizes, requested, resized).value;
    var c', names := Applied(c, a), Sorted(c.connected.Keys + {c.local});
    forall m, n | m in names && n in names && m != n ensures !(RouterOwns(c', m, p) && RouterOwns(c', n, p)) {
      AppliedIsAccepted(c, k, sizes, requested, resized, m, p);
      AppliedIsAccepted(c, k, sizes, requested, resized, n, p);
      OnePointOneOwner(Views(c, k), sizes, requested, resized, ViewOf(c, k, m), ViewOf(c, k, n), p);
    }
    OrderDoesNotMatter(c', names, others, p, exclude);
  }
}
