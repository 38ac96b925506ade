/** Where input leads: the cursor follows the hand, crossings go where the desk says, and the hotkey
    goes to the nearest machine. */
module RouterMotion {
  import opened Wrappers
  import opened Geometry
  import opened Frames
  import opened Names
  import opened Switching
  import opened Input
  import opened Router

  // ---- the cursor follows the hand -------------------------------------------------------------

  function Shifted(p: Point, d: Point): Point {
    Point(p.x + d.x, p.y + d.y)
  }

  /** The active screen's cursor, on one of its monitors. */
  predicate OnScreen(s: CoreState, at: Point) {
    s.Sound() && s.mode.Remote? && s.mode.pos == at && Covered(at, s.MonitorsOf(s.mode.screen))
  }

  lemma AlreadyThere(p: Point, monitors: seq<Rect>)
    requires AllProper(monitors) && Covered(p, monitors)
    ensures NearestPoint(p, monitors) == p && monitors != []
  {
    NearestPointMinimises(p, monitors);
  }

  lemma MotionIsMoveTo(s: CoreState, at: Point, d: Point)
    requires OnScreen(s, at)
    ensures s.OnMotion(d.x, d.y) == s.MoveTo(Shifted(at, d), s.Beyond(Shifted(at, d)))
  {
    AlreadyThere(at, s.MonitorsOf(s.mode.screen));
    assert s.Aim(d.x, d.y) == Shifted(at, d);
  }

  lemma MoveOnScreen(s: CoreState, to: Point, beyond: Option<(Name, Point)>)
    requires s.Sound() && s.mode.Remote? && Covered(to, s.MonitorsOf(s.mode.screen))
    requires NearestPoint(to, s.MonitorsOf(s.mode.screen)) == to
    requires beyond.Some? ==> Covered(beyond.value.1, s.MonitorsOf(beyond.value.0))
    ensures s.MoveTo(to, beyond) == (s.(mode := Remote(s.mode.screen, to)), [Send(s.mode.screen, Mouse(MoveAbs(to)))])
  {
  }

  /** A motion over the screen moves the cursor by exactly that much. */
  lemma MotionOnScreen(s: CoreState, at: Point, d: Point)
    requires OnScreen(s, at) && Covered(Shifted(at, d), s.MonitorsOf(s.mode.screen))
    ensures var to := Shifted(at, d);
      s.OnMotion(d.x, d.y) == (s.(mode := Remote(s.mode.screen, to)), [Send(s.mode.screen, Mouse(MoveAbs(to)))])
  {
    var to := Shifted(at, d);
    MotionIsMoveTo(s, at, d);
    AlreadyThere(to, s.MonitorsOf(s.mode.screen));
    MoveOnScreen(s, to, s.Beyond(to));
  }

  // ---- what the desk has at a point ------------------------------------------------------------

  /** Machine `n`, not `exclude`, has a monitor at desk point `v`. */
  predicate HasAt(s: CoreState, v: Point, exclude: Name, n: Name) {
    n in s.connected.Keys + {s.local} && n != exclude && Covered(s.FrameOf(n).ToLocal(v), s.MonitorsOf(n))
  }

  /** ... and is the first in order of those that have. */
  ghost predicate FirstAt(s: CoreState, v: Point, exclude: Name, n: Name) {
    HasAt(s, v, exclude, n) && forall m | HasAt(s, v, exclude, m) :: Le(n, m)
  }

  lemma {:induction false} LocateInFinds(s: CoreState, names: seq<Name>, v: Point, exclude: Name)
    requires forall i, j :: 0 <= i < j < |names| ==> Le(names[i], names[j])
    requires forall n | n in names :: n in s.connected.Keys + {s.local}
    ensures match s.LocateIn(names, v, exclude)
      case None => forall n | n in names :: !HasAt(s, v, exclude, n)
      case Some((n, q)) =>
        n in names && HasAt(s, v, exclude, n) && q == s.FrameOf(n).ToLocal(v)
        && forall m | m in names && HasAt(s, v, exclude, m) :: Le(n, m)
    decreases |names|
  {
    if names != [] {
      assert names == [names[0]] + names[1..];
      LeTotal(names[0], names[0]);
      LocateInFinds(s, names[1..], v, exclude);
    }
  }

  /** `locate` finds the first in order of the machines with a monitor at the desk point, and the
      point of its plane that lies there; nothing is found exactly where there is no such machine. */
  lemma LocateFindsTheFirst(s: CoreState, v: Point, exclude: Name)
    ensures Finds(s, v, exclude, s.Locate(v, exclude))
  {
    var names := Sorted(s.connected.Keys + {s.local});
    LocateInFinds(s, names, v, exclude);
    assert forall n | HasAt(s, v, exclude, n) :: n in names;
  }

  ghost predicate Finds(s: CoreState, v: Point, exclude: Name, r: Option<(Name, Point)>) {
    match r
    case None => forall n :: !HasAt(s, v, exclude, n)
    case Some((n, q)) => FirstAt(s, v, exclude, n) && q == s.FrameOf(n).ToLocal(v)
  }

  lemma OneFirst(s: CoreState, v: Point, exclude: Name, n: Name, m: Name)
    requires FirstAt(s, v, exclude, n) && FirstAt(s, v, exclude, m)
    ensures n == m
  {
    LeTotal(n, m);
  }

  /** On a machine that is not stretched a desk point is the point of its plane moved by its origin. */
  lemma PlainHasAt(s: CoreState, v: Point, exclude: Name, n: Name)
    requires s.SizeSet(n).None?
    ensures s.FrameOf(n).ToDesk(v) == Shifted(v, OriginOf(s, n))
    ensures HasAt(s, Shifted(v, OriginOf(s, n)), exclude, n)
        <==> n in s.connected.Keys + {s.local} && n != exclude && Covered(v, s.MonitorsOf(n))
  {
    PlainIsMoved(s.FrameOf(n), Rect(v.x, v.y, 0, 0), Shifted(v, OriginOf(s, n)));
  }

  function OriginOf(s: CoreState, n: Name): Point {
    if n in s.origins then s.origins[n] else Point(0, 0)
  }

  // ---- a motion off the screen -------------------------------------------------------------------

  lemma MoveOffScreen(s: CoreState, to: Point, beyond: Option<(Name, Point)>, edge: Point)
    requires s.Sound() && s.mode.Remote? && !Covered(to, s.MonitorsOf(s.mode.screen))
    requires edge == NearestPoint(to, s.MonitorsOf(s.mode.screen))
    requires beyond.Some? ==> Covered(beyond.value.1, s.MonitorsOf(beyond.value.0))
    ensures var (c, q) := s.MoveTo(to, beyond);
      match beyond
      case None => Stops(s, edge, c, q)
      case Some((n, at)) => Leads(s, edge, n, at, c, q)
  {
  }

  /** The cursor stays on the screen, at `edge`. */
  predicate Stops(s: CoreState, edge: Point, c: CoreState, q: seq<Action>)
    requires s.mode.Remote?
  {
    c == s.(mode := Remote(s.mode.screen, edge)) && q == [Send(s.mode.screen, Mouse(MoveAbs(edge)))]
  }

  /** The screen is left with its cursor at `edge`, and the input goes to `at` of machine `n`: entered
      there, or home, where the pointer is put inside the monitor that has the point. */
  predicate Leads(s: CoreState, edge: Point, n: Name, at: Point, c: CoreState, q: seq<Action>)
    requires s.mode.Remote?
  {
    var left := [Send(s.mode.screen, Mouse(MoveAbs(edge))), Send(s.mode.screen, Input.Leave)];
    if n == s.local then
      && c.mode.Local?
      && exists m | m in s.localMonitors :: m.Contains(at) && q == left + [Capture(Ungrab(InsetClamp(at, m, s.Jump() + 1)))]
    else c.mode == Remote(n, at) && q == left + [Send(n, Enter(at, c.number))] && c.number == s.number + 1
  }

  /** The input stays exactly where no other machine has a monitor at `v`, and goes to the first that
      has. */
  ghost predicate GoesOff(s: CoreState, v: Point, edge: Point, c: CoreState, q: seq<Action>)
    requires s.mode.Remote?
  {
    && (Stops(s, edge, c, q) <==> forall n :: !HasAt(s, v, s.mode.screen, n))
    && forall n | FirstAt(s, v, s.mode.screen, n) :: Leads(s, edge, n, s.FrameOf(n).ToLocal(v), c, q)
  }

  /** Where a motion off the screen leads, over every desk: let `v` be the desk point the hand was going
      to. If no other machine has a monitor there, the cursor stops at the pixel nearest to where the
      hand was going. If some have, the input leaves for the first of them in order, or home if that is
      this machine, to the very point of its plane that lies at `v`. */
  lemma MotionOffScreen(s: CoreState, at: Point, d: Point) returns (edge: Point)
    requires OnScreen(s, at) && !Covered(Shifted(at, d), s.MonitorsOf(s.mode.screen))
    ensures Covered(edge, s.MonitorsOf(s.mode.screen))
    ensures forall p: Point | Covered(p, s.MonitorsOf(s.mode.screen)) :: Dist2(edge, Shifted(at, d)) <= Dist2(p, Shifted(at, d))
    ensures var v := s.FrameOf(s.mode.screen).ToDesk(Shifted(at, d));
      GoesOff(s, v, edge, s.OnMotion(d.x, d.y).0, s.OnMotion(d.x, d.y).1)
  {
    var to := Shifted(at, d);
    edge := NearestPoint(to, s.MonitorsOf(s.mode.screen));
    NearestPointMinimises(to, s.MonitorsOf(s.mode.screen));
    MotionIsMoveTo(s, at, d);
    MoveOffScreen(s, to, s.Beyond(to), edge);
    var v := s.FrameOf(s.mode.screen).ToDesk(to);
    LocateFindsTheFirst(s, v, s.mode.screen);
    GoesWhereFound(s, v, edge, s.Beyond(to), s.OnMotion(d.x, d.y).0, s.OnMotion(d.x, d.y).1);
  }

  lemma GoesWhereFound(s: CoreState, v: Point, edge: Point, found: Option<(Name, Point)>, c: CoreState, q: seq<Action>)
    requires s.mode.Remote? && Finds(s, v, s.mode.screen, found)
    requires match found case None => Stops(s, edge, c, q) case Some((n, at)) => Leads(s, edge, n, at, c, q)
    ensures GoesOff(s, v, edge, c, q)
  {
    if found.Some? {
      forall n | FirstAt(s, v, s.mode.screen, n) ensures n == found.value.0 {
        OneFirst(s, v, s.mode.screen, n, found.value.0);
      }
    }
  }

  function Sum(ds: seq<Point>): Point {
    if ds == [] then Point(0, 0) else Shifted(ds[0], Sum(ds[1..]))
  }

  /** Every place the hand brings the cursor to is on the screen. */
  predicate StaysOn(s: CoreState, at: Point, ds: seq<Point>)
    requires s.mode.Remote?
    decreases |ds|
  {
    ds == [] || (Covered(Shifted(at, ds[0]), s.MonitorsOf(s.mode.screen)) && StaysOn(s, Shifted(at, ds[0]), ds[1..]))
  }

  function Moved(s: CoreState, ds: seq<Point>): CoreState
    requires s.Sound()
    decreases |ds|
  {
    if ds == [] then s
    else
      var c := s.OnMotion(ds[0].x, ds[0].y).0;
      assert c.localMonitors == s.localMonitors && c.connected == s.connected;
      Moved(c, ds[1..])
  }

  lemma SumsUp(at: Point, ds: seq<Point>)
    requires ds != []
    ensures Shifted(Shifted(at, ds[0]), Sum(ds[1..])) == Shifted(at, Sum(ds))
  {
  }

  /** Over any run of motions that stays on the screen, the cursor ends where the deltas add up to:
      nothing of the hand's movement is lost or counted twice. */
  lemma {:induction false} CursorFollowsTheHand(s: CoreState, at: Point, ds: seq<Point>, end: CoreState)
    requires OnScreen(s, at) && StaysOn(s, at, ds) && end == Moved(s, ds)
    ensures end == s.(mode := Remote(s.mode.screen, Shifted(at, Sum(ds))))
    decreases |ds|
  {
    if ds != [] {
      var to := Shifted(at, ds[0]);
      var c := s.(mode := Remote(s.mode.screen, to));
      FirstMoved(s, at, ds, c);
      SameScreenStays(s, c, to, ds[1..]);
      CursorFollowsTheHand(c, to, ds[1..], end);
      SumsUp(at, ds);
    }
  }

  lemma FirstMoved(s: CoreState, at: Point, ds: seq<Point>, c: CoreState)
    requires OnScreen(s, at) && ds != [] && StaysOn(s, at, ds) && c == s.(mode := Remote(s.mode.screen, Shifted(at, ds[0])))
    ensures OnScreen(c, Shifted(at, ds[0])) && Moved(s, ds) == Moved(c, ds[1..])
  {
    MotionOnScreen(s, at, ds[0]);
  }

  lemma {:induction false} SameScreenStays(s: CoreState, c: CoreState, at: Point, ds: seq<Point>)
    requires s.mode.Remote? && c.mode.Remote? && s.MonitorsOf(s.mode.screen) == c.MonitorsOf(c.mode.screen)
    ensures StaysOn(s, at, ds) <==> StaysOn(c, at, ds)
    decreases |ds|
  {
    if ds != [] {
      SameScreenStays(s, c, Shifted(at, ds[0]), ds[1..]);
    }
  }

  // ---- the hotkey -----------------------------------------------------------------------------------------

  /** Of the machines with monitors none is nearer, and among equals the first in order is taken. */
  lemma {:induction false} NearestIsNearest(s: CoreState, names: seq<Name>, from: Point) returns (i: int)
    requires forall n | n in names :: n in s.connected
    ensures var r, ds := s.Nearest(names, from), Distances(s, names, from);
      && (r.None? <==> forall j | 0 <= j < |ds| :: ds[j].None?)
      && (r.Some? ==> IsNearest(ds, i) && names[i] == r.value)
    decreases |names|
  {
    i := 0;
    if names != [] {
      var last := |names| - 1;
      var front := names[..last];
      assert names == front + [names[last]];
      var ds, d := Distances(s, front, from), s.FarFrom(names[last], from);
      assert Distances(s, names, from) == ds + [d];
      i := NearestIsNearest(s, front, from);
      i := OneMoreDistance(ds, d, s.Nearest(front, from).Some?, i);
    }
  }

  function Distances(s: CoreState, names: seq<Name>, from: Point): seq<Option<nat>>
    requires forall n | n in names :: n in s.connected
  {
    seq(|names|, i requires 0 <= i < |names| => s.FarFrom(names[i], from))
  }

  lemma OneMoreDistance(ds: seq<Option<nat>>, d: Option<nat>, some: bool, i: int) returns (k: int)
    requires if some then IsNearest(ds, i) else forall j | 0 <= j < |ds| :: ds[j].None?
    ensures k == if d.Some? && (!some || d.value < ds[i].value) then |ds| else i
    ensures d.Some? || some ==> IsNearest(ds + [d], k)
    ensures !some && d.None? ==> forall j | 0 <= j < |ds + [d]| :: (ds + [d])[j].None?
    ensures some ==> (ds + [d])[i] == ds[i]
    ensures (ds + [d])[|ds|] == d
  {
    k := if d.Some? && (!some || d.value < ds[i].value) then |ds| else i;
  }

  /** There is a distance at `i`, nowhere a smaller one, and nowhere before it the same. */
  predicate IsNearest(ds: seq<Option<nat>>, i: int) {
    && 0 <= i < |ds| && ds[i].Some?
    && forall j | 0 <= j < |ds| && ds[j].Some? :: ds[i].value <= ds[j].value && (j < i ==> ds[i].value < ds[j].value)
  }

  /** The middle on the desk of the box around these monitors of `n`; without any, where its plane's own
      corner lies. */
  function MiddleOnDesk(s: CoreState, n: Name, monitors: seq<Rect>): Point {
    s.FrameOf(n).ToDesk(if monitors == [] then Point(0, 0) else UnionAll(monitors).value.Center())
  }

  function ApartOnDesk(s: CoreState, n: Name): nat
    requires n in s.connected
  {
    Dist2(MiddleOnDesk(s, n, s.connected[n]), MiddleOnDesk(s, s.local, s.localMonitors))
  }

  /** No client with monitors has its middle nearer to that of this machine, and of those as near `t` is
      the first in order. */
  ghost predicate IsNearestClient(s: CoreState, t: Name) {
    && t in s.connected && s.connected[t] != []
    && forall n | n in s.connected && s.connected[n] != [] :: ApartOnDesk(s, t) <= ApartOnDesk(s, n) && (ApartOnDesk(s, t) == ApartOnDesk(s, n) ==> Le(t, n))
  }

  lemma FarFromIsApart(s: CoreState, n: Name, from: Point)
    requires n in s.connected && from == MiddleOnDesk(s, s.local, s.localMonitors)
    ensures s.FarFrom(n, from) == if s.connected[n] == [] then None else Some(ApartOnDesk(s, n))
  {
  }

  lemma NearestIsClient(s: CoreState, names: seq<Name>, from: Point, ds: seq<Option<nat>>, i: int)
    requires (forall n :: n in names <==> n in s.connected) && from == MiddleOnDesk(s, s.local, s.localMonitors)
    requires forall j, k :: 0 <= j < k < |names| ==> Le(names[j], names[k])
    requires |ds| == |names| && (forall j | 0 <= j < |names| :: ds[j] == s.FarFrom(names[j], from)) && IsNearest(ds, i)
    ensures IsNearestClient(s, names[i])
  {
    FarFromIsApart(s, names[i], from);
    forall n | n in s.connected && s.connected[n] != []
      ensures ApartOnDesk(s, names[i]) <= ApartOnDesk(s, n) && (ApartOnDesk(s, names[i]) == ApartOnDesk(s, n) ==> Le(names[i], n))
    {
      var j :| 0 <= j < |names| && names[j] == n;
      FarFromIsApart(s, n, from);
      LeTotal(n, n);
    }
  }

  lemma NearestIsTaken(s: CoreState, names: seq<Name>, from: Point, r: Option<Name>)
    requires (forall n :: n in names <==> n in s.connected) && from == MiddleOnDesk(s, s.local, s.localMonitors)
    requires forall j, k :: 0 <= j < k < |names| ==> Le(names[j], names[k])
    requires r == s.Nearest(names, from)
    ensures Takes(s, r)
  {
    var ds := Distances(s, names, from);
    var i := NearestIsNearest(s, names, from);
    if r.Some? {
      NearestIsClient(s, names, from, ds, i);
    } else {
      forall n | n in s.connected ensures s.connected[n] == [] {
        var j :| 0 <= j < |names| && names[j] == n;
        assert ds[j].None?;
        FarFromIsApart(s, n, from);
      }
    }
  }

  /** The nearest client is taken; none exactly where no client has monitors. */
  ghost predicate Takes(s: CoreState, r: Option<Name>) {
    match r
    case None => forall n | n in s.connected :: s.connected[n] == []
    case Some(t) => IsNearestClient(s, t)
  }

  lemma HotkeyTargetIsNearest(s: CoreState, r: Option<Name>)
    requires r == s.HotkeyTarget()
    ensures Takes(s, r)
  {
    NearestIsTaken(s, Sorted(s.connected.Keys), MiddleOnDesk(s, s.local, s.localMonitors), r);
  }

  /** What the hotkey does at home: nothing, or it enters `t` at the place on its monitors nearest to their
      middle. */
  ghost predicate HotkeyEnters(s: CoreState, t: Option<Name>, c: CoreState, q: seq<Action>) {
    match t
    case None => c == s && q == []
    case Some(t) =>
      && c.mode.Remote? && c.mode.screen == t && q == [Capture(Grab), Send(t, Enter(c.mode.pos, s.number + 1))]
      && (t in s.connected && s.connected[t] != [] && t != s.local ==>
            IsNearestPixel(c.mode.pos, UnionAll(s.connected[t]).value.Center(), s.connected[t]))
  }

  lemma HotkeyEntersTarget(s: CoreState, r: Option<Name>, c: CoreState, q: seq<Action>)
    requires s.Sound() && s.mode.Local? && r == s.HotkeyTarget() && (c, q) == s.OnHotkey()
    ensures HotkeyEnters(s, r, c, q)
  {
    if r.Some? && r.value != s.local {
      var box := UnionAll(s.connected[r.value]).value;
      NearestPointMinimises(box.Center(), s.connected[r.value]);
    }
  }

  /** From home the hotkey leads to the nearest client; where no client has monitors nothing happens. */
  lemma HotkeyLeads(s: CoreState) returns (t: Option<Name>)
    requires s.Sound() && s.mode.Local?
    ensures Takes(s, t) && HotkeyEnters(s, t, s.OnHotkey().0, s.OnHotkey().1)
  {
    t := s.HotkeyTarget();
    HotkeyTargetIsNearest(s, t);
    HotkeyEntersTarget(s, t, s.OnHotkey().0, s.OnHotkey().1);
  }

  ghost predicate IsNearestPixel(q: Point, p: Point, monitors: seq<Rect>) {
    Covered(q, monitors) && forall r: Point | Covered(r, monitors) :: Dist2(q, p) <= Dist2(r, p)
  }
}
