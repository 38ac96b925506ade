/** The arrangement of screens (`Layout` in `geserdesk-server/src/layout.rs`) and where each
    machine is put on the desk (`effective_origins` in `desk.rs`). */
module Placement {
  import opened Wrappers
  import opened Geometry
  import opened Names

  /** `links[from][edge]` is the screen reached by leaving `from` across `edge`. */
  datatype Layout = Layout(screens: seq<Name>, links: map<Name, map<Edge, Name>>) {

    function Neighbor(from: Name, edge: Edge): Option<Name> {
      if from in links && edge in links[from] then Some(links[from][edge]) else None
    }

    /** The layout with `name` appended, and whether it was new. */
    function AddScreen(name: Name): (Layout, bool) {
      if name in screens then (this, false) else (this.(screens := screens + [name]), true)
    }
  }

  /** What placing needs to know, fixed for one call. */
  datatype Plan = Plan(order: seq<Name>, local: Name, layout: Layout, configured: map<Name, Point>, sizeOf: Name -> Size)

  /** The origin of a machine of size `sb` put against edge `e` of one of size `sa` at `oa`. */
  function Beside(oa: Point, sa: Size, sb: Size, e: Edge): Point {
    match e
    case Right => Point(oa.x + sa.w, oa.y)
    case Left => Point(oa.x - sb.w, oa.y)
    case Bottom => Point(oa.x, oa.y + sa.h)
    case Top => Point(oa.x, oa.y - sb.h)
  }

  function Seeds(p: Plan): map<Name, Point> {
    var kept := map n | n in p.configured && n in p.order :: p.configured[n];
    if p.local in kept then kept else kept[p.local := Point(0, 0)]
  }

  function Seeded(order: seq<Name>, placed: map<Name, Point>): seq<Name> {
    if order == [] then []
    else if order[0] in placed then [order[0]] + Seeded(order[1..], placed)
    else Seeded(order[1..], placed)
  }

  predicate Placeable(p: Plan, placed: map<Name, Point>, a: Name, e: Edge) {
    var b := p.layout.Neighbor(a, e);
    b.Some? && b.value !in placed && b.value in p.order
  }

  function FollowEdges(p: Plan, placed: map<Name, Point>, queue: seq<Name>, a: Name,
          edges: seq<Edge>): (map<Name, Point>, seq<Name>)
    requires a in placed
    decreases |edges|
  {
    if edges == [] then (placed, queue)
    else if Placeable(p, placed, a, edges[0]) then
      var b := p.layout.Neighbor(a, edges[0]).value;
      FollowEdges(p, placed[b := Beside(placed[a], p.sizeOf(a), p.sizeOf(b), edges[0])], queue + [b], a, edges[1..])
    else FollowEdges(p, placed, queue, a, edges[1..])
  }

  function Unplaced(p: Plan, placed: map<Name, Point>): set<Name> {
    (set n | n in p.order) - placed.Keys
  }

  /** Following the edges of one screen only adds screens of the order. */
  lemma {:induction false} FollowEdgesGrows(p: Plan, placed: map<Name, Point>, queue: seq<Name>, a: Name,
          edges: seq<Edge>)
    requires a in placed
    ensures var (placed', queue') := FollowEdges(p, placed, queue, a, edges);
      && placed.Keys <= placed'.Keys && (forall n | n in placed :: placed'[n] == placed[n])
      && queue <= queue'
      && ((placed' == placed && queue' == queue) || Unplaced(p, placed') < Unplaced(p, placed))
    decreases |edges|
  {
    if edges != [] {
      if Placeable(p, placed, a, edges[0]) {
        var b := p.layout.Neighbor(a, edges[0]).value;
        var placed1 := placed[b := Beside(placed[a], p.sizeOf(a), p.sizeOf(b), edges[0])];
        assert b in Unplaced(p, placed) && b !in Unplaced(p, placed1);
        FollowEdgesGrows(p, placed1, queue + [b], a, edges[1..]);
      } else {
        FollowEdgesGrows(p, placed, queue, a, edges[1..]);
      }
    }
  }

  lemma SubsetSmaller(a: set<Name>, b: set<Name>)
    requires a < b
    ensures |a| < |b|
  {
    assert exists x :: x in b && x !in a;
    var x :| x in b && x !in a;
    var rest := b - {x};
    assert a <= rest;
    Subset(a, rest);
  }

  lemma {:induction false} Subset(a: set<Name>, b: set<Name>)
    requires a <= b
    ensures |a| <= |b|
  {
    if x :| x in a {
      Subset(a - {x}, b - {x});
    }
  }

  /** Links followed outwards from the queue, first in first out. */
  function Follow(p: Plan, placed: map<Name, Point>, queue: seq<Name>): map<Name, Point>
    requires forall n | n in queue :: n in placed
    decreases |Unplaced(p, placed)|, |queue|
  {
    if queue == [] then placed
    else
      FollowEdgesGrows(p, placed, queue[1..], queue[0], EDGES);
      FollowEdgesQueue(p, placed, queue[1..], queue[0], EDGES);
      var (placed', queue') := FollowEdges(p, placed, queue[1..], queue[0], EDGES);
      if Unplaced(p, placed') < Unplaced(p, placed) then
        SubsetSmaller(Unplaced(p, placed'), Unplaced(p, placed));
        Follow(p, placed', queue')
      else Follow(p, placed', queue')
  }

  lemma {:induction false} FollowEdgesQueue(p: Plan, placed: map<Name, Point>, queue: seq<Name>, a: Name,
          edges: seq<Edge>)
    requires a in placed && forall n | n in queue :: n in placed
    ensures var (placed', queue') := FollowEdges(p, placed, queue, a, edges);
      && (forall n | n in queue' :: n in placed')
      && (forall n | n in placed' && n !in placed :: n in queue')
    decreases |edges|
  {
    if edges != [] {
      if Placeable(p, placed, a, edges[0]) {
        var b := p.layout.Neighbor(a, edges[0]).value;
        var placed1 := placed[b := Beside(placed[a], p.sizeOf(a), p.sizeOf(b), edges[0])];
        FollowEdgesQueue(p, placed1, queue + [b], a, edges[1..]);
        FollowEdgesGrows(p, placed1, queue + [b], a, edges[1..]);
        assert FollowEdges(p, placed, queue, a, edges).1[|queue|] == b;
      } else {
        FollowEdgesQueue(p, placed, queue, a, edges[1..]);
        assert FollowEdges(p, placed, queue, a, edges) == FollowEdges(p, placed, queue, a, edges[1..]);
      }
    }
  }

  /** The largest right edge of the placed screens of `names`. */
  function Rightmost(p: Plan, placed: map<Name, Point>, names: seq<Name>): Option<int> {
    if names == [] then None
    else
      var rest := Rightmost(p, placed, names[..|names| - 1]);
      var n := names[|names| - 1];
      if n !in placed then rest
      else
        var r := placed[n].x + p.sizeOf(n).w;
        if rest.Some? then Some(Max(rest.value, r)) else Some(r)
  }

  function Row(p: Plan, placed: map<Name, Point>, right: int, names: seq<Name>): map<Name, Point>
    decreases |names|
  {
    if names == [] then placed
    else if names[0] in placed then Row(p, placed, right, names[1..])
    else Row(p, placed[names[0] := Point(right, 0)], right + p.sizeOf(names[0]).w, names[1..])
  }

  function Linked(p: Plan): map<Name, Point> {
    SeededPlaced(p.order, Seeds(p));
    Follow(p, Seeds(p), Seeded(p.order, Seeds(p)))
  }

  lemma {:induction false} SeededPlaced(order: seq<Name>, placed: map<Name, Point>)
    ensures forall n :: n in Seeded(order, placed) <==> n in order && n in placed
  {
    if order != [] {
      SeededPlaced(order[1..], placed);
    }
  }

  function StartOfRow(p: Plan, linked: map<Name, Point>): int {
    var r := Rightmost(p, linked, p.order);
    if r.Some? then r.value else 0
  }

  function EffectiveOrigins(p: Plan): map<Name, Point> {
    Row(p, Linked(p), StartOfRow(p, Linked(p)), p.order)
  }

  /** The three loops of `effective_origins`: the worklist, ... */
  method FollowLinks(p: Plan, seeds: map<Name, Point>) returns (placed: map<Name, Point>)
    requires seeds == Seeds(p)
    ensures placed == Linked(p)
  {
    placed := seeds;
    SeededPlaced(p.order, placed);
    var queue := Seeded(p.order, placed);
    while queue != []
      invariant forall n | n in queue :: n in placed
      invariant Follow(p, placed, queue) == Linked(p)
      decreases |Unplaced(p, placed)|, |queue|
    {
      ghost var placed0 := placed;
      var a := queue[0];
      queue := queue[1..];
      FollowEdgesGrows(p, placed, queue, a, EDGES);
      FollowEdgesQueue(p, placed, queue, a, EDGES);
      placed, queue := TryEdges(p, placed, queue, a);
      if Unplaced(p, placed) < Unplaced(p, placed0) {
        SubsetSmaller(Unplaced(p, placed), Unplaced(p, placed0));
      }
    }
  }

  method TryEdges(p: Plan, placed0: map<Name, Point>, queue0: seq<Name>, a: Name) returns (placed: map<Name, Point>,
          queue: seq<Name>)
    requires a in placed0
    ensures (placed, queue) == FollowEdges(p, placed0, queue0, a, EDGES)
  {
    placed, queue := placed0, queue0;
    for i := 0 to |EDGES|
      invariant a in placed
      invariant FollowEdges(p, placed, queue, a, EDGES[i..]) == FollowEdges(p, placed0, queue0, a, EDGES)
    {
      assert EDGES[i..][0] == EDGES[i] && EDGES[i..][1..] == EDGES[i + 1..];
      var b := p.layout.Neighbor(a, EDGES[i]);
      if b.Some? && b.value !in placed && b.value in p.order {
        placed := placed[b.value := Beside(placed[a], p.sizeOf(a), p.sizeOf(b.value), EDGES[i])];
        queue := queue + [b.value];
      }
    }
  }

  /** ... the running maximum of right edges, ... */
  method StartOfRowLoop(p: Plan, placed: map<Name, Point>) returns (right: int)
    ensures right == StartOfRow(p, placed)
  {
    var best: Option<int> := None;
    for i := 0 to |p.order|
      invariant best == Rightmost(p, placed, p.order[..i])
    {
      assert p.order[..i + 1][..i] == p.order[..i];
      if p.order[i] in placed {
        var r := placed[p.order[i]].x + p.sizeOf(p.order[i]).w;
        best := Some(if best.Some? then Max(best.value, r) else r);
      }
    }
    assert p.order[..|p.order|] == p.order;
    right := if best.Some? then best.value else 0;
  }

  /** ... and the row of what is left, in config order. */
  method EffectiveOriginsLoop(p: Plan) returns (placed: map<Name, Point>)
    ensures placed == EffectiveOrigins(p)
  {
    placed := map n | n in p.configured && n in p.order :: p.configured[n];
    if p.local !in placed {
      placed := placed[p.local := Point(0, 0)];
    }
    placed := FollowLinks(p, placed);
    var right := StartOfRowLoop(p, placed);
    placed := RowLoop(p, placed, right);
  }

  method RowLoop(p: Plan, placed0: map<Name, Point>, right0: int) returns (placed: map<Name, Point>)
    ensures placed == Row(p, placed0, right0, p.order)
  {
    placed := placed0;
    var right := right0;
    for i := 0 to |p.order|
      invariant Row(p, placed, right, p.order[i..]) == Row(p, placed0, right0, p.order)
    {
      assert p.order[i..][0] == p.order[i] && p.order[i..][1..] == p.order[i + 1..];
      if p.order[i] !in placed {
        placed := placed[p.order[i] := Point(right, 0)];
        right := right + p.sizeOf(p.order[i]).w;
      }
    }
  }

  // ---- what the placement guarantees ----------------------------------------------------

  /** `b` lies beyond edge `e` of `a`: the two share that edge, and begin alike along it. */
  predicate Adjoins(a: Rect, b: Rect, e: Edge) {
    match e
    case Right => b.x == a.RightEdge() && b.y == a.y
    case Left => b.RightEdge() == a.x && b.y == a.y
    case Bottom => b.y == a.BottomEdge() && b.x == a.x
    case Top => b.BottomEdge() == a.y && b.x == a.x
  }

  /** So the two have no point in common. */
  lemma AdjoiningDisjoint(a: Rect, b: Rect, e: Edge)
    requires Adjoins(a, b, e)
    ensures Disjoint(a, b)
  {
  }

  function Box(p: Plan, at: map<Name, Point>, n: Name): Rect
    requires n in at
  {
    Rect(at[n].x, at[n].y, p.sizeOf(n).w, p.sizeOf(n).h)
  }

  /** `b` lies beyond the edge of `a` that a link leads to it across. */
  predicate PlacedBeside(p: Plan, at: map<Name, Point>, a: Name, e: Edge, b: Name) {
    && a in at && b in at
    && p.layout.Neighbor(a, e) == Some(b)
    && Adjoins(Box(p, at, a), Box(p, at, b), e)
  }

  ghost predicate HasAnchor(p: Plan, at: map<Name, Point>, b: Name) {
    exists a, e :: PlacedBeside(p, at, a, e, b)
  }

  /** Everything `a` links to in the order is placed. */
  predicate Explored(p: Plan, placed: map<Name, Point>, a: Name, edges: seq<Edge>) {
    forall e | e in edges :: !Placeable(p, placed, a, e)
  }

  lemma AnchorKept(p: Plan, placed: map<Name, Point>, placed': map<Name, Point>, b: Name)
    requires HasAnchor(p, placed, b)
    requires placed.Keys <= placed'.Keys && forall n | n in placed :: placed'[n] == placed[n]
    ensures HasAnchor(p, placed', b)
  {
    var a, e :| PlacedBeside(p, placed, a, e, b);
    assert PlacedBeside(p, placed', a, e, b);
  }

  lemma {:induction false} FollowEdgesPlaces(p: Plan, placed: map<Name, Point>, queue: seq<Name>, a: Name,
          edges: seq<Edge>)
    requires a in placed
    ensures var placed' := FollowEdges(p, placed, queue, a, edges).0;
      && Explored(p, placed', a, edges)
      && (forall n | n in placed' && n !in placed :: n in p.order && HasAnchor(p, placed', n))
    decreases |edges|
  {
    if edges != [] {
      if Placeable(p, placed, a, edges[0]) {
        var b := p.layout.Neighbor(a, edges[0]).value;
        var placed1 := placed[b := Beside(placed[a], p.sizeOf(a), p.sizeOf(b), edges[0])];
        assert PlacedBeside(p, placed1, a, edges[0], b);
        FollowEdgesPlaces(p, placed1, queue + [b], a, edges[1..]);
        FollowEdgesGrows(p, placed1, queue + [b], a, edges[1..]);
        AnchorKept(p, placed1, FollowEdges(p, placed, queue, a, edges).0, b);
      } else {
        FollowEdgesPlaces(p, placed, queue, a, edges[1..]);
        FollowEdgesGrows(p, placed, queue, a, edges[1..]);
      }
    }
  }

  /** The worklist ends closed under links: nothing placed is moved, everything added has an
      anchor, and no screen of the order that a placed one links to is left out. */
  lemma {:induction false} FollowPlaces(p: Plan, placed: map<Name, Point>, queue: seq<Name>)
    requires forall n | n in queue :: n in placed
    requires forall a | a in placed && a in p.order && a !in queue :: Explored(p, placed, a, EDGES)
    ensures var at := Follow(p, placed, queue);
      && placed.Keys <= at.Keys && (forall n | n in placed :: at[n] == placed[n])
      && (forall n | n in at && n !in placed :: n in p.order && HasAnchor(p, at, n))
      && (forall a | a in at && a in p.order :: Explored(p, at, a, EDGES))
    decreases |Unplaced(p, placed)|, |queue|
  {
    if queue != [] {
      FollowEdgesGrows(p, placed, queue[1..], queue[0], EDGES);
      FollowEdgesQueue(p, placed, queue[1..], queue[0], EDGES);
      FollowEdgesPlaces(p, placed, queue[1..], queue[0], EDGES);
      var (placed', queue') := FollowEdges(p, placed, queue[1..], queue[0], EDGES);
      if Unplaced(p, placed') < Unplaced(p, placed) {
        SubsetSmaller(Unplaced(p, placed'), Unplaced(p, placed));
      }
      forall a | a in placed' && a in p.order && a !in queue'
        ensures Explored(p, placed', a, EDGES)
      {
        if a != queue[0] {
          assert a !in queue[1..];
          assert Explored(p, placed, a, EDGES);
        }
      }
      FollowPlaces(p, placed', queue');
      var at := Follow(p, placed', queue');
      forall n | n in at && n !in placed
        ensures n in p.order && HasAnchor(p, at, n)
      {
        if n in placed' {
          AnchorKept(p, placed', at, n);
        }
      }
    }
  }

  ghost predicate LinksTo(p: Plan, a: Name, b: Name) {
    exists e :: p.layout.Neighbor(a, e) == Some(b)
  }

  /** `path` goes from a screen placed to begin with, along links, inside the order. */
  ghost predicate LinkPath(p: Plan, path: seq<Name>) {
    && path != [] && path[0] in Seeds(p)
    && (forall i :: 0 <= i < |path| ==> path[i] in p.order)
    && forall i :: 0 <= i < |path| - 1 ==> LinksTo(p, path[i], path[i + 1])
  }

  lemma EveryEdge(e: Edge)
    ensures e in EDGES
  {
    var i := match e case Left => 0 case Right => 1 case Top => 2 case Bottom => 3;
    assert EDGES[i] == e;
  }

  lemma {:induction false} LinkPathIsPlaced(p: Plan, path: seq<Name>)
    requires LinkPath(p, path)
    ensures path[|path| - 1] in Linked(p)
  {
    LinkedPlaces(p);
    var n := |path| - 1;
    if n > 0 {
      var front := path[..n];
      assert forall i | 0 <= i < |front| :: front[i] == path[i];
      LinkPathIsPlaced(p, front);
      var e :| p.layout.Neighbor(path[n - 1], e) == Some(path[n]);
      EveryEdge(e);
      assert Explored(p, Linked(p), path[n - 1], EDGES);
    }
  }

  lemma LinkedPlaces(p: Plan)
    ensures var at := Linked(p);
      && Seeds(p).Keys <= at.Keys && (forall n | n in Seeds(p) :: at[n] == Seeds(p)[n])
      && (forall n | n in at && n !in Seeds(p) :: n in p.order && HasAnchor(p, at, n))
      && (forall a | a in at && a in p.order :: Explored(p, at, a, EDGES))
  {
    SeededPlaced(p.order, Seeds(p));
    FollowPlaces(p, Seeds(p), Seeded(p.order, Seeds(p)));
  }

  lemma {:induction false} RightmostBounds(p: Plan, placed: map<Name, Point>, names: seq<Name>)
    ensures forall n | n in names && n in placed ::
      Rightmost(p, placed, names).Some? && placed[n].x + p.sizeOf(n).w <= Rightmost(p, placed, names).value
    ensures Rightmost(p, placed, names).Some? ==>
      exists n :: n in names && n in placed && placed[n].x + p.sizeOf(n).w == Rightmost(p, placed, names).value
  {
    if names != [] {
      RightmostBounds(p, placed, names[..|names| - 1]);
      assert names == names[..|names| - 1] + [names[|names| - 1]];
    }
  }

  /** The names not placed yet, each once, in the order they come. */
  function Missing(placed: set<Name>, names: seq<Name>): (missing: seq<Name>)
    ensures forall n :: n in missing <==> n in names && n !in placed
    ensures forall i, j :: 0 <= i < j < |missing| ==> missing[i] != missing[j]
    decreases |names|
  {
    if names == [] then []
    else
      assert names == [names[0]] + names[1..];
      if names[0] in placed then Missing(placed, names[1..]) else [names[0]] + Missing(placed + {names[0]}, names[1..])
  }

  /** `row` stands at the height of the desk's own corner from `right` on, without gaps. */
  predicate StandsInRow(p: Plan, at: map<Name, Point>, right: int, row: seq<Name>) {
    && (forall n | n in row :: n in at && at[n].y == 0)
    && (row != [] ==> at[row[0]].x == right)
    && forall i :: 0 <= i < |row| - 1 ==> at[row[i + 1]].x == at[row[i]].x + p.sizeOf(row[i]).w
  }

  lemma OneMoreInRow(p: Plan, at: map<Name, Point>, right: int, n: Name, row: seq<Name>)
    requires n in at && at[n] == Point(right, 0) && StandsInRow(p, at, right + p.sizeOf(n).w, row)
    ensures StandsInRow(p, at, right, [n] + row)
  {
    var all := [n] + row;
    forall i | 0 <= i < |all| - 1 ensures at[all[i + 1]].x == at[all[i]].x + p.sizeOf(all[i]).w {
      if i > 0 {
        assert all[i] == row[i - 1] && all[i + 1] == row[i - 1 + 1];
      }
    }
  }

  /** What is missing is put in a row that begins at `right`, in order and without gaps, ... */
  lemma {:induction false} RowStands(p: Plan, placed: map<Name, Point>, right: int, names: seq<Name>)
    ensures var at := Row(p, placed, right, names);
      placed.Keys <= at.Keys && (forall n | n in placed :: at[n] == placed[n]) && StandsInRow(p, at, right, Missing(placed.Keys, names))
    decreases |names|
  {
    if names != [] {
      var n := names[0];
      if n in placed {
        RowStands(p, placed, right, names[1..]);
      } else {
        var placed1 := placed[n := Point(right, 0)];
        RowStands(p, placed1, right + p.sizeOf(n).w, names[1..]);
        assert placed1.Keys == placed.Keys + {n};
        OneMoreInRow(p, Row(p, placed, right, names), right, n, Missing(placed1.Keys, names[1..]));
      }
    }
  }

  /** ... and no two of its screens overlap. */
  lemma {:induction false} RowPlaces(p: Plan, placed: map<Name, Point>, right: int, names: seq<Name>)
    requires forall n | n in names :: p.sizeOf(n).w >= 0
    ensures var at := Row(p, placed, right, names);
      && at.Keys == placed.Keys + (set n | n in names)
      && (forall n | n in placed :: at[n] == placed[n])
      && (forall n | n in at && n !in placed :: right <= at[n].x)
      && (forall m, n | m in at && n in at && m !in placed && n !in placed && m != n :: Disjoint(Box(p, at, m), Box(p, at, n)))
    decreases |names|
  {
    if names != [] {
      var n := names[0];
      assert names == [n] + names[1..];
      if n in placed {
        RowPlaces(p, placed, right, names[1..]);
      } else {
        var placed1 := placed[n := Point(right, 0)];
        RowPlaces(p, placed1, right + p.sizeOf(n).w, names[1..]);
      }
    }
  }

  /** The right edge of some placed screen of the order is at `right`, and of none beyond; or there is
      none and it is the desk's own corner. */
  ghost predicate RightOfAll(p: Plan, placed: map<Name, Point>, right: int) {
    && (forall n | n in p.order && n in placed :: placed[n].x + p.sizeOf(n).w <= right)
    && (if exists n :: n in p.order && n in placed then
          exists n :: n in p.order && n in placed && placed[n].x + p.sizeOf(n).w == right
        else right == 0)
  }

  /** What no link leads to stands in config order, without gaps, right of everything else. */
  lemma TheRestStandsInRow(p: Plan)
    ensures exists right ::
      RightOfAll(p, Linked(p), right) && StandsInRow(p, EffectiveOrigins(p), right, Missing(Linked(p).Keys, p.order))
  {
    var linked, right := Linked(p), StartOfRow(p, Linked(p));
    RightmostBounds(p, linked, p.order);
    assert RightOfAll(p, linked, right);
    RowStands(p, linked, right, p.order);
  }

  /** Placement, whole: every screen once, every configured origin kept, every screen that
      links lead to beyond the edge of a placed one it is linked across, and the rest in a row that
      overlaps nothing. */
  lemma OriginsPlaceEveryScreen(p: Plan)
    requires forall n | n in p.order :: p.sizeOf(n).w >= 0
    ensures var at := EffectiveOrigins(p);
      && at.Keys == (set n | n in p.order) + {p.local}
      && (forall n | n in p.configured && n in p.order :: at[n] == p.configured[n])
      && (p.local !in p.configured || p.local !in p.order ==> at[p.local] == Point(0, 0))
      && (forall n | n in p.order && n !in Seeds(p) && n in Linked(p) :: HasAnchor(p, at, n))
      && (forall m, n | m in p.order && n in p.order && m != n && n !in Linked(p) :: Disjoint(Box(p, at, m), Box(p, at, n)))
    ensures forall path | LinkPath(p, path) :: path[|path| - 1] in Linked(p)
  {
    var linked, at := Linked(p), EffectiveOrigins(p);
    var right := StartOfRow(p, linked);
    LinkedPlaces(p);
    RowPlaces(p, linked, right, p.order);
    forall n | n in p.order && n !in Seeds(p) && n in linked
      ensures HasAnchor(p, at, n)
    {
      AnchorKept(p, linked, at, n);
    }
    RightmostBounds(p, linked, p.order);
    forall m, n | m in p.order && n in p.order && m != n && n !in linked
      ensures Disjoint(Box(p, at, m), Box(p, at, n))
    {
      if m in linked {
        assert at[m].x + p.sizeOf(m).w <= right <= at[n].x;
      }
    }
    forall path | LinkPath(p, path)
      ensures path[|path| - 1] in linked
    {
      LinkPathIsPlaced(p, path);
    }
  }
}
