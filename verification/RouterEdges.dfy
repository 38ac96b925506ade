/** When the pointer leaves home: which edge it crosses, where it comes to, and how long it has to
    have waited there (`on_pointer` in `geserdesk-server/src/router.rs`). */
module RouterEdges {
  import opened Wrappers
  import opened Geometry
  import opened Frames
  import opened Names
  import opened Switching
  import opened Input
  import opened Router
  import opened RouterMotion

  // ---- crossings --------------------------------------------------------------------------------

  /** How deep the zone at an edge is: a pixel at least. */
  function Zone(s: CoreState): int {
    if s.policy.jumpZone > 1 then s.policy.jumpZone else 1
  }

  /** The point `n` pixels across edge `e` from `p`. */
  function Across(p: Point, e: Edge, n: int): Point {
    match e
    case Left => Shifted(p, Point(-n, 0))
    case Right => Shifted(p, Point(n, 0))
    case Top => Shifted(p, Point(0, -n))
    case Bottom => Shifted(p, Point(0, n))
  }

  /** The desk point beyond edge `e` from `p`. */
  function DeskAcross(s: CoreState, p: Point, e: Edge): Point {
    s.FrameOf(s.local).ToDesk(Across(p, e, Zone(s)))
  }

  /** Across edge `e` no local monitor goes on, and `name` is what the desk has there, with `at` the
      point of its plane that lies there. */
  ghost predicate Crosses(s: CoreState, p: Point, e: Edge, name: Name, at: Point) {
    && !Covered(Across(p, e, Zone(s)), s.localMonitors)
    && FirstAt(s, DeskAcross(s, p, e), s.local, name)
    && at == s.FrameOf(name).ToLocal(DeskAcross(s, p, e))
  }

  /** The order in which edges are looked at. */
  function Rank(e: Edge): nat {
    match e case Left => 0 case Right => 1 case Top => 2 case Bottom => 3
  }

  ghost predicate FirstCrossing(s: CoreState, p: Point, e: Edge, name: Name, at: Point) {
    Crosses(s, p, e, name, at) && forall f, n, q | Rank(f) < Rank(e) :: !Crosses(s, p, f, n, q)
  }

  /** A point of a monitor is in the zone of an edge exactly if the point across it is off the monitor. */
  lemma ZoneLeadsOff(m: Rect, p: Point, e: Edge, n: int)
    requires m.Contains(p) && n > 0
    ensures AtEdge(m, p, e, n) <==> !m.Contains(Across(p, e, n))
    ensures Across(p, e, n) == StepOver(p, e, n)
  {
  }

  lemma HitIsCrossing(s: CoreState, m: Rect, p: Point, e: Edge)
    requires s.Sound() && m in s.localMonitors && m.Contains(p)
    ensures match s.HitAt(m, p, e)
      case None => forall name, at :: !Crosses(s, p, e, name, at)
      case Some(x) => x.edge == e && Crosses(s, p, e, x.name, x.at)
  {
    ZoneLeadsOff(m, p, e, Zone(s));
    LocateFindsTheFirst(s, DeskAcross(s, p, e), s.local);
  }

  lemma {:induction false} FirstHitIsFirst(s: CoreState, m: Rect, p: Point, edges: seq<Edge>)
    requires s.Sound() && m in s.localMonitors && m.Contains(p)
    requires forall i, j :: 0 <= i < j < |edges| ==> Rank(edges[i]) < Rank(edges[j])
    ensures match s.FirstHit(m, p, edges)
      case None => forall e, name, at | e in edges :: !Crosses(s, p, e, name, at)
      case Some(x) =>
        && x.edge in edges && Crosses(s, p, x.edge, x.name, x.at)
        && forall f, n, q | f in edges && Rank(f) < Rank(x.edge) :: !Crosses(s, p, f, n, q)
  {
    if edges != [] {
      HitIsCrossing(s, m, p, edges[0]);
      assert edges == [edges[0]] + edges[1..];
      if s.HitAt(m, p, edges[0]).None? {
        FirstHitIsFirst(s, m, p, edges[1..]);
      }
    }
  }

  lemma EdgesInOrder(edges: seq<Edge>)
    requires edges == EDGES
    ensures forall i, j :: 0 <= i < j < |edges| ==> Rank(edges[i]) < Rank(edges[j])
    ensures forall e: Edge :: e in edges
  {
    forall e: Edge ensures e in edges {
      assert edges[Rank(e)] == e;
    }
  }

  /** Which monitor was last under the pointer has no part in it. */
  lemma SameCrossings(s: CoreState, c: CoreState, p: Point)
    requires c == s.(lastLocal := c.lastLocal)
    ensures forall e, name, at :: Crosses(s, p, e, name, at) <==> Crosses(c, p, e, name, at)
  {
    assert forall v, exclude, n :: HasAt(s, v, exclude, n) <==> HasAt(c, v, exclude, n);
    forall e, name, at ensures Crosses(s, p, e, name, at) <==> Crosses(c, p, e, name, at) {
      assert DeskAcross(s, p, e) == DeskAcross(c, p, e);
    }
  }

  // ---- one sample of the pointer -----------------------------------------------------------------

  /** The monitor the pointer is on: the first that has it. */
  predicate IsUnder(m: Rect, p: Point, monitors: seq<Rect>) {
    monitors != [] && if monitors[0].Contains(p) then m == monitors[0] else IsUnder(m, p, monitors[1..])
  }

  /** The corner constraint: along edge `e` of `m`, the pointer is fewer than `size` pixels from the
      first or the last pixel; where `size` is not positive the whole edge counts. */
  predicate NearAnEnd(m: Rect, p: Point, e: Edge, size: int) {
    size > 0 ==>
      if e.Top? || e.Bottom? then p.x < m.x + size || p.x > m.RightEdge() - 1 - size
      else p.y < m.y + size || p.y > m.BottomEdge() - 1 - size
  }

  lemma NearAnEndIsNearCorner(m: Rect, p: Point, e: Edge, size: int)
    ensures NearAnEnd(m, p, e, size) <==> NearCorner(m, p, e, size)
  {
  }

  lemma {:induction false} UnderIsFirst(p: Point, monitors: seq<Rect>)
    requires Covered(p, monitors)
    ensures IsUnder(FirstContaining(monitors, p).value, p, monitors)
    ensures forall m | IsUnder(m, p, monitors) :: m == FirstContaining(monitors, p).value && m in monitors && m.Contains(p)
  {
    if !monitors[0].Contains(p) {
      assert Covered(p, monitors[1..]);
      UnderIsFirst(p, monitors[1..]);
      assert forall m | m in monitors[1..] :: m in monitors;
    }
  }

  /** What a sample of the pointer at home comes to: the first crossing it is at is put to the switch
      policy, and on its word the machine there is entered at the point beyond. */
  ghost predicate Samples(s: CoreState, m: Rect, p: Point, now: nat, c: CoreState) {
    && ((forall e, name, at :: !FirstCrossing(s, p, e, name, at)) ==> c.mode.Local? && c.switcher == LeftEdge(s.switcher))
    && forall e, name, at | FirstCrossing(s, p, e, name, at) ::
      var (sw, d) := Evaluate(s.switcher, s.policy, now, e, true, NearAnEnd(m, p, e, s.policy.cornerSize));
      if d == Switch then c.mode == Remote(name, at) && c.switcher == Switched(sw) else c.mode.Local? && c.switcher == sw
  }

  lemma OneFirstCrossing(s: CoreState, p: Point, e: Edge, name: Name, at: Point, f: Edge, n: Name, q: Point)
    requires FirstCrossing(s, p, e, name, at) && FirstCrossing(s, p, f, n, q)
    ensures e == f && name == n && at == q
  {
    assert Rank(e) == Rank(f);
    OneFirst(s, DeskAcross(s, p, e), s.local, name, n);
  }

  lemma PointerSamples(s: CoreState, m: Rect, p: Point, now: nat)
    requires s.Sound() && s.mode.Local? && IsUnder(m, p, s.localMonitors)
    ensures Samples(s, m, p, now, s.OnPointer(p, now).0)
  {
    UnderIsCovered(m, p, s.localMonitors);
    UnderIsFirst(p, s.localMonitors);
    var c, edges := s.(lastLocal := Some(m)), EDGES;
    EdgesInOrder(edges);
    FirstHitIsFirst(c, m, p, edges);
    SameCrossings(s, c, p);
    var hit := PointerDecides(s, m, p, now);
    HitDecides(s, c, m, p, now, hit, s.OnPointer(p, now).0);
  }

  /** Where a hit leads, by the policy's word. */
  predicate Decides(s: CoreState, c: CoreState, m: Rect, p: Point, now: nat, hit: Option<Crossing>, end: CoreState) {
    match hit
    case None => end == c.(switcher := LeftEdge(s.switcher))
    case Some(x) =>
      var (sw, d) := Evaluate(s.switcher, s.policy, now, x.edge, true, NearCorner(m, p, x.edge, s.policy.cornerSize));
      if d == Switch then end == c.(switcher := sw).EnterScreen(x.name, x.at).0 else end == c.(switcher := sw)
  }

  lemma PointerDecides(s: CoreState, m: Rect, p: Point, now: nat) returns (hit: Option<Crossing>)
    requires s.Sound() && s.mode.Local? && FirstContaining(s.localMonitors, p) == Some(m)
    ensures hit == s.(lastLocal := Some(m)).FirstHit(m, p, EDGES)
    ensures Decides(s, s.(lastLocal := Some(m)), m, p, now, hit, s.OnPointer(p, now).0)
  {
    hit := s.(lastLocal := Some(m)).FirstHit(m, p, EDGES);
  }

  lemma {:induction false} UnderIsCovered(m: Rect, p: Point, monitors: seq<Rect>)
    requires IsUnder(m, p, monitors)
    ensures Covered(p, monitors)
  {
    if !monitors[0].Contains(p) {
      UnderIsCovered(m, p, monitors[1..]);
      var r :| r in monitors[1..] && r.Contains(p);
      assert r in monitors;
    }
  }

  lemma HitDecides(s: CoreState, c: CoreState, m: Rect, p: Point, now: nat, hit: Option<Crossing>, end: CoreState)
    requires match hit
      case None => forall e, name, at :: !Crosses(s, p, e, name, at)
      case Some(x) => FirstCrossing(s, p, x.edge, x.name, x.at)
    requires c == s.(lastLocal := c.lastLocal) && s.mode.Local?
    requires Decides(s, c, m, p, now, hit, end)
    ensures Samples(s, m, p, now, end)
  {
    if hit.Some? {
      var x := hit.value;
      NearAnEndIsNearCorner(m, p, x.edge, s.policy.cornerSize);
      forall e, name, at | FirstCrossing(s, p, e, name, at) ensures e == x.edge && name == x.name && at == x.at {
        OneFirstCrossing(s, p, e, name, at, x.edge, x.name, x.at);
      }
    }
  }

  /** The pointer leaves home only across the first edge it is at with a machine beyond, to the very
      point of the desk beyond it; and with a corner constraint only near an end of that edge. */
  lemma PointerCrosses(s: CoreState, p: Point, now: nat) returns (m: Rect, e: Edge)
    requires s.Sound() && s.mode.Local? && s.OnPointer(p, now).0.mode.Remote?
    ensures IsUnder(m, p, s.localMonitors) && NearAnEnd(m, p, e, s.policy.cornerSize)
    ensures FirstCrossing(s, p, e, s.OnPointer(p, now).0.mode.screen, s.OnPointer(p, now).0.mode.pos)
  {
    m := FirstContaining(s.localMonitors, p).value;
    UnderIsFirst(p, s.localMonitors);
    PointerSamples(s, m, p, now);
    var f, name, at :| FirstCrossing(s, p, f, name, at);
    e := f;
  }

  /** A pointer at least as many pixels as the corner constraint asks from both ends of every edge it
      could cross stays home, whatever else the policy says. */
  lemma MidEdgeStaysHome(s: CoreState, m: Rect, p: Point, now: nat)
    requires s.Sound() && s.mode.Local? && IsUnder(m, p, s.localMonitors) && s.policy.cornerSize > 0
    requires forall e, name, at | Crosses(s, p, e, name, at) ::
      var (pos, lo, hi) := if e.Left? || e.Right? then (p.y, m.y, m.BottomEdge()) else (p.x, m.x, m.RightEdge());
      lo + s.policy.cornerSize <= pos < hi - s.policy.cornerSize
    ensures s.OnPointer(p, now).0.mode.Local?
  {
    UnderIsCovered(m, p, s.localMonitors);
    UnderIsFirst(p, s.localMonitors);
    if s.OnPointer(p, now).0.mode.Remote? {
      var r, e := PointerCrosses(s, p, now);
    }
  }

  // ---- whole runs -------------------------------------------------------------------------------------

  datatype Occurrence = Captured(ev: CaptureEvent, now: nat) | Told(news: HubEvent)

  /** The handshake lets only monitors with an area in. */
  predicate Admissible(o: Occurrence) {
    match o
    case Told(Connected(_, monitors)) => AllProper(monitors)
    case Told(LocalMonitors(monitors)) => AllProper(monitors)
    case _ => true
  }

  function React(s: CoreState, o: Occurrence): (c: CoreState)
    requires s.Sound() && Admissible(o)
    ensures c.Sound() && c.policy == s.policy
  {
    match o
    case Captured(ev, now) => AfterEvent(s, ev, now)
    case Told(news) => AfterNews(s, news)
  }

  function AfterEvent(s: CoreState, ev: CaptureEvent, now: nat): (c: CoreState)
    requires s.Sound()
    ensures c.Sound() && c.policy == s.policy
  {
    s.Handle(ev, now).0
  }

  function AfterNews(s: CoreState, news: HubEvent): (c: CoreState)
    requires s.Sound() && Admissible(Told(news))
    ensures c.Sound() && c.policy == s.policy
  {
    s.OnHub(news).0
  }

  function Reached(s: CoreState, os: seq<Occurrence>): (c: CoreState)
    requires s.Sound() && forall o | o in os :: Admissible(o)
    ensures c.Sound() && c.policy == s.policy
  {
    if os == [] then s else React(Reached(s, os[..|os| - 1]), os[|os| - 1])
  }

  ghost predicate FirstEdge(s: CoreState, p: Point, e: Edge) {
    exists name, at :: FirstCrossing(s, p, e, name, at)
  }

  /** What a sample of the pointer on monitor `m` is to the switch policy. */
  ghost function EdgeStep(s: CoreState, m: Rect, p: Point, now: nat): Step {
    if e :| FirstEdge(s, p, e) then Sample(now, e, true, NearAnEnd(m, p, e, s.policy.cornerSize)) else Step.Left
  }

  function Where(s: CoreState): Option<Name> {
    if s.mode.Remote? then Some(s.mode.screen) else None
  }

  /** What one occurrence is to the switch policy: the pointer at home touches an edge or leaves them
      all; and whenever the input goes elsewhere, that is the end of it. */
  ghost function StepsOf(s: CoreState, o: Occurrence): seq<Step>
    requires s.Sound() && Admissible(o)
  {
    (if o.Captured? && o.ev.Pointer? && s.mode.Local? && Covered(o.ev.at, s.localMonitors)
     then [EdgeStep(s, FirstContaining(s.localMonitors, o.ev.at).value, o.ev.at, o.now)] else [])
    + (if Where(React(s, o)) != Where(s) then [Done] else [])
  }

  ghost function Trace(s: CoreState, os: seq<Occurrence>): seq<Step>
    requires s.Sound() && forall o | o in os :: Admissible(o)
  {
    if os == [] then []
    else Trace(s, os[..|os| - 1]) + StepsOf(Reached(s, os[..|os| - 1]), os[|os| - 1])
  }

  lemma RunMore(p: SwitchPolicy, steps: seq<Step>, more: seq<Step>)
    requires |more| <= 2
    ensures more == [] ==> Run(p, steps + more) == Run(p, steps)
    ensures |more| == 1 ==> Run(p, steps + more) == Act(Run(p, steps), p, more[0])
    ensures |more| == 2 ==> Run(p, steps + more) == Act(Act(Run(p, steps), p, more[0]), p, more[1])
  {
    var all := steps + more;
    if more == [] {
      assert all == steps;
    } else if |more| == 1 {
      assert all[..|steps|] == steps;
    } else {
      assert all[..|steps| + 1] == steps + [more[0]] && (steps + [more[0]])[..|steps|] == steps;
    }
  }

  /** What the steps make of a switcher: two at most. */
  function ActAll(sw: Switcher, p: SwitchPolicy, steps: seq<Step>): Switcher
    requires |steps| <= 2
  {
    if steps == [] then sw
    else if |steps| == 1 then Act(sw, p, steps[0])
    else Act(Act(sw, p, steps[0]), p, steps[1])
  }

  lemma SampleIsSteps(s: CoreState, p: Point, now: nat)
    requires s.Sound() && s.mode.Local? && Covered(p, s.localMonitors)
    ensures s.OnPointer(p, now).0.switcher == ActAll(s.switcher, s.policy, StepsOf(s, Captured(Pointer(p), now)))
  {
    var m := FirstContaining(s.localMonitors, p).value;
    UnderIsFirst(p, s.localMonitors);
    PointerSamples(s, m, p, now);
    var c := s.OnPointer(p, now).0;
    EdgeStepIsSample(s, m, p, now, c);
    OneOrTwo(s.switcher, s.policy, EdgeStep(s, m, p, now), Where(c) != Where(s));
  }

  lemma OneOrTwo(sw: Switcher, p: SwitchPolicy, step: Step, more: bool)
    ensures var after := Act(sw, p, step);
      ActAll(sw, p, [step] + (if more then [Done] else [])) == if more then Switched(after) else after
  {
  }

  lemma EdgeStepIsSample(s: CoreState, m: Rect, p: Point, now: nat, c: CoreState)
    requires Samples(s, m, p, now, c) && s.mode.Local?
    ensures var after := Act(s.switcher, s.policy, EdgeStep(s, m, p, now));
      c.switcher == if c.mode.Remote? then Switched(after) else after
  {
    if exists e :: FirstEdge(s, p, e) {
      var e :| FirstEdge(s, p, e);
      var name, at :| FirstCrossing(s, p, e, name, at);
      forall f | FirstEdge(s, p, f) ensures f == e {
        var n, q :| FirstCrossing(s, p, f, n, q);
        OneFirstCrossing(s, p, e, name, at, f, n, q);
      }
    } else {
      forall e, name, at ensures !FirstCrossing(s, p, e, name, at) {
        assert !FirstEdge(s, p, e);
      }
    }
  }

  /** The switcher is what it was, or starts over if the input went elsewhere. */
  predicate StartsOver(s: CoreState, c: CoreState) {
    c.switcher == if Where(c) != Where(s) then Switched(s.switcher) else s.switcher
  }

  lemma MoveSteps(s: CoreState, to: Point, beyond: Option<(Name, Point)>, c: CoreState)
    requires s.Sound() && s.mode.Remote?
    requires beyond.Some? ==> Covered(beyond.value.1, s.MonitorsOf(beyond.value.0)) && beyond.value.0 != s.mode.screen
    requires c == s.MoveTo(to, beyond).0
    ensures StartsOver(s, c)
  {
  }

  lemma MotionSteps(s: CoreState, dx: int, dy: int)
    requires s.Sound()
    ensures StartsOver(s, s.OnMotion(dx, dy).0)
  {
    if s.mode.Remote? && s.MonitorsOf(s.mode.screen) != [] {
      MoveSteps(s, s.Aim(dx, dy), s.Beyond(s.Aim(dx, dy)), s.OnMotion(dx, dy).0);
    }
  }

  lemma EventSteps(s: CoreState, ev: CaptureEvent, now: nat)
    requires s.Sound() && !(ev.Pointer? && s.mode.Local? && Covered(ev.at, s.localMonitors))
    ensures StartsOver(s, s.Handle(ev, now).0)
  {
    if ev.Motion? {
      MotionSteps(s, ev.dx, ev.dy);
    }
  }

  lemma NewsSteps(s: CoreState, news: HubEvent)
    requires s.Sound()
    ensures StartsOver(s, s.OnHub(news).0)
  {
  }

  lemma ReactIsSteps(s: CoreState, o: Occurrence)
    requires s.Sound() && Admissible(o)
    ensures React(s, o).switcher == ActAll(s.switcher, s.policy, StepsOf(s, o))
  {
    if o.Captured? && o.ev.Pointer? && s.mode.Local? && Covered(o.ev.at, s.localMonitors) {
      SampleIsSteps(s, o.ev.at, o.now);
    } else if o.Captured? {
      EventSteps(s, o.ev, o.now);
    } else {
      NewsSteps(s, o.news);
    }
  }

  /** The router's switcher is the state machine after the samples of the run, from the start of the
      server on, whatever the hub tells meanwhile. */
  lemma {:induction false} SwitcherIsRun(s: CoreState, os: seq<Occurrence>)
    requires s.Sound() && s.switcher == FRESH && forall o | o in os :: Admissible(o)
    ensures Reached(s, os).switcher == Run(s.policy, Trace(s, os))
  {
    if os != [] {
      var front, o := os[..|os| - 1], os[|os| - 1];
      SwitcherIsRun(s, front);
      ReactIsSteps(Reached(s, front), o);
      RunMore(s.policy, Trace(s, front), StepsOf(Reached(s, front), o));
    }
  }

  lemma {:induction false} NothingLocks(s: CoreState, os: seq<Occurrence>)
    requires s.Sound() && forall o | o in os :: Admissible(o)
    ensures forall step | step in Trace(s, os) :: !step.Lock? && !step.Toggle?
  {
    if os != [] {
      NothingLocks(s, os[..|os| - 1]);
    }
  }

  /** Nothing in the router sets Scroll Lock, so it holds nothing back. */
  lemma NeverLocked(s: CoreState, os: seq<Occurrence>)
    requires s.Sound() && forall o | o in os :: Admissible(o)
    ensures !LockOn(Trace(s, os))
  {
    NothingLocks(s, os);
    var steps := Trace(s, os);
    forall i, on | LastSet(steps, i, on) ensures !on && Toggles(steps[i..]) == 0 {
      NoToggles(steps[i..]);
    }
  }

  lemma {:induction false} NoToggles(steps: seq<Step>)
    requires forall step | step in steps :: !step.Toggle?
    ensures Toggles(steps) == 0
  {
    if steps != [] {
      NoToggles(steps[..|steps| - 1]);
    }
  }

  /** What the two gates ask of a sample on `e` after these steps. Double tap: the last unblocked sample
      since a switch was on `e`, within the window. Delay: the cursor has waited on `e` without a break
      since at least the delay; with both gates, a dwell on `e` as long has not been broken off. */
  ghost predicate GatesOpen(p: SwitchPolicy, steps: seq<Step>, e: Edge, now: nat) {
    && (p.doubleTapMs > 0 ==>
          exists i :: LastWait(steps, Decisions(p, steps), i, e) && now <= steps[i].now + p.doubleTapMs)
    && (p.delayMs > 0 && p.doubleTapMs == 0 ==> WaitedOut(p, steps, e, now))
    && (p.delayMs > 0 && p.doubleTapMs > 0 ==> exists i :: DwellFrom(p, steps, i, e) && steps[i].now + p.delayMs <= now)
  }

  lemma SwitchesWhereOpen(p: SwitchPolicy, steps: seq<Step>, now: nat, e: Edge, near: bool)
    requires Clocked(steps) && !LockOn(steps) && forall step | step in steps && step.Sample? :: step.now <= now
    ensures Evaluate(Run(p, steps), p, now, e, true, near).1 == Switch <==> near && GatesOpen(p, steps, e, now)
  {
    var all := steps + [Sample(now, e, true, near)];
    assert forall i | 0 <= i < |steps| :: all[i] == steps[i] && steps[i] in steps;
    if p.doubleTapMs > 0 {
      SecondTapExactly(p, steps, now, e, true, near);
    }
    if p.delayMs == 0 && p.doubleTapMs == 0 {
      NoGateSwitchesExactly(p, steps, now, e, true, near);
    } else if p.delayMs == 0 {
      DoubleTapSwitchesExactly(p, steps, now, e, true, near);
    } else if p.doubleTapMs == 0 {
      DwellSwitchesExactly(p, steps, now, e, true, near);
    } else {
      BothGatesSwitchExactly(p, steps, now, e, true, near);
    }
  }

  /** Under every policy and over every run of the router: a sample of the pointer at home sends the
      input across an edge exactly if that is the first edge with a machine beyond, the pointer is near
      an end of it where the corner constraint asks that, and the gates are open for it. */
  lemma LeavesHomeExactly(s: CoreState, os: seq<Occurrence>, m: Rect, p: Point, now: nat)
    requires s.Sound() && s.switcher == FRESH && forall o | o in os :: Admissible(o)
    requires var c := Reached(s, os); c.mode.Local? && IsUnder(m, p, c.localMonitors)
    requires Clocked(Trace(s, os)) && forall step | step in Trace(s, os) && step.Sample? :: step.now <= now
    ensures var c, steps := Reached(s, os), Trace(s, os);
      c.OnPointer(p, now).0.mode.Remote? <==>
        exists e :: FirstEdge(c, p, e) && NearAnEnd(m, p, e, s.policy.cornerSize) && GatesOpen(s.policy, steps, e, now)
  {
    var c, steps := Reached(s, os), Trace(s, os);
    PointerSamples(c, m, p, now);
    SwitcherIsRun(s, os);
    NeverLocked(s, os);
    forall e ensures Evaluate(c.switcher, s.policy, now, e, true, NearAnEnd(m, p, e, s.policy.cornerSize)).1 == Switch
        <==> NearAnEnd(m, p, e, s.policy.cornerSize) && GatesOpen(s.policy, steps, e, now)
    {
      SwitchesWhereOpen(s.policy, steps, now, e, NearAnEnd(m, p, e, s.policy.cornerSize));
    }
    LeavesWhere(c, m, p, now, c.OnPointer(p, now).0);
  }

  /** The input leaves exactly if the first edge is one for which the policy says so. */
  lemma LeavesWhere(s: CoreState, m: Rect, p: Point, now: nat, c: CoreState)
    requires Samples(s, m, p, now, c)
    ensures c.mode.Remote? <==> exists e ::
      FirstEdge(s, p, e) && Evaluate(s.switcher, s.policy, now, e, true, NearAnEnd(m, p, e, s.policy.cornerSize)).1 == Switch
  {
    if c.mode.Remote? {
      var e, name, at :| FirstCrossing(s, p, e, name, at);
      assert FirstEdge(s, p, e);
    }
  }

  // ---- where the pointer is on coming home ---------------------------------------------------------------

  /** Home, where no point leads there: the middle of the monitor the pointer was last on, if it is still
      there; else of the first monitor that has the plane's corner; else of the first. */
  lemma HomeIsTheLastMonitor(s: CoreState, m: Rect)
    requires s.Sound()
    requires if s.lastLocal.Some? && s.lastLocal.value in s.localMonitors then s.lastLocal == Some(m)
      else if Covered(Point(0, 0), s.localMonitors) then IsUnder(m, Point(0, 0), s.localMonitors)
      else s.localMonitors != [] && m == s.localMonitors[0]
    ensures s.LocalCenter() == m.Center()
    ensures s.mode.Remote? ==> s.OnHotkey().0.mode.Local? && s.OnHotkey().1 == [Send(s.mode.screen, Input.Leave), Capture(Ungrab(m.Center()))]
  {
    if Covered(Point(0, 0), s.localMonitors) {
      UnderIsFirst(Point(0, 0), s.localMonitors);
    }
    CenterIsTheMiddle(m);
    NearestPointMinimises(m.Center(), s.localMonitors);
    assert m in s.localMonitors && Covered(m.Center(), s.localMonitors);
  }

  /** The monitor remembered is the one under the pointer's last sample at home, until it is no monitor any
      more. */
  lemma RemembersTheMonitor(s: CoreState, o: Occurrence)
    requires s.Sound() && Admissible(o)
    ensures var c := React(s, o);
      if o.Captured? && o.ev.Pointer? && s.mode.Local? && Covered(o.ev.at, s.localMonitors)
      then c.lastLocal.Some? && IsUnder(c.lastLocal.value, o.ev.at, s.localMonitors)
      else c.lastLocal == s.lastLocal || (c.lastLocal == None && s.lastLocal.value !in c.localMonitors)
  {
    if o.Captured? {
      EventRemembers(s, o.ev, o.now);
    }
  }

  lemma SampleRemembers(s: CoreState, p: Point, now: nat)
    requires s.Sound() && s.mode.Local? && Covered(p, s.localMonitors)
    ensures var c := s.OnPointer(p, now).0; c.lastLocal.Some? && IsUnder(c.lastLocal.value, p, s.localMonitors)
  {
    var m := FirstContaining(s.localMonitors, p).value;
    UnderIsFirst(p, s.localMonitors);
    var hit := PointerDecides(s, m, p, now);
    DecidedRemembers(s, s.(lastLocal := Some(m)), m, p, now, hit, s.OnPointer(p, now).0);
  }

  lemma DecidedRemembers(s: CoreState, c: CoreState, m: Rect, p: Point, now: nat, hit: Option<Crossing>, end: CoreState)
    requires Decides(s, c, m, p, now, hit, end)
    ensures end.lastLocal == c.lastLocal
  {
  }

  lemma EventRemembers(s: CoreState, ev: CaptureEvent, now: nat)
    requires s.Sound()
    ensures var c := s.Handle(ev, now).0;
      if ev.Pointer? && s.mode.Local? && Covered(ev.at, s.localMonitors)
      then c.lastLocal.Some? && IsUnder(c.lastLocal.value, ev.at, s.localMonitors) else c.lastLocal == s.lastLocal
  {
    if ev.Pointer? && s.mode.Local? && Covered(ev.at, s.localMonitors) {
      SampleRemembers(s, ev.at, now);
    } else {
      OthersRemember(s, ev, now);
    }
  }

  lemma OthersRemember(s: CoreState, ev: CaptureEvent, now: nat)
    requires s.Sound() && !(ev.Pointer? && s.mode.Local? && Covered(ev.at, s.localMonitors))
    ensures s.Handle(ev, now).0.lastLocal == s.lastLocal
  {
    match ev
    case Motion(dx, dy) =>
      if s.mode.Remote? && s.MonitorsOf(s.mode.screen) != [] {
        MoveRemembers(s, s.Aim(dx, dy), s.Beyond(s.Aim(dx, dy)), s.OnMotion(dx, dy).0);
      }
    case Hotkey => HotkeyRemembers(s, s.HotkeyTarget(), s.OnHotkey().0);
    case _ =>
  }

  lemma MoveRemembers(s: CoreState, to: Point, beyond: Option<(Name, Point)>, c: CoreState)
    requires s.Sound() && s.mode.Remote?
    requires beyond.Some? ==> Covered(beyond.value.1, s.MonitorsOf(beyond.value.0))
    requires c == s.MoveTo(to, beyond).0
    ensures c.lastLocal == s.lastLocal
  {
  }

  lemma HotkeyRemembers(s: CoreState, t: Option<Name>, c: CoreState)
    requires s.Sound() && t == s.HotkeyTarget() && c == s.OnHotkey().0
    ensures c.lastLocal == s.lastLocal
  {
  }
}
