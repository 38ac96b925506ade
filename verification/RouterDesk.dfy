/** The desk the router goes by, over whole runs: what it was told, and every machine placed by it
    (`refresh_origins` and the setters in `geserdesk-server/src/router.rs`). */
module RouterDesk {
  import opened Wrappers
  import opened Geometry
  import opened Frames
  import opened Names
  import opened Placement
  import opened Switching
  import opened Input
  import opened Router
  import opened RouterEdges

  // ---- what the router was told ------------------------------------------------------------------

  /** The positions announced last, or those from the start. */
  function LastPositions(os: seq<Occurrence>, start: map<Name, Point>): map<Name, Point> {
    if os == [] then start
    else
      match os[|os| - 1]
      case Told(Positions(p)) => p
      case _ => LastPositions(os[..|os| - 1], start)
  }

  function LastSizes(os: seq<Occurrence>, start: map<Name, Size>): map<Name, Size> {
    if os == [] then start
    else
      match os[|os| - 1]
      case Told(Sizes(s)) => s
      case _ => LastSizes(os[..|os| - 1], start)
  }

  /** This machine's monitors announced last, if there were any in it. */
  function LastMonitors(os: seq<Occurrence>, start: seq<Rect>): seq<Rect> {
    if os == [] then start
    else
      match os[|os| - 1]
      case Told(LocalMonitors(m)) => if m == [] then LastMonitors(os[..|os| - 1], start) else m
      case _ => LastMonitors(os[..|os| - 1], start)
  }

  /** The screens from the start, and each one added since that was none yet, in order. */
  function AllScreens(os: seq<Occurrence>, start: seq<Name>): seq<Name> {
    if os == [] then start
    else
      var before := AllScreens(os[..|os| - 1], start);
      match os[|os| - 1]
      case Told(ScreenAdded(n)) => if n in before then before else before + [n]
      case _ => before
  }

  /** The clients that came and did not go since, each with the monitors it told last. */
  function Present(os: seq<Occurrence>, start: map<Name, seq<Rect>>): map<Name, seq<Rect>> {
    if os == [] then start
    else
      var before := Present(os[..|os| - 1], start);
      match os[|os| - 1]
      case Told(Connected(n, monitors)) => before[n := monitors]
      case Told(Disconnected(n)) => before - {n}
      case _ => before
  }

  /** The desk as told: nothing but news changes it. */
  predicate DeskAsTold(c: CoreState, s: CoreState, os: seq<Occurrence>) {
    && c.positions == LastPositions(os, s.positions) && c.sizes == LastSizes(os, s.sizes)
    && c.localMonitors == LastMonitors(os, s.localMonitors) && c.connected == Present(os, s.connected)
    && c.layout.screens == AllScreens(os, s.layout.screens) && c.layout.links == s.layout.links
    && c.local == s.local && c.policy == s.policy && c.rules == s.rules
  }

  // ---- placed ---------------------------------------------------------------------------------------

  /** The data the desk is placed by. */
  ghost predicate IsPlanOf(p: Plan, c: CoreState) {
    && p.order == c.layout.screens && p.local == c.local && p.layout == c.layout && p.configured == c.positions
    && forall n :: p.sizeOf(n) == DeskSize(c.MonitorsOf(n), c.SizeSet(n))
  }

  /** Every machine is where the placement puts it. */
  ghost predicate IsPlaced(c: CoreState) {
    exists p :: IsPlanOf(p, c) && c.origins == EffectiveOrigins(p)
  }

  lemma RefreshedIsPlaced(c: CoreState)
    ensures IsPlaced(c.Refreshed())
  {
    var p := c.PlacementPlan();
    assert IsPlanOf(p, c.Refreshed());
  }

  /** What the placement goes by is the same. */
  predicate SameData(c: CoreState, d: CoreState) {
    && c.layout == d.layout && c.local == d.local && c.positions == d.positions && c.sizes == d.sizes
    && c.localMonitors == d.localMonitors && c.connected == d.connected && c.origins == d.origins
  }

  lemma SamePlace(c: CoreState, d: CoreState)
    requires SameData(c, d) && IsPlaced(c)
    ensures IsPlaced(d)
  {
    var p :| IsPlanOf(p, c) && c.origins == EffectiveOrigins(p);
    assert IsPlanOf(p, d);
  }

  lemma MoveKeepsData(s: CoreState, to: Point, beyond: Option<(Name, Point)>, c: CoreState)
    requires s.Sound() && s.mode.Remote?
    requires beyond.Some? ==> Covered(beyond.value.1, s.MonitorsOf(beyond.value.0))
    requires c == s.MoveTo(to, beyond).0
    ensures SameData(s, c)
  {
  }

  lemma EventKeepsData(s: CoreState, ev: CaptureEvent, now: nat)
    requires s.Sound()
    ensures SameData(s, s.Handle(ev, now).0)
  {
    match ev
    case Motion(dx, dy) =>
      if s.mode.Remote? && s.MonitorsOf(s.mode.screen) != [] {
        var to := s.Aim(dx, dy);
        MoveKeepsData(s, to, s.Beyond(to), s.OnMotion(dx, dy).0);
      }
    case Pointer(p) => PointerKeepsData(s, p, now);
    case Hotkey => HotkeyKeepsData(s);
    case _ => RestKeepsData(s, ev, now);
  }

  lemma RestKeepsData(s: CoreState, ev: CaptureEvent, now: nat)
    requires s.Sound() && !ev.Motion? && !ev.Pointer? && !ev.Hotkey?
    ensures SameData(s, s.Handle(ev, now).0)
  {
  }

  lemma PointerKeepsData(s: CoreState, p: Point, now: nat)
    requires s.Sound()
    ensures SameData(s, s.OnPointer(p, now).0)
  {
    var under := FirstContaining(s.localMonitors, p);
    if s.mode.Local? && under.Some? {
      var m := under.value;
      var hit := PointerDecides(s, m, p, now);
      DecidedKeepsData(s, s.(lastLocal := Some(m)), m, p, now, hit, s.OnPointer(p, now).0);
    }
  }

  lemma DecidedKeepsData(s: CoreState, c: CoreState, m: Rect, p: Point, now: nat, hit: Option<Crossing>, end: CoreState)
    requires c == s.(lastLocal := c.lastLocal) && Decides(s, c, m, p, now, hit, end)
    ensures SameData(s, end)
  {
  }

  lemma HotkeyKeepsData(s: CoreState)
    requires s.Sound()
    ensures SameData(s, s.OnHotkey().0)
  {
    if s.mode.Remote? {
      assert s.OnHotkey() == s.GoLocal(s.mode.screen, s.LocalCenter());
    } else {
      EnteringKeepsData(s, s.HotkeyTarget(), s.OnHotkey().0);
    }
  }

  lemma EnteringKeepsData(s: CoreState, t: Option<Name>, c: CoreState)
    requires t.None? ==> c == s
    requires t.Some? ==> exists at :: c == s.EnterScreen(t.value, at).0
    ensures SameData(s, c)
  {
  }

  lemma DisconnectPlaces(s: CoreState, name: Name)
    requires s.Sound()
    ensures IsPlaced(s.Disconnect(name).0)
  {
    var c := s.(connected := s.connected - {name});
    RefreshedIsPlaced(c);
    SamePlace(c.Refreshed(), s.Disconnect(name).0);
  }

  lemma NewsPlaces(s: CoreState, news: HubEvent)
    requires s.Sound() && IsPlaced(s)
    ensures IsPlaced(s.OnHub(news).0)
  {
    match news
    case Connected(name, monitors) => RefreshedIsPlaced(s.(connected := s.connected[name := monitors]));
    case Disconnected(name) => DisconnectPlaces(s, name);
    case Positions(p) => RefreshedIsPlaced(s.(positions := p));
    case Sizes(sizes) => RefreshedIsPlaced(s.(sizes := sizes));
    case LocalMonitors(m) =>
      var last := if s.lastLocal.Some? && s.lastLocal.value !in m then None else s.lastLocal;
      RefreshedIsPlaced(s.(localMonitors := m, lastLocal := last));
    case ScreenAdded(name) => RefreshedIsPlaced(s.(layout := s.layout.AddScreen(name).0));
  }

  /** What one piece of news changes. */
  predicate Takes(c: CoreState, news: HubEvent, c': CoreState) {
    && c'.positions == (if news.Positions? then news.positions else c.positions)
    && c'.sizes == (if news.Sizes? then news.sizes else c.sizes)
    && c'.localMonitors == (if news.LocalMonitors? && news.monitors != [] then news.monitors else c.localMonitors)
    && c'.connected == (if news.Connected? then c.connected[news.name := news.monitors]
                        else if news.Disconnected? then c.connected - {news.name} else c.connected)
    && c'.layout.screens == (if news.ScreenAdded? && news.name !in c.layout.screens then c.layout.screens + [news.name]
                             else c.layout.screens)
    && c'.layout.links == c.layout.links && c'.local == c.local && c'.policy == c.policy && c'.rules == c.rules
  }

  lemma OnHubTakes(c: CoreState, news: HubEvent)
    requires c.Sound()
    ensures Takes(c, news, c.OnHub(news).0)
  {
    match news
    case Disconnected(name) => DisconnectTakes(c, name);
    case LocalMonitors(m) => MonitorsTaken(c, m);
    case _ =>
  }

  lemma DisconnectTakes(c: CoreState, name: Name)
    requires c.Sound()
    ensures Takes(c, HubEvent.Disconnected(name), c.Disconnect(name).0)
  {
  }

  lemma MonitorsTaken(c: CoreState, m: seq<Rect>)
    ensures Takes(c, LocalMonitors(m), c.SetLocalMonitors(m))
  {
  }

  lemma NewsIsTaken(s: CoreState, c: CoreState, os: seq<Occurrence>, news: HubEvent, c': CoreState)
    requires DeskAsTold(c, s, os) && Takes(c, news, c')
    ensures DeskAsTold(c', s, os + [Told(news)])
  {
    assert (os + [Told(news)])[..|os|] == os;
  }

  lemma EventTellsNothing(s: CoreState, c: CoreState, os: seq<Occurrence>, ev: CaptureEvent, now: nat)
    requires c.Sound() && DeskAsTold(c, s, os)
    ensures DeskAsTold(c.Handle(ev, now).0, s, os + [Captured(ev, now)])
  {
    EventKeepsData(c, ev, now);
    assert (os + [Captured(ev, now)])[..|os|] == os;
  }

  /** Over every run of input and news: the desk is what the router was told last, and every machine lies
      where the placement puts it by that. */
  lemma {:induction false} DeskIsAsToldAndPlaced(s: CoreState, os: seq<Occurrence>)
    requires s.Sound() && IsPlaced(s) && forall o | o in os :: Admissible(o)
    ensures DeskAsTold(Reached(s, os), s, os) && IsPlaced(Reached(s, os))
  {
    if os != [] {
      var front, o := os[..|os| - 1], os[|os| - 1];
      DeskIsAsToldAndPlaced(s, front);
      assert os == front + [o];
      OneMoreTold(s, Reached(s, front), front, o);
    }
  }

  lemma OneMoreTold(s: CoreState, c: CoreState, os: seq<Occurrence>, o: Occurrence)
    requires c.Sound() && Admissible(o) && DeskAsTold(c, s, os) && IsPlaced(c)
    ensures DeskAsTold(React(c, o), s, os + [o]) && IsPlaced(React(c, o))
  {
    match o
    case Captured(ev, now) =>
      EventTellsNothing(s, c, os, ev, now);
      EventKeepsData(c, ev, now);
      SamePlace(c, c.Handle(ev, now).0);
    case Told(news) =>
      OnHubTakes(c, news);
      NewsIsTaken(s, c, os, news, c.OnHub(news).0);
      NewsPlaces(c, news);
  }

  /** The server starts so: at home, with a fresh switch state, nobody there and every machine placed. */
  lemma StartIsPlaced(layout: Layout, policy: SwitchPolicy, local: Name, monitors: seq<Rect>, positions: map<Name, Point>,
          sizes: map<Name, Size>, rules: seq<Rule>)
    requires AllProper(monitors)
    ensures var c := Start(layout, policy, local, monitors, positions, sizes, rules);
      && c.Sound() && IsPlaced(c) && DeskAsTold(c, c, []) && c.connected == map[]
      && c.mode.Local? && c.switcher == FRESH && c.fired == map[] && c.number == 0
      && c.layout == layout && c.local == local && c.localMonitors == monitors && c.positions == positions && c.sizes == sizes
      && c.policy == policy && c.rules == rules
  {
    RefreshedIsPlaced(CoreState(layout, policy, local, monitors, positions, sizes, map[], map[], Mode.Local, None, FRESH, 0,
                                rules, map[]));
  }
}
