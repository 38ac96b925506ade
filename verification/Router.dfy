/** Which screen owns the keyboard and mouse, and what is forwarded to it
    (`Core` in `geserdesk-server/src/router.rs`).

    `CoreState` and its functions say what each transition does; the class `Core` does it
    in place, as the source does. */
module Router {
  import opened Wrappers
  import opened Geometry
  import opened Frames
  import opened Names
  import opened Placement
  import opened Switching
  import opened Input

  datatype CaptureCmd = Grab | Ungrab(warp: Point)

  datatype Action = Send(to: Name, msg: ServerMsg) | Capture(cmd: CaptureCmd)

  datatype Mode = Local | Remote(screen: Name, pos: Point)

  datatype CaptureEvent =
    | Pointer(at: Point)
    | Hotkey
    | GrabFailed
    | Motion(dx: int, dy: int)
    | ButtonChange(button: nat, down: bool)
    | WheelTurn(wx: int, wy: int)
    | KeyChange(key: KeyEvent)

  datatype HubEvent =
    | Connected(name: Name, monitors: seq<Rect>)
    | Disconnected(name: Name)
    | Positions(positions: map<Name, Point>)
    | Sizes(sizes: map<Name, Size>)
    | LocalMonitors(monitors: seq<Rect>)
    | ScreenAdded(name: Name)

  /** A place the pointer would cross to: the edge, the machine beyond it and the point there. */
  datatype Crossing = Crossing(edge: Edge, name: Name, at: Point)

  // ---- edges of a monitor ---------------------------------------------------------------

  predicate AtEdge(m: Rect, p: Point, edge: Edge, jump: int) {
    match edge
    case Left => p.x < m.x + jump
    case Right => p.x >= m.RightEdge() - jump
    case Top => p.y < m.y + jump
    case Bottom => p.y >= m.BottomEdge() - jump
  }

  function StepOver(p: Point, edge: Edge, n: int): Point {
    match edge
    case Left => Point(p.x - n, p.y)
    case Right => Point(p.x + n, p.y)
    case Top => Point(p.x, p.y - n)
    case Bottom => Point(p.x, p.y + n)
  }

  predicate NearCorner(m: Rect, p: Point, edge: Edge, cornerSize: int) {
    if cornerSize <= 0 then true
    else
      var (pos, lo, hi) := if edge.Left? || edge.Right? then (p.y, m.y, m.BottomEdge()) else (p.x, m.x, m.RightEdge());
      pos - lo < cornerSize || hi - 1 - pos < cornerSize
  }

  function FirstContaining(monitors: seq<Rect>, p: Point): (m: Option<Rect>)
    ensures m.Some? <==> Covered(p, monitors)
    ensures m.Some? ==> m.value in monitors && m.value.Contains(p)
  {
    if monitors == [] then None
    else if monitors[0].Contains(p) then Some(monitors[0])
    else
      assert forall r :: r in monitors <==> r == monitors[0] || r in monitors[1..];
      FirstContaining(monitors[1..], p)
  }

  function AsAction(hid: Hid, action: KeyAction): ServerMsg {
    Key(KeyEvent(hid, None, {}, action))
  }

  predicate NoKeys(q: seq<Action>) {
    forall a | a in q :: a.Send? ==> !a.msg.Key?
  }

  // ---- the state -------------------------------------------------------------------------

  datatype CoreState = CoreState(
    layout: Layout,
    policy: SwitchPolicy,
    local: Name,
    localMonitors: seq<Rect>,
    positions: map<Name, Point>,
    sizes: map<Name, Size>,
    origins: map<Name, Point>,
    connected: map<Name, seq<Rect>>,
    mode: Mode,
    lastLocal: Option<Rect>,
    switcher: Switcher,
    number: nat,
    rules: seq<Rule>,
    fired: map<Hid, Hid>)
  {
    /** Every monitor has an area (the handshake sees to it for clients). */
    predicate Sound() {
      AllProper(localMonitors) && forall n | n in connected :: AllProper(connected[n])
    }

    /** Input events change neither the desk nor who is on it. */
    predicate SameDesk(other: CoreState) {
      && other.local == local && other.localMonitors == localMonitors && other.connected == connected
      && other.rules == rules && other.policy == policy
    }

    function Jump(): int {
      Max(policy.jumpZone, 1)
    }

    // -- desk geometry --

    function MonitorsOf(name: Name): seq<Rect> {
      if name == local then localMonitors else if name in connected then connected[name] else []
    }

    function SizeSet(name: Name): Option<Size> {
      if name in sizes then Some(sizes[name]) else None
    }

    function FrameOf(name: Name): (f: Frame)
      ensures f.Valid()
    {
      var origin := if name in origins then origins[name] else Point(0, 0);
      NewFrame(origin, UnionAll(MonitorsOf(name)), SizeSet(name))
    }

    function PlacementPlan(): Plan {
      Plan(layout.screens, local, layout, positions, (n: Name) => DeskSize(MonitorsOf(n), SizeSet(n)))
    }

    function Refreshed(): (c: CoreState)
      ensures c == this.(origins := c.origins)
    {
      this.(origins := EffectiveOrigins(PlacementPlan()))
    }

    /** The first machine of `names` but `exclude` with a monitor at desk point `v`. */
    function LocateIn(names: seq<Name>, v: Point, exclude: Name): (r: Option<(Name, Point)>)
      ensures r.Some? ==> r.value.0 in names && r.value.0 != exclude && Covered(r.value.1, MonitorsOf(r.value.0))
    {
      if names == [] then None
      else
        var q := FrameOf(names[0]).ToLocal(v);
        if names[0] != exclude && Covered(q, MonitorsOf(names[0])) then Some((names[0], q))
        else LocateIn(names[1..], v, exclude)
    }

    function Locate(v: Point, exclude: Name): Option<(Name, Point)> {
      LocateIn(Sorted(connected.Keys + {local}), v, exclude)
    }

    function SnapInto(name: Name, p: Point): Point
      requires Sound()
    {
      if MonitorsOf(name) == [] then p else NearestPoint(p, MonitorsOf(name))
    }

    function HomeMonitor(): Option<Rect> {
      if lastLocal.Some? && lastLocal.value in localMonitors then lastLocal
      else
        var primary := FirstContaining(localMonitors, Point(0, 0));
        if primary.Some? then primary else if localMonitors != [] then Some(localMonitors[0]) else None
    }

    function LocalCenter(): Point
      requires Sound()
    {
      SnapInto(local, if HomeMonitor().Some? then HomeMonitor().value.Center() else Point(0, 0))
    }

    // -- transitions --

    function Forward(msg: ServerMsg): seq<Action> {
      match mode
      case Remote(screen, _) => [Send(screen, msg)]
      case Local => []
    }

    function EnterFromRemote(target: Name, at: Point): (r: (CoreState, seq<Action>))
      ensures SameDesk(r.0) && r.0.fired == fired && NoKeys(r.1)
      ensures Capture(Grab) !in r.1
    {
      (this.(number := number + 1, switcher := Switched(switcher), mode := Remote(target, at)),
       [Send(target, Enter(at, number + 1))])
    }

    function EnterScreen(target: Name, at: Point): (r: (CoreState, seq<Action>))
      ensures SameDesk(r.0) && r.0.fired == fired && NoKeys(r.1)
    {
      var (c, actions) := EnterFromRemote(target, at);
      (c, [Capture(Grab)] + actions)
    }

    function GoLocal(from: Name, at: Point): (r: (CoreState, seq<Action>))
      ensures SameDesk(r.0) && r.0.fired == fired && NoKeys(r.1)
      ensures Capture(Grab) !in r.1
    {
      (this.(mode := Mode.Local, switcher := Switched(switcher)), [Send(from, Input.Leave), Capture(Ungrab(at))])
    }

    // -- local mode --

    /** A connected machine other than this one, and a point on one of its monitors. */
    predicate Elsewhere(x: Crossing) {
      x.name != local && x.name in connected && Covered(x.at, MonitorsOf(x.name))
    }

    function HitAt(m: Rect, p: Point, edge: Edge): (hit: Option<Crossing>)
      requires Sound()
      ensures hit.Some? ==> Elsewhere(hit.value) && AtEdge(m, p, edge, Jump())
    {
      var probe := StepOver(p, edge, Jump());
      if !AtEdge(m, p, edge, Jump()) || Covered(probe, localMonitors) then None
      else
        match Locate(FrameOf(local).ToDesk(probe), local)
        case None => None
        case Some((name, q)) => Some(Crossing(edge, name, q))
    }

    function FirstHit(m: Rect, p: Point, edges: seq<Edge>): (hit: Option<Crossing>)
      requires Sound()
      ensures hit.Some? ==> Elsewhere(hit.value) && exists e :: AtEdge(m, p, e, Jump())
    {
      if edges == [] then None
      else if HitAt(m, p, edges[0]).Some? then HitAt(m, p, edges[0])
      else FirstHit(m, p, edges[1..])
    }

    function OnPointer(p: Point, now: nat): (r: (CoreState, seq<Action>))
      requires Sound()
      ensures SameDesk(r.0) && r.0.fired == fired && NoKeys(r.1)
      ensures mode.Remote? ==> Capture(Grab) !in r.1
    {
      if mode != Mode.Local || FirstContaining(localMonitors, p).None? then (this, [])
      else
        var m := FirstContaining(localMonitors, p).value;
        var c := this.(lastLocal := Some(m));
        match c.FirstHit(m, p, EDGES)
        case None => (c.(switcher := LeftEdge(switcher)), [])
        case Some(hit) =>
          var (s, d) := Evaluate(switcher, policy, now, hit.edge, true, NearCorner(m, p, hit.edge, policy.cornerSize));
          if d == Switch then c.(switcher := s).EnterScreen(hit.name, hit.at) else (c.(switcher := s), [])
    }

    /** The middle of a machine's monitors on the desk, and how far it is from `from`. */
    function FarFrom(name: Name, from: Point): Option<nat>
      requires name in connected
    {
      match UnionAll(connected[name])
      case None => None
      case Some(box) => Some(Dist2(FrameOf(name).ToDesk(box.Center()), from))
    }

    /** The machine of `names` with the smallest distance, the first of equals. */
    function Nearest(names: seq<Name>, from: Point): (r: Option<Name>)
      requires forall n | n in names :: n in connected
      ensures r.Some? ==> r.value in names && FarFrom(r.value, from).Some?
    {
      if names == [] then None
      else
        var last := names[|names| - 1];
        var front := Nearest(names[..|names| - 1], from);
        assert names == names[..|names| - 1] + [last];
        if FarFrom(last, from).None? then front
        else if front.None? || FarFrom(last, from).value < FarFrom(front.value, from).value then Some(last)
        else front
    }

    function HotkeyTarget(): (r: Option<Name>)
      ensures r.Some? ==> r.value in connected && UnionAll(connected[r.value]).Some?
    {
      var middle := if localMonitors == [] then Point(0, 0) else UnionAll(localMonitors).value.Center();
      Nearest(Sorted(connected.Keys), FrameOf(local).ToDesk(middle))
    }

    function OnHotkey(): (r: (CoreState, seq<Action>))
      requires Sound()
      ensures SameDesk(r.0) && r.0.fired == fired && NoKeys(r.1)
      ensures mode.Remote? ==> Capture(Grab) !in r.1
    {
      match mode
      case Remote(screen, _) => GoLocal(screen, LocalCenter())
      case Local =>
        match HotkeyTarget()
        case None => (this, [])
        case Some(t) => EnterScreen(t, SnapInto(t, UnionAll(connected[t]).value.Center()))
    }

    function OnGrabFailed(): (r: (CoreState, seq<Action>))
      ensures SameDesk(r.0) && r.0.fired == fired && NoKeys(r.1)
      ensures Capture(Grab) !in r.1
    {
      match mode
      case Remote(screen, _) => (this.(mode := Mode.Local, switcher := Switched(switcher)), [Send(screen, Input.Leave)])
      case Local => (this, [])
    }

    // -- remote mode --

    /** Where a motion of this much goes, from where the cursor is: the client may have re-arranged
        its monitors under it. */
    function Aim(dx: int, dy: int): Point
      requires Sound() && mode.Remote?
    {
      var pos := NearestPoint(mode.pos, MonitorsOf(mode.screen));
      Point(pos.x + dx, pos.y + dy)
    }

    /** What another machine has at a point of the active screen's plane. */
    function Beyond(at: Point): (r: Option<(Name, Point)>)
      requires mode.Remote?
      ensures r.Some? ==> r.value.0 in connected.Keys + {local} && Covered(r.value.1, MonitorsOf(r.value.0))
    {
      Locate(FrameOf(mode.screen).ToDesk(at), mode.screen)
    }

    /** The cursor wants to be at `moved`, and this is what lies beyond the active screen there. */
    function MoveTo(moved: Point, beyond: Option<(Name, Point)>): (r: (CoreState, seq<Action>))
      requires Sound() && mode.Remote?
      requires beyond.Some? ==> Covered(beyond.value.1, MonitorsOf(beyond.value.0))
      ensures SameDesk(r.0) && r.0.fired == fired && NoKeys(r.1)
      ensures Capture(Grab) !in r.1
    {
      var mons := MonitorsOf(mode.screen);
      var at := NearestPoint(moved, mons);
      if Covered(moved, mons) || beyond.None? then
        (this.(mode := Remote(mode.screen, at)), [Send(mode.screen, Mouse(MoveAbs(at)))])
      else
        var (next, q) := beyond.value;
        var toEdge := Send(mode.screen, Mouse(MoveAbs(at)));
        if next == local then
          var home := FirstContaining(localMonitors, q).value;
          var (c, actions) := GoLocal(mode.screen, InsetClamp(q, home, Jump() + 1));
          (c, [toEdge] + actions)
        else
          var (c, actions) := EnterFromRemote(next, q);
          (c, [toEdge, Send(mode.screen, Input.Leave)] + actions)
    }

    function OnMotion(dx: int, dy: int): (r: (CoreState, seq<Action>))
      requires Sound()
      ensures SameDesk(r.0) && r.0.fired == fired && NoKeys(r.1)
      ensures Capture(Grab) !in r.1
    {
      if mode == Mode.Local || MonitorsOf(mode.screen) == [] then (this, [])
      else MoveTo(Aim(dx, dy), Beyond(Aim(dx, dy)))
    }

    // -- keys --

    function MatchingRule(k: KeyEvent, from: seq<Rule>): (r: Option<Rule>)
      ensures r.Some? ==> r.value in from && r.value.Matches(k.hid, k.mods)
    {
      if from == [] then None
      else if from[0].Matches(k.hid, k.mods) then Some(from[0])
      else MatchingRule(k, from[1..])
    }

    function UpAll(keys: seq<Hid>): seq<Action> {
      if keys == [] then [] else Forward(AsAction(keys[0], Up)) + UpAll(keys[1..])
    }

    /** The modifiers of a rule let go, in the order of the table. */
    function LetGo(mods: set<Mod>, table: seq<ModifierKeys>): seq<Action> {
      if table == [] then []
      else (if table[0].bit in mods then UpAll(table[0].keys) else []) + LetGo(mods, table[1..])
    }

    function OnKey(k: KeyEvent): (r: (CoreState, seq<Action>))
      ensures SameDesk(r.0)
    {
      if k.hid in fired then
        (if k.action == Up then this.(fired := fired - {k.hid}) else this, Forward(AsAction(fired[k.hid], k.action)))
      else
        var rule := if k.action == Down && mode.Remote? then MatchingRule(k, rules) else None;
        if rule.None? then (this, Forward(Key(k)))
        else
          (this.(fired := fired[k.hid := rule.value.action]),
           LetGo(rule.value.mods, MODIFIER_KEYS) + Forward(AsAction(rule.value.action, Down)))
    }

    function Handle(ev: CaptureEvent, now: nat): (r: (CoreState, seq<Action>))
      requires Sound()
      ensures SameDesk(r.0)
    {
      match ev
      case Pointer(p) => OnPointer(p, now)
      case Hotkey => OnHotkey()
      case GrabFailed => OnGrabFailed()
      case Motion(dx, dy) => OnMotion(dx, dy)
      case ButtonChange(b, down) => (this, Forward(Mouse(Button(b, down))))
      case WheelTurn(wx, wy) => (this, Forward(Mouse(Wheel(wx, wy))))
      case KeyChange(k) => OnKey(k)
    }

    // -- changes of the desk --

    function Disconnect(name: Name): (r: (CoreState, seq<Action>))
      requires Sound()
      ensures r.0.Sound() && r.0.connected == connected - {name} && SameDesk(r.0.(connected := connected))
      ensures r.0.fired == fired && NoKeys(r.1) && Capture(Grab) !in r.1
    {
      var c := this.(connected := connected - {name}).Refreshed();
      if c.mode.Remote? && c.mode.screen == name then
        (c.(mode := Mode.Local, switcher := Switched(c.switcher)), [Capture(Ungrab(c.LocalCenter()))])
      else (c, [])
    }

    function SetLocalMonitors(monitors: seq<Rect>): (c: CoreState)
      ensures SameDesk(c.(localMonitors := localMonitors)) && c.fired == fired
      ensures c.localMonitors == if monitors == [] then localMonitors else monitors
    {
      if monitors == [] || monitors == localMonitors then this
      else
        var last := if lastLocal.Some? && lastLocal.value !in monitors then None else lastLocal;
        this.(localMonitors := monitors, lastLocal := last).Refreshed()
    }

    function OnHub(ev: HubEvent): (CoreState, seq<Action>)
      requires Sound()
    {
      match ev
      case Connected(name, monitors) => (this.(connected := connected[name := monitors]).Refreshed(), [])
      case Disconnected(name) => Disconnect(name)
      case Positions(p) => (this.(positions := p).Refreshed(), [])
      case Sizes(s) => (this.(sizes := s).Refreshed(), [])
      case LocalMonitors(m) => (SetLocalMonitors(m), [])
      case ScreenAdded(name) =>
        var (l, added) := layout.AddScreen(name);
        (if added then this.(layout := l).Refreshed() else this, [])
    }
  }

  function Start(layout: Layout, policy: SwitchPolicy, local: Name, monitors: seq<Rect>, positions: map<Name, Point>,
                 sizes: map<Name, Size>, rules: seq<Rule>): CoreState
  {
    CoreState(layout, policy, local, monitors, positions, sizes, map[], map[], Mode.Local, None, FRESH, 0, rules, map[]).Refreshed()
  }

  // ---- the object --------------------------------------------------------------------------

  class Core {
    var layout: Layout
    const policy: SwitchPolicy
    const local: Name
    var localMonitors: seq<Rect>
    var positions: map<Name, Point>
    var sizes: map<Name, Size>
    var origins: map<Name, Point>
    var connected: map<Name, seq<Rect>>
    var mode: Mode
    var lastLocal: Option<Rect>
    const switcher: SwitchState
    var number: nat
    const rules: seq<Rule>
    var fired: map<Hid, Hid>

    function View(): CoreState
      reads this, switcher
    {
      CoreState(layout, policy, local, localMonitors, positions, sizes, origins, connected, mode, lastLocal,
                switcher.View(), number, rules, fired)
    }

    constructor (layout: Layout, policy: SwitchPolicy, local: Name, monitors: seq<Rect>, positions: map<Name, Point>,
                 sizes: map<Name, Size>, rules: seq<Rule>)
      ensures fresh(switcher)
      ensures View() == Start(layout, policy, local, monitors, positions, sizes, rules)
    {
      this.layout, this.policy, this.local, localMonitors := layout, policy, local, monitors;
      this.positions, this.sizes, origins, connected := positions, sizes, map[], map[];
      mode, lastLocal, number, this.rules, fired := Mode.Local, None, 0, rules, map[];
      switcher := new SwitchState();
      new;
      RefreshOrigins();
    }

    method RefreshOrigins()
      modifies this`origins
      ensures View() == old(View()).Refreshed()
    {
      origins := EffectiveOriginsLoop(View().PlacementPlan());
    }

    method ClientConnected(name: Name, monitors: seq<Rect>)
      requires View().Sound()
      modifies this
      ensures View() == old(View()).OnHub(Connected(name, monitors)).0
    {
      connected := connected[name := monitors];
      RefreshOrigins();
    }

    method AddScreen(name: Name)
      requires View().Sound()
      modifies this
      ensures View() == old(View()).OnHub(ScreenAdded(name)).0
    {
      var (l, added) := layout.AddScreen(name);
      if added {
        layout := l;
        RefreshOrigins();
      }
    }

    method SetLocalMonitors(monitors: seq<Rect>)
      requires View().Sound()
      modifies this
      ensures View() == old(View()).OnHub(LocalMonitors(monitors)).0
    {
      if monitors == [] || monitors == localMonitors {
        return;
      }
      localMonitors := monitors;
      if lastLocal.Some? && lastLocal.value !in localMonitors {
        lastLocal := None;
      }
      RefreshOrigins();
    }

    method SetPositions(p: map<Name, Point>)
      requires View().Sound()
      modifies this
      ensures View() == old(View()).OnHub(Positions(p)).0
    {
      positions := p;
      RefreshOrigins();
    }

    method SetSizes(s: map<Name, Size>)
      requires View().Sound()
      modifies this
      ensures View() == old(View()).OnHub(Sizes(s)).0
    {
      sizes := s;
      RefreshOrigins();
    }

    method ClientDisconnected(name: Name) returns (actions: seq<Action>)
      requires View().Sound()
      modifies this, switcher
      ensures (View(), actions) == old(View()).Disconnect(name)
    {
      connected := connected - {name};
      RefreshOrigins();
      if mode.Remote? && mode.screen == name {
        mode := Mode.Local;
        switcher.OnSwitched();
        actions := [Capture(Ungrab(View().LocalCenter()))];
      } else {
        actions := [];
      }
    }

    method HandleEvent(ev: CaptureEvent, now: nat) returns (actions: seq<Action>)
      requires View().Sound()
      modifies this, switcher
      ensures (View(), actions) == old(View()).Handle(ev, now)
    {
      match ev {
        case Pointer(p) => actions := OnPointer(p, now);
        case Hotkey => actions := OnHotkey();
        case GrabFailed => actions := OnGrabFailed();
        case Motion(dx, dy) => actions := OnMotion(dx, dy);
        case ButtonChange(b, down) => actions := View().Forward(Mouse(Button(b, down)));
        case WheelTurn(wx, wy) => actions := View().Forward(Mouse(Wheel(wx, wy)));
        case KeyChange(k) => actions := OnKey(k);
      }
    }

    method OnKey(k: KeyEvent) returns (actions: seq<Action>)
      modifies this`fired
      ensures (View(), actions) == old(View()).OnKey(k)
    {
      if k.hid in fired {
        var action := fired[k.hid];
        if k.action == Up {
          fired := fired - {k.hid};
        }
        return View().Forward(AsAction(action, k.action));
      }
      var rule := None;
      if k.action == Down && mode.Remote? {
        rule := View().MatchingRule(k, rules);
      }
      if rule.None? {
        return View().Forward(Key(k));
      }
      actions := ReleaseModifiers(rule.value.mods, MODIFIER_KEYS);
      actions := actions + View().Forward(AsAction(rule.value.action, Down));
      fired := fired[k.hid := rule.value.action];
    }

    method ReleaseModifiers(mods: set<Mod>, table: seq<ModifierKeys>) returns (actions: seq<Action>)
      ensures actions == View().LetGo(mods, table)
    {
      actions := [];
      for i := 0 to |table|
        invariant actions + View().LetGo(mods, table[i..]) == View().LetGo(mods, table)
      {
        var entry := table[i];
        ghost var rest := View().LetGo(mods, table[i + 1..]);
        assert table[i..][0] == entry && table[i..][1..] == table[i + 1..];
        if entry.bit in mods {
          var ups := ReleaseKeys(entry.keys);
          assert actions + (ups + rest) == (actions + ups) + rest;
          actions := actions + ups;
        } else {
          assert [] + rest == rest;
        }
      }
      assert actions + [] == actions;
    }

    method ReleaseKeys(keys: seq<Hid>) returns (actions: seq<Action>)
      ensures actions == View().UpAll(keys)
    {
      actions := [];
      for j := 0 to |keys|
        invariant actions + View().UpAll(keys[j..]) == View().UpAll(keys)
      {
        assert keys[j..][0] == keys[j] && keys[j..][1..] == keys[j + 1..];
        actions := actions + View().Forward(AsAction(keys[j], Up));
      }
    }

    method OnPointer(p: Point, now: nat) returns (actions: seq<Action>)
      requires View().Sound()
      modifies this, switcher
      ensures (View(), actions) == old(View()).OnPointer(p, now)
    {
      if mode != Mode.Local {
        return [];
      }
      var found := FirstContaining(localMonitors, p);
      if found.None? {
        return [];
      }
      var m := found.value;
      lastLocal := Some(m);
      ghost var c := View();
      var hit: Option<Crossing> := None;
      var i := 0;
      while i < |EDGES| && hit.None?
        invariant 0 <= i <= |EDGES|
        invariant c.FirstHit(m, p, EDGES) == if hit.Some? then hit else c.FirstHit(m, p, EDGES[i..])
      {
        assert EDGES[i..][0] == EDGES[i] && EDGES[i..][1..] == EDGES[i + 1..];
        hit := View().HitAt(m, p, EDGES[i]);
        i := i + 1;
      }
      if hit.None? {
        switcher.OnLeftEdge();
        return [];
      }
      var inCorner := NearCorner(m, p, hit.value.edge, policy.cornerSize);
      var d := switcher.Decide(policy, now, hit.value.edge, true, inCorner);
      if d == Switch {
        actions := EnterScreen(hit.value.name, hit.value.at);
      } else {
        actions := [];
      }
    }

    method OnHotkey() returns (actions: seq<Action>)
      requires View().Sound()
      modifies this, switcher
      ensures (View(), actions) == old(View()).OnHotkey()
    {
      if mode.Remote? {
        actions := GoLocal(mode.screen, View().LocalCenter());
      } else {
        var target := View().HotkeyTarget();
        if target.None? {
          return [];
        }
        var t := target.value;
        actions := EnterScreen(t, View().SnapInto(t, UnionAll(connected[t]).value.Center()));
      }
    }

    method OnGrabFailed() returns (actions: seq<Action>)
      modifies this, switcher
      ensures (View(), actions) == old(View()).OnGrabFailed()
    {
      match mode {
        case Remote(screen, _) =>
          mode := Mode.Local;
          switcher.OnSwitched();
          actions := [Send(screen, Input.Leave)];
        case Local => actions := [];
      }
    }

    method OnMotion(dx: int, dy: int) returns (actions: seq<Action>)
      requires View().Sound()
      modifies this, switcher
      ensures (View(), actions) == old(View()).OnMotion(dx, dy)
    {
      if mode.Local? {
        return [];
      }
      var screen := mode.screen;
      var mons := View().MonitorsOf(screen);
      if mons == [] {
        return [];
      }
      var moved := View().Aim(dx, dy);
      actions := MoveTo(moved, View().Beyond(moved));
    }

    method MoveTo(moved: Point, beyond: Option<(Name, Point)>) returns (actions: seq<Action>)
      requires View().Sound() && mode.Remote?
      requires beyond.Some? ==> Covered(beyond.value.1, View().MonitorsOf(beyond.value.0))
      modifies this, switcher
      ensures (View(), actions) == old(View()).MoveTo(moved, beyond)
    {
      var screen := mode.screen;
      var mons := View().MonitorsOf(screen);
      var at := NearestPoint(moved, mons);
      if !Covered(moved, mons) && beyond.Some? {
        var (next, q) := beyond.value;
        var toEdge := Send(screen, Mouse(MoveAbs(at)));
        if next == local {
          var home := FirstContaining(localMonitors, q).value;
          var rest := GoLocal(screen, InsetClamp(q, home, View().Jump() + 1));
          return [toEdge] + rest;
        }
        var rest := EnterFromRemote(next, q);
        return [toEdge, Send(screen, Input.Leave)] + rest;
      }
      mode := Remote(screen, at);
      actions := [Send(screen, Mouse(MoveAbs(at)))];
    }

    method EnterScreen(target: Name, at: Point) returns (actions: seq<Action>)
      modifies this, switcher
      ensures (View(), actions) == old(View()).EnterScreen(target, at)
    {
      var rest := EnterFromRemote(target, at);
      actions := [Capture(Grab)] + rest;
    }

    method EnterFromRemote(target: Name, at: Point) returns (actions: seq<Action>)
      modifies this, switcher
      ensures (View(), actions) == old(View()).EnterFromRemote(target, at)
    {
      number := number + 1;
      switcher.OnSwitched();
      mode := Remote(target, at);
      actions := [Send(target, Enter(at, number))];
    }

    method GoLocal(from: Name, at: Point) returns (actions: seq<Action>)
      modifies this, switcher
      ensures (View(), actions) == old(View()).GoLocal(from, at)
    {
      mode := Mode.Local;
      switcher.OnSwitched();
      actions := [Send(from, Input.Leave), Capture(Ungrab(at))];
    }
  }
}
