/** From the hand to a client: the keyboard, the capture backend, the channel of events to the router,
    the router and the sessions as one (`geserdesk-platform/src/x11.rs` and `windows.rs`, `run_shared`
    in `geserdesk-server/src/router.rs`). */
module HandToClient {
  import opened Wrappers
  import opened Geometry
  import opened Names
  import opened Placement
  import opened Switching
  import opened Input
  import opened Router
  import opened RouterRuns
  import opened RouterKeys
  import opened Hubs
  import opened Sessions
  import opened KeyStreams
  import X = X11Capture
  import W = WindowsCapture

  // ---- the backend -----------------------------------------------------------------------------------

  datatype Backend = OnX(layout: X.Layout, keys: X.Keys) | OnWindows(hook: W.Hook) {
    predicate Grabbed() {
      match this
      case OnX(_, keys) => keys.grabbed
      case OnWindows(hook) => hook.grabbed
    }

    /** The keys its table says are down. */
    function Table(): set<Hid> {
      match this
      case OnX(layout, keys) => set c | c in keys.pressed && c in layout.hids :: layout.hids[c]
      case OnWindows(hook) => hook.keys.Keys
    }

    /** A grab that is there already is kept; one that fails takes nothing. `really` is what Windows
        says is held. */
    function Grab(fails: bool, really: set<Hid>): Backend {
      if Grabbed() then this
      else
        match this
        case OnX(layout, keys) => if fails then this else OnX(layout, X.Keys(map[], true))
        case OnWindows(hook) =>
          if fails then OnWindows(hook.(held := really))
          else OnWindows(W.Hook(map[], {}, hook.hotkeyDown, really, true))
    }

    function Release(): Backend {
      match this
      case OnX(layout, _) => OnX(layout, X.Keys(map[], false))
      case OnWindows(hook) => OnWindows(W.Hook(map[], {}, hook.hotkeyDown, hook.held, false))
    }

    /** The keys of the keyboard held down, by HID usage; on X11 `hand` is in key codes. */
    function Down(hand: set<nat>): set<Hid> {
      match this
      case OnX(layout, _) => set c | c in hand && c in layout.hids :: layout.hids[c]
      case OnWindows(_) => hand
    }

    /** The table knows only keys the hand holds, and none without the grab. */
    predicate Sees(hand: set<nat>) {
      && (match this
          case OnX(layout, keys) => layout.Injective() && keys.pressed.Keys <= hand * layout.hids.Keys
          case OnWindows(hook) => hook.keys.Keys <= hand)
      && (!Grabbed() ==> Table() == {})
    }
  }

  /** A raw key event of either backend. */
  datatype Raw = OfX(x: X.RawKey) | OfWindows(w: W.RawKey)

  predicate Suits(b: Backend, raw: Raw) {
    if b.OnX? then raw.OfX? else raw.OfWindows? && W.Ordinary(raw.w)
  }

  function HandAfter(hand: set<nat>, raw: Raw): set<nat> {
    match raw
    case OfX(x) => X.HandAfter(hand, x)
    case OfWindows(w) => W.HandAfter(hand, w)
  }

  function Struck(b: Backend, raw: Raw): (Backend, Seen)
    requires Suits(b, raw)
  {
    match b
    case OnX(layout, keys) =>
      var (k, seen) := X.OnKey(keys, layout, raw.x);
      (OnX(layout, k), seen)
    case OnWindows(hook) =>
      var d := W.OnKey(hook, raw.w);
      (OnWindows(d.hook), d.seen)
  }

  predicate Lost(b: Backend, raw: Raw)
    requires Suits(b, raw)
  {
    match b
    case OnX(layout, keys) => X.LostRelease(keys, layout, raw.x)
    case OnWindows(hook) => W.LostRelease(hook, raw.w)
  }

  /** A raw event, unless it is a lost release, leaves the table within the hand; what is reported of it
      is lawful, and nothing is reported of keys without the grab. */
  lemma StruckIsSeen(b: Backend, raw: Raw, hand: set<nat>)
    requires Suits(b, raw) && b.Sees(hand) && !Lost(b, raw)
    ensures var (b', seen) := Struck(b, raw);
      && b'.Sees(HandAfter(hand, raw)) && b'.Grabbed() == b.Grabbed()
      && LawfulNext(b.Table(), seen) && b'.Table() == HeldAfter(b.Table(), seen)
      && (seen.KeySeen? ==> b.Grabbed())
  {
    match b
    case OnX(layout, keys) => StruckOnX(b, raw, hand);
    case OnWindows(hook) =>
      var d := W.OnKey(hook, raw.w);
      assert d.hook.keys.Keys == HeldAfter(hook.keys.Keys, d.seen);
      if hook.grabbed {
        W.HandHoldsThem(hook, raw.w, hand);
      }
  }

  lemma StruckOnX(b: Backend, raw: Raw, hand: set<nat>)
    requires b.OnX? && Suits(b, raw) && b.Sees(hand) && !Lost(b, raw)
    ensures var (b', seen) := Struck(b, raw);
      && b'.Sees(HandAfter(hand, raw)) && b'.Grabbed() == b.Grabbed()
      && LawfulNext(b.Table(), seen) && b'.Table() == HeldAfter(b.Table(), seen)
      && (seen.KeySeen? ==> b.Grabbed())
  {
    var (b', seen) := Struck(b, raw);
    X.KeyIsLawful(b.keys, b.layout, raw.x, b.Table());
    assert b'.Table() == HeldAfter(b.Table(), seen);
    assert forall c | c in b.keys.pressed :: b.layout.hids[c] in b.Table();
    if b.Grabbed() {
      X.HandHoldsThem(b.keys, b.layout, raw.x, hand);
    }
  }

  // ---- the station -----------------------------------------------------------------------------------

  /** The server's machine and all that hangs on it; `channel` are the events on their way from the
      backend to the router. */
  datatype Station = Station(net: Net, backend: Backend, channel: seq<CaptureEvent>, hand: set<nat>)

  datatype Happening =
    | Strikes(raw: Raw, ch: Option<char>, mods: set<Mod>)
    | Senses(ev: CaptureEvent)
    | RouterSees(now: nat)
    | RouterDoes(m: Move, fails: bool, really: set<Hid>)

  predicate CanHappen(s: Station, h: Happening) {
    match h
    case Strikes(raw, _, _) => Suits(s.backend, raw)
    case Senses(ev) => ev.Pointer? || ev.Motion? || ev.ButtonChange? || ev.WheelTurn?
    case RouterSees(_) => s.net.queue == [] && s.channel != []
    case RouterDoes(m, _, _) => !m.Sees? && Possible(s.net, m)
  }

  function Reported(seen: Seen, ch: Option<char>, mods: set<Mod>): seq<CaptureEvent> {
    match seen
    case Silent => []
    case HotkeySeen => [Hotkey]
    case KeySeen(hid, action) => [KeyChange(KeyEvent(hid, ch, mods, action))]
  }

  /** The command the router gives the backend with this move, if any. */
  function Command(s: Net, m: Move): Option<CaptureCmd>
    requires Possible(s, m)
  {
    if m.Carries? && s.queue[0].Capture? then Some(s.queue[0].cmd) else None
  }

  function Then(s: Station, h: Happening): Station
    requires s.net.world.core.Sound() && CanHappen(s, h) && Wired(s)
  {
    match h
    case Strikes(raw, ch, mods) =>
      var (b, seen) := Struck(s.backend, raw);
      s.(backend := b, channel := s.channel + Reported(seen, ch, mods), hand := HandAfter(s.hand, raw))
    case Senses(ev) => s.(channel := s.channel + [ev])
    case RouterSees(now) =>
      HeadIsLegal(s, now);
      s.(net := NetNext(s.net, Sees(s.channel[0], now)), channel := s.channel[1..])
    case RouterDoes(m, fails, really) =>
      var s' := s.(net := NetNext(s.net, m));
      match Command(s.net, m)
      case None => s'
      case Some(Ungrab(_)) => s'.(backend := s.backend.Release())
      case Some(Grab) =>
        s'.(backend := s.backend.Grab(fails, really),
            channel := if fails && !s.backend.Grabbed() then s.channel + [GrabFailed] else s.channel)
  }

  /** What the channel says of keys. */
  function KeysOn(channel: seq<CaptureEvent>): (seen: seq<Seen>)
    ensures |seen| == |channel|
  {
    seq(|channel|, i requires 0 <= i < |channel| =>
      if channel[i].KeyChange? then KeySeen(channel[i].key.hid, channel[i].key.action) else Silent)
  }

  /** The router's idea of the keys, continued by what is on its way, is the backend's table. */
  predicate Wired(s: Station) {
    && Lawful(s.net.world.phys, KeysOn(s.channel))
    && (s.backend.Grabbed() ==> Held(s.net.world.phys, KeysOn(s.channel)) == s.backend.Table())
    && s.backend.Sees(s.hand)
    && (s.net.world.front.grabbed && !s.backend.Grabbed() ==> GrabFailed in s.channel)
  }

  lemma HeadIsLegal(s: Station, now: nat)
    requires Wired(s) && s.channel != [] && s.net.queue == []
    ensures Possible(s.net, Sees(s.channel[0], now))
  {
    assert KeysOn(s.channel)[0] == KeysOn([s.channel[0]])[0];
    if s.channel[0].KeyChange? {
      LawfulIsLegal(s.net.world, s.channel[0].key, TurnOf(s.channel[0], now));
    }
  }

  lemma {:induction false} LawfulOn(held: set<Hid>, a: seq<Seen>, b: seq<Seen>)
    ensures Lawful(held, a + b) <==> Lawful(held, a) && Lawful(Held(held, a), b)
    ensures Held(held, a + b) == Held(Held(held, a), b)
    decreases |a|
  {
    if a == [] {
      assert a + b == b;
    } else {
      assert (a + b)[1..] == a[1..] + b;
      LawfulOn(HeldAfter(held, a[0]), a[1..], b);
    }
  }

  lemma OneSeen(held: set<Hid>, seen: Seen)
    ensures Lawful(held, [seen]) <==> LawfulNext(held, seen)
    ensures Held(held, [seen]) == HeldAfter(held, seen)
  {
    assert [seen][1..] == [];
  }

  // ---- what keeps the wires straight ------------------------------------------------------------------

  /** No release is lost; and when the router has the devices grabbed, what is on the way to it speaks
      only of keys pressed since: of none, if the backend begins its table anew. */
  predicate Wires(s: Station, h: Happening)
    requires CanHappen(s, h)
  {
    match h
    case Strikes(raw, _, _) => !Lost(s.backend, raw)
    case RouterDoes(m, fails, really) =>
      Command(s.net, m) == Some(Grab) ==>
        var b := s.backend.Grab(fails, really);
        Lawful({}, KeysOn(s.channel)) && (b.Grabbed() ==> Held({}, KeysOn(s.channel)) == b.Table())
    case _ => true
  }

  lemma LostIsNotSeen(b: Backend, raw: Raw, hand: set<nat>)
    requires Suits(b, raw) && b.Sees(hand) && Lost(b, raw)
    ensures !Struck(b, raw).0.Sees(HandAfter(hand, raw))
  {
    match b
    case OnX(layout, keys) =>
      assert layout.hids[raw.x.code] in b.Table();
      X.HandHoldsThem(keys, layout, raw.x, hand);
    case OnWindows(hook) =>
      assert W.HOME in b.Table();
      W.HandHoldsThem(hook, raw.w, hand);
  }

  lemma ReportedIsSeen(channel: seq<CaptureEvent>, seen: Seen, ch: Option<char>, mods: set<Mod>, held: set<Hid>)
    ensures Held(held, KeysOn(channel + Reported(seen, ch, mods))) == HeldAfter(Held(held, KeysOn(channel)), seen)
    ensures Lawful(held, KeysOn(channel + Reported(seen, ch, mods)))
        <==> Lawful(held, KeysOn(channel)) && LawfulNext(Held(held, KeysOn(channel)), seen)
  {
    var more := Reported(seen, ch, mods);
    if more == [] {
      assert channel + more == channel;
    } else {
      OneMoreEvent(channel, more[0], held);
      assert more == [more[0]];
    }
  }

  lemma OneMoreEvent(channel: seq<CaptureEvent>, ev: CaptureEvent, held: set<Hid>)
    ensures var seen := if ev.KeyChange? then KeySeen(ev.key.hid, ev.key.action) else Silent;
      && Held(held, KeysOn(channel + [ev])) == HeldAfter(Held(held, KeysOn(channel)), seen)
      && (Lawful(held, KeysOn(channel + [ev])) <==> Lawful(held, KeysOn(channel)) && LawfulNext(Held(held, KeysOn(channel)), seen))
  {
    var seen := if ev.KeyChange? then KeySeen(ev.key.hid, ev.key.action) else Silent;
    assert KeysOn(channel + [ev]) == KeysOn(channel) + [seen];
    LawfulOn(held, KeysOn(channel), [seen]);
    OneSeen(Held(held, KeysOn(channel)), seen);
  }

  lemma StrikeIsWired(s: Station, raw: Raw, ch: Option<char>, mods: set<Mod>)
    requires s.net.world.core.Sound() && Wired(s) && CanHappen(s, Strikes(raw, ch, mods))
    ensures Wired(Then(s, Strikes(raw, ch, mods))) <==> !Lost(s.backend, raw)
  {
    if Lost(s.backend, raw) {
      LostIsNotSeen(s.backend, raw, s.hand);
    } else {
      var (b, seen) := Struck(s.backend, raw);
      StruckIsSeen(s.backend, raw, s.hand);
      ReportedIsSeen(s.channel, seen, ch, mods, s.net.world.phys);
    }
  }

  lemma SeenIsWired(s: Station, now: nat)
    requires s.net.world.core.Sound() && Wired(s) && CanHappen(s, RouterSees(now))
    ensures Wired(Then(s, RouterSees(now)))
  {
    var ev, w := s.channel[0], s.net.world;
    var seen := if ev.KeyChange? then KeySeen(ev.key.hid, ev.key.action) else Silent;
    assert KeysOn(s.channel)[0] == seen && KeysOn(s.channel)[1..] == KeysOn(s.channel[1..]);
    if ev.KeyChange? {
      LawfulIsLegal(w, ev.key, TurnOf(ev, now));
    }
    assert Observe(w, TurnOf(ev, now)).phys == HeldAfter(w.phys, seen);
    assert GrabFailed in s.channel && ev != GrabFailed ==> GrabFailed in s.channel[1..];
  }

  /** What a move of the router's own does to the keys and the grab is what its command says. */
  lemma MovesByCommand(s: Net, m: Move)
    requires s.world.core.Sound() && !m.Sees? && Possible(s, m)
    ensures var w := NetNext(s, m).world;
      && w.phys == (if Command(s, m) == Some(Grab) then {} else s.world.phys)
      && w.front.grabbed == (if Command(s, m).None? then s.world.front.grabbed else Command(s, m).value.Grab?)
  {
  }

  lemma DoneIsWired(s: Station, m: Move, fails: bool, really: set<Hid>)
    requires s.net.world.core.Sound() && Wired(s) && CanHappen(s, RouterDoes(m, fails, really))
    ensures Wired(Then(s, RouterDoes(m, fails, really))) <==> Wires(s, RouterDoes(m, fails, really))
  {
    MovesByCommand(s.net, m);
    OneMoreEvent(s.channel, GrabFailed, {});
    assert s.backend.Release().Table() == {} && (!s.backend.Grabbed() ==> s.backend.Grab(fails, really).Table() == {});
  }

  /** The wires stay straight over a step exactly under those two conditions. */
  lemma WiredExactly(s: Station, h: Happening)
    requires s.net.world.core.Sound() && Wired(s) && CanHappen(s, h)
    ensures Wired(Then(s, h)) <==> Wires(s, h)
  {
    match h
    case Strikes(raw, ch, mods) => StrikeIsWired(s, raw, ch, mods);
    case Senses(ev) => OneMoreEvent(s.channel, ev, s.net.world.phys);
    case RouterSees(now) => SeenIsWired(s, now);
    case RouterDoes(m, fails, really) => DoneIsWired(s, m, fails, really);
  }

  // ---- the grab ---------------------------------------------------------------------------------------

  /** Whether the devices are grabbed once the commands of the queue are carried out. */
  function GrabbedBy(grabbed: bool, q: seq<Action>): bool
    decreases |q|
  {
    if q == [] then grabbed else GrabbedBy(if q[0].Capture? then q[0].cmd.Grab? else grabbed, q[1..])
  }

  predicate DevicesRight(s: Net) {
    GrabbedBy(s.world.front.grabbed, s.queue) <==> s.world.core.mode.Remote?
  }

  lemma {:induction false} GrabbedByBoth(grabbed: bool, a: seq<Action>, b: seq<Action>)
    ensures GrabbedBy(grabbed, a + b) == GrabbedBy(GrabbedBy(grabbed, a), b)
    decreases |a|
  {
    if a == [] {
      assert a + b == b;
    } else {
      assert (a + b)[1..] == a[1..] + b;
      GrabbedByBoth(if a[0].Capture? then a[0].cmd.Grab? else grabbed, a[1..], b);
    }
  }

  lemma {:induction false} SendsGrabNothing(grabbed: bool, q: seq<Action>)
    requires forall a | a in q :: a.Send?
    ensures GrabbedBy(grabbed, q) == grabbed
    decreases |q|
  {
    if q != [] {
      assert q[0] in q && forall a | a in q[1..] :: a in q;
      SendsGrabNothing(grabbed, q[1..]);
    }
  }

  lemma CommandOf(grabbed: bool, before: seq<Action>, a: Action, after: seq<Action>)
    requires a.Capture? && forall x | x in after :: x.Send?
    ensures GrabbedBy(grabbed, before + [a] + after) == a.cmd.Grab?
  {
    GrabbedByBoth(grabbed, before + [a], after);
    GrabbedByBoth(grabbed, before, [a]);
    assert [a][1..] == [];
    SendsGrabNothing(a.cmd.Grab?, after);
  }

  lemma MovingGrabs(c: CoreState, moved: Point, beyond: Option<(Name, Point)>)
    requires c.Sound() && c.mode.Remote?
    requires beyond.Some? ==> Covered(beyond.value.1, c.MonitorsOf(beyond.value.0))
    ensures GrabbedBy(true, c.MoveTo(moved, beyond).1) == c.MoveTo(moved, beyond).0.mode.Remote?
  {
    var (c', q) := c.MoveTo(moved, beyond);
    if c'.mode.Remote? {
      SendsGrabNothing(true, q);
    } else {
      assert q == [q[0], q[1]] + [q[2]] + [];
      CommandOf(true, [q[0], q[1]], q[2], []);
    }
  }

  lemma PointerGrabs(c: CoreState, p: Point, now: nat)
    requires c.Sound()
    ensures GrabbedBy(c.mode.Remote?, c.OnPointer(p, now).1) == c.OnPointer(p, now).0.mode.Remote?
  {
    var (c', q) := c.OnPointer(p, now);
    if q != [] {
      assert q == [] + [Capture(Grab)] + [Send(c'.mode.screen, Enter(c'.mode.pos, c'.number))];
      CommandOf(false, [], Capture(Grab), [Send(c'.mode.screen, Enter(c'.mode.pos, c'.number))]);
    }
  }

  lemma HotkeyGrabs(c: CoreState)
    requires c.Sound()
    ensures GrabbedBy(c.mode.Remote?, c.OnHotkey().1) == c.OnHotkey().0.mode.Remote?
  {
    var (c', q) := c.OnHotkey();
    if c.mode.Remote? {
      assert q == [q[0]] + [q[1]] + [];
      CommandOf(true, [q[0]], q[1], []);
    } else if q != [] {
      assert q == [] + [q[0]] + [q[1]];
      CommandOf(false, [], q[0], [q[1]]);
    }
  }

  /** After a reaction to input the devices are grabbed exactly if the input is elsewhere. */
  lemma HandleGrabs(c: CoreState, ev: CaptureEvent, now: nat)
    requires c.Sound()
    ensures GrabbedBy(c.mode.Remote? && ev != GrabFailed, c.Handle(ev, now).1) == c.Handle(ev, now).0.mode.Remote?
  {
    var (c', q) := c.Handle(ev, now);
    match ev
    case Pointer(p) => PointerGrabs(c, p, now);
    case Hotkey => HotkeyGrabs(c);
    case GrabFailed => SendsGrabNothing(false, q);
    case Motion(dx, dy) =>
      if c.mode.Remote? && c.MonitorsOf(c.mode.screen) != [] {
        var moved, beyond := MotionIsMove(c, dx, dy);
        MovingGrabs(c, moved, beyond);
      }
    case KeyChange(k) =>
      OnKeySendsKeys(c, k);
      SendsGrabNothing(c.mode.Remote?, q);
    case _ => SendsGrabNothing(c.mode.Remote?, q);
  }

  lemma ReturningGrabs(c: CoreState, name: Name, grabbed: bool)
    requires c.Sound() && c.localMonitors != [] && grabbed == c.mode.Remote?
    ensures GrabbedBy(grabbed, c.Disconnect(name).1) == c.Disconnect(name).0.mode.Remote?
  {
    var (c', q) := c.Disconnect(name);
    CentreForgetsMode(c, name);
    if q != [] {
      assert q == [] + [q[0]] + [];
      CommandOf(grabbed, [], q[0], []);
    } else {
      assert c'.mode == c.mode;
    }
  }

  lemma NextDevices(s: Net, m: Move)
    requires WellKept(s) && DevicesRight(s) && Possible(s, m)
    ensures DevicesRight(NetNext(s, m))
  {
    match m
    case HubDoes(op) =>
    case Carries => CarriedDevices(s);
    case TakesEvent => TakenDevices(s);
    case Sees(ev, now) => SeenDevices(s, ev, now);
  }

  lemma CarriedDevices(s: Net)
    requires WellKept(s) && DevicesRight(s) && s.queue != []
    ensures DevicesRight(Carried(s))
  {
    var a, rest := s.queue[0], s.queue[1..];
    if a.Send? && !s.Here(a.to) {
      GrabbedByBoth(s.world.front.grabbed, rest, Fail(s.world, a.to).1);
      ReturningGrabs(s.world.core, a.to, GrabbedBy(s.world.front.grabbed, rest));
    }
  }

  lemma SeenDevices(s: Net, ev: CaptureEvent, now: nat)
    requires WellKept(s) && DevicesRight(s) && Possible(s, Sees(ev, now))
    ensures DevicesRight(NetNext(s, Sees(ev, now)))
  {
    HandleGrabs(s.world.core, ev, now);
  }

  lemma TakenDevices(s: Net)
    requires WellKept(s) && DevicesRight(s) && Possible(s, TakesEvent)
    ensures DevicesRight(NetNext(s, TakesEvent))
  {
    var ev, c := s.hub.log[s.taken], s.world.core;
    match ev
    case LocalMonitors(monitors) => assert c.OnHub(ev).0 == c.SetLocalMonitors(monitors) && c.OnHub(ev).0.mode == c.mode;
    case Disconnected(name) => ReturningGrabs(c, name, s.world.front.grabbed);
    case _ => assert c.OnHub(ev).0.mode == c.mode && c.OnHub(ev).1 == [];
  }

  // ---- runs -------------------------------------------------------------------------------------------

  ghost predicate Right(s: Station) {
    WellKept(s.net) && Attended(s.net) && KeysRight(s.net) && DevicesRight(s.net) && Wired(s)
  }

  /** A step that leaves no session behind and the wires straight. */
  predicate Smooth(s: Station, h: Happening)
    requires CanHappen(s, h)
  {
    Wires(s, h) && (h.RouterDoes? ==> !Strands(s.net, h.m))
  }

  lemma ThenIsRight(s: Station, h: Happening)
    requires Right(s) && CanHappen(s, h) && Smooth(s, h)
    ensures Right(Then(s, h))
  {
    WiredExactly(s, h);
    if h.RouterSees? || h.RouterDoes? {
      if h.RouterSees? {
        HeadIsLegal(s, h.now);
      }
      var m := if h.RouterSees? then Move.Sees(s.channel[0], h.now) else h.m;
      NextIsKept(s.net, m);
      LeftBehindExactly(s.net, m);
      NextKeys(s.net, m);
      NextDevices(s.net, m);
    }
  }

  ghost predicate SmoothRun(s: Station, hs: seq<Happening>)
    requires Right(s)
    decreases |hs|
  {
    hs == [] || (CanHappen(s, hs[0]) && Smooth(s, hs[0]) && (ThenIsRight(s, hs[0]); SmoothRun(Then(s, hs[0]), hs[1..])))
  }

  ghost function PlayStation(s: Station, hs: seq<Happening>): (s': Station)
    requires Right(s) && SmoothRun(s, hs)
    ensures Right(s')
    decreases |hs|
  {
    if hs == [] then s
    else
      ThenIsRight(s, hs[0]);
      PlayStation(Then(s, hs[0]), hs[1..])
  }

  function FirstStation(core: CoreState, setups: Name -> Setup, backend: Backend, hand: set<nat>): Station {
    Station(FirstNet(core, setups), backend, [], hand)
  }

  lemma FirstStationIsRight(layout: Placement.Layout, policy: SwitchPolicy, local: Name, monitors: seq<Rect>,
          positions: map<Name, Point>, sizes: map<Name, Size>, rules: seq<Rule>, setups: Name -> Setup,
          backend: Backend, hand: set<nat>)
    requires AllProper(monitors) && monitors != []
    requires !backend.Grabbed() && backend.Sees(hand)
    ensures Right(FirstStation(Start(layout, policy, local, monitors, positions, sizes, rules), setups, backend, hand))
  {
    FirstNetIsRight(layout, policy, local, monitors, positions, sizes, rules, setups);
  }

  /** From the hand to the client. In every smooth run, whatever the hand, the clients and the hub do
      meanwhile: once nothing is on its way, a key that a client has pressed stands for a key that the
      hand holds at that moment, and the client is where the input is, with the devices grabbed. */
  lemma PressedIsHeld(s: Station, hs: seq<Happening>, n: Name, os: OsKey)
    requires Right(s) && SmoothRun(s, hs)
    requires var s' := PlayStation(s, hs); s'.channel == [] && s'.net.queue == [] && os in s'.net.world.SinkOf(n).pressed
    ensures var s' := PlayStation(s, hs);
      var sink, w := s'.net.world.SinkOf(n), s'.net.world;
      && Holder(w.core) == Some(n) && s'.backend.Grabbed() && s'.net.Here(n)
      && exists h, p :: h in sink.heldKeys && sink.heldKeys[h] == os && AccountsFor(w.core.fired, p, h) && p in s'.backend.Down(s'.hand)
  {
    var s' := PlayStation(s, hs);
    var w := s'.net.world;
    Sessions.NoStuckKeys(s'.net, [], n, os);
    var h :| h in w.SinkOf(n).heldKeys && w.SinkOf(n).heldKeys[h] == os && Justified(w.core.fired, w.phys, h);
    var p :| p in w.phys && AccountsFor(w.core.fired, p, h);
    assert KeysOn([]) == [];
    TableIsHeld(s'.backend, s'.hand);
    assert p in s'.backend.Down(s'.hand);
  }

  lemma TableIsHeld(b: Backend, hand: set<nat>)
    requires b.Sees(hand)
    ensures b.Table() <= b.Down(hand)
  {
  }

  /** With every key let go, nothing is pressed anywhere. */
  lemma LettingGoLetsGo(s: Station, hs: seq<Happening>, n: Name)
    requires Right(s) && SmoothRun(s, hs)
    requires var s' := PlayStation(s, hs); s'.channel == [] && s'.net.queue == [] && s'.hand == {}
    ensures PlayStation(s, hs).net.world.SinkOf(n).pressed == {}
  {
    var pressed := PlayStation(s, hs).net.world.SinkOf(n).pressed;
    if os :| os in pressed {
      PressedIsHeld(s, hs, n, os);
    }
  }
}
