/** Whole runs of the router: events in, the action queue drained through a hub whose sends may
    fail, and what the capture backend and the client machines have seen of it
    (`run_shared` in `geserdesk-server/src/router.rs`). */
module RouterRuns {
  import opened Wrappers
  import opened Geometry
  import opened Names
  import opened Input
  import opened Router

  // ---- what the outside has seen ----------------------------------------------------------

  /** The actions so far, folded: the screen between its Enter and its Leave, the highest Enter
      number delivered, and whether the devices are grabbed. */
  datatype Front = Front(open: Option<Name>, last: nat, grabbed: bool)

  function Closed(open: Option<Name>, name: Name): Option<Name> {
    if open == Some(name) then None else open
  }

  /** One action more; what goes to a `lost` client is not delivered. */
  function Pass(f: Front, a: Action, lost: set<Name>): Front {
    match a
    case Capture(cmd) => f.(grabbed := cmd.Grab?)
    case Send(to, msg) =>
      if to in lost then f
      else
        match msg
        case Enter(_, n) => f.(open := Some(to), last := n)
        case Leave => f.(open := Closed(f.open, to))
        case _ => f
  }

  /** The position an action carries lies on a monitor it is meant for. */
  predicate Real(c: CoreState, a: Action) {
    match a
    case Send(to, Enter(at, _)) => Covered(at, c.MonitorsOf(to))
    case Send(to, Mouse(MoveAbs(p))) => Covered(p, c.MonitorsOf(to))
    case Capture(Ungrab(warp)) => Covered(warp, c.localMonitors)
    case _ => true
  }

  /** `a` may come now: input only for the screen that is open, an Enter only when none is and
      numbered higher, a capture command only when none is, positions only on monitors. */
  predicate Proper(c: CoreState, f: Front, a: Action, lost: set<Name>) {
    match a
    case Capture(_) => f.open.None? && Real(c, a)
    case Send(to, msg) =>
      to in lost ||
      match msg
      case Enter(_, n) => f.open.None? && f.last < n && Real(c, a)
      case Leave => true
      case _ => f.open == Some(to) && Real(c, a)
  }

  function Through(f: Front, q: seq<Action>, lost: set<Name>): Front
    decreases |q|
  {
    if q == [] then f else Through(Pass(f, q[0], lost), q[1..], lost)
  }

  predicate Fits(c: CoreState, f: Front, q: seq<Action>, lost: set<Name>)
    decreases |q|
  {
    q == [] || (Proper(c, f, q[0], lost) && Fits(c, Pass(f, q[0], lost), q[1..], lost))
  }

  lemma {:induction false} Concat(c: CoreState, f: Front, a: seq<Action>, b: seq<Action>, lost: set<Name>)
    ensures Through(f, a + b, lost) == Through(Through(f, a, lost), b, lost)
    ensures Fits(c, f, a + b, lost) <==> Fits(c, f, a, lost) && Fits(c, Through(f, a, lost), b, lost)
    decreases |a|
  {
    if a == [] {
      assert a + b == b;
    } else {
      assert (a + b)[1..] == a[1..] + b;
      Concat(c, Pass(f, a[0], lost), a[1..], b, lost);
    }
  }

  lemma One(c: CoreState, f: Front, a: Action, lost: set<Name>)
    ensures Through(f, [a], lost) == Pass(f, a, lost)
    ensures Fits(c, f, [a], lost) <==> Proper(c, f, a, lost)
  {
    assert [a][1..] == [];
  }

  lemma Two(c: CoreState, f: Front, a: Action, b: Action, lost: set<Name>)
    ensures Through(f, [a, b], lost) == Pass(Pass(f, a, lost), b, lost)
    ensures Fits(c, f, [a, b], lost) <==> Proper(c, f, a, lost) && Proper(c, Pass(f, a, lost), b, lost)
  {
    assert [a, b] == [a] + [b];
    One(c, f, a, lost);
    One(c, Pass(f, a, lost), b, lost);
    Concat(c, f, [a], [b], lost);
  }

  /** `f'` is `f` without whatever session client `x` had. */
  predicate Without(f': Front, f: Front, x: Name) {
    f'.open == Closed(f.open, x) && f'.last <= f.last && f'.grabbed == f.grabbed
  }

  /** Dropping one more client from a queue that fits leaves a queue that fits, and at its end
      only that client's own session is missing. */
  lemma {:induction false} DropClient(c: CoreState, c': CoreState, f: Front, f': Front, q: seq<Action>,
          lost: set<Name>, x: Name)
    requires Fits(c, f, q, lost) && Without(f', f, x)
    requires c'.localMonitors == c.localMonitors && forall n: Name :: n != x ==> c'.MonitorsOf(n) == c.MonitorsOf(n)
    ensures Fits(c', f', q, lost + {x}) && Without(Through(f', q, lost + {x}), Through(f, q, lost), x)
    decreases |q|
  {
    if q != [] {
      DropClient(c, c', Pass(f, q[0], lost), Pass(f', q[0], lost + {x}), q[1..], lost, x);
    }
  }

  // ---- the world ---------------------------------------------------------------------------

  /** The router and everything outside it that it acts on. `phys` are the keys down since the
      last Grab; `ok` is false once something came that was not `Proper`. */
  datatype World = World(core: CoreState, front: Front, phys: set<Hid>, sinks: map<Name, Sink>, setups: Name -> Setup, ok: bool) {
    function SinkOf(name: Name): Sink {
      if name in sinks then sinks[name] else RELEASED
    }
  }

  /** An action carried out. */
  function Do(w: World, a: Action): World {
    var sinks :=
      match a
      case Send(to, Leave) => w.sinks[to := RELEASED]
      case Send(to, Key(k)) => w.sinks[to := SinkKey(w.SinkOf(to), w.setups(to), k)]
      case Send(to, Mouse(m)) => w.sinks[to := SinkMouse(w.SinkOf(to), m)]
      case _ => w.sinks;
    w.(front := Pass(w.front, a, {}), phys := if a == Capture(Grab) then {} else w.phys, sinks := sinks,
       ok := w.ok && Proper(w.core, w.front, a, {}))
  }

  /** A client's connection is over: its session's last act is to let go of everything. */
  function Lose(w: World, name: Name): World {
    w.(front := w.front.(open := Closed(w.front.open, name)), sinks := w.sinks[name := RELEASED])
  }

  function Weight(q: seq<Action>): nat {
    if q == [] then 0 else (if q[0].Send? then 2 else 1) + Weight(q[1..])
  }

  lemma {:induction false} WeightAppend(a: seq<Action>, b: seq<Action>)
    ensures Weight(a + b) == Weight(a) + Weight(b)
  {
    if a == [] {
      assert a + b == b;
    } else {
      assert (a + b)[1..] == a[1..] + b;
      WeightAppend(a[1..], b);
    }
  }

  /** A send that failed: the client is gone, and what the router makes of that. */
  function Fail(w: World, to: Name): (r: (World, seq<Action>))
    requires w.core.Sound()
    ensures r.0.core.Sound() && Weight(r.1) <= 1
  {
    var (c, actions) := w.core.Disconnect(to);
    (Lose(w, to).(core := c), actions)
  }

  /** One action taken off the queue. `life(x)` says at which send client `x` is no longer
      there: that send and every later one to it in this drain fail. */
  function Next(w: World, q: seq<Action>, life: Name -> nat, step: nat): (r: (World, seq<Action>, nat))
    requires w.core.Sound() && q != []
    ensures r.0.core.Sound() && Weight(r.1) < Weight(q)
  {
    if q[0].Capture? then (Do(w, q[0]), q[1..], step)
    else if step < life(q[0].to) then (Do(w, q[0]), q[1..], step + 1)
    else
      var (w', actions) := Fail(w, q[0].to);
      WeightAppend(q[1..], actions);
      (w', q[1..] + actions, step + 1)
  }

  /** The queue drained, first in first out. */
  function Drain(w: World, q: seq<Action>, life: Name -> nat, step: nat): World
    requires w.core.Sound()
    decreases Weight(q)
  {
    if q == [] then w
    else
      var (w', q', step') := Next(w, q, life, step);
      Drain(w', q', life, step')
  }

  /** The drain loop of `run_shared`. That it terminates is that the queue always drains. */
  method DrainLoop(core: Core, actions: seq<Action>, life: Name -> nat, ghost w: World) returns (ghost w': World)
    requires core.View() == w.core && w.core.Sound()
    modifies core, core.switcher
    ensures w' == Drain(w, actions, life, 0) && core.View() == w'.core
  {
    w' := w;
    var pending, step := actions, 0;
    while pending != []
      invariant core.View() == w'.core && w'.core.Sound()
      invariant Drain(w', pending, life, step) == Drain(w, actions, life, 0)
      decreases Weight(pending)
    {
      ghost var before, queue := w', pending;
      ghost var next := Next(w', pending, life, step);
      var action := pending[0];
      pending := pending[1..];
      w' := next.0;
      if action.Send? {
        if step >= life(action.to) {
          var more := core.ClientDisconnected(action.to);
          assert (core.View(), more) == before.core.Disconnect(action.to);
          pending := pending + more;
        }
        step := step + 1;
      }
      assert next == (w', pending, step);
    }
  }

  datatype Turn =
    | FromCapture(ev: CaptureEvent, now: nat, life: Name -> nat)
    | FromHub(hub: HubEvent, life: Name -> nat)

  /** Monitors have an area, and the capture backend reports a key Down only when it is not down
      since the grab and repeats only a key that is. */
  predicate Legal(w: World, t: Turn) {
    match t
    case FromHub(Connected(_, monitors), _) => AllProper(monitors)
    case FromHub(LocalMonitors(monitors), _) => AllProper(monitors)
    case FromCapture(KeyChange(k), _, _) => k.action != Up ==> (k.hid in w.phys <==> k.action != Down)
    case _ => true
  }

  /** What the event itself says about the outside, before the router sees it. */
  function Observe(w: World, t: Turn): World {
    match t
    case FromCapture(GrabFailed, _, _) => w.(front := w.front.(grabbed := false))
    case FromCapture(KeyChange(k), _, _) =>
      w.(phys := if k.action == Down then w.phys + {k.hid} else if k.action == Up then w.phys - {k.hid} else w.phys)
    case FromHub(Disconnected(name), _) => Lose(w, name)
    case _ => w
  }

  function React(c: CoreState, t: Turn): (CoreState, seq<Action>)
    requires c.Sound()
  {
    match t
    case FromCapture(ev, now, _) => c.Handle(ev, now)
    case FromHub(ev, _) => c.OnHub(ev)
  }

  lemma ReactKeepsSound(w: World, t: Turn)
    requires w.core.Sound() && Legal(w, t)
    ensures var c := React(w.core, t).0;
      c.Sound() && c.rules == w.core.rules && (w.core.localMonitors != [] ==> c.localMonitors != [])
  {
    if t.FromHub? {
      match t.hub
      case LocalMonitors(monitors) => assert w.core.OnHub(t.hub).0 == w.core.SetLocalMonitors(monitors);
      case _ =>
    }
  }

  /** One turn of the loop of `run_shared`. */
  function Take(w: World, t: Turn): World
    requires w.core.Sound() && Legal(w, t)
  {
    ReactKeepsSound(w, t);
    var (c, actions) := React(w.core, t);
    Drain(Observe(w, t).(core := c), actions, t.life, 0)
  }

  // ---- the invariant of a run ----------------------------------------------------------------

  function Holder(c: CoreState): Option<Name> {
    match c.mode
    case Local => None
    case Remote(screen, _) => Some(screen)
  }

  /** Only the screen that is open has anything pressed, and nothing pressed is unknown to the
      sink that pressed it. */
  predicate Quiet(w: World) {
    forall n | n in w.sinks :: Accounted(w.sinks[n]) && (w.front.open != Some(n) ==> w.sinks[n] == RELEASED)
  }

  /** The router's own idea of the outside is what the outside is once the queue is through. */
  predicate InStep(c: CoreState, f: Front) {
    && f.open == Holder(c) && f.last <= c.number && (f.grabbed <==> c.mode.Remote?)
    && (c.mode.Remote? ==> c.mode.screen in c.connected)
  }

  /** What holds with `q` still to be carried out, after sends to the `lost` clients failed. */
  predicate Underway(w: World, q: seq<Action>, lost: set<Name>) {
    && w.core.Sound() && w.core.localMonitors != []
    && w.ok && Quiet(w)
    && Fits(w.core, w.front, q, lost)
    && InStep(w.core, Through(w.front, q, lost))
  }

  /** Between turns: grabbed iff a remote screen is active; that screen is connected and is the
      one with an open Enter; and everything so far was proper. */
  predicate Safe(w: World) {
    Underway(w, [], {})
  }

  predicate LostBy(lost: set<Name>, life: Name -> nat, step: nat) {
    forall n | n in lost :: life(n) <= step
  }

  function LostNext(q: seq<Action>, life: Name -> nat, step: nat, lost: set<Name>): set<Name>
    requires q != []
  {
    if q[0].Send? && step >= life(q[0].to) then lost + {q[0].to} else lost
  }

  lemma LocalCenterIsReal(c: CoreState)
    requires c.Sound() && c.localMonitors != []
    ensures Covered(c.LocalCenter(), c.localMonitors)
  {
    var home := c.HomeMonitor().value;
    NearestPointMinimises(home.Center(), c.localMonitors);
  }

  lemma DoKeepsQuiet(w: World, a: Action)
    requires Quiet(w) && Proper(w.core, w.front, a, {})
    ensures Quiet(Do(w, a))
  {
    assert Accounted(RELEASED);
    if a.Send? && a.msg.Key? {
      SinkKeyAccounted(w.SinkOf(a.to), w.setups(a.to), a.msg.key);
    }
  }

  lemma DoneUnderway(w: World, q: seq<Action>, lost: set<Name>)
    requires Underway(w, q, lost) && q != [] && (q[0].Send? ==> q[0].to !in lost)
    ensures Underway(Do(w, q[0]), q[1..], lost)
  {
    DoKeepsQuiet(w, q[0]);
    assert Pass(w.front, q[0], {}) == Pass(w.front, q[0], lost);
  }

  lemma FailedUnderway(w: World, q: seq<Action>, lost: set<Name>)
    requires Underway(w, q, lost) && q != [] && q[0].Send?
    ensures var (w', actions) := Fail(w, q[0].to); Underway(w', q[1..] + actions, lost + {q[0].to})
  {
    var to := q[0].to;
    var (w', actions) := Fail(w, to);
    LosingKeepsQuiet(w, to);
    FailedFits(w.core, w.front, w'.front, q, lost, to);
    assert Quiet(w');
  }

  lemma LosingKeepsQuiet(w: World, name: Name)
    requires Quiet(w)
    ensures Quiet(Lose(w, name))
  {
    assert Accounted(RELEASED);
  }

  lemma FailedFits(c: CoreState, f: Front, f': Front, q: seq<Action>, lost: set<Name>, to: Name)
    requires c.Sound() && c.localMonitors != [] && q != [] && q[0].Send? && q[0].to == to && Without(f', f, to)
    requires Fits(c, f, q, lost) && InStep(c, Through(f, q, lost))
    ensures var (c', more) := c.Disconnect(to);
      Fits(c', f', q[1..] + more, lost + {to}) && InStep(c', Through(f', q[1..] + more, lost + {to}))
  {
    var (c', more) := c.Disconnect(to);
    DropClient(c, c', f, f', q, lost, to);
    Concat(c', f', q[1..], more, lost + {to});
    CentreForgetsMode(c, to);
    if more != [] {
      LocalCenterIsReal(c');
      assert more == [more[0]];
      One(c', Through(f', q[1..], lost + {to}), more[0], lost + {to});
    }
  }

  /** Where the pointer comes back to does not depend on where the input was. */
  lemma CentreForgetsMode(c: CoreState, name: Name)
    requires c.Sound() && c.localMonitors != []
    ensures var (c', actions) := c.Disconnect(name);
      && (actions == [] || actions == [Capture(Ungrab(c'.LocalCenter()))])
      && (actions != [] <==> c.mode.Remote? && c.mode.screen == name)
      && (actions != [] ==> c'.mode.Local?)
  {
  }

  lemma NextUnderway(w: World, q: seq<Action>, life: Name -> nat, step: nat, lost: set<Name>)
    requires Underway(w, q, lost) && LostBy(lost, life, step) && q != []
    ensures var (w', q', step') := Next(w, q, life, step);
      Underway(w', q', LostNext(q, life, step, lost)) && LostBy(LostNext(q, life, step, lost), life, step')
  {
    if q[0].Send? && step >= life(q[0].to) {
      FailedUnderway(w, q, lost);
    } else {
      DoneUnderway(w, q, lost);
    }
  }

  lemma {:induction false} DrainSafe(w: World, q: seq<Action>, life: Name -> nat, step: nat, lost: set<Name>)
    requires Underway(w, q, lost) && LostBy(lost, life, step)
    ensures Safe(Drain(w, q, life, step))
    decreases Weight(q)
  {
    if q != [] {
      NextUnderway(w, q, life, step, lost);
      var (w', q', step') := Next(w, q, life, step);
      DrainSafe(w', q', life, step', LostNext(q, life, step, lost));
    }
  }

  // ---- every reaction fits ---------------------------------------------------------------------

  /** A reaction to input, in these terms. */
  predicate Reacts(w: World, c: CoreState, q: seq<Action>) {
    Safe(w) && w.core.SameDesk(c) ==> Fits(c, w.front, q, {}) && InStep(c, Through(w.front, q, {}))
  }

  lemma PointerReacts(w: World, p: Point, now: nat)
    requires Safe(w)
    ensures Reacts(w, w.core.OnPointer(p, now).0, w.core.OnPointer(p, now).1)
  {
    var (c, q) := w.core.OnPointer(p, now);
    if w.core.mode.Local? && c.mode.Remote? {
      assert q == [Capture(Grab), Send(c.mode.screen, Enter(c.mode.pos, c.number))];
      Two(c, w.front, q[0], q[1], {});
    }
  }

  lemma HotkeyReacts(w: World)
    requires Safe(w)
    ensures Reacts(w, w.core.OnHotkey().0, w.core.OnHotkey().1)
  {
    if w.core.mode.Remote? {
      var (c, q) := w.core.OnHotkey();
      LocalCenterIsReal(w.core);
      Two(c, w.front, q[0], q[1], {});
    } else if w.core.HotkeyTarget().Some? {
      var t := w.core.HotkeyTarget().value;
      EnterReacts(w, t, w.core.SnapInto(t, UnionAll(w.core.connected[t]).value.Center()));
    }
  }

  lemma EnterReacts(w: World, t: Name, p: Point)
    requires Safe(w) && w.core.mode.Local? && t in w.core.connected && UnionAll(w.core.connected[t]).Some?
    requires p == w.core.SnapInto(t, UnionAll(w.core.connected[t]).value.Center())
    ensures Reacts(w, w.core.EnterScreen(t, p).0, w.core.EnterScreen(t, p).1)
  {
    var (c, q) := w.core.EnterScreen(t, p);
    NearestPointMinimises(UnionAll(w.core.connected[t]).value.Center(), w.core.MonitorsOf(t));
    assert q == [Capture(Grab), Send(t, Enter(p, c.number))];
    Two(c, w.front, q[0], q[1], {});
  }

  /** `a` puts the cursor of the active screen on one of that screen's monitors. */
  predicate MovesThere(s: CoreState, a: Action)
    requires s.mode.Remote?
  {
    && a.Send? && a.to == s.mode.screen && a.msg.Mouse? && a.msg.mouse.MoveAbs?
    && Covered(a.msg.mouse.to, s.MonitorsOf(s.mode.screen))
  }

  predicate GoesAlong(s: CoreState, c: CoreState, q: seq<Action>) {
    && |q| == 1 && s.mode.Remote? && MovesThere(s, q[0])
    && c == s.(mode := Remote(s.mode.screen, q[0].msg.mouse.to))
  }

  predicate GoesHome(s: CoreState, c: CoreState, q: seq<Action>) {
    && |q| == 3 && s.mode.Remote? && MovesThere(s, q[0]) && q[1] == Send(s.mode.screen, Input.Leave)
    && q[2].Capture? && q[2].cmd.Ungrab? && Covered(q[2].cmd.warp, s.localMonitors)
    && c.mode.Local? && c.number == s.number
  }

  predicate GoesAcross(s: CoreState, c: CoreState, q: seq<Action>) {
    && |q| == 3 && s.mode.Remote? && MovesThere(s, q[0]) && q[1] == Send(s.mode.screen, Input.Leave)
    && c.mode.Remote? && c.mode.screen in s.connected && Covered(c.mode.pos, s.MonitorsOf(c.mode.screen))
    && q[2] == Send(c.mode.screen, Enter(c.mode.pos, s.number + 1)) && c.number == s.number + 1
  }

  /** A motion moves the cursor on its screen, or to the edge there and then home, or to the edge
      and then onto the next machine; every position on the way is on a monitor. */
  lemma MoveMeans(s: CoreState, moved: Point, beyond: Option<(Name, Point)>)
    requires s.Sound() && s.mode.Remote? && s.MonitorsOf(s.mode.screen) != []
    requires beyond.Some? ==> beyond.value.0 in s.connected.Keys + {s.local} && Covered(beyond.value.1, s.MonitorsOf(beyond.value.0))
    ensures var (c, q) := s.MoveTo(moved, beyond); GoesAlong(s, c, q) || GoesHome(s, c, q) || GoesAcross(s, c, q)
  {
    var mons := s.MonitorsOf(s.mode.screen);
    NearestPointMinimises(moved, mons);
    if !Covered(moved, mons) && beyond.Some? && beyond.value.0 == s.local {
      InsetClampLands(beyond.value.1, FirstContaining(s.localMonitors, beyond.value.1).value, s.Jump() + 1);
    }
  }

  lemma MoveReacts(w: World, c: CoreState, q: seq<Action>)
    requires Safe(w) && w.core.SameDesk(c)
    requires GoesAlong(w.core, c, q) || GoesHome(w.core, c, q) || GoesAcross(w.core, c, q)
    ensures Reacts(w, c, q)
  {
    if |q| == 1 {
      assert q == [q[0]];
      One(c, w.front, q[0], {});
    } else {
      assert q == [q[0], q[1]] + [q[2]];
      Two(c, w.front, q[0], q[1], {});
      One(c, Pass(Pass(w.front, q[0], {}), q[1], {}), q[2], {});
      Concat(c, w.front, [q[0], q[1]], [q[2]], {});
    }
  }

  lemma MotionReacts(w: World, dx: int, dy: int)
    requires Safe(w)
    ensures Reacts(w, w.core.OnMotion(dx, dy).0, w.core.OnMotion(dx, dy).1)
  {
    var s := w.core;
    if s.mode.Remote? && s.MonitorsOf(s.mode.screen) != [] {
      var moved, beyond := s.Aim(dx, dy), s.Beyond(s.Aim(dx, dy));
      MoveMeans(s, moved, beyond);
      var (c, q) := s.MoveTo(moved, beyond);
      MoveReacts(w, c, q);
    } else {
      assert s.OnMotion(dx, dy) == (s, []);
    }
  }

  /** Only keys, all for one screen. */
  predicate KeysFor(q: seq<Action>, screen: Name) {
    forall a | a in q :: a.Send? && a.to == screen && a.msg.Key?
  }

  lemma {:induction false} KeysFit(c: CoreState, f: Front, q: seq<Action>, screen: Name)
    requires KeysFor(q, screen) && f.open == Some(screen)
    ensures Fits(c, f, q, {}) && Through(f, q, {}) == f
    decreases |q|
  {
    if q != [] {
      KeysFit(c, f, q[1..], screen);
    }
  }

  lemma {:induction false} UpAllAreKeys(c: CoreState, keys: seq<Hid>)
    requires c.mode.Remote?
    ensures KeysFor(c.UpAll(keys), c.mode.screen)
    ensures forall a | a in c.UpAll(keys) :: a.msg.key.action == Up
    ensures forall h :: Send(c.mode.screen, AsAction(h, Up)) in c.UpAll(keys) <==> h in keys
  {
    if keys != [] {
      UpAllAreKeys(c, keys[1..]);
    }
  }

  lemma {:induction false} LetGoAreKeys(c: CoreState, mods: set<Mod>, table: seq<ModifierKeys>)
    requires c.mode.Remote?
    ensures KeysFor(c.LetGo(mods, table), c.mode.screen)
    ensures forall a | a in c.LetGo(mods, table) :: a.msg.key.action == Up
    ensures forall h ::
      Send(c.mode.screen, AsAction(h, Up)) in c.LetGo(mods, table) <==> exists m :: m in table && m.bit in mods && h in m.keys
    decreases |table|
  {
    if table != [] {
      UpAllAreKeys(c, table[0].keys);
      LetGoAreKeys(c, mods, table[1..]);
    }
  }

  lemma KeyReacts(w: World, k: KeyEvent)
    requires Safe(w)
    ensures Reacts(w, w.core.OnKey(k).0, w.core.OnKey(k).1)
  {
    var (c, q) := w.core.OnKey(k);
    if w.core.mode.Remote? {
      OnKeySendsKeys(w.core, k);
      KeysFit(c, w.front, q, w.core.mode.screen);
    }
  }

  lemma OnKeySendsKeys(c: CoreState, k: KeyEvent)
    ensures c.mode.Remote? ==> KeysFor(c.OnKey(k).1, c.mode.screen)
    ensures c.mode.Local? ==> c.OnKey(k).1 == []
  {
    if c.mode.Remote? {
      forall mods: set<Mod>
        ensures KeysFor(c.LetGo(mods, MODIFIER_KEYS), c.mode.screen)
      {
        LetGoAreKeys(c, mods, MODIFIER_KEYS);
      }
    }
  }

  lemma CaptureReacts(w: World, ev: CaptureEvent, now: nat)
    requires Safe(w)
    ensures ev != GrabFailed ==> Reacts(w, w.core.Handle(ev, now).0, w.core.Handle(ev, now).1)
  {
    var (c, q) := w.core.Handle(ev, now);
    match ev
    case Pointer(p) => PointerReacts(w, p, now);
    case Hotkey => HotkeyReacts(w);
    case GrabFailed =>
    case Motion(dx, dy) => MotionReacts(w, dx, dy);
    case ButtonChange(_, _) =>
      if q != [] {
        One(c, w.front, q[0], {});
      }
    case WheelTurn(_, _) =>
      if q != [] {
        One(c, w.front, q[0], {});
      }
    case KeyChange(k) => KeyReacts(w, k);
  }

  /** The world as the queue of a reaction begins to be carried out. */
  function Reacted(w: World, t: Turn): World
    requires w.core.Sound()
  {
    Observe(w, t).(core := React(w.core, t).0)
  }

  lemma ReactedUnderway(w: World, t: Turn)
    requires Safe(w) && Legal(w, t)
    ensures Underway(Reacted(w, t), React(w.core, t).1, {})
  {
    var (c, q) := React(w.core, t);
    var w' := Reacted(w, t);
    ReactKeepsSound(w, t);
    match t
    case FromCapture(ev, now, _) =>
      if ev == GrabFailed {
        if q != [] {
          One(c, w'.front, q[0], {});
        }
      } else {
        CaptureReacts(w, ev, now);
      }
    case FromHub(ev, _) =>
      HubUnderway(w, t);
  }

  lemma HubUnderway(w: World, t: Turn)
    requires Safe(w) && Legal(w, t) && t.FromHub?
    ensures Underway(Reacted(w, t), React(w.core, t).1, {})
  {
    ReactKeepsSound(w, t);
    if t.hub.Disconnected? {
      var (c, q) := React(w.core, t);
      LosingKeepsQuiet(w, t.hub.name);
      CentreForgetsMode(w.core, t.hub.name);
      if q != [] {
        LocalCenterIsReal(c);
        One(c, Reacted(w, t).front, q[0], {});
      }
    }
  }

  /** A turn leaves the world safe, whatever comes and whichever sends fail. */
  lemma TurnIsSafe(w: World, t: Turn)
    requires Safe(w) && Legal(w, t)
    ensures Safe(Take(w, t))
  {
    ReactKeepsSound(w, t);
    ReactedUnderway(w, t);
    DrainSafe(Reacted(w, t), React(w.core, t).1, t.life, 0, {});
  }
}
