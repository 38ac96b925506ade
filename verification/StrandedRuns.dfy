/** Runs in which a key stays down on a client with no key down at all, from a start in which nothing is
    connected (`run_shared` in `geserdesk-server/src/router.rs`, `hub.rs`): the active screen comes back
    before the router has taken in its loss, or it is only turned off, or input queued for a lost screen
    reaches it after it came back. */
module StrandedRuns {
  import opened Wrappers
  import opened Geometry
  import opened Names
  import opened Placement
  import opened Switching
  import opened Input
  import opened Router
  import opened RouterRuns
  import opened RouterKeys
  import opened Hubs
  import opened Sessions

  /** The input is on `x`, whose session is there and has nothing pressed; no key is down. */
  predicate Facing(s: Net, x: Name) {
    && WellKept(s) && s.queue == [] && Holder(s.world.core) == Some(x) && s.Here(x)
    && s.world.core.fired == map[] && s.world.phys == {}
  }

  /** And the router has taken in all there is. */
  predicate AtScreen(s: Net, x: Name) {
    Facing(s, x) && s.taken == |s.hub.log| && x !in s.hub.disabled
  }

  lemma NoneBefore(more: seq<Move>)
    ensures [] + more == more
  {
  }

  lemma FirstOf(moves: seq<Move>, more: seq<Move>)
    requires moves != []
    ensures (moves + more)[0] == moves[0] && (moves + more)[1..] == moves[1..] + more
  {
  }

  lemma {:induction false} RunsOn(s: Net, moves: seq<Move>, more: seq<Move>)
    requires WellKept(s) && Runs(s, moves) && WellKept(PlayNet(s, moves)) && Runs(PlayNet(s, moves), more)
    ensures Runs(s, moves + more) && PlayNet(s, moves + more) == PlayNet(PlayNet(s, moves), more)
    decreases |moves|
  {
    if moves == [] {
      NoneBefore(more);
    } else {
      NextIsKept(s, moves[0]);
      FirstOf(moves, more);
      RunsOn(NetNext(s, moves[0]), moves[1..], more);
    }
  }

  lemma Step(s: Net, m: Move)
    requires WellKept(s) && Possible(s, m)
    ensures Runs(s, [m]) && PlayNet(s, [m]) == NetNext(s, m) && WellKept(NetNext(s, m))
  {
    NextIsKept(s, m);
    assert [m][1..] == [];
  }

  function KeyMove(k: KeyEvent, action: KeyAction): Move {
    Sees(KeyChange(k.(action := action)), 0)
  }

  /** No rule is for the press of this key. */
  predicate Unruled(s: Net, k: KeyEvent) {
    forall rule | rule in s.world.core.rules :: !rule.Matches(k.hid, k.mods)
  }

  /** Nothing about the hub but outboxes. */
  predicate SameHub(a: Net, b: Net) {
    a.taken == b.taken && a.hub.log == b.hub.log && a.hub.disabled == b.hub.disabled && a.hub.clients.Keys == b.hub.clients.Keys
  }

  /** What a key press on the screen makes of the world, carried out. */
  lemma PressEffect(s: Net, x: Name, k: KeyEvent, os: OsKey)
    requires Facing(s, x) && Unruled(s, k)
    requires s.world.SinkOf(x) == RELEASED && s.world.setups(x).PressOf(k) == Hold(os) && k.action == Down
    ensures Possible(s, Sees(KeyChange(k), 0))
    ensures var s1 := NetNext(s, Sees(KeyChange(k), 0));
      && s1.queue == [Send(x, Key(k))] && s1.hub == s.hub && s1.taken == s.taken && s1.world.core == s.world.core
      && s1.world.phys == {k.hid} && s1.world.sinks == s.world.sinks && s1.world.setups == s.world.setups
  {
    assert s.world.core.MatchingRule(k, s.world.core.rules).None?;
  }

  lemma CarriedPress(s: Net, x: Name, k: KeyEvent, os: OsKey)
    requires s.world.core.Sound() && s.queue == [Send(x, Key(k))] && s.Here(x)
    requires s.world.SinkOf(x) == RELEASED && s.world.setups(x).PressOf(k) == Hold(os) && k.action == Down
    ensures var s1 := NetNext(s, Carries);
      && SameHub(s, s1) && s1.queue == [] && s1.world.core == s.world.core && s1.world.setups == s.world.setups
      && s1.world.phys == s.world.phys && os in s1.world.SinkOf(x).pressed
  {
  }

  /** A key goes down on the screen the input is on. */
  lemma KeyArrives(s: Net, x: Name, k: KeyEvent, os: OsKey)
    requires Facing(s, x) && Unruled(s, k)
    requires s.world.SinkOf(x) == RELEASED && s.world.setups(x).PressOf(k.(action := Down)) == Hold(os)
    ensures var moves := [KeyMove(k, Down), Carries];
      Runs(s, moves) &&
      var s' := PlayNet(s, moves);
      && WellKept(s') && SameHub(s, s') && s'.queue == [] && s'.world.core == s.world.core && s'.world.setups == s.world.setups
      && s'.world.phys == {k.hid} && os in s'.world.SinkOf(x).pressed
  {
    PressEffect(s, x, k.(action := Down), os);
    var s1 := NetNext(s, KeyMove(k, Down));
    CarriedPress(s1, x, k.(action := Down), os);
    TwoSteps(s, KeyMove(k, Down), Carries);
  }

  lemma TwoSteps(s: Net, a: Move, b: Move)
    requires WellKept(s) && Possible(s, a) && Possible(NetNext(s, a), b)
    ensures Runs(s, [a, b]) && NetNext(s, a).world.core.Sound() && PlayNet(s, [a, b]) == NetNext(NetNext(s, a), b)
    ensures WellKept(PlayNet(s, [a, b]))
  {
    Step(s, a);
    Step(NetNext(s, a), b);
    RunsOn(s, [a], [b]);
    assert [a] + [b] == [a, b];
  }

  lemma ThreeSteps(s: Net, a: Move, b: Move, c: Move)
    requires WellKept(s) && Possible(s, a) && Possible(NetNext(s, a), b) && NetNext(s, a).world.core.Sound()
    requires Possible(NetNext(NetNext(s, a), b), c)
    ensures Runs(s, [a, b, c]) && NetNext(NetNext(s, a), b).world.core.Sound()
    ensures PlayNet(s, [a, b, c]) == NetNext(NetNext(NetNext(s, a), b), c) && WellKept(PlayNet(s, [a, b, c]))
  {
    TwoSteps(s, a, b);
    Step(NetNext(NetNext(s, a), b), c);
    RunsOn(s, [a, b], [c]);
    assert [a, b] + [c] == [a, b, c];
  }

  lemma LossEffect(s: Net, x: Name)
    requires WellKept(s) && s.queue == [] && Holder(s.world.core) == Some(x)
    requires s.taken < |s.hub.log| && s.hub.log[s.taken] == Disconnected(x)
    ensures var s1 := NetNext(s, TakesEvent);
      && s1.world.core.mode.Local? && |s1.queue| == 1 && s1.queue[0].Capture? && s1.queue[0].cmd.Ungrab?
      && s1.hub == s.hub && s1.world == s.world.(core := s1.world.core) && s1.world.core.fired == s.world.core.fired
  {
    CentreForgetsMode(s.world.core, x);
  }

  lemma UpAtHome(s: Net, k: KeyEvent)
    requires s.world.core.Sound() && s.queue == [] && s.world.core.mode.Local? && s.world.core.fired == map[]
    ensures Possible(s, KeyMove(k, Up))
    ensures var s1 := NetNext(s, KeyMove(k, Up));
      s1.queue == [] && s1.hub == s.hub && s1.world == s.world.(phys := s.world.phys - {k.hid})
  {
    OnKeySendsKeys(s.world.core, k.(action := Up));
  }

  lemma UngrabEffect(s: Net)
    requires s.world.core.Sound() && |s.queue| == 1 && s.queue[0].Capture? && s.queue[0].cmd.Ungrab?
    ensures var s1 := NetNext(s, Carries);
      && s1.queue == [] && s1.hub == s.hub && s1.world.core == s.world.core && s1.world.phys == s.world.phys
      && s1.world.sinks == s.world.sinks
  {
  }

  /** The loss of the screen is taken in while its session is there: the input comes home, the
      key's release, already on its way, goes nowhere, and the key stays down. */
  lemma LossStrands(s: Net, x: Name, k: KeyEvent, os: OsKey)
    requires WellKept(s) && s.queue == [] && Holder(s.world.core) == Some(x) && s.Here(x) && s.world.core.fired == map[]
    requires s.taken < |s.hub.log| && s.hub.log[s.taken] == Disconnected(x)
    requires s.world.phys == {k.hid} && os in s.world.SinkOf(x).pressed
    ensures Strands(s, TakesEvent)
    ensures var moves := [TakesEvent, Carries, KeyMove(k, Up)];
      Runs(s, moves) && Stuck(PlayNet(s, moves), x, os)
  {
    assert s.world.sinks[x] != RELEASED;
    LossEffect(s, x);
    var s1 := NetNext(s, TakesEvent);
    TakenIsKept(s);
    UngrabEffect(s1);
    var s2 := NetNext(s1, Carries);
    UpAtHome(s2, k);
    ThreeSteps(s, TakesEvent, Carries, KeyMove(k, Up));
  }

  /** The reaction is through, the input is at home, no key is down, and a key is pressed on `x`. */
  predicate Stuck(s: Net, x: Name, os: OsKey) {
    && s.queue == [] && s.world.core.mode.Local? && s.world.phys == {} && s.world.core.fired == map[]
    && s.Here(x) && os in s.world.SinkOf(x).pressed
  }

  /** With the loss of `x` waiting to be taken in, one key press is enough. */
  lemma PressedThenLost(s: Net, moves: seq<Move>, x: Name, k: KeyEvent, os: OsKey)
    requires WellKept(s) && Runs(s, moves) && Facing(PlayNet(s, moves), x)
    requires var s1 := PlayNet(s, moves);
      && s1.world.SinkOf(x) == RELEASED && s1.world.setups(x).PressOf(k.(action := Down)) == Hold(os) && Unruled(s1, k)
      && s1.taken < |s1.hub.log| && s1.hub.log[s1.taken] == Disconnected(x)
    ensures var all := moves + [KeyMove(k, Down), Carries] + [TakesEvent, Carries, KeyMove(k, Up)];
      Runs(s, all) && Stuck(PlayNet(s, all), x, os)
  {
    var s1 := PlayNet(s, moves);
    KeyArrives(s1, x, k, os);
    RunsOn(s, moves, [KeyMove(k, Down), Carries]);
    LossStrands(PlayNet(s1, [KeyMove(k, Down), Carries]), x, k, os);
    RunsOn(s, moves + [KeyMove(k, Down), Carries], [TakesEvent, Carries, KeyMove(k, Up)]);
  }

  lemma ComesBack(s: Net, x: Name, monitors: seq<Rect>)
    requires s.Here(x) && x !in s.hub.disabled
    ensures var s1 := Operated(Operated(s, HubOp.Unregister(x)), HubOp.Register(x, monitors));
      && s1.hub.log == s.hub.log + [Disconnected(x), Connected(x, monitors)] && s1.Here(x)
      && s1.world.SinkOf(x) == RELEASED && s1.world.setups == s.world.setups
      && s1 == s.(hub := s1.hub, world := s1.world, entered := s1.entered, gone := s1.gone)
      && s1.world == s.world.(front := s1.world.front, sinks := s1.world.sinks)
  {
  }

  /** The active screen goes and comes back before the router has taken in that it went. */
  lemma ReturnedScreenIsStuck(s: Net, x: Name, monitors: seq<Rect>, k: KeyEvent, os: OsKey)
    requires AtScreen(s, x) && Unruled(s, k) && AllProper(monitors) && s.world.setups(x).PressOf(k.(action := Down)) == Hold(os)
    ensures var moves := [HubDoes(HubOp.Unregister(x)), HubDoes(HubOp.Register(x, monitors))]
                         + [KeyMove(k, Down), Carries] + [TakesEvent, Carries, KeyMove(k, Up)];
      Runs(s, moves) && Stuck(PlayNet(s, moves), x, os)
  {
    var off, on := HubDoes(HubOp.Unregister(x)), HubDoes(HubOp.Register(x, monitors));
    TwoSteps(s, off, on);
    ComesBack(s, x, monitors);
    PressedThenLost(s, [off, on], x, k, os);
  }

  /** The active screen is turned off with a key down. */
  lemma TurnedOffScreenIsStuck(s: Net, x: Name, k: KeyEvent, os: OsKey)
    requires AtScreen(s, x) && Unruled(s, k)
    requires s.world.SinkOf(x) == RELEASED && s.world.setups(x).PressOf(k.(action := Down)) == Hold(os)
    ensures var moves := [KeyMove(k, Down), Carries] + [HubDoes(HubOp.SetDisabled(x, true))] + [TakesEvent, Carries, KeyMove(k, Up)];
      Runs(s, moves) && Stuck(PlayNet(s, moves), x, os)
  {
    var off := HubDoes(HubOp.SetDisabled(x, true));
    KeyArrives(s, x, k, os);
    Step(PlayNet(s, [KeyMove(k, Down), Carries]), off);
    RunsOn(s, [KeyMove(k, Down), Carries], [off]);
    var s2 := PlayNet(s, [KeyMove(k, Down), Carries] + [off]);
    LossStrands(s2, x, k, os);
    RunsOn(s, [KeyMove(k, Down), Carries] + [off], [TakesEvent, Carries, KeyMove(k, Up)]);
  }

  // ---- from the start ------------------------------------------------------------------------------

  lemma OnlyOneToGoTo(c: CoreState, x: Name, monitors: seq<Rect>)
    requires c.connected == map[x := monitors] && monitors != []
    ensures c.HotkeyTarget() == Some(x)
  {
    assert c.connected.Keys == {x};
    SortedOne(x);
    var middle := if c.localMonitors == [] then Point(0, 0) else UnionAll(c.localMonitors).value.Center();
    var from := c.FrameOf(c.local).ToDesk(middle);
    assert [x][..0] == [] && c.Nearest([], from) == None;
    assert c.FarFrom(x, from).Some?;
  }

  /** The input is at home, and the hotkey would take it to `x`. */
  predicate AtHome(s: Net, x: Name) {
    && WellKept(s) && s.queue == [] && s.world.core.mode.Local? && s.world.core.HotkeyTarget() == Some(x) && s.Here(x)
    && s.world.core.fired == map[] && s.world.SinkOf(x) == RELEASED
  }

  lemma FirstComes(core: CoreState, setups: Name -> Setup, x: Name, monitors: seq<Rect>)
    requires WellKept(FirstNet(core, setups)) && core.mode.Local? && core.connected == map[] && core.fired == map[]
    requires AllProper(monitors) && monitors != []
    ensures var s, moves := FirstNet(core, setups), [HubDoes(HubOp.Register(x, monitors)), TakesEvent];
      Runs(s, moves) &&
      var s' := PlayNet(s, moves);
      AtHome(s', x) && s'.taken == |s'.hub.log| && x !in s'.hub.disabled && s'.world.setups == setups
      && s'.world.core.rules == core.rules
  {
    var s, on := FirstNet(core, setups), HubDoes(HubOp.Register(x, monitors));
    assert s.hub.log + [Connected(x, monitors)] == [Connected(x, monitors)];
    TwoSteps(s, on, TakesEvent);
    var s2 := PlayNet(s, [on, TakesEvent]);
    assert s2.world.core.connected == map[x := monitors];
    OnlyOneToGoTo(s2.world.core, x, monitors);
  }

  /** From home, with nothing down, over to a screen that is there. */
  lemma GoesThere(s: Net, x: Name)
    requires AtHome(s, x)
    ensures var moves := [Sees(Hotkey, 0), Carries, Carries];
      Runs(s, moves) &&
      var s' := PlayNet(s, moves);
      Facing(s', x) && SameHub(s, s') && s'.world.sinks == s.world.sinks && s'.world.setups == s.world.setups
      && s'.world.core.rules == s.world.core.rules
  {
    HotkeyEnters(s, x);
    SeenIsKept(s, Hotkey, 0);
    var s1 := NetNext(s, Sees(Hotkey, 0));
    GrabThenEnter(s1, x);
    CarriedIsKept(s1);
    ThreeSteps(s, Sees(Hotkey, 0), Carries, Carries);
  }

  lemma HotkeyEnters(s: Net, x: Name)
    requires s.world.core.Sound() && s.queue == [] && s.world.core.mode.Local? && s.world.core.HotkeyTarget() == Some(x)
    ensures var s' := NetNext(s, Sees(Hotkey, 0));
      && Holder(s'.world.core) == Some(x) && s'.world == s.world.(core := s'.world.core) && s'.hub == s.hub && s'.taken == s.taken
      && s'.world.core.fired == s.world.core.fired && s'.world.core.rules == s.world.core.rules
      && s'.queue == [Capture(Grab), Send(x, Enter(s'.world.core.mode.pos, s'.world.core.number))]
  {
  }

  lemma GrabThenEnter(s: Net, x: Name)
    requires s.world.core.Sound() && |s.queue| == 2 && s.queue[0] == Capture(Grab) && s.Here(x)
    requires s.queue[1].Send? && s.queue[1].to == x && s.queue[1].msg.Enter?
    ensures NetNext(s, Carries).queue == s.queue[1..] && NetNext(s, Carries).world.core == s.world.core
    ensures var s' := NetNext(NetNext(s, Carries), Carries);
      && s'.queue == [] && s'.world.core == s.world.core && s'.world.phys == {} && s'.world.sinks == s.world.sinks
      && s'.world.setups == s.world.setups && SameHub(s, s')
  {
  }

  /** The same with a screen the input is not on: it comes back while the router still has the old
      session's loss to take in, and the input goes to it before that. */
  lemma EarlyGuestIsStuck(s: Net, x: Name, monitors: seq<Rect>, k: KeyEvent, os: OsKey)
    requires AtHome(s, x) && Unruled(s, k) && s.taken == |s.hub.log| && x !in s.hub.disabled
    requires AllProper(monitors) && s.world.setups(x).PressOf(k.(action := Down)) == Hold(os)
    ensures var moves := [HubDoes(HubOp.Unregister(x)), HubDoes(HubOp.Register(x, monitors))]
                         + [Sees(Hotkey, 0), Carries, Carries] + [KeyMove(k, Down), Carries] + [TakesEvent, Carries, KeyMove(k, Up)];
      Runs(s, moves) && Stuck(PlayNet(s, moves), x, os)
  {
    var off, on := HubDoes(HubOp.Unregister(x)), HubDoes(HubOp.Register(x, monitors));
    TwoSteps(s, off, on);
    ComesBack(s, x, monitors);
    var s1 := PlayNet(s, [off, on]);
    GoesThere(s1, x);
    RunsOn(s, [off, on], [Sees(Hotkey, 0), Carries, Carries]);
    PressedThenLost(s, [off, on] + [Sees(Hotkey, 0), Carries, Carries], x, k, os);
  }

  /** A run from `s` that leaves a session behind and ends with a key stuck. */
  ghost predicate EndsStuck(s: Net, moves: seq<Move>, x: Name, os: OsKey) {
    WellKept(s) && Runs(s, moves) && !NoneStranded(s, moves) && Stuck(PlayNet(s, moves), x, os)
  }

  lemma StuckFrom(s: Net, before: seq<Move>, moves: seq<Move>, x: Name, os: OsKey)
    requires WellKept(s) && Attended(s) && KeysRight(s) && Runs(s, before) && WellKept(PlayNet(s, before))
    requires Runs(PlayNet(s, before), moves) && Stuck(PlayNet(PlayNet(s, before), moves), x, os)
    ensures EndsStuck(s, before + moves, x, os)
  {
    RunsOn(s, before, moves);
    if NoneStranded(s, before + moves) {
      NothingDownNothingPressed(s, before + moves, x);
      assert false;
    }
  }

  lemma FromHome(s: Net, joins: seq<Move>, x: Name, monitors: seq<Rect>, k: KeyEvent, os: OsKey) returns (early: seq<Move>)
    requires WellKept(s) && Attended(s) && KeysRight(s) && Runs(s, joins)
    requires var s1 := PlayNet(s, joins);
      AtHome(s1, x) && s1.taken == |s1.hub.log| && x !in s1.hub.disabled && Unruled(s1, k) && s1.world.setups(x).PressOf(k.(action := Down)) == Hold(os)
    requires AllProper(monitors)
    ensures EndsStuck(s, early, x, os)
  {
    var moves := [HubDoes(HubOp.Unregister(x)), HubDoes(HubOp.Register(x, monitors))]
                 + [Sees(Hotkey, 0), Carries, Carries] + [KeyMove(k, Down), Carries] + [TakesEvent, Carries, KeyMove(k, Up)];
    EarlyGuestIsStuck(PlayNet(s, joins), x, monitors, k, os);
    StuckFrom(s, joins, moves, x, os);
    early := joins + moves;
  }

  lemma FromScreen(s: Net, goes: seq<Move>, x: Name, monitors: seq<Rect>, k: KeyEvent, os: OsKey)
    returns (returned: seq<Move>, turnedOff: seq<Move>)
    requires WellKept(s) && Attended(s) && KeysRight(s) && Runs(s, goes)
    requires var s2 := PlayNet(s, goes);
      AtScreen(s2, x) && Unruled(s2, k) && s2.world.SinkOf(x) == RELEASED && s2.world.setups(x).PressOf(k.(action := Down)) == Hold(os)
    requires AllProper(monitors)
    ensures EndsStuck(s, returned, x, os) && EndsStuck(s, turnedOff, x, os)
  {
    var s2, press, lost := PlayNet(s, goes), [KeyMove(k, Down), Carries], [TakesEvent, Carries, KeyMove(k, Up)];
    returned := [HubDoes(HubOp.Unregister(x)), HubDoes(HubOp.Register(x, monitors))] + press + lost;
    turnedOff := press + [HubDoes(HubOp.SetDisabled(x, true))] + lost;
    ReturnedScreenIsStuck(s2, x, monitors, k, os);
    StuckFrom(s, goes, returned, x, os);
    TurnedOffScreenIsStuck(s2, x, k, os);
    StuckFrom(s, goes, turnedOff, x, os);
    returned, turnedOff := goes + returned, goes + turnedOff;
  }

  // ---- input that was queued for a lost screen ------------------------------------------------------

  /** So many actions carried out. */
  function CarryAll(n: nat): seq<Move> {
    if n == 0 then [] else [Carries] + CarryAll(n - 1)
  }

  /** The input is at home, and this is still queued; `x` has come back meanwhile. */
  predicate Guest(s: Net, x: Name, q: seq<Action>) {
    WellKept(s) && s.queue == q && s.world.core.mode.Local? && s.Here(x) && s.world.SinkOf(x) == RELEASED
  }

  /** Nothing but outboxes and what the outside saw. */
  ghost predicate SameInside(a: Net, b: Net) {
    SameHub(a, b) && a.world.core == b.world.core && a.world.phys == b.world.phys && a.world.setups == b.world.setups
  }

  predicate Release(a: Action, x: Name) {
    a.Send? && a.to == x && a.msg.Key? && a.msg.key.action == Up
  }

  lemma ReleaseDelivered(s: Net, x: Name, a: Action, more: seq<Action>)
    requires Guest(s, x, [a] + more) && Release(a, x)
    ensures Possible(s, Carries) && Guest(NetNext(s, Carries), x, more) && SameInside(s, NetNext(s, Carries))
  {
    assert ([a] + more)[1..] == more;
    CarriedIsKept(s);
  }

  /** Releases of keys that are not held change nothing there. */
  lemma {:induction false} ReleasesDelivered(s: Net, x: Name, ups: seq<Action>, more: seq<Action>) returns (s': Net)
    requires Guest(s, x, ups + more) && forall a | a in ups :: Release(a, x)
    ensures Runs(s, CarryAll(|ups|)) && s' == PlayNet(s, CarryAll(|ups|)) && Guest(s', x, more) && SameInside(s, s')
    decreases |ups|
  {
    if ups == [] {
      assert ups + more == more;
      s' := s;
    } else {
      assert ups + more == [ups[0]] + (ups[1..] + more) && ups[0] in ups;
      assert forall a | a in ups[1..] :: a in ups;
      ReleaseDelivered(s, x, ups[0], ups[1..] + more);
      var s1 := NetNext(s, Carries);
      s' := ReleasesDelivered(s1, x, ups[1..], more);
      assert ([Carries] + CarryAll(|ups| - 1))[1..] == CarryAll(|ups| - 1);
    }
  }

  /** The action's press reaches the session that came meanwhile, and the input is at home. */
  lemma ActionDelivered(s: Net, x: Name, down: KeyEvent, ungrab: Action, os: OsKey)
    requires Guest(s, x, [Send(x, Key(down)), ungrab]) && down.action == Down && ungrab.Capture? && ungrab.cmd.Ungrab?
    requires s.world.setups(x).PressOf(down) == Hold(os)
    ensures Runs(s, [Carries, Carries])
    ensures var s' := PlayNet(s, [Carries, Carries]);
      && WellKept(s') && s'.queue == [] && SameInside(s, s') && s'.Here(x) && os in s'.world.SinkOf(x).pressed
  {
    CarriedIsKept(s);
    var s1 := NetNext(s, Carries);
    assert s1.queue == [ungrab];
    UngrabEffect(s1);
    TwoSteps(s, Carries, Carries);
  }

  /** The press of `k` fires the rule, and some modifier is to be let go first. */
  predicate FiresLettingGo(s: Net, k: KeyEvent, rule: Rule) {
    Fires(s.world.core, k, rule) && s.world.core.LetGo(rule.mods, MODIFIER_KEYS) != []
  }

  /** A rule fires on the screen, whose session is gone: the first release fails and brings the input
      home, and the rest of the reaction stays queued. */
  lemma FiredAtTheGone(s: Net, x: Name, k: KeyEvent, rule: Rule) returns (ups: seq<Action>, ungrab: Action)
    requires WellKept(s) && s.queue == [] && Holder(s.world.core) == Some(x) && !s.Here(x) && s.world.phys == {}
    requires FiresLettingGo(s, k, rule) && s.world.core.fired == map[]
    ensures Runs(s, [Sees(KeyChange(k), 0), Carries])
    ensures forall a | a in ups :: Release(a, x)
    ensures ungrab.Capture? && ungrab.cmd.Ungrab?
    ensures var s' := PlayNet(s, [Sees(KeyChange(k), 0), Carries]);
      && WellKept(s') && s'.queue == ups + [Send(x, AsAction(rule.action, Down)), ungrab] && s'.world.core.mode.Local?
      && s'.hub == s.hub && s'.world.SinkOf(x) == RELEASED && s'.world.setups == s.world.setups
      && s'.world.phys == {k.hid} && s'.world.core.fired == map[k.hid := rule.action]
  {
    var all, last := s.world.core.LetGo(rule.mods, MODIFIER_KEYS), Send(x, AsAction(rule.action, Down));
    ups := ReleasedFirst(s.world.core, rule.mods, x);
    FiredQueue(s, x, k, rule, all, last);
    var s1 := NetNext(s, Sees(KeyChange(k), 0));
    SeenIsKept(s, KeyChange(k), 0);
    ungrab := FirstFails(s1, x, all[0], ups + [last]);
    TwoSteps(s, Sees(KeyChange(k), 0), Carries);
    LastTwo(ups, last, ungrab);
  }

  lemma LastTwo(ups: seq<Action>, a: Action, b: Action)
    ensures ups + [a] + [b] == ups + [a, b]
  {
  }

  lemma ReleasedFirst(c: CoreState, mods: set<Mod>, x: Name) returns (ups: seq<Action>)
    requires Holder(c) == Some(x) && c.LetGo(mods, MODIFIER_KEYS) != []
    ensures ups == c.LetGo(mods, MODIFIER_KEYS)[1..] && forall a | a in ups :: Release(a, x)
    ensures Release(c.LetGo(mods, MODIFIER_KEYS)[0], x)
  {
    var all := c.LetGo(mods, MODIFIER_KEYS);
    LetGoAreKeys(c, mods, MODIFIER_KEYS);
    ups := all[1..];
    assert all[0] in all && forall a | a in ups :: a in all;
  }

  lemma FiredQueue(s: Net, x: Name, k: KeyEvent, rule: Rule, all: seq<Action>, last: Action)
    requires s.world.core.Sound() && s.queue == [] && Holder(s.world.core) == Some(x) && s.world.phys == {}
    requires Fires(s.world.core, k, rule) && s.world.core.fired == map[]
    requires all == s.world.core.LetGo(rule.mods, MODIFIER_KEYS) && all != [] && last == Send(x, AsAction(rule.action, Down))
    ensures Possible(s, Sees(KeyChange(k), 0))
    ensures var s1 := NetNext(s, Sees(KeyChange(k), 0));
      && s1.queue == [all[0]] + (all[1..] + [last]) && s1.hub == s.hub && s1.world.sinks == s.world.sinks
      && s1.world.setups == s.world.setups && s1.world.phys == {k.hid} && Holder(s1.world.core) == Some(x)
      && s1.world.core.fired == map[k.hid := rule.action]
  {
    assert all + [last] == [all[0]] + (all[1..] + [last]);
  }

  lemma FirstFails(s: Net, x: Name, a: Action, rest: seq<Action>) returns (ungrab: Action)
    requires WellKept(s) && s.queue == [a] + rest && a.Send? && a.to == x && !s.Here(x) && Holder(s.world.core) == Some(x)
    ensures ungrab.Capture? && ungrab.cmd.Ungrab? && Possible(s, Carries)
    ensures var s1 := NetNext(s, Carries);
      && WellKept(s1) && s1.queue == rest + [ungrab] && s1.hub == s.hub && s1.world.core.mode.Local?
      && s1.world.SinkOf(x) == RELEASED && s1.world.setups == s.world.setups && s1.world.phys == s.world.phys
      && s1.world.core.fired == s.world.core.fired
  {
    assert ([a] + rest)[1..] == rest;
    CarriedIsKept(s);
    CentreForgetsMode(s.world.core, x);
    ungrab := Fail(s.world, x).1[0];
    assert Fail(s.world, x).1 == [ungrab];
  }

  /** The screen goes, the rule fires, the first release fails, the screen comes back, and the rest, with
      `n` releases more, is carried out. */
  function Queued(x: Name, monitors: seq<Rect>, k: KeyEvent, n: nat): seq<Move> {
    [HubDoes(HubOp.Unregister(x))] + [Sees(KeyChange(k), 0), Carries] + [HubDoes(HubOp.Register(x, monitors))]
    + CarryAll(n) + [Carries, Carries] + [KeyMove(k, Up)]
  }

  lemma {:induction false} OnlyCarries(n: nat)
    ensures forall m | m in CarryAll(n) :: m == Carries
  {
    if n > 0 {
      OnlyCarries(n - 1);
    }
  }

  /** The router takes in no event of the hub's in it. */
  lemma QueuedTakesNone(x: Name, monitors: seq<Rect>, k: KeyEvent, n: nat)
    ensures TakesEvent !in Queued(x, monitors, k, n)
  {
    OnlyCarries(n);
  }

  /** A key fires a rule while the session of the active screen is gone; the screen comes back before the
      rest of the reaction is carried out, and the action stays pressed on it. */
  lemma QueuedInputIsStuck(s: Net, x: Name, monitors: seq<Rect>, k: KeyEvent, rule: Rule, os: OsKey) returns (n: nat)
    requires AtScreen(s, x) && AllProper(monitors) && FiresLettingGo(s, k, rule)
    requires s.world.setups(x).PressOf(AsAction(rule.action, Down).key) == Hold(os)
    ensures Runs(s, Queued(x, monitors, k, n)) && Stuck(PlayNet(s, Queued(x, monitors, k, n)), x, os)
  {
    var off, on := HubDoes(HubOp.Unregister(x)), HubDoes(HubOp.Register(x, monitors));
    Step(s, off);
    var s1 := PlayNet(s, [off]);
    var ups, ungrab := FiredAtTheGone(s1, x, k, rule);
    n := |ups|;
    RunsOn(s, [off], [Sees(KeyChange(k), 0), Carries]);
    var s2 := PlayNet(s1, [Sees(KeyChange(k), 0), Carries]);
    Step(s2, on);
    RunsOn(s, [off] + [Sees(KeyChange(k), 0), Carries], [on]);
    TheRestIsDelivered(s, [off] + [Sees(KeyChange(k), 0), Carries] + [on], x, k, rule, ups, ungrab, os);
  }

  lemma TheRestIsDelivered(s: Net, before: seq<Move>, x: Name, k: KeyEvent, rule: Rule, ups: seq<Action>, ungrab: Action, os: OsKey)
    requires WellKept(s) && Runs(s, before) && forall a | a in ups :: Release(a, x)
    requires ungrab.Capture? && ungrab.cmd.Ungrab?
    requires var s3 := PlayNet(s, before);
      && Guest(s3, x, ups + [Send(x, AsAction(rule.action, Down)), ungrab])
      && s3.world.setups(x).PressOf(AsAction(rule.action, Down).key) == Hold(os)
      && s3.world.phys == {k.hid} && s3.world.core.fired == map[k.hid := rule.action]
    ensures var moves := before + CarryAll(|ups|) + [Carries, Carries] + [KeyMove(k, Up)];
      Runs(s, moves) && Stuck(PlayNet(s, moves), x, os)
  {
    var s3 := PlayNet(s, before);
    UpsThenAction(s3, x, ups, AsAction(rule.action, Down).key, ungrab, os);
    RunsOn(s, before, CarryAll(|ups|) + [Carries, Carries]);
    InOrder(before, CarryAll(|ups|), [Carries, Carries]);
    LastIsLetGo(s, before + CarryAll(|ups|) + [Carries, Carries], x, k, os);
  }

  lemma InOrder(a: seq<Move>, b: seq<Move>, c: seq<Move>)
    ensures a + (b + c) == a + b + c
  {
  }

  lemma UpsThenAction(s: Net, x: Name, ups: seq<Action>, down: KeyEvent, ungrab: Action, os: OsKey)
    requires Guest(s, x, ups + [Send(x, Key(down)), ungrab]) && forall a | a in ups :: Release(a, x)
    requires down.action == Down && ungrab.Capture? && ungrab.cmd.Ungrab? && s.world.setups(x).PressOf(down) == Hold(os)
    ensures Runs(s, CarryAll(|ups|) + [Carries, Carries])
    ensures var s' := PlayNet(s, CarryAll(|ups|) + [Carries, Carries]);
      && WellKept(s') && s'.queue == [] && SameInside(s, s') && s'.Here(x) && os in s'.world.SinkOf(x).pressed
  {
    var s4 := ReleasesDelivered(s, x, ups, [Send(x, Key(down)), ungrab]);
    ActionDelivered(s4, x, down, ungrab, os);
    RunsOn(s, CarryAll(|ups|), [Carries, Carries]);
  }

  lemma LastIsLetGo(s: Net, before: seq<Move>, x: Name, k: KeyEvent, os: OsKey)
    requires WellKept(s) && Runs(s, before)
    requires var s5 := PlayNet(s, before);
      && WellKept(s5) && s5.queue == [] && s5.world.core.mode.Local? && s5.Here(x) && os in s5.world.SinkOf(x).pressed
      && s5.world.phys == {k.hid} && s5.world.core.fired.Keys == {k.hid}
    ensures var moves := before + [KeyMove(k, Up)]; Runs(s, moves) && Stuck(PlayNet(s, moves), x, os)
  {
    var s5 := PlayNet(s, before);
    FiredUpAtHome(s5, k);
    Step(s5, KeyMove(k, Up));
    RunsOn(s, before, [KeyMove(k, Up)]);
  }

  lemma FiredUpAtHome(s: Net, k: KeyEvent)
    requires s.world.core.Sound() && s.queue == [] && s.world.core.mode.Local? && s.world.core.fired.Keys == {k.hid}
    ensures Possible(s, KeyMove(k, Up))
    ensures var s1 := NetNext(s, KeyMove(k, Up));
      && s1.queue == [] && s1.hub == s.hub && s1.world.sinks == s.world.sinks && s1.world.core.mode.Local?
      && s1.world.phys == s.world.phys - {k.hid} && s1.world.core.fired == map[]
  {
  }

  // ---- all of them exist ------------------------------------------------------------------------------

  /** Whatever the configuration, a client `x` and a key it presses and no rule is for: the three runs
      exist from the start of the server. */
  lemma KeysGetStuck(layout: Placement.Layout, policy: SwitchPolicy, local: Name, home: seq<Rect>, positions: map<Name, Point>,
          sizes: map<Name, Size>, rules: seq<Rule>, setups: Name -> Setup, x: Name, monitors: seq<Rect>, k: KeyEvent, os: OsKey)
    returns (returned: seq<Move>, early: seq<Move>, turnedOff: seq<Move>)
    requires AllProper(home) && home != [] && AllProper(monitors) && monitors != []
    requires setups(x).PressOf(k.(action := Down)) == Hold(os) && forall rule | rule in rules :: !rule.Matches(k.hid, k.mods)
    ensures var s := FirstNet(Start(layout, policy, local, home, positions, sizes, rules), setups);
      EndsStuck(s, returned, x, os) && EndsStuck(s, early, x, os) && EndsStuck(s, turnedOff, x, os)
  {
    var core := Start(layout, policy, local, home, positions, sizes, rules);
    var s, joins, goes := FirstNet(core, setups), [HubDoes(HubOp.Register(x, monitors)), TakesEvent], [Sees(Hotkey, 0), Carries, Carries];
    FirstNetIsRight(layout, policy, local, home, positions, sizes, rules, setups);
    FirstComes(core, setups, x, monitors);
    early := FromHome(s, joins, x, monitors, k, os);
    GoesThere(PlayNet(s, joins), x);
    RunsOn(s, joins, goes);
    returned, turnedOff := FromScreen(s, joins + goes, x, monitors, k, os);
  }

  /** The first of the rules for this key press. */
  predicate FirstRule(rules: seq<Rule>, k: KeyEvent, i: nat) {
    i < |rules| && rules[i].Matches(k.hid, k.mods) && forall j | 0 <= j < i :: !rules[j].Matches(k.hid, k.mods)
  }

  lemma {:induction false} FirstRuleMatches(c: CoreState, rules: seq<Rule>, k: KeyEvent, i: nat)
    requires FirstRule(rules, k, i)
    ensures c.MatchingRule(k, rules) == Some(rules[i])
    decreases |rules|
  {
    if i > 0 {
      assert !rules[0].Matches(k.hid, k.mods);
      FirstRuleMatches(c, rules[1..], k, i - 1);
    }
  }

  lemma SomethingLetGo(c: CoreState, mods: set<Mod>, bit: Mod)
    requires c.mode.Remote? && bit in mods && bit in {Shift, Control, Alt, Super, AltGr}
    ensures c.LetGo(mods, MODIFIER_KEYS) != []
  {
    LetGoAreKeys(c, mods, MODIFIER_KEYS);
    var m := if bit == Control then MODIFIER_KEYS[0] else if bit == Alt then MODIFIER_KEYS[1]
             else if bit == Shift then MODIFIER_KEYS[2] else if bit == Super then MODIFIER_KEYS[3] else MODIFIER_KEYS[4];
    assert m in MODIFIER_KEYS && m.bit == bit && m.keys[0] in m.keys;
    assert Send(c.mode.screen, AsAction(m.keys[0], Up)) in c.LetGo(mods, MODIFIER_KEYS);
  }

  /** Whatever the configuration with a rule that needs a modifier, and a client `x` that presses a key for
      its action: the run exists from the start of the server in which queued input reaches the session
      that came meanwhile, and the loss is not even taken in. */
  lemma ActionsGetStuck(layout: Placement.Layout, policy: SwitchPolicy, local: Name, home: seq<Rect>, positions: map<Name, Point>,
          sizes: map<Name, Size>, rules: seq<Rule>, setups: Name -> Setup, x: Name, monitors: seq<Rect>, k: KeyEvent, i: nat, os: OsKey)
    returns (queued: seq<Move>)
    requires AllProper(home) && home != [] && AllProper(monitors) && monitors != []
    requires k.action == Down && FirstRule(rules, k, i) && rules[i].mods != {}
    requires setups(x).PressOf(AsAction(rules[i].action, Down).key) == Hold(os)
    ensures EndsStuck(FirstNet(Start(layout, policy, local, home, positions, sizes, rules), setups), queued, x, os)
  {
    var core := Start(layout, policy, local, home, positions, sizes, rules);
    var s, joins, goes := FirstNet(core, setups), [HubDoes(HubOp.Register(x, monitors)), TakesEvent], [Sees(Hotkey, 0), Carries, Carries];
    FirstNetIsRight(layout, policy, local, home, positions, sizes, rules, setups);
    FirstComes(core, setups, x, monitors);
    GoesThere(PlayNet(s, joins), x);
    RunsOn(s, joins, goes);
    var there := PlayNet(s, joins + goes);
    RuleFires(there, k, rules, i);
    var n := QueuedInputIsStuck(there, x, monitors, k, rules[i], os);
    StuckFrom(s, joins + goes, Queued(x, monitors, k, n), x, os);
    queued := joins + goes + Queued(x, monitors, k, n);
  }

  lemma RuleFires(s: Net, k: KeyEvent, rules: seq<Rule>, i: nat)
    requires s.world.core.mode.Remote? && s.world.core.rules == rules && s.world.core.fired == map[]
    requires k.action == Down && FirstRule(rules, k, i) && rules[i].mods != {}
    ensures FiresLettingGo(s, k, rules[i])
  {
    FirstRuleMatches(s.world.core, rules, k, i);
    var bit :| bit in rules[i].mods;
    SomethingLetGo(s.world.core, rules[i].mods, bit);
  }
}
