/** The router, the hub and the clients' sessions together, step by step: clients come, go and come
    back under the same name at any moment, also between two actions of one reaction, and the router
    learns of it from the event log, late (`run_shared` in `geserdesk-server/src/router.rs`, `Hub` and
    `Registration` in `hub.rs`). What is sent goes by name to whatever session the name has then. */
module Sessions {
  import opened Wrappers
  import opened Geometry
  import opened Names
  import opened Placement
  import opened Switching
  import opened Input
  import opened Router
  import opened RouterRuns
  import opened RouterKeys
  import opened Hubs

  /** `taken` events of the log have been taken in, `queue` is what is left of the reaction to the
      last one. `entered` are the names whose present session was sent input and no Leave since;
      `gone` those that had a session and have none. */
  datatype Net = Net(world: World, hub: HubState, taken: nat, queue: seq<Action>, entered: set<Name>, gone: set<Name>) {
    function Copied(): Copy {
      Copy(hub, taken, world.core.connected)
    }

    /** The name under which a session is registered. */
    predicate Here(n: Name) {
      n in hub.clients
    }
  }

  datatype Move =
    | HubDoes(op: HubOp)
    | Carries
    | TakesEvent
    | Sees(ev: CaptureEvent, now: nat)

  function TurnOf(ev: CaptureEvent, now: nat): Turn {
    FromCapture(ev, now, n => 0)
  }

  /** Monitors come with an area; a session ends once; only the router sends input. The router takes
      in one thing at a time, and the capture backend reports lawfully. */
  predicate Possible(s: Net, m: Move) {
    match m
    case HubDoes(op) => Allowed(s.hub, op) && MayDo(s.hub, op)
    case Carries => s.queue != []
    case TakesEvent => s.queue == [] && s.taken < |s.hub.log|
    case Sees(ev, now) => s.queue == [] && Legal(s.world, TurnOf(ev, now))
  }

  predicate MayDo(h: HubState, op: HubOp) {
    match op
    case Register(_, monitors) => AllProper(monitors)
    case Unregister(name) => name in h.clients
    case SetMonitors(_, monitors) => AllProper(monitors)
    case Announce(ev) => ProperEvent(ev)
    case SendTo(_, _) => false
    case Broadcast(_, _) => false
    case _ => true
  }

  predicate ProperEvent(ev: HubEvent) {
    match ev
    case Connected(_, monitors) => AllProper(monitors)
    case LocalMonitors(monitors) => AllProper(monitors)
    case _ => true
  }

  /** Something of the hub's own: a session may end, and then lets go of everything, or begin. */
  function Operated(s: Net, op: HubOp): Net {
    var hub := Apply(s.hub, op);
    match op
    case Unregister(name) => s.(hub := hub, world := Lose(s.world, name), entered := s.entered - {name}, gone := s.gone + {name})
    case Register(name, _) => s.(hub := hub, gone := s.gone - {name})
    case _ => s.(hub := hub)
  }

  /** The next action carried out: to the present session of the name, or not at all. */
  function Carried(s: Net): Net
    requires s.world.core.Sound() && s.queue != []
  {
    var a, rest := s.queue[0], s.queue[1..];
    if a.Capture? then s.(world := Do(s.world, a), queue := rest)
    else if s.Here(a.to) then
      s.(world := Do(s.world, a), queue := rest, hub := Apply(s.hub, SendTo(a.to, a.msg)),
         entered := if a.msg.Leave? then s.entered - {a.to} else s.entered + {a.to})
    else
      var (w, actions) := Fail(s.world, a.to);
      s.(world := w, queue := rest + actions)
  }

  function NetNext(s: Net, m: Move): Net
    requires s.world.core.Sound() && Possible(s, m)
  {
    match m
    case HubDoes(op) => Operated(s, op)
    case Carries => Carried(s)
    case TakesEvent =>
      var (c, actions) := s.world.core.OnHub(s.hub.log[s.taken]);
      s.(world := s.world.(core := c), taken := s.taken + 1, queue := actions)
    case Sees(ev, now) =>
      s.(world := Reacted(s.world, TurnOf(ev, now)), queue := React(s.world.core, TurnOf(ev, now)).1)
  }

  function FirstNet(core: CoreState, setups: Name -> Setup): Net {
    Net(FirstWorld(core, setups), NO_CLIENTS, 0, [], {}, {})
  }

  // ---- what holds always ---------------------------------------------------------------------------

  /** Every name the router may speak of has a session or had one. */
  predicate Known(s: Net) {
    && (forall n | n in s.world.core.connected :: n in s.hub.clients || n in s.gone)
    && (forall i | s.taken <= i < |s.hub.log| && s.hub.log[i].Connected? ::
          s.hub.log[i].name in s.hub.clients || s.hub.log[i].name in s.gone)
    && (forall n | n in s.gone :: n !in s.hub.clients)
  }

  /** Sinks know what they pressed, and only an entered session pressed anything. */
  predicate Pressing(s: Net) {
    && s.entered <= s.hub.clients.Keys
    && forall n | n in s.world.sinks :: Accounted(s.world.sinks[n]) && (s.world.sinks[n] != RELEASED ==> n in s.entered)
  }

  /** Monitors have an area wherever they are kept. */
  predicate HubProper(h: HubState) {
    && (forall i | 0 <= i < |h.log| :: ProperEvent(h.log[i]))
    && forall n | n in h.clients :: AllProper(h.clients[n].monitors)
  }

  predicate WellKept(s: Net) {
    && s.world.core.Sound() && s.world.core.localMonitors != []
    && HubProper(s.hub) && Known(s) && Pressing(s) && CaughtUp(s.Copied())
  }

  lemma OperatedIsProper(h: HubState, op: HubOp)
    requires HubProper(h) && MayDo(h, op)
    ensures HubProper(Apply(h, op))
  {
    var h' := Apply(h, op);
    LogGrows(h, op);
    if h'.log != h.log {
      assert ProperEvent(h'.log[|h.log|]);
    }
  }

  lemma OperatedIsKnown(s: Net, op: HubOp)
    requires Known(s) && Allowed(s.hub, op) && MayDo(s.hub, op) && s.taken <= |s.hub.log|
    ensures Known(Operated(s, op))
  {
    var s' := Operated(s, op);
    LogGrows(s.hub, op);
    if s'.hub.log != s.hub.log {
      var ev := s'.hub.log[|s.hub.log|];
      assert ev.Connected? ==> ev.name in s'.hub.clients;
    }
    forall i | s'.taken <= i < |s'.hub.log| && s'.hub.log[i].Connected?
      ensures s'.hub.log[i].name in s'.hub.clients || s'.hub.log[i].name in s'.gone
    {
      if i < |s.hub.log| {
        assert s'.hub.log[i] == s.hub.log[i];
      }
    }
  }

  lemma OperatedIsKept(s: Net, op: HubOp)
    requires WellKept(s) && Possible(s, HubDoes(op))
    ensures WellKept(Operated(s, op))
  {
    StepKeepsCopy(s.Copied(), Operate(op));
    OperatedIsProper(s.hub, op);
    OperatedIsKnown(s, op);
    OperatedIsPressing(s, op);
    assert Operated(s, op).Copied() == CopyNext(s.Copied(), Operate(op));
  }

  lemma OperatedIsPressing(s: Net, op: HubOp)
    requires Pressing(s) && Allowed(s.hub, op) && MayDo(s.hub, op)
    ensures Pressing(Operated(s, op))
  {
    assert Accounted(RELEASED);
    assert forall n | n in s.hub.clients && !(op.Unregister? && n == op.name) :: n in Apply(s.hub, op).clients;
  }

  lemma DoIsPressing(s: Net, a: Action)
    requires Pressing(s) && s.queue != [] && s.queue[0] == a && (a.Send? ==> s.Here(a.to)) && s.world.core.Sound()
    ensures Pressing(Carried(s))
  {
    assert Accounted(RELEASED);
    if a.Send? && a.msg.Key? {
      SinkKeyAccounted(s.world.SinkOf(a.to), s.world.setups(a.to), a.msg.key);
    }
  }

  lemma CarriedIsKept(s: Net)
    requires WellKept(s) && s.queue != []
    ensures WellKept(Carried(s))
  {
    var a, s' := s.queue[0], Carried(s);
    if a.Capture? || s.Here(a.to) {
      DoIsPressing(s, a);
      assert s'.Copied() == if a.Capture? then s.Copied() else Copy(s'.hub, s.taken, s.world.core.connected);
      if a.Send? {
        SendingShowsNothing(s.hub, a.to, a.msg);
      }
    } else {
      assert Accounted(RELEASED);
      StepKeepsCopy(s.Copied(), SendFails(a.to));
      assert s'.Copied() == CopyNext(s.Copied(), SendFails(a.to));
    }
  }

  lemma SendingShowsNothing(h: HubState, to: Name, msg: ServerMsg)
    requires to in h.clients
    ensures var h' := Apply(h, SendTo(to, msg));
      h'.log == h.log && Visible(h') == Visible(h) && h'.clients.Keys == h.clients.Keys && (HubProper(h) ==> HubProper(h'))
  {
  }

  lemma TakenIsKept(s: Net)
    requires WellKept(s) && Possible(s, TakesEvent)
    ensures WellKept(NetNext(s, TakesEvent))
  {
    var ev, s' := s.hub.log[s.taken], NetNext(s, TakesEvent);
    assert ProperEvent(ev);
    RouterLearns(s.world.core, ev);
    StepKeepsCopy(s.Copied(), TakeEvent);
    assert s'.Copied() == CopyNext(s.Copied(), TakeEvent);
    TakingKeepsSound(s.world.core, ev);
    assert Known(s');
  }

  lemma TakingKeepsSound(c: CoreState, ev: HubEvent)
    requires c.Sound() && ProperEvent(ev) && c.localMonitors != []
    ensures c.OnHub(ev).0.Sound() && c.OnHub(ev).0.localMonitors != []
  {
    match ev
    case LocalMonitors(monitors) => assert c.OnHub(ev).0 == c.SetLocalMonitors(monitors);
    case _ =>
  }

  lemma SeenIsKept(s: Net, ev: CaptureEvent, now: nat)
    requires WellKept(s) && Possible(s, Sees(ev, now))
    ensures WellKept(NetNext(s, Sees(ev, now)))
  {
    var c := s.world.core.Handle(ev, now).0;
    assert c.SameDesk(s.world.core) || s.world.core.SameDesk(c);
    assert NetNext(s, Sees(ev, now)).Copied() == s.Copied();
  }

  lemma NextIsKept(s: Net, m: Move)
    requires WellKept(s) && Possible(s, m)
    ensures WellKept(NetNext(s, m))
  {
    match m
    case HubDoes(op) => OperatedIsKept(s, op);
    case Carries => CarriedIsKept(s);
    case TakesEvent => TakenIsKept(s);
    case Sees(ev, now) => SeenIsKept(s, ev, now);
  }

  // ---- no session is left behind ----------------------------------------------------------------------

  /** Every session that was sent input is where the input is, or its Leave is on the way. */
  predicate Attended(s: Net) {
    forall n | n in s.entered :: Holder(s.world.core) == Some(n) || Send(n, Input.Leave) in s.queue
  }

  /** The two ways to leave one behind. The router takes in the loss of the screen it is on, while a
      session of that name is there and was entered: the screen came back before its loss was taken
      in, or was only turned off. Or input still queued for a screen that was lost on the way reaches
      a session of that name that came meanwhile. */
  predicate Strands(s: Net, m: Move)
    requires Possible(s, m)
  {
    match m
    case TakesEvent =>
      var ev := s.hub.log[s.taken];
      ev.Disconnected? && Holder(s.world.core) == Some(ev.name) && ev.name in s.entered
    case Carries =>
      var a := s.queue[0];
      a.Send? && a.msg != Input.Leave && s.Here(a.to) && Holder(s.world.core) != Some(a.to)
      && Send(a.to, Input.Leave) !in s.queue[1..]
    case _ => false
  }

  /** When a reaction to input takes it off a screen, it says so to the screen. */
  lemma LeavingIsSaid(c: CoreState, ev: CaptureEvent, now: nat)
    requires c.Sound() && c.mode.Remote?
    ensures var (c', q) := c.Handle(ev, now);
      Holder(c') == Some(c.mode.screen) || Send(c.mode.screen, Input.Leave) in q
  {
    var (c', q) := c.Handle(ev, now);
    match ev
    case Motion(dx, dy) =>
      if c.MonitorsOf(c.mode.screen) != [] {
        var moved, beyond := MotionIsMove(c, dx, dy);
        MovingIsSaid(c, moved, beyond);
      }
    case Hotkey => assert q[0] == Send(c.mode.screen, Input.Leave);
    case GrabFailed => assert q[0] == Send(c.mode.screen, Input.Leave);
    case _ =>
  }

  lemma MovingIsSaid(c: CoreState, moved: Point, beyond: Option<(Name, Point)>)
    requires c.Sound() && c.mode.Remote?
    requires beyond.Some? ==> Covered(beyond.value.1, c.MonitorsOf(beyond.value.0))
    ensures var (c', q) := c.MoveTo(moved, beyond);
      Holder(c') == Some(c.mode.screen) || Send(c.mode.screen, Input.Leave) in q
  {
    var (c', q) := c.MoveTo(moved, beyond);
    if Holder(c') != Some(c.mode.screen) {
      assert q[1] == Send(c.mode.screen, Input.Leave);
    }
  }

  lemma CarriedAttends(s: Net)
    requires WellKept(s) && Attended(s) && s.queue != []
    ensures Attended(Carried(s)) <==> !Strands(s, Carries)
  {
    var a, rest, s' := s.queue[0], s.queue[1..], Carried(s);
    assert s.queue == [a] + rest;
    forall n | n in s.entered && a != Send(n, Input.Leave)
      ensures Holder(s'.world.core) == Some(n) || Send(n, Input.Leave) in s'.queue
    {
      assert n in s.hub.clients;
      assert Send(n, Input.Leave) in s.queue ==> Send(n, Input.Leave) in rest;
    }
  }

  lemma TakenAttends(s: Net)
    requires WellKept(s) && Attended(s) && Possible(s, TakesEvent)
    ensures Attended(NetNext(s, TakesEvent)) <==> !Strands(s, TakesEvent)
  {
    var ev, c := s.hub.log[s.taken], s.world.core;
    var (c', q) := c.OnHub(ev);
    match ev
    case LocalMonitors(monitors) => assert c' == c.SetLocalMonitors(monitors) && c'.mode == c.mode;
    case Disconnected(name) =>
      CentreForgetsMode(c, name);
      assert c.mode.Local? || c.mode.screen != name ==> c'.mode == c.mode;
    case _ => assert c'.mode == c.mode && q == [];
  }

  lemma SeenAttends(s: Net, ev: CaptureEvent, now: nat)
    requires WellKept(s) && Attended(s) && Possible(s, Sees(ev, now))
    ensures Attended(NetNext(s, Sees(ev, now)))
  {
    if s.world.core.mode.Remote? {
      LeavingIsSaid(s.world.core, ev, now);
    }
  }

  /** Over every interleaving, a step leaves a session behind exactly when it is one of those two. */
  lemma LeftBehindExactly(s: Net, m: Move)
    requires WellKept(s) && Attended(s) && Possible(s, m)
    ensures Attended(NetNext(s, m)) <==> !Strands(s, m)
  {
    match m
    case HubDoes(op) =>
    case Carries => CarriedAttends(s);
    case TakesEvent => TakenAttends(s);
    case Sees(ev, now) => SeenAttends(s, ev, now);
  }

  // ---- no stuck keys, in any interleaving ----------------------------------------------------------------

  /** The keys nothing accounts for: every key, while a Grab is still to come. */
  ghost function BadKeys(w: World, q: seq<Action>): iset<Hid> {
    if Capture(Grab) in q then EVERY_KEY else Unjustified(w.core.fired, w.phys)
  }

  /** Whatever is held is accounted for by a key still down, or is about to be lifted. */
  ghost predicate KeysRight(s: Net) {
    Lifting(s.world, s.queue, BadKeys(s.world, s.queue))
  }

  lemma EveryKeyIsIn(h: Hid)
    ensures h in EVERY_KEY
  {
    assert IsExtra(h) || !IsExtra(h);
  }

  lemma FewerToLift(w: World, q: seq<Action>, bad: iset<Hid>, fewer: iset<Hid>)
    requires Lifting(w, q, bad) && forall h :: h in fewer ==> h in bad
    ensures Lifting(w, q, fewer)
  {
  }

  lemma LosingLifts(w: World, q: seq<Action>, bad: iset<Hid>, name: Name)
    requires Lifting(w, q, bad)
    ensures Lifting(Lose(w, name), q, bad)
  {
  }

  lemma CarriedKeys(s: Net)
    requires s.world.core.Sound() && KeysRight(s) && s.queue != []
    ensures KeysRight(Carried(s))
  {
    var a, rest, s' := s.queue[0], s.queue[1..], Carried(s);
    var bad := BadKeys(s.world, s.queue);
    assert s.queue == [a] + rest;
    if a.Capture? || s.Here(a.to) {
      DoLifting(s.world, s.queue, bad);
    } else {
      FailLifting(s.world, s.queue, bad);
    }
    forall h | h in BadKeys(s'.world, s'.queue) ensures h in bad {
      EveryKeyIsIn(h);
    }
    FewerToLift(s'.world, s'.queue, bad, BadKeys(s'.world, s'.queue));
  }

  lemma NothingQueuedNothingBad(s: Net)
    requires KeysRight(s) && s.queue == []
    ensures KeysHeld(s.world)
  {
    forall n, h | n in s.world.sinks && h in s.world.sinks[n].heldKeys
      ensures Justified(s.world.core.fired, s.world.phys, h)
    {
      assert !LiftIn([], n, h);
    }
  }

  lemma HeldIsLifting(w: World, q: seq<Action>)
    requires KeysHeld(w) && NoKeys(q) && (Capture(Grab) in q ==> forall n | n in w.sinks :: w.sinks[n] == RELEASED)
    ensures Lifting(w, q, BadKeys(w, q))
  {
  }

  lemma AttendedHolds(s: Net)
    requires Pressing(s) && Attended(s) && s.queue == []
    ensures OnlyHolder(s.world)
  {
  }

  lemma SeenKeys(s: Net, ev: CaptureEvent, now: nat)
    requires WellKept(s) && Attended(s) && KeysRight(s) && Possible(s, Sees(ev, now))
    ensures KeysRight(NetNext(s, Sees(ev, now)))
  {
    var t, s' := TurnOf(ev, now), NetNext(s, Sees(ev, now));
    NothingQueuedNothingBad(s);
    AttendedHolds(s);
    if ev.KeyChange? {
      KeyLifts(s.world, t);
      OnKeySendsKeys(s.world.core, ev.key);
      assert Capture(Grab) !in s'.queue;
    } else {
      if s.world.core.mode.Remote? {
        NoGrabFromRemote(s.world.core, ev, now);
      }
      assert s'.world.sinks == s.world.sinks && s'.world.phys == s.world.phys && s'.world.core.fired == s.world.core.fired;
      HeldIsLifting(s'.world, s'.queue);
    }
  }

  lemma TakenKeys(s: Net)
    requires WellKept(s) && KeysRight(s) && Possible(s, TakesEvent)
    ensures KeysRight(NetNext(s, TakesEvent))
  {
    var ev, s' := s.hub.log[s.taken], NetNext(s, TakesEvent);
    NothingQueuedNothingBad(s);
    HubChangesNoKeys(s.world.core, ev);
    HeldIsLifting(s'.world, s'.queue);
  }

  lemma HubChangesNoKeys(c: CoreState, ev: HubEvent)
    requires c.Sound()
    ensures var (c', q) := c.OnHub(ev); c'.fired == c.fired && NoKeys(q) && Capture(Grab) !in q
  {
    match ev
    case LocalMonitors(monitors) => assert c.OnHub(ev).0 == c.SetLocalMonitors(monitors);
    case _ =>
  }

  lemma NextKeys(s: Net, m: Move)
    requires WellKept(s) && Attended(s) && KeysRight(s) && Possible(s, m)
    ensures KeysRight(NetNext(s, m))
  {
    match m
    case HubDoes(op) =>
      if op.Unregister? {
        LosingLifts(s.world, s.queue, BadKeys(s.world, s.queue), op.name);
      }
    case Carries => CarriedKeys(s);
    case TakesEvent => TakenKeys(s);
    case Sees(ev, now) => SeenKeys(s, ev, now);
  }

  // ---- runs ---------------------------------------------------------------------------------------------------

  ghost predicate Runs(s: Net, moves: seq<Move>)
    requires WellKept(s)
    decreases |moves|
  {
    moves == [] || (Possible(s, moves[0]) && (NextIsKept(s, moves[0]); Runs(NetNext(s, moves[0]), moves[1..])))
  }

  ghost function PlayNet(s: Net, moves: seq<Move>): Net
    requires WellKept(s) && Runs(s, moves)
    decreases |moves|
  {
    if moves == [] then s
    else
      NextIsKept(s, moves[0]);
      PlayNet(NetNext(s, moves[0]), moves[1..])
  }

  /** No step of the run leaves a session behind. */
  ghost predicate NoneStranded(s: Net, moves: seq<Move>)
    requires WellKept(s) && Runs(s, moves)
    decreases |moves|
  {
    moves == [] || (!Strands(s, moves[0]) && (NextIsKept(s, moves[0]); NoneStranded(NetNext(s, moves[0]), moves[1..])))
  }

  lemma FirstNetIsRight(layout: Layout, policy: SwitchPolicy, local: Name, monitors: seq<Rect>,
          positions: map<Name, Point>, sizes: map<Name, Size>, rules: seq<Rule>, setups: Name -> Setup)
    requires AllProper(monitors) && monitors != []
    ensures var s := FirstNet(Start(layout, policy, local, monitors, positions, sizes, rules), setups);
      WellKept(s) && Attended(s) && KeysRight(s)
  {
  }

  /** Every session stays attended, in every state of a run, iff no step of it is one of the two. */
  lemma {:induction false} RunsAttendExactly(s: Net, moves: seq<Move>)
    requires WellKept(s) && Attended(s) && Runs(s, moves)
    ensures NoneStranded(s, moves) <==> AlwaysAttended(s, moves)
    decreases |moves|
  {
    if moves != [] {
      NextIsKept(s, moves[0]);
      LeftBehindExactly(s, moves[0]);
      if !Strands(s, moves[0]) {
        RunsAttendExactly(NetNext(s, moves[0]), moves[1..]);
      }
    }
  }

  ghost predicate AlwaysAttended(s: Net, moves: seq<Move>)
    requires WellKept(s) && Runs(s, moves)
    decreases |moves|
  {
    Attended(s) && (moves == [] || (NextIsKept(s, moves[0]); AlwaysAttended(NetNext(s, moves[0]), moves[1..])))
  }

  lemma {:induction false} RunsKeepKeysRight(s: Net, moves: seq<Move>)
    requires WellKept(s) && Attended(s) && KeysRight(s) && Runs(s, moves) && NoneStranded(s, moves)
    ensures var s' := PlayNet(s, moves); WellKept(s') && Attended(s') && KeysRight(s')
    decreases |moves|
  {
    if moves != [] {
      NextIsKept(s, moves[0]);
      LeftBehindExactly(s, moves[0]);
      NextKeys(s, moves[0]);
      RunsKeepKeysRight(NetNext(s, moves[0]), moves[1..]);
    }
  }

  /** No stuck keys. In every run in which no session is left behind, whatever the clients and the hub
      do between any two actions: a key that a machine has pressed was pressed in a session that is
      there and is where the input is (or is about to be left), for a key still down (or about to be
      lifted); once the reaction is through, for a key still down, where the input is. */
  lemma NoStuckKeys(s: Net, moves: seq<Move>, n: Name, os: OsKey)
    requires WellKept(s) && Attended(s) && KeysRight(s) && Runs(s, moves) && NoneStranded(s, moves)
    requires os in PlayNet(s, moves).world.SinkOf(n).pressed
    ensures var s' := PlayNet(s, moves);
      && n in s'.hub.clients
      && (Holder(s'.world.core) == Some(n) || Send(n, Input.Leave) in s'.queue)
      && exists h :: h in s'.world.SinkOf(n).heldKeys && s'.world.SinkOf(n).heldKeys[h] == os
           && (Justified(s'.world.core.fired, s'.world.phys, h) || LiftIn(s'.queue, n, h))
    ensures var s' := PlayNet(s, moves);
      s'.queue == [] ==> (
        Holder(s'.world.core) == Some(n)
        && exists h :: h in s'.world.SinkOf(n).heldKeys && s'.world.SinkOf(n).heldKeys[h] == os
             && Justified(s'.world.core.fired, s'.world.phys, h))
  {
    RunsKeepKeysRight(s, moves);
    var s' := PlayNet(s, moves);
    assert n in s'.world.sinks && n in s'.entered;
    var h :| h in s'.world.sinks[n].heldKeys && s'.world.sinks[n].heldKeys[h] == os;
    EveryKeyIsIn(h);
    assert h in BadKeys(s'.world, s'.queue) ==> LiftIn(s'.queue, n, h);
    if s'.queue == [] {
      NothingQueuedNothingBad(s');
    }
  }

  /** With everything let go, nothing is pressed anywhere. */
  lemma NothingDownNothingPressed(s: Net, moves: seq<Move>, n: Name)
    requires WellKept(s) && Attended(s) && KeysRight(s) && Runs(s, moves) && NoneStranded(s, moves)
    requires PlayNet(s, moves).queue == [] && PlayNet(s, moves).world.phys == {}
    ensures PlayNet(s, moves).world.SinkOf(n).pressed == {}
  {
    var pressed := PlayNet(s, moves).world.SinkOf(n).pressed;
    if os :| os in pressed {
      NoStuckKeys(s, moves, n, os);
    }
  }
}
