/** The router's whole safety with sessions that come, go and come back
    (`run_shared` in `geserdesk-server/src/router.rs`, `hub.rs`). */
module SessionRuns {
  import opened Wrappers
  import opened Geometry
  import opened Names
  import opened Placement
  import opened Switching
  import opened Input
  import opened Router
  import opened RouterRuns
  import opened RouterKeys
  import opened Hubs
  import opened Sessions

  // ---- the invariant ---------------------------------------------------------------------------------

  /** The router's idea of the outside, but for a screen whose session is gone and whose loss it has
      not taken in. */
  predicate InStepBut(c: CoreState, f: Front, gone: set<Name>) {
    && f.open == (if Holder(c).Some? && Holder(c).value in gone then None else Holder(c))
    && f.last <= c.number && (f.grabbed <==> c.mode.Remote?)
    && (c.mode.Remote? ==> c.mode.screen in c.connected)
  }

  /** The screens between their Enter and their Leave: one at most. */
  function Between(f: Front): set<Name> {
    if f.open.Some? then {f.open.value} else {}
  }

  predicate NamesKnown(s: Net) {
    forall a | a in s.queue && a.Send? :: a.to in s.hub.clients || a.to in s.gone
  }

  /** Everything so far was proper: input only to sessions between their Enter and their Leave, the
      devices grabbed only while a remote screen is active, every position on a monitor; and what is
      queued continues so. */
  predicate NetSafe(s: Net) {
    && WellKept(s) && NamesKnown(s) && s.world.ok && Quiet(s.world)
    && s.entered <= Between(s.world.front)
    && Fits(s.world.core, s.world.front, s.queue, s.gone)
    && InStepBut(s.world.core, Through(s.world.front, s.queue, s.gone), s.gone)
  }

  /** A name is taken again only while the router is not on it and has nothing queued for it; and the
      loss of the screen the router is on is taken in only while no session of that name is there. */
  predicate Orderly(s: Net, m: Move)
    requires Possible(s, m)
  {
    match m
    case HubDoes(Register(n, _)) =>
      n in s.hub.clients || (Holder(s.world.core) != Some(n) && forall a | a in s.queue && a.Send? :: a.to != n)
    case TakesEvent =>
      var ev := s.hub.log[s.taken];
      ev.Disconnected? && Holder(s.world.core) == Some(ev.name) ==> ev.name !in s.hub.clients
    case _ => true
  }

  // ---- the steps --------------------------------------------------------------------------------------

  lemma UnregisterIsSafe(s: Net, x: Name)
    requires NetSafe(s) && Possible(s, HubDoes(HubOp.Unregister(x)))
    ensures NetSafe(Operated(s, HubOp.Unregister(x)))
  {
    var s' := Operated(s, HubOp.Unregister(x));
    OperatedIsKept(s, HubOp.Unregister(x));
    DropClient(s.world.core, s.world.core, s.world.front, s'.world.front, s.queue, s.gone, x);
    assert Accounted(RELEASED);
    assert Quiet(s'.world);
  }

  lemma {:induction false} FitsForgets(c: CoreState, f: Front, q: seq<Action>, lost: set<Name>, x: Name)
    requires forall a | a in q && a.Send? :: a.to != x
    ensures Fits(c, f, q, lost) <==> Fits(c, f, q, lost - {x})
    ensures Through(f, q, lost) == Through(f, q, lost - {x})
    decreases |q|
  {
    if q != [] {
      assert q[0] in q && forall a | a in q[1..] :: a in q;
      assert Pass(f, q[0], lost) == Pass(f, q[0], lost - {x});
      FitsForgets(c, Pass(f, q[0], lost), q[1..], lost, x);
    }
  }

  lemma RegisterIsSafe(s: Net, n: Name, monitors: seq<Rect>)
    requires NetSafe(s) && Possible(s, HubDoes(HubOp.Register(n, monitors))) && Orderly(s, HubDoes(HubOp.Register(n, monitors)))
    ensures NetSafe(Operated(s, HubOp.Register(n, monitors)))
  {
    var s' := Operated(s, HubOp.Register(n, monitors));
    OperatedIsKept(s, HubOp.Register(n, monitors));
    if n in s.hub.clients {
      assert s'.gone == s.gone;
    } else {
      FitsForgets(s.world.core, s.world.front, s.queue, s.gone, n);
    }
  }

  lemma SameClients(h: HubState, op: HubOp)
    requires !op.Register? && !op.Unregister?
    ensures Apply(h, op).clients.Keys == h.clients.Keys
  {
  }

  lemma OperatedIsSafe(s: Net, op: HubOp)
    requires NetSafe(s) && Possible(s, HubDoes(op)) && Orderly(s, HubDoes(op))
    ensures NetSafe(Operated(s, op))
  {
    match op
    case Unregister(x) => UnregisterIsSafe(s, x);
    case Register(n, monitors) => RegisterIsSafe(s, n, monitors);
    case _ =>
      OperatedIsKept(s, op);
      SameClients(s.hub, op);
  }

  lemma DoneIsSafe(s: Net)
    requires NetSafe(s) && s.queue != [] && (s.queue[0].Send? ==> s.Here(s.queue[0].to))
    ensures NetSafe(Carried(s))
  {
    var a, s' := s.queue[0], Carried(s);
    CarriedIsKept(s);
    assert a in s.queue;
    DoKeepsQuiet(s.world, a);
    assert Pass(s.world.front, a, {}) == Pass(s.world.front, a, s.gone);
    if a.Send? {
      SendingShowsNothing(s.hub, a.to, a.msg);
    }
    assert s'.hub.clients.Keys == s.hub.clients.Keys;
    assert NamesKnown(s') by {
      assert forall b | b in s'.queue :: b in s.queue;
    }
  }

  /** What is left of a queue after a send to the gone client `to` failed, and what the router adds. */
  lemma RestFits(c: CoreState, f: Front, f': Front, q: seq<Action>, gone: set<Name>, to: Name)
    requires c.Sound() && c.localMonitors != [] && q != [] && q[0].Send? && q[0].to == to && to in gone
    requires Fits(c, f, q, gone) && InStepBut(c, Through(f, q, gone), gone) && Without(f', f, to)
    ensures var (c', more) := c.Disconnect(to);
      Fits(c', f', q[1..] + more, gone) && InStepBut(c', Through(f', q[1..] + more, gone), gone)
  {
    var (c', more) := c.Disconnect(to);
    DropClient(c, c', f, f', q, gone, to);
    assert gone + {to} == gone;
    assert Fits(c', f', q[1..], gone) && Without(Through(f', q[1..], gone), Through(f, q, gone), to);
    CentreForgetsMode(c, to);
    ComesHome(c, c', Through(f, q, gone), Through(f', q[1..], gone), more, gone, to);
    Concat(c', f', q[1..], more, gone);
  }

  /** What the router does about the loss of `to` fits what `to` left behind. */
  lemma ComesHome(c: CoreState, c': CoreState, f: Front, f': Front, more: seq<Action>, gone: set<Name>, to: Name)
    requires c.Sound() && c.localMonitors != [] && InStepBut(c, f, gone) && Without(f', f, to)
    requires (c', more) == c.Disconnect(to) && (Holder(c) == Some(to) ==> to in gone)
    ensures Fits(c', f', more, gone) && InStepBut(c', Through(f', more, gone), gone)
  {
    CentreForgetsMode(c, to);
    if more != [] {
      LocalCenterIsReal(c');
      assert more == [more[0]];
      One(c', f', more[0], gone);
    } else {
      assert c'.mode == c.mode;
    }
  }

  lemma FailedIsSafe(s: Net)
    requires NetSafe(s) && s.queue != [] && s.queue[0].Send? && !s.Here(s.queue[0].to)
    ensures NetSafe(Carried(s))
  {
    var to := s.queue[0].to;
    CarriedIsKept(s);
    FailedNamesKnown(s);
    RestFits(s.world.core, s.world.front, Carried(s).world.front, s.queue, s.gone, to);
    LosingKeepsQuiet(s.world, to);
  }

  lemma FailedNamesKnown(s: Net)
    requires NamesKnown(s) && s.world.core.Sound() && s.queue != [] && s.queue[0].Send? && !s.Here(s.queue[0].to)
    ensures NamesKnown(Carried(s)) && s.queue[0].to in s.gone
  {
    assert s.queue[0] in s.queue && forall b | b in s.queue[1..] :: b in s.queue;
  }

  lemma TakenFits(c: CoreState, f: Front, ev: HubEvent, gone: set<Name>)
    requires c.Sound() && c.localMonitors != [] && InStepBut(c, f, gone)
    requires ev.Disconnected? && Holder(c) == Some(ev.name) ==> ev.name in gone
    ensures var (c', q) := c.OnHub(ev); Fits(c', f, q, gone) && InStepBut(c', Through(f, q, gone), gone)
  {
    var (c', q) := c.OnHub(ev);
    match ev
    case LocalMonitors(monitors) => assert c' == c.SetLocalMonitors(monitors) && c'.mode == c.mode && c'.number == c.number;
    case Disconnected(name) => ComesHome(c, c', f, f, q, gone, name);
    case _ => assert c'.mode == c.mode && c'.number == c.number && q == [];
  }

  lemma TakenIsSafe(s: Net)
    requires NetSafe(s) && Possible(s, TakesEvent) && Orderly(s, TakesEvent)
    ensures NetSafe(NetNext(s, TakesEvent))
  {
    TakenIsKept(s);
    TakenFits(s.world.core, s.world.front, s.hub.log[s.taken], s.gone);
    HubSpeaksToNone(s.world.core, s.hub.log[s.taken]);
  }

  lemma HubSpeaksToNone(c: CoreState, ev: HubEvent)
    requires c.Sound()
    ensures forall a | a in c.OnHub(ev).1 :: a.Capture?
  {
    match ev
    case LocalMonitors(monitors) => assert c.OnHub(ev).0 == c.SetLocalMonitors(monitors);
    case _ =>
  }

  // ---- reactions to input, while some sessions are gone ---------------------------------------------------

  /** `f'` is `f` without the session of any of `xs`. */
  predicate WithoutAll(f': Front, f: Front, xs: set<Name>) {
    f'.open == (if f.open.Some? && f.open.value in xs then None else f.open) && f'.last <= f.last && f'.grabbed == f.grabbed
  }

  lemma {:induction false} DropAll(c: CoreState, f: Front, f': Front, q: seq<Action>, xs: set<Name>)
    requires Fits(c, f, q, {}) && WithoutAll(f', f, xs)
    ensures Fits(c, f', q, xs) && WithoutAll(Through(f', q, xs), Through(f, q, {}), xs)
    decreases |xs|
  {
    if xs == {} {
      DropNone(c, f, f', q);
    } else {
      var x :| x in xs;
      var ys := xs - {x};
      var g := f'.(open := if f.open.Some? && f.open.value in ys then None else f.open);
      DropAll(c, f, g, q, ys);
      DropClient(c, c, g, f', q, ys, x);
      assert ys + {x} == xs;
    }
  }

  /** An older last number is as good. */
  lemma {:induction false} DropNone(c: CoreState, f: Front, f': Front, q: seq<Action>)
    requires Fits(c, f, q, {}) && f'.open == f.open && f'.last <= f.last && f'.grabbed == f.grabbed
    ensures Fits(c, f', q, {}) && WithoutAll(Through(f', q, {}), Through(f, q, {}), {})
    decreases |q|
  {
    if q != [] {
      DropNone(c, Pass(f, q[0], {}), Pass(f', q[0], {}), q[1..]);
    }
  }

  /** The world as the router sees it, the lost screen still there. */
  function Believed(w: World): World {
    w.(front := w.front.(open := Holder(w.core)))
  }

  predicate SpeaksTo(q: seq<Action>, a: Option<Name>, b: Option<Name>) {
    forall x | x in q && x.Send? :: a == Some(x.to) || b == Some(x.to)
  }

  /** Input reactions speak only to the screen the input was on and the one it goes to. */
  lemma SpeaksToHolders(c: CoreState, ev: CaptureEvent, now: nat)
    requires c.Sound()
    ensures SpeaksTo(c.Handle(ev, now).1, Holder(c), Holder(c.Handle(ev, now).0))
  {
    var (c', q) := c.Handle(ev, now);
    match ev
    case Pointer(p) => assert q == [] || q == [Capture(Grab), Send(c'.mode.screen, Enter(c'.mode.pos, c'.number))];
    case KeyChange(k) => OnKeySendsKeys(c, k);
    case Motion(dx, dy) =>
      if c.mode.Remote? && c.MonitorsOf(c.mode.screen) != [] {
        var moved, beyond := MotionIsMove(c, dx, dy);
        MovingSpeaks(c, moved, beyond);
      }
    case _ =>
  }

  lemma MovingSpeaks(c: CoreState, moved: Point, beyond: Option<(Name, Point)>)
    requires c.Sound() && c.mode.Remote?
    requires beyond.Some? ==> Covered(beyond.value.1, c.MonitorsOf(beyond.value.0))
    ensures SpeaksTo(c.MoveTo(moved, beyond).1, Holder(c), Holder(c.MoveTo(moved, beyond).0))
  {
  }

  lemma BelievedIsSafe(w: World, gone: set<Name>)
    requires w.core.Sound() && w.core.localMonitors != [] && w.ok && Quiet(w) && InStepBut(w.core, w.front, gone)
    ensures Safe(Believed(w)) && WithoutAll(w.front, Believed(w).front, gone)
  {
    var b := Believed(w);
    forall n | n in b.sinks && b.front.open != Some(n)
      ensures b.sinks[n] == RELEASED
    {
      assert w.front.open != Some(n);
    }
    assert InStep(b.core, b.front);
  }

  lemma SeenFits(s: Net, t: Turn)
    requires NetSafe(s) && s.queue == [] && t.FromCapture? && Legal(s.world, t)
    ensures var w, q := Reacted(s.world, t), React(s.world.core, t).1;
      Fits(w.core, w.front, q, s.gone) && InStepBut(w.core, Through(w.front, q, s.gone), s.gone)
  {
    var b, w, q := Believed(s.world), Reacted(s.world, t), React(s.world.core, t).1;
    BelievedIsSafe(s.world, s.gone);
    ReactedUnderway(b, t);
    DropAll(w.core, Reacted(b, t).front, w.front, q, s.gone);
  }

  lemma SeenIsSafe(s: Net, ev: CaptureEvent, now: nat)
    requires NetSafe(s) && Possible(s, Sees(ev, now))
    ensures NetSafe(NetNext(s, Sees(ev, now)))
  {
    SeenIsKept(s, ev, now);
    SeenFits(s, TurnOf(ev, now));
    var s' := NetNext(s, Sees(ev, now));
    SpeaksToHolders(s.world.core, ev, now);
    assert s'.world.ok && Quiet(s'.world);
    HoldersAreKnown(s, s');
  }

  lemma HoldersAreKnown(s: Net, s': Net)
    requires Known(s) && SpeaksTo(s'.queue, Holder(s.world.core), Holder(s'.world.core))
    requires s'.hub == s.hub && s'.gone == s.gone && s'.world.core.connected == s.world.core.connected
    requires s.world.core.mode.Remote? ==> s.world.core.mode.screen in s.world.core.connected
    requires s'.world.core.mode.Remote? ==> s'.world.core.mode.screen in s.world.core.connected
    ensures NamesKnown(s')
  {
  }

  lemma NextIsSafe(s: Net, m: Move)
    requires NetSafe(s) && Possible(s, m) && Orderly(s, m)
    ensures NetSafe(NetNext(s, m))
  {
    match m
    case HubDoes(op) => OperatedIsSafe(s, op);
    case Carries =>
      if s.queue[0].Send? && !s.Here(s.queue[0].to) {
        FailedIsSafe(s);
      } else {
        DoneIsSafe(s);
      }
    case TakesEvent => TakenIsSafe(s);
    case Sees(ev, now) => SeenIsSafe(s, ev, now);
  }

  /** Between two reactions the rule is exact: what breaks it breaks safety at once. */
  lemma SafeExactly(s: Net, m: Move)
    requires NetSafe(s) && Possible(s, m) && s.queue == []
    ensures NetSafe(NetNext(s, m)) <==> Orderly(s, m)
  {
    if Orderly(s, m) {
      NextIsSafe(s, m);
    } else {
      var s' := NetNext(s, m);
      match m
      case HubDoes(op) =>
      case TakesEvent =>
        CentreForgetsMode(s.world.core, s.hub.log[s.taken].name);
        assert !Proper(s'.world.core, s'.world.front, s'.queue[0], s'.gone);
    }
  }

  // ---- safe sessions are attended ---------------------------------------------------------------------------

  lemma {:induction false} StaysOpen(c: CoreState, f: Front, q: seq<Action>, lost: set<Name>, n: Name)
    requires Fits(c, f, q, lost) && f.open == Some(n) && n !in lost && Send(n, Input.Leave) !in q
    ensures Through(f, q, lost).open == Some(n)
    decreases |q|
  {
    if q != [] {
      assert q[0] in q;
      StaysOpen(c, Pass(f, q[0], lost), q[1..], lost, n);
    }
  }

  lemma OpenIsAttended(c: CoreState, f: Front, q: seq<Action>, lost: set<Name>, n: Name)
    requires Fits(c, f, q, lost) && InStepBut(c, Through(f, q, lost), lost) && n in Between(f) && n !in lost
    ensures Holder(c) == Some(n) || Send(n, Input.Leave) in q
  {
    if Send(n, Input.Leave) !in q {
      StaysOpen(c, f, q, lost, n);
    }
  }

  lemma SafeIsAttended(s: Net)
    requires NetSafe(s)
    ensures Attended(s)
  {
    forall n | n in s.entered ensures Holder(s.world.core) == Some(n) || Send(n, Input.Leave) in s.queue {
      OpenIsAttended(s.world.core, s.world.front, s.queue, s.gone, n);
    }
  }

  ghost predicate OrderlyRun(s: Net, moves: seq<Move>)
    requires WellKept(s) && Runs(s, moves)
    decreases |moves|
  {
    moves == [] || (Orderly(s, moves[0]) && (NextIsKept(s, moves[0]); OrderlyRun(NetNext(s, moves[0]), moves[1..])))
  }

  lemma FirstNetIsSafe(layout: Layout, policy: SwitchPolicy, local: Name, monitors: seq<Rect>,
          positions: map<Name, Point>, sizes: map<Name, Size>, rules: seq<Rule>, setups: Name -> Setup)
    requires AllProper(monitors) && monitors != []
    ensures NetSafe(FirstNet(Start(layout, policy, local, monitors, positions, sizes, rules), setups))
  {
  }

  /** Every orderly run keeps the router safe, whatever clients, hub and input do between any two
      actions, and leaves no session behind. */
  lemma {:induction false} RunsAreSafe(s: Net, moves: seq<Move>)
    requires NetSafe(s) && Runs(s, moves) && OrderlyRun(s, moves)
    ensures NetSafe(PlayNet(s, moves)) && NoneStranded(s, moves)
    decreases |moves|
  {
    if moves != [] {
      NextIsKept(s, moves[0]);
      NextIsSafe(s, moves[0]);
      SafeIsAttended(s);
      SafeIsAttended(NetNext(s, moves[0]));
      LeftBehindExactly(s, moves[0]);
      RunsAreSafe(NetNext(s, moves[0]), moves[1..]);
    }
  }

  /** Between two reactions of an orderly run: the devices are grabbed exactly while a remote screen is
      active, and that screen is the only one between its Enter and its Leave, if its session is
      there; with the event log taken in, the router knows exactly the clients that are there. */
  lemma BetweenReactions(s: Net, moves: seq<Move>)
    requires NetSafe(s) && Runs(s, moves) && OrderlyRun(s, moves) && PlayNet(s, moves).queue == []
    ensures var s' := PlayNet(s, moves);
      var c, f := s'.world.core, s'.world.front;
      && s'.world.ok && (f.grabbed <==> c.mode.Remote?)
      && (f.open.Some? ==> f.open == Holder(c) && f.open.value in s'.hub.clients)
      && (c.mode.Remote? && c.mode.screen in s'.hub.clients ==> f.open == Some(c.mode.screen))
      && (s'.taken == |s'.hub.log| ==> c.connected == Visible(s'.hub))
  {
    RunsAreSafe(s, moves);
    var s' := PlayNet(s, moves);
    assert s'.world.core.mode.Remote? ==> s'.world.core.mode.screen in s'.hub.clients || s'.world.core.mode.screen in s'.gone;
    if s'.taken == |s'.hub.log| {
      TakenMeansFaithful(s'.Copied());
    }
  }
}
