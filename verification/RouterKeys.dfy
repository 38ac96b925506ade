/** What whole runs guarantee: the router's safety, no stuck keys, and no bouncing back. */
module RouterKeys {
  import opened Wrappers
  import opened Geometry
  import opened Names
  import opened Placement
  import opened Switching
  import opened Input
  import opened Router
  import opened RouterRuns
  import RouterEdges

  // ---- runs --------------------------------------------------------------------------------

  ghost predicate LegalRun(w: World, turns: seq<Turn>)
    requires Safe(w)
    decreases |turns|
  {
    turns == [] ||
    (Legal(w, turns[0]) && (TurnIsSafe(w, turns[0]); LegalRun(Take(w, turns[0]), turns[1..])))
  }

  ghost function Play(w: World, turns: seq<Turn>): World
    requires Safe(w) && LegalRun(w, turns)
    decreases |turns|
  {
    if turns == [] then w
    else
      TurnIsSafe(w, turns[0]);
      Play(Take(w, turns[0]), turns[1..])
  }

  function FirstWorld(core: CoreState, setups: Name -> Setup): World {
    World(core, Front(None, 0, false), {}, map[], setups, true)
  }

  /** A key down since the grab accounts for `h` being held: as the action its press fired, if it
      fired one, else as itself. */
  predicate AccountsFor(fired: map<Hid, Hid>, p: Hid, h: Hid) {
    if p in fired then fired[p] == h else p == h
  }

  ghost predicate Justified(fired: map<Hid, Hid>, phys: set<Hid>, h: Hid) {
    exists p :: p in phys && AccountsFor(fired, p, h)
  }

  ghost predicate KeysHeld(w: World) {
    forall n, h | n in w.sinks && h in w.sinks[n].heldKeys :: Justified(w.core.fired, w.phys, h)
  }

  // ---- what a queue leaves held -----------------------------------------------------------------

  predicate Lifts(a: Action, n: Name, h: Hid) {
    a.Send? && a.to == n && a.msg.Key? && a.msg.key.hid == h && a.msg.key.action == Up
  }

  predicate LiftIn(q: seq<Action>, n: Name, h: Hid) {
    exists a | a in q :: Lifts(a, n, h)
  }

  /** The queue presses nothing of `bad`, and lifts whatever of it is held. */
  ghost predicate Lifting(w: World, q: seq<Action>, bad: iset<Hid>) {
    && (forall a | a in q && a.Send? && a.msg.Key? && a.msg.key.hid in bad :: a.msg.key.action == Up)
    && forall n, h | n in w.sinks && h in w.sinks[n].heldKeys && h in bad :: LiftIn(q, n, h)
  }

  lemma NextLifting(w: World, q: seq<Action>, life: Name -> nat, step: nat, bad: iset<Hid>)
    requires w.core.Sound() && q != [] && Lifting(w, q, bad)
    ensures var (w', q', step') := Next(w, q, life, step); Lifting(w', q', bad)
  {
    if q[0].Send? && step >= life(q[0].to) {
      FailLifting(w, q, bad);
    } else {
      DoLifting(w, q, bad);
    }
  }

  lemma FailLifting(w: World, q: seq<Action>, bad: iset<Hid>)
    requires w.core.Sound() && q != [] && Lifting(w, q, bad) && q[0].Send?
    ensures var (w', actions) := Fail(w, q[0].to); Lifting(w', q[1..] + actions, bad)
  {
    var (w', actions) := Fail(w, q[0].to);
    TailLifting(w, w', q, actions, bad);
  }

  lemma DoLifting(w: World, q: seq<Action>, bad: iset<Hid>)
    requires w.core.Sound() && q != [] && Lifting(w, q, bad)
    ensures Lifting(Do(w, q[0]), q[1..], bad)
  {
    assert q[1..] + [] == q[1..];
    TailLifting(w, Do(w, q[0]), q, [], bad);
  }

  /** The rest of the queue still lifts what is still held, if its first action lifted its key. */
  lemma TailLifting(w: World, w': World, q: seq<Action>, more: seq<Action>, bad: iset<Hid>)
    requires q != [] && Lifting(w, q, bad) && NoKeys(more)
    requires forall n, h | n in w'.sinks && h in w'.sinks[n].heldKeys && h in bad ::
      n in w.sinks && h in w.sinks[n].heldKeys && !Lifts(q[0], n, h)
    ensures Lifting(w', q[1..] + more, bad)
  {
    assert q == [q[0]] + q[1..];
    forall n, h | n in w'.sinks && h in w'.sinks[n].heldKeys && h in bad
      ensures LiftIn(q[1..] + more, n, h)
    {
      assert LiftIn(q, n, h);
      var a :| a in q && Lifts(a, n, h);
      assert a in q[1..] + more;
    }
  }

  lemma {:induction false} DrainLifts(w: World, q: seq<Action>, life: Name -> nat, step: nat, bad: iset<Hid>)
    requires w.core.Sound() && Lifting(w, q, bad)
    ensures var w' := Drain(w, q, life, step);
      && (forall n, h | n in w'.sinks && h in w'.sinks[n].heldKeys :: h !in bad)
      && w'.core.fired == w.core.fired
      && w'.phys == if Capture(Grab) in q then {} else w.phys
    decreases Weight(q)
  {
    if q == [] {
      forall n, h | n in w.sinks && h in w.sinks[n].heldKeys
        ensures h !in bad
      {
        assert !LiftIn(q, n, h);
      }
    } else {
      NextLifting(w, q, life, step, bad);
      var (w', q', step') := Next(w, q, life, step);
      DrainLifts(w', q', life, step', bad);
      assert q == [q[0]] + q[1..];
    }
  }

  // ---- no stuck keys ------------------------------------------------------------------------

  ghost function Unjustified(fired: map<Hid, Hid>, phys: set<Hid>): iset<Hid> {
    iset h: Hid | !Justified(fired, phys, h)
  }

  ghost const EVERY_KEY: iset<Hid> := iset h: Hid | IsExtra(h) || !IsExtra(h)

  /** Nothing is held anywhere but where the input is. */
  predicate OnlyHolder(w: World) {
    forall n | n in w.sinks && w.sinks[n] != RELEASED :: Holder(w.core) == Some(n)
  }

  lemma SafeMeansOnlyHolder(w: World)
    requires Safe(w)
    ensures OnlyHolder(w)
  {
  }

  lemma KeyLifts(w: World, t: Turn)
    requires w.core.Sound() && OnlyHolder(w) && KeysHeld(w) && Legal(w, t) && t.FromCapture? && t.ev.KeyChange?
    ensures var w' := Reacted(w, t);
      Lifting(w', React(w.core, t).1, Unjustified(w'.core.fired, w'.phys))
  {
    var k := t.ev.key;
    var w' := Reacted(w, t);
    var (c, q) := w.core.OnKey(k);
    var bad := Unjustified(c.fired, w'.phys);
    OnKeySendsKeys(w.core, k);
    if w.core.mode.Local? {
      assert forall n | n in w.sinks :: w.sinks[n] == RELEASED;
      return;
    }
    var screen := w.core.mode.screen;
    if k.action != Up {
      assert AccountsFor(c.fired, k.hid, if k.hid in c.fired then c.fired[k.hid] else k.hid);
    }
    forall a | a in q && a.msg.key.hid in bad
      ensures a.msg.key.action == Up
    {
      var rule := w.core.MatchingRule(k, w.core.rules);
      LetGoAreKeys(w.core, if rule.Some? then rule.value.mods else {}, MODIFIER_KEYS);
    }
    forall n, h | n in w'.sinks && h in w'.sinks[n].heldKeys && h in bad
      ensures LiftIn(q, n, h)
    {
      assert n in w.sinks && Justified(w.core.fired, w.phys, h);
      var p :| p in w.phys && AccountsFor(w.core.fired, p, h);
      if p != k.hid || k.action != Up {
        assert AccountsFor(c.fired, p, h) && p in w'.phys;
      } else {
        assert Lifts(q[0], n, h);
      }
    }
  }

  /** After every turn, each key held on a client is accounted for by one still down. */
  lemma TurnKeepsKeysHeld(w: World, t: Turn)
    requires Safe(w) && KeysHeld(w) && Legal(w, t)
    ensures Safe(Take(w, t)) && KeysHeld(Take(w, t))
  {
    TurnIsSafe(w, t);
    ReactKeepsSound(w, t);
    var (c, q) := React(w.core, t);
    SafeMeansOnlyHolder(w);
    if t.FromCapture? && t.ev.KeyChange? {
      KeyLifts(w, t);
      OnKeySendsKeys(w.core, t.ev.key);
      assert Capture(Grab) !in q;
      LiftedAreHeld(Reacted(w, t), q, t.life, Unjustified(c.fired, Reacted(w, t).phys));
    } else {
      OthersSendNoKeys(w, t);
      LiftedAreHeld(Reacted(w, t), q, t.life, if Capture(Grab) in q then EVERY_KEY else Unjustified(c.fired, Reacted(w, t).phys));
    }
  }

  lemma LiftedAreHeld(w: World, q: seq<Action>, life: Name -> nat, bad: iset<Hid>)
    requires w.core.Sound() && Lifting(w, q, bad)
    requires bad == if Capture(Grab) in q then EVERY_KEY else Unjustified(w.core.fired, w.phys)
    ensures KeysHeld(Drain(w, q, life, 0))
  {
    DrainLifts(w, q, life, 0, bad);
    var w' := Drain(w, q, life, 0);
    forall n, h | n in w'.sinks && h in w'.sinks[n].heldKeys
      ensures Justified(w'.core.fired, w'.phys, h)
    {
      assert h !in bad && (IsExtra(h) || !IsExtra(h));
    }
  }

  lemma OthersSendNoKeys(w: World, t: Turn)
    requires Safe(w) && KeysHeld(w) && Legal(w, t) && !(t.FromCapture? && t.ev.KeyChange?)
    ensures var (c, q) := React(w.core, t);
      && c.fired == w.core.fired && NoKeys(q)
      && KeysHeld(Reacted(w, t))
      && (Capture(Grab) in q ==> forall n | n in Reacted(w, t).sinks :: Reacted(w, t).sinks[n] == RELEASED)
  {
    var (c, q) := React(w.core, t);
    if t.FromHub? {
      match t.hub
      case LocalMonitors(monitors) => assert c == w.core.SetLocalMonitors(monitors);
      case _ =>
    } else if w.core.mode.Remote? {
      NoGrabFromRemote(w.core, t.ev, t.now);
    }
  }

  lemma NoGrabFromRemote(c: CoreState, ev: CaptureEvent, now: nat)
    requires c.Sound() && c.mode.Remote?
    ensures Capture(Grab) !in c.Handle(ev, now).1
  {
    match ev
    case KeyChange(k) => OnKeySendsKeys(c, k);
    case _ =>
  }

  // ---- the theorems -----------------------------------------------------------------------------

  lemma FirstWorldIsSafe(layout: Layout, policy: SwitchPolicy, local: Name, monitors: seq<Rect>,
          positions: map<Name, Point>,
                         sizes: map<Name, Size>, rules: seq<Rule>, setups: Name -> Setup)
    requires AllProper(monitors) && monitors != []
    ensures var w := FirstWorld(Start(layout, policy, local, monitors, positions, sizes, rules), setups);
      Safe(w) && KeysHeld(w)
  {
  }

  /** Every run keeps the router safe and every held key accounted for, whatever events come and
      whichever sends fail. */
  lemma {:induction false} RunsAreSafe(w: World, turns: seq<Turn>)
    requires Safe(w) && KeysHeld(w) && LegalRun(w, turns)
    ensures Safe(Play(w, turns)) && KeysHeld(Play(w, turns))
    decreases |turns|
  {
    if turns != [] {
      TurnKeepsKeysHeld(w, turns[0]);
      RunsAreSafe(Take(w, turns[0]), turns[1..]);
    }
  }

  /** In words: a key the operating system of client `n` has pressed was pressed for a key still
      down, and `n` is the connected screen that holds the input, with the devices grabbed. */
  lemma NoStuckKeys(w: World, turns: seq<Turn>, n: Name, os: OsKey)
    requires Safe(w) && KeysHeld(w) && LegalRun(w, turns)
    requires os in Play(w, turns).SinkOf(n).pressed
    ensures var w' := Play(w, turns);
      && w'.front.open == Some(n) && w'.front.grabbed && w'.core.mode.Remote? && w'.core.mode.screen == n
      && n in w'.core.connected
      && exists h, p :: h in w'.SinkOf(n).heldKeys && w'.SinkOf(n).heldKeys[h] == os && p in w'.phys && AccountsFor(w'.core.fired, p, h)
  {
    RunsAreSafe(w, turns);
    var w' := Play(w, turns);
    assert n in w'.sinks;
    var h :| h in w'.sinks[n].heldKeys && w'.sinks[n].heldKeys[h] == os;
    assert Justified(w'.core.fired, w'.phys, h);
    var p :| p in w'.phys && AccountsFor(w'.core.fired, p, h);
  }

  /** The keys of a rule's modifiers. */
  ghost function ModifierHids(mods: set<Mod>): iset<Hid> {
    iset h: Hid | ModifierKey(mods, h)
  }

  /** What makes a rule one for this press: its key, and every modifier held but the lock keys and Meta,
      and no other. */
  predicate IsFor(rule: Rule, k: KeyEvent) {
    rule.hid == k.hid && forall m: Mod :: m in rule.mods <==> m in k.mods && m != Meta && m != CapsLock && m != NumLock
  }

  lemma MatchesIsFor(rule: Rule, k: KeyEvent)
    ensures rule.Matches(k.hid, k.mods) <==> IsFor(rule, k)
  {
    if IsFor(rule, k) {
      assert RuleMods(k.mods) == rule.mods;
    }
  }

  /** The first rule that is for the press is the one that matches. */
  lemma {:induction false} FirstForMatches(c: CoreState, k: KeyEvent, rules: seq<Rule>)
    ensures match c.MatchingRule(k, rules)
      case None => forall r | r in rules :: !IsFor(r, k)
      case Some(r) => exists i :: 0 <= i < |rules| && rules[i] == r && IsFor(r, k) && forall j | 0 <= j < i :: !IsFor(rules[j], k)
    decreases |rules|
  {
    if rules != [] {
      MatchesIsFor(rules[0], k);
      FirstForMatches(c, k, rules[1..]);
      if !IsFor(rules[0], k) && c.MatchingRule(k, rules[1..]).Some? {
        var tail, r := rules[1..], c.MatchingRule(k, rules).value;
        var i :| 0 <= i < |tail| && tail[i] == r && IsFor(r, k) && forall j | 0 <= j < i :: !IsFor(tail[j], k);
        assert rules[i + 1] == r && forall j | 0 < j < i + 1 :: rules[j] == tail[j - 1];
      }
    }
  }

  /** The press of `k` fires `rule`. */
  predicate Fires(c: CoreState, k: KeyEvent, rule: Rule) {
    k.action == Down && c.mode.Remote? && k.hid !in c.fired && c.MatchingRule(k, c.rules) == Some(rule)
  }

  /** A press that fires a rule sends the active screen the action, and before it lets go exactly of the
      keys of the rule's modifiers. */
  lemma FiredRuleSends(c: CoreState, k: KeyEvent, rule: Rule, h: Hid)
    requires Fires(c, k, rule)
    ensures var q := c.OnKey(k).1;
      && q != [] && q[|q| - 1] == Send(c.mode.screen, AsAction(rule.action, Down))
      && (forall a | a in q[..|q| - 1] :: a.Send? && a.to == c.mode.screen && a.msg.Key? && a == Send(a.to, AsAction(a.msg.key.hid, Up)))
      && (Send(c.mode.screen, AsAction(h, Up)) in q <==> ModifierKey(rule.mods, h))
    ensures c.OnKey(k).0 == c.(fired := c.fired[k.hid := rule.action])
  {
    var ups, last := c.LetGo(rule.mods, MODIFIER_KEYS), Send(c.mode.screen, AsAction(rule.action, Down));
    LetGoAreKeys(c, rule.mods, MODIFIER_KEYS);
    TableIsModifierKeys(rule.mods, h, MODIFIER_KEYS);
    assert c.OnKey(k).1 == ups + [last] && (ups + [last])[..|ups|] == ups;
    LetGoAreUps(c, rule.mods, MODIFIER_KEYS);
  }

  lemma {:induction false} LetGoAreUps(c: CoreState, mods: set<Mod>, table: seq<ModifierKeys>)
    requires c.mode.Remote?
    ensures forall a | a in c.LetGo(mods, table) ::
      a.Send? && a.to == c.mode.screen && a.msg.Key? && a == Send(a.to, AsAction(a.msg.key.hid, Up))
    decreases |table|
  {
    if table != [] {
      UpsAreUps(c, table[0].keys);
      LetGoAreUps(c, mods, table[1..]);
    }
  }

  lemma {:induction false} UpsAreUps(c: CoreState, keys: seq<Hid>)
    requires c.mode.Remote?
    ensures forall a | a in c.UpAll(keys) ::
      a.Send? && a.to == c.mode.screen && a.msg.Key? && a == Send(a.to, AsAction(a.msg.key.hid, Up))
  {
    if keys != [] {
      UpsAreUps(c, keys[1..]);
    }
  }

  /** A key that fired a rule stands for its action until it comes up, whatever happens meanwhile: what
      becomes of it then is sent as the action's. */
  lemma {:induction false} FiredUntilReleased(c: CoreState, hid: Hid, os: seq<RouterEdges.Occurrence>, k: KeyEvent)
    requires c.Sound() && hid in c.fired && k.hid == hid && forall o | o in os :: RouterEdges.Admissible(o) && !Releases(o, hid)
    ensures var end := RouterEdges.Reached(c, os);
      && hid in end.fired && end.fired[hid] == c.fired[hid]
      && end.OnKey(k).1 == end.Forward(AsAction(c.fired[hid], k.action))
      && (k.action == Up ==> hid !in end.OnKey(k).0.fired)
  {
    if os != [] {
      FiredUntilReleased(c, hid, os[..|os| - 1], k);
      FiredStays(RouterEdges.Reached(c, os[..|os| - 1]), hid, os[|os| - 1]);
    }
  }

  lemma FiredStays(c: CoreState, hid: Hid, o: RouterEdges.Occurrence)
    requires c.Sound() && hid in c.fired && RouterEdges.Admissible(o) && !Releases(o, hid)
    ensures var end := RouterEdges.React(c, o).fired; hid in end && end[hid] == c.fired[hid]
  {
    if o.Captured? && !o.ev.KeyChange? {
      assert c.Handle(o.ev, o.now).0.fired == c.fired;
    } else if o.Told? {
      assert c.OnHub(o.news).0.fired == c.fired;
    }
  }

  predicate Releases(o: RouterEdges.Occurrence, hid: Hid) {
    o.Captured? && o.ev.KeyChange? && o.ev.key.hid == hid && o.ev.key.action == Up
  }

  lemma FiredRuleLifts(w: World, k: KeyEvent, rule: Rule, bad: iset<Hid>)
    requires Safe(w) && Fires(w.core, k, rule) && IsExtra(rule.action)
    requires bad == ModifierHids(rule.mods)
    ensures Lifting(w, w.core.OnKey(k).1, bad)
  {
    var q := w.core.OnKey(k).1;
    var ups := w.core.LetGo(rule.mods, MODIFIER_KEYS);
    var screen := w.core.mode.screen;
    assert q == ups + [Send(screen, AsAction(rule.action, Down))];
    LetGoAreKeys(w.core, rule.mods, MODIFIER_KEYS);
    forall n, h | n in w.sinks && h in w.sinks[n].heldKeys && h in bad
      ensures LiftIn(q, n, h)
    {
      assert n == screen;
      TableIsModifierKeys(rule.mods, h, MODIFIER_KEYS);
      assert Send(n, AsAction(h, Up)) in ups;
      assert Lifts(Send(n, AsAction(h, Up)), n, h);
    }
  }

  lemma DrainedHoldsNone(w: World, q: seq<Action>, life: Name -> nat, bad: iset<Hid>)
    requires w.core.Sound() && Lifting(w, q, bad)
    ensures forall n, h | h in bad :: h !in Drain(w, q, life, 0).SinkOf(n).heldKeys
  {
    DrainLifts(w, q, life, 0, bad);
  }

  function KeyTurn(w: World, k: KeyEvent): World
    requires w.core.Sound()
  {
    Observe(w, FromCapture(KeyChange(k), 0, n => 0)).(core := w.core.OnKey(k).0)
  }

  lemma KeyTurnIsTake(w: World, k: KeyEvent, now: nat, life: Name -> nat)
    requires w.core.Sound() && Legal(w, FromCapture(KeyChange(k), now, life))
    ensures Take(w, FromCapture(KeyChange(k), now, life)) == Drain(KeyTurn(w, k), w.core.OnKey(k).1, life, 0)
  {
  }

  /** Right after a key press fires a rule, none of the rule's modifiers is held on any client. */
  lemma FiredRuleLiftsItsModifiers(w: World, k: KeyEvent, now: nat, life: Name -> nat, rule: Rule)
    requires Safe(w) && KeysHeld(w) && Legal(w, FromCapture(KeyChange(k), now, life))
    requires Fires(w.core, k, rule) && IsExtra(rule.action)
    ensures forall n, h | h in ModifierHids(rule.mods) :: h !in Take(w, FromCapture(KeyChange(k), now, life)).SinkOf(n).heldKeys
  {
    var bad := ModifierHids(rule.mods);
    KeyTurnIsTake(w, k, now, life);
    FiredRuleLifts(w, k, rule, bad);
    SameSinks(w, KeyTurn(w, k), w.core.OnKey(k).1, bad);
    DrainedHoldsNone(KeyTurn(w, k), w.core.OnKey(k).1, life, bad);
  }

  lemma SameSinks(w: World, w': World, q: seq<Action>, bad: iset<Hid>)
    requires Lifting(w, q, bad) && w'.sinks == w.sinks
    ensures Lifting(w', q, bad)
  {
  }

  /** The active screen, turned off: to the router a disconnection, while the client is still there. */
  function TurnedOff(w: World, life: Name -> nat): World
    requires w.core.Sound() && w.core.mode.Remote?
  {
    var (c, actions) := w.core.OnHub(HubEvent.Disconnected(w.core.mode.screen));
    Drain(w.(core := c), actions, life, 0)
  }

  lemma NoLeaveIsSent(w: World, life: Name -> nat)
    requires w.core.Sound() && w.core.localMonitors != [] && w.core.mode.Remote?
    ensures TurnedOff(w, life).core.mode.Local? && TurnedOff(w, life).sinks == w.sinks
  {
    var s := w.core.mode.screen;
    var (c, actions) := w.core.OnHub(HubEvent.Disconnected(s));
    CentreForgetsMode(w.core, s);
    var w1 := w.(core := c);
    assert actions == [actions[0]] && actions[1..] == [];
    assert Drain(w1, actions, life, 0) == Drain(Do(w1, actions[0]), [], life, 0);
  }

  /** What a machine may have down, as far as the keys down and the rules fired tell. */
  ghost predicate MayHold(w: World, sink: Sink) {
    Accounted(sink) && forall h | h in sink.heldKeys :: Justified(w.core.fired, w.phys, h)
  }

  function WithSink(w: World, n: Name, sink: Sink): World {
    w.(sinks := w.sinks[n := sink])
  }

  lemma SomethingMayBeDown(w: World, p: Hid) returns (sink: Sink)
    requires p in w.phys
    ensures MayHold(w, sink) && sink.pressed != {}
  {
    var h := if p in w.core.fired then w.core.fired[p] else p;
    sink := Sink(map[h := 0], {}, {0});
    assert AccountsFor(w.core.fired, p, h) && sink.heldKeys[h] == 0;
    assert 0 in sink.heldKeys.Values;
  }

  lemma SinkMayHold(w: World, n: Name)
    requires Safe(w) && KeysHeld(w)
    ensures MayHold(w, w.SinkOf(n))
  {
    assert Accounted(RELEASED);
  }

  lemma WithSinkIsSafe(w: World, sink: Sink)
    requires Safe(w) && KeysHeld(w) && w.core.mode.Remote? && MayHold(w, sink)
    ensures var w' := WithSink(w, w.core.mode.screen, sink); Safe(w') && KeysHeld(w')
  {
  }

  lemma NothingDownHoldsNothing(w: World, sink: Sink)
    requires MayHold(w, sink)
    ensures w.phys == {} ==> sink.pressed == {}
  {
    if w.phys == {} {
      assert sink.heldKeys.Values == {};
    }
  }

  /** Turning the active screen off is no disconnection: the router takes the input back but sends no
      Leave, so whatever the screen has pressed stays pressed. What it has pressed is what the keys
      down account for, and that no key is left pressed is certain exactly if no key is down. */
  lemma TurnedOffScreenIsNotLeft(w: World, life: Name -> nat)
    requires Safe(w) && KeysHeld(w) && w.core.mode.Remote?
    ensures TurnedOff(w, life).core.mode.Local? && TurnedOff(w, life).sinks == w.sinks
    ensures MayHold(w, w.SinkOf(w.core.mode.screen))
    ensures forall sink | MayHold(w, sink) :: Safe(WithSink(w, w.core.mode.screen, sink)) && KeysHeld(WithSink(w, w.core.mode.screen, sink))
    ensures (forall sink | MayHold(w, sink) ::
               TurnedOff(WithSink(w, w.core.mode.screen, sink), life).SinkOf(w.core.mode.screen).pressed == {})
        <==> w.phys == {}
  {
    var s := w.core.mode.screen;
    NoLeaveIsSent(w, life);
    SinkMayHold(w, s);
    forall sink | MayHold(w, sink)
      ensures Safe(WithSink(w, s, sink)) && KeysHeld(WithSink(w, s, sink))
      ensures TurnedOff(WithSink(w, s, sink), life).SinkOf(s) == sink
      ensures w.phys == {} ==> sink.pressed == {}
    {
      WithSinkIsSafe(w, sink);
      NoLeaveIsSent(WithSink(w, s, sink), life);
      NothingDownHoldsNothing(w, sink);
    }
    if p :| p in w.phys {
      var sink := SomethingMayBeDown(w, p);
      assert TurnedOff(WithSink(w, s, sink), life).SinkOf(s).pressed != {};
    }
  }

  // ---- no bouncing back ---------------------------------------------------------------------------

  /** Monitors that do not overlap and are larger than the jump zone at either side. */
  ghost predicate Roomy(c: CoreState) {
    && (forall a, b | a in c.localMonitors && b in c.localMonitors && a != b :: Disjoint(a, b))
    && forall m | m in c.localMonitors :: m.w > 2 * (c.Jump() + 1) + 1 && m.h > 2 * (c.Jump() + 1) + 1
  }

  /** `p` is more than the jump zone away from every edge of monitor `m`. */
  predicate WellInside(c: CoreState, m: Rect, p: Point) {
    var inset := c.Jump() + 1;
    m.x + inset <= p.x < m.RightEdge() - inset && m.y + inset <= p.y < m.BottomEdge() - inset
  }

  lemma WellInsideIsQuiet(c: CoreState, m: Rect, p: Point, now: nat)
    requires c.Sound() && Roomy(c) && m in c.localMonitors && WellInside(c, m, p)
    ensures c.OnPointer(p, now).1 == []
  {
    var found := FirstContaining(c.localMonitors, p);
    assert m.Contains(p);
    assert found.Some? && (found.value == m || Disjoint(found.value, m));
    assert found.value == m;
    assert forall e: Edge :: !AtEdge(m, p, e, c.Jump());
  }

  lemma CentreIsWellInside(c: CoreState)
    requires c.Sound() && Roomy(c) && c.localMonitors != []
    ensures exists m :: m in c.localMonitors && WellInside(c, m, c.LocalCenter())
  {
    var home := c.HomeMonitor().value;
    assert home in c.localMonitors && home.Contains(home.Center());
    NearestPointMinimises(home.Center(), c.localMonitors);
    assert WellInside(c, home, c.LocalCenter());
  }

  lemma MoveHomeIsQuiet(c: CoreState, moved: Point, beyond: Option<(Name, Point)>, now: nat)
    requires c.Sound() && Roomy(c) && c.mode.Remote?
    requires beyond.Some? ==> Covered(beyond.value.1, c.MonitorsOf(beyond.value.0))
    ensures var (c', q) := c.MoveTo(moved, beyond);
      c'.mode.Local? ==> |q| == 3 && q[2].Capture? && q[2].cmd.Ungrab? && c'.OnPointer(q[2].cmd.warp, now).1 == []
  {
    var (c', q) := c.MoveTo(moved, beyond);
    if c'.mode.Local? {
      var m := FirstContaining(c.localMonitors, beyond.value.1).value;
      InsetClampLands(beyond.value.1, m, c.Jump() + 1);
      WellInsideIsQuiet(c', m, q[2].cmd.warp, now);
    }
  }

  lemma MotionIsMove(c: CoreState, dx: int, dy: int) returns (moved: Point, beyond: Option<(Name, Point)>)
    requires c.Sound() && c.mode.Remote? && c.MonitorsOf(c.mode.screen) != []
    ensures beyond.Some? ==> Covered(beyond.value.1, c.MonitorsOf(beyond.value.0))
    ensures c.OnMotion(dx, dy) == c.MoveTo(moved, beyond)
  {
    moved := c.Aim(dx, dy);
    beyond := c.Beyond(moved);
  }

  /** After any motion that crosses home, a pointer sample at the point the pointer is put on does
      nothing. */
  lemma CrossingHomeDoesNotBounce(c: CoreState, dx: int, dy: int, now: nat)
    requires c.Sound() && Roomy(c) && c.mode.Remote? && c.OnMotion(dx, dy).0.mode.Local?
    ensures var (c', q) := c.OnMotion(dx, dy);
      |q| == 3 && q[2].Capture? && q[2].cmd.Ungrab? && c'.OnPointer(q[2].cmd.warp, now).1 == []
  {
    var moved, beyond := MotionIsMove(c, dx, dy);
    MoveHomeIsQuiet(c, moved, beyond, now);
  }

  /** Nor does one after the hotkey, or the loss of the active screen, brought the input home. */
  lemma ReturningDoesNotBounce(c: CoreState, name: Name, now: nat)
    requires c.Sound() && Roomy(c) && c.localMonitors != [] && c.mode.Remote?
    ensures var (c', q) := c.OnHotkey();
      |q| == 2 && q[1] == Capture(Ungrab(c.LocalCenter())) && c'.OnPointer(c.LocalCenter(), now).1 == []
    ensures forall a | a in c.Disconnect(name).1 ::
      a.Capture? && a.cmd.Ungrab? && c.Disconnect(name).0.OnPointer(a.cmd.warp, now).1 == []
  {
    CentreIsWellInside(c);
    var m :| m in c.localMonitors && WellInside(c, m, c.LocalCenter());
    WellInsideIsQuiet(c.OnHotkey().0, m, c.LocalCenter(), now);
    CentreForgetsMode(c, name);
    var c' := c.Disconnect(name).0;
    CentreIsWellInside(c');
    var m' :| m' in c'.localMonitors && WellInside(c', m', c'.LocalCenter());
    WellInsideIsQuiet(c', m', c'.LocalCenter(), now);
  }
}
