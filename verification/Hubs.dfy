/** The registry of connected clients and its event log (`geserdesk-server/src/hub.rs`): what the
    router learns from the log is what the registry holds. */
module Hubs {
  import opened Wrappers
  import opened Geometry
  import opened Names
  import opened Input
  import opened Router

  /** A connected client: the monitors it last reported and its outgoing queue. */
  datatype Client = Client(monitors: seq<Rect>, outbox: seq<ServerMsg>)

  datatype HubState = HubState(clients: map<Name, Client>, disabled: set<Name>, added: seq<Name>, log: seq<HubEvent>)

  datatype HubOp =
    | Register(name: Name, monitors: seq<Rect>)
    | Unregister(name: Name)
    | SetDisabled(name: Name, off: bool)
    | SetMonitors(name: Name, monitors: seq<Rect>)
    | LoadDisabled(names: set<Name>)
    | SendTo(name: Name, msg: ServerMsg)
    | Broadcast(except: Option<Name>, msgs: seq<ServerMsg>)
    | AddScreen(name: Name)
    | Announce(ev: HubEvent)

  const NO_CLIENTS: HubState := HubState(map[], {}, [], [])

  /** The events that do not speak of a client's coming or going. */
  predicate OfTheDesk(ev: HubEvent) {
    !ev.Connected? && !ev.Disconnected?
  }

  function Logged(h: HubState, ev: HubEvent): HubState {
    h.(log := h.log + [ev])
  }

  function Queued(c: Client, msgs: seq<ServerMsg>): Client {
    c.(outbox := c.outbox + msgs)
  }

  function Apply(h: HubState, op: HubOp): HubState {
    match op
    case Register(name, monitors) =>
      if name in h.clients then h
      else
        var h' := h.(clients := h.clients[name := Client(monitors, [])]);
        if name in h.disabled then h' else Logged(h', Connected(name, monitors))
    case Unregister(name) => Logged(h.(clients := h.clients - {name}), Disconnected(name))
    case SetDisabled(name, off) =>
      if off <==> name in h.disabled then h
      else
        var h' := h.(disabled := if off then h.disabled + {name} else h.disabled - {name});
        if name !in h.clients then h'
        else Logged(h', if off then Disconnected(name) else Connected(name, h.clients[name].monitors))
    case SetMonitors(name, monitors) =>
      if name !in h.clients || h.clients[name].monitors == monitors then h
      else
        var h' := h.(clients := h.clients[name := h.clients[name].(monitors := monitors)]);
        if name in h.disabled then h' else Logged(h', Connected(name, monitors))
    case LoadDisabled(names) => h.(disabled := names)
    case SendTo(name, msg) => if name in h.clients then h.(clients := h.clients[name := Queued(h.clients[name], [msg])]) else h
    case Broadcast(except, msgs) =>
      h.(clients := map n | n in h.clients ::
        if except != Some(n) && n !in h.disabled then Queued(h.clients[n], msgs) else h.clients[n])
    case AddScreen(name) => if name in h.added then h else Logged(h.(added := h.added + [name]), ScreenAdded(name))
    case Announce(ev) => if OfTheDesk(ev) then Logged(h, ev) else h
  }

  /** The registry, updated in place. */
  class Hub {
    var clients: map<Name, Client>
    var disabled: set<Name>
    var added: seq<Name>
    var log: seq<HubEvent>

    function View(): HubState
      reads this
    {
      HubState(clients, disabled, added, log)
    }

    constructor ()
      ensures View() == NO_CLIENTS
    {
      clients, disabled, added, log := map[], {}, [], [];
    }

    method Register(name: Name, monitors: seq<Rect>) returns (ok: bool)
      modifies this
      ensures View() == Apply(old(View()), HubOp.Register(name, monitors)) && ok == (name !in old(clients))
    {
      if name in clients {
        return false;
      }
      clients := clients[name := Client(monitors, [])];
      if name !in disabled {
        log := log + [Connected(name, monitors)];
      }
      return true;
    }

    method Unregister(name: Name)
      modifies this
      ensures View() == Apply(old(View()), HubOp.Unregister(name))
    {
      clients := clients - {name};
      log := log + [Disconnected(name)];
    }

    method SetDisabled(name: Name, off: bool)
      modifies this
      ensures View() == Apply(old(View()), HubOp.SetDisabled(name, off))
    {
      var changed := off != (name in disabled);
      if off {
        disabled := disabled + {name};
      } else {
        disabled := disabled - {name};
      }
      if changed && name in clients {
        log := log + [if off then Disconnected(name) else Connected(name, clients[name].monitors)];
      }
    }

    method SetMonitors(name: Name, monitors: seq<Rect>)
      modifies this
      ensures View() == Apply(old(View()), HubOp.SetMonitors(name, monitors))
    {
      if name in clients && clients[name].monitors != monitors {
        clients := clients[name := clients[name].(monitors := monitors)];
        if name !in disabled {
          log := log + [Connected(name, monitors)];
        }
      }
    }

    method Send(name: Name, msg: ServerMsg) returns (ok: bool)
      modifies this
      ensures View() == Apply(old(View()), SendTo(name, msg)) && ok == (name in old(clients))
    {
      ok := name in clients;
      if ok {
        clients := clients[name := Queued(clients[name], [msg])];
      }
    }

    /** Every client but `except` and the ones turned off gets `msgs`, in order and with nothing
        between them; nobody else gets anything. */
    method BroadcastExcept(except: Option<Name>, msgs: seq<ServerMsg>)
      modifies this
      ensures View() == Apply(old(View()), Broadcast(except, msgs))
    {
      var left := clients.Keys;
      ghost var before := clients;
      while left != {}
        invariant left <= before.Keys == clients.Keys
        invariant forall n | n in left :: clients[n] == before[n]
        invariant forall n | n in clients && n !in left ::
          clients[n] == (if except != Some(n) && n !in disabled then Queued(before[n], msgs) else before[n])
        invariant disabled == old(disabled) && added == old(added) && log == old(log)
        decreases left
      {
        var n :| n in left;
        left := left - {n};
        if except != Some(n) && n !in disabled {
          var queued := clients[n];
          for i := 0 to |msgs|
            invariant queued == Queued(before[n], msgs[..i])
          {
            queued := Queued(queued, [msgs[i]]);
            assert msgs[..i + 1] == msgs[..i] + [msgs[i]];
          }
          assert msgs[..|msgs|] == msgs;
          clients := clients[n := queued];
        }
      }
    }

    method AddScreen(name: Name) returns (ok: bool)
      modifies this
      ensures View() == Apply(old(View()), HubOp.AddScreen(name)) && ok == (name !in old(added))
    {
      ok := name !in added;
      if ok {
        added := added + [name];
        log := log + [ScreenAdded(name)];
      }
    }
  }

  // ---- what every client is sent -------------------------------------------------------------------

  function HubRun(ops: seq<HubOp>): HubState {
    if ops == [] then NO_CLIENTS else Apply(HubRun(ops[..|ops| - 1]), ops[|ops| - 1])
  }

  predicate Opens(op: HubOp, n: Name) {
    op.Register? && op.name == n
  }

  /** The present session of `n` is the one registered by operation `i`: the first after the last end of
      one. */
  predicate IsSession(ops: seq<HubOp>, n: Name, i: int) {
    && 0 <= i < |ops| && Opens(ops[i], n)
    && (forall j | i < j < |ops| :: ops[j] != HubOp.Unregister(n))
    && forall j | 0 <= j < i && Opens(ops[j], n) :: exists k :: j < k < i && ops[k] == HubOp.Unregister(n)
  }

  /** Whether `n` is turned off: what was last said of it. */
  predicate IsOff(ops: seq<HubOp>, n: Name) {
    if ops == [] then false
    else
      match ops[|ops| - 1]
      case SetDisabled(name, off) => if name == n then off else IsOff(ops[..|ops| - 1], n)
      case LoadDisabled(names) => n in names
      case _ => IsOff(ops[..|ops| - 1], n)
  }

  /** What is meant for `n` of the operations after `i`, in order: what is sent to it, and what is sent to all
      unless it is the exception or turned off. */
  function MeantFor(ops: seq<HubOp>, n: Name, i: nat): seq<ServerMsg> {
    if |ops| <= i + 1 then []
    else
      var front := ops[..|ops| - 1];
      MeantFor(front, n, i) +
      match ops[|ops| - 1]
      case SendTo(name, msg) => if name == n then [msg] else []
      case Broadcast(except, msgs) => if except == Some(n) || IsOff(front, n) then [] else msgs
      case _ => []
  }

  /** The monitors last reported for the session that operation `i` registered. */
  function Reported(ops: seq<HubOp>, n: Name, i: nat): seq<Rect>
    requires i < |ops| && Opens(ops[i], n)
  {
    var last := ops[|ops| - 1];
    if |ops| == i + 1 then last.monitors
    else if last.SetMonitors? && last.name == n then last.monitors
    else Reported(ops[..|ops| - 1], n, i)
  }

  lemma {:induction false} OffIsDisabled(ops: seq<HubOp>, n: Name)
    ensures n in HubRun(ops).disabled <==> IsOff(ops, n)
  {
    if ops != [] {
      OffIsDisabled(ops[..|ops| - 1], n);
    }
  }

  lemma {:induction false} PresentHasSession(ops: seq<HubOp>, n: Name)
    requires n in HubRun(ops).clients
    ensures exists i :: IsSession(ops, n, i)
  {
    var last := |ops| - 1;
    var front := ops[..last];
    if n in HubRun(front).clients {
      PresentHasSession(front, n);
      var i :| IsSession(front, n, i);
      SessionGoesOn(ops, n, i);
    } else {
      forall j | 0 <= j < last && Opens(ops[j], n) ensures exists k :: j < k < last && ops[k] == HubOp.Unregister(n) {
        EndedBetween(front, n, j);
      }
      assert IsSession(ops, n, last);
    }
  }

  lemma SessionGoesOn(ops: seq<HubOp>, n: Name, i: int)
    requires ops != [] && IsSession(ops[..|ops| - 1], n, i) && ops[|ops| - 1] != HubOp.Unregister(n)
    ensures IsSession(ops, n, i)
  {
    var front := ops[..|ops| - 1];
    forall j | 0 <= j < i && Opens(ops[j], n) ensures exists k :: j < k < i && ops[k] == HubOp.Unregister(n) {
      assert Opens(front[j], n);
      var k :| j < k < i && front[k] == HubOp.Unregister(n);
      assert ops[k] == HubOp.Unregister(n);
    }
  }

  /** Once `n` was registered and is not there any more, a session of it ended since. */
  lemma {:induction false} EndedBetween(ops: seq<HubOp>, n: Name, j: int)
    requires 0 <= j < |ops| && Opens(ops[j], n) && n !in HubRun(ops).clients
    ensures exists k :: j < k < |ops| && ops[k] == HubOp.Unregister(n)
  {
    var last := |ops| - 1;
    if ops[last] != HubOp.Unregister(n) {
      assert n !in HubRun(ops[..last]).clients && j < last;
      EndedBetween(ops[..last], n, j);
    }
  }

  lemma SessionWentOn(ops: seq<HubOp>, n: Name, i: int)
    requires IsSession(ops, n, i) && i < |ops| - 1
    ensures IsSession(ops[..|ops| - 1], n, i)
  {
    var front := ops[..|ops| - 1];
    forall j | 0 <= j < i && Opens(front[j], n) ensures exists k :: j < k < i && front[k] == HubOp.Unregister(n) {
      assert Opens(ops[j], n);
      var k :| j < k < i && ops[k] == HubOp.Unregister(n);
      assert front[k] == HubOp.Unregister(n);
    }
  }

  /** Over every run of the registry: a client is there exactly while a session of its name is open, and its
      queue holds exactly what was meant for it since that session began, in order and nothing else; its
      monitors are the ones it last reported. */
  lemma {:induction false} OutboxIsWhatWasMeant(ops: seq<HubOp>, n: Name, i: int)
    requires IsSession(ops, n, i)
    ensures var clients := HubRun(ops).clients;
      n in clients && clients[n] == Client(Reported(ops, n, i), MeantFor(ops, n, i))
  {
    var last := |ops| - 1;
    var front := ops[..last];
    if i < last {
      SessionWentOn(ops, n, i);
      OutboxIsWhatWasMeant(front, n, i);
      OffIsDisabled(front, n);
      OneOperation(HubRun(front), ops[last], n);
    } else {
      forall j | 0 <= j < last ensures !IsSession(front, n, j) {
        if Opens(ops[j], n) {
          var k :| j < k < last && ops[k] == HubOp.Unregister(n);
          assert front[k] == HubOp.Unregister(n);
        }
      }
      if n in HubRun(front).clients {
        PresentHasSession(front, n);
      }
    }
  }

  lemma OneOperation(h: HubState, op: HubOp, n: Name)
    requires n in h.clients && op != HubOp.Unregister(n)
    ensures var c, clients := h.clients[n], Apply(h, op).clients;
      && n in clients
      && clients[n].monitors == (if op.SetMonitors? && op.name == n then op.monitors else c.monitors)
      && clients[n].outbox == c.outbox +
         match op
         case SendTo(name, msg) => if name == n then [msg] else []
         case Broadcast(except, msgs) => if except == Some(n) || n in h.disabled then [] else msgs
         case _ => []
  {
    var outbox := h.clients[n].outbox;
    assert outbox + [] == outbox;
  }

  // ---- the news of the desk --------------------------------------------------------------------------

  /** The events of a log that speak of the desk, in order. */
  function OfDesk(log: seq<HubEvent>): seq<HubEvent> {
    if log == [] then [] else OfDesk(log[..|log| - 1]) + (if OfTheDesk(log[|log| - 1]) then [log[|log| - 1]] else [])
  }

  /** What there is to tell of the desk: each announcement, and each screen the first time it is added. */
  function News(ops: seq<HubOp>): seq<HubEvent> {
    if ops == [] then []
    else
      var front := ops[..|ops| - 1];
      News(front) +
      match ops[|ops| - 1]
      case AddScreen(name) => if HubOp.AddScreen(name) in front then [] else [ScreenAdded(name)]
      case Announce(ev) => if OfTheDesk(ev) then [ev] else []
      case _ => []
  }

  lemma {:induction false} AddedWereAdded(ops: seq<HubOp>, name: Name)
    ensures name in HubRun(ops).added <==> HubOp.AddScreen(name) in ops
  {
    if ops != [] {
      AddedWereAdded(ops[..|ops| - 1], name);
      assert ops == ops[..|ops| - 1] + [ops[|ops| - 1]];
    }
  }

  /** Over every run: the log tells the news of the desk, each once and in order. */
  lemma {:induction false} NewsIsTold(ops: seq<HubOp>)
    ensures OfDesk(HubRun(ops).log) == News(ops)
  {
    if ops != [] {
      var front, op := ops[..|ops| - 1], ops[|ops| - 1];
      NewsIsTold(front);
      if op.AddScreen? {
        AddedWereAdded(front, op.name);
      }
      OneNews(HubRun(front), op);
    }
  }

  lemma OneNews(h: HubState, op: HubOp)
    ensures OfDesk(Apply(h, op).log) == OfDesk(h.log) +
      match op
      case AddScreen(name) => if name in h.added then [] else [ScreenAdded(name)]
      case Announce(ev) => if OfTheDesk(ev) then [ev] else []
      case _ => []
  {
    var log, log' := h.log, Apply(h, op).log;
    LogGrows(h, op);
    if log' != log {
      assert log'[..|log|] == log;
    }
    assert OfDesk(log) + [] == OfDesk(log);
  }

  // ---- the replica ------------------------------------------------------------------------------

  type Roster = map<Name, seq<Rect>>

  function Learn(r: Roster, ev: HubEvent): Roster {
    match ev
    case Connected(name, monitors) => r[name := monitors]
    case Disconnected(name) => r - {name}
    case _ => r
  }

  function Replay(r: Roster, log: seq<HubEvent>): Roster {
    if log == [] then r else Learn(Replay(r, log[..|log| - 1]), log[|log| - 1])
  }

  lemma ReplayOne(r: Roster, log: seq<HubEvent>, ev: HubEvent)
    ensures Replay(r, log + [ev]) == Learn(Replay(r, log), ev)
  {
    assert (log + [ev])[..|log|] == log;
  }

  lemma {:induction false} ReplayFirst(r: Roster, log: seq<HubEvent>)
    requires log != []
    ensures Replay(r, log) == Replay(Learn(r, log[0]), log[1..])
  {
    var n := |log| - 1;
    if n > 0 {
      ReplayFirst(r, log[..n]);
      assert log[..n][1..] == log[1..][..n - 1];
    }
  }

  /** The connected clients that are not turned off, with the monitors they last reported. */
  function Visible(h: HubState): Roster {
    map n | n in h.clients && n !in h.disabled :: h.clients[n].monitors
  }

  /** Loading the turned-off screens says nothing to the router, so it comes before any client. */
  predicate Allowed(h: HubState, op: HubOp) {
    op.LoadDisabled? ==> h.clients == map[]
  }

  /** One operation keeps the log a replica; for `LoadDisabled` exactly when every connected
      client is turned off or on as before. */
  lemma ApplyKeepsReplica(h: HubState, op: HubOp)
    requires Replay(map[], h.log) == Visible(h)
    ensures Replay(map[], Apply(h, op).log) == Visible(Apply(h, op))
        <==> (op.LoadDisabled? ==> forall n | n in h.clients :: n in op.names <==> n in h.disabled)
  {
    var h' := Apply(h, op);
    if |h'.log| != |h.log| {
      var ev := LoggedIsSeen(h, op);
      ReplayOne(map[], h.log, ev);
    } else if op.LoadDisabled? {
      LoadingIsSeen(h, op.names);
    } else {
      UnloggedIsUnseen(h, op);
    }
  }

  /** The end of a session is always told; of the rest only what changes the visible clients, so a report
      of the same monitors is not. */
  lemma OnlyChangesAreTold(h: HubState, op: HubOp)
    requires !op.LoadDisabled? && !op.AddScreen? && !op.Announce?
    ensures Apply(h, op).log != h.log <==> op.Unregister? || Visible(Apply(h, op)) != Visible(h)
  {
    var h' := Apply(h, op);
    if h'.log != h.log && !op.Unregister? {
      assert op.name in Visible(h') + Visible(h);
    }
  }

  lemma LoggedIsSeen(h: HubState, op: HubOp) returns (ev: HubEvent)
    requires |Apply(h, op).log| != |h.log|
    ensures !op.LoadDisabled? && Apply(h, op).log == h.log + [ev] && Learn(Visible(h), ev) == Visible(Apply(h, op))
  {
    ev := Apply(h, op).log[|h.log|];
  }

  lemma UnloggedIsUnseen(h: HubState, op: HubOp)
    requires |Apply(h, op).log| == |h.log| && !op.LoadDisabled?
    ensures Apply(h, op).log == h.log && Visible(Apply(h, op)) == Visible(h)
  {
  }

  lemma LoadingIsSeen(h: HubState, names: set<Name>)
    ensures Visible(h.(disabled := names)) == Visible(h) <==> forall n | n in h.clients :: n in names <==> n in h.disabled
  {
    if n :| n in h.clients && (n in names) != (n in h.disabled) {
      assert (n in Visible(h)) != (n in Visible(h.(disabled := names)));
    }
  }

  // ---- the router's copy, with failed sends -------------------------------------------------------

  /** The hub, how much of its log the router has taken in, and whom the router believes connected. */
  datatype Copy = Copy(hub: HubState, taken: nat, connected: Roster)

  datatype CopyStep =
    | Operate(op: HubOp)
    | TakeEvent
    | SendFails(name: Name)

  /** A send fails only to a client that is not registered; the router forgets it at once. */
  function CopyNext(s: Copy, step: CopyStep): Copy {
    match step
    case Operate(op) => if Allowed(s.hub, op) then s.(hub := Apply(s.hub, op)) else s
    case TakeEvent =>
      if s.taken < |s.hub.log| then s.(taken := s.taken + 1, connected := Learn(s.connected, s.hub.log[s.taken])) else s
    case SendFails(name) => if name !in s.hub.clients then s.(connected := s.connected - {name}) else s
  }

  function CopyRun(steps: seq<CopyStep>): Copy {
    if steps == [] then Copy(NO_CLIENTS, 0, map[])
    else CopyNext(CopyRun(steps[..|steps| - 1]), steps[|steps| - 1])
  }

  predicate CaughtUp(s: Copy) {
    && s.taken <= |s.hub.log|
    && Replay(map[], s.hub.log) == Visible(s.hub)
    && Replay(s.connected, s.hub.log[s.taken..]) == Visible(s.hub)
  }

  /** Forgetting a name first changes nothing once the events are in, if they end without it. */
  lemma {:induction false} ForgettingFirst(r: Roster, log: seq<HubEvent>, name: Name)
    requires name !in Replay(r, log)
    ensures Replay(r - {name}, log) == Replay(r, log)
  {
    ReplayForgets(r, log, name);
  }

  lemma {:induction false} ReplayForgets(r: Roster, log: seq<HubEvent>, name: Name)
    ensures Replay(r - {name}, log) == Replay(r, log) || Replay(r - {name}, log) == Replay(r, log) - {name}
  {
    if log != [] {
      ReplayForgets(r, log[..|log| - 1], name);
    }
  }

  /** Every step keeps the router's copy on its way to what the hub holds. */
  lemma StepKeepsCopy(s: Copy, step: CopyStep)
    requires CaughtUp(s)
    ensures CaughtUp(CopyNext(s, step))
  {
    match step {
      case Operate(op) =>
        if Allowed(s.hub, op) {
          OperateKeepsCopy(s, op);
        }
      case TakeEvent =>
        if s.taken < |s.hub.log| {
          ReplayFirst(s.connected, s.hub.log[s.taken..]);
          assert s.hub.log[s.taken..][1..] == s.hub.log[s.taken + 1..];
        }
      case SendFails(name) =>
        if name !in s.hub.clients {
          ForgettingFirst(s.connected, s.hub.log[s.taken..], name);
        }
    }
  }

  /** Whatever the hub does, whenever the router takes events in, and whichever sends fail first:
      once the log is taken in, the router's connected clients are the hub's visible ones. */
  lemma {:induction false} RouterCopyIsFaithful(steps: seq<CopyStep>)
    ensures CaughtUp(CopyRun(steps))
    ensures var s := CopyRun(steps); s.taken == |s.hub.log| ==> s.connected == Visible(s.hub)
  {
    if steps != [] {
      RouterCopyIsFaithful(steps[..|steps| - 1]);
      StepKeepsCopy(CopyRun(steps[..|steps| - 1]), steps[|steps| - 1]);
    }
    if CopyRun(steps).taken == |CopyRun(steps).hub.log| {
      TakenMeansFaithful(CopyRun(steps));
    }
  }

  lemma TakenMeansFaithful(s: Copy)
    requires CaughtUp(s) && s.taken == |s.hub.log|
    ensures s.connected == Visible(s.hub)
  {
    assert s.hub.log[s.taken..] == [];
  }

  lemma OperateKeepsCopy(s: Copy, op: HubOp)
    requires CaughtUp(s) && Allowed(s.hub, op)
    ensures CaughtUp(s.(hub := Apply(s.hub, op)))
  {
    var log, log' := s.hub.log, Apply(s.hub, op).log;
    ApplyKeepsReplica(s.hub, op);
    LogGrows(s.hub, op);
    if log' != log {
      AppendedReplay(s.connected, log, s.taken, log'[|log|]);
    }
  }

  lemma LogGrows(h: HubState, op: HubOp)
    ensures var h' := Apply(h, op); h'.log == h.log || h'.log == h.log + [h'.log[|h.log|]]
  {
  }

  lemma AppendedReplay(r: Roster, log: seq<HubEvent>, taken: nat, ev: HubEvent)
    requires taken <= |log| && Replay(r, log[taken..]) == Replay(map[], log)
    ensures Replay(r, (log + [ev])[taken..]) == Replay(map[], log + [ev])
  {
    ReplayOne(map[], log, ev);
    ReplayOne(r, log[taken..], ev);
    assert (log + [ev])[taken..] == log[taken..] + [ev];
  }

  /** The router's step on an event of the log is this one: the two models agree. */
  lemma RouterLearns(c: CoreState, ev: HubEvent)
    requires c.Sound()
    ensures c.OnHub(ev).0.connected == Learn(c.connected, ev)
  {
    match ev
    case LocalMonitors(monitors) => assert c.OnHub(ev).0 == c.SetLocalMonitors(monitors);
    case _ =>
  }
}
