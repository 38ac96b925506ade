/** When a cursor at a screen edge switches screens (`SwitchState` in
    `geserdesk-server/src/layout.rs`): dwell time and double tap, over whole runs. */
module Switching {
  import opened Wrappers
  import opened Geometry

  datatype SwitchPolicy = SwitchPolicy(delayMs: nat, doubleTapMs: nat, cornerSize: int, jumpZone: int, scrollLockLocks: bool)

  datatype Decision = Switch | Wait | Blocked

  /** An edge and when it was touched. */
  datatype Touch = Touch(edge: Edge, at: nat)

  datatype Switcher = Switcher(locked: bool, dwell: Option<Touch>, lastTap: Option<Touch>)

  const FRESH: Switcher := Switcher(false, None, None)

  /** `u64::saturating_sub`. */
  function Since(now: nat, then_: nat): nat {
    if now >= then_ then now - then_ else 0
  }

  function LeftEdge(s: Switcher): Switcher {
    s.(dwell := None)
  }

  function Switched(s: Switcher): Switcher {
    s.(dwell := None, lastTap := None)
  }

  predicate SecondTap(s: Switcher, p: SwitchPolicy, now: nat, edge: Edge) {
    s.lastTap.Some? && s.lastTap.value.edge == edge && Since(now, s.lastTap.value.at) <= p.doubleTapMs
  }

  function Evaluate(s: Switcher, p: SwitchPolicy, now: nat, edge: Edge, hasNeighbor: bool, inCorner: bool): (Switcher,
          Decision) {
    if !hasNeighbor || !inCorner || (s.locked && p.scrollLockLocks) then (LeftEdge(s), Blocked)
    else
      var tapped := if p.doubleTapMs > 0 then s.(lastTap := Some(Touch(edge, now))) else s;
      if p.doubleTapMs > 0 && !SecondTap(s, p, now, edge) then (tapped, Wait)
      else if p.delayMs == 0 then (Switched(tapped), Switch)
      else if s.dwell.Some? && s.dwell.value.edge == edge then
        if Since(now, s.dwell.value.at) >= p.delayMs then (Switched(tapped), Switch) else (tapped, Wait)
      else (tapped.(dwell := Some(Touch(edge, now))), Wait)
  }

  /** The state machine as the source has it: one object, updated in place. */
  class SwitchState {
    var locked: bool
    var dwell: Option<Touch>
    var lastTap: Option<Touch>

    function View(): Switcher
      reads this
    {
      Switcher(locked, dwell, lastTap)
    }

    constructor ()
      ensures View() == FRESH
    {
      locked, dwell, lastTap := false, None, None;
    }

    method ToggleLock()
      modifies this
      ensures View() == Switcher(!old(locked), None, old(lastTap))
    {
      locked := !locked;
      dwell := None;
    }

    method SetLocked(on: bool)
      modifies this
      ensures View() == Switcher(on, if on then None else old(dwell), old(lastTap))
    {
      locked := on;
      if on {
        dwell := None;
      }
    }

    method OnLeftEdge()
      modifies this
      ensures View() == LeftEdge(old(View()))
    {
      dwell := None;
    }

    method OnSwitched()
      modifies this
      ensures View() == Switched(old(View()))
    {
      dwell := None;
      lastTap := None;
    }

    method Decide(policy: SwitchPolicy, now: nat, edge: Edge, hasNeighbor: bool, inCorner: bool) returns (d: Decision)
      modifies this
      ensures (View(), d) == Evaluate(old(View()), policy, now, edge, hasNeighbor, inCorner)
    {
      if !hasNeighbor || !inCorner {
        dwell := None;
        return Blocked;
      }
      if locked && policy.scrollLockLocks {
        dwell := None;
        return Blocked;
      }
      if policy.doubleTapMs > 0 {
        var second := lastTap.Some? && lastTap.value.edge == edge && Since(now, lastTap.value.at) <= policy.doubleTapMs;
        lastTap := Some(Touch(edge, now));
        if !second {
          return Wait;
        }
      }
      if policy.delayMs > 0 {
        if dwell.Some? && dwell.value.edge == edge {
          if Since(now, dwell.value.at) >= policy.delayMs {
            OnSwitched();
            return Switch;
          }
          return Wait;
        }
        dwell := Some(Touch(edge, now));
        return Wait;
      }
      OnSwitched();
      return Switch;
    }
  }

  // ---- runs ------------------------------------------------------------------------

  datatype Step =
    | Sample(now: nat, edge: Edge, hasNeighbor: bool, inCorner: bool)
    | Left
    | Done
    | Toggle
    | Lock(on: bool)

  function Act(s: Switcher, p: SwitchPolicy, step: Step): Switcher {
    match step
    case Sample(now, edge, n, c) => Evaluate(s, p, now, edge, n, c).0
    case Left => LeftEdge(s)
    case Done => Switched(s)
    case Toggle => Switcher(!s.locked, None, s.lastTap)
    case Lock(on) => Switcher(on, if on then None else s.dwell, s.lastTap)
  }

  function Run(p: SwitchPolicy, steps: seq<Step>): Switcher {
    if steps == [] then FRESH
    else Act(Run(p, steps[..|steps| - 1]), p, steps[|steps| - 1])
  }

  /** What one step decided; only samples decide anything. */
  function DecisionOf(s: Switcher, p: SwitchPolicy, step: Step): Option<Decision> {
    match step
    case Sample(now, edge, n, c) => Some(Evaluate(s, p, now, edge, n, c).1)
    case _ => None
  }

  /** The decisions of a run, step by step. */
  function Decisions(p: SwitchPolicy, steps: seq<Step>): (ds: seq<Option<Decision>>)
    ensures |ds| == |steps|
  {
    if steps == [] then []
    else
      var front := steps[..|steps| - 1];
      Decisions(p, front) + [DecisionOf(Run(p, front), p, steps[|steps| - 1])]
  }

  /** Step `i` is a sample on `e` that nothing blocked and that did not switch. */
  predicate Waits(steps: seq<Step>, ds: seq<Option<Decision>>, i: int, e: Edge)
    requires |ds| == |steps|
  {
    0 <= i < |steps| && steps[i].Sample? && steps[i].edge == e && ds[i] == Some(Wait)
  }

  /** The cursor has waited on `e` without a break from step `i` to the end of the run. */
  predicate UnbrokenFrom(steps: seq<Step>, ds: seq<Option<Decision>>, i: int, e: Edge)
    requires |ds| == |steps|
  {
    && Waits(steps, ds, i, e)
    && forall k :: i <= k < |steps| ==> Waits(steps, ds, k, e) || steps[k] == Lock(false)
  }

  /** The last sample that waited was on `e` at step `i`, and no switch came after it. */
  predicate LastWait(steps: seq<Step>, ds: seq<Option<Decision>>, i: int, e: Edge)
    requires |ds| == |steps|
  {
    && Waits(steps, ds, i, e)
    && forall k :: i < k < |steps| ==> steps[k] != Done && (steps[k].Sample? ==> ds[k] == Some(Blocked))
  }

  predicate Clocked(steps: seq<Step>) {
    forall i, j :: 0 <= i < j < |steps| && steps[i].Sample? && steps[j].Sample? ==> steps[i].now <= steps[j].now
  }

  // ---- blocked samples -------------------------------------------------------------

  function Toggles(steps: seq<Step>): nat {
    if steps == [] then 0 else Toggles(steps[..|steps| - 1]) + (if steps[|steps| - 1].Toggle? then 1 else 0)
  }

  /** Scroll Lock was last set just before step `i`, to `on`; a fresh state is set to off. */
  predicate LastSet(steps: seq<Step>, i: int, on: bool) {
    && 0 <= i <= |steps| && (if i == 0 then !on else steps[i - 1] == Lock(on))
    && forall k | i <= k < |steps| :: !steps[k].Lock?
  }

  /** Scroll Lock is on after these steps: it was last set to on and toggled an even number of times
      since, or to off and an odd number of times. */
  ghost predicate LockOn(steps: seq<Step>) {
    exists i, on :: LastSet(steps, i, on) && (on <==> Toggles(steps[i..]) % 2 == 0)
  }

  lemma {:induction false} LockedSince(p: SwitchPolicy, steps: seq<Step>, i: int, on: bool)
    requires LastSet(steps, i, on)
    ensures Run(p, steps).locked <==> (on <==> Toggles(steps[i..]) % 2 == 0)
  {
    if i < |steps| {
      var front := steps[..|steps| - 1];
      assert LastSet(front, i, on);
      LockedSince(p, front, i, on);
      assert steps[i..][..|steps| - i - 1] == front[i..];
    }
  }

  lemma {:induction false} SomeLastSet(steps: seq<Step>) returns (i: int, on: bool)
    ensures LastSet(steps, i, on)
  {
    i, on := |steps|, false;
    if steps != [] {
      var last := steps[|steps| - 1];
      if last.Lock? {
        on := last.on;
      } else {
        i, on := SomeLastSet(steps[..|steps| - 1]);
      }
    }
  }

  lemma LockedExactly(p: SwitchPolicy, steps: seq<Step>)
    ensures Run(p, steps).locked <==> LockOn(steps)
  {
    var i, on := SomeLastSet(steps);
    LockedSince(p, steps, i, on);
    if j, off :| LastSet(steps, j, off) && (off <==> Toggles(steps[j..]) % 2 == 0) {
      LockedSince(p, steps, j, off);
    }
  }

  /** Nothing forbids a sample to switch: there is a machine beyond, the cursor is where the corner
      constraint wants it, and Scroll Lock does not hold it. */
  ghost predicate Free(p: SwitchPolicy, steps: seq<Step>, hasNeighbor: bool, inCorner: bool) {
    hasNeighbor && inCorner && !(p.scrollLockLocks && LockOn(steps))
  }

  /** After every run: a sample is blocked exactly if something forbids it. */
  lemma BlockedExactly(p: SwitchPolicy, steps: seq<Step>, now: nat, e: Edge, hasNeighbor: bool, inCorner: bool)
    ensures Evaluate(Run(p, steps), p, now, e, hasNeighbor, inCorner).1 == Blocked <==> !Free(p, steps, hasNeighbor, inCorner)
  {
    LockedExactly(p, steps);
  }

  /** A blocked sample of a run ends every dwell: no wait after it is unbroken from before it. */
  lemma BlockedBreaksTheWait(p: SwitchPolicy, steps: seq<Step>, k: int, i: int, e: Edge)
    requires 0 <= k < |steps| && steps[k].Sample? && !Free(p, steps[..k], steps[k].hasNeighbor, steps[k].inCorner)
    ensures i <= k ==> !UnbrokenFrom(steps, Decisions(p, steps), i, e) && !DwellFrom(p, steps, i, e)
  {
    BlockedExactly(p, steps[..k], steps[k].now, steps[k].edge, steps[k].hasNeighbor, steps[k].inCorner);
    DecidedAt(p, steps, k);
    assert !GoesOn(p, steps, k, e) && !Waits(steps, Decisions(p, steps), k, e);
  }

  lemma {:induction false} DecidedAt(p: SwitchPolicy, steps: seq<Step>, k: int)
    requires 0 <= k < |steps|
    ensures Decisions(p, steps)[k] == DecisionOf(Run(p, steps[..k]), p, steps[k])
  {
    if k < |steps| - 1 {
      var front := steps[..|steps| - 1];
      DecidedAt(p, front, k);
      assert front[..k] == steps[..k];
    }
  }

  /** With neither gate on, a sample switches at once unless it is blocked. */
  lemma NoGateSwitchesExactly(p: SwitchPolicy, steps: seq<Step>, now: nat, e: Edge, hasNeighbor: bool, inCorner: bool)
    requires p.delayMs == 0 && p.doubleTapMs == 0
    ensures Evaluate(Run(p, steps), p, now, e, hasNeighbor, inCorner).1 == Switch <==> Free(p, steps, hasNeighbor, inCorner)
  {
    LockedExactly(p, steps);
  }

  // ---- one gate --------------------------------------------------------------------

  /** With the dwell gate alone, a dwell in progress is where an unbroken wait began. */
  lemma {:induction false} DwellIsUnbrokenWait(p: SwitchPolicy, steps: seq<Step>) returns (i: int)
    requires p.delayMs > 0 && p.doubleTapMs == 0 && Run(p, steps).dwell.Some?
    ensures UnbrokenFrom(steps, Decisions(p, steps), i, Run(p, steps).dwell.value.edge)
    ensures steps[i].now == Run(p, steps).dwell.value.at
  {
    i := |steps| - 1;
    if Run(p, steps[..i]).dwell == Run(p, steps).dwell {
      i := DwellIsUnbrokenWait(p, steps[..i]);
    }
  }

  /** ... and an unbroken wait is a dwell in progress, begun no later. */
  lemma {:induction false} UnbrokenWaitIsDwell(p: SwitchPolicy, steps: seq<Step>, i: int, e: Edge)
    requires p.delayMs > 0 && p.doubleTapMs == 0 && Clocked(steps)
    requires UnbrokenFrom(steps, Decisions(p, steps), i, e)
    ensures var d := Run(p, steps).dwell; d.Some? && d.value.edge == e && d.value.at <= steps[i].now
  {
    var n := |steps| - 1;
    var front := steps[..n];
    if i < n {
      assert Waits(front, Decisions(p, front), i, e);
      assert forall k | i <= k < n :: front[k] == steps[k];
      assert forall k | i <= k < n :: Waits(steps, Decisions(p, steps), k, e) ==> Waits(front, Decisions(p, front), k, e);
      UnbrokenWaitIsDwell(p, front, i, e);
      assert Waits(steps, Decisions(p, steps), n, e) || steps[n] == Lock(false);
    } else if Run(p, front).dwell.Some? {
      var j := DwellIsUnbrokenWait(p, front);
      assert steps[j].now <= steps[n].now;
    }
  }

  /** With the dwell gate alone, a sample on `e` switches iff it is not blocked and the cursor has
      waited on `e` without a break since at least `delay` before it. */
  lemma DwellSwitchesExactly(p: SwitchPolicy, steps: seq<Step>, now: nat, e: Edge, hasNeighbor: bool, inCorner: bool)
    requires p.delayMs > 0 && p.doubleTapMs == 0
    requires Clocked(steps + [Sample(now, e, hasNeighbor, inCorner)])
    ensures Evaluate(Run(p, steps), p, now, e, hasNeighbor, inCorner).1 == Switch
        <==> Free(p, steps, hasNeighbor, inCorner)
             && exists i :: UnbrokenFrom(steps, Decisions(p, steps), i, e) && steps[i].now + p.delayMs <= now
  {
    var all := steps + [Sample(now, e, hasNeighbor, inCorner)];
    LockedExactly(p, steps);
    assert forall i | 0 <= i < |steps| :: all[i] == steps[i];
    assert Clocked(steps);
    if Run(p, steps).dwell.Some? {
      var i := DwellIsUnbrokenWait(p, steps);
      assert all[i].now <= all[|steps|].now;
    }
    forall i | UnbrokenFrom(steps, Decisions(p, steps), i, e) && steps[i].now + p.delayMs <= now
      ensures Free(p, steps, hasNeighbor, inCorner) ==> Evaluate(Run(p, steps), p, now, e, hasNeighbor, inCorner).1 == Switch
    {
      UnbrokenWaitIsDwell(p, steps, i, e);
    }
  }

  /** With the double-tap gate on, the tap remembered is the last wait since a switch. */
  lemma {:induction false} TapIsLastWait(p: SwitchPolicy, steps: seq<Step>) returns (i: int)
    requires p.doubleTapMs > 0 && Run(p, steps).lastTap.Some?
    ensures LastWait(steps, Decisions(p, steps), i, Run(p, steps).lastTap.value.edge)
    ensures steps[i].now == Run(p, steps).lastTap.value.at
  {
    i := |steps| - 1;
    if Decisions(p, steps)[i] != Some(Wait) {
      i := TapIsLastWait(p, steps[..i]);
    }
  }

  lemma {:induction false} LastWaitIsTap(p: SwitchPolicy, steps: seq<Step>, i: int, e: Edge)
    requires p.doubleTapMs > 0
    requires LastWait(steps, Decisions(p, steps), i, e)
    ensures Run(p, steps).lastTap == Some(Touch(e, steps[i].now))
  {
    var n := |steps| - 1;
    var front := steps[..n];
    if i < n {
      assert Waits(front, Decisions(p, front), i, e);
      assert forall k | i < k < n :: front[k] == steps[k] && Decisions(p, front)[k] == Decisions(p, steps)[k];
      LastWaitIsTap(p, front, i, e);
    }
  }

  /** The tap gate opens for a sample on `e` iff the last unblocked sample since a switch was on `e`
      too, at most the window before it. */
  lemma SecondTapExactly(p: SwitchPolicy, steps: seq<Step>, now: nat, e: Edge, hasNeighbor: bool, inCorner: bool)
    requires p.doubleTapMs > 0 && Clocked(steps + [Sample(now, e, hasNeighbor, inCorner)])
    ensures SecondTap(Run(p, steps), p, now, e)
        <==> exists i :: LastWait(steps, Decisions(p, steps), i, e) && now <= steps[i].now + p.doubleTapMs
  {
    var all := steps + [Sample(now, e, hasNeighbor, inCorner)];
    if Run(p, steps).lastTap.Some? {
      var i := TapIsLastWait(p, steps);
      assert all[i].now <= all[|steps|].now;
    }
    forall i | LastWait(steps, Decisions(p, steps), i, e) && now <= steps[i].now + p.doubleTapMs
      ensures SecondTap(Run(p, steps), p, now, e)
    {
      LastWaitIsTap(p, steps, i, e);
    }
  }

  /** With the double-tap gate alone, a sample on `e` switches iff it is not blocked and the last
      unblocked sample since a switch was on `e` too, at most the window before it. */
  lemma DoubleTapSwitchesExactly(p: SwitchPolicy, steps: seq<Step>, now: nat, e: Edge, hasNeighbor: bool, inCorner: bool)
    requires p.delayMs == 0 && p.doubleTapMs > 0
    requires Clocked(steps + [Sample(now, e, hasNeighbor, inCorner)])
    ensures Evaluate(Run(p, steps), p, now, e, hasNeighbor, inCorner).1 == Switch
        <==> Free(p, steps, hasNeighbor, inCorner)
             && exists i :: LastWait(steps, Decisions(p, steps), i, e) && now <= steps[i].now + p.doubleTapMs
  {
    LockedExactly(p, steps);
    SecondTapExactly(p, steps, now, e, hasNeighbor, inCorner);
  }

  // ---- both gates ------------------------------------------------------------------

  /** Step `k` is a sample for which the tap gate is open. */
  predicate TappedTwice(p: SwitchPolicy, steps: seq<Step>, k: int) {
    0 <= k < |steps| && steps[k].Sample? && SecondTap(Run(p, steps[..k]), p, steps[k].now, steps[k].edge)
  }

  /** A second tap on `e` waited at step `i`, and since then there were only waits, none of them a
      second tap on another edge. */
  predicate DwellFrom(p: SwitchPolicy, steps: seq<Step>, i: int, e: Edge) {
    && Waits(steps, Decisions(p, steps), i, e) && TappedTwice(p, steps, i)
    && forall k :: i < k < |steps| ==> GoesOn(p, steps, k, e)
  }

  /** What the last step of a run does not touch: the steps, decisions and taps before it. */
  lemma FrontIsSame(p: SwitchPolicy, steps: seq<Step>, k: int)
    requires 0 <= k < |steps| - 1
    ensures var front := steps[..|steps| - 1];
      && front[k] == steps[k] && Decisions(p, front)[k] == Decisions(p, steps)[k]
      && (TappedTwice(p, front, k) <==> TappedTwice(p, steps, k))
  {
    assert steps[..|steps| - 1][..k] == steps[..k];
  }

  predicate GoesOn(p: SwitchPolicy, steps: seq<Step>, k: int, e: Edge)
    requires 0 <= k < |steps|
  {
    steps[k] == Lock(false)
    || (steps[k].Sample? && Decisions(p, steps)[k] == Some(Wait) && (steps[k].edge == e || !TappedTwice(p, steps, k)))
  }

  /** A dwell of the run without its last step is one of the run, if the last step does not end it. */
  lemma DwellGoesOn(p: SwitchPolicy, steps: seq<Step>, i: int, e: Edge)
    requires steps != [] && DwellFrom(p, steps[..|steps| - 1], i, e) && GoesOn(p, steps, |steps| - 1, e)
    ensures DwellFrom(p, steps, i, e)
  {
    FrontIsSame(p, steps, i);
    forall k | i < k < |steps| ensures GoesOn(p, steps, k, e) {
      if k < |steps| - 1 {
        FrontIsSame(p, steps, k);
        assert GoesOn(p, steps[..|steps| - 1], k, e);
      }
    }
  }

  lemma DwellWentOn(p: SwitchPolicy, steps: seq<Step>, i: int, e: Edge)
    requires DwellFrom(p, steps, i, e) && i < |steps| - 1
    ensures DwellFrom(p, steps[..|steps| - 1], i, e)
  {
    FrontIsSame(p, steps, i);
    var front := steps[..|steps| - 1];
    forall k | i < k < |front| ensures GoesOn(p, front, k, e) {
      FrontIsSame(p, steps, k);
      assert GoesOn(p, steps, k, e);
    }
  }

  /** With both gates on, a dwell in progress began so. */
  lemma {:induction false} DwellBegan(p: SwitchPolicy, steps: seq<Step>) returns (i: int)
    requires p.delayMs > 0 && p.doubleTapMs > 0 && Run(p, steps).dwell.Some?
    ensures DwellFrom(p, steps, i, Run(p, steps).dwell.value.edge) && steps[i].now == Run(p, steps).dwell.value.at
  {
    var n := |steps| - 1;
    var front := steps[..n];
    i := n;
    if Run(p, front).dwell == Run(p, steps).dwell {
      i := DwellBegan(p, front);
      DwellGoesOn(p, steps, i, Run(p, steps).dwell.value.edge);
    }
  }

  /** ... and what began so is a dwell in progress, begun no later. */
  lemma {:induction false} BegunIsDwell(p: SwitchPolicy, steps: seq<Step>, i: int, e: Edge)
    requires p.delayMs > 0 && p.doubleTapMs > 0 && Clocked(steps) && DwellFrom(p, steps, i, e)
    ensures var d := Run(p, steps).dwell; d.Some? && d.value.edge == e && d.value.at <= steps[i].now
  {
    var n := |steps| - 1;
    var front := steps[..n];
    if i < n {
      DwellWentOn(p, steps, i, e);
      BegunIsDwell(p, front, i, e);
      assert GoesOn(p, steps, n, e);
    } else if Run(p, front).dwell.Some? {
      var j := DwellBegan(p, front);
      assert steps[j].now <= steps[n].now;
    }
  }

  /** With both gates on, a sample on `e` switches iff it is not blocked, it is a second tap and a second
      tap on `e` at least `delay` before it began a dwell that nothing but waits followed, none of
      them a second tap on another edge. */
  lemma BothGatesSwitchExactly(p: SwitchPolicy, steps: seq<Step>, now: nat, e: Edge, hasNeighbor: bool, inCorner: bool)
    requires p.delayMs > 0 && p.doubleTapMs > 0
    requires Clocked(steps + [Sample(now, e, hasNeighbor, inCorner)])
    ensures Evaluate(Run(p, steps), p, now, e, hasNeighbor, inCorner).1 == Switch
        <==> Free(p, steps, hasNeighbor, inCorner) && SecondTap(Run(p, steps), p, now, e)
             && exists i :: DwellFrom(p, steps, i, e) && steps[i].now + p.delayMs <= now
  {
    LockedExactly(p, steps);
    var all := steps + [Sample(now, e, hasNeighbor, inCorner)];
    assert forall i | 0 <= i < |steps| :: all[i] == steps[i];
    assert Clocked(steps);
    if Run(p, steps).dwell.Some? {
      var i := DwellBegan(p, steps);
      assert all[i].now <= all[|steps|].now;
    }
    forall i | DwellFrom(p, steps, i, e) && steps[i].now + p.delayMs <= now
      ensures var d := Run(p, steps).dwell; d.Some? && d.value.edge == e && Since(now, d.value.at) >= p.delayMs
    {
      BegunIsDwell(p, steps, i, e);
    }
  }

  /** Such a dwell is an unbroken wait exactly when every sample in it was on its own edge: the
      promise of the dwell gate holds with both gates on iff no other edge was touched meanwhile. */
  lemma DwellIsUnbrokenExactly(p: SwitchPolicy, steps: seq<Step>, i: int, e: Edge)
    requires DwellFrom(p, steps, i, e)
    ensures UnbrokenFrom(steps, Decisions(p, steps), i, e)
        <==> forall k | i <= k < |steps| && steps[k].Sample? :: steps[k].edge == e
  {
    var ds := Decisions(p, steps);
    if UnbrokenFrom(steps, ds, i, e) {
      forall k | i <= k < |steps| && steps[k].Sample? ensures steps[k].edge == e {
        assert steps[k] != Lock(false);
        assert Waits(steps, ds, k, e);
      }
    }
    if forall k | i <= k < |steps| && steps[k].Sample? :: steps[k].edge == e {
      forall k | i <= k < |steps| ensures Waits(steps, ds, k, e) || steps[k] == Lock(false) {
        assert k > i ==> GoesOn(p, steps, k, e);
      }
    }
  }

  predicate OnOther(steps: seq<Step>, k: int, e: Edge) {
    0 <= k < |steps| && steps[k].Sample? && steps[k].edge != e
  }

  /** At step `j`, after `k`, the cursor was on `e`, at least the delay before `now`. */
  predicate BackLongAgo(p: SwitchPolicy, steps: seq<Step>, k: int, j: int, e: Edge, now: nat) {
    0 <= k < j < |steps| && steps[j].Sample? && steps[j].edge == e && steps[j].now + p.delayMs <= now
  }

  /** Some unbroken wait on `e` is at least as long as the delay. */
  ghost predicate WaitedOut(p: SwitchPolicy, steps: seq<Step>, e: Edge, now: nat) {
    exists u :: UnbrokenFrom(steps, Decisions(p, steps), u, e) && steps[u].now + p.delayMs <= now
  }

  /** Where both gates let a sample switch, the cursor had waited on its edge without a break for the
      delay exactly if, each time it was on another edge during the dwell, it was back at least the
      delay ago. */
  lemma SwitchIsWaitedOutExactly(p: SwitchPolicy, steps: seq<Step>, now: nat, e: Edge, i: int)
    requires Clocked(steps) && DwellFrom(p, steps, i, e) && steps[i].now + p.delayMs <= now
    ensures WaitedOut(p, steps, e, now)
        <==> forall k | i <= k && OnOther(steps, k, e) :: exists j :: BackLongAgo(p, steps, k, j, e, now)
  {
    var ds := Decisions(p, steps);
    if u :| UnbrokenFrom(steps, ds, u, e) && steps[u].now + p.delayMs <= now {
      assert forall k | u <= k < |steps| :: !OnOther(steps, k, e);
      forall k | i <= k && OnOther(steps, k, e) ensures BackLongAgo(p, steps, k, u, e, now) {
      }
    }
    if forall k | i <= k && OnOther(steps, k, e) :: exists j :: BackLongAgo(p, steps, k, j, e, now) {
      var k := LastOnOther(steps, i, e);
      if k < i {
        DwellIsUnbrokenExactly(p, steps, i, e);
        forall m | i <= m < |steps| && steps[m].Sample? ensures steps[m].edge == e {
          assert !OnOther(steps, m, e);
        }
        assert UnbrokenFrom(steps, ds, i, e);
      } else {
        var j :| BackLongAgo(p, steps, k, j, e, now);
        BackSince(p, steps, i, k, j, e);
      }
    }
  }

  /** The last sample on another edge from step `i` on, if there is one. */
  lemma LastOnOther(steps: seq<Step>, i: int, e: Edge) returns (k: int)
    requires 0 <= i < |steps|
    ensures k == i - 1 || (i <= k && OnOther(steps, k, e))
    ensures forall m | k < m < |steps| :: i <= m ==> !OnOther(steps, m, e)
  {
    k := |steps| - 1;
    while k >= i && !OnOther(steps, k, e)
      invariant i - 1 <= k < |steps|
      invariant forall m | k < m < |steps| :: !OnOther(steps, m, e)
    {
      k := k - 1;
    }
  }

  lemma BackSince(p: SwitchPolicy, steps: seq<Step>, i: int, k: int, j: int, e: Edge)
    requires Clocked(steps) && DwellFrom(p, steps, i, e) && i <= k < j < |steps| && steps[j].Sample? && steps[j].edge == e
    requires forall m | k < m < |steps| :: !OnOther(steps, m, e)
    ensures exists u :: UnbrokenFrom(steps, Decisions(p, steps), u, e) && steps[u].now <= steps[j].now
  {
    var u, ds := k + 1, Decisions(p, steps);
    while !steps[u].Sample?
      invariant k < u <= j
      decreases j - u
    {
      u := u + 1;
    }
    forall m | u <= m < |steps| ensures Waits(steps, ds, m, e) || steps[m] == Lock(false) {
      assert GoesOn(p, steps, m, e) && !OnOther(steps, m, e);
    }
    assert UnbrokenFrom(steps, ds, u, e);
  }

  /** It does fail: the dwell begun on the right edge outlives a tap on the left one, so the last of
      these samples switches with no unbroken wait of that length. */
  lemma BothGatesLoseTheBreak(p: SwitchPolicy, steps: seq<Step>)
    requires p.delayMs == 100 && p.doubleTapMs == 1000
    requires steps == [Sample(0, Right, true, true), Sample(1, Right, true, true), Sample(50, Geometry.Left, true, true),
                       Sample(60, Right, true, true)]
    ensures Evaluate(Run(p, steps), p, 101, Right, true, true).1 == Switch
    ensures !exists i :: UnbrokenFrom(steps, Decisions(p, steps), i, Right) && steps[i].now + p.delayMs <= 101
  {
    assert steps[..3][..2] == steps[..2] && steps[..2][..1] == steps[..1];
    assert Run(p, steps[..1]) == Switcher(false, None, Some(Touch(Right, 0)));
    assert Run(p, steps[..2]) == Switcher(false, Some(Touch(Right, 1)), Some(Touch(Right, 1)));
    assert Run(p, steps[..3]) == Switcher(false, Some(Touch(Right, 1)), Some(Touch(Geometry.Left, 50)));
    assert Run(p, steps) == Switcher(false, Some(Touch(Right, 1)), Some(Touch(Right, 60)));
    forall i | UnbrokenFrom(steps, Decisions(p, steps), i, Right) ensures i == 3 {
      assert steps[2].edge == Geometry.Left && !Waits(steps, Decisions(p, steps), 2, Right);
    }
  }
}
