# GeserDesk, verified

GeserDesk shares one keyboard and mouse, a clipboard and copied files between machines that stand
side by side. A server captures the input devices; when the pointer crosses a screen edge it grabs
them and forwards every event to the machine beyond. This project models the parts of the repository
that decide where input goes, what travels, and what is trusted, and proves what they promise:

* **Input routing.** `Geometry`, `Frames`, `Placement` and `Switching` are the desk: coordinates,
  stretched machines, where each is placed, when an edge switches. `Router` is the router's state
  machine, as functions on a state and as a class that does the same in place. `RouterMotion`,
  `RouterEdges` and `RouterDesk` say where input leads, when it leaves home and what desk it goes
  by, `RouterRuns` and `RouterKeys` what whole runs guarantee, the queue of actions drained through
  sends that may fail, and with it the client machines' keyboards (`Input`). `Hubs` is the registry
  and its event log. `Sessions` puts router, registry and clients together, step by step, with
  clients that come back under the same name at any moment; `SessionRuns` is the router's safety
  there and `StrandedRuns` the runs that break it. `KeyStreams`, `X11Capture` and `WindowsCapture`
  are the capture backends, and `HandToClient` goes from the hand on the keyboard to the client's
  machine.
* **File copy.** `FileTrees` turns a tree into a manifest, `Staging` vets a manifest from elsewhere,
  `Pulling` serves and reassembles, `FileRouting` carries the requests, and `FileSessions` follows a
  client's sessions one after the other; its last theorem goes from one machine's disk to another's
  through all of it.
* **Wire and clipboard.** `Framing` cuts a byte stream into messages, `Contents` and `Transfers` move
  a clipboard's contents in chunks, `ClipSync` shares it across a star of machines without echo.
* **Administration.** `Trust` keeps memory and config file in step; `DeskAdmin` accepts layouts.

An object that the source updates is a class whose methods state their whole new state as a function
of the old one; what is promised is then proved about those functions, over all inputs and all runs.

## What the proofs found

The code does not give these, so each is a lemma with a concrete run or an exact condition:

* A session can be left behind with keys pressed: when the router takes in the loss of the screen it
  is on while a session of that name is there and was entered, or when input queued for a lost screen
  reaches one that came meanwhile (`Sessions.LeftBehindExactly`, over runs
  `Sessions.RunsAttendExactly`). So a key gets stuck on a screen that comes back before its loss is
  taken in, and on one that is turned off (three runs in `StrandedRuns.KeysGetStuck`), and an action on
  one that comes back before the reaction is carried out (`StrandedRuns.ActionsGetStuck`). That a screen
  turned off is left with no key pressed is certain exactly if no key is down
  (`RouterKeys.TurnedOffScreenIsNotLeft`).
* With both switch gates on, a dwell outlives a sample on another edge
  (`Switching.BothGatesLoseTheBreak`). When a sample switches there is
  `Switching.BothGatesSwitchExactly`, and when some wait before it was unbroken and long enough
  `Switching.SwitchIsWaitedOutExactly`.
* A machine with several monitors that is stretched may own a desk column that none of its rectangles
  has, and `validate` then accepts a layout in which two machines own a point
  (`DeskAdmin.SharedPoint`, with `DeskAdmin.SuchASeam`). Exactly which machines are safe is `DeskAdmin.OneOwnerExactly` with
  `DeskAdmin.WhollyPlacedExactly`.
* The server means that what a disconnected client was owed is nobody's
  (crates/geserdesk-server/src/net.rs:687), but requests sent on to others stay pending under the
  client's name, and each session numbers its reads from one, so an answer owed to one session can end a
  read of the next (`FileSessions.AnswersReachTheNextSession`; exactly when is
  `FileSessions.NewSessionIsSafeExactly`).
* On X11 the release of the hotkey's key with Ctrl and Alt held is swallowed even if its press was
  forwarded, so it stays down on the client (`X11Capture.HotkeyReleaseIsLost`; the exact condition is
  `X11Capture.HandHoldsThem`). On Windows the same happens to Home after a repeat of it with both held
  (`WindowsCapture.HomeReleaseIsLost`, `WindowsCapture.HandHoldsThem`,
  `WindowsCapture.OnlyARepeatOfHome`).
* On Windows a key held when a grab begins, if it repeats in the grab, is taken for one pressed there: its
  release is swallowed and the local desktop goes on believing it down
  (`WindowsCapture.RepeatedKeySticks`). The same happens to the Ctrl made up for an AltGr that is let go
  in the grab (`WindowsCapture.MadeUpCtrlSticks`). Exactly which releases the desktop loses is
  `WindowsCapture.DesktopFollowsTheHand`, and what leads there `WindowsCapture.ApartUntilCrossed`.
* A movement of the hand that ends exactly on the centre while a warp is on its way is dropped
  (`X11Capture.StepIsLost`; the exact condition is `X11Capture.TakingItForTheWarp`).
* A clipboard write that cannot be read back is offered back if the platform changed it and its change
  count does not tell
  (`ClipSync.UnreadableWriteEchoes`), and a clipboard that cannot be read when sharing begins is
  offered as if it had just been copied (`ClipSync.UnreadablePrimeEchoes`).
* A frame limit of 4 GiB or more lets a payload through whose length the prefix cannot hold
  (`Framing.LongPayloadIsCutShort`).
* The sizes of a manifest are summed in 64 bits, so a manifest whose sizes overflow them can pass the
  size limit (`Pulling.HalvesAddUpToNothing`; the exact condition is `Pulling.LimitRefusesExactly`).
* An approval that cannot be saved forgets the requests in that name; exactly when is
  `Trust.FailedSaveForgetsRequests`.
* The documentation says that requests older than ten minutes are forgotten; `approve` does not look
  at the age, and the model follows the code (`Trust.OldRequestIsApproved`; exactly when is
  `Trust.HiddenYetApprovable`).

## Model

| member | source | states |
|---|---|---|
| `Geometry.UnionAll` | crates/geserdesk-proto/src/geometry.rs:65-76 | the box holds every rectangle; there is none exactly for an empty list |
| `Geometry.UnionIsLeast` | crates/geserdesk-proto/src/geometry.rs:65-76 | and it is the smallest such box |
| `Geometry.UnionAllLoop` | crates/geserdesk-proto/src/geometry.rs:65-76 | the loop over l, t, r, b computes that box |
| `Geometry.ClampIsNearest` | crates/geserdesk-proto/src/geometry.rs:84-89 | clamping lands in the rectangle, at the pixel with the smallest squared distance |
| `Geometry.NearestPointMinimises` | crates/geserdesk-server/src/desk.rs:165-174 | the point returned is on a monitor and no pixel of any monitor is closer; a point already on a monitor stays |
| `Geometry.InsetClampLands` | crates/geserdesk-server/src/desk.rs:178-188 | the point lands in the rectangle: on an axis with room at the nearest place that keeps the inset, on one without in the middle |
| `Geometry.CenterIsTheMiddle` | crates/geserdesk-proto/src/geometry.rs:59-61 | the centre is in the rectangle and its middle on both axes, to the pixel |
| `Frames.RoundsHalvesAway` | crates/geserdesk-server/src/desk.rs:58-66 | halves are rounded away from zero, and both signs alike |
| `Frames.AxisMonotone` | crates/geserdesk-server/src/desk.rs:58-77 | both directions between a machine's plane and the desk keep the order of coordinates, at every scale |
| `Frames.UnstretchedReaches` | crates/geserdesk-server/src/desk.rs:69-77 | the way back reaches a local coordinate exactly from its stretched position rounded up, on all coordinates |
| `Frames.ThereAndBack` | crates/geserdesk-server/src/desk.rs:58-77 | `to_local(to_desk(p))` is p or p - 1 on each axis at a scale of at least 1, and p at scale 1 |
| `Frames.BackAndThere` | crates/geserdesk-server/src/desk.rs:58-77 | `to_desk(to_local(v))` never exceeds v and falls short by less than the scale and a half |
| `Frames.SpanAgreement` | crates/geserdesk-server/src/desk.rs:80-84 | the desk's view of a span and the local one agree on every coordinate iff both its ends round alike, or it is empty both ways |
| `Frames.DeskRectIsPreimage` | crates/geserdesk-server/src/desk.rs:39-84 | where all four edges of a monitor round alike both ways, a desk point is in `desk_rect(m)` iff `to_local` of it is in `m`; per axis that is exact by the row above |
| `Frames.PlainIsAligned` | crates/geserdesk-server/src/desk.rs:39-84 | every monitor of a machine that is not stretched, or has one monitor, is such a monitor |
| `Frames.LeftOutIsJustOut` | crates/geserdesk-server/src/desk.rs:58-84 | what `desk_rect` leaves out of the points over a monitor is exactly the row or column next to a right or bottom edge that rounds down, and nothing where those edges are aligned |
| `Frames.StretchedPairDisagrees` | crates/geserdesk-server/src/desk.rs:58-84 | stretched with two monitors the two views differ: 201 pixels stretched to 300, and the desk column at which they do |
| `Frames.SeamsSurvive` | crates/geserdesk-server/src/desk.rs:80-84 | monitors of one machine that touch still touch on the desk, and disjoint ones stay disjoint |
| `Frames.FrameHasDeskSize` | crates/geserdesk-server/src/desk.rs:39-95 | the box around a machine's monitors lies on the desk where its origin moves it, in the very size the placement reckons with |
| `Switching.SwitchState.ToggleLock` | crates/geserdesk-server/src/layout.rs:169-172 | the whole new state of the object, in place |
| `Switching.SwitchState.SetLocked` | crates/geserdesk-server/src/layout.rs:174-179 | the whole new state of the object, in place |
| `Switching.SwitchState.OnLeftEdge` | crates/geserdesk-server/src/layout.rs:183-185 | the whole new state of the object, in place |
| `Switching.SwitchState.OnSwitched` | crates/geserdesk-server/src/layout.rs:188-191 | the whole new state of the object, in place |
| `Switching.SwitchState.Decide` | crates/geserdesk-server/src/layout.rs:197-245 | one sample, in place, is the state machine's step: corner, lock, double tap, dwell, in the source's order |
| `Switching.BlockedExactly` | crates/geserdesk-server/src/layout.rs:205-212 | after every run a sample is blocked iff it has no neighbour, is not where the corner constraint wants it, or Scroll Lock is to hold it and is on by the last setting and the toggles since |
| `Switching.BlockedBreaksTheWait` | crates/geserdesk-server/src/layout.rs:205-212 | no wait and no dwell that began before a blocked sample of a run goes on after it |
| `Switching.NoGateSwitchesExactly` | crates/geserdesk-server/src/layout.rs:197-245 | without gates, over every run: a sample switches iff it is not blocked |
| `Switching.DwellSwitchesExactly` | crates/geserdesk-server/src/layout.rs:183-245 | dwell gate alone, over every run of samples: any sample on an edge switches iff it is not blocked and the cursor has waited there without a break since at least the delay before it |
| `Switching.DoubleTapSwitchesExactly` | crates/geserdesk-server/src/layout.rs:183-245 | double-tap gate alone, over every run: any sample switches iff it is not blocked and the last unblocked sample since a switch was on the same edge within the window |
| `Switching.SecondTapExactly` | crates/geserdesk-server/src/layout.rs:214-224 | the tap gate opens iff the last unblocked sample since a switch was on the same edge within the window, whatever the delay |
| `Switching.BothGatesSwitchExactly` | crates/geserdesk-server/src/layout.rs:197-245 | both gates on, over every run of samples: any sample switches iff it is not blocked, is a second tap, and a second tap on its edge at least the delay before began a dwell, followed by nothing but waits of which none was a second tap on another edge |
| `Switching.DwellIsUnbrokenExactly` | crates/geserdesk-server/src/layout.rs:197-245 | such a dwell is an unbroken wait iff every sample in it was on its own edge |
| `Switching.SwitchIsWaitedOutExactly` | crates/geserdesk-server/src/layout.rs:197-245 | where both gates let a sample switch, some unbroken wait was as long as the delay iff each time the cursor was on another edge during the dwell it was back at least the delay ago |
| `Switching.BothGatesLoseTheBreak` | crates/geserdesk-server/src/layout.rs:214-241 | with both gates on, a run in which a switch happens and no unbroken wait at all is as long as the delay |
| `Placement.EffectiveOriginsLoop` | crates/geserdesk-server/src/desk.rs:106-161 | the worklist and the row, with their loops, compute the specified origins |
| `Placement.FollowPlaces` | crates/geserdesk-server/src/desk.rs:120-146 | the worklist ends closed under links, moves nothing already placed, and everything it adds shares exactly the edge, in coordinates, of a placed screen that links to it across that edge |
| `Placement.AdjoiningDisjoint` | crates/geserdesk-server/src/desk.rs:137-142 | two screens that share an edge so have no point in common |
| `Placement.LinkPathIsPlaced` | crates/geserdesk-server/src/desk.rs:120-146 | every screen at the end of a path of links from a placed one is placed |
| `Placement.TheRestStandsInRow` | crates/geserdesk-server/src/desk.rs:148-160 | the screens left over stand in config order at height 0, the first at the largest right edge of the others, each next where the one before ends |
| `Placement.RowPlaces` | crates/geserdesk-server/src/desk.rs:148-160 | and no two of them overlap |
| `Placement.OriginsPlaceEveryScreen` | crates/geserdesk-server/src/desk.rs:106-161 | for every layout, links, positions and sizes: each screen is placed once, configured origins are kept, a reachable screen lies beyond an edge of one that links to it across that edge, and the row's boxes meet no other box |
| `Input.EnigoSink.OnKey` | crates/geserdesk-client/src/inject.rs:250-298 | press, repeat and release against the held-key table, in place, as specified for every outcome of resolving a key |
| `Input.EnigoSink.OnLeave` | crates/geserdesk-client/src/inject.rs:235-248 | leaving lets go of everything held |
| `Input.EnigoSink.OnMouse` | crates/geserdesk-client/src/inject.rs:300-334 | buttons held are followed in place |
| `Input.SinkKeyAccounted` | crates/geserdesk-client/src/inject.rs:250-298 | whatever key comes, nothing is pressed on the machine that the sink does not know it pressed |
| `Input.SinkIsAsTold` | crates/geserdesk-client/src/inject.rs:235-334 | over every run of keys, buttons and leaving: the machine has pressed exactly what was pressed last and not lifted since, and a key held stands for what its first press came to |
| `Input.PressIsAsSetUp` | crates/geserdesk-client/src/inject.rs:120-131 | an action set up for this system is done so, one set up for another not at all, doing another action goes one step; every other key is its own |
| `Input.TableIsModifierKeys` | crates/geserdesk-server/src/router.rs:34-40 | the table of modifiers holds exactly the keys of each modifier by their HID usages |
| `Router.Core.ClientConnected` | crates/geserdesk-server/src/router.rs:134-137 | the desk after a client joins: state and actions of the method, in place, are the transition's |
| `Router.Core.AddScreen` | crates/geserdesk-server/src/router.rs:141-145 | a screen added once: state and actions of the method, in place, are the transition's |
| `Router.Core.SetLocalMonitors` | crates/geserdesk-server/src/router.rs:150-162 | new local monitors, the remembered one forgotten if it is gone: state and actions of the method, in place, are the transition's |
| `Router.Core.SetPositions` | crates/geserdesk-server/src/router.rs:165-168 | the desk re-placed: state and actions of the method, in place, are the transition's |
| `Router.Core.SetSizes` | crates/geserdesk-server/src/router.rs:171-174 | the desk re-placed: state and actions of the method, in place, are the transition's |
| `Router.Core.ClientDisconnected` | crates/geserdesk-server/src/router.rs:177-194 | the loss of a client, and the input taken home if it was there: state and actions of the method, in place, are the transition's |
| `Router.Core.HandleEvent` | crates/geserdesk-server/src/router.rs:196-210 | every input event to its transition: state and actions of the method, in place, are the transition's |
| `Router.Core.OnKey` | crates/geserdesk-server/src/router.rs:216-253 | a rule fired, its modifiers let go first; its action until the key comes up: state and actions of the method, in place, are the transition's |
| `Router.Core.OnPointer` | crates/geserdesk-server/src/router.rs:340-379 | the pointer at home: edge, what lies beyond, switch policy, crossing: state and actions of the method, in place, are the transition's |
| `Router.Core.OnHotkey` | crates/geserdesk-server/src/router.rs:381-417 | away to the nearest machine, or home: state and actions of the method, in place, are the transition's |
| `Router.Core.OnGrabFailed` | crates/geserdesk-server/src/router.rs:419-434 | back home when the devices cannot be had: state and actions of the method, in place, are the transition's |
| `Router.Core.OnMotion` | crates/geserdesk-server/src/router.rs:438-506 | the remote cursor: re-anchored, moved, kept at the edge, crossing or coming home: state and actions of the method, in place, are the transition's |
| `RouterMotion.MotionOnScreen` | crates/geserdesk-server/src/router.rs:438-465 | a motion over the screen moves the cursor by exactly that much and says so to the client |
| `RouterMotion.CursorFollowsTheHand` | crates/geserdesk-server/src/router.rs:438-465 | over any run of motions that stays on the screen, the cursor ends exactly where the deltas add up to |
| `RouterMotion.MotionOffScreen` | crates/geserdesk-server/src/router.rs:447-506 | a motion off the screen, with v the desk point of where the hand was going: the cursor stops at the nearest pixel iff no other machine has a monitor at v; else the input goes to the first in order that has, to the point of its plane at v, or home inside the monitor there, with the messages that takes |
| `RouterMotion.LocateFindsTheFirst` | crates/geserdesk-server/src/router.rs:293-307 | `locate` gives the first in order of the machines with a monitor at the desk point, and that point of its plane; nothing iff there is none |
| `RouterMotion.PlainHasAt` | crates/geserdesk-server/src/desk.rs:58-77 | for a machine that is not stretched the desk is its plane moved by its origin, and it has a monitor at a desk point iff one covers the point moved back |
| `RouterEdges.PointerSamples` | crates/geserdesk-server/src/router.rs:340-379 | a sample at home: the first edge, in the source's order, across which no local monitor goes on and the desk has a machine is put to the switch policy, and on its word that machine is entered at the point beyond; without one the dwell ends |
| `RouterEdges.PointerCrosses` | crates/geserdesk-server/src/router.rs:340-379 | the pointer leaves home only across the first such edge, to the very point of the desk beyond it, and near an end of it where the corner constraint asks that, in coordinates |
| `RouterEdges.MidEdgeStaysHome` | crates/geserdesk-server/src/router.rs:584-593 | with a corner constraint a pointer at least that many pixels from both ends of every edge it could cross stays home |
| `RouterEdges.SwitcherIsRun` | crates/geserdesk-server/src/router.rs:340-506 | over every run of input and hub events the router's switch state is the state machine's after the samples of the run |
| `RouterEdges.LeavesHomeExactly` | crates/geserdesk-server/src/router.rs:340-379 | under every policy and over every such run: a sample sends the input across an edge iff it is the first with a machine beyond, the corner constraint is met and both gates are open by the samples so far |
| `RouterEdges.HomeIsTheLastMonitor` | crates/geserdesk-server/src/router.rs:309-327 | coming home by the hotkey the pointer is put in the middle of the monitor it was last on, if that is still there, else of the first with the corner (0,0), else of the first |
| `RouterEdges.RemembersTheMonitor` | crates/geserdesk-server/src/router.rs:150-162 | the monitor remembered is the one under the last sample at home, until it is no monitor any more |
| `RouterDesk.DeskIsAsToldAndPlaced` | crates/geserdesk-server/src/router.rs:134-174 | over every run of input and news: positions, sizes, screens, clients and this machine's monitors are those told last, and every machine lies where the placement puts it by them |
| `RouterDesk.StartIsPlaced` | crates/geserdesk-server/src/router.rs:85-131 | the server starts so, at home and with a fresh switch state |
| `RouterMotion.NearestIsNearest` | crates/geserdesk-server/src/router.rs:388-403 | the hotkey's machine: none is nearer, and the first in order among equals |
| `RouterMotion.HotkeyLeads` | crates/geserdesk-server/src/router.rs:381-417 | from home the hotkey enters the client whose middle on the desk is nearest to this machine's, the first in order among equals, at the place on its monitors nearest to their middle; nothing iff no client has monitors |
| `RouterRuns.DrainLoop` | crates/geserdesk-server/src/router.rs:658-673 | the draining loop, with any sends failing, terminates and leaves the world as specified |
| `RouterRuns.DropClient` | crates/geserdesk-server/src/router.rs:177-194 | a queue with one more client's messages dropped still makes sense to everybody else |
| `RouterRuns.MoveMeans` | crates/geserdesk-server/src/router.rs:438-506 | a motion is a move on the screen, or a move to its edge, a Leave and the way home, or a move, a Leave and an Enter elsewhere; every position in it is on a current monitor of its target |
| `RouterRuns.LocalCenterIsReal` | crates/geserdesk-server/src/router.rs:313-326 | the pointer comes back to a point of a local monitor |
| `RouterRuns.DrainSafe` | crates/geserdesk-server/src/router.rs:658-673 | draining keeps the queue's promise, whichever clients are lost on the way |
| `RouterRuns.TurnIsSafe` | crates/geserdesk-server/src/router.rs:177-210 | one turn of the loop keeps: grabbed iff a remote screen is active, the active screen connected and the only one between its Enter and its Leave, messages only to it, numbers rising, every Enter, MoveAbs and warp on a monitor |
| `RouterKeys.RunsAreSafe` | crates/geserdesk-server/src/router.rs:610-673 | the same over every run of input and hub events in which a name is one session, sends failing anywhere, together with the accounting of held keys |
| `RouterKeys.NoStuckKeys` | crates/geserdesk-server/src/router.rs:216-253 | in every such run, a key a client machine has pressed was pressed for a key still down, as itself or as the action it fired, and that client is the screen that holds the input |
| `RouterKeys.FiredRuleLiftsItsModifiers` | crates/geserdesk-server/src/router.rs:238-252 | right after a rule fires none of its modifiers is held on any client |
| `RouterKeys.FirstForMatches` | crates/geserdesk-proto/src/keys.rs:18-33 | the rule that fires is the first with the key pressed and exactly the modifiers held, lock keys and Meta apart |
| `RouterKeys.FiredRuleSends` | crates/geserdesk-server/src/router.rs:229-252 | a press that fires a rule sends the active screen the action, and before it lets go exactly of the keys of the rule's modifiers, by their HID usages |
| `RouterKeys.FiredUntilReleased` | crates/geserdesk-server/src/router.rs:216-228 | whatever happens until the key comes up, it goes on standing for the action |
| `RouterKeys.TurnedOffScreenIsNotLeft` | crates/geserdesk-server/src/router.rs:177-194 | turning the active screen off sends it no Leave and lifts nothing there; that no key is left pressed on it, whatever the machine makes of keys, is certain iff no key is down |
| `RouterKeys.MoveHomeIsQuiet` | crates/geserdesk-server/src/router.rs:457-481 | the point put under the pointer on coming home is far from every edge |
| `RouterKeys.CrossingHomeDoesNotBounce` | crates/geserdesk-server/src/router.rs:340-379 | after any motion that crosses home, a pointer sample at that point does nothing |
| `RouterKeys.ReturningDoesNotBounce` | crates/geserdesk-server/src/router.rs:381-417 | nor after the hotkey or the loss of the active screen brought the input home |
| `Hubs.Hub.Register` | crates/geserdesk-server/src/hub.rs:103-129 | the registry, outboxes and event log after the operation, in place |
| `Hubs.Hub.Unregister` | crates/geserdesk-server/src/hub.rs:254-257 | the registry, outboxes and event log after the operation, in place |
| `Hubs.Hub.SetDisabled` | crates/geserdesk-server/src/hub.rs:142-164 | the registry, outboxes and event log after the operation, in place |
| `Hubs.Hub.SetMonitors` | crates/geserdesk-server/src/hub.rs:195-209 | the registry, outboxes and event log after the operation, in place |
| `Hubs.Hub.Send` | crates/geserdesk-server/src/hub.rs:132-137 | the registry, outboxes and event log after the operation, in place |
| `Hubs.Hub.BroadcastExcept` | crates/geserdesk-server/src/hub.rs:183-192 | the registry, outboxes and event log after the operation, in place |
| `Hubs.Hub.AddScreen` | crates/geserdesk-server/src/hub.rs:233-242 | the registry, outboxes and event log after the operation, in place |
| `Hubs.OutboxIsWhatWasMeant` | crates/geserdesk-server/src/hub.rs:103-209 | over every run: a client that is there has one open session, its queue holds exactly what was sent to it, or to all but an exception while it was not turned off, since that session began, in order; its monitors are the last reported |
| `Hubs.PresentHasSession` | crates/geserdesk-server/src/hub.rs:103-129 | and whoever is there has such a session |
| `Hubs.NewsIsTold` | crates/geserdesk-server/src/hub.rs:226-252 | over every run the log tells every announcement, and every screen the first time it is added, once and in order |
| `Hubs.ApplyKeepsReplica` | crates/geserdesk-server/src/hub.rs:103-209 | after any operation the replayed log is the connected clients that are not turned off, with their latest monitors; for loading the turned-off list iff it changes nobody connected |
| `Hubs.OnlyChangesAreTold` | crates/geserdesk-server/src/hub.rs:103-209 | but for the end of a session, which is always told, the log tells exactly what changes the visible clients |
| `Hubs.RouterCopyIsFaithful` | crates/geserdesk-server/src/router.rs:627-672 | in any run, with sends failing and clients dropped early, the router's connected clients are the hub's visible ones once the log is taken in |
| `Hubs.RouterLearns` | crates/geserdesk-server/src/router.rs:627-655 | the router's own transition on an event is the replica's |
| `Sessions.LeavingIsSaid` | crates/geserdesk-server/src/router.rs:381-506 | a reaction to input that takes it off a screen sends that screen a Leave |
| `Sessions.LeftBehindExactly` | crates/geserdesk-server/src/router.rs:621-673 | clients coming, going and coming back under their names between any two actions: a step leaves a session behind iff it takes in the loss of the active screen while a session of that name has been entered, or delivers input meant for a lost screen to one that came meanwhile |
| `Sessions.FirstNetIsRight` | crates/geserdesk-server/src/router.rs:613-622 | whatever the configuration, the server starts in a state that these results speak of |
| `Sessions.RunsAttendExactly` | crates/geserdesk-server/src/router.rs:621-673 | over every run: each session that was sent input is always where the input is, or about to be left, iff no step is one of those two |
| `Sessions.NoStuckKeys` | crates/geserdesk-server/src/router.rs:216-253 | in every run without such a step, a key pressed on a machine is pressed in a session that is there and holds the input (or is about to be left), for a key still down (or about to be lifted) |
| `Sessions.NothingDownNothingPressed` | crates/geserdesk-server/src/router.rs:216-253 | and with no key down, nothing is pressed on any machine once the reaction is through |
| `SessionRuns.SafeExactly` | crates/geserdesk-server/src/hub.rs:103-129 | between reactions the router stays safe over a step iff no client takes the active screen's name again, nor is its loss taken in while a session of the name is there |
| `SessionRuns.FirstNetIsSafe` | crates/geserdesk-server/src/router.rs:613-622 | the server starts safe |
| `SessionRuns.RunsAreSafe` | crates/geserdesk-server/src/router.rs:621-673 | every run of orderly steps, interleaved anyhow: input only to sessions between their Enter and their Leave, devices grabbed only while a remote screen is active, every position on a monitor, and no session left behind |
| `SessionRuns.BetweenReactions` | crates/geserdesk-server/src/router.rs:621-673 | between reactions of such a run: grabbed iff a remote screen is active, that screen the one between Enter and Leave if it is there, and the router's clients the hub's once the log is taken in |
| `StrandedRuns.ReturnedScreenIsStuck` | crates/geserdesk-server/src/hub.rs:254-257 | a run: the active screen comes back before its loss is taken in, and a key pressed then stays pressed with none down |
| `StrandedRuns.EarlyGuestIsStuck` | crates/geserdesk-server/src/hub.rs:254-257 | a run: the same with a screen that was not active when it went |
| `StrandedRuns.TurnedOffScreenIsStuck` | crates/geserdesk-server/src/hub.rs:142-164 | a run: the active screen is turned off with a key down, and the key stays pressed |
| `StrandedRuns.QueuedInputIsStuck` | crates/geserdesk-server/src/router.rs:658-673 | a run: a key fires a rule while the session of the active screen is gone, the first send fails, the screen comes back, and the action still queued for it is pressed and stays |
| `StrandedRuns.QueuedTakesNone` | crates/geserdesk-server/src/router.rs:658-673 | and no event of the hub's is taken in during it: it is the other of the two ways |
| `StrandedRuns.KeysGetStuck` | crates/geserdesk-server/src/router.rs:621-673 | whatever the configuration, client and key that no rule is for: the first three of these runs exist from the start of the server, and each leaves a session behind |
| `StrandedRuns.ActionsGetStuck` | crates/geserdesk-server/src/router.rs:621-673 | whatever the configuration, client and key that a rule with modifiers is for: so does the fourth |
| `Framing.MessageStream.Send` | crates/geserdesk-proto/src/codec.rs:68-81 | the frame appended to the stream, or refused, in place |
| `Framing.MessageStream.Receive` | crates/geserdesk-proto/src/codec.rs:90-124 | filling and draining the buffer in place, for any cut of the stream into reads and a cancellation at any of them, is the specified receive |
| `Framing.RecvIsRight` | crates/geserdesk-proto/src/codec.rs:90-124 | one receive, cancelled or not, loses no byte and answers as the rest of the stream says |
| `Framing.FramingUndoesItself` | crates/geserdesk-proto/src/codec.rs:68-124 | for all payloads within the limit, all fragmentations and all cancellations: exactly the payloads in order, then, over and over, Closed; TooLarge if a frame over the limit comes next; and for a stream cut inside a frame the error and never Closed |
| `Framing.EveryStreamHolds` | crates/geserdesk-proto/src/codec.rs:90-124 | there is no other kind of stream: any bytes are frames within the limit and then such a rest |
| `Framing.PatienceIsRewarded` | crates/geserdesk-proto/src/codec.rs:90-124 | with enough receives every payload comes |
| `Framing.SentIsHeld` | crates/geserdesk-proto/src/codec.rs:68-81 | what `send` writes, in any reads, is such a stream |
| `Framing.LongPayloadIsCutShort` | crates/geserdesk-proto/src/codec.rs:68-81 | with a limit of 4 GiB or more a payload is taken for a shorter one |
| `Contents.DroppedKeepsTheRest` | crates/geserdesk-proto/src/clipboard.rs:98-102 | dropping a format never enlarges a content and leaves the others as they were |
| `Contents.FitIsTheMostThatPasses` | crates/geserdesk-clipboard/src/lib.rs:68-74 | what is let through is the whole content, else that without its HTML, else its text: the first of these that holds something and is within the limit; nothing iff none is |
| `Contents.FitKeepsTheText` | crates/geserdesk-clipboard/src/lib.rs:68-73 | what a limit lets through is within it, keeps the text whole, and is nothing only where the text alone is too long |
| `Transfers.ChunkAssembler.PushChunk` | crates/geserdesk-proto/src/clipboard.rs:289-330 | one chunk, in place, is the assembler's step, error by error |
| `Transfers.Inbound.Grab` | crates/geserdesk-clipboard/src/inbound.rs:38-46 | a grab replaces what was in progress |
| `Transfers.Inbound.OnChunk` | crates/geserdesk-clipboard/src/inbound.rs:49-77 | a chunk is taken, ignored or ends the transfer, in place |
| `Transfers.AssemblerTakesWhatMayFollow` | crates/geserdesk-proto/src/clipboard.rs:289-330 | the assembler takes exactly the chunks that may follow those taken so far (Start, Data, End, within the limit, as many bytes as announced), gives the joined data at the End, and refuses any other unchanged, for what is wrong with it |
| `Transfers.AssemblerFollowsTheGrammar` | crates/geserdesk-proto/src/clipboard.rs:289-330 | over every sequence of chunks it stands for those that may follow one another |
| `Transfers.BufferIsBounded` | crates/geserdesk-proto/src/clipboard.rs:289-330 | over every run of messages the buffer stays within its limit |
| `Transfers.StraysComeToNothing` | crates/geserdesk-clipboard/src/inbound.rs:49-77 | chunks of other numbers change nothing and yield nothing |
| `Transfers.TransferArrives` | crates/geserdesk-proto/src/clipboard.rs:232-330 | a transfer arrives whole if it is within the limits and not at all otherwise, whatever was in progress and whatever strays come between |
| `Transfers.OversizeComesToNothing` | crates/geserdesk-proto/src/clipboard.rs:289-330 | an oversize transfer is refused and costs only itself |
| `Transfers.SegmentYieldsExactly` | crates/geserdesk-clipboard/src/inbound.rs:38-77 | exactly what any messages from one Grab to the next yield, well-formed or not: a content iff the chunks of the grabbed number are Start, data, End, of the size announced if one was, within the limit, and decode; otherwise nothing |
| `Transfers.TransfersCostOnlyThemselves` | crates/geserdesk-clipboard/src/inbound.rs:38-77 | any run of messages cut at its Grabs yields what the pieces yield alone, so a malformed, oversize or interrupted transfer costs only itself |
| `Transfers.TransfersRoundTrip` | crates/geserdesk-clipboard/src/inbound.rs:38-77 | any run of transfers yields exactly the contents within the limits, in order |
| `Transfers.PiecesAreFull` | crates/geserdesk-proto/src/clipboard.rs:232-242 | a transfer's data comes in pieces of exactly 32 KiB, and a last one that is not empty |
| `Transfers.MessagesCarry` | crates/geserdesk-server/src/clipboard.rs:35-42 | the messages sent for a content are such a transfer of it |
| `ClipSync.ClipboardSync.Prime` | crates/geserdesk-clipboard/src/sync.rs:68-79 | what is remembered afterwards and what is offered, in place |
| `ClipSync.ClipboardSync.PrimeFiles` | crates/geserdesk-clipboard/src/sync.rs:83-94 | what is remembered afterwards and what is offered, in place |
| `ClipSync.ClipboardSync.Poll` | crates/geserdesk-clipboard/src/sync.rs:107-143 | what is remembered afterwards and what is offered, in place |
| `ClipSync.ClipboardSync.PollFiles` | crates/geserdesk-clipboard/src/sync.rs:156-177 | what is remembered afterwards and what is offered, in place |
| `ClipSync.ClipboardSync.Apply` | crates/geserdesk-clipboard/src/sync.rs:200-219 | what is remembered afterwards and what is offered, in place |
| `ClipSync.ClipboardSync.ApplyFiles` | crates/geserdesk-clipboard/src/sync.rs:182-196 | what is remembered afterwards and what is offered, in place |
| `ClipSync.NothingIsNewsTwice` | crates/geserdesk-clipboard/src/sync.rs:107-145 | a look finds news iff there is something else than seen last and the change count does not say that nothing came; and what was found is not found again |
| `ClipSync.NoFilesAreNoNews` | crates/geserdesk-clipboard/src/sync.rs:156-198 | an empty list of files is as none |
| `ClipSync.DeedsKeepQuiet` | crates/geserdesk-clipboard/src/sync.rs:107-219 | a machine stays quiet through every look and every readable write; only what a local application put there is news |
| `ClipSync.UnreadableWriteEchoes` | crates/geserdesk-clipboard/src/sync.rs:200-219 | an applied content that cannot be read back comes back as news exactly if the platform changed it and does not count changes or counted one since |
| `ClipSync.UnreadablePrimeEchoes` | crates/geserdesk-clipboard/src/sync.rs:68-79 | a clipboard that cannot be read when sharing begins is news at the next look, unless the platform counts changes and there was none |
| `ClipSync.NoEcho` | crates/geserdesk-server/src/clipboard.rs:55-135 | in every run from the moment the server begins to share, with clients coming and going, no more is offered than local applications copied, on each machine and in all, and each offer is what an application put on that machine |
| `ClipSync.OneCopySettles` | crates/geserdesk-client/src/net.rs:567-662 | one copy, delivered and looked at in any order, is offered once and ends on every other machine |
| `ClipSync.CopyIsOffered` | crates/geserdesk-clipboard/src/sync.rs:107-145 | what a local application copies is offered at the next look, as far as it passes the limit, unless it was seen there last or the change count says that nothing came |
| `ClipSync.DeliveryReaches` | crates/geserdesk-server/src/clipboard.rs:100-135 | a delivery takes the copy out of what waits for the machine, which then has it |
| `ClipSync.OfferBeginsSpreading` | crates/geserdesk-server/src/clipboard.rs:55-135 | the poll that finds the copy is where that begins |
| `FileTrees.Collector.WalkNode` | crates/geserdesk-clipboard/src/files.rs:67-139 | the recursive walk with its loop over a folder's entries pushes exactly what is specified, or stops with that error |
| `FileTrees.Collector.CollectRoots` | crates/geserdesk-clipboard/src/files.rs:42-65 | the loop over the roots, in place |
| `FileTrees.CollectLists` | crates/geserdesk-clipboard/src/files.rs:42-139 | a manifest that is made lists its roots: entry by entry with source paths beside, and the total is its `total_bytes` |
| `FileTrees.CollectSucceedsExactly` | crates/geserdesk-clipboard/src/files.rs:42-139 | a collection succeeds iff nothing lies more than 32 folders down, there are at most 10,000 entries, and the bytes are within 64 bits and the limit; a failure names a limit that is exceeded |
| `FileTrees.ListingIsTree` | crates/geserdesk-clipboard/src/files.rs:67-139 | the list has a file or folder at a path iff looking that path up in the tree finds it, links, devices and unreadable folders' contents apart |
| `FileTrees.ListingOfRootsIsGood` | crates/geserdesk-clipboard/src/files.rs:67-139 | every folder comes before what is in it, and each file's bytes are those at its source path |
| `FileTrees.ListingOfRootsIsCopied` | crates/geserdesk-clipboard/src/files.rs:42-139 | the same for all roots together, by looking paths up below each root |
| `FileTrees.TopsAreKeptRoots` | crates/geserdesk-clipboard/src/files.rs:42-65 | the entries at the top are exactly the roots that are copied, in order |
| `Staging.SplitUndoesJoin` | crates/geserdesk-clipboard/src/stage.rs:42-73 | splitting a manifest name gives back the components it was joined from |
| `Staging.JoinUndoesSplit` | crates/geserdesk-clipboard/src/stage.rs:42-73 | and joining the parts of any name gives back the name |
| `Staging.SanitizeOneLoop` | crates/geserdesk-clipboard/src/stage.rs:42-73 | the loop over the parts, with its early returns, finds the first fault in the source's order or builds the path |
| `Staging.SanitizeManifestLoop` | crates/geserdesk-clipboard/src/stage.rs:78-92 | the loop over the entries is the specified check |
| `Staging.AcceptedExactly` | crates/geserdesk-clipboard/src/stage.rs:42-73 | a name is accepted iff every part of it is none of the empty one, `.` and `..`, has no backslash, colon or control character, is at most 255 bytes, ends in neither dot nor space, and is no device name before its first dot in any case |
| `Staging.RefusedForTheFirst` | crates/geserdesk-clipboard/src/stage.rs:42-73 | any other name is refused for its first part that is not so, and for what is wrong with it |
| `Staging.Utf8LengthIsBytes` | crates/geserdesk-clipboard/src/stage.rs:54-56 | the length that is limited is that of the name's UTF-8 |
| `Staging.AcceptedStaysInside` | crates/geserdesk-clipboard/src/stage.rs:42-73 | an accepted name, followed part by part as a file system follows it, leads strictly below the destination; and on Windows, with both separators, drives and trimmed names, to the same place |
| `Staging.SanitizeAccepts` | crates/geserdesk-clipboard/src/stage.rs:78-92 | a manifest is accepted iff every name is and no two are alike under lower-casing; the paths are then the entries' own, in order |
| `Pulling.FileOwner.Read` | crates/geserdesk-clipboard/src/files.rs:201-242 | the answer for every state of the owner, and never more than was asked for or the cap |
| `Pulling.FileSystem.FetchFile` | crates/geserdesk-clipboard/src/pull.rs:367-412 | the slice loop for one file, every early return included |
| `Pulling.FileSystem.FetchAll` | crates/geserdesk-clipboard/src/pull.rs:331-414 | the loop over the entries, in place |
| `Pulling.FileSystem.PullTree` | crates/geserdesk-clipboard/src/pull.rs:286-329 | checks, destination, pull and clean-up, in place |
| `Pulling.LimitRefusesExactly` | crates/geserdesk-proto/src/clipboard.rs:170-174 | the limit refuses a manifest iff its sizes add up to more, unless the sum does not fit in 64 bits and what is left of it is within the limit |
| `Pulling.HalvesAddUpToNothing` | crates/geserdesk-proto/src/clipboard.rs:170-174 | there is such a manifest: two sizes that add up to nothing |
| `Pulling.OnlyTheLastCopyIsServed` | crates/geserdesk-clipboard/src/files.rs:188-212 | data is served only of the copy announced last, while nothing replaced or cleared it |
| `Pulling.ServedIsTheFile` | crates/geserdesk-clipboard/src/files.rs:201-242 | data is served iff the file of the copy is still there with the announced size and the offset is in it; it is then what the file holds there, as much as was asked for, or the cap, or up to the end; otherwise Changed |
| `Pulling.PullStaysInside` | crates/geserdesk-clipboard/src/pull.rs:331-414 | whatever the owner answers, nothing outside the destination changes |
| `Pulling.FailedPullLeavesNothing` | crates/geserdesk-clipboard/src/pull.rs:286-329 | for every manifest, owner and failure: a failed pull leaves nothing at or below the destination (or never began), and success or not everything else is untouched but for new folders on the way down |
| `Pulling.SuccessIsComplete` | crates/geserdesk-clipboard/src/pull.rs:331-414 | for every manifest and owner: a pull that succeeds has every entry there, at the place its name spells, no file short |
| `Pulling.TopLevelIsTops` | crates/geserdesk-clipboard/src/pull.rs:418-426 | the paths returned are those of the entries at the top |
| `Pulling.PullRoundTrip` | crates/geserdesk-clipboard/src/pull.rs:286-426 | for every disk and roots that are accepted, pulling through the owner's reads succeeds, returns exactly the kept roots and leaves below the destination exactly their trees, byte for byte |
| `Pulling.PullIsExactOrNothing` | crates/geserdesk-clipboard/src/pull.rs:286-426 | with an honest owner and anything else failing anywhere, the copy is exact or absent |
| `Pulling.CancelReachesRunningPulls` | crates/geserdesk-clipboard/src/pull.rs:60-107 | a pull is cancelled iff Cancel was pressed after it started |
| `FileRouting.FileRouter.Announce` | crates/geserdesk-server/src/files.rs:78-80 | owner, pending table, numbers and answers after the step, in place |
| `FileRouting.FileRouter.Route` | crates/geserdesk-server/src/files.rs:158-206 | owner, pending table, numbers and answers after the step, in place |
| `FileRouting.FileRouter.ReplyFromClient` | crates/geserdesk-server/src/files.rs:209-230 | owner, pending table, numbers and answers after the step, in place |
| `FileRouting.FileRouter.OnDisconnected` | crates/geserdesk-server/src/files.rs:94-117 | owner, pending table, numbers and answers after the step, in place |
| `FileRouting.FileRouter.OwnReadDone` | crates/geserdesk-server/src/files.rs:165-174 | owner, pending table, numbers and answers after the step, in place |
| `FileRouting.RequestsAreConserved` | crates/geserdesk-server/src/files.rs:78-241 | in every run: requests issued are answers given plus requests pending plus own reads under way, each in exactly one place; an answer goes to its own requester, data in it comes from the owner it was forwarded to, none is given twice, no two requests share a number |
| `FileRouting.NothingWaitsOnTheGone` | crates/geserdesk-server/src/files.rs:94-117 | once an owner has answered or disconnected, nothing waits there and everything that did is answered |
| `FileRouting.FileChannel.Read` | crates/geserdesk-client/src/files.rs:63-88 | the session's table after the step, in place |
| `FileRouting.FileChannel.GetReply` | crates/geserdesk-client/src/files.rs:53-57 | the session's table after the step, in place |
| `FileRouting.FileChannel.Forget` | crates/geserdesk-client/src/files.rs:91-103 | the session's table after the step, in place |
| `FileRouting.ReadsEndOnce` | crates/geserdesk-client/src/files.rs:53-103 | a read ends at most once, its number is never given again, and a forgotten read gets no answer |
| `FileRouting.ReadHasItsFate` | crates/geserdesk-client/src/files.rs:51-103 | over every run of a channel the n-th read has number n and is awaited, or has ended with the first answer to its number, or at once if the session was over, or was dropped before |
| `FileSessions.ReadsGetTheirOwnAnswers` | crates/geserdesk-server/src/files.rs:94-241 | in every run of a client's sessions, the router and everybody else, with truthful owners and nothing owed to the client when a session begins: no read of any session ends with bytes meant for another |
| `FileSessions.BeginKeeps` | crates/geserdesk-client/src/net.rs:466-473 | a new session begins sound iff no owner has still to answer the client |
| `FileSessions.NewSessionIsSafeExactly` | crates/geserdesk-server/src/files.rs:94-117 | that is exact: some files and some run of the new session mix up its answers iff something is owed to the client as it begins |
| `FileSessions.AnswersReachTheNextSession` | crates/geserdesk-server/src/files.rs:94-117 | a run in which the true answer to a read of one session ends a read of the next, under the same number |
| `FileSessions.RoutedPullIsExactOrNothing` | crates/geserdesk-client/src/files.rs:110-174 | end to end, through channel, router and owner: the copy any of those sessions pulls is exact or absent |
| `KeyStreams.LawfulIsLegal` | crates/geserdesk-server/src/router.rs:196-210 | what the runs of the router ask of a backend is that a key goes down only when up and repeats only when down |
| `X11Capture.PointerCapture.Grab` | crates/geserdesk-platform/src/x11.rs:339-354 | deltas are measured from where the pointer is, and a warp is asked for |
| `X11Capture.PointerCapture.Motion` | crates/geserdesk-platform/src/x11.rs:411-431 | one position, in place: the delta reported and whether a warp is asked for |
| `X11Capture.StepConserves` | crates/geserdesk-platform/src/x11.rs:402-431 | each step of hand, warp and reading keeps: reported plus queued is what the hand did, and a warp outstanding exactly when one is expected |
| `X11Capture.TakingItForTheWarp` | crates/geserdesk-platform/src/x11.rs:412-417 | where an event of the hand lies on the centre while a warp is expected, exactly the step to the centre is lost, so motion is conserved iff that step is nothing |
| `X11Capture.StepIsLost` | crates/geserdesk-platform/src/x11.rs:339-354 | it happens right after a grab, from anywhere but the centre: a run in which the whole step of the hand is never reported |
| `X11Capture.MotionIsConserved` | crates/geserdesk-platform/src/x11.rs:402-431 | over every interleaving from the grab on without that, motion is conserved and never two warps are outstanding |
| `X11Capture.KeyCapture.Key` | crates/geserdesk-platform/src/x11.rs:476-523 | one key event, in place |
| `X11Capture.StreamIsLawful` | crates/geserdesk-platform/src/x11.rs:476-523 | whatever the keyboard does, what is reported is lawful and the table holds what was reported down |
| `X11Capture.RepeatsAreNumbered` | crates/geserdesk-platform/src/x11.rs:476-523 | over every run each repeat reported says how many there were since the key went down, up to 65535 |
| `X11Capture.HandHoldsThem` | crates/geserdesk-platform/src/x11.rs:476-510 | keys reported down stay keys the hand holds iff no release is taken for the hotkey's after a press that was not |
| `X11Capture.NoKeyOutlivesTheHand` | crates/geserdesk-platform/src/x11.rs:476-510 | over a whole grab without that, no key stays down that the hand let go |
| `X11Capture.HotkeyReleaseIsLost` | crates/geserdesk-platform/src/x11.rs:479-482 | a run in which a key stays down in the stream with none down on the keyboard |
| `WindowsCapture.HookState.Key` | crates/geserdesk-platform/src/windows.rs:228-311 | one key event, in place: reported and swallowed or passed on |
| `WindowsCapture.HookState.Button` | crates/geserdesk-platform/src/windows.rs:215-225 | one button event, in place |
| `WindowsCapture.StreamIsLawful` | crates/geserdesk-platform/src/windows.rs:228-311 | whatever the keyboard does, what is reported is lawful, releases included |
| `WindowsCapture.HandHoldsThem` | crates/geserdesk-platform/src/windows.rs:228-311 | keys reported down stay keys the hand holds iff no release of Home is taken for the hotkey's after a press that was not |
| `WindowsCapture.OnlyARepeatOfHome` | crates/geserdesk-platform/src/windows.rs:244-258 | while Home is one thing only no release is lost, and it stays so iff it does not turn from an ordinary key into the hotkey's while down |
| `WindowsCapture.WithoutThatNoneIsLost` | crates/geserdesk-platform/src/windows.rs:244-258 | so over a whole grab in which it never does, none is lost |
| `WindowsCapture.HomeReleaseIsLost` | crates/geserdesk-platform/src/windows.rs:244-258 | a run in which Home stays down in the stream with no key down |
| `WindowsCapture.NoKeyOutlivesTheHand` | crates/geserdesk-platform/src/windows.rs:228-311 | over a whole grab without a lost release, no key stays down in the stream that the hand let go |
| `WindowsCapture.HotkeyIsDownExactly` | crates/geserdesk-platform/src/windows.rs:228-258 | over every run of key events: the hotkey's Home is down iff Home went down while the hand held Ctrl and Alt and has not come up since |
| `WindowsCapture.HotkeyIsSeenOnce` | crates/geserdesk-platform/src/windows.rs:244-258 | the hotkey is reported iff Home goes down with Ctrl and Alt held and was not down so already, over every run |
| `WindowsCapture.RepeatsAreNumbered` | crates/geserdesk-platform/src/windows.rs:272-292 | over every run each repeat reported says how many there were since the key went down, up to 65535 |
| `WindowsCapture.ReportedIsSwallowed` | crates/geserdesk-platform/src/windows.rs:244-311 | whatever is reported is swallowed, and so is every press in a grab |
| `WindowsCapture.NothingTypedReachesTheDesktop` | crates/geserdesk-platform/src/windows.rs:228-311 | over every run until a grab ends, the local desktop believes in no key it did not believe in when it began |
| `WindowsCapture.ReleasePassesExactly` | crates/geserdesk-platform/src/windows.rs:293-297 | in a grab a release passes to the desktop iff its key has a usage, is not made up, is not reported down and is not the hotkey's Home |
| `WindowsCapture.DesktopFollowsTheHand` | crates/geserdesk-platform/src/windows.rs:228-311 | the desktop believes in no key the hand let go, as long as, and only as long as, no release of a key it believes in is kept from it: which those are |
| `WindowsCapture.ApartUntilCrossed` | crates/geserdesk-platform/src/windows.rs:228-311 | none is while what the desktop believes in is apart from what the hook keeps; that lasts iff no key it believes in repeats in a grab, none without a usage or made up is held when one begins, and Home does not become the hotkey's while it believes in it |
| `WindowsCapture.KeysNeverStick` | crates/geserdesk-platform/src/windows.rs:228-311 | over every run of keys, grabs and ungrabs in which none of that happens |
| `WindowsCapture.RepeatedKeySticks` | crates/geserdesk-platform/src/windows.rs:228-311 | a run in which a key held when a grab begins stays down on the desktop |
| `WindowsCapture.MadeUpCtrlSticks` | crates/geserdesk-platform/src/windows.rs:263-265 | a run in which the Ctrl made up for AltGr does |
| `WindowsCapture.PressGoesOneWay` | crates/geserdesk-platform/src/windows.rs:211-225 | a button pressed in a grab is reported and not seen by the desktop, and outside one the other way round |
| `WindowsCapture.ButtonsNeverStick` | crates/geserdesk-platform/src/windows.rs:211-225 | over every run of presses, releases, grabs and ungrabs: no button the hand let go stays down locally or in the grab |
| `HandToClient.StruckIsSeen` | crates/geserdesk-platform/src/windows.rs:228-311 | on either backend a raw key event that is no lost release is reported lawfully and leaves the table within the hand |
| `HandToClient.WiredExactly` | crates/geserdesk-platform/src/x11.rs:276-288 | over a step, the router's idea of the keys continued by the events on their way stays the backend's table, and the table within the hand, iff no release is lost and at a grab those events speak only of keys pressed since |
| `HandToClient.HandleGrabs` | crates/geserdesk-server/src/router.rs:196-210 | after a reaction to input the devices are grabbed iff the input is elsewhere |
| `HandToClient.FirstStationIsRight` | crates/geserdesk-platform/src/x11.rs:339-374 | with either backend, not grabbing, the server starts in such a state, whatever the hand holds |
| `HandToClient.PressedIsHeld` | crates/geserdesk-server/src/router.rs:621-673 | from the hand to the client, in every run without such a step and without a session left behind: once nothing is on its way, a key pressed on a client stands for one the hand holds, the client is where the input is, and the devices are grabbed |
| `HandToClient.LettingGoLetsGo` | crates/geserdesk-server/src/router.rs:621-673 | and with every key let go, nothing is pressed anywhere |
| `Trust.TrustStore.Note` | crates/geserdesk-server/src/trust.rs:86-114 | trusted and pending after the call, in place |
| `Trust.TrustStore.ApproveRequest` | crates/geserdesk-server/src/trust.rs:127-139 | trusted and pending after the call, in place |
| `Trust.TrustStore.DismissRequest` | crates/geserdesk-server/src/trust.rs:142-149 | trusted and pending after the call, in place |
| `Trust.TrustStore.Revoke` | crates/geserdesk-server/src/trust.rs:152-154 | trusted and pending after the call, in place |
| `Trust.TrustStore.PutBack` | crates/geserdesk-server/src/trust.rs:158-164 | trusted and pending after the call, in place |
| `Trust.DeskAdministration.ApproveScreen` | crates/geserdesk-server/src/admin.rs:354-390 | approval, the write that may fail, and its undoing, in place |
| `Trust.DeskAdministration.RevokeScreen` | crates/geserdesk-server/src/admin.rs:427-439 | revocation likewise |
| `Trust.TrustStore.List` | crates/geserdesk-server/src/trust.rs:116-122 | the requests shown, those older than ten minutes forgotten |
| `Trust.TrustStore.Verify` | crates/geserdesk-server/src/trust.rs:72-78 | the verdict on a certificate |
| `Trust.MemoryIsTheFile` | crates/geserdesk-server/src/admin.rs:354-439 | over every run with writes failing as they like: what is trusted is what the file records, the desk's screens are the file's, and pending pairs are unique and at most 16 |
| `Trust.AskingIsNoted` | crates/geserdesk-server/src/trust.rs:86-112 | whoever asks is on the list with what it asked just now; the others stay that are not ten minutes old, but for the oldest of sixteen if the one that asks is new |
| `Trust.ApprovalTakesEffect` | crates/geserdesk-server/src/admin.rs:354-390 | exactly when an approval takes effect, with a plain name spelled out (at most 64 bytes of UTF-8, no white space of Unicode around it, no control characters), and everything it then changes |
| `Trust.DismissDrops` | crates/geserdesk-server/src/trust.rs:142-149 | a dismissed request waits no more, all others stay in their order |
| `Trust.DismissedStaysOut` | crates/geserdesk-server/src/trust.rs:127-149 | over every run: a dismissed certificate is neither approved nor let in until it asks again |
| `Trust.RevocationIsSavedOrUndone` | crates/geserdesk-server/src/admin.rs:427-439 | exactly when a revocation takes effect, fails to be saved, or is refused, and what is left then |
| `Trust.RevokedStaysOut` | crates/geserdesk-server/src/trust.rs:152-163 | over every run: after a revocation no certificate is let in for the name without an approval of its own |
| `Trust.TrustNeedsApproval` | crates/geserdesk-server/src/trust.rs:127-139 | a pair becomes trusted only by an approval of that pair while it was pending |
| `Trust.TrustedWereConfiguredOrAsked` | crates/geserdesk-server/src/trust.rs:86-139 | in every run, a trusted pair was configured or asked for that very name |
| `Trust.LetInIsRecorded` | crates/geserdesk-server/src/trust.rs:72-78 | in every run, a certificate is let in iff the file records it for that name |
| `Trust.FailedSaveForgetsRequests` | crates/geserdesk-server/src/admin.rs:354-390 | exactly when an approval cannot be saved (a valid or known name whose request waits, and a file that is not written or would have to change), and that it then leaves memory and file as before but forgets the requests in that name |
| `Trust.HiddenYetApprovable` | crates/geserdesk-server/src/trust.rs:116-139 | a request can be approved though the list does not show it iff it waits and is ten minutes old or more |
| `Trust.ListingForgets` | crates/geserdesk-server/src/trust.rs:116-139 | right after the list was shown, what can be approved is what it showed |
| `Trust.OldRequestIsApproved` | crates/geserdesk-server/src/trust.rs:116-139 | a run in which an old request is approved |
| `DeskAdmin.ValidateLoops` | crates/geserdesk-server/src/admin.rs:271-337 | the three loops with their early returns are the specified check, error by error |
| `DeskAdmin.MoveAllMoves` | crates/geserdesk-server/src/admin.rs:276-287 | positions are taken over iff every one names a screen and is within a million either way, and then just those; else the first that is not is refused, for why |
| `DeskAdmin.SizesAreTakenExactly` | crates/geserdesk-server/src/admin.rs:289-311 | sizes are taken over iff every one names a screen and is none, its own, or from 64 to a million each way; else the first that is not is refused, for why |
| `DeskAdmin.ResizeAllResizes` | crates/geserdesk-server/src/admin.rs:289-311 | each machine named ends with the desk size asked for, stored only where it is a stretch; the others keep theirs |
| `DeskAdmin.IntersectsMeansShares` | crates/geserdesk-server/src/admin.rs:446-448 | two rectangles intersect iff some point is in both |
| `DeskAdmin.FirstOverlapFinds` | crates/geserdesk-server/src/admin.rs:328-334 | no overlap is reported iff no two machines share a pixel of the desk |
| `DeskAdmin.WhollyPlacedExactly` | crates/geserdesk-server/src/admin.rs:317-327 | every point a machine owns is on the rectangles the check looks at iff the rows and columns left out next to its edges are covered by others of its rectangles |
| `DeskAdmin.AlignedIsWhollyPlaced` | crates/geserdesk-server/src/admin.rs:317-327 | so it is where the right and bottom edge of every monitor round alike both ways |
| `DeskAdmin.PlainIsWhollyPlaced` | crates/geserdesk-server/src/admin.rs:317-327 | so it is for a machine that is not stretched or has one monitor |
| `DeskAdmin.OnePointOneOwner` | crates/geserdesk-server/src/admin.rs:313-335 | after `validate` succeeds a desk point belongs to one at most of the connected machines that are wholly placed |
| `DeskAdmin.OneOwnerExactly` | crates/geserdesk-server/src/admin.rs:313-335 | that is exact: no accepted layout of a machine with an unstretched other gives both a point iff the machine is wholly placed |
| `DeskAdmin.SharedPoint` | crates/geserdesk-server/src/admin.rs:271-337 | where the seam of two monitors rounds down, layouts and stretches that `validate` accepts and in which two machines own one desk point |
| `DeskAdmin.SuchASeam` | crates/geserdesk-server/src/desk.rs:58-77 | there is such a seam: 100 and 101 pixels, stretched to 300 |
| `DeskAdmin.OrderDoesNotMatter` | crates/geserdesk-server/src/router.rs:293-307 | where points have one owner at most, `locate` is the same for every order of names |
| `DeskAdmin.AppliedIsAccepted` | crates/geserdesk-server/src/admin.rs:246-266 | once the router has taken in the two announcements of an accepted layout, its frame of every screen it knows is the accepted one, and the screen owns the points it was accepted to own |
| `DeskAdmin.LocateIsUnambiguous` | crates/geserdesk-server/src/router.rs:293-307 | end to end: after a layout is accepted in which every screen the router knows is wholly placed, and its announcements are taken in, every point leads to the same screen in whatever order names are tried |

## Left out

- Router.Core.HandleEvent: does not hold the modifiers that toggle (`toggle_mods` is always empty in the source) nor the pulling of files when the cursor comes home.
- RouterRuns.DrainSafe: a name is one session, and a send that failed once fails for the rest of the drain; `Sessions.NoStuckKeys` and `SessionRuns.RunsAreSafe` are without this.
- RouterRuns.TurnIsSafe: likewise one session to a name; and a failed grab is reported at once, where `HandToClient.PressedIsHeld` lets the report queue.
- RouterKeys.RunsAreSafe: likewise one session to a name; the general case is `SessionRuns.RunsAreSafe`.
- RouterKeys.NoStuckKeys: likewise one session to a name; the general case is `Sessions.NoStuckKeys`. A real disconnection counts as Leave, because a session's end lets go of everything.
- SessionRuns.SafeExactly: exact only between reactions; within one the condition suffices, and a name taken again then may do no harm.
- Sessions.NoStuckKeys: what is sent to a session is there at once; messages on their way over the network are not modelled.
- HandToClient.PressedIsHeld: events reach the router through a queue, while a command to the backend is obeyed at once.
- RouterMotion.CursorFollowsTheHand: does not follow a run across screens, where the point is rounded by each machine's stretch.
- Input.EnigoSink.OnKey: does not model a press the operating system refuses, nor the choice of a symbol for a character, which is a parameter.
- Framing.FramingUndoesItself: payloads are bytes; the encoding of messages (postcard) is not modelled.
- Transfers.TransfersRoundTrip: encoding and decoding of contents are a pair of functions with decode after encode the identity; nothing else is asked of them.
- ClipSync.NoEcho: fingerprints are equality, a transfer between machines is one message, and a clipboard can be read when sharing begins and after a write.
- Pulling.LimitRefusesExactly: sums as a release build does; one with overflow checks stops at such a manifest.
- DeskAdmin.LocateIsUnambiguous: the editor's layout and this machine's monitors are those the router has taken in, and every machine the router knows is in the layout.
- ClipSync.OneCopySettles: one copy at a time; concurrent copies need not converge, since the one who pushed is passed over in the broadcast.
- FileTrees.CollectLists: a folder's entries are given in name order, as the source sorts them; the disk does not change during the walk.
- Pulling.FileOwner.Read: a folder or a device that has taken a file's place answers Changed, whatever length it reports.
- Pulling.FailedPullLeavesNothing: removing the destination after a failure is taken to succeed, as the source can only warn when it does not.
- Pulling.PullRoundTrip: asks that nothing is below the destination before, which the callers see to with a fresh folder per transfer.
- FileRouting.RequestsAreConserved: the requests of a disconnected owner are answered in the order of their numbers, where the source takes them in the order of a hash table; handing an answer to a client that has itself gone counts as giving it.
- FileSessions.RoutedPullIsExactOrNothing: what each machine serves, and its disk, do not change during the run; a change shows as an error answer, which is allowed.
- FileSessions.ReadsGetTheirOwnAnswers: a session ends and the next begins in one step, and what was answered before it went to the session before or was lost.
- X11Capture.MotionIsConserved: takes a warp to cause one motion event at the centre, as the X server does for a pointer that is elsewhere.
- X11Capture.StreamIsLawful: asks that no two key codes share a HID usage, which the key table satisfies.
- WindowsCapture.HandHoldsThem: the Ctrl that Windows makes up for AltGr is nobody's key and changes nothing in the hand.
- WindowsCapture.DesktopFollowsTheHand: the desktop's belief is a set of keys that presses and releases reaching it change; other programs' hooks and injected keys are not modelled.
- Staging.AcceptedStaysInside: Windows is separators, drives, the folder above and trimmed ends; short names and links on the disk are not modelled.
- RouterEdges.LeavesHomeExactly: the samples' times never decrease, as the clock of the source.
- Input.SinkIsAsTold: every press and release the sink asks for is carried out.
- Trust.MemoryIsTheFile: each administrative call is one step; the source takes its locks one after the other.
- Integers are unbounded: coordinates are far from the limits of `i32`, transfer and request numbers from those of `u64`. Where a width matters (frame prefixes, chunk totals, file totals, repeat counts) it is written out.
- The `f64` ratios of a stretched machine are exact fractions, rounded as the source rounds.
- Sockets, TLS, timers and tasks: a timeout is one more way for a read to fail, a lock one step.
- Operating-system calls (enigo, Win32, X11, arboard, monitors): only their effect on the state modelled.
- Progress reports, history, PNG, hashing, the TOML text of the config file (a map from screen to record here), command line, desktop user interface.
- Key tables and the character a key types: finite tables, taken as parameters.
- `Layout` is a value here; the router and the administration replace theirs.
