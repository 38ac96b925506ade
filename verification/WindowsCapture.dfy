/** The hooks that capture keys and mouse buttons on Windows
    (`geserdesk-platform/src/windows.rs`). */
module WindowsCapture {
  import opened Wrappers
  import opened Input
  import opened KeyStreams

  const HOME: Hid := 0x4A

  const CTRL_KEYS: set<Hid> := {0xE0, 0xE4}
  const ALT_KEYS: set<Hid> := {0xE2, 0xE6}

  predicate IsModifierKey(hid: Hid) {
    0xE0 <= hid <= 0xE7
  }

  /** A raw key event: the key, if it has a HID usage; whether it is the hotkey's Home; whether it is
      the Ctrl that Windows makes up for AltGr. */
  datatype RawKey = RawKey(hid: Option<Hid>, home: bool, madeUp: bool, down: bool)

  /** Keys and buttons whose press was swallowed since the grab, whether the hotkey's Home is down,
      and the modifier keys held. */
  datatype Hook = Hook(keys: map<Hid, nat>, buttons: set<nat>, hotkeyDown: bool, held: set<Hid>, grabbed: bool)
  {
    predicate Chord() {
      held * CTRL_KEYS != {} && held * ALT_KEYS != {}
    }

    function Track(raw: RawKey): Hook {
      if raw.madeUp || raw.hid.None? || !IsModifierKey(raw.hid.value) then this
      else this.(held := if raw.down then held + {raw.hid.value} else held - {raw.hid.value})
    }
  }

  /** How one event was dealt with: the hook after it, what was reported, and whether the local
      desktop was kept from seeing it. */
  datatype Dealt = Dealt(hook: Hook, seen: Seen, swallowed: bool)

  function OnKey(before: Hook, raw: RawKey): Dealt {
    var h := before.Track(raw);
    if raw.home && raw.down && h.Chord() then Dealt(h.(hotkeyDown := true), if h.hotkeyDown then Silent else HotkeySeen, true)
    else if raw.home && h.hotkeyDown then Dealt(h.(hotkeyDown := raw.down), Silent, true)
    else if !h.grabbed then Dealt(h, Silent, false)
    else if raw.madeUp || raw.hid.None? then Dealt(h, Silent, true)
    else
      var hid := raw.hid.value;
      if raw.down then
        if hid in h.keys then Dealt(h.(keys := h.keys[hid := NextCount(h.keys[hid])]), KeySeen(hid, Repeat(NextCount(h.keys[hid]))), true)
        else Dealt(h.(keys := h.keys[hid := 0]), KeySeen(hid, Down), true)
      else if hid in h.keys then Dealt(h.(keys := h.keys - {hid}), KeySeen(hid, Up), true)
      else Dealt(h, Silent, false)
  }

  /** Whether the event is reported, and swallowed. */
  function OnButton(h: Hook, id: nat, down: bool): (Hook, bool) {
    if !h.grabbed then (h, false)
    else if down then (h.(buttons := h.buttons + {id}), true)
    else if id in h.buttons then (h.(buttons := h.buttons - {id}), true)
    else (h, false)
  }

  class HookState {
    var keys: map<Hid, nat>
    var buttons: set<nat>
    var hotkeyDown: bool
    var held: set<Hid>
    var grabbed: bool

    function View(): Hook
      reads this
    {
      Hook(keys, buttons, hotkeyDown, held, grabbed)
    }

    constructor ()
      ensures View() == Hook(map[], {}, false, {}, false)
    {
      keys, buttons, hotkeyDown, held, grabbed := map[], {}, false, {}, false;
    }

    /** `really` is what Windows says is held, asked while nothing is swallowed. */
    method Grab(really: set<Hid>)
      modifies this
      ensures View() == Hook(map[], {}, old(hotkeyDown), really, true)
    {
      held := really;
      keys := map[];
      buttons := {};
      grabbed := true;
    }

    method Release()
      modifies this
      ensures View() == Hook(map[], {}, old(hotkeyDown), old(held), false)
    {
      grabbed := false;
      keys := map[];
      buttons := {};
    }

    method Key(raw: RawKey) returns (seen: Seen, swallowed: bool)
      modifies this
      ensures Dealt(View(), seen, swallowed) == OnKey(old(View()), raw)
    {
      if !raw.madeUp && raw.hid.Some? && IsModifierKey(raw.hid.value) {
        held := if raw.down then held + {raw.hid.value} else held - {raw.hid.value};
      }
      if raw.home {
        if raw.down && View().Chord() {
          seen := if hotkeyDown then Silent else HotkeySeen;
          hotkeyDown := true;
          return seen, true;
        }
        if hotkeyDown {
          if !raw.down {
            hotkeyDown := false;
          }
          return Silent, true;
        }
      }
      if !grabbed {
        return Silent, false;
      }
      if raw.madeUp || raw.hid.None? {
        return Silent, true;
      }
      var hid := raw.hid.value;
      var action: KeyAction;
      if raw.down {
        if hid in keys {
          keys := keys[hid := NextCount(keys[hid])];
          action := Repeat(keys[hid]);
        } else {
          keys := keys[hid := 0];
          action := Down;
        }
      } else if hid in keys {
        keys := keys - {hid};
        action := Up;
      } else {
        return Silent, false;
      }
      return KeySeen(hid, action), true;
    }

    method Button(id: nat, down: bool) returns (swallowed: bool)
      modifies this
      ensures (View(), swallowed) == OnButton(old(View()), id, down)
    {
      if !grabbed {
        return false;
      }
      if down {
        buttons := buttons + {id};
      } else if id in buttons {
        buttons := buttons - {id};
      } else {
        return false;
      }
      return true;
    }
  }

  // ---- the keyboard ----------------------------------------------------------------------------

  function Stream(h: Hook, raws: seq<RawKey>): seq<Seen>
    decreases |raws|
  {
    if raws == [] then [] else [OnKey(h, raws[0]).seen] + Stream(OnKey(h, raws[0]).hook, raws[1..])
  }

  function After(h: Hook, raws: seq<RawKey>): Hook
    decreases |raws|
  {
    if raws == [] then h else After(OnKey(h, raws[0]).hook, raws[1..])
  }

  /** Whatever the keyboard does after a grab, what is reported is lawful, and the table holds exactly
      what was reported down; unlike on X11 a key is never reported up without having been down. */
  lemma {:induction false} StreamIsLawful(h: Hook, raws: seq<RawKey>)
    ensures Lawful(h.keys.Keys, Stream(h, raws)) && Held(h.keys.Keys, Stream(h, raws)) == After(h, raws).keys.Keys
    decreases |raws|
  {
    if raws != [] {
      var d := OnKey(h, raws[0]);
      assert HeldAfter(h.keys.Keys, d.seen) == d.hook.keys.Keys;
      StreamIsLawful(d.hook, raws[1..]);
      assert Stream(h, raws)[1..] == Stream(d.hook, raws[1..]);
    }
  }

  lemma {:induction false} AfterOneMore(h: Hook, raws: seq<RawKey>)
    requires raws != []
    ensures After(h, raws) == OnKey(After(h, raws[..|raws| - 1]), raws[|raws| - 1]).hook
    decreases |raws|
  {
    if |raws| > 1 {
      AfterOneMore(OnKey(h, raws[0]).hook, raws[1..]);
      assert raws[1..][..|raws| - 2] == raws[..|raws| - 1][1..];
    }
  }

  lemma {:induction false} StreamOneMore(h: Hook, raws: seq<RawKey>)
    requires raws != []
    ensures var front, last := raws[..|raws| - 1], raws[|raws| - 1];
      Stream(h, raws) == Stream(h, front) + [OnKey(After(h, front), last).seen]
    decreases |raws|
  {
    if |raws| > 1 {
      StreamOneMore(OnKey(h, raws[0]).hook, raws[1..]);
      assert raws[1..][..|raws| - 2] == raws[..|raws| - 1][1..];
    }
  }

  /** Whatever the keyboard does after a grab, each repeat reported says how many there were since the key
      went down. */
  lemma {:induction false} RepeatsAreNumbered(h: Hook, raws: seq<RawKey>)
    requires h.keys == map[]
    ensures Numbered(Stream(h, raws)) && Tells(After(h, raws).keys, Stream(h, raws))
    decreases |raws|
  {
    if raws != [] {
      var n := |raws| - 1;
      var front, now := Stream(h, raws[..n]), After(h, raws[..n]);
      var d := OnKey(now, raws[n]);
      RepeatsAreNumbered(h, raws[..n]);
      StreamOneMore(h, raws);
      AfterOneMore(h, raws);
      TableFollows(now, raws[n]);
      OneMoreTells(now.keys, front, d.seen, d.hook.keys);
    }
  }

  lemma TableFollows(h: Hook, raw: RawKey)
    ensures Follows(h.keys, OnKey(h, raw).seen, OnKey(h, raw).hook.keys)
  {
  }

  /** The keys the hand holds down. */
  function HandAfter(hand: set<Hid>, raw: RawKey): set<Hid> {
    if raw.hid.None? || raw.madeUp then hand else if raw.down then hand + {raw.hid.value} else hand - {raw.hid.value}
  }

  /** The release of Home, reported down as an ordinary key, taken for the hotkey's. */
  predicate LostRelease(h: Hook, raw: RawKey) {
    !raw.down && raw.home && h.hotkeyDown && HOME in h.keys
  }

  /** As Windows reports it: Home is Home by either mark, and what is made up for AltGr is a Ctrl. */
  predicate Ordinary(raw: RawKey) {
    (raw.home <==> raw.hid == Some(HOME)) && (raw.madeUp ==> raw.hid.Some? && raw.hid.value in CTRL_KEYS)
  }

  /** The keys reported down stay keys the hand holds, exactly as long as no release is taken for the
      hotkey's after a press that was not. */
  lemma HandHoldsThem(h: Hook, raw: RawKey, hand: set<Hid>)
    requires h.grabbed && h.keys.Keys <= hand && Ordinary(raw)
    ensures OnKey(h, raw).hook.keys.Keys <= HandAfter(hand, raw) <==> !LostRelease(h, raw)
  {
    if LostRelease(h, raw) {
      assert HOME in OnKey(h, raw).hook.keys.Keys;
    }
  }

  /** Home is either the hotkey's or an ordinary key that was reported, not both. */
  predicate OneHome(h: Hook) {
    h.hotkeyDown ==> HOME !in h.keys
  }

  /** Home, reported down as an ordinary key, repeats while Ctrl and Alt are held. */
  predicate BecomesHotkey(h: Hook, raw: RawKey) {
    raw.home && raw.down && h.Track(raw).Chord() && HOME in h.keys
  }

  /** What makes a lost release possible, and all that does: while Home is one thing only, none is
      lost, and it stays so exactly as long as Home does not turn from one into the other. */
  lemma OnlyARepeatOfHome(h: Hook, raw: RawKey)
    requires OneHome(h) && Ordinary(raw)
    ensures !LostRelease(h, raw) && (OneHome(OnKey(h, raw).hook) <==> !BecomesHotkey(h, raw))
  {
  }

  predicate NoneLost(h: Hook, raws: seq<RawKey>)
    decreases |raws|
  {
    raws == [] || (Ordinary(raws[0]) && !LostRelease(h, raws[0]) && NoneLost(OnKey(h, raws[0]).hook, raws[1..]))
  }

  predicate NeverBecomesHotkey(h: Hook, raws: seq<RawKey>)
    decreases |raws|
  {
    raws == [] || (Ordinary(raws[0]) && !BecomesHotkey(h, raws[0]) && NeverBecomesHotkey(OnKey(h, raws[0]).hook, raws[1..]))
  }

  function HandAfterAll(hand: set<Hid>, raws: seq<RawKey>): set<Hid>
    decreases |raws|
  {
    if raws == [] then hand else HandAfterAll(HandAfter(hand, raws[0]), raws[1..])
  }

  /** Over a whole grab without a lost release: no key stays down in the stream that the hand has let
      go. */
  lemma {:induction false} NoKeyOutlivesTheHand(h: Hook, raws: seq<RawKey>, hand: set<Hid>)
    requires h.grabbed && h.keys.Keys <= hand && NoneLost(h, raws)
    ensures Held(h.keys.Keys, Stream(h, raws)) <= HandAfterAll(hand, raws)
    decreases |raws|
  {
    if raws != [] {
      HandHoldsThem(h, raws[0], hand);
      var d := OnKey(h, raws[0]);
      NoKeyOutlivesTheHand(d.hook, raws[1..], HandAfter(hand, raws[0]));
      assert HeldAfter(h.keys.Keys, d.seen) == d.hook.keys.Keys;
      assert Stream(h, raws)[1..] == Stream(d.hook, raws[1..]);
    }
  }

  /** A grab in which Home never turns into the hotkey's loses none. */
  lemma {:induction false} WithoutThatNoneIsLost(h: Hook, raws: seq<RawKey>)
    requires OneHome(h) && NeverBecomesHotkey(h, raws)
    ensures NoneLost(h, raws)
    decreases |raws|
  {
    if raws != [] {
      OnlyARepeatOfHome(h, raws[0]);
      WithoutThatNoneIsLost(OnKey(h, raws[0]).hook, raws[1..]);
    }
  }

  function Pressed(hid: Hid): RawKey {
    RawKey(Some(hid), hid == HOME, false, true)
  }

  function LetGoOf(hid: Hid): RawKey {
    RawKey(Some(hid), hid == HOME, false, false)
  }

  lemma AtStep(h: Hook, hand: set<Hid>, raws: seq<RawKey>, i: nat)
    requires i < |raws|
    ensures After(h, raws[i..]) == After(OnKey(h, raws[i]).hook, raws[i + 1..])
    ensures HandAfterAll(hand, raws[i..]) == HandAfterAll(HandAfter(hand, raws[i]), raws[i + 1..])
  {
    assert raws[i..][0] == raws[i] && raws[i..][1..] == raws[i + 1..];
  }

  /** It happens: Home pressed alone, then Ctrl and Alt, a repeat of Home, and everything let go:
      Home stays down in the stream with no key down at all. */
  lemma HomeReleaseIsLost(h: Hook, raws: seq<RawKey>)
    requires h == Hook(map[], {}, false, {}, true)
    requires raws == [Pressed(HOME), Pressed(0xE0), Pressed(0xE2), Pressed(HOME), LetGoOf(HOME), LetGoOf(0xE0), LetGoOf(0xE2)]
    ensures Held({}, Stream(h, raws)) == {HOME} && HandAfterAll({}, raws) == {}
  {
    var h3 := HomeThenChord(h, raws);
    HomeRepeatsAndAllLetGo(h3, raws);
    assert raws[0..] == raws;
    StreamIsLawful(h, raws);
    assert h.keys.Keys == {};
  }

  lemma HomeThenChord(h: Hook, raws: seq<RawKey>) returns (h3: Hook)
    requires h == Hook(map[], {}, false, {}, true) && |raws| >= 3
    requires raws[0] == Pressed(HOME) && raws[1] == Pressed(0xE0) && raws[2] == Pressed(0xE2)
    ensures After(h, raws[0..]) == After(h3, raws[3..]) && HandAfterAll({}, raws[0..]) == HandAfterAll({HOME, 0xE0, 0xE2}, raws[3..])
    ensures h3 == Hook(map[HOME := 0, 0xE0 := 0, 0xE2 := 0], {}, false, {0xE0, 0xE2}, true)
  {
    var h1 := OnKey(h, raws[0]).hook;
    var h2 := OnKey(h1, raws[1]).hook;
    h3 := OnKey(h2, raws[2]).hook;
    AtStep(h, {}, raws, 0);
    AtStep(h1, {HOME}, raws, 1);
    AtStep(h2, {HOME, 0xE0}, raws, 2);
    assert {} + {HOME} == {HOME} && {HOME} + {0xE0} == {HOME, 0xE0} && {HOME, 0xE0} + {0xE2} == {HOME, 0xE0, 0xE2};
    assert h2.held == {0xE0} && h3.held == {0xE0, 0xE2};
  }

  lemma HomeRepeatsAndAllLetGo(h3: Hook, raws: seq<RawKey>)
    requires h3 == Hook(map[HOME := 0, 0xE0 := 0, 0xE2 := 0], {}, false, {0xE0, 0xE2}, true) && |raws| == 7
    requires raws[3] == Pressed(HOME) && raws[4] == LetGoOf(HOME) && raws[5] == LetGoOf(0xE0) && raws[6] == LetGoOf(0xE2)
    ensures After(h3, raws[3..]).keys.Keys == {HOME} && HandAfterAll({HOME, 0xE0, 0xE2}, raws[3..]) == {}
  {
    assert 0xE0 in h3.held * CTRL_KEYS && 0xE2 in h3.held * ALT_KEYS;
    var h4 := OnKey(h3, raws[3]).hook;
    var h5 := OnKey(h4, raws[4]).hook;
    var h6 := OnKey(h5, raws[5]).hook;
    var h7 := OnKey(h6, raws[6]).hook;
    assert h4 == h3.(hotkeyDown := true) && h5 == h3;
    AtStep(h3, {HOME, 0xE0, 0xE2}, raws, 3);
    AtStep(h4, {HOME, 0xE0, 0xE2}, raws, 4);
    AtStep(h5, {0xE0, 0xE2}, raws, 5);
    AtStep(h6, {0xE2}, raws, 6);
    assert {HOME, 0xE0, 0xE2} + {HOME} == {HOME, 0xE0, 0xE2} && {HOME, 0xE0, 0xE2} - {HOME} == {0xE0, 0xE2};
    assert {0xE0, 0xE2} - {0xE0} == {0xE2} && {0xE2} - {0xE2} == {};
    assert raws[7..] == [] && h7.keys.Keys == {HOME};
  }

  // ---- when the hotkey's Home is down ---------------------------------------------------------------

  /** The modifier keys the hook goes by are those the hand holds. */
  predicate Tracks(h: Hook, hand: set<Hid>) {
    h.held == set k | k in hand && 0xE0 <= k <= 0xE7
  }

  /** Ctrl and Alt are held, on either side. */
  predicate CtrlAlt(hand: set<Hid>) {
    (0xE0 in hand || 0xE4 in hand) && (0xE2 in hand || 0xE6 in hand)
  }

  lemma TracksOn(h: Hook, raw: RawKey, hand: set<Hid>)
    requires Tracks(h, hand)
    ensures Tracks(OnKey(h, raw).hook, HandAfter(hand, raw))
    ensures h.Track(raw).Chord() <==> CtrlAlt(HandAfter(hand, raw))
  {
    var t := h.Track(raw);
    assert OnKey(h, raw).hook.held == t.held;
    assert t.Chord() <==> (0xE0 in t.held || 0xE4 in t.held) && (0xE2 in t.held || 0xE6 in t.held) by {
      assert forall k :: k in t.held * CTRL_KEYS <==> k in t.held && (k == 0xE0 || k == 0xE4);
      assert forall k :: k in t.held * ALT_KEYS <==> k in t.held && (k == 0xE2 || k == 0xE6);
    }
  }

  /** Home went down at event `i` with Ctrl and Alt held, and has not come up since. */
  predicate ChordAt(raws: seq<RawKey>, hand: set<Hid>, i: int) {
    && 0 <= i < |raws| && raws[i].home && raws[i].down && CtrlAlt(HandAfterAll(hand, raws[..i + 1]))
    && forall j :: i < j < |raws| ==> raws[j].home ==> raws[j].down
  }

  lemma {:induction false} HandAfterOneMore(hand: set<Hid>, raws: seq<RawKey>)
    requires raws != []
    ensures HandAfterAll(hand, raws) == HandAfter(HandAfterAll(hand, raws[..|raws| - 1]), raws[|raws| - 1])
    decreases |raws|
  {
    if |raws| > 1 {
      HandAfterOneMore(HandAfter(hand, raws[0]), raws[1..]);
      assert raws[1..][..|raws| - 2] == raws[..|raws| - 1][1..];
    }
  }

  /** Over every run of key events: the hotkey's Home is down exactly if Home went down while the hand held
      Ctrl and Alt, and has not come up since. */
  lemma {:induction false} HotkeyIsDownExactly(h: Hook, raws: seq<RawKey>, hand: set<Hid>)
    requires !h.hotkeyDown && Tracks(h, hand)
    ensures Tracks(After(h, raws), HandAfterAll(hand, raws))
    ensures After(h, raws).hotkeyDown <==> exists i :: ChordAt(raws, hand, i)
    decreases |raws|
  {
    if raws != [] {
      var n := |raws| - 1;
      var front := raws[..n];
      HotkeyIsDownExactly(h, front, hand);
      AfterOneMore(h, raws);
      HandAfterOneMore(hand, raws);
      TracksOn(After(h, front), raws[n], HandAfterAll(hand, front));
      assert raws[..n + 1] == raws;
      if i :| ChordAt(front, hand, i) {
        assert front[..i + 1] == raws[..i + 1];
        assert raws[n].home ==> raws[n].down <==> ChordAt(raws, hand, i);
      }
      if i :| ChordAt(raws, hand, i) && i < n {
        assert front[..i + 1] == raws[..i + 1];
        assert ChordAt(front, hand, i);
      }
      if raws[n].home && raws[n].down && CtrlAlt(HandAfterAll(hand, raws)) {
        assert ChordAt(raws, hand, n);
      }
    }
  }

  /** ... and the hotkey is reported once each time: when Home goes down with Ctrl and Alt held, and was not
      down so already. */
  lemma HotkeyIsSeenOnce(h: Hook, raws: seq<RawKey>, hand: set<Hid>, raw: RawKey)
    requires !h.hotkeyDown && Tracks(h, hand)
    ensures OnKey(After(h, raws), raw).seen == HotkeySeen <==>
      raw.home && raw.down && CtrlAlt(HandAfter(HandAfterAll(hand, raws), raw)) && !exists i :: ChordAt(raws, hand, i)
  {
    HotkeyIsDownExactly(h, raws, hand);
    TracksOn(After(h, raws), raw, HandAfterAll(hand, raws));
  }

  // ---- what the local desktop sees of the keys -------------------------------------------------------

  /** The keys of a keyboard, told apart by where they are, and what each is to the hook. */
  datatype Board = Board(hid: nat -> Option<Hid>, home: nat -> bool, madeUp: nat -> bool)
  {
    function Raw(key: nat, down: bool): RawKey {
      RawKey(hid(key), home(key), madeUp(key), down)
    }
  }

  datatype KeyOp = Strike(key: nat, down: bool) | Seize(really: set<Hid>) | Yield | Resync(really: set<Hid>)

  /** The hook, the keys the hand holds, and those the local desktop believes are held. */
  datatype Typing = Typing(hook: Hook, hand: set<nat>, desktop: set<nat>)

  function Toggle(keys: set<nat>, key: nat, down: bool): set<nat> {
    if down then keys + {key} else keys - {key}
  }

  function TypeStep(b: Board, t: Typing, op: KeyOp): Typing {
    match op
    case Strike(key, down) =>
      var d := OnKey(t.hook, b.Raw(key, down));
      Typing(d.hook, Toggle(t.hand, key, down), if d.swallowed then t.desktop else Toggle(t.desktop, key, down))
    case Seize(really) => t.(hook := t.hook.(keys := map[], buttons := {}, held := really, grabbed := true))
    case Yield => t.(hook := t.hook.(keys := map[], buttons := {}, grabbed := false))
    case Resync(really) => if t.hook.grabbed then t else t.(hook := t.hook.(held := really))
  }

  function TypeAll(b: Board, t: Typing, ops: seq<KeyOp>): Typing
    decreases |ops|
  {
    if ops == [] then t else TypeAll(b, TypeStep(b, t, ops[0]), ops[1..])
  }

  /** What is reported never reaches the local desktop too; and in a grab no press does, reported or not. */
  lemma ReportedIsSwallowed(h: Hook, raw: RawKey)
    ensures OnKey(h, raw).seen != Silent || (h.grabbed && raw.down) ==> OnKey(h, raw).swallowed
  {
  }

  /** Nothing typed in a grab reaches the local desktop: until it ends, the desktop believes in no key it
      did not believe in when it began. */
  lemma {:induction false} NothingTypedReachesTheDesktop(b: Board, t: Typing, ops: seq<KeyOp>)
    requires t.hook.grabbed && Yield !in ops
    ensures TypeAll(b, t, ops).hook.grabbed && TypeAll(b, t, ops).desktop <= t.desktop
    decreases |ops|
  {
    if ops != [] {
      assert ops[0] in ops && forall op | op in ops[1..] :: op in ops;
      if ops[0].Strike? {
        ReportedIsSwallowed(t.hook, b.Raw(ops[0].key, ops[0].down));
      }
      NothingTypedReachesTheDesktop(b, TypeStep(b, t, ops[0]), ops[1..]);
    }
  }

  /** Since the grab began, the release of a key passes to the local desktop exactly if it is a key of a
      usage, not made up, whose press was not reported in the grab, and not the hotkey's Home. */
  lemma ReleasePassesExactly(h: Hook, raws: seq<RawKey>, raw: RawKey)
    requires h.grabbed && h.keys == map[] && !raw.down
    ensures var now := After(h, raws);
      !OnKey(now, raw).swallowed <==>
        raw.hid.Some? && !raw.madeUp && raw.hid.value !in Held({}, Stream(h, raws)) && !(raw.home && now.hotkeyDown)
  {
    StreamIsLawful(h, raws);
    assert h.keys.Keys == {};
    StaysGrabbed(h, raws);
  }

  lemma {:induction false} StaysGrabbed(h: Hook, raws: seq<RawKey>)
    ensures After(h, raws).grabbed == h.grabbed
    decreases |raws|
  {
    if raws != [] {
      StaysGrabbed(OnKey(h, raws[0]).hook, raws[1..]);
    }
  }

  /** A release the desktop needs and does not get: of the hotkey's Home; or, in a grab, of a key without
      a usage, of the Ctrl made up for AltGr, or of a key of the same usage as one reported in the grab. */
  predicate KeptFromDesktop(b: Board, t: Typing, op: KeyOp) {
    && op.Strike? && !op.down && op.key in t.desktop
    && ((b.home(op.key) && t.hook.hotkeyDown)
        || (t.hook.grabbed && (b.madeUp(op.key) || b.hid(op.key).None? || b.hid(op.key).value in t.hook.keys)))
  }

  /** The desktop believes in no key the hand has let go, exactly as long as no such release is kept from
      it. */
  lemma DesktopFollowsTheHand(b: Board, t: Typing, op: KeyOp)
    requires t.desktop <= t.hand
    ensures TypeStep(b, t, op).desktop <= TypeStep(b, t, op).hand <==> !KeptFromDesktop(b, t, op)
  {
    if KeptFromDesktop(b, t, op) {
      assert op.key in TypeStep(b, t, op).desktop;
    }
  }

  /** What the desktop believes in and what the hook keeps from it are apart: no key the desktop believes
      in is the hotkey's Home; and in a grab each is a real one, of a usage not reported in the grab. */
  predicate Apart(b: Board, t: Typing) {
    && (forall k | k in t.desktop && b.home(k) :: !t.hook.hotkeyDown)
    && (t.hook.grabbed ==> forall k | k in t.desktop :: !b.madeUp(k) && b.hid(k).Some? && b.hid(k).value !in t.hook.keys)
  }

  /** What ends that: the grab begins while the desktop believes in a key without a usage or in the Ctrl
      made up for AltGr; a key it believes in repeats in the grab, or another of that usage goes down; Home
      goes down with Ctrl and Alt held while the desktop believes in a Home. */
  predicate Crosses(b: Board, t: Typing, op: KeyOp) {
    match op
    case Seize(_) => exists k | k in t.desktop :: b.madeUp(k) || b.hid(k).None?
    case Strike(key, down) =>
      var raw := b.Raw(key, down);
      && down
      && (if raw.home && t.hook.Track(raw).Chord() then exists k | k in t.desktop :: b.home(k)
          else
            && t.hook.grabbed && !(raw.home && t.hook.hotkeyDown) && !raw.madeUp && raw.hid.Some?
            && exists k | k in t.desktop :: b.hid(k) == raw.hid)
    case _ => false
  }

  /** While they are apart no release is kept from the desktop, and they stay apart exactly as long as none
      of those happens. */
  lemma ApartUntilCrossed(b: Board, t: Typing, op: KeyOp)
    requires Apart(b, t)
    ensures !KeptFromDesktop(b, t, op) && (Apart(b, TypeStep(b, t, op)) <==> !Crosses(b, t, op))
  {
  }

  predicate NeverCrosses(b: Board, t: Typing, ops: seq<KeyOp>)
    decreases |ops|
  {
    ops == [] || (!Crosses(b, t, ops[0]) && NeverCrosses(b, TypeStep(b, t, ops[0]), ops[1..]))
  }

  /** Over every run of keys, grabs and ungrabs in which none of those happens, the desktop believes in no
      key the hand has let go. */
  lemma {:induction false} KeysNeverStick(b: Board, t: Typing, ops: seq<KeyOp>)
    requires Apart(b, t) && t.desktop <= t.hand && NeverCrosses(b, t, ops)
    ensures var end := TypeAll(b, t, ops); Apart(b, end) && end.desktop <= end.hand
    decreases |ops|
  {
    if ops != [] {
      ApartUntilCrossed(b, t, ops[0]);
      DesktopFollowsTheHand(b, t, ops[0]);
      KeysNeverStick(b, TypeStep(b, t, ops[0]), ops[1..]);
    }
  }

  /** It does happen: a key held when a grab begins repeats in it and is let go, and the local desktop
      goes on believing that it is down. */
  lemma RepeatedKeySticks(b: Board, t: Typing, key: nat, hid: Hid, ops: seq<KeyOp>)
    requires t == Typing(Hook(map[], {}, false, {}, false), {}, {})
    requires b.hid(key) == Some(hid) && !b.home(key) && !b.madeUp(key)
    requires ops == [Strike(key, true), Seize({}), Strike(key, true), Strike(key, false), Yield]
    ensures var end := TypeAll(b, t, ops); end.hand == {} && end.desktop == {key} && !end.hook.grabbed
  {
    var t1 := TypeStep(b, t, ops[0]);
    var t2 := TypeStep(b, t1, ops[1]);
    var t3 := TypeStep(b, t2, ops[2]);
    var t4 := TypeStep(b, t3, ops[3]);
    assert t3.desktop == {key} && hid in t3.hook.keys;
    assert t4.desktop == {key} && t4.hand == {};
    TypeNext(b, t, ops, 0);
    TypeNext(b, t1, ops, 1);
    TypeNext(b, t2, ops, 2);
    TypeNext(b, t3, ops, 3);
    TypeNext(b, t4, ops, 4);
    assert ops[0..] == ops && ops[5..] == [];
  }

  /** So does the Ctrl made up for an AltGr that is held when a grab begins and let go in it. */
  lemma MadeUpCtrlSticks(b: Board, t: Typing, ctrl: nat, ops: seq<KeyOp>)
    requires t == Typing(Hook(map[], {}, false, {}, false), {}, {}) && b.madeUp(ctrl) && !b.home(ctrl)
    requires ops == [Strike(ctrl, true), Seize({}), Strike(ctrl, false), Yield]
    ensures var end := TypeAll(b, t, ops); end.hand == {} && end.desktop == {ctrl} && !end.hook.grabbed
  {
    var t1 := TypeStep(b, t, ops[0]);
    var t2 := TypeStep(b, t1, ops[1]);
    var t3 := TypeStep(b, t2, ops[2]);
    assert t3.desktop == {ctrl} && t3.hand == {};
    TypeNext(b, t, ops, 0);
    TypeNext(b, t1, ops, 1);
    TypeNext(b, t2, ops, 2);
    TypeNext(b, t3, ops, 3);
    assert ops[0..] == ops && ops[4..] == [];
  }

  lemma TypeNext(b: Board, t: Typing, ops: seq<KeyOp>, i: nat)
    requires i < |ops|
    ensures TypeAll(b, t, ops[i..]) == TypeAll(b, TypeStep(b, t, ops[i]), ops[i + 1..])
  {
    assert ops[i..][0] == ops[i] && ops[i..][1..] == ops[i + 1..];
  }

  // ---- mouse buttons ----------------------------------------------------------------------------------

  datatype MouseOp = Press(id: nat) | LetGo(id: nat) | TakeOver | GiveBack

  /** The hook, the buttons the hand holds, those the local desktop believes are held, and those reported
      down in the grab and not up since: an event of a button is reported exactly if it is swallowed. */
  datatype Mice = Mice(hook: Hook, hand: set<nat>, desktop: set<nat>, reported: set<nat>)

  function MouseStep(m: Mice, op: MouseOp): Mice {
    match op
    case Press(id) =>
      var (h, swallowed) := OnButton(m.hook, id, true);
      Mice(h, m.hand + {id}, if swallowed then m.desktop else m.desktop + {id},
           if swallowed then m.reported + {id} else m.reported)
    case LetGo(id) =>
      var (h, swallowed) := OnButton(m.hook, id, false);
      Mice(h, m.hand - {id}, if swallowed then m.desktop else m.desktop - {id},
           if swallowed then m.reported - {id} else m.reported)
    case TakeOver => m.(hook := m.hook.(keys := map[], buttons := {}, grabbed := true), reported := {})
    case GiveBack => m.(hook := m.hook.(keys := map[], buttons := {}, grabbed := false), reported := {})
  }

  /** A button is pressed only when it is up. */
  predicate CanHappen(m: Mice, op: MouseOp) {
    op.Press? ==> op.id !in m.hand
  }

  /** The desktop, and whoever is told what is reported, believe in no button the hand does not hold; in a
      grab every button it holds is the one's or the other's. */
  predicate NoStuckButton(m: Mice) {
    && m.reported == m.hook.buttons && (!m.hook.grabbed ==> m.reported == {})
    && m.desktop <= m.hand && m.reported <= m.hand && m.desktop !! m.reported
  }

  /** What is pressed in a grab is reported and not seen by the desktop, and before it the other way round. */
  lemma PressGoesOneWay(m: Mice, id: nat)
    requires NoStuckButton(m) && id !in m.hand
    ensures var after := MouseStep(m, Press(id));
      if m.hook.grabbed then after.reported == m.reported + {id} && after.desktop == m.desktop
      else after.reported == {} && after.desktop == m.desktop + {id}
  {
  }

  lemma MouseStepKeeps(m: Mice, op: MouseOp)
    requires NoStuckButton(m) && CanHappen(m, op)
    ensures NoStuckButton(MouseStep(m, op))
  {
  }

  predicate AllHappen(m: Mice, ops: seq<MouseOp>)
    decreases |ops|
  {
    ops == [] || (CanHappen(m, ops[0]) && AllHappen(MouseStep(m, ops[0]), ops[1..]))
  }

  function PlayMouse(m: Mice, ops: seq<MouseOp>): Mice
    decreases |ops|
  {
    if ops == [] then m else PlayMouse(MouseStep(m, ops[0]), ops[1..])
  }

  /** Over every run of presses, releases, grabs and ungrabs, a drag across an edge included: a button
      the hand has let go is never left down, neither locally nor in what the grab reports. */
  lemma {:induction false} ButtonsNeverStick(m: Mice, ops: seq<MouseOp>)
    requires NoStuckButton(m) && AllHappen(m, ops)
    ensures NoStuckButton(PlayMouse(m, ops))
    decreases |ops|
  {
    if ops != [] {
      MouseStepKeeps(m, ops[0]);
      ButtonsNeverStick(MouseStep(m, ops[0]), ops[1..]);
    }
  }
}
