/** Key and mouse events, key rules, and what a client does with a key it is sent
    (`geserdesk-proto/src/input.rs`, `keys.rs`, `geserdesk-client/src/inject.rs`). */
module Input {
  import opened Wrappers
  import opened Geometry

  /** A USB HID usage, page in the high byte. */
  type Hid = nat

  datatype Mod = Shift | Control | Alt | Meta | Super | AltGr | CapsLock | NumLock

  datatype KeyAction = Down | Up | Repeat(count: nat)

  datatype KeyEvent = KeyEvent(hid: Hid, ch: Option<char>, mods: set<Mod>, action: KeyAction)

  datatype MouseEvent =
    | MoveAbs(to: Point)
    | MoveRel(dx: int, dy: int)
    | Button(button: nat, down: bool)
    | Wheel(wx: int, wy: int)

  /** What the router sends a client. */
  datatype ServerMsg =
    | Enter(at: Point, number: nat)
    | Leave
    | Key(key: KeyEvent)
    | Mouse(mouse: MouseEvent)

  /** A key combination that stands for an action. */
  datatype Rule = Rule(mods: set<Mod>, hid: Hid, action: Hid) {
    predicate Matches(key: Hid, held: set<Mod>) {
      hid == key && RuleMods(held) == mods
    }
  }

  function RuleMods(mods: set<Mod>): set<Mod> {
    mods * {Shift, Control, Alt, Super, AltGr}
  }

  const FIRST_EXTRA: Hid := 0x0B00

  /** Not a key of a keyboard but an action: every rule's action is one. */
  predicate IsExtra(hid: Hid) {
    hid >= FIRST_EXTRA
  }

  datatype ModifierKeys = ModifierKeys(bit: Mod, keys: seq<Hid>)

  /** The keys of each modifier, left and right. */
  const MODIFIER_KEYS: seq<ModifierKeys> := [
    ModifierKeys(Control, [0xE0, 0xE4]),
    ModifierKeys(Alt, [0xE2, 0xE6]),
    ModifierKeys(Shift, [0xE1, 0xE5]),
    ModifierKeys(Super, [0xE3, 0xE7]),
    ModifierKeys(AltGr, [0xE6])
  ]

  /** The keys of the modifiers `mods`: in the HID usage tables (Keyboard/Keypad page) 0xE0 to 0xE3 are
      Control, Shift, Alt and Super on the left, the next four the same on the right; AltGr is the Alt on
      the right. */
  predicate ModifierKey(mods: set<Mod>, h: Hid) {
    || (0xE0 <= h <= 0xE7 && [Control, Shift, Alt, Super][(h - 0xE0) % 4] in mods)
    || (h == 0xE6 && AltGr in mods)
  }

  lemma TableIsModifierKeys(mods: set<Mod>, h: Hid, table: seq<ModifierKeys>)
    requires table == MODIFIER_KEYS
    ensures ModifierKey(mods, h) <==> exists m :: m in table && m.bit in mods && h in m.keys
  {
    var i := if h == 0xE0 || h == 0xE4 then 0 else if h == 0xE1 || h == 0xE5 then 2 else if h == 0xE3 || h == 0xE7 then 3
             else if h == 0xE6 && Alt !in mods then 4 else 1;
    assert table[i] in table;
    if ModifierKey(mods, h) {
      assert table[i].bit in mods && h in table[i].keys;
    }
  }

  // ---- the client's keyboard ----------------------------------------------------------

  /** A key as the operating system knows it. */
  type OsKey = nat

  datatype Perform = Ignore | Keysym(sym: OsKey) | VirtualKey(vk: OsKey) | Other(action: Hid)

  datatype Resolved = ByHid(hid: Hid) | Nothing | Symbol(sym: OsKey) | Virtual(vk: OsKey)

  /** What to do for `hid`: only actions can be set up, and "do another action" goes one step. */
  function Resolve(perform: map<Hid, Perform>, hid: Hid): Resolved {
    if !IsExtra(hid) || hid !in perform then ByHid(hid)
    else match perform[hid]
      case Ignore => Nothing
      case Keysym(v) => Symbol(v)
      case VirtualKey(v) => Virtual(v)
      case Other(action) => ByHid(action)
  }

  /** How a press is carried out: not at all, as typed text, or by holding a key down. */
  datatype Press = Skip | Type(text: OsKey) | Hold(key: OsKey)

  /** One client machine's own setup: its `keys.toml`, whether it is a Windows machine, and
      how its layout presses a resolved key (`None`: there is no way). */
  datatype Setup = Setup(perform: map<Hid, Perform>, windows: bool, press: KeyEvent -> Press) {

    function PressOf(ev: KeyEvent): Press {
      match Resolve(perform, ev.hid)
      case Nothing => Skip
      case ByHid(hid) => press(ev.(hid := hid))
      case Symbol(v) => if windows then Skip else Hold(v)
      case Virtual(v) => if windows then Hold(v) else Skip
    }
  }

  /** The bookkeeping of the sink and, beside it, what the operating system has pressed. */
  datatype Sink = Sink(heldKeys: map<Hid, OsKey>, heldButtons: set<nat>, pressed: set<OsKey>)

  const RELEASED: Sink := Sink(map[], {}, {})

  function SinkKey(s: Sink, setup: Setup, ev: KeyEvent): Sink {
    if ev.action == Up then
      if ev.hid in s.heldKeys then s.(heldKeys := s.heldKeys - {ev.hid}, pressed := s.pressed - {s.heldKeys[ev.hid]})
      else s
    else
      match setup.PressOf(ev)
      case Skip => s
      case Type(text) => s.(pressed := s.pressed - {text})
      case Hold(key) =>
        var down := if ev.hid in s.heldKeys then s.heldKeys[ev.hid] else key;
        s.(heldKeys := s.heldKeys[ev.hid := down], pressed := s.pressed + {down})
  }

  function SinkMouse(s: Sink, ev: MouseEvent): Sink {
    match ev
    case Button(b, down) => s.(heldButtons := if down then s.heldButtons + {b} else s.heldButtons - {b})
    case _ => s
  }

  /** Nothing is pressed that the sink does not know it has to lift. */
  predicate Accounted(s: Sink) {
    s.pressed <= s.heldKeys.Values
  }

  lemma SinkKeyAccounted(s: Sink, setup: Setup, ev: KeyEvent)
    requires Accounted(s)
    ensures Accounted(SinkKey(s, setup, ev))
  {
    var s' := SinkKey(s, setup, ev);
    forall k | k in s'.pressed
      ensures k in s'.heldKeys.Values
    {
      if k in s.pressed {
        var h :| h in s.heldKeys && s.heldKeys[h] == k;
        assert h in s'.heldKeys && s'.heldKeys[h] == k;
      } else {
        assert ev.hid in s'.heldKeys && s'.heldKeys[ev.hid] == k;
      }
    }
  }

  /** `EnigoSink`, with the operating system's pressed keys beside it. */
  class EnigoSink {
    const setup: Setup
    var heldKeys: map<Hid, OsKey>
    var heldButtons: set<nat>
    var pressed: set<OsKey>

    function View(): Sink
      reads this
    {
      Sink(heldKeys, heldButtons, pressed)
    }

    constructor (setup: Setup)
      ensures View() == RELEASED && this.setup == setup
    {
      this.setup := setup;
      heldKeys, heldButtons, pressed := map[], {}, {};
    }

    /** Lift everything still held, in any order. */
    method OnLeave()
      requires Accounted(View())
      modifies this
      ensures View() == RELEASED
    {
      var keys := heldKeys.Values;
      heldKeys := map[];
      while keys != {}
        invariant pressed <= keys && heldKeys == map[]
        decreases keys
      {
        var key :| key in keys;
        keys := keys - {key};
        pressed := pressed - {key};
      }
      heldButtons := {};
    }

    method OnKey(ev: KeyEvent)
      modifies this
      ensures View() == SinkKey(old(View()), setup, ev)
    {
      if ev.action == Up {
        if ev.hid in heldKeys {
          var key := heldKeys[ev.hid];
          heldKeys := heldKeys - {ev.hid};
          pressed := pressed - {key};
        }
        return;
      }
      match setup.PressOf(ev) {
        case Skip =>
        case Type(text) =>
          pressed := pressed + {text};
          pressed := pressed - {text};
        case Hold(key) =>
          if ev.hid !in heldKeys {
            heldKeys := heldKeys[ev.hid := key];
          }
          pressed := pressed + {heldKeys[ev.hid]};
      }
    }

    method OnMouse(ev: MouseEvent)
      modifies this
      ensures View() == SinkMouse(old(View()), ev)
    {
      if ev.Button? {
        if ev.down {
          heldButtons := heldButtons + {ev.button};
        } else {
          heldButtons := heldButtons - {ev.button};
        }
      }
    }
  }

  // ---- what the machine has pressed, over whole runs ---------------------------------------------

  /** What a press does: an action set up for this machine is done as set up, one set up for another system
      not at all, and "do another action" is as if that one were pressed; every other key is its own. */
  lemma PressIsAsSetUp(s: Setup, ev: KeyEvent)
    ensures var action := if ev.hid >= 0x0B00 && ev.hid in s.perform then Some(s.perform[ev.hid]) else None;
      s.PressOf(ev) ==
        if action == None then s.press(ev)
        else if action == Some(Ignore) then Skip
        else if action.value.Other? then s.press(ev.(hid := action.value.action))
        else if action.value.Keysym? then (if s.windows then Skip else Hold(action.value.sym))
        else if s.windows then Hold(action.value.vk) else Skip
  {
    assert ev.(hid := ev.hid) == ev;
  }

  /** What comes to a client's machine: keys, the mouse, and that the input leaves. */
  datatype Arrival = KeyIn(key: KeyEvent) | MouseIn(mouse: MouseEvent) | LeaveIn

  function SinkAfter(setup: Setup, ins: seq<Arrival>): Sink {
    if ins == [] then RELEASED
    else
      var before := SinkAfter(setup, ins[..|ins| - 1]);
      match ins[|ins| - 1]
      case KeyIn(ev) => SinkKey(before, setup, ev)
      case MouseIn(ev) => SinkMouse(before, ev)
      case LeaveIn => RELEASED
  }

  /** The key of the machine that key `hid` stands for: what its first press that holds a key came to, until
      it comes up or the input leaves; what later presses would come to does not matter. */
  function StandsFor(setup: Setup, ins: seq<Arrival>, hid: Hid): Option<OsKey> {
    if ins == [] then None
    else
      var before := StandsFor(setup, ins[..|ins| - 1], hid);
      match ins[|ins| - 1]
      case LeaveIn => None
      case KeyIn(ev) =>
        if ev.hid != hid then before
        else if ev.action == Up then None
        else if before == None && setup.PressOf(ev).Hold? then Some(setup.PressOf(ev).key)
        else before
      case MouseIn(_) => before
  }

  /** Whether the last thing done to the machine's key `os` was to press it. A press that types text presses
      and lifts it. */
  function IsDown(setup: Setup, ins: seq<Arrival>, os: OsKey): bool {
    if ins == [] then false
    else
      var front := ins[..|ins| - 1];
      match ins[|ins| - 1]
      case LeaveIn => false
      case KeyIn(ev) =>
        if ev.action == Up then IsDown(setup, front, os) && StandsFor(setup, front, ev.hid) != Some(os)
        else if setup.PressOf(ev) == Type(os) then false
        else IsDown(setup, front, os) || (setup.PressOf(ev).Hold? && StandsFor(setup, ins, ev.hid) == Some(os))
      case MouseIn(_) => IsDown(setup, front, os)
  }

  function ButtonDown(ins: seq<Arrival>, button: nat): bool {
    if ins == [] then false
    else
      match ins[|ins| - 1]
      case LeaveIn => false
      case MouseIn(Button(b, down)) => if b == button then down else ButtonDown(ins[..|ins| - 1], button)
      case _ => ButtonDown(ins[..|ins| - 1], button)
  }

  /** Over every run: the machine has pressed exactly the keys and buttons last pressed and not lifted since,
      and each key held stands for what its first press came to. */
  lemma {:induction false} SinkIsAsTold(setup: Setup, ins: seq<Arrival>)
    ensures var s := SinkAfter(setup, ins);
      && (forall hid :: StandsFor(setup, ins, hid) == if hid in s.heldKeys then Some(s.heldKeys[hid]) else None)
      && (forall os :: os in s.pressed <==> IsDown(setup, ins, os))
      && (forall b :: b in s.heldButtons <==> ButtonDown(ins, b))
  {
    if ins != [] {
      SinkIsAsTold(setup, ins[..|ins| - 1]);
    }
  }
}
