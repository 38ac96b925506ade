/** Capturing the pointer and the keyboard on X11 (`geserdesk-platform/src/x11.rs`). */
module X11Capture {
  import opened Wrappers
  import opened Geometry
  import opened Input
  import opened KeyStreams

  // ---- the pointer -----------------------------------------------------------------------------

  function Plus(a: Point, b: Point): Point {
    Point(a.x + b.x, a.y + b.y)
  }

  function Minus(a: Point, b: Point): Point {
    Point(a.x - b.x, a.y - b.y)
  }

  /** `a` and `b` make `c`, along both axes. */
  predicate Makes(a: Point, b: Point, c: Point) {
    a.x + b.x == c.x && a.y + b.y == c.y
  }

  const STILL: Point := Point(0, 0)

  /** Where the pointer is parked, where it was last seen, and whether a warp is on its way back. */
  datatype Tracker = Tracker(center: Point, last: Point, expecting: bool)

  /** What one position comes out as: a delta to report, and perhaps a warp to ask for. */
  datatype Read = Read(tracker: Tracker, delta: Option<Point>, warp: bool)

  function OnMotion(t: Tracker, pos: Point): Read {
    if t.expecting then
      if pos == t.center then Read(t.(expecting := false, last := pos), None, false)
      else Read(t.(last := pos), if pos == t.last then None else Some(Minus(pos, t.last)), false)
    else if pos == t.center then Read(t, None, false)
    else Read(t.(last := pos, expecting := true), Some(Minus(pos, t.center)), true)
  }

  class PointerCapture {
    var center: Point
    var last: Point
    var expecting: bool

    function View(): Tracker
      reads this
    {
      Tracker(center, last, expecting)
    }

    /** The grab measures from where the pointer is and asks for the first warp. */
    method Grab(pointer: Point) returns (warp: bool)
      modifies this
      ensures View() == Tracker(old(center), pointer, true) && warp
    {
      last := pointer;
      expecting := true;
      return true;
    }

    method Motion(pos: Point) returns (delta: Option<Point>, warp: bool)
      modifies this
      ensures Read(View(), delta, warp) == OnMotion(old(View()), pos)
    {
      if expecting {
        if pos == center {
          expecting := false;
          last := pos;
          return None, false;
        }
        var d := Minus(pos, last);
        last := pos;
        return if d == STILL then None else Some(d), false;
      }
      var d := Minus(pos, center);
      if d == STILL {
        return None, false;
      }
      last := pos;
      expecting := true;
      return Some(d), true;
    }
  }

  /** An event on its way from the X server: the hand brought the pointer somewhere, or a warp of ours
      brought it to the centre. */
  datatype Note = Hand(to: Point) | Warp {
    function Place(center: Point): Point {
      if Warp? then center else to
    }
  }

  /** The backend and the server together: the warps asked for and not yet carried out, the real
      pointer, the events not yet read, how far the hand has moved it since the grab, and the sum of
      all deltas reported. */
  datatype Scene = Scene(tracker: Tracker, pointer: Point, queue: seq<Note>, due: nat, moved: Point, reported: Point)

  datatype SceneOp = HandMoves(d: Point) | WarpHappens | NextIsRead

  function Next(s: Scene, op: SceneOp): Scene {
    match op
    case HandMoves(d) =>
      if d == STILL then s
      else Join(s, Hand(Plus(s.pointer, d))).(moved := Plus(s.moved, d))
    case WarpHappens =>
      if s.due == 0 then s else Join(s, Warp).(due := s.due - 1)
    case NextIsRead =>
      if s.queue == [] then s
      else
        var r := OnMotion(s.tracker, s.queue[0].Place(s.tracker.center));
        s.(tracker := r.tracker, queue := s.queue[1..], due := s.due + if r.warp then 1 else 0,
           reported := if r.delta.Some? then Plus(s.reported, r.delta.value) else s.reported)
  }

  function Join(s: Scene, n: Note): Scene {
    s.(pointer := n.Place(s.tracker.center), queue := s.queue + [n])
  }

  /** Where the pointer is after everything in the queue. */
  function EndOf(center: Point, from: Point, queue: seq<Note>): Point
    decreases |queue|
  {
    if queue == [] then from else EndOf(center, queue[0].Place(center), queue[1..])
  }

  /** How far the hand moved the pointer in the events still in the queue. */
  function InFlight(center: Point, from: Point, queue: seq<Note>): Point
    decreases |queue|
  {
    if queue == [] then STILL
    else Plus(Own(from, queue[0]), InFlight(center, queue[0].Place(center), queue[1..]))
  }

  /** What one event adds, coming after `from`. */
  function Own(from: Point, n: Note): Point {
    if n.Warp? then STILL else Minus(n.to, from)
  }

  function WarpsIn(queue: seq<Note>): nat {
    if queue == [] then 0 else (if queue[0].Warp? then 1 else 0) + WarpsIn(queue[1..])
  }

  /** Everything the hand did is reported or still in the queue, and a warp is outstanding exactly
      when one is expected, and never two. */
  predicate Conserved(s: Scene) {
    var t := s.tracker;
    && Makes(s.reported, InFlight(t.center, t.last, s.queue), s.moved)
    && EndOf(t.center, t.last, s.queue) == s.pointer
    && s.due + WarpsIn(s.queue) == (if t.expecting then 1 else 0)
    && (!t.expecting ==> t.last == t.center)
  }

  /** The next event is the hand's own and lies exactly on the centre while a warp is expected. */
  predicate LooksLikeTheWarp(s: Scene) {
    s.tracker.expecting && s.queue != [] && s.queue[0] == Hand(s.tracker.center)
  }

  lemma {:induction false} OneMore(center: Point, from: Point, queue: seq<Note>, n: Note)
    ensures InFlight(center, from, queue + [n]) == Plus(InFlight(center, from, queue), Own(EndOf(center, from, queue), n))
    ensures EndOf(center, from, queue + [n]) == n.Place(center)
    ensures WarpsIn(queue + [n]) == WarpsIn(queue) + if n.Warp? then 1 else 0
    decreases |queue|
  {
    var more := queue + [n];
    if queue == [] {
      assert more[1..] == [] && InFlight(center, n.Place(center), []) == STILL;
    } else {
      assert more[1..] == queue[1..] + [n] && more[0] == queue[0];
      OneMore(center, queue[0].Place(center), queue[1..], n);
    }
  }

  lemma HandConserves(s: Scene, d: Point)
    requires Conserved(s)
    ensures Conserved(Next(s, HandMoves(d)))
  {
    var n := Hand(Plus(s.pointer, d));
    OneMore(s.tracker.center, s.tracker.last, s.queue, n);
    assert Own(s.pointer, n) == d;
  }

  lemma WarpConserves(s: Scene)
    requires Conserved(s)
    ensures Conserved(Next(s, WarpHappens))
  {
    OneMore(s.tracker.center, s.tracker.last, s.queue, Warp);
  }

  /** What reading reports, case by case, and what is left are together what was left before. */
  lemma ReadAccounts(s: Scene, head: Note, rest: Point)
    requires s.queue != [] && s.queue[0] == head && !LooksLikeTheWarp(s)
    requires Makes(s.reported, Plus(Own(s.tracker.last, head), rest), s.moved)
    requires (!s.tracker.expecting ==> s.tracker.last == s.tracker.center) && (head.Warp? ==> s.tracker.expecting)
    ensures Makes(Next(s, NextIsRead).reported, rest, s.moved)
  {
    var s' := Next(s, NextIsRead);
    if head.Warp? {
      assert Makes(s'.reported, rest, s.moved);
    } else if !s.tracker.expecting {
      assert Makes(s'.reported, rest, s.moved);
    } else if head.to == s.tracker.last {
      assert Makes(s'.reported, rest, s.moved);
    } else {
      assert Makes(s'.reported, rest, s.moved);
    }
  }

  lemma ReadConserves(s: Scene)
    requires Conserved(s) && !LooksLikeTheWarp(s)
    ensures Conserved(Next(s, NextIsRead))
  {
    if s.queue != [] {
      var center, head := s.tracker.center, s.queue[0];
      ReadAccounts(s, head, InFlight(center, head.Place(center), s.queue[1..]));
    }
  }

  /** Each step conserves motion, unless it reads an event that looks like the warp's and is not. */
  lemma StepConserves(s: Scene, op: SceneOp)
    requires Conserved(s) && (op == NextIsRead ==> !LooksLikeTheWarp(s))
    ensures Conserved(Next(s, op))
  {
    match op
    case HandMoves(d) => HandConserves(s, d);
    case WarpHappens => WarpConserves(s);
    case NextIsRead => ReadConserves(s);
  }

  lemma StepDropped(reported: Point, left: Point, moved: Point, center: Point, last: Point)
    requires Makes(reported, Plus(Minus(center, last), left), moved)
    ensures Makes(reported, left, Minus(moved, Minus(center, last)))
    ensures Makes(reported, left, moved) <==> last == center
  {
  }

  /** Exactly what goes wrong there: the step from the last position to the centre is dropped. */
  lemma TakingItForTheWarp(s: Scene)
    requires Conserved(s) && LooksLikeTheWarp(s)
    ensures var s' := Next(s, NextIsRead);
      var left := InFlight(s'.tracker.center, s'.tracker.last, s'.queue);
      && Makes(s'.reported, left, Minus(s'.moved, Minus(s.tracker.center, s.tracker.last)))
      && (Makes(s'.reported, left, s'.moved) <==> s.tracker.last == s.tracker.center)
  {
    var t, s' := s.tracker, Next(s, NextIsRead);
    assert s'.reported == s.reported && s'.moved == s.moved;
    StepDropped(s.reported, InFlight(t.center, t.center, s.queue[1..]), s.moved, t.center, t.last);
  }

  predicate NeverMistaken(s: Scene, ops: seq<SceneOp>)
    decreases |ops|
  {
    ops == [] || ((ops[0] == NextIsRead ==> !LooksLikeTheWarp(s)) && NeverMistaken(Next(s, ops[0]), ops[1..]))
  }

  function Play(s: Scene, ops: seq<SceneOp>): Scene
    decreases |ops|
  {
    if ops == [] then s else Play(Next(s, ops[0]), ops[1..])
  }

  /** The moment of the grab: events of before it may still be queued, ending where the pointer was
      then found. */
  function Grabbed(center: Point, pointer: Point, queue: seq<Note>): Scene {
    Scene(Tracker(center, pointer, true), pointer, queue, 1, STILL, STILL)
  }

  lemma {:induction false} HandOnlyTelescopes(center: Point, from: Point, queue: seq<Note>)
    requires WarpsIn(queue) == 0
    ensures InFlight(center, from, queue) == Minus(EndOf(center, from, queue), from)
    decreases |queue|
  {
    if queue != [] {
      HandOnlyTelescopes(center, queue[0].Place(center), queue[1..]);
    }
  }

  lemma {:induction false} RunConserves(s: Scene, ops: seq<SceneOp>)
    requires Conserved(s) && NeverMistaken(s, ops)
    ensures Conserved(Play(s, ops))
    decreases |ops|
  {
    if ops != [] {
      StepConserves(s, ops[0]);
      RunConserves(Next(s, ops[0]), ops[1..]);
    }
  }

  /** Motion is conserved from the grab on, over every interleaving of hand, warps and reading: what
      was reported plus what is still queued is what the hand did, there is never a second warp
      outstanding, and once the queue is empty every bit of it has been reported. */
  lemma MotionIsConserved(center: Point, pointer: Point, queue: seq<Note>, ops: seq<SceneOp>)
    requires WarpsIn(queue) == 0 && EndOf(center, pointer, queue) == pointer
    requires NeverMistaken(Grabbed(center, pointer, queue), ops)
    ensures var s := Play(Grabbed(center, pointer, queue), ops);
      && Makes(s.reported, InFlight(s.tracker.center, s.tracker.last, s.queue), s.moved)
      && s.due + WarpsIn(s.queue) <= 1
      && (s.queue == [] ==> s.reported == s.moved)
  {
    var start := Grabbed(center, pointer, queue);
    GrabConserves(center, pointer, queue);
    RunConserves(start, ops);
    ConservedMeans(Play(start, ops));
  }

  lemma {:induction false} GrabConserves(center: Point, pointer: Point, queue: seq<Note>)
    requires WarpsIn(queue) == 0 && EndOf(center, pointer, queue) == pointer
    ensures Conserved(Grabbed(center, pointer, queue))
  {
    HandOnlyTelescopes(center, pointer, queue);
    assert InFlight(center, pointer, queue) == STILL;
  }

  lemma ConservedMeans(s: Scene)
    requires Conserved(s)
    ensures Makes(s.reported, InFlight(s.tracker.center, s.tracker.last, s.queue), s.moved)
    ensures s.due + WarpsIn(s.queue) <= 1 && (s.queue == [] ==> s.reported == s.moved)
  {
  }

  lemma PlayFirst(s: Scene, op: SceneOp, ops: seq<SceneOp>)
    ensures Play(s, [op] + ops) == Play(Next(s, op), ops)
  {
    assert ([op] + ops)[1..] == ops;
  }

  /** It happens: a grab with the pointer anywhere but at the centre, a hand that brings it exactly
      there before the warp does, and that whole step is never reported, with nothing left to come. */
  lemma StepIsLost(center: Point, d: Point)
    requires d != STILL
    ensures var s := Grabbed(center, Minus(center, d), []);
      && LooksLikeTheWarp(Next(s, HandMoves(d)))
      && var s' := Play(s, [HandMoves(d), NextIsRead, WarpHappens, NextIsRead]);
         s'.queue == [] && s'.due == 0 && s'.moved == d && s'.reported == STILL
  {
    var s0 := Grabbed(center, Minus(center, d), []);
    var s1 := Next(s0, HandMoves(d));
    assert s1.queue == [Hand(center)];
    var s2 := Next(s1, NextIsRead);
    var s3 := Next(s2, WarpHappens);
    assert s2.queue == [] && s3.queue == [Warp];
    var s4 := Next(s3, NextIsRead);
    assert [HandMoves(d), NextIsRead, WarpHappens, NextIsRead] == [HandMoves(d)] + ([NextIsRead] + ([WarpHappens] + ([NextIsRead] + [])));
    PlayFirst(s0, HandMoves(d), [NextIsRead] + ([WarpHappens] + ([NextIsRead] + [])));
    PlayFirst(s1, NextIsRead, [WarpHappens] + ([NextIsRead] + []));
    PlayFirst(s2, WarpHappens, [NextIsRead] + []);
    PlayFirst(s3, NextIsRead, []);
  }

  // ---- the keyboard ---------------------------------------------------------------------------------

  /** The hotkey's key, and the HID usage of every key code that has one. */
  datatype Layout = Layout(hotkey: Option<nat>, hids: map<nat, Hid>) {
    predicate Injective() {
      forall a, b | a in hids && b in hids && a != b :: hids[a] != hids[b]
    }
  }

  /** The keys pressed since the grab with the repeats of each. */
  datatype Keys = Keys(pressed: map<nat, nat>, grabbed: bool)

  /** A raw key event; `chord` if Ctrl and Alt were held. */
  datatype RawKey = RawKey(code: nat, chord: bool, down: bool)

  predicate IsHotkey(layout: Layout, raw: RawKey) {
    layout.hotkey == Some(raw.code) && raw.chord
  }

  function OnKey(k: Keys, layout: Layout, raw: RawKey): (Keys, Seen) {
    if IsHotkey(layout, raw) then (k, if raw.down then HotkeySeen else Silent)
    else if !k.grabbed || raw.code !in layout.hids then (k, Silent)
    else
      var hid := layout.hids[raw.code];
      if !raw.down then (k.(pressed := k.pressed - {raw.code}), KeySeen(hid, Up))
      else if raw.code in k.pressed then
        var n := NextCount(k.pressed[raw.code]);
        (k.(pressed := k.pressed[raw.code := n]), KeySeen(hid, Repeat(n)))
      else (k.(pressed := k.pressed[raw.code := 0]), KeySeen(hid, Down))
  }

  class KeyCapture {
    const layout: Layout
    var pressed: map<nat, nat>
    var grabbed: bool

    function View(): Keys
      reads this
    {
      Keys(pressed, grabbed)
    }

    constructor (layout: Layout)
      ensures this.layout == layout && View() == Keys(map[], false)
    {
      this.layout := layout;
      pressed, grabbed := map[], false;
    }

    method Grab()
      modifies this
      ensures View() == Keys(map[], true)
    {
      grabbed := true;
      pressed := map[];
    }

    method Release()
      modifies this
      ensures View() == Keys(map[], false)
    {
      grabbed := false;
      pressed := map[];
    }

    method Key(raw: RawKey) returns (seen: Seen)
      modifies this
      ensures (View(), seen) == OnKey(old(View()), layout, raw)
    {
      if layout.hotkey == Some(raw.code) && raw.chord {
        return if raw.down then HotkeySeen else Silent;
      }
      if !grabbed {
        return Silent;
      }
      if raw.code !in layout.hids {
        return Silent;
      }
      var action: KeyAction;
      if raw.down {
        if raw.code in pressed {
          pressed := pressed[raw.code := NextCount(pressed[raw.code])];
          action := Repeat(pressed[raw.code]);
        } else {
          pressed := pressed[raw.code := 0];
          action := Down;
        }
      } else {
        pressed := pressed - {raw.code};
        action := Up;
      }
      return KeySeen(layout.hids[raw.code], action);
    }
  }

  /** The table holds exactly the keys that the stream so far says are down. */
  ghost predicate Reflects(k: Keys, layout: Layout, held: set<Hid>) {
    && (forall c | c in k.pressed :: c in layout.hids && layout.hids[c] in held)
    && (forall h | h in held :: exists c :: c in k.pressed && c in layout.hids && layout.hids[c] == h)
  }

  lemma KeyIsLawful(k: Keys, layout: Layout, raw: RawKey, held: set<Hid>)
    requires layout.Injective() && Reflects(k, layout, held)
    ensures var (k', seen) := OnKey(k, layout, raw); LawfulNext(held, seen) && Reflects(k', layout, HeldAfter(held, seen))
  {
    var (k', seen) := OnKey(k, layout, raw);
    if seen.KeySeen? {
      forall h | h in HeldAfter(held, seen)
        ensures exists c :: c in k'.pressed && c in layout.hids && layout.hids[c] == h
      {
        if h == seen.hid {
          assert raw.code in k'.pressed;
        } else {
          var c :| c in k.pressed && c in layout.hids && layout.hids[c] == h;
          assert c in k'.pressed;
        }
      }
    }
  }

  function Stream(k: Keys, layout: Layout, raws: seq<RawKey>): seq<Seen>
    decreases |raws|
  {
    if raws == [] then []
    else [OnKey(k, layout, raws[0]).1] + Stream(OnKey(k, layout, raws[0]).0, layout, raws[1..])
  }

  function After(k: Keys, layout: Layout, raws: seq<RawKey>): Keys
    decreases |raws|
  {
    if raws == [] then k else After(OnKey(k, layout, raws[0]).0, layout, raws[1..])
  }

  /** Whatever the keyboard does after a grab, and in whatever order, what is reported is lawful. */
  lemma {:induction false} StreamIsLawful(k: Keys, layout: Layout, raws: seq<RawKey>, held: set<Hid>)
    requires layout.Injective() && Reflects(k, layout, held)
    ensures Lawful(held, Stream(k, layout, raws))
    ensures Reflects(After(k, layout, raws), layout, Held(held, Stream(k, layout, raws)))
    decreases |raws|
  {
    if raws != [] {
      KeyIsLawful(k, layout, raws[0], held);
      var (k', seen) := OnKey(k, layout, raws[0]);
      StreamIsLawful(k', layout, raws[1..], HeldAfter(held, seen));
      assert Stream(k, layout, raws)[1..] == Stream(k', layout, raws[1..]);
    }
  }

  lemma {:induction false} OneMoreEvent(k: Keys, layout: Layout, raws: seq<RawKey>)
    requires raws != []
    ensures var front, last := raws[..|raws| - 1], raws[|raws| - 1];
      && Stream(k, layout, raws) == Stream(k, layout, front) + [OnKey(After(k, layout, front), layout, last).1]
      && After(k, layout, raws) == OnKey(After(k, layout, front), layout, last).0
    decreases |raws|
  {
    if |raws| > 1 {
      OneMoreEvent(OnKey(k, layout, raws[0]).0, layout, raws[1..]);
      assert raws[1..][..|raws| - 2] == raws[..|raws| - 1][1..];
    }
  }

  /** The table by usage: no two key codes share one. */
  predicate ByUsage(k: Keys, layout: Layout, keys: map<Hid, nat>) {
    && (forall c | c in k.pressed :: c in layout.hids && layout.hids[c] in keys && keys[layout.hids[c]] == k.pressed[c])
    && forall h | h in keys :: exists c :: c in k.pressed && c in layout.hids && layout.hids[c] == h
  }

  /** Whatever the keyboard does after a grab, each repeat reported says how many there were since the key
      went down. */
  lemma {:induction false} RepeatsAreNumbered(k: Keys, layout: Layout, raws: seq<RawKey>) returns (keys: map<Hid, nat>)
    requires layout.Injective() && k.pressed == map[]
    ensures Numbered(Stream(k, layout, raws)) && Tells(keys, Stream(k, layout, raws))
    ensures ByUsage(After(k, layout, raws), layout, keys)
    decreases |raws|
  {
    keys := map[];
    if raws != [] {
      var n := |raws| - 1;
      var front, now := Stream(k, layout, raws[..n]), After(k, layout, raws[..n]);
      var before := RepeatsAreNumbered(k, layout, raws[..n]);
      OneMoreEvent(k, layout, raws);
      keys := TableFollows(now, layout, raws[n], before);
      OneMoreTells(before, front, OnKey(now, layout, raws[n]).1, keys);
    }
  }

  lemma TableFollows(k: Keys, layout: Layout, raw: RawKey, keys: map<Hid, nat>) returns (keys': map<Hid, nat>)
    requires layout.Injective() && ByUsage(k, layout, keys)
    ensures Follows(keys, OnKey(k, layout, raw).1, keys') && ByUsage(OnKey(k, layout, raw).0, layout, keys')
  {
    var (k', seen) := OnKey(k, layout, raw);
    keys' := keys;
    if seen.KeySeen? {
      keys' := if raw.down then keys[seen.hid := k'.pressed[raw.code]] else keys - {seen.hid};
      forall h | h in keys' ensures exists c :: c in k'.pressed && c in layout.hids && layout.hids[c] == h {
        var c := if h == seen.hid then raw.code else var c :| c in k.pressed && c in layout.hids && layout.hids[c] == h; c;
        assert c in k'.pressed;
      }
    }
  }

  /** The key codes the hand holds down. */
  function HandAfter(hand: set<nat>, raw: RawKey): set<nat> {
    if raw.down then hand + {raw.code} else hand - {raw.code}
  }

  /** The release of a key that was reported down, taken for the hotkey's. */
  predicate LostRelease(k: Keys, layout: Layout, raw: RawKey) {
    !raw.down && IsHotkey(layout, raw) && raw.code in k.pressed
  }

  /** The keys reported down stay keys the hand holds, exactly as long as no release is taken for the
      hotkey's after a press that was not. */
  lemma HandHoldsThem(k: Keys, layout: Layout, raw: RawKey, hand: set<nat>)
    requires k.grabbed && k.pressed.Keys <= hand * layout.hids.Keys
    ensures OnKey(k, layout, raw).0.pressed.Keys <= HandAfter(hand, raw) * layout.hids.Keys <==> !LostRelease(k, layout, raw)
  {
    if LostRelease(k, layout, raw) {
      assert raw.code in OnKey(k, layout, raw).0.pressed.Keys;
    }
  }

  predicate NoneLost(k: Keys, layout: Layout, raws: seq<RawKey>)
    decreases |raws|
  {
    raws == [] || (!LostRelease(k, layout, raws[0]) && NoneLost(OnKey(k, layout, raws[0]).0, layout, raws[1..]))
  }

  function HandAfterAll(hand: set<nat>, raws: seq<RawKey>): set<nat>
    decreases |raws|
  {
    if raws == [] then hand else HandAfterAll(HandAfter(hand, raws[0]), raws[1..])
  }

  /** Over a whole grab without one, no key stays down in the table that the hand has let go. */
  lemma {:induction false} NoKeyOutlivesTheHand(k: Keys, layout: Layout, raws: seq<RawKey>, hand: set<nat>)
    requires k.grabbed && k.pressed.Keys <= hand * layout.hids.Keys && NoneLost(k, layout, raws)
    ensures After(k, layout, raws).pressed.Keys <= HandAfterAll(hand, raws)
    decreases |raws|
  {
    if raws != [] {
      HandHoldsThem(k, layout, raws[0], hand);
      NoKeyOutlivesTheHand(OnKey(k, layout, raws[0]).0, layout, raws[1..], HandAfter(hand, raws[0]));
    }
  }

  /** It happens: the hotkey's key pressed alone and let go with Ctrl and Alt held stays down in the
      stream with no key down at all. */
  lemma HotkeyReleaseIsLost(layout: Layout, raws: seq<RawKey>)
    requires layout == Layout(Some(110), map[110 := 0x4A]) && raws == [RawKey(110, false, true), RawKey(110, true, false)]
    ensures Held({}, Stream(Keys(map[], true), layout, raws)) == {0x4A}
    ensures HandAfter(HandAfter({}, raws[0]), raws[1]) == {}
  {
    var k0 := Keys(map[], true);
    var (k1, s1) := OnKey(k0, layout, raws[0]);
    assert raws[1..] == [raws[1]] && raws[1..][1..] == [];
    assert Stream(k0, layout, raws) == [s1] + Stream(k1, layout, raws[1..]);
    assert Stream(k1, layout, raws[1..]) == [Silent] + Stream(k1, layout, []);
    var st := Stream(k0, layout, raws);
    assert st == [KeySeen(0x4A, Down), Silent];
    assert st[1..] == [Silent] && st[1..][1..] == [];
    assert Held({}, st) == Held({0x4A}, [Silent]);
  }
}
