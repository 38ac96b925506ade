/** What a capture backend may report of the keyboard while it holds it. */
module KeyStreams {
  import opened Input
  import opened Router
  import opened RouterRuns

  /** What one raw key event comes out as. */
  datatype Seen = Silent | HotkeySeen | KeySeen(hid: Hid, action: KeyAction)

  function HeldAfter(held: set<Hid>, s: Seen): set<Hid> {
    if !s.KeySeen? then held
    else match s.action
      case Down => held + {s.hid}
      case Up => held - {s.hid}
      case Repeat(_) => held
  }

  /** A key goes down only if it is up, and repeats only if it is down. */
  predicate LawfulNext(held: set<Hid>, s: Seen) {
    s.KeySeen? && s.action != Up ==> (s.hid in held <==> s.action != Down)
  }

  predicate Lawful(held: set<Hid>, stream: seq<Seen>)
    decreases |stream|
  {
    stream == [] || (LawfulNext(held, stream[0]) && Lawful(HeldAfter(held, stream[0]), stream[1..]))
  }

  function Held(held: set<Hid>, stream: seq<Seen>): set<Hid>
    decreases |stream|
  {
    if stream == [] then held else Held(HeldAfter(held, stream[0]), stream[1..])
  }

  /** A count of repeats that stops at its limit, as a `u16` does when it saturates. */
  function NextCount(n: nat): nat {
    if n + 1 <= 0xFFFF then n + 1 else 0xFFFF
  }

  /** How often the key repeated since it last went down or came up. */
  function RepeatsSince(stream: seq<Seen>, hid: Hid): nat {
    if stream == [] then 0
    else
      var last := stream[|stream| - 1];
      if !last.KeySeen? || last.hid != hid then RepeatsSince(stream[..|stream| - 1], hid)
      else if last.action.Repeat? then RepeatsSince(stream[..|stream| - 1], hid) + 1
      else 0
  }

  /** The count a repeat says: the first says one, and so on until 65535, which the later ones say too. */
  predicate CountsRight(stream: seq<Seen>, i: nat)
    requires i < |stream|
  {
    stream[i].KeySeen? && stream[i].action.Repeat? ==>
      stream[i].action.count == var n := RepeatsSince(stream[..i], stream[i].hid) + 1; if n < 65535 then n else 65535
  }

  predicate Numbered(stream: seq<Seen>) {
    forall i | 0 <= i < |stream| :: CountsRight(stream, i)
  }

  lemma OneMoreNumbered(stream: seq<Seen>, s: Seen)
    requires Numbered(stream) && CountsRight(stream + [s], |stream|)
    ensures Numbered(stream + [s])
  {
    var all := stream + [s];
    forall i | 0 <= i < |all| ensures CountsRight(all, i) {
      if i < |stream| {
        assert CountsRight(stream, i) && all[..i] == stream[..i];
      }
    }
  }

  /** The table of repeats is what the stream says. */
  predicate Tells(keys: map<Hid, nat>, stream: seq<Seen>) {
    forall hid | hid in keys :: keys[hid] == var n := RepeatsSince(stream, hid); if n < 65535 then n else 65535
  }

  /** A table of repeats that follows one event. */
  predicate Follows(keys: map<Hid, nat>, s: Seen, keys': map<Hid, nat>) {
    if !s.KeySeen? then keys' == keys
    else
      match s.action
      case Down => keys' == keys[s.hid := 0]
      case Up => keys' == keys - {s.hid}
      case Repeat(n) => s.hid in keys && n == NextCount(keys[s.hid]) && keys' == keys[s.hid := n]
  }

  lemma OneMoreTells(keys: map<Hid, nat>, stream: seq<Seen>, s: Seen, keys': map<Hid, nat>)
    requires Numbered(stream) && Tells(keys, stream) && Follows(keys, s, keys')
    ensures Numbered(stream + [s]) && Tells(keys', stream + [s])
  {
    assert (stream + [s])[..|stream|] == stream;
    OneMoreNumbered(stream, s);
  }

  /** What the router asks of a backend is exactly that its keys are lawful. */
  lemma LawfulIsLegal(w: World, k: KeyEvent, t: Turn)
    requires t.FromCapture? && t.ev == KeyChange(k)
    ensures Legal(w, t) <==> LawfulNext(w.phys, KeySeen(k.hid, k.action))
    ensures Observe(w, t).phys == HeldAfter(w.phys, KeySeen(k.hid, k.action))
  {
  }
}
