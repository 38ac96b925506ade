/** Length-prefixed framing over a byte stream (`geserdesk-proto/src/codec.rs`). Payloads are
    bytes; what they encode is not part of this model. */
module Framing {
  newtype byte = x: int | 0 <= x < 256

  const TWO_32: nat := 0x1_0000_0000

  lemma Regrouped<T>(a: seq<T>, b: seq<T>, c: seq<T>)
    ensures a + (b + c) == a + b + c
  {
  }

  /** `(n as u32).to_le_bytes()`: the cast drops what does not fit. */
  function LittleEndian(n: nat): (bs: seq<byte>)
    ensures |bs| == 4
  {
    var m := n % TWO_32;
    [(m % 256) as byte, (m / 256 % 256) as byte, (m / 65536 % 256) as byte, (m / 16777216) as byte]
  }

  /** `u32::from_le_bytes` of the first four bytes. */
  function LengthPrefix(bs: seq<byte>): nat
    requires |bs| >= 4
  {
    bs[0] as nat + 256 * (bs[1] as nat) + 65536 * (bs[2] as nat) + 16777216 * (bs[3] as nat)
  }

  lemma PrefixRoundTrip(n: nat, rest: seq<byte>)
    ensures LengthPrefix(LittleEndian(n) + rest) == n % TWO_32
  {
    var m := n % TWO_32;
    assert m == m % 256 + 256 * (m / 256);
    assert m / 256 == m / 256 % 256 + 256 * (m / 65536);
    assert m / 65536 == m / 65536 % 256 + 256 * (m / 16777216);
  }

  function FrameOf(payload: seq<byte>): (f: seq<byte>)
    ensures |f| == 4 + |payload|
  {
    LittleEndian(|payload|) + payload
  }

  function Encode(payloads: seq<seq<byte>>): seq<byte> {
    if payloads == [] then [] else FrameOf(payloads[0]) + Encode(payloads[1..])
  }

  function Flat(pieces: seq<seq<byte>>): seq<byte> {
    if pieces == [] then [] else pieces[0] + Flat(pieces[1..])
  }

  /** What one `recv` comes to. `Cancelled` is its future dropped while it waits for bytes. */
  datatype Received = Message(payload: seq<byte>) | TooLarge(size: nat) | Closed | MidFrame | Cancelled

  /** A receiver: the bytes read and not yet consumed, and the pieces the stream has still to give
      (each with at least one byte; after the last, the end of the stream). */
  datatype Receiver = Receiver(rbuf: seq<byte>, pieces: seq<seq<byte>>, maxFrame: nat) {
    predicate Valid() {
      forall r | r in pieces :: r != []
    }
  }

  /** One `recv` that is dropped if it needs more than `patience` reads. */
  function Recv(s: Receiver, patience: nat): (Received, Receiver)
    decreases |s.pieces|
  {
    if |s.rbuf| >= 4 && LengthPrefix(s.rbuf) > s.maxFrame then (TooLarge(LengthPrefix(s.rbuf)), s)
    else if |s.rbuf| >= 4 && |s.rbuf| >= 4 + LengthPrefix(s.rbuf) then
      var end := 4 + LengthPrefix(s.rbuf);
      (Message(s.rbuf[4..end]), s.(rbuf := s.rbuf[end..]))
    else if patience == 0 then (Cancelled, s)
    else if s.pieces == [] then (if s.rbuf == [] then Closed else MidFrame, s)
    else Recv(s.(rbuf := s.rbuf + s.pieces[0], pieces := s.pieces[1..]), patience - 1)
  }

  /** `MessageStream`, over a stream whose pieces to come are `incoming`. */
  class MessageStream {
    var incoming: seq<seq<byte>>
    var outgoing: seq<byte>
    const maxFrame: nat
    var rbuf: seq<byte>

    function View(): Receiver
      reads this
    {
      Receiver(rbuf, incoming, maxFrame)
    }

    constructor (incoming: seq<seq<byte>>, maxFrame: nat)
      ensures View() == Receiver([], incoming, maxFrame) && outgoing == []
    {
      this.incoming, outgoing, this.maxFrame, rbuf := incoming, [], maxFrame, [];
    }

    /** A payload over the limit is refused and nothing of it written. */
    method Send(payload: seq<byte>) returns (ok: bool)
      modifies this`outgoing
      ensures ok <==> |payload| <= maxFrame
      ensures outgoing == if ok then old(outgoing) + FrameOf(payload) else old(outgoing)
    {
      if |payload| > maxFrame {
        return false;
      }
      outgoing := outgoing + LittleEndian(|payload|);
      outgoing := outgoing + payload;
      assert outgoing == old(outgoing) + FrameOf(payload);
      return true;
    }

    method Receive(patience: nat) returns (r: Received)
      modifies this`rbuf, this`incoming
      ensures (r, View()) == Recv(old(View()), patience)
    {
      var left := patience;
      while true
        invariant 0 <= left <= patience
        invariant Recv(View(), left) == Recv(old(View()), patience)
        decreases left
      {
        if |rbuf| >= 4 {
          var len := LengthPrefix(rbuf);
          if len > maxFrame {
            return TooLarge(len);
          }
          if |rbuf| >= 4 + len {
            r := Message(rbuf[4..4 + len]);
            rbuf := rbuf[4 + len..];
            return;
          }
        }
        if left == 0 {
          return Cancelled;
        }
        if incoming == [] {
          return if rbuf == [] then Closed else MidFrame;
        }
        rbuf := rbuf + incoming[0];
        incoming := incoming[1..];
        left := left - 1;
      }
    }
  }

  // ---- framing undoes itself -------------------------------------------------------------------

  /** The payload fits the receiver's limit, and its length fits the prefix. */
  predicate Sendable(payload: seq<byte>, maxFrame: nat) {
    |payload| <= maxFrame && |payload| < TWO_32
  }

  predicate AllSendable(payloads: seq<seq<byte>>, maxFrame: nat) {
    forall p | p in payloads :: Sendable(p, maxFrame)
  }

  /** What is left of a frame cut short: its prefix is not there, or asks for more than there is. */
  predicate CutShort(tail: seq<byte>) {
    |tail| < 4 || |tail| < 4 + LengthPrefix(tail)
  }

  /** The beginning of a frame that is over the limit. */
  predicate OverLimit(tail: seq<byte>, maxFrame: nat) {
    |tail| >= 4 && LengthPrefix(tail) > maxFrame
  }

  /** The bytes the receiver holds or will be given are these frames and then `tail`, which is not a
      whole frame within the limit. */
  predicate Holds(s: Receiver, payloads: seq<seq<byte>>, tail: seq<byte>) {
    && AllSendable(payloads, s.maxFrame) && (CutShort(tail) || OverLimit(tail, s.maxFrame))
    && s.rbuf + Flat(s.pieces) == Encode(payloads) + tail
  }

  /** What a receiver that holds these frames must answer, unless it is cancelled: the next message; or
      that the next frame is over the limit; or that the stream ended, between frames or inside one. */
  function Expected(payloads: seq<seq<byte>>, tail: seq<byte>, maxFrame: nat): Received {
    if payloads != [] then Message(payloads[0])
    else if OverLimit(tail, maxFrame) then TooLarge(LengthPrefix(tail))
    else if tail == [] then Closed else MidFrame
  }

  /** Four bytes and the number they stand for say the same. */
  lemma PrefixIsDigits(bs: seq<byte>)
    requires |bs| >= 4
    ensures LengthPrefix(bs) < TWO_32 && LittleEndian(LengthPrefix(bs)) == bs[..4]
  {
    var a, b, c, d := bs[0] as nat, bs[1] as nat, bs[2] as nat, bs[3] as nat;
    var n := LengthPrefix(bs);
    LowDigit(a, b + 256 * c + 65536 * d);
    LowDigit(b, c + 256 * d);
    LowDigit(c, d);
    assert n == a + 256 * (b + 256 * c + 65536 * d);
    assert n / 65536 == n / 256 / 256 && n / 16777216 == n / 65536 / 256;
  }

  lemma LowDigit(a: nat, more: nat)
    requires a < 256
    ensures (a + 256 * more) % 256 == a && (a + 256 * more) / 256 == more
  {
  }

  /** There is no other kind of stream: whatever bytes come, in whatever pieces, they are frames within
      the limit and then such a tail. */
  lemma {:induction false} EveryStreamHolds(bytes: seq<byte>, maxFrame: nat) returns (payloads: seq<seq<byte>>,
          tail: seq<byte>)
    ensures AllSendable(payloads, maxFrame) && (CutShort(tail) || OverLimit(tail, maxFrame))
    ensures bytes == Encode(payloads) + tail
    decreases |bytes|
  {
    payloads, tail := [], bytes;
    if !CutShort(bytes) && !OverLimit(bytes, maxFrame) {
      var end := 4 + LengthPrefix(bytes);
      var first := bytes[4..end];
      PrefixIsDigits(bytes);
      assert bytes == FrameOf(first) + bytes[end..];
      var others;
      others, tail := EveryStreamHolds(bytes[end..], maxFrame);
      payloads := [first] + others;
      assert payloads[1..] == others;
    }
  }

  /** The first bytes of a frame say its length. */
  lemma PrefixOfFrame(bs: seq<byte>, p: seq<byte>, rest: seq<byte>)
    requires |bs| >= 4 && bs <= FrameOf(p) + rest && |p| < TWO_32
    ensures LengthPrefix(bs) == |p|
  {
    PrefixRoundTrip(|p|, p + rest);
    assert bs[..4] == (FrameOf(p) + rest)[..4] == LittleEndian(|p|);
    assert bs == LittleEndian(|p|) + bs[4..];
    PrefixRoundTrip(|p|, bs[4..]);
  }

  /** The prefix the receiver sees is the length of the frame it is in the middle of. */
  lemma PrefixKnown(s: Receiver, payloads: seq<seq<byte>>, tail: seq<byte>)
    requires Holds(s, payloads, tail) && |s.rbuf| >= 4
    ensures payloads != [] ==> LengthPrefix(s.rbuf) == |payloads[0]| <= s.maxFrame
    ensures payloads == [] ==> |tail| >= 4 && LengthPrefix(s.rbuf) == LengthPrefix(tail) && |s.rbuf| <= |tail|
  {
    var all := s.rbuf + Flat(s.pieces);
    assert s.rbuf <= all;
    if payloads != [] {
      assert payloads[0] in payloads;
      assert Sendable(payloads[0], s.maxFrame);
      assert all == FrameOf(payloads[0]) + (Encode(payloads[1..]) + tail);
      PrefixOfFrame(s.rbuf, payloads[0], Encode(payloads[1..]) + tail);
    } else {
      assert all == tail;
    }
  }

  lemma TakesFrame(s: Receiver, payloads: seq<seq<byte>>, tail: seq<byte>)
    requires Holds(s, payloads, tail) && payloads != []
    requires |s.rbuf| >= 4 + |payloads[0]|
    ensures var end := 4 + |payloads[0]|;
      s.rbuf[4..end] == payloads[0] && Holds(s.(rbuf := s.rbuf[end..]), payloads[1..], tail)
  {
    var end := 4 + |payloads[0]|;
    var all, rest := s.rbuf + Flat(s.pieces), Encode(payloads[1..]) + tail;
    assert all == FrameOf(payloads[0]) + rest;
    assert s.rbuf[..end] == all[..end] == FrameOf(payloads[0]);
    assert s.rbuf[4..end] == s.rbuf[..end][4..];
    assert s.rbuf[end..] + Flat(s.pieces) == all[end..];
    assert all[end..] == rest;
  }

  /** One `recv`, cancelled or not, loses nothing and answers right. */
  lemma {:induction false} RecvIsRight(s: Receiver, patience: nat, payloads: seq<seq<byte>>, tail: seq<byte>)
    requires s.Valid() && Holds(s, payloads, tail)
    ensures var (r, s') := Recv(s, patience);
      && s'.Valid() && s'.maxFrame == s.maxFrame
      && (r == Cancelled || r == Expected(payloads, tail, s.maxFrame))
      && Holds(s', if r.Message? then payloads[1..] else payloads, tail)
      && (patience > |s.pieces| ==> r != Cancelled)
    decreases |s.pieces|
  {
    if |s.rbuf| >= 4 {
      PrefixKnown(s, payloads, tail);
    }
    if |s.rbuf| >= 4 && LengthPrefix(s.rbuf) > s.maxFrame {
      assert payloads == [];
    } else if |s.rbuf| >= 4 && |s.rbuf| >= 4 + LengthPrefix(s.rbuf) {
      TakesFrame(s, payloads, tail);
    } else if patience > 0 && s.pieces != [] {
      var s1 := s.(rbuf := s.rbuf + s.pieces[0], pieces := s.pieces[1..]);
      assert s1.rbuf + Flat(s1.pieces) == s.rbuf + Flat(s.pieces) && forall r | r in s1.pieces :: r in s.pieces;
      RecvIsRight(s1, patience - 1, payloads, tail);
    } else if patience > 0 {
      assert s.rbuf + Flat(s.pieces) == s.rbuf;
    }
  }

  /** A sequence of `recv` calls, each with its own patience: the answers that were not cancelled. */
  function Answers(s: Receiver, patience: seq<nat>): seq<Received>
    decreases |patience|
  {
    if patience == [] then []
    else
      var (r, s') := Recv(s, patience[0]);
      (if r == Cancelled then [] else [r]) + Answers(s', patience[1..])
  }

  /** The answers due: the messages in order, and then the end, over and over. */
  predicate Due(answers: seq<Received>, payloads: seq<seq<byte>>, tail: seq<byte>, maxFrame: nat) {
    forall i :: 0 <= i < |answers| ==> answers[i] == Expected(payloads[if i < |payloads| then i else |payloads|..], tail, maxFrame)
  }

  /** However the stream is cut into reads and however often `recv` is cancelled, the answers are
      exactly the payloads in order, and then, over and over: that the next frame is over the limit,
      if it is; `Closed` where the stream ended between frames; and where it ended inside one, the
      error and never `Closed`. With `EveryStreamHolds` that is every stream there can be. */
  lemma {:induction false} FramingUndoesItself(s: Receiver, patience: seq<nat>, payloads: seq<seq<byte>>,
          tail: seq<byte>)
    requires s.Valid() && Holds(s, payloads, tail)
    ensures Due(Answers(s, patience), payloads, tail, s.maxFrame)
    decreases |patience|
  {
    if patience != [] {
      var (r, s') := Recv(s, patience[0]);
      RecvIsRight(s, patience[0], payloads, tail);
      var left := if r.Message? then payloads[1..] else payloads;
      FramingUndoesItself(s', patience[1..], left, tail);
      var answers, later := Answers(s, patience), Answers(s', patience[1..]);
      if r != Cancelled {
        forall i | 0 <= i < |answers|
          ensures answers[i] == Expected(payloads[if i < |payloads| then i else |payloads|..], tail, s.maxFrame)
        {
          if i > 0 {
            assert answers[i] == later[i - 1];
            if r.Message? && i <= |payloads| {
              assert payloads[i..] == left[i - 1..];
            }
          }
        }
      }
    }
  }

  /** Enough patience, and every answer comes: no byte is ever waited for in vain. */
  lemma {:induction false} PatienceIsRewarded(s: Receiver, patience: seq<nat>, payloads: seq<seq<byte>>,
          tail: seq<byte>)
    requires s.Valid() && Holds(s, payloads, tail)
    requires forall n | n in patience :: n > |s.pieces|
    ensures |Answers(s, patience)| == |patience|
    decreases |patience|
  {
    if patience != [] {
      var (r, s') := Recv(s, patience[0]);
      RecvIsRight(s, patience[0], payloads, tail);
      ReadsShrink(s, patience[0]);
      assert patience[0] in patience && forall n | n in patience[1..] :: n in patience;
      PatienceIsRewarded(s', patience[1..], if r.Message? then payloads[1..] else payloads, tail);
    }
  }

  lemma {:induction false} ReadsShrink(s: Receiver, patience: nat)
    ensures |Recv(s, patience).1.pieces| <= |s.pieces|
    decreases |s.pieces|
  {
    if s.pieces != [] && patience > 0 {
      ReadsShrink(s.(rbuf := s.rbuf + s.pieces[0], pieces := s.pieces[1..]), patience - 1);
    }
  }

  /** A receiver of a whole stream of sent payloads, in any reads, holds them. */
  lemma SentIsHeld(payloads: seq<seq<byte>>, pieces: seq<seq<byte>>, maxFrame: nat)
    requires AllSendable(payloads, maxFrame) && Flat(pieces) == Encode(payloads)
    ensures Holds(Receiver([], pieces, maxFrame), payloads, [])
  {
  }

  /** The prefix limit is real: a limit of 4 GiB or more lets through a payload whose length the
      prefix cannot say, and the receiver then takes it for a shorter one. */
  lemma LongPayloadIsCutShort(p: seq<byte>, maxFrame: nat)
    requires TWO_32 <= |p| <= maxFrame
    ensures Recv(Receiver(FrameOf(p), [], maxFrame), 0).0 == Message(p[..|p| % TWO_32])
  {
    PrefixRoundTrip(|p|, p);
    var n := |p| % TWO_32;
    assert FrameOf(p)[4..4 + n] == p[..n];
  }
}
