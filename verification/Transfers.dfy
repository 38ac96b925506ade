/** A clipboard transfer, cut into chunks and put together again
    (`Chunk`, `ChunkAssembler` in `geserdesk-proto/src/clipboard.rs`, `Inbound` in
    `geserdesk-clipboard/src/inbound.rs`, `messages` in `geserdesk-server/src/clipboard.rs`). */
module Transfers {
  import opened Wrappers
  import opened Framing
  import opened Contents

  const CHUNK_SIZE: nat := 32 * 1024
  const ENCODING_SLACK: nat := 4096
  const MAX_U64: nat := 0xFFFF_FFFF_FFFF_FFFF

  datatype Chunk = Start(total: nat) | Data(bytes: seq<byte>) | End

  function Body(bytes: seq<byte>): seq<Chunk> {
    if bytes == [] then []
    else if |bytes| <= CHUNK_SIZE then [Data(bytes)]
    else [Data(bytes[..CHUNK_SIZE])] + Body(bytes[CHUNK_SIZE..])
  }

  function Stream(bytes: seq<byte>): seq<Chunk> {
    [Start(|bytes|)] + Body(bytes) + [End]
  }

  datatype ChunkError = NotStarted | DoubleStart | AfterEnd | LengthMismatch(expected: nat, actual: nat) | Oversize(limit: nat)

  datatype Assembly = Assembly(started: bool, finished: bool, expected: nat, limit: nat, buf: seq<byte>)

  function FreshAssembly(limit: nat): Assembly {
    Assembly(false, false, 0, limit, [])
  }

  function Push(a: Assembly, chunk: Chunk): (Result<Option<seq<byte>>, ChunkError>, Assembly) {
    if a.finished then (Err(AfterEnd), a)
    else
      match chunk
      case Start(total) =>
        if a.started then (Err(DoubleStart), a)
        else if a.limit > 0 && total > a.limit then (Err(Oversize(a.limit)), a)
        else (Ok(None), a.(started := true, expected := total))
      case Data(d) =>
        if !a.started then (Err(NotStarted), a)
        else if a.limit > 0 && |a.buf| + |d| > a.limit then (Err(Oversize(a.limit)), a)
        else (Ok(None), a.(buf := a.buf + d))
      case End =>
        if !a.started then (Err(NotStarted), a)
        else if a.expected != 0 && a.expected != |a.buf| then (Err(LengthMismatch(a.expected, |a.buf|)), a)
        else (Ok(Some(a.buf)), a.(finished := true, buf := []))
  }

  class ChunkAssembler {
    var started: bool
    var finished: bool
    var expected: nat
    const limit: nat
    var buf: seq<byte>

    function View(): Assembly
      reads this
    {
      Assembly(started, finished, expected, limit, buf)
    }

    constructor (limit: nat)
      ensures View() == FreshAssembly(limit)
    {
      started, finished, expected, this.limit, buf := false, false, 0, limit, [];
    }

    method PushChunk(chunk: Chunk) returns (r: Result<Option<seq<byte>>, ChunkError>)
      modifies this
      ensures (r, View()) == Push(old(View()), chunk)
    {
      if finished {
        return Err(AfterEnd);
      }
      match chunk {
        case Start(total) =>
          if started {
            return Err(DoubleStart);
          }
          if limit > 0 && total > limit {
            return Err(Oversize(limit));
          }
          started := true;
          expected := total;
          return Ok(None);
        case Data(d) =>
          if !started {
            return Err(NotStarted);
          }
          if limit > 0 && |buf| + |d| > limit {
            return Err(Oversize(limit));
          }
          buf := buf + d;
          return Ok(None);
        case End =>
          if !started {
            return Err(NotStarted);
          }
          if expected != 0 && expected != |buf| {
            return Err(LengthMismatch(expected, |buf|));
          }
          finished := true;
          var whole := buf;
          buf := [];
          return Ok(Some(whole));
      }
    }
  }

  // ---- the grammar ---------------------------------------------------------------------------

  /** The data of these chunks, joined. */
  function DataOfAll(chunks: seq<Chunk>): seq<byte> {
    if chunks == [] then []
    else
      var last := chunks[|chunks| - 1];
      DataOfAll(chunks[..|chunks| - 1]) + (if last.Data? then last.bytes else [])
  }

  predicate Under(n: nat, limit: nat) {
    limit == 0 || n <= limit
  }

  /** `chunk` may come after these: a Start first, then data, then an End, and nothing after that; within the
      limit, if there is one; and at the End as many bytes as the Start announced, if it announced any. */
  predicate MayFollow(kept: seq<Chunk>, chunk: Chunk, limit: nat) {
    if kept == [] then chunk.Start? && Under(chunk.total, limit)
    else
      && kept[|kept| - 1] != End
      && match chunk
         case Start(_) => false
         case Data(d) => Under(|DataOfAll(kept)| + |d|, limit)
         case End => kept[0].Start? && (kept[0].total == 0 || kept[0].total == |DataOfAll(kept)|)
  }

  /** What an assembler is after keeping these chunks. */
  predicate StandsFor(a: Assembly, kept: seq<Chunk>) {
    && (kept != [] ==> kept[0].Start?)
    && a.started == (kept != []) && a.finished == (kept != [] && kept[|kept| - 1] == End)
    && a.expected == (if kept == [] then 0 else kept[0].total)
    && a.buf == (if a.finished then [] else DataOfAll(kept))
  }

  /** What is wrong with a chunk that may not follow. */
  function Refusal(kept: seq<Chunk>, chunk: Chunk, limit: nat): ChunkError {
    if kept == [] then (if chunk.Start? then Oversize(limit) else NotStarted)
    else if kept[|kept| - 1] == End then AfterEnd
    else
      match chunk
      case Start(_) => DoubleStart
      case Data(_) => Oversize(limit)
      case End => LengthMismatch(if kept[0].Start? then kept[0].total else 0, |DataOfAll(kept)|)
  }

  /** An assembler takes exactly the chunks that may follow, gives the joined data at the End, and is not
      changed by the others, which it refuses for what is wrong with them. */
  lemma AssemblerTakesWhatMayFollow(a: Assembly, kept: seq<Chunk>, chunk: Chunk)
    requires StandsFor(a, kept)
    ensures var (r, a') := Push(a, chunk);
      && a'.limit == a.limit
      && (r.Ok? <==> MayFollow(kept, chunk, a.limit))
      && (r.Ok? ==> StandsFor(a', kept + [chunk]) && r.value == if chunk == End then Some(DataOfAll(kept)) else None)
      && (r.Err? ==> a' == a && r.error == Refusal(kept, chunk, a.limit))
  {
    var all := kept + [chunk];
    assert all[..|kept|] == kept;
  }

  function PushAll(a: Assembly, chunks: seq<Chunk>): Assembly {
    if chunks == [] then a else Push(PushAll(a, chunks[..|chunks| - 1]), chunks[|chunks| - 1]).1
  }

  /** The chunks that may follow those kept before them. */
  function Kept(chunks: seq<Chunk>, limit: nat): seq<Chunk> {
    if chunks == [] then []
    else
      var before, last := Kept(chunks[..|chunks| - 1], limit), chunks[|chunks| - 1];
      if MayFollow(before, last, limit) then before + [last] else before
  }

  /** Whatever chunks come, in whatever order, the assembler stands for those of them that may follow one
      another. */
  lemma {:induction false} AssemblerFollowsTheGrammar(chunks: seq<Chunk>, limit: nat)
    ensures var a := PushAll(FreshAssembly(limit), chunks); StandsFor(a, Kept(chunks, limit)) && a.limit == limit
  {
    if chunks != [] {
      var front := chunks[..|chunks| - 1];
      AssemblerFollowsTheGrammar(front, limit);
      AssemblerTakesWhatMayFollow(PushAll(FreshAssembly(limit), front), Kept(front, limit), chunks[|chunks| - 1]);
    }
  }

  /** Encoding and decoding, as an opaque pair. */
  datatype Codec = Codec(encode: Content -> seq<byte>, decode: seq<byte> -> Option<Content>) {
    ghost predicate Inverse() {
      forall c: Content :: decode(encode(c)) == Some(c)
    }
  }

  datatype ClipboardId = Clipboard | Primary

  datatype ClipMsg = GrabOf(id: ClipboardId, number: nat) | DataOf(id: ClipboardId, number: nat, chunk: Chunk)

  datatype InboundError = Chunks(error: ChunkError) | Malformed

  /** The transfer being received: its number, its data limit and what has come. */
  datatype Current = Current(number: nat, maxBytes: nat, assembly: Assembly)

  function LimitFor(maxBytes: nat): nat {
    if maxBytes + ENCODING_SLACK > MAX_U64 then MAX_U64 else maxBytes + ENCODING_SLACK
  }

  function OnGrab(id: ClipboardId, number: nat, maxBytes: nat): Option<Current> {
    if id == Clipboard then Some(Current(number, maxBytes, FreshAssembly(LimitFor(maxBytes)))) else None
  }

  function OnData(codec: Codec, cur: Option<Current>, id: ClipboardId, number: nat,
          chunk: Chunk): (Result<Option<Content>, InboundError>, Option<Current>) {
    if cur.None? || id != Clipboard || number != cur.value.number then (Ok(None), cur)
    else
      match Push(cur.value.assembly, chunk)
      case (Ok(None), a) => (Ok(None), Some(cur.value.(assembly := a)))
      case (Ok(Some(bytes)), _) =>
        (match codec.decode(bytes)
         case None => Err(Malformed)
         case Some(content) =>
           if content.DataLen() > cur.value.maxBytes then Err(Chunks(Oversize(cur.value.maxBytes))) else Ok(Some(content)),
         None)
      case (Err(e), _) => (Err(Chunks(e)), None)
  }

  class Inbound {
    const codec: Codec
    var current: Option<Current>

    constructor (codec: Codec)
      ensures current == None && this.codec == codec
    {
      this.codec, current := codec, None;
    }

    method Grab(id: ClipboardId, number: nat, maxBytes: nat)
      modifies this
      ensures current == OnGrab(id, number, maxBytes)
    {
      current := if id == Clipboard then Some(Current(number, maxBytes, FreshAssembly(LimitFor(maxBytes)))) else None;
    }

    method OnChunk(id: ClipboardId, number: nat, chunk: Chunk) returns (r: Result<Option<Content>, InboundError>)
      modifies this
      ensures (r, current) == OnData(codec, old(current), id, number, chunk)
    {
      if current.None? || id != Clipboard || number != current.value.number {
        return Ok(None);
      }
      var maxBytes := current.value.maxBytes;
      var (pushed, a) := Push(current.value.assembly, chunk);
      match pushed {
        case Ok(None) =>
          current := Some(current.value.(assembly := a));
          return Ok(None);
        case Ok(Some(bytes)) =>
          current := None;
          var decoded := codec.decode(bytes);
          if decoded.None? {
            return Err(Malformed);
          }
          if decoded.value.DataLen() > maxBytes {
            return Err(Chunks(Oversize(maxBytes)));
          }
          return Ok(Some(decoded.value));
        case Err(e) =>
          current := None;
          return Err(Chunks(e));
      }
    }
  }

  // ---- receiving -------------------------------------------------------------------------------

  /** A message taken in: what it yields and what is in progress after it. */
  function Take(codec: Codec, maxBytes: nat, cur: Option<Current>,
          m: ClipMsg): (Result<Option<Content>, InboundError>, Option<Current>) {
    match m
    case GrabOf(id, number) => (Ok(None), OnGrab(id, number, maxBytes))
    case DataOf(id, number, chunk) => OnData(codec, cur, id, number, chunk)
  }

  /** What one message completes, if it completes anything. */
  function Whole(r: Result<Option<Content>, InboundError>): seq<Content> {
    if r.Ok? && r.value.Some? then [r.value.value] else []
  }

  /** The contents a run of messages yields, in order. */
  function Yielded(codec: Codec, maxBytes: nat, cur: Option<Current>, msgs: seq<ClipMsg>): seq<Content>
    decreases |msgs|
  {
    if msgs == [] then []
    else
      var (r, cur') := Take(codec, maxBytes, cur, msgs[0]);
      Whole(r) + Yielded(codec, maxBytes, cur', msgs[1..])
  }

  function After(codec: Codec, maxBytes: nat, cur: Option<Current>, msgs: seq<ClipMsg>): Option<Current>
    decreases |msgs|
  {
    if msgs == [] then cur else After(codec, maxBytes, Take(codec, maxBytes, cur, msgs[0]).1, msgs[1..])
  }

  lemma {:induction false} YieldedConcat(codec: Codec, maxBytes: nat, cur: Option<Current>, a: seq<ClipMsg>,
          b: seq<ClipMsg>)
    ensures Yielded(codec, maxBytes, cur, a + b)
         == Yielded(codec, maxBytes, cur, a) + Yielded(codec, maxBytes, After(codec, maxBytes, cur, a), b)
    ensures After(codec, maxBytes, cur, a + b) == After(codec, maxBytes, After(codec, maxBytes, cur, a), b)
    decreases |a|
  {
    if a == [] {
      assert a + b == b;
    } else {
      var all, taken := a + b, Take(codec, maxBytes, cur, a[0]);
      assert all[0] == a[0] && all[1..] == a[1..] + b;
      YieldedConcat(codec, maxBytes, taken.1, a[1..], b);
      assert Yielded(codec, maxBytes, cur, all) == Whole(taken.0) + Yielded(codec, maxBytes, taken.1, all[1..]);
    }
  }

  /** The buffer of a transfer never grows past its limit. */
  predicate Bounded(cur: Option<Current>) {
    cur.Some? ==> cur.value.assembly.limit == LimitFor(cur.value.maxBytes) && |cur.value.assembly.buf| <= cur.value.assembly.limit
  }

  lemma {:induction false} BufferIsBounded(codec: Codec, maxBytes: nat, cur: Option<Current>, msgs: seq<ClipMsg>)
    requires Bounded(cur)
    ensures Bounded(After(codec, maxBytes, cur, msgs))
    decreases |msgs|
  {
    if msgs != [] {
      BufferIsBounded(codec, maxBytes, Take(codec, maxBytes, cur, msgs[0]).1, msgs[1..]);
    }
  }

  // ---- the round trip ----------------------------------------------------------------------------

  /** The chunks of transfer `number` in `msgs`, in order. */
  function ChunksFor(msgs: seq<ClipMsg>, number: nat): seq<Chunk>
    decreases |msgs|
  {
    if msgs == [] then []
    else
      (if msgs[0].DataOf? && msgs[0].id == Clipboard && msgs[0].number == number then [msgs[0].chunk] else [])
      + ChunksFor(msgs[1..], number)
  }

  /** `msgs` carries `content` as transfer `number`: its Grab, then its chunks, among which chunks
      of other transfers and of the primary selection may stray in. */
  predicate Carries(codec: Codec, msgs: seq<ClipMsg>, number: nat, content: Content) {
    && msgs != [] && msgs[0] == GrabOf(Clipboard, number)
    && (forall m | m in msgs[1..] :: m.DataOf?)
    && ChunksFor(msgs[1..], number) == Stream(codec.encode(content))
  }

  /** So many bytes are within the limit for data and 4096 more, and their number within 64 bits. */
  predicate FitsOnTheWire(n: nat, maxBytes: nat) {
    n <= maxBytes + 4096 && n < 0x1_0000_0000_0000_0000
  }

  /** The content and its encoding are within the limits. */
  predicate Within(codec: Codec, content: Content, maxBytes: nat) {
    FitsOnTheWire(|codec.encode(content)|, maxBytes) && content.DataLen() <= maxBytes
  }

  /** A message that changes nothing can be left out. */
  lemma Skip(codec: Codec, maxBytes: nat, cur: Option<Current>, msgs: seq<ClipMsg>)
    requires msgs != [] && Take(codec, maxBytes, cur, msgs[0]) == (Ok(None), cur)
    ensures Yielded(codec, maxBytes, cur, msgs) == Yielded(codec, maxBytes, cur, msgs[1..])
    ensures After(codec, maxBytes, cur, msgs) == After(codec, maxBytes, cur, msgs[1..])
  {
    assert [] + Yielded(codec, maxBytes, cur, msgs[1..]) == Yielded(codec, maxBytes, cur, msgs[1..]);
  }

  /** Chunks with nothing in progress, or with other transfers', come to nothing. */
  lemma {:induction false} StraysComeToNothing(codec: Codec, maxBytes: nat, cur: Option<Current>, msgs: seq<ClipMsg>)
    requires forall m | m in msgs :: m.DataOf?
    requires cur.Some? ==> ChunksFor(msgs, cur.value.number) == []
    ensures Yielded(codec, maxBytes, cur, msgs) == [] && After(codec, maxBytes, cur, msgs) == cur
    decreases |msgs|
  {
    if msgs != [] {
      assert msgs[0] in msgs;
      Skip(codec, maxBytes, cur, msgs);
      StraysComeToNothing(codec, maxBytes, cur, msgs[1..]);
    }
  }

  // ---- what a transfer comes to --------------------------------------------------------------------

  /** The bytes up to the End, if nothing but data comes before it. */
  function UpToEnd(chunks: seq<Chunk>): Option<seq<byte>> {
    if chunks == [] || chunks[0].Start? then None
    else if chunks[0].End? then Some([])
    else
      match UpToEnd(chunks[1..])
      case None => None
      case Some(more) => Some(chunks[0].bytes + more)
  }

  /** The bytes spelled by a Start, any data and an End; what comes after the End does not matter. */
  function Spelled(chunks: seq<Chunk>): Option<seq<byte>> {
    if chunks != [] && chunks[0].Start? then UpToEnd(chunks[1..]) else None
  }

  /** `bytes` are as many as were announced, if a number was, within the limit, and decode to a
      content within its own. */
  function Decoded(codec: Codec, maxBytes: nat, announced: nat, bytes: seq<byte>): seq<Content> {
    if (announced != 0 && announced != |bytes|) || !FitsOnTheWire(|bytes|, maxBytes) then []
    else
      match codec.decode(bytes)
      case Some(content) => if content.DataLen() <= maxBytes then [content] else []
      case None => []
  }

  /** What a Grab and the chunks of its number come to: one content, or nothing. */
  function Comes(codec: Codec, maxBytes: nat, chunks: seq<Chunk>): seq<Content> {
    match Spelled(chunks)
    case None => []
    case Some(bytes) => Decoded(codec, maxBytes, chunks[0].total, bytes)
  }

  lemma {:induction false} StartedComes(codec: Codec, maxBytes: nat, cur: Current, msgs: seq<ClipMsg>)
    requires cur.maxBytes == maxBytes && cur.assembly.limit == LimitFor(maxBytes) && |cur.assembly.buf| <= cur.assembly.limit
    requires cur.assembly.started && !cur.assembly.finished && forall m | m in msgs :: m.DataOf?
    ensures Yielded(codec, maxBytes, Some(cur), msgs) ==
      match UpToEnd(ChunksFor(msgs, cur.number))
      case None => []
      case Some(more) => Decoded(codec, maxBytes, cur.assembly.expected, cur.assembly.buf + more)
    decreases |msgs|
  {
    if msgs != [] {
      var m, rest := msgs[0], msgs[1..];
      assert m in msgs && forall n | n in rest :: n in msgs;
      var due := ChunksFor(rest, cur.number);
      if !(m.id == Clipboard && m.number == cur.number) {
        assert [] + due == due;
        Skip(codec, maxBytes, Some(cur), msgs);
        StartedComes(codec, maxBytes, cur, rest);
      } else {
        assert ([m.chunk] + due)[1..] == due;
        MineComes(codec, maxBytes, cur, msgs, m.chunk, due);
      }
    }
  }

  lemma Behind(chunk: Chunk, due: seq<Chunk>)
    ensures ([chunk] + due)[0] == chunk && ([chunk] + due)[1..] == due
  {
  }

  /** The step of that for a chunk of the transfer's own. */
  lemma {:induction false} MineComes(codec: Codec, maxBytes: nat, cur: Current, msgs: seq<ClipMsg>, chunk: Chunk, due: seq<Chunk>)
    requires cur.maxBytes == maxBytes && cur.assembly.limit == LimitFor(maxBytes) && |cur.assembly.buf| <= cur.assembly.limit
    requires cur.assembly.started && !cur.assembly.finished && forall m | m in msgs :: m.DataOf?
    requires msgs != [] && msgs[0] == DataOf(Clipboard, cur.number, chunk) && due == ChunksFor(msgs[1..], cur.number)
    ensures Yielded(codec, maxBytes, Some(cur), msgs) ==
      match UpToEnd([chunk] + due)
      case None => []
      case Some(more) => Decoded(codec, maxBytes, cur.assembly.expected, cur.assembly.buf + more)
    decreases |msgs|, 0
  {
    var rest, a := msgs[1..], cur.assembly;
    Behind(chunk, due);
    match chunk
    case Start(_) =>
      StraysComeToNothing(codec, maxBytes, None, rest);
    case End =>
      StraysComeToNothing(codec, maxBytes, None, rest);
      assert a.buf + [] == a.buf;
    case Data(d) =>
      if |a.buf| + |d| > a.limit {
        StraysComeToNothing(codec, maxBytes, None, rest);
      } else {
        var cur' := cur.(assembly := a.(buf := a.buf + d));
        StartedComes(codec, maxBytes, cur', rest);
        assert Yielded(codec, maxBytes, Some(cur), msgs) == [] + Yielded(codec, maxBytes, Some(cur'), rest);
        if UpToEnd(due).Some? {
          Regrouped(a.buf, d, UpToEnd(due).value);
        }
      }
  }

  lemma {:induction false} GrabbedComes(codec: Codec, maxBytes: nat, cur: Current, msgs: seq<ClipMsg>)
    requires cur.maxBytes == maxBytes && cur.assembly == FreshAssembly(LimitFor(maxBytes)) && forall m | m in msgs :: m.DataOf?
    ensures Yielded(codec, maxBytes, Some(cur), msgs) == Comes(codec, maxBytes, ChunksFor(msgs, cur.number))
    decreases |msgs|
  {
    if msgs != [] {
      var m, rest := msgs[0], msgs[1..];
      assert m in msgs && forall n | n in rest :: n in msgs;
      var due := ChunksFor(rest, cur.number);
      if !(m.id == Clipboard && m.number == cur.number) {
        assert [] + due == due;
        Skip(codec, maxBytes, Some(cur), msgs);
        GrabbedComes(codec, maxBytes, cur, rest);
      } else {
        assert ([m.chunk] + due)[1..] == due;
        if m.chunk.Start? && m.chunk.total <= LimitFor(maxBytes) {
          var cur' := cur.(assembly := cur.assembly.(started := true, expected := m.chunk.total));
          StartedComes(codec, maxBytes, cur', rest);
          assert Yielded(codec, maxBytes, Some(cur), msgs) == [] + Yielded(codec, maxBytes, Some(cur'), rest);
          if UpToEnd(due).Some? {
            assert [] + UpToEnd(due).value == UpToEnd(due).value;
          }
        } else {
          StraysComeToNothing(codec, maxBytes, None, rest);
        }
      }
    }
  }

  /** From one Grab to the next: `msgs` begins with a Grab and holds no other. */
  predicate IsSegment(msgs: seq<ClipMsg>) {
    msgs != [] && msgs[0].GrabOf? && forall m | m in msgs[1..] :: m.DataOf?
  }

  /** Exactly what any segment yields, well-formed or not, and whatever was in progress before: a
      content iff it grabs the clipboard and the chunks of its number spell one within the limits. */
  lemma SegmentYieldsExactly(codec: Codec, maxBytes: nat, cur: Option<Current>, msgs: seq<ClipMsg>)
    requires IsSegment(msgs)
    ensures Yielded(codec, maxBytes, cur, msgs)
         == if msgs[0].id == Clipboard then Comes(codec, maxBytes, ChunksFor(msgs[1..], msgs[0].number)) else []
  {
    var next := OnGrab(msgs[0].id, msgs[0].number, maxBytes);
    assert Yielded(codec, maxBytes, cur, msgs) == [] + Yielded(codec, maxBytes, next, msgs[1..]);
    if next.Some? {
      GrabbedComes(codec, maxBytes, next.value, msgs[1..]);
    } else {
      StraysComeToNothing(codec, maxBytes, None, msgs[1..]);
    }
  }

  function Joined(segments: seq<seq<ClipMsg>>): seq<ClipMsg> {
    if segments == [] then [] else segments[0] + Joined(segments[1..])
  }

  /** What each of the segments yields alone, one after the other. */
  function Apart(codec: Codec, maxBytes: nat, segments: seq<seq<ClipMsg>>): seq<Content> {
    if segments == [] then [] else Yielded(codec, maxBytes, None, segments[0]) + Apart(codec, maxBytes, segments[1..])
  }

  /** Whatever a transfer is (malformed, oversize, cut off by the next one, or whole), it costs only
      itself: every run of messages cut at its Grabs yields exactly what the pieces yield alone. */
  lemma {:induction false} TransfersCostOnlyThemselves(codec: Codec, maxBytes: nat, cur: Option<Current>, segments: seq<seq<ClipMsg>>)
    requires forall msgs: seq<ClipMsg> | msgs in segments :: msgs != [] && msgs[0].GrabOf?
    ensures Yielded(codec, maxBytes, cur, Joined(segments)) == Apart(codec, maxBytes, segments)
    decreases |segments|
  {
    if segments != [] {
      var first := segments[0];
      assert first in segments && forall msgs: seq<ClipMsg> | msgs in segments[1..] :: msgs in segments;
      YieldedConcat(codec, maxBytes, cur, first, Joined(segments[1..]));
      TransfersCostOnlyThemselves(codec, maxBytes, After(codec, maxBytes, cur, first), segments[1..]);
      assert Take(codec, maxBytes, cur, first[0]) == Take(codec, maxBytes, None, first[0]);
    }
  }

  // ---- transfers that carry a content ----------------------------------------------------------------

  lemma {:induction false} BodySpells(bytes: seq<byte>)
    ensures UpToEnd(Body(bytes) + [End]) == Some(bytes)
  {
    if bytes == [] {
      assert Body(bytes) + [End] == [End];
    } else {
      var d := if |bytes| <= CHUNK_SIZE then bytes else bytes[..CHUNK_SIZE];
      BodySpells(bytes[|d|..]);
      assert (Body(bytes) + [End])[1..] == Body(bytes[|d|..]) + [End];
      assert bytes == d + bytes[|d|..];
    }
  }

  /** The data comes in pieces of 32 KiB, and a last one that may be shorter but not empty. */
  lemma {:induction false} PiecesAreFull(bytes: seq<byte>, i: nat)
    requires i < |Body(bytes)|
    ensures var chunk := Body(bytes)[i];
      chunk.Data? && 0 < |chunk.bytes| <= 0x8000 && (i < |Body(bytes)| - 1 ==> |chunk.bytes| == 0x8000)
  {
    if i > 0 {
      PiecesAreFull(bytes[CHUNK_SIZE..], i - 1);
    }
  }

  lemma BehindStart(bytes: seq<byte>)
    ensures Stream(bytes)[0] == Start(|bytes|) && Stream(bytes)[1..] == Body(bytes) + [End]
  {
    BehindFirst(Start(|bytes|), Body(bytes), [End]);
  }

  lemma BehindFirst(first: Chunk, body: seq<Chunk>, end: seq<Chunk>)
    ensures ([first] + body + end)[0] == first && ([first] + body + end)[1..] == body + end
  {
  }

  /** A transfer that carries a content yields it if it is within the limits, and else nothing,
      whatever was in progress before it. */
  lemma TransferArrives(codec: Codec, maxBytes: nat, cur: Option<Current>, msgs: seq<ClipMsg>, number: nat,
          content: Content)
    requires codec.Inverse() && Carries(codec, msgs, number, content)
    ensures Yielded(codec, maxBytes, cur, msgs) == if Within(codec, content, maxBytes) then [content] else []
  {
    var bytes := codec.encode(content);
    BodySpells(bytes);
    BehindStart(bytes);
    SegmentYieldsExactly(codec, maxBytes, cur, msgs);
    assert codec.decode(bytes) == Some(content);
  }

  /** What an oversize transfer comes to. */
  lemma OversizeComesToNothing(codec: Codec, maxBytes: nat, cur: Option<Current>, msgs: seq<ClipMsg>, number: nat,
          content: Content)
    requires codec.Inverse() && Carries(codec, msgs, number, content) && !Within(codec, content, maxBytes)
    ensures Yielded(codec, maxBytes, cur, msgs) == []
  {
    TransferArrives(codec, maxBytes, cur, msgs, number, content);
  }

  // ---- any number of transfers ---------------------------------------------------------------------

  /** One transfer of a run: the messages that carry it. */
  datatype Transfer = Transfer(number: nat, content: Content, msgs: seq<ClipMsg>)

  function Accepted(codec: Codec, ts: seq<Transfer>, maxBytes: nat): seq<Content> {
    if ts == [] then []
    else (if Within(codec, ts[0].content, maxBytes) then [ts[0].content] else []) + Accepted(codec, ts[1..], maxBytes)
  }

  function Segments(ts: seq<Transfer>): seq<seq<ClipMsg>> {
    seq(|ts|, i requires 0 <= i < |ts| => ts[i].msgs)
  }

  /** Any run of transfers, whatever state it finds and however they are numbered, yields exactly
      the contents within the limits, in order. */
  lemma TransfersRoundTrip(codec: Codec, maxBytes: nat, cur: Option<Current>, ts: seq<Transfer>)
    requires codec.Inverse() && forall t | t in ts :: Carries(codec, t.msgs, t.number, t.content)
    ensures Yielded(codec, maxBytes, cur, Joined(Segments(ts))) == Accepted(codec, ts, maxBytes)
  {
    forall msgs: seq<ClipMsg> | msgs in Segments(ts) ensures msgs != [] && msgs[0].GrabOf? {
      var i :| 0 <= i < |ts| && Segments(ts)[i] == msgs;
      assert ts[i] in ts;
    }
    TransfersCostOnlyThemselves(codec, maxBytes, cur, Segments(ts));
    EachArrives(codec, maxBytes, ts);
  }

  lemma {:induction false} EachArrives(codec: Codec, maxBytes: nat, ts: seq<Transfer>)
    requires codec.Inverse() && forall t | t in ts :: Carries(codec, t.msgs, t.number, t.content)
    ensures Apart(codec, maxBytes, Segments(ts)) == Accepted(codec, ts, maxBytes)
  {
    if ts != [] {
      assert ts[0] in ts && forall t | t in ts[1..] :: t in ts;
      TransferArrives(codec, maxBytes, None, ts[0].msgs, ts[0].number, ts[0].content);
      EachArrives(codec, maxBytes, ts[1..]);
      assert Segments(ts)[1..] == Segments(ts[1..]);
    }
  }

  // ---- what the senders send -------------------------------------------------------------------------

  function AsData(number: nat, chunks: seq<Chunk>): seq<ClipMsg> {
    if chunks == [] then [] else [DataOf(Clipboard, number, chunks[0])] + AsData(number, chunks[1..])
  }

  /** The messages that push `content` as transfer `number`. */
  function Messages(codec: Codec, number: nat, content: Content): seq<ClipMsg> {
    [GrabOf(Clipboard, number)] + AsData(number, Stream(codec.encode(content)))
  }

  lemma {:induction false} DataIsItsChunks(number: nat, chunks: seq<Chunk>)
    ensures ChunksFor(AsData(number, chunks), number) == chunks
    ensures forall m | m in AsData(number, chunks) :: m.DataOf?
  {
    if chunks != [] {
      DataIsItsChunks(number, chunks[1..]);
      assert AsData(number, chunks)[1..] == AsData(number, chunks[1..]);
    }
  }

  /** What the server and the clients send carries what they mean to send. */
  lemma MessagesCarry(codec: Codec, number: nat, content: Content)
    ensures Carries(codec, Messages(codec, number, content), number, content)
  {
    DataIsItsChunks(number, Stream(codec.encode(content)));
    assert Messages(codec, number, content)[1..] == AsData(number, Stream(codec.encode(content)));
  }
}
