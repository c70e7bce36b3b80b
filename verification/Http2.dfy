/** Incremental HTTP/2 frame reassembly for one direction (internal/l7/http2.go).

    The reference meaning is `Drain`: a walk over the whole byte stream, in which every byte
    carries the origin (time and identity) of the observation that delivered it. The class
    `DirectionState` keeps one origin for its whole buffer and sees the stream chunk by chunk. */
module Http2 {
  import opened Base
  import opened L7Fragment

  // Frame layout: RFC 9113 sections 4.1, 6.2 and 6.10.
  const HEADER_BYTES := 9
  const FRAME_HEADERS: byte := 0x1
  const FRAME_CONTINUATION: byte := 0x9
  const FLAG_END_HEADERS := 0x4
  const FLAG_PADDED := 0x8
  const FLAG_PRIORITY := 0x20

  datatype Error = InvalidHttp2 | HeaderBlockTooLarge

  datatype HeaderField = HeaderField(name: seq<byte>, value: seq<byte>)

  /** One step of an arbitrary deterministic stateful header decoder (RFC 7541 section 2.2). */
  datatype Decoding<D> = Decoded(next: D, fields: seq<HeaderField>) | Undecodable(next: D)
  type Hpack<!D> = (D, seq<byte>) -> Decoding<D>

  datatype Limits = Limits(maxBuffered: nat, maxHeaderBlock: nat)

  /** Who delivered a byte, and when. */
  datatype Origin = Origin(ns: nat, identity: Identity)
  const NO_ORIGIN := Origin(0, NO_IDENTITY)

  datatype Frame = Frame(kind: byte, flags: byte, stream: nat, payload: seq<byte>)
  datatype Block = Block(stream: nat, origin: Origin, fields: seq<HeaderField>)

  /** The header block being joined (stream 0: none) and the decoder. */
  datatype Assembly<D> = Assembly(stream: nat, origin: Origin, block: seq<byte>, decoder: D)

  // ---------- Frames ----------

  function PayloadLength(b: seq<byte>): nat
    requires |b| >= 3
  {
    b[0] as nat * 0x1_0000 + b[1] as nat * 0x100 + b[2] as nat
  }

  function StreamId(b: seq<byte>): nat
    requires |b| >= HEADER_BYTES
  {
    (b[5] as nat * 0x100_0000 + b[6] as nat * 0x1_0000 + b[7] as nat * 0x100 + b[8] as nat) % 0x8000_0000
  }

  /** The buffer does not yet hold a whole frame, and its frame is not oversized. */
  predicate Partial(limits: Limits, b: seq<byte>) {
    |b| < HEADER_BYTES || (PayloadLength(b) <= limits.maxBuffered && |b| < HEADER_BYTES + PayloadLength(b))
  }

  predicate HoldsFrame(b: seq<byte>) {
    |b| >= HEADER_BYTES && |b| >= HEADER_BYTES + PayloadLength(b)
  }

  function FrameSize(b: seq<byte>): (n: nat)
    requires HoldsFrame(b)
    ensures HEADER_BYTES <= n <= |b|
  {
    HEADER_BYTES + PayloadLength(b)
  }

  function FrontFrame(b: seq<byte>): Frame
    requires HoldsFrame(b)
  {
    Frame(b[3], b[4], StreamId(b), b[HEADER_BYTES..FrameSize(b)])
  }

  /** The header block fragment inside a HEADERS payload: padding and priority removed. */
  function HeadersFragment(payload: seq<byte>, flags: byte): Option<seq<byte>> {
    if HasFlag(flags, FLAG_PADDED) && (|payload| == 0 || payload[0] as nat > |payload| - 1) then None
    else
      var unpadded := if HasFlag(flags, FLAG_PADDED) then payload[1..|payload| - payload[0] as nat] else payload;
      if !HasFlag(flags, FLAG_PRIORITY) then Some(unpadded)
      else if |unpadded| < 5 then None
      else Some(unpadded[5..])
  }

  // ---------- Reference semantics ----------

  function Cleared<D>(asm: Assembly<D>): Assembly<D> {
    asm.(stream := 0, origin := NO_ORIGIN, block := [])
  }

  datatype Absorbed<D> = Absorbed(asm: Assembly<D>, blocks: seq<Block>, error: Option<Error>)

  /** The effect of one whole frame whose first byte has origin `mark`. */
  function Absorb<D>(hpack: Hpack<D>, limits: Limits, asm: Assembly<D>, frame: Frame, mark: Origin): Absorbed<D> {
    if frame.kind == FRAME_HEADERS then
      if frame.stream == 0 || asm.stream != 0 then Absorbed(Cleared(asm), [], Some(InvalidHttp2))
      else
        match HeadersFragment(frame.payload, frame.flags)
        case None => Absorbed(asm, [], Some(InvalidHttp2))
        case Some(fragment) =>
          if |fragment| > limits.maxHeaderBlock then Absorbed(asm, [], Some(HeaderBlockTooLarge))
          else if !HasFlag(frame.flags, FLAG_END_HEADERS) then
            Absorbed(Assembly(frame.stream, mark, fragment, asm.decoder), [], None)
          else
            match hpack(asm.decoder, fragment)
            case Undecodable(next) => Absorbed(asm.(decoder := next), [], Some(InvalidHttp2))
            case Decoded(next, fields) =>
              Absorbed(asm.(decoder := next), [Block(frame.stream, mark, fields)], None)
    else if frame.kind == FRAME_CONTINUATION then
      var joined := asm.block + frame.payload;
      if frame.stream == 0 || frame.stream != asm.stream then Absorbed(Cleared(asm), [], Some(InvalidHttp2))
      else if |joined| > limits.maxHeaderBlock then Absorbed(Cleared(asm), [], Some(HeaderBlockTooLarge))
      else if !HasFlag(frame.flags, FLAG_END_HEADERS) then Absorbed(asm.(block := joined), [], None)
      else
        match hpack(asm.decoder, joined)
        case Undecodable(next) => Absorbed(Cleared(asm.(decoder := next)), [], Some(InvalidHttp2))
        case Decoded(next, fields) =>
          Absorbed(Cleared(asm.(decoder := next)), [Block(frame.stream, asm.origin, fields)], None)
    else
      Absorbed(asm, [], None)
  }

  /** What a stretch of the stream amounts to: blocks, verdict, and the undigested rest. */
  datatype Drained<D> = Drained(
    asm: Assembly<D>, blocks: seq<Block>, error: Option<Error>, rest: seq<byte>, marks: seq<Origin>)

  function After<D>(blocks: seq<Block>, d: Drained<D>): Drained<D> {
    d.(blocks := blocks + d.blocks)
  }

  /** Walk the stream frame by frame, stopping at the first error or partial frame. */
  function Drain<D>(hpack: Hpack<D>, limits: Limits, asm: Assembly<D>, bytes: seq<byte>, marks: seq<Origin>): (d: Drained<D>)
    requires |marks| == |bytes|
    ensures |d.marks| == |d.rest| <= |bytes|
    ensures d.error.None? ==> Partial(limits, d.rest)
    decreases |bytes|
  {
    if Partial(limits, bytes) then Drained(asm, [], None, bytes, marks)
    else if PayloadLength(bytes) > limits.maxBuffered then Drained(Cleared(asm), [], Some(InvalidHttp2), [], [])
    else
      var n := FrameSize(bytes);
      var a := Absorb(hpack, limits, asm, FrontFrame(bytes), marks[0]);
      if a.error.Some? then Drained(a.asm, a.blocks, a.error, bytes[n..], marks[n..])
      else After(a.blocks, Drain(hpack, limits, a.asm, bytes[n..], marks[n..]))
  }

  lemma AfterConcat<D>(a: seq<Block>, b: seq<Block>, d: Drained<D>)
    ensures After(a, After(b, d)) == After(a + b, d)
  {
    assert a + (b + d.blocks) == (a + b) + d.blocks;
  }

  /** Draining a whole frame first. */
  lemma DrainFrame<D>(hpack: Hpack<D>, limits: Limits, asm: Assembly<D>, bytes: seq<byte>, marks: seq<Origin>)
    requires |marks| == |bytes| && HoldsFrame(bytes) && PayloadLength(bytes) <= limits.maxBuffered
    ensures var n := FrameSize(bytes);
            var a := Absorb(hpack, limits, asm, FrontFrame(bytes), marks[0]);
            Drain(hpack, limits, asm, bytes, marks) ==
            if a.error.Some? then Drained(a.asm, a.blocks, a.error, bytes[n..], marks[n..])
            else After(a.blocks, Drain(hpack, limits, a.asm, bytes[n..], marks[n..]))
  {
    hide Absorb, FrontFrame;
  }

  /** More bytes behind a whole frame do not change it. */
  lemma SameFront(b0: seq<byte>, m0: seq<Origin>, b1: seq<byte>, m1: seq<Origin>)
    requires |m0| == |b0| && |m1| == |b1| && HoldsFrame(b0)
    ensures var n := FrameSize(b0);
            && HoldsFrame(b0 + b1) && FrameSize(b0 + b1) == n && PayloadLength(b0 + b1) == PayloadLength(b0)
            && FrontFrame(b0 + b1) == FrontFrame(b0) && (m0 + m1)[0] == m0[0]
            && (b0 + b1)[n..] == b0[n..] + b1 && (m0 + m1)[n..] == m0[n..] + m1
  {
  }

  /** What draining b0 and then b1 gives, in terms of draining b0. */
  ghost predicate Joins<D>(hpack: Hpack<D>, limits: Limits, d0: Drained<D>, d: Drained<D>, b1: seq<byte>, m1: seq<Origin>)
    requires |d0.marks| == |d0.rest| && |m1| == |b1|
  {
    if d0.error.Some? then d.blocks == d0.blocks && d.error == d0.error && d.asm == d0.asm
    else d == After(d0.blocks, Drain(hpack, limits, d0.asm, d0.rest + b1, d0.marks + m1))
  }

  lemma JoinsAfter<D>(hpack: Hpack<D>, limits: Limits, blocks: seq<Block>, d0: Drained<D>, d: Drained<D>, b1: seq<byte>, m1: seq<Origin>)
    requires |d0.marks| == |d0.rest| && |m1| == |b1| && Joins(hpack, limits, d0, d, b1, m1)
    ensures Joins(hpack, limits, After(blocks, d0), After(blocks, d), b1, m1)
  {
    if d0.error.None? {
      AfterConcat(blocks, d0.blocks, Drain(hpack, limits, d0.asm, d0.rest + b1, d0.marks + m1));
    }
  }

  /** Draining a stream in two stretches gives what draining it at once gives. */
  lemma {:induction false} DrainConcat<D>(hpack: Hpack<D>, limits: Limits, asm: Assembly<D>,
                                          b0: seq<byte>, m0: seq<Origin>, b1: seq<byte>, m1: seq<Origin>)
    requires |m0| == |b0| && |m1| == |b1|
    ensures var d0 := Drain(hpack, limits, asm, b0, m0);
            Joins(hpack, limits, d0, Drain(hpack, limits, asm, b0 + b1, m0 + m1), b1, m1)
    decreases |b0|
  {
    if Partial(limits, b0) {
      var d := Drain(hpack, limits, asm, b0 + b1, m0 + m1);
      assert After([], d) == d;
    } else if PayloadLength(b0) > limits.maxBuffered {
      assert PayloadLength(b0 + b1) == PayloadLength(b0);
    } else {
      var n := FrameSize(b0);
      SameFront(b0, m0, b1, m1);
      DrainFrame(hpack, limits, asm, b0, m0);
      DrainFrame(hpack, limits, asm, b0 + b1, m0 + m1);
      var a := Absorb(hpack, limits, asm, FrontFrame(b0), m0[0]);
      hide Drain, Absorb, FrontFrame, PayloadLength;
      if a.error.None? {
        DrainConcat(hpack, limits, a.asm, b0[n..], m0[n..], b1, m1);
        JoinsAfter(hpack, limits, a.blocks, Drain(hpack, limits, a.asm, b0[n..], m0[n..]),
                   Drain(hpack, limits, a.asm, b0[n..] + b1, m0[n..] + m1), b1, m1);
      }
    }
  }

  /** Only the first origin of a partial frame matters once more bytes arrive. */
  lemma DrainForgetsInnerMarks<D>(hpack: Hpack<D>, limits: Limits, asm: Assembly<D>,
                                  b0: seq<byte>, m0: seq<Origin>, m0': seq<Origin>, b1: seq<byte>, m1: seq<Origin>)
    requires |m0| == |m0'| == |b0| && |m1| == |b1|
    requires Partial(limits, b0)
    requires b0 != [] ==> m0[0] == m0'[0]
    ensures var d := Drain(hpack, limits, asm, b0 + b1, m0 + m1);
            var d' := Drain(hpack, limits, asm, b0 + b1, m0' + m1);
            d == d'.(marks := d.marks) && (d.rest != [] ==> d.marks[0] == d'.marks[0])
  {
    var b := b0 + b1;
    if !Partial(limits, b) && PayloadLength(b) <= limits.maxBuffered {
      var n := FrameSize(b);
      assert n >= |b0|;
      assert (m0 + m1)[n..] == m1[n - |b0|..] == (m0' + m1)[n..];
    }
  }

  // ---------- Frames inside an open header block (section 6.10 of RFC 9113) ----------

  /** A CONTINUATION frame of the open block that cannot be joined or decoded. */
  predicate Unjoinable<D>(hpack: Hpack<D>, limits: Limits, asm: Assembly<D>, frame: Frame) {
    var joined := asm.block + frame.payload;
    || |joined| > limits.maxHeaderBlock
    || (HasFlag(frame.flags, FLAG_END_HEADERS) && hpack(asm.decoder, joined).Undecodable?)
  }

  /** While a header block is open, feed reports an error exactly for a HEADERS frame, a CONTINUATION of
      another stream, and a CONTINUATION that cannot be joined; a frame of any other kind changes nothing. */
  lemma OpenBlockErrorsExactly<D>(hpack: Hpack<D>, limits: Limits, asm: Assembly<D>, frame: Frame, mark: Origin)
    requires asm.stream != 0
    ensures var a := Absorb(hpack, limits, asm, frame, mark);
            && (a.error.Some? <==>
                  || frame.kind == FRAME_HEADERS
                  || (frame.kind == FRAME_CONTINUATION && (frame.stream != asm.stream || Unjoinable(hpack, limits, asm, frame))))
            && (frame.kind != FRAME_HEADERS && frame.kind != FRAME_CONTINUATION ==> a == Absorbed(asm, [], None))
  {
    hide HeadersFragment;
  }

  /** The frames that section 6.10 forbids inside an open header block: all but its own CONTINUATION. */
  predicate Interrupts<D>(asm: Assembly<D>, frame: Frame) {
    asm.stream != 0 && !(frame.kind == FRAME_CONTINUATION && frame.stream == asm.stream)
  }

  /** So of the forbidden frames feed reports exactly the HEADERS and CONTINUATION frames. */
  lemma InterruptionReportedExactly<D>(hpack: Hpack<D>, limits: Limits, asm: Assembly<D>, frame: Frame, mark: Origin)
    requires Interrupts(asm, frame)
    ensures Absorb(hpack, limits, asm, frame, mark).error.Some? <==> frame.kind == FRAME_HEADERS || frame.kind == FRAME_CONTINUATION
  {
    hide HeadersFragment;
    OpenBlockErrorsExactly(hpack, limits, asm, frame, mark);
  }

  /** For example an empty DATA frame of stream 1. */
  const EMPTY_DATA: seq<byte> := [0, 0, 0, 0, 0, 0, 0, 0, 1]

  lemma DataPassesUnreported<D>(hpack: Hpack<D>, limits: Limits, asm: Assembly<D>, marks: seq<Origin>)
    requires asm.stream != 0 && |marks| == |EMPTY_DATA|
    ensures Interrupts(asm, FrontFrame(EMPTY_DATA))
    ensures Drain(hpack, limits, asm, EMPTY_DATA, marks) == Drained(asm, [], None, [], [])
  {
    assert FrontFrame(EMPTY_DATA).kind == 0;
    DrainFrame(hpack, limits, asm, EMPTY_DATA, marks);
    assert EMPTY_DATA[9..] == [] && marks[9..] == [];
  }

  // ---------- One direction, chunk by chunk ----------

  /** The value of a direction: unread bytes with the origin of the first, and the assembly. */
  datatype Direction<D> = Direction(buffer: seq<byte>, first: Origin, asm: Assembly<D>)

  datatype Fed<D> = Fed(direction: Direction<D>, blocks: seq<Block>, error: Option<Error>)

  datatype Chunk = Chunk(payload: seq<byte>, origin: Origin)

  predicate ValidDirection<D>(limits: Limits, dir: Direction<D>) {
    Partial(limits, dir.buffer) && (dir.buffer == [] ==> dir.first == NO_ORIGIN)
  }

  function FromDrained<D>(d: Drained<D>): Fed<D>
    requires |d.marks| == |d.rest|
  {
    Fed(Direction(d.rest, if d.rest == [] then NO_ORIGIN else d.marks[0], d.asm), d.blocks, d.error)
  }

  /** Origins of the buffered bytes and of a new chunk: the buffer remembers only its first. */
  function Tagged<D>(dir: Direction<D>, chunk: Chunk): (m: seq<Origin>)
    ensures |m| == |dir.buffer| + |chunk.payload|
  {
    Repeat(dir.first, |dir.buffer|) + Repeat(chunk.origin, |chunk.payload|)
  }

  /** One call of feed. */
  function FeedOne<D>(hpack: Hpack<D>, limits: Limits, dir: Direction<D>, chunk: Chunk): (f: Fed<D>)
    ensures f.error.None? ==> ValidDirection(limits, f.direction)
    ensures |f.direction.buffer| <= |dir.buffer| + |chunk.payload|
  {
    if |dir.buffer| + |chunk.payload| > limits.maxBuffered then
      Fed(Direction([], NO_ORIGIN, Cleared(dir.asm)), [], Some(InvalidHttp2))
    else
      FromDrained(Drain(hpack, limits, dir.asm, dir.buffer + chunk.payload, Tagged(dir, chunk)))
  }

  /** Successive calls of feed, stopping at the first error. */
  function FeedAll<D>(hpack: Hpack<D>, limits: Limits, dir: Direction<D>, chunks: seq<Chunk>): Fed<D>
    decreases |chunks|
  {
    if chunks == [] then Fed(dir, [], None)
    else
      var f := FeedOne(hpack, limits, dir, chunks[0]);
      if f.error.Some? then f
      else
        var g := FeedAll(hpack, limits, f.direction, chunks[1..]);
        g.(blocks := f.blocks + g.blocks)
  }

  /** No call overruns the buffer limit before the run stops. */
  predicate Fits<D>(hpack: Hpack<D>, limits: Limits, dir: Direction<D>, chunks: seq<Chunk>)
    decreases |chunks|
  {
    chunks != [] ==>
      && |dir.buffer| + |chunks[0].payload| <= limits.maxBuffered
      && var f := FeedOne(hpack, limits, dir, chunks[0]);
         f.error.None? ==> Fits(hpack, limits, f.direction, chunks[1..])
  }

  function Bytes(chunks: seq<Chunk>): seq<byte> {
    if chunks == [] then [] else chunks[0].payload + Bytes(chunks[1..])
  }

  /** The origin of every byte of `Bytes(chunks)`. */
  function Marks(chunks: seq<Chunk>): (m: seq<Origin>)
    ensures |m| == |Bytes(chunks)|
  {
    if chunks == [] then [] else Repeat(chunks[0].origin, |chunks[0].payload|) + Marks(chunks[1..])
  }

  /** Same blocks and verdict; the same direction unless the run failed. */
  ghost predicate Agree<D>(f: Fed<D>, g: Fed<D>) {
    f.blocks == g.blocks && f.error == g.error && (f.error.None? ==> f.direction == g.direction)
  }

  /** A run of feed calls computes the reference meaning of the whole stream it was given. */
  lemma {:induction false} FeedAllIsDrain<D>(hpack: Hpack<D>, limits: Limits, dir: Direction<D>, chunks: seq<Chunk>)
    requires ValidDirection(limits, dir)
    requires Fits(hpack, limits, dir, chunks)
    ensures Agree(FeedAll(hpack, limits, dir, chunks),
                  FromDrained(Drain(hpack, limits, dir.asm, dir.buffer + Bytes(chunks),
                                    Repeat(dir.first, |dir.buffer|) + Marks(chunks))))
    decreases |chunks|
  {
    hide Drain, Partial;
    var old0 := Repeat(dir.first, |dir.buffer|);
    if chunks == [] {
      assert dir.buffer + [] == dir.buffer && old0 + [] == old0;
      DrainPartial(hpack, limits, dir.asm, dir.buffer, old0);
    } else {
      var now := Repeat(chunks[0].origin, |chunks[0].payload|);
      var later, laterMarks := Bytes(chunks[1..]), Marks(chunks[1..]);
      assert dir.buffer + Bytes(chunks) == (dir.buffer + chunks[0].payload) + later;
      assert old0 + Marks(chunks) == (old0 + now) + laterMarks;
      DrainConcat(hpack, limits, dir.asm, dir.buffer + chunks[0].payload, old0 + now, later, laterMarks);
      var d0 := Drain(hpack, limits, dir.asm, dir.buffer + chunks[0].payload, old0 + now);
      if d0.error.None? {
        var next := FromDrained(d0).direction;
        FeedAllIsDrain(hpack, limits, next, chunks[1..]);
        DrainForgetsInnerMarks(hpack, limits, d0.asm, d0.rest, d0.marks, Repeat(next.first, |d0.rest|), later, laterMarks);
      }
    }
  }

  lemma DrainPartial<D>(hpack: Hpack<D>, limits: Limits, asm: Assembly<D>, b: seq<byte>, m: seq<Origin>)
    requires |m| == |b| && Partial(limits, b)
    ensures Drain(hpack, limits, asm, b, m) == Drained(asm, [], None, b, m)
  {
  }

  /** Whenever everything fits in the buffer together, it fits however it is cut. */
  lemma {:induction false} WithinLimitFits<D>(hpack: Hpack<D>, limits: Limits, dir: Direction<D>, chunks: seq<Chunk>)
    requires |dir.buffer| + |Bytes(chunks)| <= limits.maxBuffered
    ensures Fits(hpack, limits, dir, chunks)
    decreases |chunks|
  {
    if chunks != [] {
      var f := FeedOne(hpack, limits, dir, chunks[0]);
      if f.error.None? {
        WithinLimitFits(hpack, limits, f.direction, chunks[1..]);
      }
    }
  }

  // ---------- Fragmentation independence ----------

  /** What a consumer sees of a block besides its origin. */
  function Contents(blocks: seq<Block>): (c: seq<(nat, seq<HeaderField>)>)
    ensures |c| == |blocks|
  {
    seq(|blocks|, i requires 0 <= i < |blocks| => (blocks[i].stream, blocks[i].fields))
  }

  ghost predicate SameAssembly<D>(a: Assembly<D>, b: Assembly<D>) {
    a == b.(origin := a.origin)
  }

  ghost predicate SameContent<D>(f: Fed<D>, g: Fed<D>) {
    && Contents(f.blocks) == Contents(g.blocks)
    && f.error == g.error
    && (f.error.None? ==> f.direction.buffer == g.direction.buffer && SameAssembly(f.direction.asm, g.direction.asm))
  }

  lemma AbsorbIgnoresOrigins<D>(hpack: Hpack<D>, limits: Limits, a: Assembly<D>, a': Assembly<D>, frame: Frame, m: Origin, m': Origin)
    requires SameAssembly(a, a')
    ensures var r, r' := Absorb(hpack, limits, a, frame, m), Absorb(hpack, limits, a', frame, m');
            SameAssembly(r.asm, r'.asm) && Contents(r.blocks) == Contents(r'.blocks) && r.error == r'.error
  {
  }

  /** Origins are carried along but never steer the reassembly. */
  lemma {:induction false} OriginsDoNotSteer<D>(hpack: Hpack<D>, limits: Limits, a: Assembly<D>, a': Assembly<D>,
                                                bytes: seq<byte>, m: seq<Origin>, m': seq<Origin>)
    requires |m| == |m'| == |bytes|
    requires SameAssembly(a, a')
    ensures SameContent(FromDrained(Drain(hpack, limits, a, bytes, m)), FromDrained(Drain(hpack, limits, a', bytes, m')))
    decreases |bytes|
  {
    if !Partial(limits, bytes) && PayloadLength(bytes) <= limits.maxBuffered {
      var n := FrameSize(bytes);
      var r := Absorb(hpack, limits, a, FrontFrame(bytes), m[0]);
      var r' := Absorb(hpack, limits, a', FrontFrame(bytes), m'[0]);
      AbsorbIgnoresOrigins(hpack, limits, a, a', FrontFrame(bytes), m[0], m'[0]);
      DrainFrame(hpack, limits, a, bytes, m);
      DrainFrame(hpack, limits, a', bytes, m');
      hide Drain, Absorb, FrontFrame, PayloadLength, Contents;
      if r.error.None? {
        OriginsDoNotSteer(hpack, limits, r.asm, r'.asm, bytes[n..], m[n..], m'[n..]);
        var d, d' := Drain(hpack, limits, r.asm, bytes[n..], m[n..]), Drain(hpack, limits, r'.asm, bytes[n..], m'[n..]);
        ContentsConcat(r.blocks, d.blocks);
        ContentsConcat(r'.blocks, d'.blocks);
      }
    }
  }

  lemma ContentsConcat(a: seq<Block>, b: seq<Block>)
    ensures Contents(a + b) == Contents(a) + Contents(b)
  {
  }

  /** However the same bytes are cut into calls, the blocks, the verdict, the unread bytes,
      the open header block and the decoder come out the same. */
  lemma FragmentationIndependent<D>(hpack: Hpack<D>, limits: Limits, dir: Direction<D>, chunks: seq<Chunk>, chunks': seq<Chunk>)
    requires ValidDirection(limits, dir)
    requires Bytes(chunks) == Bytes(chunks')
    requires Fits(hpack, limits, dir, chunks) && Fits(hpack, limits, dir, chunks')
    ensures SameContent(FeedAll(hpack, limits, dir, chunks), FeedAll(hpack, limits, dir, chunks'))
  {
    FeedAllIsDrain(hpack, limits, dir, chunks);
    FeedAllIsDrain(hpack, limits, dir, chunks');
    var old0 := Repeat(dir.first, |dir.buffer|);
    OriginsDoNotSteer(hpack, limits, dir.asm, dir.asm, dir.buffer + Bytes(chunks), old0 + Marks(chunks), old0 + Marks(chunks'));
  }

  /** In particular, pieces that fit the buffer together act like one call with all of them. */
  lemma PiecesActLikeOne<D>(hpack: Hpack<D>, limits: Limits, dir: Direction<D>, chunks: seq<Chunk>, origin: Origin)
    requires ValidDirection(limits, dir)
    requires |dir.buffer| + |Bytes(chunks)| <= limits.maxBuffered
    ensures SameContent(FeedAll(hpack, limits, dir, chunks), FeedOne(hpack, limits, dir, Chunk(Bytes(chunks), origin)))
  {
    var one := [Chunk(Bytes(chunks), origin)];
    WithinLimitFits(hpack, limits, dir, chunks);
    assert one[1..] == [] && Bytes(one[1..]) == [];
    assert Bytes(one) == Bytes(chunks) + [];
    WithinLimitFits(hpack, limits, dir, one);
    FragmentationIndependent(hpack, limits, dir, chunks, one);
    FeedAllOfOne(hpack, limits, dir, one[0]);
  }

  lemma FeedAllOfOne<D>(hpack: Hpack<D>, limits: Limits, dir: Direction<D>, chunk: Chunk)
    ensures FeedAll(hpack, limits, dir, [chunk]) == FeedOne(hpack, limits, dir, chunk)
  {
    var f := FeedOne(hpack, limits, dir, chunk);
    assert [chunk][1..] == [] && f.blocks + [] == f.blocks;
  }

  /** One more call after calls that did not fail. */
  lemma {:induction false} FeedAllSnoc<D>(hpack: Hpack<D>, limits: Limits, dir: Direction<D>, chunks: seq<Chunk>, last: Chunk)
    requires FeedAll(hpack, limits, dir, chunks).error.None?
    ensures var f := FeedAll(hpack, limits, dir, chunks);
            var g := FeedOne(hpack, limits, f.direction, last);
            FeedAll(hpack, limits, dir, chunks + [last]) == g.(blocks := f.blocks + g.blocks)
    decreases |chunks|
  {
    hide FeedOne;
    if chunks == [] {
      assert [] + [last] == [last];
      FeedAllOfOne(hpack, limits, dir, last);
      var g := FeedOne(hpack, limits, dir, last);
      assert [] + g.blocks == g.blocks;
    } else {
      var f := FeedOne(hpack, limits, dir, chunks[0]);
      assert (chunks + [last])[0] == chunks[0] && (chunks + [last])[1..] == chunks[1..] + [last];
      FeedAllSnoc(hpack, limits, f.direction, chunks[1..], last);
      var rest := FeedAll(hpack, limits, f.direction, chunks[1..]);
      var g := FeedOne(hpack, limits, rest.direction, last);
      assert f.blocks + (rest.blocks + g.blocks) == (f.blocks + rest.blocks) + g.blocks;
    }
  }

  /** Calls that did not fail fitted. */
  lemma {:induction false} FitsWithoutError<D>(hpack: Hpack<D>, limits: Limits, dir: Direction<D>, chunks: seq<Chunk>)
    requires FeedAll(hpack, limits, dir, chunks).error.None?
    ensures Fits(hpack, limits, dir, chunks)
    decreases |chunks|
  {
    if chunks != [] {
      var f := FeedOne(hpack, limits, dir, chunks[0]);
      assert |dir.buffer| + |chunks[0].payload| <= limits.maxBuffered;
      hide FeedOne;
      FitsWithoutError(hpack, limits, f.direction, chunks[1..]);
    }
  }

  // ---------- First-byte provenance ----------

  /** The beginning of a header block: the stream of its HEADERS frame and the origin of that frame's first byte. */
  datatype Opening = Opening(stream: nat, origin: Origin)

  /** A HEADERS frame of a stream starts at this offset. */
  datatype Start = Start(offset: nat, stream: nat)

  function Shifted(n: nat, ps: seq<Start>): (r: seq<Start>)
    ensures |r| == |ps| && forall i :: 0 <= i < |r| ==> r[i] == Start(n + ps[i].offset, ps[i].stream)
  {
    seq(|ps|, i requires 0 <= i < |ps| => Start(n + ps[i].offset, ps[i].stream))
  }

  /** The HEADERS frames that a walk over b, frame by frame, comes to. */
  function HeaderStarts(limits: Limits, b: seq<byte>): seq<Start>
    decreases |b|
  {
    if Partial(limits, b) || PayloadLength(b) > limits.maxBuffered then []
    else FrameStart(FrontFrame(b)) + Shifted(FrameSize(b), HeaderStarts(limits, b[FrameSize(b)..]))
  }

  function FrameStart(frame: Frame): seq<Start> {
    if frame.kind == FRAME_HEADERS then [Start(0, frame.stream)] else []
  }

  /** A whole HEADERS frame of this stream starts at this offset. */
  predicate HeadersAt(b: seq<byte>, start: Start) {
    && start.offset < |b| && HoldsFrame(b[start.offset..])
    && FrontFrame(b[start.offset..]).kind == FRAME_HEADERS && FrontFrame(b[start.offset..]).stream == start.stream
  }

  lemma HeadersLater(b: seq<byte>, n: nat, start: Start)
    requires n <= |b| && HeadersAt(b[n..], start)
    ensures HeadersAt(b, Start(n + start.offset, start.stream))
  {
    hide FrontFrame;
    assert b[n..][start.offset..] == b[n + start.offset..];
  }

  lemma {:induction false} StartsAreHeaders(limits: Limits, b: seq<byte>, i: nat)
    requires i < |HeaderStarts(limits, b)|
    ensures HeadersAt(b, HeaderStarts(limits, b)[i])
    decreases |b|
  {
    var front, later := FrameStart(FrontFrame(b)), HeaderStarts(limits, b[FrameSize(b)..]);
    if i < |front| {
      assert b[0..] == b;
    } else {
      hide FrontFrame, PayloadLength, HeadersAt;
      StartsAreHeaders(limits, b[FrameSize(b)..], i - |front|);
      HeadersLater(b, FrameSize(b), later[i - |front|]);
    }
  }

  /** The opening of the frame at a start. */
  predicate OpensAt(o: Opening, start: Start, m: seq<Origin>) {
    start.offset < |m| && o == Opening(start.stream, m[start.offset])
  }

  /** The openings of the header blocks in a stretch, in order. */
  function Openings(limits: Limits, b: seq<byte>, m: seq<Origin>): seq<Opening>
    requires |m| == |b|
    decreases |b|
  {
    if Partial(limits, b) || PayloadLength(b) > limits.maxBuffered then []
    else FrameOpening(FrontFrame(b), m[0]) + Openings(limits, b[FrameSize(b)..], m[FrameSize(b)..])
  }

  ghost predicate OpenAtAll(os: seq<Opening>, starts: seq<Start>, m: seq<Origin>) {
    |os| == |starts| && forall i :: 0 <= i < |os| ==> OpensAt(os[i], starts[i], m)
  }

  lemma OpenAtAllLater(front: seq<Opening>, starts: seq<Start>, os: seq<Opening>, later: seq<Start>, n: nat, m: seq<Origin>)
    requires n <= |m| && OpenAtAll(front, starts, m) && OpenAtAll(os, later, m[n..])
    ensures OpenAtAll(front + os, starts + Shifted(n, later), m)
  {
    var all := starts + Shifted(n, later);
    forall i | 0 <= i < |front + os| ensures OpensAt((front + os)[i], all[i], m) {
      if i >= |front| {
        assert OpensAt(os[i - |front|], later[i - |front|], m[n..]);
        assert all[i] == Start(n + later[i - |front|].offset, later[i - |front|].stream);
      }
    }
  }

  /** They are the HEADERS frames at their offsets. */
  lemma {:induction false} OpeningsAreAtStarts(limits: Limits, b: seq<byte>, m: seq<Origin>)
    requires |m| == |b|
    ensures OpenAtAll(Openings(limits, b, m), HeaderStarts(limits, b), m)
    decreases |b|
  {
    if !Partial(limits, b) && PayloadLength(b) <= limits.maxBuffered {
      var n := FrameSize(b);
      OpeningsAreAtStarts(limits, b[n..], m[n..]);
      assert OpenAtAll(FrameOpening(FrontFrame(b), m[0]), FrameStart(FrontFrame(b)), m);
      hide FrontFrame, OpenAtAll, FrameOpening, FrameStart;
      OpenAtAllLater(FrameOpening(FrontFrame(b), m[0]), FrameStart(FrontFrame(b)), Openings(limits, b[n..], m[n..]),
                     HeaderStarts(limits, b[n..]), n, m);
    }
  }

  function FrameOpening(frame: Frame, mark: Origin): seq<Opening> {
    if frame.kind == FRAME_HEADERS then [Opening(frame.stream, mark)] else []
  }

  /** The opening of the block being joined, if there is one. */
  function Opened<D>(asm: Assembly<D>): seq<Opening> {
    if asm.stream != 0 then [Opening(asm.stream, asm.origin)] else []
  }

  function OpeningOf(block: Block): Opening {
    Opening(block.stream, block.origin)
  }

  function OpeningsOf(blocks: seq<Block>): (os: seq<Opening>)
    ensures |os| == |blocks| && forall i :: 0 <= i < |os| ==> os[i] == OpeningOf(blocks[i])
  {
    seq(|blocks|, i requires 0 <= i < |blocks| => OpeningOf(blocks[i]))
  }

  lemma OpeningsConcat(a: seq<Block>, b: seq<Block>)
    ensures OpeningsOf(a + b) == OpeningsOf(a) + OpeningsOf(b)
  {
  }

  /** A frame neither loses nor invents an opening. */
  lemma AbsorbOpenings<D>(hpack: Hpack<D>, limits: Limits, asm: Assembly<D>, frame: Frame, mark: Origin)
    ensures var a := Absorb(hpack, limits, asm, frame, mark);
            if a.error.Some? then a.blocks == []
            else OpeningsOf(a.blocks) + Opened(a.asm) == Opened(asm) + FrameOpening(frame, mark)
  {
    hide HeadersFragment;
  }

  /** `some` are the first of all openings; without an error they and the open one are all. */
  predicate Accounts(some: seq<Opening>, open: seq<Opening>, all: seq<Opening>, failed: bool) {
    some <= all && (!failed ==> some + open == all)
  }

  lemma AccountsLater(front: seq<Opening>, some: seq<Opening>, open: seq<Opening>, middle: seq<Opening>, back: seq<Opening>,
                      before: seq<Opening>, frame: seq<Opening>, failed: bool)
    requires front + middle == before + frame && Accounts(some, open, middle + back, failed)
    ensures Accounts(front + some, open, before + (frame + back), failed)
  {
    assert before + (frame + back) == (before + frame) + back == (front + middle) + back == front + (middle + back);
    assert front + some <= front + (middle + back);
    assert !failed ==> (front + some) + open == front + (some + open);
  }

  /** One block for one HEADERS frame, in order: the blocks of a stretch have the openings of the block
      that was open and of the HEADERS frames walked over, and all of them but the one left open. */
  lemma {:induction false} Provenance<D>(hpack: Hpack<D>, limits: Limits, asm: Assembly<D>, b: seq<byte>, m: seq<Origin>)
    requires |m| == |b|
    ensures var d := Drain(hpack, limits, asm, b, m);
            Accounts(OpeningsOf(d.blocks), Opened(d.asm), Opened(asm) + Openings(limits, b, m), d.error.Some?)
    decreases |b|
  {
    if Partial(limits, b) || PayloadLength(b) > limits.maxBuffered {
      NoOpenings(limits, b, m);
    } else {
      var frame, n := FrontFrame(b), FrameSize(b);
      var a := Absorb(hpack, limits, asm, frame, m[0]);
      AbsorbOpenings(hpack, limits, asm, frame, m[0]);
      DrainFrame(hpack, limits, asm, b, m);
      hide Drain, Absorb, FrontFrame, PayloadLength, OpeningsOf, Opened, FrameOpening;
      if a.error.None? {
        var d := Drain(hpack, limits, a.asm, b[n..], m[n..]);
        Provenance(hpack, limits, a.asm, b[n..], m[n..]);
        OpeningsConcat(a.blocks, d.blocks);
        AccountsLater(OpeningsOf(a.blocks), OpeningsOf(d.blocks), Opened(d.asm), Opened(a.asm), Openings(limits, b[n..], m[n..]),
                      Opened(asm), FrameOpening(frame, m[0]), d.error.Some?);
      } else {
        NoBlocks(a.blocks);
      }
    }
  }

  lemma NoOpenings(limits: Limits, b: seq<byte>, m: seq<Origin>)
    requires |m| == |b| && (Partial(limits, b) || PayloadLength(b) > limits.maxBuffered)
    ensures Openings(limits, b, m) == []
  {
  }

  lemma NoBlocks(blocks: seq<Block>)
    requires blocks == []
    ensures OpeningsOf(blocks) == []
  {
  }

  function NewDirectionOf<D>(decoder: D): Direction<D> {
    Direction([], NO_ORIGIN, Assembly(0, NO_ORIGIN, [], decoder))
  }

  /** Over a whole run from a fresh direction: the i-th emitted block is that of the i-th HEADERS frame of
      the stream and has the time and identity of the very call that delivered that frame's first byte;
      without an error every HEADERS frame but one still open has given its block. */
  lemma FirstByteProvenance<D>(hpack: Hpack<D>, limits: Limits, decoder: D, chunks: seq<Chunk>)
    requires Fits(hpack, limits, NewDirectionOf(decoder), chunks)
    ensures var f := FeedAll(hpack, limits, NewDirectionOf(decoder), chunks);
            var starts := HeaderStarts(limits, Bytes(chunks));
            && |f.blocks| <= |starts|
            && (forall i :: 0 <= i < |f.blocks| ==> OpensAt(OpeningOf(f.blocks[i]), starts[i], Marks(chunks)))
            && (f.error.None? ==> |starts| == |f.blocks| + (if f.direction.asm.stream != 0 then 1 else 0))
  {
    var dir := NewDirectionOf(decoder);
    FeedAllIsDrain(hpack, limits, dir, chunks);
    assert dir.buffer + Bytes(chunks) == Bytes(chunks);
    assert Repeat(dir.first, 0) + Marks(chunks) == Marks(chunks);
    Provenance(hpack, limits, dir.asm, Bytes(chunks), Marks(chunks));
    OpeningsAreAtStarts(limits, Bytes(chunks), Marks(chunks));
    var d := Drain(hpack, limits, dir.asm, Bytes(chunks), Marks(chunks));
    assert Opened(dir.asm) + Openings(limits, Bytes(chunks), Marks(chunks)) == Openings(limits, Bytes(chunks), Marks(chunks));
    hide Drain, FeedAll, Fits, HeaderStarts, Openings, OpensAt, OpeningOf;
    BlocksAtStarts(d.blocks, Openings(limits, Bytes(chunks), Marks(chunks)), HeaderStarts(limits, Bytes(chunks)), Marks(chunks));
  }

  lemma BlocksAtStarts(blocks: seq<Block>, os: seq<Opening>, starts: seq<Start>, m: seq<Origin>)
    requires OpeningsOf(blocks) <= os && OpenAtAll(os, starts, m)
    ensures |blocks| <= |starts| == |os|
    ensures forall i :: 0 <= i < |blocks| ==> OpensAt(OpeningOf(blocks[i]), starts[i], m)
  {
    hide OpensAt, OpeningOf;
    forall i | 0 <= i < |blocks| ensures OpensAt(OpeningOf(blocks[i]), starts[i], m) {
      assert OpeningsOf(blocks)[i] == OpeningOf(blocks[i]);
    }
  }

  // ---------- The stateful reassembler ----------

  /** A whole frame covers every byte of the partial frame it started as. */
  lemma FrameOutgrowsPartial(limits: Limits, b: seq<byte>, kept: nat)
    requires HoldsFrame(b) && kept <= |b| && Partial(limits, b[..kept])
    ensures kept <= FrameSize(b)
  {
    if kept >= HEADER_BYTES {
      assert PayloadLength(b[..kept]) == PayloadLength(b);
    }
  }

  class DirectionState<D> {
    const hpack: Hpack<D>
    const limits: Limits
    var buffer: seq<byte>
    var bufferStartedNS: nat
    var bufferIdentity: Identity
    var lastSeenNS: nat
    var poisoned: bool
    var continuationStream: nat
    var continuationStarted: nat
    var continuationIdentity: Identity
    var continuationBlock: seq<byte>
    var decoder: D

    constructor (hpack: Hpack<D>, limits: Limits, decoder: D)
      ensures this.hpack == hpack && this.limits == limits && Valid() && !poisoned && lastSeenNS == 0
      ensures View() == NewDirectionOf(decoder)
    {
      this.hpack, this.limits, this.decoder := hpack, limits, decoder;
      buffer, bufferStartedNS, bufferIdentity := [], 0, NO_IDENTITY;
      lastSeenNS, poisoned := 0, false;
      continuationStream, continuationStarted, continuationIdentity, continuationBlock := 0, 0, NO_IDENTITY, [];
    }

    ghost function OpenBlock(): Assembly<D>
      reads this
    {
      Assembly(continuationStream, Origin(continuationStarted, continuationIdentity), continuationBlock, decoder)
    }

    ghost function View(): Direction<D>
      reads this
    {
      Direction(buffer, Origin(bufferStartedNS, bufferIdentity), OpenBlock())
    }

    ghost predicate Valid()
      reads this
    {
      ValidDirection(limits, View())
    }

    /** Consume one observation; the new state and the blocks are those of `FeedOne`. */
    method Feed(payload: seq<byte>, timestampNS: nat, identity: Identity) returns (blocks: seq<Block>, error: Option<Error>)
      requires Valid()
      modifies this
      ensures Fed(View(), blocks, error) == FeedOne(hpack, limits, old(View()), Chunk(payload, Origin(timestampNS, identity)))
      ensures error.None? ==> Valid()
      ensures lastSeenNS == timestampNS && poisoned == old(poisoned)
    {
      if |buffer| + |payload| > limits.maxBuffered {
        ResetFrameState();
        blocks, error := [], Some(InvalidHttp2);
      } else {
        ghost var kept := |buffer|;
        Append(payload, timestampNS, identity);
        blocks, error := DrainBuffer(timestampNS, identity, Tagged(old(View()), Chunk(payload, Origin(timestampNS, identity))), kept);
      }
      lastSeenNS := timestampNS;
    }

    /** Buffer a payload; bytes arriving in an empty buffer bring their origin along. */
    method Append(payload: seq<byte>, timestampNS: nat, identity: Identity)
      requires Valid()
      modifies this`buffer, this`bufferStartedNS, this`bufferIdentity
      ensures buffer == old(buffer) + payload && buffer[..old(|buffer|)] == old(buffer)
      ensures Origin(bufferStartedNS, bufferIdentity) ==
              if buffer == [] then NO_ORIGIN else Tagged(old(View()), Chunk(payload, Origin(timestampNS, identity)))[0]
    {
      if buffer == [] && payload != [] {
        bufferStartedNS, bufferIdentity := timestampNS, identity;
      }
      buffer := buffer + payload;
    }

    /** The loop of feed. `marks` are the origins of the buffered bytes; the first `kept` of them
        were left over from earlier calls. */
    method DrainBuffer(timestampNS: nat, identity: Identity, ghost marks: seq<Origin>, ghost kept: nat)
      returns (blocks: seq<Block>, error: Option<Error>)
      requires |marks| == |buffer| && kept <= |buffer| && Partial(limits, buffer[..kept])
      requires forall j :: kept <= j < |marks| ==> marks[j] == Origin(timestampNS, identity)
      requires Origin(bufferStartedNS, bufferIdentity) == if buffer == [] then NO_ORIGIN else marks[0]
      modifies this
      ensures poisoned == old(poisoned) && lastSeenNS == old(lastSeenNS)
      ensures Fed(View(), blocks, error) == FromDrained(Drain(hpack, limits, old(OpenBlock()), old(buffer), marks))
    {
      hide Absorb, FrontFrame, HeadersFragment, HasFlag;
      blocks, error := [], None;
      ghost var goal := Drain(hpack, limits, OpenBlock(), buffer, marks);
      ghost var rest, left := marks, kept;
      while true
        invariant poisoned == old(poisoned) && lastSeenNS == old(lastSeenNS)
        invariant |rest| == |buffer|
        invariant goal == After(blocks, Drain(hpack, limits, OpenBlock(), buffer, rest))
        invariant 0 <= left <= |buffer| && Partial(limits, buffer[..left])
        invariant forall j :: left <= j < |rest| ==> rest[j] == Origin(timestampNS, identity)
        invariant Origin(bufferStartedNS, bufferIdentity) == if buffer == [] then NO_ORIGIN else rest[0]
        decreases |buffer|
      {
        if |buffer| < HEADER_BYTES {
          return blocks, None;
        }
        var length := PayloadLength(buffer);
        if length > limits.maxBuffered {
          ResetFrameState();
          return blocks, Some(InvalidHttp2);
        }
        if |buffer| < HEADER_BYTES + length {
          return blocks, None;
        }
        FrameOutgrowsPartial(limits, buffer, left);
        ghost var size := FrameSize(buffer);
        blocks, error := TakeFrame(timestampNS, identity, blocks, rest);
        rest, left := rest[size..], 0;
        if error.Some? {
          return;
        }
      }
    }

    /** Cut the front frame off the buffer and join it; the bytes behind it are from this call. */
    method TakeFrame(timestampNS: nat, identity: Identity, before: seq<Block>, ghost marks: seq<Origin>)
      returns (blocks: seq<Block>, error: Option<Error>)
      requires HoldsFrame(buffer) && PayloadLength(buffer) <= limits.maxBuffered
      requires |marks| == |buffer| && marks[0] == Origin(bufferStartedNS, bufferIdentity)
      requires forall j :: FrameSize(buffer) <= j < |marks| ==> marks[j] == Origin(timestampNS, identity)
      modifies this
      ensures poisoned == old(poisoned) && lastSeenNS == old(lastSeenNS)
      ensures buffer == old(buffer[FrameSize(buffer)..])
      ensures Origin(bufferStartedNS, bufferIdentity) == if buffer == [] then NO_ORIGIN else Origin(timestampNS, identity)
      ensures var rest := marks[old(FrameSize(buffer))..];
              After(before, Drain(hpack, limits, old(OpenBlock()), old(buffer), marks)) ==
              if error.Some? then Drained(OpenBlock(), blocks, error, buffer, rest)
              else After(blocks, Drain(hpack, limits, OpenBlock(), buffer, rest))
    {
      var frame := FrontFrame(buffer);
      var frameStarted, frameIdentity := bufferStartedNS, bufferIdentity;
      buffer := buffer[FrameSize(buffer)..];
      if buffer != [] {
        bufferStartedNS, bufferIdentity := timestampNS, identity;
      } else {
        bufferStartedNS, bufferIdentity := 0, NO_IDENTITY;
      }
      blocks, error := Join(frame, frameStarted, frameIdentity, before);
      ghost var step := Absorb(hpack, limits, old(OpenBlock()), frame, marks[0]);
      AfterConcat(before, step.blocks, Drain(hpack, limits, OpenBlock(), buffer, marks[old(FrameSize(buffer))..]));
    }

    /** The frame switch of feed: join HEADERS and CONTINUATION, decode finished blocks. */
    method Join(frame: Frame, frameStarted: nat, frameIdentity: Identity, before: seq<Block>)
      returns (blocks: seq<Block>, error: Option<Error>)
      modifies this`continuationStream, this`continuationStarted, this`continuationIdentity, this`continuationBlock, this`decoder
      ensures var a := Absorb(hpack, limits, old(OpenBlock()), frame, Origin(frameStarted, frameIdentity));
              OpenBlock() == a.asm && blocks == before + a.blocks && error == a.error
    {
      blocks, error := before, None;
      if frame.kind == FRAME_HEADERS {
        if frame.stream == 0 || continuationStream != 0 {
          ResetHeaderBlock();
          return blocks, Some(InvalidHttp2);
        }
        var fragment := HeadersFragment(frame.payload, frame.flags);
        if fragment.None? {
          return blocks, Some(InvalidHttp2);
        }
        if |fragment.value| > limits.maxHeaderBlock {
          return blocks, Some(HeaderBlockTooLarge);
        }
        if HasFlag(frame.flags, FLAG_END_HEADERS) {
          var decoded := hpack(decoder, fragment.value);
          decoder := decoded.next;
          if decoded.Undecodable? {
            return blocks, Some(InvalidHttp2);
          }
          blocks := blocks + [Block(frame.stream, Origin(frameStarted, frameIdentity), decoded.fields)];
        } else {
          continuationStream, continuationStarted, continuationIdentity := frame.stream, frameStarted, frameIdentity;
          continuationBlock := fragment.value;
        }
      } else if frame.kind == FRAME_CONTINUATION {
        if frame.stream == 0 || frame.stream != continuationStream {
          ResetHeaderBlock();
          return blocks, Some(InvalidHttp2);
        }
        if |continuationBlock| + |frame.payload| > limits.maxHeaderBlock {
          ResetHeaderBlock();
          return blocks, Some(HeaderBlockTooLarge);
        }
        continuationBlock := continuationBlock + frame.payload;
        if HasFlag(frame.flags, FLAG_END_HEADERS) {
          var decoded := hpack(decoder, continuationBlock);
          decoder := decoded.next;
          if decoded.Undecodable? {
            ResetHeaderBlock();
            return blocks, Some(InvalidHttp2);
          }
          blocks := blocks + [Block(frame.stream, Origin(continuationStarted, continuationIdentity), decoded.fields)];
          ResetHeaderBlock();
        }
      }
    }

    method ResetHeaderBlock()
      modifies this`continuationStream, this`continuationStarted, this`continuationIdentity, this`continuationBlock
      ensures OpenBlock() == Cleared(old(OpenBlock()))
    {
      continuationStream, continuationStarted, continuationIdentity, continuationBlock := 0, 0, NO_IDENTITY, [];
    }

    method ResetFrameState()
      modifies this`buffer, this`bufferStartedNS, this`bufferIdentity,
               this`continuationStream, this`continuationStarted, this`continuationIdentity, this`continuationBlock
      ensures View() == Direction([], NO_ORIGIN, Cleared(old(OpenBlock())))
    {
      buffer, bufferStartedNS, bufferIdentity := [], 0, NO_IDENTITY;
      ResetHeaderBlock();
    }

    /** After a detected loss the direction is never fed again. */
    method Poison()
      modifies this
      ensures poisoned && lastSeenNS == old(lastSeenNS)
      ensures View() == Direction([], NO_ORIGIN, Cleared(old(OpenBlock()))) && Valid()
    {
      poisoned := true;
      ResetFrameState();
    }
  }
}
