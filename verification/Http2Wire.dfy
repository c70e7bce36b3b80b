/** HTTP/2 header blocks as a sender writes them (sections 4.1, 6.2 and 6.10 of RFC 9113), and that the
    reassembly reads back exactly what was written. */
module Http2Wires {
  import opened Base
  import opened Http2

  // ---------- The sender's side ----------

  /** The flags of a frame, bit by bit, the lowest last. */
  datatype Flags = Flags(bit7: bool, bit6: bool, priority: bool, bit4: bool, padded: bool, endHeaders: bool, bit1: bool, endStream: bool)

  function Bit(b: bool): (n: nat)
    ensures n <= 1
  {
    if b then 1 else 0
  }

  function FlagByte(f: Flags): byte {
    (128 * Bit(f.bit7) + 64 * Bit(f.bit6) + 32 * Bit(f.priority) + 16 * Bit(f.bit4)
     + 8 * Bit(f.padded) + 4 * Bit(f.endHeaders) + 2 * Bit(f.bit1) + Bit(f.endStream)) as byte
  }

  const LARGEST := 0xFF_FFFF
  const STREAMS := 0x8000_0000

  /** The digit of n worth base, in base 256. */
  function Digit(n: nat, base: nat): byte
    requires base > 0
  {
    (n / base % 256) as byte
  }

  /** The nine octets of a frame header and the payload; the reserved bit is the sender's choice. */
  function FrameBytes(f: Frame, reserved: bool): seq<byte>
    requires |f.payload| <= LARGEST && f.stream < STREAMS
  {
    var s := f.stream + STREAMS * Bit(reserved);
    [Digit(|f.payload|, 0x1_0000), Digit(|f.payload|, 0x100), Digit(|f.payload|, 1), f.kind, f.flags,
     Digit(s, 0x100_0000), Digit(s, 0x1_0000), Digit(s, 0x100), Digit(s, 1)] + f.payload
  }

  /** A HEADERS payload: pad length, priority fields, the header block fragment, padding. */
  function HeadersPayload(flags: Flags, priority: seq<byte>, fragment: seq<byte>, pad: seq<byte>): seq<byte>
    requires |pad| < 256
  {
    (if flags.padded then [|pad| as byte] else [])
    + (if flags.priority then priority else []) + fragment + (if flags.padded then pad else [])
  }

  ghost predicate IsHeadersPayload(payload: seq<byte>, flags: Flags, fragment: seq<byte>) {
    exists priority: seq<byte>, pad: seq<byte> ::
      |priority| == 5 && |pad| < 256 && payload == HeadersPayload(flags, priority, fragment, pad)
  }

  // ---------- Reading one frame ----------

  lemma BitIsRead(n: nat, above: nat, bit: nat, below: nat, mask: nat)
    requires mask == 4 || mask == 8 || mask == 32
    requires bit <= 1 && below < mask && n == above * (2 * mask) + bit * mask + below
    ensures (n / mask) % 2 == bit
  {
    if mask == 4 {
      assert n / 4 == 2 * above + bit;
    } else if mask == 8 {
      assert n / 8 == 2 * above + bit;
    } else {
      assert n / 32 == 2 * above + bit;
    }
  }

  lemma FlagsAreRead(f: Flags)
    ensures HasFlag(FlagByte(f), FLAG_PRIORITY) == f.priority
    ensures HasFlag(FlagByte(f), FLAG_PADDED) == f.padded
    ensures HasFlag(FlagByte(f), FLAG_END_HEADERS) == f.endHeaders
  {
    var n, low := FlagByte(f) as nat, 2 * Bit(f.bit1) + Bit(f.endStream);
    var top := 2 * Bit(f.bit7) + Bit(f.bit6);
    var middle := 4 * top + 2 * Bit(f.priority) + Bit(f.bit4);
    assert Bit(f.priority) == 1 <==> f.priority;
    assert Bit(f.padded) == 1 <==> f.padded;
    assert Bit(f.endHeaders) == 1 <==> f.endHeaders;
    hide Bit;
    BitIsRead(n, top, Bit(f.priority), 16 * Bit(f.bit4) + 8 * Bit(f.padded) + 4 * Bit(f.endHeaders) + low, 32);
    BitIsRead(n, middle, Bit(f.padded), 4 * Bit(f.endHeaders) + low, 8);
    BitIsRead(n, 2 * middle + Bit(f.padded), Bit(f.endHeaders), low, 4);
  }

  lemma NumberIsRead(n: nat)
    ensures n < 0x100_0000 ==> n == Digit(n, 0x1_0000) as nat * 0x1_0000 + Digit(n, 0x100) as nat * 0x100 + Digit(n, 1) as nat
    ensures n < 0x1_0000_0000 ==>
              n == Digit(n, 0x100_0000) as nat * 0x100_0000 + Digit(n, 0x1_0000) as nat * 0x1_0000
                   + Digit(n, 0x100) as nat * 0x100 + Digit(n, 1) as nat
  {
    var a := n / 0x100;
    var b := a / 0x100;
    var c := b / 0x100;
    assert n / 0x1_0000 == b && n / 0x100_0000 == c;
    assert n == a * 0x100 + Digit(n, 1) as nat && a == b * 0x100 + Digit(n, 0x100) as nat && b == c * 0x100 + Digit(n, 0x1_0000) as nat;
    assert n < 0x1_0000_0000 ==> c == Digit(n, 0x100_0000) as nat;
    hide Digit;
  }

  /** A frame is read back from its octets, whatever follows and whatever the reserved bit. */
  lemma FrameIsRead(f: Frame, reserved: bool, rest: seq<byte>)
    requires |f.payload| <= LARGEST && f.stream < STREAMS
    ensures var b := FrameBytes(f, reserved) + rest;
            && HoldsFrame(b) && FrontFrame(b) == f && PayloadLength(b) == |f.payload|
            && FrameSize(b) == |FrameBytes(f, reserved)| && b[FrameSize(b)..] == rest
  {
    var b := FrameBytes(f, reserved) + rest;
    var s := f.stream + STREAMS * Bit(reserved);
    NumberIsRead(|f.payload|);
    NumberIsRead(s);
    hide Digit;
    assert PayloadLength(b) == |f.payload|;
    assert StreamId(b) == s % STREAMS == f.stream;
    assert b[9..9 + |f.payload|] == f.payload;
    assert b[9 + |f.payload|..] == rest;
  }

  /** The fragment of a HEADERS payload is what a sender wrapped, and nothing else is accepted. */
  lemma FragmentExactly(payload: seq<byte>, flags: Flags, fragment: seq<byte>)
    ensures HeadersFragment(payload, FlagByte(flags)) == Some(fragment) <==> IsHeadersPayload(payload, flags, fragment)
  {
    FlagsAreRead(flags);
    hide FlagByte, HasFlag;
    if IsHeadersPayload(payload, flags, fragment) {
      var priority: seq<byte>, pad: seq<byte> :|
        |priority| == 5 && |pad| < 256 && payload == HeadersPayload(flags, priority, fragment, pad);
      FragmentOfPayload(flags, priority, fragment, pad);
    }
    if HeadersFragment(payload, FlagByte(flags)) == Some(fragment) {
      PayloadOfFragment(payload, flags, fragment);
    }
  }

  lemma FragmentOfPayload(flags: Flags, priority: seq<byte>, fragment: seq<byte>, pad: seq<byte>)
    requires |priority| == 5 && |pad| < 256
    ensures HeadersFragment(HeadersPayload(flags, priority, fragment, pad), FlagByte(flags)) == Some(fragment)
  {
    FlagsAreRead(flags);
    hide FlagByte, HasFlag;
    var payload := HeadersPayload(flags, priority, fragment, pad);
    var inner := (if flags.priority then priority else []) + fragment;
    assert flags.priority ==> inner[5..] == fragment;
    assert !flags.priority ==> inner == fragment;
    if flags.padded {
      assert payload == [|pad| as byte] + inner + pad;
      assert payload[0] as nat == |pad| && payload[1..|payload| - |pad|] == inner;
    } else {
      assert payload == inner;
    }
  }

  lemma PayloadOfFragment(payload: seq<byte>, flags: Flags, fragment: seq<byte>)
    requires HeadersFragment(payload, FlagByte(flags)) == Some(fragment)
    ensures IsHeadersPayload(payload, flags, fragment)
  {
    FlagsAreRead(flags);
    hide FlagByte, HasFlag;
    var n := if flags.padded then payload[0] as nat else 0;
    var pad := payload[|payload| - n..];
    var inner := if flags.padded then payload[1..|payload| - n] else payload;
    var priority := if flags.priority then inner[..5] else [0, 0, 0, 0, 0];
    assert inner == (if flags.priority then priority else []) + fragment;
    SameParts(flags, priority, fragment, pad, inner);
    if flags.padded {
      CutPadding(payload);
    } else {
      assert [] + inner + [] == payload;
    }
    hide HeadersFragment;
    assert payload == HeadersPayload(flags, priority, fragment, pad);
  }

  lemma CutPadding(payload: seq<byte>)
    requires payload != [] && payload[0] as nat <= |payload| - 1
    ensures var cut := |payload| - payload[0] as nat;
            payload == [|payload[cut..]| as byte] + payload[1..cut] + payload[cut..]
  {
  }

  lemma SameParts(flags: Flags, priority: seq<byte>, fragment: seq<byte>, pad: seq<byte>, inner: seq<byte>)
    requires |pad| < 256 && inner == (if flags.priority then priority else []) + fragment
    ensures (if flags.padded then [|pad| as byte] else []) + inner + (if flags.padded then pad else [])
            == HeadersPayload(flags, priority, fragment, pad)
  {
    var front: seq<byte>, p: seq<byte> := if flags.padded then [|pad| as byte] else [], if flags.priority then priority else [];
    assert front + (p + fragment) == front + p + fragment;
  }

  /** With no block open, an error is reported exactly for a CONTINUATION frame, and for a HEADERS frame
      without a stream, or that wraps no fragment, or one too long, or one that is complete and not decodable. */
  lemma IdleErrorsExactly<D>(hpack: Hpack<D>, limits: Limits, decoder: D, kind: byte, flags: Flags, stream: nat,
                              payload: seq<byte>, mark: Origin)
    ensures Absorb(hpack, limits, Idle(decoder), Frame(kind, FlagByte(flags), stream, payload), mark).error.None? <==>
            && kind != 9
            && (kind == 1 ==>
                  && stream != 0
                  && exists fragment :: && IsHeadersPayload(payload, flags, fragment) && |fragment| <= limits.maxHeaderBlock
                                        && (flags.endHeaders ==> hpack(decoder, fragment).Decoded?))
  {
    FlagsAreRead(flags);
    hide FlagByte, HasFlag, IsHeadersPayload, HeadersFragment;
    var got := HeadersFragment(payload, FlagByte(flags));
    if got.Some? {
      FragmentExactly(payload, flags, got.value);
    }
    forall fragment | IsHeadersPayload(payload, flags, fragment) ensures got == Some(fragment) {
      FragmentExactly(payload, flags, fragment);
    }
  }

  // ---------- Whole streams ----------

  /** A CONTINUATION frame of a header block. */
  datatype Piece = Piece(flags: Flags, reserved: bool, fragment: seq<byte>)

  /** What a sender writes: a header block, cut as it likes, or a frame of another kind. */
  datatype Sent =
    | HeaderBlock(stream: nat, reserved: bool, flags: Flags, priority: seq<byte>, fragment: seq<byte>, pad: seq<byte>, more: seq<Piece>)
    | OtherFrame(frame: Frame, reserved: bool)

  predicate FitsFrame(limits: Limits, payload: seq<byte>) {
    |payload| <= LARGEST && |payload| <= limits.maxBuffered
  }

  /** Exactly the last piece ends the block. */
  predicate ValidPieces(limits: Limits, more: seq<Piece>) {
    forall i :: 0 <= i < |more| ==> FitsFrame(limits, more[i].fragment) && (more[i].flags.endHeaders <==> i == |more| - 1)
  }

  function Joined(more: seq<Piece>): seq<byte> {
    if more == [] then [] else more[0].fragment + Joined(more[1..])
  }

  predicate ValidSent(limits: Limits, s: Sent) {
    match s
    case HeaderBlock(stream, _, flags, priority, fragment, pad, more) =>
      && 0 < stream < STREAMS && |priority| == 5 && |pad| < 256
      && FitsFrame(limits, HeadersPayload(flags, priority, fragment, pad))
      && (flags.endHeaders <==> more == []) && ValidPieces(limits, more)
      && |fragment + Joined(more)| <= limits.maxHeaderBlock
    case OtherFrame(frame, _) =>
      frame.kind != 1 && frame.kind != 9 && frame.stream < STREAMS && FitsFrame(limits, frame.payload)
  }

  predicate AllValid(limits: Limits, ss: seq<Sent>) {
    forall i :: 0 <= i < |ss| ==> ValidSent(limits, ss[i])
  }

  function PiecesWire(limits: Limits, stream: nat, more: seq<Piece>): seq<byte>
    requires stream < STREAMS && ValidPieces(limits, more)
  {
    if more == [] then []
    else FrameBytes(Frame(9, FlagByte(more[0].flags), stream, more[0].fragment), more[0].reserved)
         + PiecesWire(limits, stream, more[1..])
  }

  function SentWire(limits: Limits, s: Sent): seq<byte>
    requires ValidSent(limits, s)
  {
    match s
    case HeaderBlock(stream, reserved, flags, priority, fragment, pad, more) =>
      FrameBytes(Frame(1, FlagByte(flags), stream, HeadersPayload(flags, priority, fragment, pad)), reserved)
      + PiecesWire(limits, stream, more)
    case OtherFrame(frame, reserved) => FrameBytes(frame, reserved)
  }

  function Wire(limits: Limits, ss: seq<Sent>): seq<byte>
    requires AllValid(limits, ss)
  {
    if ss == [] then [] else SentWire(limits, ss[0]) + Wire(limits, ss[1..])
  }

  /** What a receiver with this header decoder should make of it: the field lists, with their streams,
      and the decoder afterwards; nothing if a block is not decodable. */
  datatype Read<D> = Read(decoder: D, blocks: seq<(nat, seq<HeaderField>)>) | Unreadable

  function Reading<D>(hpack: Hpack<D>, decoder: D, ss: seq<Sent>): Read<D> {
    if ss == [] then Read(decoder, [])
    else if ss[0].OtherFrame? then Reading(hpack, decoder, ss[1..])
    else
      match hpack(decoder, ss[0].fragment + Joined(ss[0].more))
      case Undecodable(_) => Unreadable
      case Decoded(next, fields) =>
        match Reading(hpack, next, ss[1..])
        case Unreadable => Unreadable
        case Read(last, blocks) => Read(last, [(ss[0].stream, fields)] + blocks)
  }

  function Idle<D>(decoder: D): Assembly<D> {
    Assembly(0, NO_ORIGIN, [], decoder)
  }

  /** One frame in front is digested as the frame it is. */
  lemma FrontIsAbsorbed<D>(hpack: Hpack<D>, limits: Limits, asm: Assembly<D>, f: Frame, reserved: bool, rest: seq<byte>, marks: seq<Origin>)
    requires FitsFrame(limits, f.payload) && f.stream < STREAMS && |marks| == |FrameBytes(f, reserved) + rest|
    ensures var n, a := |FrameBytes(f, reserved)|, Absorb(hpack, limits, asm, f, marks[0]);
            && |marks[n..]| == |rest|
            && (a.error.None? ==> Drain(hpack, limits, asm, FrameBytes(f, reserved) + rest, marks)
                                  == After(a.blocks, Drain(hpack, limits, a.asm, rest, marks[n..])))
  {
    FrameIsRead(f, reserved, rest);
    DrainFrame(hpack, limits, asm, FrameBytes(f, reserved) + rest, marks);
    hide Drain, Absorb, FrameBytes, FrontFrame;
  }

  /** The wire in front completes the block of asm with this content. */
  ghost predicate Completes<D>(hpack: Hpack<D>, limits: Limits, asm: Assembly<D>, content: seq<byte>,
                               wire: seq<byte>, rest: seq<byte>, marks: seq<Origin>)
    requires |marks| == |wire + rest| && hpack(asm.decoder, content).Decoded?
  {
    var h := hpack(asm.decoder, content);
    Drain(hpack, limits, asm, wire + rest, marks)
    == After([Block(asm.stream, asm.origin, h.fields)], Drain(hpack, limits, Idle(h.next), rest, marks[|wire|..]))
  }

  /** The continuation of an open block completes it. */
  lemma {:induction false} PiecesAreRead<D>(hpack: Hpack<D>, limits: Limits, asm: Assembly<D>, more: seq<Piece>,
                                            rest: seq<byte>, marks: seq<Origin>)
    requires 0 < asm.stream < STREAMS && ValidPieces(limits, more) && more != []
    requires |asm.block + Joined(more)| <= limits.maxHeaderBlock
    requires hpack(asm.decoder, asm.block + Joined(more)).Decoded?
    requires |marks| == |PiecesWire(limits, asm.stream, more) + rest|
    ensures Completes(hpack, limits, asm, asm.block + Joined(more), PiecesWire(limits, asm.stream, more), rest, marks)
    decreases |more|
  {
    var p, later := more[0], more[1..];
    var front, wire := FrameBytes(Frame(9, FlagByte(p.flags), asm.stream, p.fragment), p.reserved), PiecesWire(limits, asm.stream, later);
    assert PiecesWire(limits, asm.stream, more) + rest == front + (wire + rest);
    assert asm.block + Joined(more) == (asm.block + p.fragment) + Joined(later);
    PieceIsRead(hpack, limits, asm, p, wire + rest, marks, Joined(later));
    hide FlagByte, FrameBytes, Drain, PiecesWire, Completes;
    if later == [] {
      assert (asm.block + p.fragment) + Joined(later) == asm.block + p.fragment;
      assert wire + rest == rest by {
        LastPiece(limits, asm.stream, later);
      }
      LastCompletes(hpack, limits, asm, asm.block + p.fragment, front, PiecesWire(limits, asm.stream, more), rest, marks);
    } else {
      var next := asm.(block := asm.block + p.fragment);
      PiecesAreRead(hpack, limits, next, later, rest, marks[|front|..]);
      StepCompletes(hpack, limits, asm, next, next.block + Joined(later), front, wire, rest, marks);
      assert front + wire == PiecesWire(limits, asm.stream, more) by {
        FirstPiece(limits, asm.stream, more);
      }
    }
  }

  lemma LastPiece(limits: Limits, stream: nat, more: seq<Piece>)
    requires stream < STREAMS && ValidPieces(limits, more) && more == []
    ensures PiecesWire(limits, stream, more) == []
  {
  }

  lemma FirstPiece(limits: Limits, stream: nat, more: seq<Piece>)
    requires stream < STREAMS && ValidPieces(limits, more) && more != []
    ensures PiecesWire(limits, stream, more)
            == FrameBytes(Frame(9, FlagByte(more[0].flags), stream, more[0].fragment), more[0].reserved)
               + PiecesWire(limits, stream, more[1..])
  {
    hide FrameBytes, FlagByte;
  }

  lemma LastCompletes<D>(hpack: Hpack<D>, limits: Limits, asm: Assembly<D>, content: seq<byte>, front: seq<byte>, wire: seq<byte>,
                         rest: seq<byte>, marks: seq<Origin>)
    requires |marks| == |front + rest| && hpack(asm.decoder, content).Decoded? && wire == front
    requires Drain(hpack, limits, asm, front + rest, marks)
             == After([Block(asm.stream, asm.origin, hpack(asm.decoder, content).fields)],
                      Drain(hpack, limits, Idle(hpack(asm.decoder, content).next), rest, marks[|front|..]))
    ensures Completes(hpack, limits, asm, content, wire, rest, marks)
  {
    hide Drain;
  }

  lemma StepCompletes<D>(hpack: Hpack<D>, limits: Limits, asm: Assembly<D>, next: Assembly<D>, content: seq<byte>,
                         front: seq<byte>, wire: seq<byte>, rest: seq<byte>, marks: seq<Origin>)
    requires |marks| == |front + (wire + rest)| && (next.stream, next.origin, next.decoder) == (asm.stream, asm.origin, asm.decoder)
    requires hpack(asm.decoder, content).Decoded?
    requires Drain(hpack, limits, asm, front + (wire + rest), marks) == Drain(hpack, limits, next, wire + rest, marks[|front|..])
    requires Completes(hpack, limits, next, content, wire, rest, marks[|front|..])
    ensures Completes(hpack, limits, asm, content, front + wire, rest, marks)
  {
    hide Drain;
    assert front + (wire + rest) == (front + wire) + rest;
    assert marks[|front|..][|wire|..] == marks[|front + wire|..];
  }

  /** One CONTINUATION frame in front: it is joined, or it completes the block. */
  lemma PieceIsRead<D>(hpack: Hpack<D>, limits: Limits, asm: Assembly<D>, p: Piece, behind: seq<byte>, marks: seq<Origin>, later: seq<byte>)
    requires 0 < asm.stream < STREAMS && FitsFrame(limits, p.fragment) && |asm.block + p.fragment + later| <= limits.maxHeaderBlock
    requires |marks| == |FrameBytes(Frame(9, FlagByte(p.flags), asm.stream, p.fragment), p.reserved) + behind|
    ensures var front, joined := FrameBytes(Frame(9, FlagByte(p.flags), asm.stream, p.fragment), p.reserved), asm.block + p.fragment;
            && |marks[|front|..]| == |behind|
            && (if !p.flags.endHeaders then
                  Drain(hpack, limits, asm, front + behind, marks)
                  == Drain(hpack, limits, asm.(block := joined), behind, marks[|front|..])
                else hpack(asm.decoder, joined).Decoded? ==>
                  var h := hpack(asm.decoder, joined);
                  Drain(hpack, limits, asm, front + behind, marks)
                  == After([Block(asm.stream, asm.origin, h.fields)], Drain(hpack, limits, Idle(h.next), behind, marks[|front|..])))
  {
    FrontIsAbsorbed(hpack, limits, asm, Frame(9, FlagByte(p.flags), asm.stream, p.fragment), p.reserved, behind, marks);
    ContinuationIsAbsorbed(hpack, limits, asm, p, marks[0], later);
    hide FlagByte, FrameBytes, Drain, Absorb;
    if !p.flags.endHeaders {
      AfterNothing(Drain(hpack, limits, asm.(block := asm.block + p.fragment), behind,
                         marks[|FrameBytes(Frame(9, FlagByte(p.flags), asm.stream, p.fragment), p.reserved)|..]));
    }
  }

  lemma ContinuationIsAbsorbed<D>(hpack: Hpack<D>, limits: Limits, asm: Assembly<D>, p: Piece, mark: Origin, later: seq<byte>)
    requires asm.stream != 0 && |asm.block + p.fragment + later| <= limits.maxHeaderBlock
    ensures var a, joined := Absorb(hpack, limits, asm, Frame(9, FlagByte(p.flags), asm.stream, p.fragment), mark), asm.block + p.fragment;
            if !p.flags.endHeaders then a == Absorbed(asm.(block := joined), [], None)
            else hpack(asm.decoder, joined).Decoded? ==>
                   var h := hpack(asm.decoder, joined); a == Absorbed(Idle(h.next), [Block(asm.stream, asm.origin, h.fields)], None)
  {
    FlagsAreRead(p.flags);
    hide FlagByte, HasFlag;
  }

  lemma AfterNothing<D>(d: Drained<D>)
    ensures After([], d) == d
  {
    assert [] + d.blocks == d.blocks;
  }

  /** One thing sent is read: a block for a header block, nothing for another frame. */
  lemma OneIsRead<D>(hpack: Hpack<D>, limits: Limits, decoder: D, s: Sent, rest: seq<byte>, marks: seq<Origin>)
    requires ValidSent(limits, s) && |marks| == |SentWire(limits, s) + rest|
    requires s.HeaderBlock? ==> hpack(decoder, s.fragment + Joined(s.more)).Decoded?
    ensures |marks[|SentWire(limits, s)|..]| == |rest|
    ensures var d := Drain(hpack, limits, Idle(decoder), SentWire(limits, s) + rest, marks);
            var m := marks[|SentWire(limits, s)|..];
            match s
            case OtherFrame(_, _) => d == Drain(hpack, limits, Idle(decoder), rest, m)
            case HeaderBlock(stream, _, _, _, _, _, _) =>
              var h := hpack(decoder, s.fragment + Joined(s.more));
              d == After([Block(stream, marks[0], h.fields)], Drain(hpack, limits, Idle(h.next), rest, m))
  {
    match s
    case OtherFrame(f, reserved) =>
      FrontIsAbsorbed(hpack, limits, Idle(decoder), f, reserved, rest, marks);
      AfterNothing(Drain(hpack, limits, Idle(decoder), rest, marks[|SentWire(limits, s)|..]));
    case HeaderBlock(_, _, _, _, _, _, _) => BlockIsRead(hpack, limits, decoder, s, rest, marks);
  }

  lemma BlockIsRead<D>(hpack: Hpack<D>, limits: Limits, decoder: D, s: Sent, rest: seq<byte>, marks: seq<Origin>)
    requires s.HeaderBlock? && ValidSent(limits, s) && |marks| == |SentWire(limits, s) + rest|
    requires hpack(decoder, s.fragment + Joined(s.more)).Decoded?
    ensures var h := hpack(decoder, s.fragment + Joined(s.more));
            && |marks[|SentWire(limits, s)|..]| == |rest|
            && Drain(hpack, limits, Idle(decoder), SentWire(limits, s) + rest, marks)
               == After([Block(s.stream, marks[0], h.fields)], Drain(hpack, limits, Idle(h.next), rest, marks[|SentWire(limits, s)|..]))
  {
    var f := Frame(1, FlagByte(s.flags), s.stream, HeadersPayload(s.flags, s.priority, s.fragment, s.pad));
    var front := FrameBytes(f, s.reserved);
    var behind := PiecesWire(limits, s.stream, s.more) + rest;
    assert SentWire(limits, s) + rest == front + behind;
    FlagsAreRead(s.flags);
    FragmentOfPayload(s.flags, s.priority, s.fragment, s.pad);
    FrontIsAbsorbed(hpack, limits, Idle(decoder), f, s.reserved, behind, marks);
    var a := Absorb(hpack, limits, Idle(decoder), f, marks[0]);
    hide FlagByte, HasFlag, FrameBytes, Drain, HeadersFragment, HeadersPayload;
    if s.more == [] {
      assert s.fragment + Joined(s.more) == s.fragment;
      assert behind == rest;
    } else {
      assert a == Absorbed(Assembly(s.stream, marks[0], s.fragment, decoder), [], None);
      PiecesAreRead(hpack, limits, a.asm, s.more, rest, marks[|front|..]);
      assert marks[|front|..][|PiecesWire(limits, s.stream, s.more)|..] == marks[|SentWire(limits, s)|..];
      AfterNothing(Drain(hpack, limits, a.asm, behind, marks[|front|..]));
    }
  }

  /** Whatever a sender writes, with whatever padding, priority, reserved bits and frames between, is read
      back: one field list for each header block, in order, and nothing is left over. */
  lemma {:induction false} SentIsRead<D>(hpack: Hpack<D>, limits: Limits, decoder: D, ss: seq<Sent>, marks: seq<Origin>)
    requires AllValid(limits, ss) && |marks| == |Wire(limits, ss)| && Reading(hpack, decoder, ss).Read?
    ensures var d, r := Drain(hpack, limits, Idle(decoder), Wire(limits, ss), marks), Reading(hpack, decoder, ss);
            d.error.None? && d.rest == [] && d.asm == Idle(r.decoder) && Contents(d.blocks) == r.blocks
    decreases |ss|
  {
    if ss == [] {
    } else {
      var s, rest := ss[0], Wire(limits, ss[1..]);
      OneIsRead(hpack, limits, decoder, s, rest, marks);
      hide Drain, SentWire, ValidSent;
      var next := if s.OtherFrame? then decoder else hpack(decoder, s.fragment + Joined(s.more)).next;
      var m := marks[|SentWire(limits, s)|..];
      SentIsRead(hpack, limits, next, ss[1..], m);
      if s.HeaderBlock? {
        var h := hpack(decoder, s.fragment + Joined(s.more));
        ContentsConcat([Block(s.stream, marks[0], h.fields)], Drain(hpack, limits, Idle(next), rest, m).blocks);
      }
    }
  }

  /** So over any run of feed calls, however the bytes are cut, a new direction reads what was sent. */
  lemma RunReadsWhatWasSent<D>(hpack: Hpack<D>, limits: Limits, decoder: D, ss: seq<Sent>, chunks: seq<Chunk>)
    requires AllValid(limits, ss) && Reading(hpack, decoder, ss).Read? && Bytes(chunks) == Wire(limits, ss)
    requires Fits(hpack, limits, NewDirectionOf(decoder), chunks)
    ensures var f, r := FeedAll(hpack, limits, NewDirectionOf(decoder), chunks), Reading(hpack, decoder, ss);
            && f.error.None? && Contents(f.blocks) == r.blocks
            && f.direction == NewDirectionOf(r.decoder)
  {
    var dir := NewDirectionOf(decoder);
    FeedAllIsDrain(hpack, limits, dir, chunks);
    SentIsRead(hpack, limits, decoder, ss, Marks(chunks));
    assert dir.buffer + Bytes(chunks) == Bytes(chunks) && Repeat(dir.first, |dir.buffer|) + Marks(chunks) == Marks(chunks);
  }

  /** A run succeeds exactly if no call overruns the buffer and the bytes as a whole are free of errors. */
  lemma RunSucceedsExactly<D>(hpack: Hpack<D>, limits: Limits, dir: Direction<D>, chunks: seq<Chunk>)
    requires ValidDirection(limits, dir)
    ensures FeedAll(hpack, limits, dir, chunks).error.None? <==>
            && Fits(hpack, limits, dir, chunks)
            && Drain(hpack, limits, dir.asm, dir.buffer + Bytes(chunks), Repeat(dir.first, |dir.buffer|) + Marks(chunks)).error.None?
  {
    hide FeedAll, Drain, Fits;
    if FeedAll(hpack, limits, dir, chunks).error.None? {
      FitsWithoutError(hpack, limits, dir, chunks);
    }
    if Fits(hpack, limits, dir, chunks) {
      FeedAllIsDrain(hpack, limits, dir, chunks);
    }
  }
}
