/** What each tracked HTTP/2 direction has been fed in a run, and so where its header blocks come from. */
module L7Directions {
  import opened Base
  import opened L7Fragment
  import opened Http2
  import opened L7
  import opened L7Safety
  import opened L7Pairing
  import opened L7Streams

  /** The bytes a fragment brings to its direction, if it is admitted. */
  function Admitted<D>(c: Config, s: State<D>, f: Fragment): Option<seq<byte>> {
    if !IsHttp2(s, f) then None
    else if MakeTransportKey(f) in s.http2Connections then Some(f.payload)
    else if TrackedConnections(s) >= c.maxTracked then None
    else Some(f.payload[|PREFACE|..])
  }

  function ChunkOf(f: Fragment, payload: seq<byte>): Chunk {
    Chunk(payload, Origin(TimestampNS(f), IdentityFrom(f)))
  }

  /** The fragment is fed to direction d: admitted, complete, and d not poisoned. */
  predicate Feeds<D>(c: Config, s: State<D>, f: Fragment, d: DirectionKey) {
    && Admitted(c, s, f).Some? && DirectionOf(f) == d && f.totalLength <= |f.payload|
    && (d in s.http2Directions ==> !s.http2Directions[d].poisoned)
  }

  /** What direction d has been fed since it was made. */
  function Chunks<D>(hpack: Hpack<D>, decoder: D, c: Config, fs: seq<Fragment>, d: DirectionKey): seq<Chunk>
    requires ValidConfig(c)
  {
    if fs == [] then []
    else
      var n := |fs| - 1;
      var s, f := At(hpack, decoder, c, fs, n), fs[n];
      (if d in s.http2Directions then Chunks(hpack, decoder, c, fs[..n], d) else [])
      + (if Feeds(c, s, f, d) then [ChunkOf(f, Admitted(c, s, f).value)] else [])
  }

  /** Direction t is what feeding these chunks to a new direction gives, unless it is poisoned. */
  ghost predicate IsFed<D>(hpack: Hpack<D>, decoder: D, c: Config, t: Tracked<D>, chunks: seq<Chunk>) {
    !t.poisoned ==>
      var g := FeedAll(hpack, c.limits, NewDirectionOf(decoder), chunks);
      g.error.None? && g.direction == t.direction
  }

  ghost predicate AllFed<D>(hpack: Hpack<D>, decoder: D, c: Config, fs: seq<Fragment>)
    requires ValidConfig(c)
  {
    var s := Run(hpack, decoder, c, fs);
    forall d :: d in s.http2Directions ==> IsFed(hpack, decoder, c, s.http2Directions[d], Chunks(hpack, decoder, c, fs, d))
  }

  /** The direction a fragment belongs to, made if need be. */
  function TrackFor<D>(decoder: D, s: State<D>, f: Fragment): Tracked<D> {
    if DirectionOf(f) in s.http2Directions then s.http2Directions[DirectionOf(f)] else NewDirection(decoder)
  }

  lemma TrackedDirections<D>(hpack: Hpack<D>, decoder: D, c: Config, s: State<D>, f: Fragment, payload: seq<byte>)
    ensures HandleTracked(hpack, decoder, c, s, f, payload).state.http2Directions
            == s.http2Directions[DirectionOf(f) := FeedTrack(hpack, c, TrackFor(decoder, s, f), f, payload).track]
  {
    hide FeedTrack, PairBlocks, TimestampNS, MakeTransportKey, DirectionOf, NewDirection;
  }

  /** Only the fragment's own direction changes, and only if the fragment is admitted. */
  lemma HandledDirections<D>(hpack: Hpack<D>, decoder: D, c: Config, s: State<D>, f: Fragment)
    ensures var t := Handle(hpack, decoder, c, s, f).state;
            match Admitted(c, s, f)
            case None => t.http2Directions == s.http2Directions
            case Some(payload) =>
              t.http2Directions == s.http2Directions[DirectionOf(f) := FeedTrack(hpack, c, TrackFor(decoder, s, f), f, payload).track]
  {
    hide HandleHttp1, HandleTracked, FeedTrack, TrackedConnections, MakeTransportKey, DirectionOf, TrackFor;
    if !IsHttp2(s, f) {
      Http1KeepsDirections(c, s, f);
    } else if MakeTransportKey(f) in s.http2Connections {
      TrackedDirections(hpack, decoder, c, s, f, f.payload);
    } else if TrackedConnections(s) < c.maxTracked {
      TrackedDirections(hpack, decoder, c, s, f, f.payload[|PREFACE|..]);
    }
  }

  lemma Http1KeepsDirections<D>(c: Config, s: State<D>, f: Fragment)
    ensures HandleHttp1(c, s, f).state.http2Directions == s.http2Directions
  {
    hide HandleHttp1, Confuses, Starts, Ends, PendingOf, TimestampNS, RequestKey, ResponseKey;
    Http1Cases(c, s, f);
  }

  /** Feeding goes on from what was fed. */
  lemma FeedTrackIsFed<D>(hpack: Hpack<D>, decoder: D, c: Config, t: Tracked<D>, chunks: seq<Chunk>, f: Fragment, payload: seq<byte>)
    requires IsFed(hpack, decoder, c, t, chunks)
    ensures var fed := FeedTrack(hpack, c, t, f, payload);
            && (t.poisoned || f.totalLength > |f.payload| ==> fed.track.poisoned && fed.blocks == [])
            && (!t.poisoned && f.totalLength <= |f.payload| ==> IsFed(hpack, decoder, c, fed.track, chunks + [ChunkOf(f, payload)]))
            && (fed.blocks != [] ==>
                  var before := FeedAll(hpack, c.limits, NewDirectionOf(decoder), chunks);
                  var after := FeedAll(hpack, c.limits, NewDirectionOf(decoder), chunks + [ChunkOf(f, payload)]);
                  before.error.None? && after.error.None? && after.blocks == before.blocks + fed.blocks)
  {
    hide FeedOne, FeedAll, TimestampNS, IdentityFrom;
    if !t.poisoned {
      FeedAllSnoc(hpack, c.limits, NewDirectionOf(decoder), chunks, ChunkOf(f, payload));
    }
  }

  lemma SweptDirections<D>(c: Config, s: State<D>, f: Fragment)
    requires ValidConfig(c)
    ensures forall d :: d in Swept(c, s, f).http2Directions ==>
              d in s.http2Directions && Swept(c, s, f).http2Directions[d] == s.http2Directions[d]
  {
    hide TimestampNS;
  }

  /** What direction d was fed before fragment f, if it still exists then. */
  function Before<D>(hpack: Hpack<D>, decoder: D, c: Config, fs: seq<Fragment>, f: Fragment, d: DirectionKey): seq<Chunk>
    requires ValidConfig(c)
  {
    if d in Swept(c, Run(hpack, decoder, c, fs), f).http2Directions then Chunks(hpack, decoder, c, fs, d) else []
  }

  lemma ChunksNow<D>(hpack: Hpack<D>, decoder: D, c: Config, fs: seq<Fragment>, f: Fragment, d: DirectionKey)
    requires ValidConfig(c)
    ensures var s := Swept(c, Run(hpack, decoder, c, fs), f);
            Chunks(hpack, decoder, c, fs + [f], d) ==
            Before(hpack, decoder, c, fs, f, d) + (if Feeds(c, s, f, d) then [ChunkOf(f, Admitted(c, s, f).value)] else [])
  {
    assert (fs + [f])[..|fs|] == fs && (fs + [f])[|fs|] == f;
    hide Run, Swept, Feeds, ChunkOf;
  }

  /** A direction that exists, or a new one, is what it was fed before this fragment. */
  lemma FedBefore<D>(hpack: Hpack<D>, decoder: D, c: Config, fs: seq<Fragment>, f: Fragment)
    requires ValidConfig(c) && AllFed(hpack, decoder, c, fs)
    ensures var s, d := Swept(c, Run(hpack, decoder, c, fs), f), DirectionOf(f);
            IsFed(hpack, decoder, c, TrackFor(decoder, s, f), Before(hpack, decoder, c, fs, f, d))
    ensures forall d :: d in Swept(c, Run(hpack, decoder, c, fs), f).http2Directions ==>
              IsFed(hpack, decoder, c, Swept(c, Run(hpack, decoder, c, fs), f).http2Directions[d], Before(hpack, decoder, c, fs, f, d))
  {
    SweptDirections(c, Run(hpack, decoder, c, fs), f);
    NewIsFed(hpack, decoder, c);
    hide Run, Swept, IsFed, Chunks, DirectionOf, NewDirection;
  }

  lemma NewIsFed<D>(hpack: Hpack<D>, decoder: D, c: Config)
    ensures IsFed(hpack, decoder, c, NewDirection(decoder), [])
  {
  }

  lemma StepFed<D>(hpack: Hpack<D>, decoder: D, c: Config, fs: seq<Fragment>, f: Fragment)
    requires ValidConfig(c) && AllFed(hpack, decoder, c, fs)
    ensures var t := Step(hpack, decoder, c, Run(hpack, decoder, c, fs), f).state;
            forall d :: d in t.http2Directions ==> IsFed(hpack, decoder, c, t.http2Directions[d], Chunks(hpack, decoder, c, fs + [f], d))
  {
    var s := Swept(c, Run(hpack, decoder, c, fs), f);
    var t := Handle(hpack, decoder, c, s, f).state;
    FedBefore(hpack, decoder, c, fs, f);
    HandledDirections(hpack, decoder, c, s, f);
    forall d | d in t.http2Directions
      ensures IsFed(hpack, decoder, c, t.http2Directions[d], Chunks(hpack, decoder, c, fs + [f], d))
    {
      ChunksNow(hpack, decoder, c, fs, f, d);
      hide Run, Swept, Handle, IsFed, Chunks, Before, DirectionOf, FeedTrack, AllFed, Admitted, ChunkOf;
      var before := Before(hpack, decoder, c, fs, f, d);
      if Admitted(c, s, f).Some? && d == DirectionOf(f) {
        FeedTrackIsFed(hpack, decoder, c, TrackFor(decoder, s, f), before, f, Admitted(c, s, f).value);
        PoisonedIsFed(hpack, decoder, c, t.http2Directions[d], Chunks(hpack, decoder, c, fs + [f], d));
      } else {
        assert before + [] == before;
      }
    }
  }

  lemma PoisonedIsFed<D>(hpack: Hpack<D>, decoder: D, c: Config, t: Tracked<D>, chunks: seq<Chunk>)
    ensures t.poisoned ==> IsFed(hpack, decoder, c, t, chunks)
  {
  }

  /** In every run each direction that is not poisoned is what a new direction becomes by feeding it,
      one by one, the payloads of its own fragments since it was made. */
  lemma {:induction false} DirectionsAreFed<D>(hpack: Hpack<D>, decoder: D, c: Config, fs: seq<Fragment>)
    requires ValidConfig(c)
    ensures AllFed(hpack, decoder, c, fs)
    decreases |fs|
  {
    if fs != [] {
      var n := |fs| - 1;
      DirectionsAreFed(hpack, decoder, c, fs[..n]);
      assert fs == fs[..n] + [fs[n]];
      hide IsFed, Step, Chunks;
      StepFed(hpack, decoder, c, fs[..n], fs[n]);
    }
  }

  /** The chunk is the payload of one of the fragments of d, less a preface, with its time and identity. */
  ghost predicate IsChunkOf(fs: seq<Fragment>, d: DirectionKey, chunk: Chunk) {
    exists i :: 0 <= i < |fs| && DirectionOf(fs[i]) == d && chunk.origin == Origin(TimestampNS(fs[i]), IdentityFrom(fs[i]))
                && (chunk.payload == fs[i].payload || PREFACE + chunk.payload == fs[i].payload)
  }

  lemma ChunkStays(fs: seq<Fragment>, d: DirectionKey, chunk: Chunk)
    requires fs != [] && IsChunkOf(fs[..|fs| - 1], d, chunk)
    ensures IsChunkOf(fs, d, chunk)
  {
    hide DirectionOf, TimestampNS, IdentityFrom, PREFACE;
    var some := fs[..|fs| - 1];
    var i :| 0 <= i < |some| && DirectionOf(some[i]) == d && chunk.origin == Origin(TimestampNS(some[i]), IdentityFrom(some[i]))
             && (chunk.payload == some[i].payload || PREFACE + chunk.payload == some[i].payload);
    assert fs[i] == some[i];
  }

  lemma ChunkEnters<D>(c: Config, fs: seq<Fragment>, s: State<D>, d: DirectionKey)
    requires fs != [] && Feeds(c, s, fs[|fs| - 1], d)
    ensures IsChunkOf(fs, d, ChunkOf(fs[|fs| - 1], Admitted(c, s, fs[|fs| - 1]).value))
  {
    hide DirectionOf, TimestampNS, IdentityFrom, MakeTransportKey, TrackedConnections, PREFACE;
    var f := fs[|fs| - 1];
    assert PREFACE <= f.payload ==> PREFACE + f.payload[|PREFACE|..] == f.payload;
  }

  lemma {:induction false} ChunksAreFragments<D>(hpack: Hpack<D>, decoder: D, c: Config, fs: seq<Fragment>, d: DirectionKey)
    requires ValidConfig(c)
    ensures forall j :: 0 <= j < |Chunks(hpack, decoder, c, fs, d)| ==> IsChunkOf(fs, d, Chunks(hpack, decoder, c, fs, d)[j])
    decreases |fs|
  {
    if fs != [] {
      var n := |fs| - 1;
      var s := At(hpack, decoder, c, fs, n);
      var before, all := Chunks(hpack, decoder, c, fs[..n], d), Chunks(hpack, decoder, c, fs, d);
      ChunksAreFragments(hpack, decoder, c, fs[..n], d);
      hide Run, Swept, Feeds, IsChunkOf, Admitted, ChunkOf, At;
      forall j | 0 <= j < |all| ensures IsChunkOf(fs, d, all[j]) {
        if d in s.http2Directions && j < |before| {
          ChunkStays(fs, d, before[j]);
        } else {
          ChunkEnters(c, fs, s, d);
        }
      }
    }
  }

  /** Blocks come with a fragment that is fed. */
  lemma PairedAreFed<D>(hpack: Hpack<D>, decoder: D, c: Config, s: State<D>, f: Fragment)
    ensures PairedBlocks(hpack, decoder, c, s, f) ==
            match Admitted(c, s, f)
            case None => []
            case Some(payload) => FeedTrack(hpack, c, TrackFor(decoder, s, f), f, payload).blocks
    ensures PairedBlocks(hpack, decoder, c, s, f) != [] ==> Feeds(c, s, f, DirectionOf(f))
  {
    hide FeedOne, TimestampNS, IdentityFrom, MakeTransportKey, TrackedConnections, NewDirection;
  }

  /** The blocks are those of the next HEADERS frames in what was fed. */
  ghost predicate NextFrames<D>(hpack: Hpack<D>, decoder: D, c: Config, before: seq<Chunk>, chunks: seq<Chunk>, bs: seq<Block>) {
    var starts := HeaderStarts(c.limits, Bytes(chunks));
    var done := |FeedAll(hpack, c.limits, NewDirectionOf(decoder), before).blocks|;
    done + |bs| <= |starts| && forall i :: 0 <= i < |bs| ==> OpensAt(OpeningOf(bs[i]), starts[done + i], Marks(chunks))
  }

  lemma FedBlocksAreNext<D>(hpack: Hpack<D>, decoder: D, c: Config, t: Tracked<D>, before: seq<Chunk>, f: Fragment, payload: seq<byte>)
    requires IsFed(hpack, decoder, c, t, before) && FeedTrack(hpack, c, t, f, payload).blocks != []
    ensures NextFrames(hpack, decoder, c, before, before + [ChunkOf(f, payload)], FeedTrack(hpack, c, t, f, payload).blocks)
  {
    hide FeedTrack, IsFed, FeedAll, HeaderStarts, OpensAt, ChunkOf, OpeningOf, Fits;
    var all, bs := before + [ChunkOf(f, payload)], FeedTrack(hpack, c, t, f, payload).blocks;
    FeedTrackIsFed(hpack, decoder, c, t, before, f, payload);
    FitsWithoutError(hpack, c.limits, NewDirectionOf(decoder), all);
    FirstByteProvenance(hpack, c.limits, decoder, all);
    var first := FeedAll(hpack, c.limits, NewDirectionOf(decoder), before).blocks;
    assert forall i :: 0 <= i < |bs| ==> bs[i] == (first + bs)[|first| + i];
  }

  /** The header blocks a fragment completes are those of the next HEADERS frames in the bytes its
      direction was fed since it was made, and each has time and identity of the fragment that brought
      the first byte of its own frame. */
  lemma BlocksComeFromOwnFrames<D>(hpack: Hpack<D>, decoder: D, c: Config, fs: seq<Fragment>, f: Fragment)
    requires ValidConfig(c)
    ensures var bs := PairedBlocks(hpack, decoder, c, Swept(c, Run(hpack, decoder, c, fs), f), f);
            bs != [] ==> NextFrames(hpack, decoder, c, Before(hpack, decoder, c, fs, f, DirectionOf(f)),
                                    Chunks(hpack, decoder, c, fs + [f], DirectionOf(f)), bs)
  {
    var s, d := Swept(c, Run(hpack, decoder, c, fs), f), DirectionOf(f);
    DirectionsAreFed(hpack, decoder, c, fs);
    FedBefore(hpack, decoder, c, fs, f);
    ChunksNow(hpack, decoder, c, fs, f, d);
    PairedAreFed(hpack, decoder, c, s, f);
    hide Run, Swept, IsFed, Chunks, Before, DirectionOf, FeedTrack, AllFed, ChunkOf, NextFrames, Admitted, PairedBlocks, TrackFor;
    if PairedBlocks(hpack, decoder, c, s, f) != [] {
      FedBlocksAreNext(hpack, decoder, c, TrackFor(decoder, s, f), Before(hpack, decoder, c, fs, f, d), f, Admitted(c, s, f).value);
    }
  }
}
