/** The plaintext HTTP correlator object (Correlator of internal/l7/correlator.go). */
module L7Correlators {
  import opened Base
  import opened FlowTypes
  import opened L7Fragment
  import opened Lists
  import opened Http1
  import opened Http2
  import opened L7

  const DEFAULT_TTL := 30_000_000_000
  const DEFAULT_SWEEP_EVERY := 256
  const DEFAULT_CONNECTIONS := 16384
  const DEFAULT_STREAMS := 65536
  const DEFAULT_PATH := 128
  const DEFAULT_BUFFERED := 65536
  const DEFAULT_HEADER_BLOCK := 16384

  /** A configured limit, or its default when not positive. */
  function OrDefault(n: int, otherwise: nat): (r: nat)
    requires otherwise > 0
    ensures r > 0
  {
    if n <= 0 then otherwise else n
  }

  /** http2Identity: the loop over the fields of a block. */
  method ReadHead(c: Config, fields: seq<HeaderField>) returns (head: Head)
    ensures head == HeadOf(c, fields)
  {
    var p := NO_PSEUDO;
    for i := 0 to |fields|
      invariant p == PseudoOf(fields[..i])
    {
      assert fields[..i + 1][..i] == fields[..i];
      var field := fields[i];
      if field.name == Ascii(":method") {
        p := p.(method_ := field.value);
      } else if field.name == Ascii(":path") {
        p := p.(path := field.value);
      } else if field.name == Ascii(":status") {
        var status := Status(field.value);
        if status.Some? {
          p := p.(status := status.value);
        }
      }
    }
    assert fields[..|fields|] == fields;
    var path := PathOf(p.path, c.maxPath);
    if (p.method_ == [] || path == []) && p.status == 0 {
      return NoHead;
    }
    if p.method_ != [] {
      return RequestHead(p.method_, path);
    }
    return ResponseHead(p.status);
  }

  ghost function FedTrackOf<D>(hpack: Hpack<D>, decoder: D, c: Config, s: State<D>, f: Fragment, payload: seq<byte>): FedTrack<D> {
    var d := DirectionOf(f);
    FeedTrack(hpack, c, if d in s.http2Directions then s.http2Directions[d] else NewDirection(decoder), f, payload)
  }

  /** The effect of a fragment of a tracked connection, field by field. */
  lemma TrackedIs<D>(hpack: Hpack<D>, decoder: D, c: Config, s: State<D>, f: Fragment, payload: seq<byte>)
    ensures var fed := FedTrackOf(hpack, decoder, c, s, f, payload);
            var paired := PairBlocks(c, f, s.http2, fed.blocks);
            HandleTracked(hpack, decoder, c, s, f, payload) ==
            Effect(State(s.processed, s.http1, s.http1Ambiguous,
                         s.http2Connections[MakeTransportKey(f) := TimestampNS(f)],
                         s.http2Directions[DirectionOf(f) := fed.track],
                         if fed.lost then s.http2 else paired.streams),
                   if fed.lost then [NewDrop(f, PlainHttp2, StreamDesync)] else paired.out)
  {
    hide TimestampNS, MakeTransportKey, DirectionOf, FeedTrack, PairBlocks, NewDirection;
  }

  class Correlator<D> {
    const hpack: Hpack<D>
    const decoder: D
    const config: Config
    var processed: nat
    var http1: map<ConnectionKey, Pending>
    var http1Ambiguous: map<ConnectionKey, nat>
    var http2Connections: map<TransportKey, nat>
    var http2Directions: map<DirectionKey, DirectionState<D>>
    var http2: map<StreamKey, Pending>

    /** NewCorrelator; `decoder` is a new header decoder. */
    constructor (hpack: Hpack<D>, decoder: D, maxPath: int, maxBuffered: int, maxHeaderBlock: int, ttl: int,
                 sweepEvery: nat, maxTracked: int, maxStreams: int)
      ensures Valid() && View() == Initial() && this.hpack == hpack && this.decoder == decoder
      ensures config == Config(OrDefault(maxPath, DEFAULT_PATH),
                               Limits(OrDefault(maxBuffered, DEFAULT_BUFFERED), OrDefault(maxHeaderBlock, DEFAULT_HEADER_BLOCK)),
                               OrDefault(ttl, DEFAULT_TTL), OrDefault(sweepEvery, DEFAULT_SWEEP_EVERY),
                               OrDefault(maxTracked, DEFAULT_CONNECTIONS), OrDefault(maxStreams, DEFAULT_STREAMS))
    {
      this.hpack, this.decoder := hpack, decoder;
      config := Config(OrDefault(maxPath, DEFAULT_PATH),
                       Limits(OrDefault(maxBuffered, DEFAULT_BUFFERED), OrDefault(maxHeaderBlock, DEFAULT_HEADER_BLOCK)),
                       OrDefault(ttl, DEFAULT_TTL), OrDefault(sweepEvery, DEFAULT_SWEEP_EVERY),
                       OrDefault(maxTracked, DEFAULT_CONNECTIONS), OrDefault(maxStreams, DEFAULT_STREAMS));
      processed, http1, http1Ambiguous, http2Connections, http2Directions, http2 := 0, map[], map[], map[], map[], map[];
    }

    ghost function TrackOf(state: DirectionState<D>): Tracked<D>
      reads state
    {
      Tracked(state.View(), state.lastSeenNS, state.poisoned)
    }

    ghost function Tracks(): map<DirectionKey, Tracked<D>>
      reads this`http2Directions, http2Directions.Values
    {
      map d | d in http2Directions :: TrackOf(http2Directions[d])
    }

    ghost function View(): State<D>
      reads this, http2Directions.Values
    {
      State(processed, http1, http1Ambiguous, http2Connections, Tracks(), http2)
    }

    /** The direction state is of this correlator's making. */
    ghost predicate Fits(state: DirectionState<D>)
      reads state
    {
      state.hpack == hpack && state.limits == config.limits && (!state.poisoned ==> state.Valid())
    }

    /** Each direction has a state object of its own. */
    ghost predicate Valid()
      reads this`http2Directions, http2Directions.Values
    {
      && ValidConfig(config)
      && (forall d :: d in http2Directions ==> Fits(http2Directions[d]))
      && (forall d, e :: d in http2Directions && e in http2Directions && d != e ==> http2Directions[d] != http2Directions[e])
    }

    // ---------- HTTP/1 ----------

    method ProcessRequest(f: Fragment, r: Request) returns (out: seq<Output>)
      requires Valid()
      modifies this`http1, this`http1Ambiguous
      ensures Valid() && View() == Http1Request(config, old(View()), f, r).state
      ensures out == Http1Request(config, old(View()), f, r).out
    {
      hide Pipelined, TimestampNS, IdentityFrom, RequestKey, Tracks, Valid;
      var key := RequestKey(f);
      out := [];
      if key in http1Ambiguous {
      } else if Pipelined(f.payload, config.maxPath) || key in http1 {
        http1 := http1 - {key};
        http1Ambiguous := http1Ambiguous[key := TimestampNS(f)];
        out := [NewDrop(f, PlainHttp1, OverlappingRequest)];
      } else if |http1| + |http1Ambiguous| + |http2Connections| >= config.maxTracked {
        out := [NewDrop(f, PlainHttp1, StateCapacity)];
      } else {
        http1 := http1[key := Pending(TimestampNS(f), r.method_, r.path, IdentityFrom(f))];
      }
    }

    method ProcessResponse(f: Fragment, status: nat) returns (out: seq<Output>)
      requires Valid()
      modifies this`http1
      ensures Valid() && View() == Http1Response(old(View()), f, status).state
      ensures out == Http1Response(old(View()), f, status).out
    {
      hide TimestampNS;
      var key := ResponseKey(f);
      out := [];
      if key !in http1Ambiguous && (status >= 200 || status == 101) && key in http1 {
        var pending := http1[key];
        http1 := http1 - {key};
        if status == 101 {
          out := [NewDrop(f, PlainHttp1, ProtocolUpgrade)];
        } else if TimestampNS(f) > pending.startedNS {
          out := [Completed(f, pending, PlainHttp1, status, 0, TimestampNS(f))];
        }
      }
    }

    // ---------- HTTP/2 ----------

    method Pair(f: Fragment, b: Block) returns (out: seq<Output>)
      modifies this`http2
      ensures Paired(http2, out) == PairBlock(config, f, old(http2), b)
    {
      hide HeadOf, RequestKey, ResponseKey;
      out := [];
      var head := ReadHead(config, b.fields);
      match head {
        case NoHead =>
        case RequestHead(m, path) =>
          var key := StreamKey(RequestKey(f), b.stream);
          if key in http2 {
            http2 := http2 - {key};
            out := [NewDrop(f, PlainHttp2, InvalidRequest)];
          } else if |http2| >= config.maxStreams {
            out := [NewDrop(f, PlainHttp2, StateCapacity)];
          } else {
            http2 := http2[key := Pending(b.origin.ns, m, path, b.origin.identity)];
          }
        case ResponseHead(status) =>
          var key := StreamKey(ResponseKey(f), b.stream);
          if status >= 200 && key in http2 {
            var pending := http2[key];
            http2 := http2 - {key};
            if b.origin.ns <= pending.startedNS {
              out := [NewDrop(f, PlainHttp2, InvalidLatency)];
            } else {
              out := [Completed(f, pending, PlainHttp2, status, b.stream, b.origin.ns)];
            }
          }
      }
    }

    method PairAll(f: Fragment, blocks: seq<Block>) returns (out: seq<Output>)
      modifies this`http2
      ensures Paired(http2, out) == PairBlocks(config, f, old(http2), blocks)
    {
      hide PairBlock;
      out := [];
      for i := 0 to |blocks|
        invariant Paired(http2, out) == PairBlocks(config, f, old(http2), blocks[..i])
      {
        assert blocks[..i + 1][..i] == blocks[..i];
        var more := Pair(f, blocks[i]);
        out := out + more;
      }
      assert blocks[..|blocks|] == blocks;
    }

    /** Feed one direction; after a loss it is poisoned. */
    method Feed(state: DirectionState<D>, f: Fragment, payload: seq<byte>) returns (blocks: seq<Block>, lost: bool)
      requires Fits(state)
      modifies state
      ensures Fits(state)
      ensures FedTrack(TrackOf(state), blocks, lost) == FeedTrack(hpack, config, old(TrackOf(state)), f, payload)
    {
      hide TimestampNS, IdentityFrom, FeedOne;
      state.lastSeenNS := TimestampNS(f);
      blocks, lost := [], false;
      if state.poisoned {
        return;
      }
      if f.totalLength > |f.payload| {
        state.Poison();
        lost := true;
      } else {
        var error;
        blocks, error := state.Feed(payload, TimestampNS(f), IdentityFrom(f));
        if error.Some? {
          state.Poison();
          blocks, lost := [], true;
        }
      }
    }

    /** processHTTP2 on a tracked connection. */
    method ProcessTracked(f: Fragment, payload: seq<byte>) returns (out: seq<Output>)
      requires Valid()
      modifies this, http2Directions.Values
      ensures Valid() && fresh(http2Directions.Values - old(http2Directions.Values))
      ensures View() == HandleTracked(hpack, decoder, config, old(View()), f, payload).state
      ensures out == HandleTracked(hpack, decoder, config, old(View()), f, payload).out
    {
      hide TimestampNS, MakeTransportKey, DirectionOf, FeedTrack, PairBlocks, HandleTracked, NewDirection, Tracks, Valid;
      ghost var s := View();
      http2Connections := http2Connections[MakeTransportKey(f) := TimestampNS(f)];
      var blocks, lost := FeedDirection(DirectionOf(f), f, payload);
      ghost var fed := FedTrackOf(hpack, decoder, config, s, f, payload);
      TrackedIs(hpack, decoder, config, s, f, payload);
      if lost {
        out := [NewDrop(f, PlainHttp2, StreamDesync)];
      } else {
        out := PairAll(f, blocks);
      }
    }

    method MakeDirection(d: DirectionKey)
      requires Valid()
      modifies this`http2Directions
      ensures Valid() && d in http2Directions && fresh(http2Directions.Values - old(http2Directions.Values))
      ensures Tracks() == if d in old(Tracks()) then old(Tracks()) else old(Tracks())[d := NewDirection(decoder)]
    {
      if d !in http2Directions {
        ghost var before := Tracks();
        var made := new DirectionState(hpack, config.limits, decoder);
        assert made !in http2Directions.Values;
        http2Directions := http2Directions[d := made];
        assert Tracks() == before[d := NewDirection(decoder)];
      }
    }

    method FeedKnown(d: DirectionKey, f: Fragment, payload: seq<byte>) returns (blocks: seq<Block>, lost: bool)
      requires Valid() && d in http2Directions
      modifies http2Directions[d]
      ensures Valid()
      ensures var fed := FeedTrack(hpack, config, old(Tracks()[d]), f, payload);
              Tracks() == old(Tracks())[d := fed.track] && blocks == fed.blocks && lost == fed.lost
    {
      hide FeedTrack;
      ghost var before := Tracks();
      blocks, lost := Feed(http2Directions[d], f, payload);
      assert Tracks() == before[d := TrackOf(http2Directions[d])];
    }

    /** Find or make the state of a direction, and feed it. */
    method FeedDirection(d: DirectionKey, f: Fragment, payload: seq<byte>) returns (blocks: seq<Block>, lost: bool)
      requires Valid()
      modifies this`http2Directions, http2Directions.Values
      ensures Valid() && fresh(http2Directions.Values - old(http2Directions.Values))
      ensures var t := if d in old(Tracks()) then old(Tracks())[d] else NewDirection(decoder);
              var fed := FeedTrack(hpack, config, t, f, payload);
              Tracks() == old(Tracks())[d := fed.track] && blocks == fed.blocks && lost == fed.lost
    {
      hide FeedTrack, NewDirection;
      MakeDirection(d);
      assert http2Directions[d] in http2Directions.Values;
      blocks, lost := FeedKnown(d, f, payload);
    }

    /** processHTTP2; not handled when the fragment is no HTTP/2. */
    method ProcessHttp2(f: Fragment) returns (out: seq<Output>, handled: bool)
      requires Valid()
      modifies this, http2Directions.Values
      ensures Valid() && fresh(http2Directions.Values - old(http2Directions.Values))
      ensures handled == IsHttp2(old(View()), f)
      ensures if handled then Effect(View(), out) == HandleHttp2(hpack, decoder, config, old(View()), f)
              else View() == old(View()) && out == []
    {
      hide HandleTracked, MakeTransportKey, Tracks, Valid;
      out, handled := [], true;
      if MakeTransportKey(f) in http2Connections {
        out := ProcessTracked(f, f.payload);
      } else if !(PREFACE <= f.payload) {
        handled := false;
      } else if |http1| + |http1Ambiguous| + |http2Connections| >= config.maxTracked {
        out := [NewDrop(f, PlainHttp2, StateCapacity)];
      } else {
        out := ProcessTracked(f, f.payload[|PREFACE|..]);
      }
    }

    // ---------- Sweeps ----------

    method SweepDirections(now: nat)
      requires Valid()
      modifies this`http2Directions
      ensures Valid() && http2Directions.Values <= old(http2Directions.Values)
      ensures Tracks() == Others(old(Tracks()), LastSeenBy(now, config.ttl))
    {
      ghost var before := Tracks();
      http2Directions := map d | d in http2Directions && !Expired(now, http2Directions[d].lastSeenNS, config.ttl) :: http2Directions[d];
      assert Tracks() == Others(before, LastSeenBy(now, config.ttl));
    }

    method SweepRequests(now: nat, at: Time) returns (drops: seq<Output>)
      modifies this`http1, this`http1Ambiguous
      ensures http1 == Others(old(http1), StartedBy(now, config.ttl))
      ensures http1Ambiguous == Others(old(http1Ambiguous), SeenBy(now, config.ttl))
      ensures Listing(drops, Drops(old(http1), now, config.ttl, TimeoutOf(at)))
    {
      hide Others, Where, Drops, Listing;
      http1, drops := SweepPending(http1, now, config.ttl, TimeoutOf(at));
      var gone;
      gone, http1Ambiguous := Partition(http1Ambiguous, SeenBy(now, config.ttl));
    }

    method SweepStreams(now: nat, at: Time) returns (drops: seq<Output>)
      modifies this`http2, this`http2Connections
      ensures http2 == Others(old(http2), StartedBy(now, config.ttl))
      ensures http2Connections == Others(old(http2Connections), SeenBy(now, config.ttl))
      ensures Listing(drops, Drops(old(http2), now, config.ttl, StreamTimeoutOf(at)))
    {
      hide Others, Where, Drops, Listing;
      http2, drops := SweepPending(http2, now, config.ttl, StreamTimeoutOf(at));
      var gone;
      gone, http2Connections := Partition(http2Connections, SeenBy(now, config.ttl));
    }

    /** The state after a sweep at a time, and the drops in some order. */
    method Sweep(now: nat, at: Time) returns (drops1: seq<Output>, drops2: seq<Output>)
      requires Valid()
      modifies this
      ensures Valid() && http2Directions.Values <= old(http2Directions.Values)
      ensures View() == State(old(processed), Others(old(http1), StartedBy(now, config.ttl)),
                              Others(old(http1Ambiguous), SeenBy(now, config.ttl)),
                              Others(old(http2Connections), SeenBy(now, config.ttl)),
                              Others(old(Tracks()), LastSeenBy(now, config.ttl)),
                              Others(old(http2), StartedBy(now, config.ttl)))
      ensures Listing(drops1, Drops(old(http1), now, config.ttl, TimeoutOf(at)))
      ensures Listing(drops2, Drops(old(http2), now, config.ttl, StreamTimeoutOf(at)))
    {
      hide Valid, Tracks, Others, Where, Drops, Listing;
      drops1 := SweepRequests(now, at);
      drops2 := SweepStreams(now, at);
      SweepDirections(now);
    }

    /** expire: every sweepEvery-th fragment. */
    method Expire(f: Fragment) returns (drops1: seq<Output>, drops2: seq<Output>)
      requires Valid()
      modifies this
      ensures Valid() && http2Directions.Values <= old(http2Directions.Values)
      ensures View() == Swept(config, old(View()), f)
      ensures Listing(drops1, TimedOut1(config, old(View()), f)) && Listing(drops2, TimedOut2(config, old(View()), f))
    {
      hide Tracks, Others, Drops, Listing, TimestampNS;
      processed := (processed + 1) % WORD;
      drops1, drops2 := [], [];
      NothingListed<ConnectionKey>();
      NothingListed<StreamKey>();
      if processed % config.sweepEvery == 0 && TimestampNS(f) != 0 {
        drops1, drops2 := Sweep(TimestampNS(f), f.observedAt);
      }
    }

    /** One fragment: the drops of the sweep it triggers, in some order, then its own outputs. */
    method Process(f: Fragment) returns (out: seq<Output>)
      requires Valid()
      modifies this, http2Directions.Values
      ensures Valid() && fresh(http2Directions.Values - old(http2Directions.Values))
      ensures View() == Step(hpack, decoder, config, old(View()), f).state
      ensures exists a, b :: && Listing(a, TimedOut1(config, old(View()), f)) && Listing(b, TimedOut2(config, old(View()), f))
                             && out == a + b + Step(hpack, decoder, config, old(View()), f).out
    {
      hide Tracks, Listing, TimedOut1, TimedOut2, Swept, HandleHttp2, Http1Request, Http1Response, ParseRequest, ParseResponse, IsHttp2;
      var a, b := Expire(f);
      ghost var s := View();
      var more, handled := ProcessHttp2(f);
      if !handled {
        match ParseRequest(f.payload, config.maxPath) {
          case Some(r) => more := ProcessRequest(f, r);
          case None =>
            match ParseResponse(f.payload) {
              case Some(status) => more := ProcessResponse(f, status);
              case None =>
            }
        }
      }
      out := a + b + more;
    }
  }

  method SweepPending<K(==, !new)>(m: map<K, Pending>, now: nat, ttl: nat, drop: K -> Output)
    returns (left: map<K, Pending>, drops: seq<Output>)
    ensures left == Others(m, StartedBy(now, ttl)) && Listing(drops, Drops(m, now, ttl, drop))
  {
    var gone;
    gone, left := Partition(m, StartedBy(now, ttl));
    drops := ListMap(map k | k in gone :: drop(k));
    assert (map k | k in gone :: drop(k)) == Drops(m, now, ttl, drop);
  }

  lemma NothingListed<K(!new)>()
    ensures var none: map<K, Output> := map[]; Listing([], none)
  {
    var keys: seq<K>, none: map<K, Output> := [], map[];
    assert Enumerates(keys, none) && Look(none, keys) == [];
  }
}
