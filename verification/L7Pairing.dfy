/** Which request each HTTP transaction belongs to, and where every HTTP/2 request ends up. */
module L7Pairing {
  import opened Base
  import opened L7Fragment
  import opened Lists
  import opened Http1
  import opened Http2
  import opened L7
  import opened L7Safety

  // ---------- HTTP/1: the one request behind a response ----------

  /** An HTTP/1 message that is a request on k, or a final response on k, in a state already swept. */
  predicate Concerns<D>(c: Config, s: State<D>, f: Fragment, k: ConnectionKey) {
    !IsHttp2(s, f) &&
    match ParseRequest(f.payload, c.maxPath)
    case Some(_) => RequestKey(f) == k
    case None =>
      match ParseResponse(f.payload)
      case Some(status) => ResponseKey(f) == k && (status >= 200 || status == 101)
      case None => false
  }

  predicate IsRequest<D>(c: Config, s: State<D>, f: Fragment, k: ConnectionKey) {
    !IsHttp2(s, f) && ParseRequest(f.payload, c.maxPath).Some? && RequestKey(f) == k
  }

  /** The state in which fragment i of a run is handled. */
  function At<D>(hpack: Hpack<D>, decoder: D, c: Config, fs: seq<Fragment>, i: nat): State<D>
    requires ValidConfig(c) && i < |fs|
  {
    Swept(c, Run(hpack, decoder, c, fs[..i]), fs[i])
  }

  /** Fragment i is a request on k, and since then nothing concerned k. */
  ghost predicate LastConcern<D>(hpack: Hpack<D>, decoder: D, c: Config, fs: seq<Fragment>, k: ConnectionKey, i: nat)
    requires ValidConfig(c)
  {
    && i < |fs| && IsRequest(c, At(hpack, decoder, c, fs, i), fs[i], k)
    && forall j :: i < j < |fs| ==> !Concerns(c, At(hpack, decoder, c, fs, j), fs[j], k)
  }

  /** p is the entry made by the last message that concerned k. */
  ghost predicate Grounded<D>(hpack: Hpack<D>, decoder: D, c: Config, fs: seq<Fragment>, k: ConnectionKey, p: Pending)
    requires ValidConfig(c)
  {
    exists i: nat :: LastConcern(hpack, decoder, c, fs, k, i) && p == PendingOf(c, fs[i])
  }

  ghost predicate AllGrounded<D>(hpack: Hpack<D>, decoder: D, c: Config, fs: seq<Fragment>)
    requires ValidConfig(c)
  {
    var s := Run(hpack, decoder, c, fs);
    forall k :: k in s.http1 ==> Grounded(hpack, decoder, c, fs, k, s.http1[k])
  }

  lemma AtPrefix<D>(hpack: Hpack<D>, decoder: D, c: Config, fs: seq<Fragment>, f: Fragment, i: nat)
    requires ValidConfig(c) && i < |fs|
    ensures At(hpack, decoder, c, fs + [f], i) == At(hpack, decoder, c, fs, i)
  {
    assert (fs + [f])[..i] == fs[..i];
  }

  /** A fragment that does not concern k leaves what is known about k. */
  lemma GroundedStays<D>(hpack: Hpack<D>, decoder: D, c: Config, fs: seq<Fragment>, f: Fragment, k: ConnectionKey, p: Pending)
    requires ValidConfig(c) && Grounded(hpack, decoder, c, fs, k, p)
    requires !Concerns(c, Swept(c, Run(hpack, decoder, c, fs), f), f, k)
    ensures Grounded(hpack, decoder, c, fs + [f], k, p)
  {
    hide Concerns, PendingOf, Swept, Run;
    var more := fs + [f];
    var i: nat :| LastConcern(hpack, decoder, c, fs, k, i) && p == PendingOf(c, fs[i]);
    AtPrefix(hpack, decoder, c, fs, f, i);
    forall j | i < j < |more| ensures !Concerns(c, At(hpack, decoder, c, more, j), more[j], k) {
      if j < |fs| {
        AtPrefix(hpack, decoder, c, fs, f, j);
      } else {
        assert more[..j] == fs;
      }
    }
    assert LastConcern(hpack, decoder, c, more, k, i) && more[i] == fs[i];
  }

  lemma GroundedNow<D>(hpack: Hpack<D>, decoder: D, c: Config, fs: seq<Fragment>, f: Fragment, k: ConnectionKey)
    requires ValidConfig(c) && IsRequest(c, Swept(c, Run(hpack, decoder, c, fs), f), f, k)
    ensures Grounded(hpack, decoder, c, fs + [f], k, PendingOf(c, f))
  {
    hide Run, Swept, PendingOf;
    var more := fs + [f];
    assert more[..|fs|] == fs && more[|fs|] == f;
    assert LastConcern(hpack, decoder, c, more, k, |fs|);
  }

  lemma Http2KeepsWaiting<D>(hpack: Hpack<D>, decoder: D, c: Config, s: State<D>, f: Fragment)
    requires IsHttp2(s, f)
    ensures HandleHttp2(hpack, decoder, c, s, f).state.http1 == s.http1
  {
    hide FeedTrack, PairBlocks, MakeTransportKey;
  }

  lemma WaitingAfterHttp1<D>(c: Config, s: State<D>, f: Fragment, k: ConnectionKey)
    requires !IsHttp2(s, f) && s.http1.Keys !! s.http1Ambiguous.Keys && k in HandleHttp1(c, s, f).state.http1
    ensures var p := HandleHttp1(c, s, f).state.http1[k];
            || (IsRequest(c, s, f, k) && p == PendingOf(c, f))
            || (!Concerns(c, s, f, k) && k in s.http1 && p == s.http1[k])
  {
    hide ParseRequest, ParseResponse, Pipelined, RequestKey, ResponseKey, PendingOf, HandleHttp1, IsHttp2;
    Http1Cases(c, s, f);
  }

  /** What one fragment does to the waiting requests. */
  lemma WaitingAfter<D>(hpack: Hpack<D>, decoder: D, c: Config, s: State<D>, f: Fragment, k: ConnectionKey)
    requires s.http1.Keys !! s.http1Ambiguous.Keys && k in Handle(hpack, decoder, c, s, f).state.http1
    ensures var p := Handle(hpack, decoder, c, s, f).state.http1[k];
            || (IsRequest(c, s, f, k) && p == PendingOf(c, f))
            || (!Concerns(c, s, f, k) && k in s.http1 && p == s.http1[k])
  {
    hide HandleHttp1, HandleHttp2, IsHttp2, ParseRequest, ParseResponse, PendingOf;
    if IsHttp2(s, f) {
      Http2KeepsWaiting(hpack, decoder, c, s, f);
    } else {
      WaitingAfterHttp1(c, s, f, k);
    }
  }

  lemma StepGrounded<D>(hpack: Hpack<D>, decoder: D, c: Config, fs: seq<Fragment>, f: Fragment, k: ConnectionKey)
    requires ValidConfig(c) && AllGrounded(hpack, decoder, c, fs)
    requires k in Step(hpack, decoder, c, Run(hpack, decoder, c, fs), f).state.http1
    ensures Grounded(hpack, decoder, c, fs + [f], k, Step(hpack, decoder, c, Run(hpack, decoder, c, fs), f).state.http1[k])
  {
    var s := Run(hpack, decoder, c, fs);
    var t := Swept(c, s, f);
    RunBounded(hpack, decoder, c, fs);
    SweptBounded(c, s, f);
    WaitingAfter(hpack, decoder, c, t, f, k);
    SweptKeepsSome(c, s, f);
    hide Run, Swept, Handle, Concerns, IsRequest, PendingOf, Grounded, Bounded;
    if IsRequest(c, t, f, k) {
      GroundedNow(hpack, decoder, c, fs, f, k);
    }
    if !Concerns(c, t, f, k) && k in t.http1 {
      assert Grounded(hpack, decoder, c, fs, k, s.http1[k]);
      GroundedStays(hpack, decoder, c, fs, f, k, s.http1[k]);
    }
  }

  lemma SweptKeepsSome<D>(c: Config, s: State<D>, f: Fragment)
    requires ValidConfig(c)
    ensures forall k :: k in Swept(c, s, f).http1 ==> k in s.http1 && Swept(c, s, f).http1[k] == s.http1[k]
  {
  }

  /** Every waiting request is the last message that concerned its key. */
  lemma {:induction false} WaitingIsGrounded<D>(hpack: Hpack<D>, decoder: D, c: Config, fs: seq<Fragment>)
    requires ValidConfig(c)
    ensures AllGrounded(hpack, decoder, c, fs)
    decreases |fs|
  {
    if fs != [] {
      var n := |fs| - 1;
      WaitingIsGrounded(hpack, decoder, c, fs[..n]);
      assert fs == fs[..n] + [fs[n]];
      var s := Run(hpack, decoder, c, fs);
      hide Step, Grounded;
      forall k | k in s.http1 ensures Grounded(hpack, decoder, c, fs, k, s.http1[k]) {
        StepGrounded(hpack, decoder, c, fs[..n], fs[n], k);
      }
    }
  }

  /** How an HTTP/1 transaction comes about. */
  lemma TransactionHasWaiting<D>(c: Config, s: State<D>, f: Fragment, o: Output)
    requires o in HandleHttp1(c, s, f).out && o.Done?
    ensures ParseResponse(f.payload).Some? && ResponseKey(f) in s.http1
    ensures var p := s.http1[ResponseKey(f)];
            && p.startedNS < TimestampNS(f)
            && o == Completed(f, p, PlainHttp1, ParseResponse(f.payload).value, 0, TimestampNS(f))
  {
    hide ParseRequest, ParseResponse, Pipelined, TimestampNS, IdentityFrom, RequestKey, ResponseKey;
  }

  /** HTTP/1 pairing: a transaction uses time, method, path and identity of one earlier request on
      its key; nothing in between was a request or a final response on that key; and its latency is
      the positive difference of the two times. */
  lemma Http1PairsOneRequest<D>(hpack: Hpack<D>, decoder: D, c: Config, fs: seq<Fragment>, f: Fragment, o: Output)
    requires ValidConfig(c)
    requires var s := Swept(c, Run(hpack, decoder, c, fs), f);
             !IsHttp2(s, f) && o in Handle(hpack, decoder, c, s, f).out && o.Done?
    ensures exists i: nat ::
              && LastConcern(hpack, decoder, c, fs, ResponseKey(f), i)
              && var r, t := PendingOf(c, fs[i]), o.transaction;
                 && (t.method_, t.path, t.identity) == (r.method_, r.path, IdentityFrom(fs[i]))
                 && TimestampNS(fs[i]) < TimestampNS(f)
                 && t.latencyMicros == (TimestampNS(f) - TimestampNS(fs[i])) / 1000
                 && (t.flow.source, t.flow.destination) == (fs[i].sourceEndpoint, fs[i].destinationEndpoint)
                 && ParseResponse(f.payload) == Some(t.statusCode)
  {
    hide Run, Swept, ParseRequest, ParseResponse, IdentityFrom, TimestampNS, HandleHttp1, HandleHttp2, IsHttp2;
    var run := Run(hpack, decoder, c, fs);
    var s, k := Swept(c, run, f), ResponseKey(f);
    TransactionHasWaiting(c, s, f, o);
    WaitingIsGrounded(hpack, decoder, c, fs);
    SweptKeepsSome(c, run, f);
    assert Grounded(hpack, decoder, c, fs, k, run.http1[k]);
    var i: nat :| LastConcern(hpack, decoder, c, fs, k, i) && run.http1[k] == PendingOf(c, fs[i]);
    PendingFacts(hpack, decoder, c, fs, k, i);
  }

  lemma PendingFacts<D>(hpack: Hpack<D>, decoder: D, c: Config, fs: seq<Fragment>, k: ConnectionKey, i: nat)
    requires ValidConfig(c) && LastConcern(hpack, decoder, c, fs, k, i)
    ensures i < |fs| && ParseRequest(fs[i].payload, c.maxPath).Some?
    ensures PendingOf(c, fs[i]).startedNS == TimestampNS(fs[i]) && PendingOf(c, fs[i]).identity == IdentityFrom(fs[i])
    ensures (fs[i].sourceEndpoint, fs[i].destinationEndpoint) == (k.client, k.server)
  {
    hide Run, Swept, ParseRequest, ParseResponse, IdentityFrom, TimestampNS, IsHttp2;
  }

  /** A waiting HTTP/1 request is removed with exactly one record, except when its response is not
      later than it: then it goes silently. */
  lemma Http1RemovalIsReported<D>(c: Config, s: State<D>, f: Fragment, k: ConnectionKey)
    requires k in s.http1 && k !in HandleHttp1(c, s, f).state.http1
    ensures var out := HandleHttp1(c, s, f).out;
            var silent := Ends(c, s, f) && ParseResponse(f.payload).value != 101 && TimestampNS(f) <= s.http1[k].startedNS;
            |out| == if silent then 0 else 1
  {
    hide ParseRequest, ParseResponse, Pipelined, TimestampNS, IdentityFrom, RequestKey, ResponseKey, Completed;
  }

  // ---------- HTTP/2: where every request ends up ----------

  /** How many requests of a stream a record stands for: an invalid repetition is about two. */
  function Weight(o: Output): nat {
    match o
    case Done(t) => if t.protocol == PlainHttp2 then 1 else 0
    case Drop(_, _, _, protocol, _, reason) =>
      if protocol != PlainHttp2 || reason == StreamDesync then 0
      else if reason == InvalidRequest then 2 else 1
  }

  function Weights(out: seq<Output>): nat {
    if out == [] then 0 else Weights(out[..|out| - 1]) + Weight(out[|out| - 1])
  }

  lemma {:induction false} WeightsConcat(a: seq<Output>, b: seq<Output>)
    ensures Weights(a + b) == Weights(a) + Weights(b)
    decreases |b|
  {
    if b == [] {
      assert a + b == a;
    } else {
      WeightsConcat(a, b[..|b| - 1]);
      assert (a + b)[..|a + b| - 1] == a + b[..|b| - 1];
    }
  }

  /** How many request blocks there are. */
  function Requests(c: Config, bs: seq<Block>): nat {
    if bs == [] then 0
    else Requests(c, bs[..|bs| - 1]) + (if HeadOf(c, bs[|bs| - 1].fields).RequestHead? then 1 else 0)
  }

  lemma WeightsOne(o: Output)
    ensures Weights([o]) == Weight(o)
  {
    assert [o][..0] == [];
  }

  lemma PairConserves(c: Config, f: Fragment, streams: Streams, b: Block)
    ensures var p := PairBlock(c, f, streams, b);
            |p.streams| + Weights(p.out) == |streams| + (if HeadOf(c, b.fields).RequestHead? then 1 else 0)
  {
    hide HeadOf, Weights, PairBlock;
    match HeadOf(c, b.fields)
    case RequestHead(m, path) => PairRequest(c, f, streams, b, m, path);
    case ResponseHead(status) => PairResponse(c, f, streams, b, status);
    case NoHead => PairNothing(c, f, streams, b);
  }

  lemma PairNothing(c: Config, f: Fragment, streams: Streams, b: Block)
    requires HeadOf(c, b.fields).NoHead?
    ensures var p := PairBlock(c, f, streams, b); |p.streams| + Weights(p.out) == |streams|
  {
    hide HeadOf;
  }

  lemma PairRequest(c: Config, f: Fragment, streams: Streams, b: Block, m: Text, path: Text)
    requires HeadOf(c, b.fields) == RequestHead(m, path)
    ensures var p := PairBlock(c, f, streams, b); |p.streams| + Weights(p.out) == |streams| + 1
  {
    hide HeadOf, Weights, RequestKey, ResponseKey;
    NoWeight();
    WeightsOne(NewDrop(f, PlainHttp2, InvalidRequest));
    WeightsOne(NewDrop(f, PlainHttp2, StateCapacity));
    SizeWithout(streams, StreamKey(RequestKey(f), b.stream));
    SizeWith(streams, StreamKey(RequestKey(f), b.stream), Pending(b.origin.ns, m, path, b.origin.identity));
  }

  lemma PairResponse(c: Config, f: Fragment, streams: Streams, b: Block, status: nat)
    requires HeadOf(c, b.fields) == ResponseHead(status)
    ensures var p := PairBlock(c, f, streams, b); |p.streams| + Weights(p.out) == |streams|
  {
    hide HeadOf, Weights, RequestKey, ResponseKey;
    NoWeight();
    var k := StreamKey(ResponseKey(f), b.stream);
    SizeWithout(streams, k);
    WeightsOne(NewDrop(f, PlainHttp2, InvalidLatency));
    if k in streams && b.origin.ns > streams[k].startedNS {
      WeightsOne(Completed(f, streams[k], PlainHttp2, status, b.stream, b.origin.ns));
    }
  }

  lemma NoWeight()
    ensures Weights([]) == 0
  {
  }

  /** The stream a header block is about. */
  function KeyOf(c: Config, f: Fragment, b: Block): StreamKey {
    StreamKey(if HeadOf(c, b.fields).RequestHead? then RequestKey(f) else ResponseKey(f), b.stream)
  }

  /** The records that close a stream; the others refuse a request that never waited. */
  predicate ClosesStream(o: Output) {
    o.Done? || o.reason == InvalidRequest || o.reason == InvalidLatency
  }

  /** A block removes no stream but its own, and exactly when it puts out a closing record, its only one;
      a completed one tells method, path, identity and stream of what waited. */
  lemma RemovedStreamIsReported(c: Config, f: Fragment, streams: Streams, b: Block, k: StreamKey)
    requires k in streams
    ensures var p := PairBlock(c, f, streams, b);
            && (k !in p.streams <==> k == KeyOf(c, f, b) && p.out != [] && ClosesStream(p.out[0]))
            && |p.out| <= 1
            && (k !in p.streams && p.out[0].Done? ==>
                  var t := p.out[0].transaction;
                  (t.method_, t.path, t.identity, t.stream) == (streams[k].method_, streams[k].path, streams[k].identity, k.stream))
  {
    hide HeadOf, RequestKey, ResponseKey;
  }

  /** A sweep removes exactly the streams it reports, each with a drop that names its connection. */
  lemma SweptStreamIsReported<D>(c: Config, s: State<D>, f: Fragment, k: StreamKey)
    requires ValidConfig(c) && k in s.http2
    ensures k !in Swept(c, s, f).http2 <==> k in TimedOut2(c, s, f)
    ensures k in TimedOut2(c, s, f) ==>
              var o := TimedOut2(c, s, f)[k];
              o.Drop? && o.reason == ResponseTimeout && (o.nodeName, o.observerPID, o.source) ==
                (k.connection.nodeName, k.connection.observerPID, k.connection.source)
  {
    hide TimestampNS;
  }

  /** Every request block is waiting afterwards or accounted for by a record. */
  lemma {:induction false} PairsConserve(c: Config, f: Fragment, streams: Streams, bs: seq<Block>)
    ensures var p := PairBlocks(c, f, streams, bs); |p.streams| + Weights(p.out) == |streams| + Requests(c, bs)
    decreases |bs|
  {
    if bs != [] {
      var n := |bs| - 1;
      var before := PairBlocks(c, f, streams, bs[..n]);
      PairsConserve(c, f, streams, bs[..n]);
      PairConserves(c, f, before.streams, bs[n]);
      WeightsConcat(before.out, PairBlock(c, f, before.streams, bs[n]).out);
      hide PairBlock, HeadOf;
    }
  }

  /** What a fragment brings to HTTP/2: its request blocks; or a connection there is no room for. */
  function Arrivals<D>(hpack: Hpack<D>, decoder: D, c: Config, s: State<D>, f: Fragment): nat {
    if !IsHttp2(s, f) then 0
    else if MakeTransportKey(f) in s.http2Connections then Requests(c, FedBlocks(hpack, decoder, c, s, f, f.payload))
    else if TrackedConnections(s) >= c.maxTracked then 1
    else Requests(c, FedBlocks(hpack, decoder, c, s, f, f.payload[|PREFACE|..]))
  }

  /** The blocks a fragment completes in its direction. */
  function FedBlocks<D>(hpack: Hpack<D>, decoder: D, c: Config, s: State<D>, f: Fragment, payload: seq<byte>): seq<Block> {
    var d := DirectionOf(f);
    var t := if d in s.http2Directions then s.http2Directions[d] else NewDirection(decoder);
    FeedTrack(hpack, c, t, f, payload).blocks
  }

  lemma TrackedConserves<D>(hpack: Hpack<D>, decoder: D, c: Config, s: State<D>, f: Fragment, payload: seq<byte>)
    ensures var e := HandleTracked(hpack, decoder, c, s, f, payload);
            |e.state.http2| + Weights(e.out) == |s.http2| + Requests(c, FedBlocks(hpack, decoder, c, s, f, payload))
  {
    hide FeedOne, PairBlocks, Requests, TimestampNS, MakeTransportKey, DirectionOf, IdentityFrom, Weights;
    var bs := FedBlocks(hpack, decoder, c, s, f, payload);
    PairsConserve(c, f, s.http2, bs);
    WeightsOne(NewDrop(f, PlainHttp2, StreamDesync));
    assert Requests(c, []) == 0 by {
      NoRequests(c);
    }
  }

  lemma NoRequests(c: Config)
    ensures Requests(c, []) == 0
  {
  }

  lemma Http1HasNoWeight<D>(c: Config, s: State<D>, f: Fragment)
    ensures Weights(HandleHttp1(c, s, f).out) == 0 && HandleHttp1(c, s, f).state.http2 == s.http2
  {
    hide ParseRequest, ParseResponse, Pipelined, TimestampNS, IdentityFrom, RequestKey, ResponseKey, Weights;
    NoWeight();
    var out := HandleHttp1(c, s, f).out;
    if out != [] {
      WeightsOne(out[0]);
      assert out == [out[0]];
    }
  }

  lemma HandleConserves<D>(hpack: Hpack<D>, decoder: D, c: Config, s: State<D>, f: Fragment)
    ensures var e := Handle(hpack, decoder, c, s, f);
            |e.state.http2| + Weights(e.out) == |s.http2| + Arrivals(hpack, decoder, c, s, f)
  {
    hide HandleHttp1, HandleTracked, FedBlocks, Requests, Weights, TrackedConnections;
    if !IsHttp2(s, f) {
      Http1HasNoWeight(c, s, f);
    } else if MakeTransportKey(f) in s.http2Connections {
      TrackedConserves(hpack, decoder, c, s, f, f.payload);
    } else if TrackedConnections(s) >= c.maxTracked {
      WeightsOne(NewDrop(f, PlainHttp2, StateCapacity));
    } else {
      TrackedConserves(hpack, decoder, c, s, f, f.payload[|PREFACE|..]);
    }
  }

  /** A sweep takes out exactly the streams it reports as timed out. */
  lemma SweepConserves<D>(c: Config, s: State<D>, f: Fragment)
    requires ValidConfig(c)
    ensures |Swept(c, s, f).http2| + |TimedOut2(c, s, f)| == |s.http2|
    ensures |Swept(c, s, f).http1| + |TimedOut1(c, s, f)| == |s.http1|
  {
    var now := TimestampNS(f);
    if Sweeps(c, s, f) {
      Parted(s.http2, StartedBy(now, c.ttl), TimedOut2(c, s, f).Keys);
      Parted(s.http1, StartedBy(now, c.ttl), TimedOut1(c, s, f).Keys);
    }
  }

  lemma Parted<K, V>(m: map<K, V>, p: V -> bool, gone: set<K>)
    requires gone == set k | k in m && p(m[k])
    ensures |Others(m, p)| + |gone| == |m|
  {
    assert m.Keys == Others(m, p).Keys + gone && Others(m, p).Keys !! gone;
  }

  /** All that a run brought to HTTP/2, and all that its records account for. */
  function Arrived<D>(hpack: Hpack<D>, decoder: D, c: Config, fs: seq<Fragment>): nat
    requires ValidConfig(c)
  {
    if fs == [] then 0
    else
      var n := |fs| - 1;
      Arrived(hpack, decoder, c, fs[..n]) + Arrivals(hpack, decoder, c, At(hpack, decoder, c, fs, n), fs[n])
  }

  function Settled<D>(hpack: Hpack<D>, decoder: D, c: Config, fs: seq<Fragment>): nat
    requires ValidConfig(c)
  {
    if fs == [] then 0
    else
      var n := |fs| - 1;
      Settled(hpack, decoder, c, fs[..n]) + |TimedOut2(c, Run(hpack, decoder, c, fs[..n]), fs[n])|
      + Weights(Handle(hpack, decoder, c, At(hpack, decoder, c, fs, n), fs[n]).out)
  }

  /** HTTP/2 conservation: every request block decoded in a run (and every connection refused) is
      accounted for by the run's records, timeouts included, or its stream is still waiting. */
  lemma {:induction false} Http2Conserves<D>(hpack: Hpack<D>, decoder: D, c: Config, fs: seq<Fragment>)
    requires ValidConfig(c)
    ensures Arrived(hpack, decoder, c, fs) == Settled(hpack, decoder, c, fs) + |Run(hpack, decoder, c, fs).http2|
    decreases |fs|
  {
    if fs != [] {
      var n := |fs| - 1;
      Http2Conserves(hpack, decoder, c, fs[..n]);
      SweepConserves(c, Run(hpack, decoder, c, fs[..n]), fs[n]);
      HandleConserves(hpack, decoder, c, At(hpack, decoder, c, fs, n), fs[n]);
      hide Handle, Arrivals, Weights, TimedOut2, Swept;
    }
  }
}
