/** Which HTTP/2 request block each HTTP/2 transaction belongs to. */
module L7Streams {
  import opened Base
  import opened L7Fragment
  import opened Http2
  import opened L7
  import opened L7Pairing

  /** A header block and the fragment that completed it. */
  datatype Event = Event(f: Fragment, b: Block)

  function EventsOf(f: Fragment, bs: seq<Block>): (es: seq<Event>)
    ensures |es| == |bs| && forall i :: 0 <= i < |bs| ==> es[i] == Event(f, bs[i])
  {
    seq(|bs|, i requires 0 <= i < |bs| => Event(f, bs[i]))
  }

  /** The block is a request on k. */
  predicate Opens(c: Config, e: Event, k: StreamKey) {
    HeadOf(c, e.b.fields).RequestHead? && StreamKey(RequestKey(e.f), e.b.stream) == k
  }

  /** The block is a request or a final response on k. */
  predicate Touches(c: Config, e: Event, k: StreamKey) {
    match HeadOf(c, e.b.fields)
    case RequestHead(_, _) => StreamKey(RequestKey(e.f), e.b.stream) == k
    case ResponseHead(status) => StreamKey(ResponseKey(e.f), e.b.stream) == k && status >= 200
    case NoHead => false
  }

  /** The entry of a request block: its own origin, method and path. */
  function OpenedBy(c: Config, e: Event): Pending
    requires HeadOf(c, e.b.fields).RequestHead?
  {
    var head := HeadOf(c, e.b.fields);
    Pending(e.b.origin.ns, head.method_, head.path, e.b.origin.identity)
  }

  /** p was opened by the last block that touched k. */
  ghost predicate FromLog(c: Config, log: seq<Event>, k: StreamKey, p: Pending) {
    exists i :: IsLastTouch(c, log, k, i) && p == OpenedBy(c, log[i])
  }

  ghost predicate IsLastTouch(c: Config, log: seq<Event>, k: StreamKey, i: int) {
    && 0 <= i < |log| && Opens(c, log[i], k)
    && forall j :: i < j < |log| ==> !Touches(c, log[j], k)
  }

  ghost predicate AllFromLog(c: Config, log: seq<Event>, streams: Streams) {
    forall k :: k in streams ==> FromLog(c, log, k, streams[k])
  }

  lemma StaysInLog(c: Config, log: seq<Event>, e: Event, k: StreamKey, p: Pending)
    requires FromLog(c, log, k, p) && !Touches(c, e, k)
    ensures FromLog(c, log + [e], k, p)
  {
    hide Touches;
    var i :| IsLastTouch(c, log, k, i) && p == OpenedBy(c, log[i]);
    var more := log + [e];
    forall j | i < j < |more| ensures !Touches(c, more[j], k) {
      assert more[j] == if j < |log| then log[j] else e;
    }
    assert more[i] == log[i] && IsLastTouch(c, more, k, i);
  }

  lemma EntersLog(c: Config, log: seq<Event>, e: Event, k: StreamKey)
    requires Opens(c, e, k)
    ensures FromLog(c, log + [e], k, OpenedBy(c, e))
  {
    var more := log + [e];
    assert more[|log|] == e && IsLastTouch(c, more, k, |log|);
  }

  /** What one block does to the waiting streams. */
  lemma StreamAfterBlock(c: Config, streams: Streams, e: Event, k: StreamKey)
    requires k in PairBlock(c, e.f, streams, e.b).streams
    ensures var p := PairBlock(c, e.f, streams, e.b).streams[k];
            || (Opens(c, e, k) && p == OpenedBy(c, e))
            || (!Touches(c, e, k) && k in streams && p == streams[k])
  {
    hide HeadOf, RequestKey, ResponseKey, Completed;
  }

  lemma BlockKeepsLog(c: Config, log: seq<Event>, streams: Streams, e: Event)
    requires AllFromLog(c, log, streams)
    ensures AllFromLog(c, log + [e], PairBlock(c, e.f, streams, e.b).streams)
  {
    var t := PairBlock(c, e.f, streams, e.b).streams;
    hide PairBlock, Touches, FromLog;
    forall k | k in t ensures FromLog(c, log + [e], k, t[k]) {
      StreamAfterBlock(c, streams, e, k);
      if Opens(c, e, k) && t[k] == OpenedBy(c, e) {
        EntersLog(c, log, e, k);
      } else {
        StaysInLog(c, log, e, k, streams[k]);
      }
    }
  }

  lemma {:induction false} BlocksKeepLog(c: Config, log: seq<Event>, f: Fragment, streams: Streams, bs: seq<Block>)
    requires AllFromLog(c, log, streams)
    ensures AllFromLog(c, log + EventsOf(f, bs), PairBlocks(c, f, streams, bs).streams)
    decreases |bs|
  {
    hide PairBlock, AllFromLog;
    if bs == [] {
      assert log + EventsOf(f, bs) == log;
    } else {
      var n := |bs| - 1;
      BlocksKeepLog(c, log, f, streams, bs[..n]);
      BlockKeepsLog(c, log + EventsOf(f, bs[..n]), PairBlocks(c, f, streams, bs[..n]).streams, Event(f, bs[n]));
      assert log + EventsOf(f, bs) == log + EventsOf(f, bs[..n]) + [Event(f, bs[n])];
    }
  }

  // ---------- Runs ----------

  /** The blocks a fragment brings to the pairing, after the sweep. */
  function PairedBlocks<D>(hpack: Hpack<D>, decoder: D, c: Config, s: State<D>, f: Fragment): seq<Block> {
    if !IsHttp2(s, f) then []
    else if MakeTransportKey(f) in s.http2Connections then FedBlocks(hpack, decoder, c, s, f, f.payload)
    else if TrackedConnections(s) >= c.maxTracked then []
    else FedBlocks(hpack, decoder, c, s, f, f.payload[|PREFACE|..])
  }

  lemma LostHasNoBlocks<D>(hpack: Hpack<D>, c: Config, t: Tracked<D>, f: Fragment, payload: seq<byte>)
    ensures FeedTrack(hpack, c, t, f, payload).lost ==> FeedTrack(hpack, c, t, f, payload).blocks == []
  {
    hide FeedOne, TimestampNS, IdentityFrom;
  }

  lemma TrackedStreams<D>(hpack: Hpack<D>, decoder: D, c: Config, s: State<D>, f: Fragment, payload: seq<byte>)
    ensures HandleTracked(hpack, decoder, c, s, f, payload).state.http2
            == PairBlocks(c, f, s.http2, FedBlocks(hpack, decoder, c, s, f, payload)).streams
  {
    var d := DirectionOf(f);
    LostHasNoBlocks(hpack, c, if d in s.http2Directions then s.http2Directions[d] else NewDirection(decoder), f, payload);
    hide FeedTrack, PairBlock, TimestampNS, MakeTransportKey, DirectionOf, NewDirection;
  }

  lemma HandledStreams<D>(hpack: Hpack<D>, decoder: D, c: Config, s: State<D>, f: Fragment)
    ensures Handle(hpack, decoder, c, s, f).state.http2 == PairBlocks(c, f, s.http2, PairedBlocks(hpack, decoder, c, s, f)).streams
  {
    hide HandleHttp1, HandleTracked, FedBlocks, PairBlock, TrackedConnections;
    if !IsHttp2(s, f) {
      Http1HasNoWeight(c, s, f);
    } else if MakeTransportKey(f) in s.http2Connections {
      TrackedStreams(hpack, decoder, c, s, f, f.payload);
    } else if TrackedConnections(s) < c.maxTracked {
      TrackedStreams(hpack, decoder, c, s, f, f.payload[|PREFACE|..]);
    }
  }

  /** All blocks paired in a run, in order. */
  function Log<D>(hpack: Hpack<D>, decoder: D, c: Config, fs: seq<Fragment>): seq<Event>
    requires ValidConfig(c)
  {
    if fs == [] then []
    else
      var n := |fs| - 1;
      Log(hpack, decoder, c, fs[..n]) + EventsOf(fs[n], PairedBlocks(hpack, decoder, c, At(hpack, decoder, c, fs, n), fs[n]))
  }

  lemma SweptKeepsLog<D>(c: Config, log: seq<Event>, s: State<D>, f: Fragment)
    requires ValidConfig(c) && AllFromLog(c, log, s.http2)
    ensures AllFromLog(c, log, Swept(c, s, f).http2)
  {
    hide FromLog, TimestampNS;
  }

  /** Every waiting stream was opened by the last block of the run that touched it. */
  lemma {:induction false} StreamsAreFromLog<D>(hpack: Hpack<D>, decoder: D, c: Config, fs: seq<Fragment>)
    requires ValidConfig(c)
    ensures AllFromLog(c, Log(hpack, decoder, c, fs), Run(hpack, decoder, c, fs).http2)
    decreases |fs|
  {
    if fs != [] {
      var n := |fs| - 1;
      var log, s := Log(hpack, decoder, c, fs[..n]), At(hpack, decoder, c, fs, n);
      StreamsAreFromLog(hpack, decoder, c, fs[..n]);
      hide AllFromLog, PairBlocks, PairedBlocks, Handle, Swept;
      SweptKeepsLog(c, log, Run(hpack, decoder, c, fs[..n]), fs[n]);
      BlocksKeepLog(c, log, fs[n], s.http2, PairedBlocks(hpack, decoder, c, s, fs[n]));
      HandledStreams(hpack, decoder, c, s, fs[n]);
    }
  }

  /** How an HTTP/2 transaction comes about. */
  lemma DoneHasStream(c: Config, streams: Streams, e: Event, o: Output)
    requires o in PairBlock(c, e.f, streams, e.b).out && o.Done?
    ensures HeadOf(c, e.b.fields).ResponseHead?
    ensures var k, status := StreamKey(ResponseKey(e.f), e.b.stream), HeadOf(c, e.b.fields).status;
            && status >= 200 && k in streams && e.b.origin.ns > streams[k].startedNS
            && o == Completed(e.f, streams[k], PlainHttp2, status, e.b.stream, e.b.origin.ns)
  {
    hide HeadOf, RequestKey, ResponseKey, Completed;
  }

  /** The transaction of block e uses origin, method and path of the request block at i, the last to
      touch its stream, and its latency is the positive difference of their times. */
  ghost predicate PairsWith(c: Config, log: seq<Event>, i: int, e: Event, t: Transaction) {
    && IsLastTouch(c, log, StreamKey(ResponseKey(e.f), e.b.stream), i)
    && var r := OpenedBy(c, log[i]);
       && (t.method_, t.path, t.identity) == (r.method_, r.path, log[i].b.origin.identity)
       && log[i].b.origin.ns < e.b.origin.ns
       && t.latencyMicros == (e.b.origin.ns - log[i].b.origin.ns) / 1000
       && (t.flow.source, t.flow.destination) == (log[i].f.sourceEndpoint, log[i].f.destinationEndpoint)
       && HeadOf(c, e.b.fields) == ResponseHead(t.statusCode)
  }

  lemma DonePairs(c: Config, log: seq<Event>, streams: Streams, e: Event, o: Output)
    requires AllFromLog(c, log, streams) && o in PairBlock(c, e.f, streams, e.b).out && o.Done?
    ensures exists i :: PairsWith(c, log, i, e, o.transaction)
  {
    DoneHasStream(c, streams, e, o);
    hide PairBlock, HeadOf, Touches;
    var k := StreamKey(ResponseKey(e.f), e.b.stream);
    assert FromLog(c, log, k, streams[k]);
    var i :| IsLastTouch(c, log, k, i) && streams[k] == OpenedBy(c, log[i]);
    assert RequestKey(log[i].f) == ResponseKey(e.f);
    assert PairsWith(c, log, i, e, o.transaction);
  }

  /** HTTP/2 pairing: a transaction uses origin, method and path of one earlier request block on its
      stream; no block in between was a request or a final response on that stream; and its latency is
      the positive difference of the times at which the two HEADERS frames began. */
  lemma Http2PairsOneRequest<D>(hpack: Hpack<D>, decoder: D, c: Config, fs: seq<Fragment>, f: Fragment, n: nat, o: Output)
    requires ValidConfig(c)
    requires var s := Swept(c, Run(hpack, decoder, c, fs), f);
             var bs := PairedBlocks(hpack, decoder, c, s, f);
             n < |bs| && o in PairBlock(c, f, PairBlocks(c, f, s.http2, bs[..n]).streams, bs[n]).out && o.Done?
    ensures var bs := PairedBlocks(hpack, decoder, c, Swept(c, Run(hpack, decoder, c, fs), f), f);
            exists i :: PairsWith(c, Log(hpack, decoder, c, fs) + EventsOf(f, bs[..n]), i, Event(f, bs[n]), o.transaction)
  {
    hide Run, Swept, PairedBlocks, PairBlocks, PairBlock, Log, EventsOf, AllFromLog, PairsWith;
    var run, log := Run(hpack, decoder, c, fs), Log(hpack, decoder, c, fs);
    var s := Swept(c, run, f);
    var bs := PairedBlocks(hpack, decoder, c, s, f);
    StreamsAreFromLog(hpack, decoder, c, fs);
    SweptKeepsLog(c, log, run, f);
    BlocksKeepLog(c, log, f, s.http2, bs[..n]);
    DonePairs(c, log + EventsOf(f, bs[..n]), PairBlocks(c, f, s.http2, bs[..n]).streams, Event(f, bs[n]), o);
  }
}
