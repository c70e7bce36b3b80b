/** What every run of the plaintext HTTP correlator keeps. */
module L7Safety {
  import opened L7Fragment
  import opened Lists
  import opened Http1
  import opened Http2
  import opened L7

  // ---------- Bounds ----------

  /** The limits that hold in every state, and no key both pending and ambiguous. */
  ghost predicate Bounded<D>(c: Config, s: State<D>) {
    && |s.http2| <= c.maxStreams
    && |s.http1| + |s.http2Connections| <= c.maxTracked
    && s.http1.Keys !! s.http1Ambiguous.Keys
  }

  lemma OthersSmaller<K, V>(m: map<K, V>, p: V -> bool)
    ensures |Others(m, p)| <= |m| && Others(m, p).Keys <= m.Keys
  {
    SubsetIsSmaller(Others(m, p).Keys, m.Keys);
  }

  lemma SweptBounded<D>(c: Config, s: State<D>, f: Fragment)
    requires ValidConfig(c) && Bounded(c, s)
    ensures Bounded(c, Swept(c, s, f))
  {
    if Sweeps(c, s, f) {
      var now := TimestampNS(f);
      OthersSmaller(s.http1, StartedBy(now, c.ttl));
      OthersSmaller(s.http1Ambiguous, SeenBy(now, c.ttl));
      OthersSmaller(s.http2Connections, SeenBy(now, c.ttl));
      OthersSmaller(s.http2, StartedBy(now, c.ttl));
      hide Others, TimestampNS;
    }
  }

  lemma SizeWith<K, V>(m: map<K, V>, k: K, v: V)
    ensures |m[k := v]| == if k in m then |m| else |m| + 1
  {
    assert m[k := v].Keys == m.Keys + {k};
  }

  lemma SizeWithout<K, V>(m: map<K, V>, k: K)
    ensures |m - {k}| == if k in m then |m| - 1 else |m|
  {
    assert (m - {k}).Keys == m.Keys - {k};
  }

  // The three ways an HTTP/1 message changes the state.

  function MadeAmbiguous<D>(s: State<D>, k: ConnectionKey, at: nat): State<D> {
    s.(http1 := s.http1 - {k}, http1Ambiguous := s.http1Ambiguous[k := at])
  }

  function Started<D>(s: State<D>, k: ConnectionKey, p: Pending): State<D> {
    s.(http1 := s.http1[k := p])
  }

  function Ended<D>(s: State<D>, k: ConnectionKey): State<D> {
    s.(http1 := s.http1 - {k})
  }

  /** The request makes its key ambiguous. */
  predicate Confuses<D>(c: Config, s: State<D>, f: Fragment) {
    && ParseRequest(f.payload, c.maxPath).Some? && RequestKey(f) !in s.http1Ambiguous
    && (Pipelined(f.payload, c.maxPath) || RequestKey(f) in s.http1)
  }

  /** The request starts waiting for its response. */
  predicate Starts<D>(c: Config, s: State<D>, f: Fragment) {
    && ParseRequest(f.payload, c.maxPath).Some? && !Pipelined(f.payload, c.maxPath)
    && RequestKey(f) !in s.http1Ambiguous && RequestKey(f) !in s.http1 && TrackedConnections(s) < c.maxTracked
  }

  /** The response ends a waiting request. */
  predicate Ends<D>(c: Config, s: State<D>, f: Fragment) {
    && ParseRequest(f.payload, c.maxPath).None? && ParseResponse(f.payload).Some?
    && var status := ParseResponse(f.payload).value;
       (status >= 200 || status == 101) && ResponseKey(f) in s.http1 && ResponseKey(f) !in s.http1Ambiguous
  }

  /** The pending entry of a request. */
  function PendingOf(c: Config, f: Fragment): Pending
    requires ParseRequest(f.payload, c.maxPath).Some?
  {
    var r := ParseRequest(f.payload, c.maxPath).value;
    Pending(TimestampNS(f), r.method_, r.path, IdentityFrom(f))
  }

  lemma Http1Cases<D>(c: Config, s: State<D>, f: Fragment)
    ensures HandleHttp1(c, s, f).state ==
            if Confuses(c, s, f) then MadeAmbiguous(s, RequestKey(f), TimestampNS(f))
            else if Starts(c, s, f) then Started(s, RequestKey(f), PendingOf(c, f))
            else if Ends(c, s, f) then Ended(s, ResponseKey(f))
            else s
  {
    hide ParseRequest, ParseResponse, Pipelined, TimestampNS, IdentityFrom, Completed, RequestKey, ResponseKey;
  }

  lemma AmbiguousBounded<D>(c: Config, s: State<D>, k: ConnectionKey, at: nat)
    requires Bounded(c, s) && k !in s.http1Ambiguous
    ensures var t := MadeAmbiguous(s, k, at);
            Bounded(c, t) && TrackedConnections(t) == TrackedConnections(s) + (if k in s.http1 then 0 else 1)
  {
    SizeWithout(s.http1, k);
    SizeWith(s.http1Ambiguous, k, at);
  }

  lemma StartedBounded<D>(c: Config, s: State<D>, k: ConnectionKey, p: Pending)
    requires Bounded(c, s) && k !in s.http1Ambiguous && k !in s.http1
    ensures TrackedConnections(Started(s, k, p)) == TrackedConnections(s) + 1
    ensures TrackedConnections(s) < c.maxTracked ==> Bounded(c, Started(s, k, p))
  {
    SizeWith(s.http1, k, p);
  }

  lemma EndedBounded<D>(c: Config, s: State<D>, k: ConnectionKey)
    requires Bounded(c, s)
    ensures Bounded(c, Ended(s, k)) && TrackedConnections(Ended(s, k)) <= TrackedConnections(s)
  {
    SizeWithout(s.http1, k);
  }

  lemma Http1Bounded<D>(c: Config, s: State<D>, f: Fragment)
    requires Bounded(c, s)
    ensures var t := HandleHttp1(c, s, f).state;
            && Bounded(c, t)
            && (TrackedConnections(t) > TrackedConnections(s) <==>
                Starts(c, s, f) || (Confuses(c, s, f) && RequestKey(f) !in s.http1))
  {
    hide ParseRequest, ParseResponse, Pipelined, TimestampNS, RequestKey, ResponseKey, Bounded, PendingOf, HandleHttp1,
         MadeAmbiguous, Started, Ended, TrackedConnections;
    Http1Cases(c, s, f);
    if Confuses(c, s, f) {
      AmbiguousBounded(c, s, RequestKey(f), TimestampNS(f));
    } else if Starts(c, s, f) {
      StartedBounded(c, s, RequestKey(f), PendingOf(c, f));
    } else if Ends(c, s, f) {
      EndedBounded(c, s, ResponseKey(f));
    }
  }

  lemma PairBounded(c: Config, f: Fragment, streams: Streams, b: Block)
    requires |streams| <= c.maxStreams
    ensures |PairBlock(c, f, streams, b).streams| <= c.maxStreams
  {
    hide HeadOf, Completed;
    match HeadOf(c, b.fields)
    case NoHead =>
    case RequestHead(m, path) =>
      SizeWithout(streams, StreamKey(RequestKey(f), b.stream));
      SizeWith(streams, StreamKey(RequestKey(f), b.stream), Pending(b.origin.ns, m, path, b.origin.identity));
    case ResponseHead(_) => SizeWithout(streams, StreamKey(ResponseKey(f), b.stream));
  }

  lemma {:induction false} PairsBounded(c: Config, f: Fragment, streams: Streams, bs: seq<Block>)
    requires |streams| <= c.maxStreams
    ensures |PairBlocks(c, f, streams, bs).streams| <= c.maxStreams
    decreases |bs|
  {
    if bs != [] {
      hide PairBlock;
      PairsBounded(c, f, streams, bs[..|bs| - 1]);
      PairBounded(c, f, PairBlocks(c, f, streams, bs[..|bs| - 1]).streams, bs[|bs| - 1]);
    }
  }

  lemma Http2Bounded<D>(hpack: Hpack<D>, decoder: D, c: Config, s: State<D>, f: Fragment)
    requires Bounded(c, s) && IsHttp2(s, f)
    ensures var t := HandleHttp2(hpack, decoder, c, s, f).state;
            Bounded(c, t) && (TrackedConnections(s) >= c.maxTracked ==> TrackedConnections(t) <= TrackedConnections(s))
  {
    hide TimestampNS, FeedTrack, PairBlocks, MakeTransportKey, DirectionOf;
    SizeWith(s.http2Connections, MakeTransportKey(f), TimestampNS(f));
    forall bs ensures |PairBlocks(c, f, s.http2, bs).streams| <= c.maxStreams {
      PairsBounded(c, f, s.http2, bs);
    }
  }

  lemma StepBounded<D>(hpack: Hpack<D>, decoder: D, c: Config, s: State<D>, f: Fragment)
    requires ValidConfig(c) && Bounded(c, s)
    ensures Bounded(c, Swept(c, s, f)) && Bounded(c, Step(hpack, decoder, c, s, f).state)
  {
    SweptBounded(c, s, f);
    hide Bounded, Swept, HandleHttp1, HandleHttp2;
    if IsHttp2(Swept(c, s, f), f) {
      Http2Bounded(hpack, decoder, c, Swept(c, s, f), f);
    } else {
      Http1Bounded(c, Swept(c, s, f), f);
    }
  }

  /** In every run the pending streams, and the pending HTTP/1 requests together with the HTTP/2
      connections, stay within their limits; and no HTTP/1 key is both pending and ambiguous. */
  lemma {:induction false} RunBounded<D>(hpack: Hpack<D>, decoder: D, c: Config, fs: seq<Fragment>)
    requires ValidConfig(c)
    ensures Bounded(c, Run(hpack, decoder, c, fs))
    decreases |fs|
  {
    if fs != [] {
      RunBounded(hpack, decoder, c, fs[..|fs| - 1]);
      hide Bounded, Step;
      StepBounded(hpack, decoder, c, Run(hpack, decoder, c, fs[..|fs| - 1]), fs[|fs| - 1]);
    }
  }

  // ---------- All tracked connections together are not bounded ----------

  /** A request with another behind it, on a key that is neither pending nor ambiguous. */
  predicate FreshPipelined<D>(c: Config, s: State<D>, f: Fragment) {
    && !IsHttp2(s, f) && ParseRequest(f.payload, c.maxPath).Some? && Pipelined(f.payload, c.maxPath)
    && RequestKey(f) !in s.http1 && RequestKey(f) !in s.http1Ambiguous
  }

  /** Once the limit is reached, a fragment makes the tracked total grow exactly if it is such a
      pipelined request: that branch does not check the capacity. */
  lemma GrowsBeyondExactly<D>(hpack: Hpack<D>, decoder: D, c: Config, s: State<D>, f: Fragment)
    requires Bounded(c, s) && TrackedConnections(s) >= c.maxTracked
    ensures TrackedConnections(Handle(hpack, decoder, c, s, f).state) > TrackedConnections(s) <==> FreshPipelined(c, s, f)
  {
    hide HandleHttp1, HandleHttp2, ParseRequest, ParseResponse, Pipelined, RequestKey, ResponseKey, Bounded, TrackedConnections, IsHttp2;
    if IsHttp2(s, f) {
      Http2Bounded(hpack, decoder, c, s, f);
    } else {
      Http1Bounded(c, s, f);
    }
  }
}
