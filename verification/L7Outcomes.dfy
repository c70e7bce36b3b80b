/** Which record each step of the HTTP correlator puts out, and when, said of fragments and header fields. */
module L7Outcomes {
  import opened Base
  import opened FlowTypes
  import opened L7Fragment
  import opened Order
  import opened Lists
  import opened Http1
  import opened Http2
  import opened L7
  import opened L7Safety

  // ---------- Which fragments belong together ----------

  predicate SameObserver(f: Fragment, g: Fragment) {
    f.nodeName == g.nodeName && f.observerPID == g.observerPID && f.source == g.source
  }

  predicate SameWay(f: Fragment, g: Fragment) {
    SameObserver(f, g) && f.sourceEndpoint == g.sourceEndpoint && f.destinationEndpoint == g.destinationEndpoint
  }

  predicate OtherWay(f: Fragment, g: Fragment) {
    SameObserver(f, g) && f.sourceEndpoint == g.destinationEndpoint && f.destinationEndpoint == g.sourceEndpoint
  }

  /** A request waits under the key of its own way; a response looks for it the other way. */
  lemma ConnectionKeysExactly(f: Fragment, g: Fragment)
    ensures RequestKey(f) == RequestKey(g) <==> SameWay(f, g)
    ensures ResponseKey(f) == RequestKey(g) <==> OtherWay(f, g)
  {
  }

  lemma OrderedEndpoints(a: Endpoint, b: Endpoint)
    ensures !(EndpointLess(a, b) && EndpointLess(b, a))
    ensures EndpointLess(a, b) || EndpointLess(b, a) || a == b
  {
    TextOrder(a.address, b.address, []);
  }

  /** A connection is the same for exactly the fragments of its two ways; a direction for those of one. */
  lemma TransportKeysExactly(f: Fragment, g: Fragment)
    ensures MakeTransportKey(f) == MakeTransportKey(g) <==> SameWay(f, g) || OtherWay(f, g)
    ensures DirectionOf(f) == DirectionOf(g) <==> SameWay(f, g)
  {
    OrderedEndpoints(f.sourceEndpoint, f.destinationEndpoint);
    OrderedEndpoints(g.sourceEndpoint, g.destinationEndpoint);
    hide EndpointLess;
  }

  /** The time of a fragment is the kernel's; without one it is the wall clock's, in nanoseconds of Unix time. */
  lemma TimeExactly(f: Fragment, n: nat)
    ensures f.kernelTimestampNS != 0 ==> TimestampNS(f) == f.kernelTimestampNS
    ensures f.kernelTimestampNS == 0 && f.observedAt == 0 ==> TimestampNS(f) == 0
    ensures f.kernelTimestampNS == 0 && f.observedAt == 62_135_596_800 * 1_000_000_000 + n && n < WORD ==> TimestampNS(f) == n
  {
  }

  /** The identity taken of a fragment is its own, less the command line. */
  lemma IdentityTells(f: Fragment)
    ensures var i := IdentityFrom(f);
            && (i.source, i.sourcePod) == (f.sourceResolved, f.sourcePod)
            && (i.destination, i.destinationPod) == (f.destinationResolved, f.destinationPod)
            && i.observerPod == f.observerPod && (i.process.Some? <==> f.process.Some?)
            && (f.process.Some? ==> i.process.value == f.process.value.(cmdline := ""))
  {
  }

  // ---------- Records ----------

  /** A drop of this protocol and reason, told of the fragment. */
  predicate IsDropOf(o: Output, f: Fragment, protocol: Protocol, reason: Reason) {
    o == Drop(f.observedAt, f.nodeName, f.observerPID, protocol, f.source, reason)
  }

  /** The transaction of the request that waited, told by the response: from the response's receiver to its
      sender, with the response's status and the time between them in microseconds. */
  predicate IsTransactionOf(o: Output, f: Fragment, p: Pending, protocol: Protocol, status: nat, stream: nat, done: nat) {
    && o.Done? && done > p.startedNS
    && var t := o.transaction;
       && t.observedAt == f.observedAt && t.observerPID == f.observerPID && t.source == f.source
       && t.flow == FlowKey(f.nodeName, "tcp", "client-to-server", f.destinationEndpoint, f.sourceEndpoint)
       && t.protocol == protocol && t.statusCode == status && t.stream == stream
       && t.method_ == p.method_ && t.path == p.path && t.identity == p.identity
       && t.latencyMicros == (done - p.startedNS) / 1000
  }

  // ---------- HTTP/1 ----------

  /** A request on a key that is not ambiguous. */
  predicate Asks<D>(c: Config, s: State<D>, f: Fragment) {
    ParseRequest(f.payload, c.maxPath).Some? && RequestKey(f) !in s.http1Ambiguous
  }

  /** A request that cannot be paired: another begins behind it, or one is still waiting. */
  predicate Overlaps<D>(c: Config, s: State<D>, f: Fragment) {
    Asks(c, s, f) && (Pipelined(f.payload, c.maxPath) || RequestKey(f) in s.http1)
  }

  predicate Exceeds<D>(c: Config, s: State<D>, f: Fragment) {
    Asks(c, s, f) && !Overlaps(c, s, f) && |s.http1| + |s.http1Ambiguous| + |s.http2Connections| >= c.maxTracked
  }

  /** A request that starts to wait. */
  predicate Begins<D>(c: Config, s: State<D>, f: Fragment) {
    Asks(c, s, f) && !Overlaps(c, s, f) && !Exceeds(c, s, f)
  }

  /** A response to a request that waits. */
  predicate Responds<D>(c: Config, s: State<D>, f: Fragment) {
    && ParseRequest(f.payload, c.maxPath).None? && ParseResponse(f.payload).Some?
    && ResponseKey(f) in s.http1 && ResponseKey(f) !in s.http1Ambiguous
  }

  predicate Upgrades<D>(c: Config, s: State<D>, f: Fragment) {
    Responds(c, s, f) && ParseResponse(f.payload).value == 101
  }

  predicate Finishes<D>(c: Config, s: State<D>, f: Fragment) {
    Responds(c, s, f) && ParseResponse(f.payload).value >= 200
  }

  predicate Completes<D>(c: Config, s: State<D>, f: Fragment) {
    Finishes(c, s, f) && s.http1[ResponseKey(f)].startedNS < TimestampNS(f)
  }

  /** An HTTP/1 message puts out one transaction exactly if it is a final response, later than the request
      that waits for it; an upgrade drop exactly if it is a 101 response to one; an overlap or capacity drop
      exactly if it is a request that cannot be paired or has no room; and nothing else ever. */
  lemma Http1RecordsExactly<D>(c: Config, s: State<D>, f: Fragment)
    ensures var out := HandleHttp1(c, s, f).out;
            && |out| == (if Completes(c, s, f) || Upgrades(c, s, f) || Overlaps(c, s, f) || Exceeds(c, s, f) then 1 else 0)
            && (Completes(c, s, f) ==>
                  IsTransactionOf(out[0], f, s.http1[ResponseKey(f)], PlainHttp1, ParseResponse(f.payload).value, 0, TimestampNS(f)))
            && (Upgrades(c, s, f) ==> IsDropOf(out[0], f, PlainHttp1, ProtocolUpgrade))
            && (Overlaps(c, s, f) ==> IsDropOf(out[0], f, PlainHttp1, OverlappingRequest))
            && (Exceeds(c, s, f) ==> IsDropOf(out[0], f, PlainHttp1, StateCapacity))
  {
    hide ParseRequest, ParseResponse, Pipelined, TimestampNS, IdentityFrom, RequestKey, ResponseKey;
  }

  /** What waits afterwards, and what is ambiguous: an overlapping request stops waiting and makes its key
      ambiguous, a finished or upgraded one stops waiting, a new one waits with its own time, method, path
      and identity; nothing else changes. */
  lemma Http1WaitsExactly<D>(c: Config, s: State<D>, f: Fragment)
    ensures HandleHttp1(c, s, f).state ==
            if Overlaps(c, s, f) then
              s.(http1 := s.http1 - {RequestKey(f)}, http1Ambiguous := s.http1Ambiguous[RequestKey(f) := TimestampNS(f)])
            else if Finishes(c, s, f) || Upgrades(c, s, f) then s.(http1 := s.http1 - {ResponseKey(f)})
            else if Begins(c, s, f) then
              var r := ParseRequest(f.payload, c.maxPath).value;
              s.(http1 := s.http1[RequestKey(f) := Pending(TimestampNS(f), r.method_, r.path, IdentityFrom(f))])
            else s
  {
    Http1Cases(c, s, f);
    CasesAgree(c, s, f);
    hide HandleHttp1, ParseRequest, ParseResponse, Pipelined, TimestampNS, IdentityFrom, RequestKey, ResponseKey;
    hide Overlaps, Finishes, Upgrades, Confuses, Starts, Ends;
  }

  lemma CasesAgree<D>(c: Config, s: State<D>, f: Fragment)
    ensures Overlaps(c, s, f) <==> Confuses(c, s, f)
    ensures Finishes(c, s, f) || Upgrades(c, s, f) <==> Ends(c, s, f)
    ensures Begins(c, s, f) <==> Starts(c, s, f)
    ensures Begins(c, s, f) ==> ParseRequest(f.payload, c.maxPath).Some?
    ensures Ends(c, s, f) ==> !Confuses(c, s, f) && !Starts(c, s, f)
  {
    hide ParseRequest, ParseResponse, Pipelined, RequestKey, ResponseKey;
  }

  // ---------- Sweeps ----------

  predicate SweepDue<D>(c: Config, s: State<D>, f: Fragment)
    requires ValidConfig(c)
  {
    (s.processed + 1) % WORD % c.sweepEvery == 0 && TimestampNS(f) != 0
  }

  /** An entry of this time survives a sweep at `now`: its time is unknown, or less than the lifetime ago. */
  predicate Survives(c: Config, now: nat, at: nat) {
    at == 0 || now - at < c.ttl || now < at
  }

  function Surviving<K, V>(c: Config, now: nat, m: map<K, V>, time: V -> nat): map<K, V> {
    map k | k in m && Survives(c, now, time(m[k])) :: m[k]
  }

  function StartOf(p: Pending): nat {
    p.startedNS
  }

  function Itself(at: nat): nat {
    at
  }

  function LastSeen<D>(t: Tracked<D>): nat {
    t.lastSeenNS
  }

  lemma OthersSurvive<K, V>(c: Config, now: nat, m: map<K, V>, p: V -> bool, time: V -> nat)
    requires forall v :: p(v) <==> !Survives(c, now, time(v))
    ensures Others(m, p) == Surviving(c, now, m, time)
  {
  }

  /** A sweep, due with every sweepEvery-th fragment that has a time, removes exactly the entries that are as
      old as the lifetime, from all five maps. */
  lemma SweepsExactly<D>(c: Config, s: State<D>, f: Fragment)
    requires ValidConfig(c)
    ensures var t, now := Swept(c, s, f), TimestampNS(f);
            && t.processed == (s.processed + 1) % WORD
            && if !SweepDue(c, s, f) then t == s.(processed := t.processed)
               else
                 && t.http1 == Surviving(c, now, s.http1, StartOf)
                 && t.http1Ambiguous == Surviving(c, now, s.http1Ambiguous, Itself)
                 && t.http2Connections == Surviving(c, now, s.http2Connections, Itself)
                 && t.http2Directions == Surviving(c, now, s.http2Directions, LastSeen)
                 && t.http2 == Surviving(c, now, s.http2, StartOf)
  {
    hide TimestampNS;
    if SweepDue(c, s, f) {
      var now := TimestampNS(f);
      OthersSurvive(c, now, s.http1, StartedBy(now, c.ttl), StartOf);
      OthersSurvive(c, now, s.http1Ambiguous, SeenBy(now, c.ttl), Itself);
      OthersSurvive(c, now, s.http2Connections, SeenBy(now, c.ttl), Itself);
      OthersSurvive(c, now, s.http2Directions, LastSeenBy(now, c.ttl), LastSeen);
      OthersSurvive(c, now, s.http2, StartedBy(now, c.ttl), StartOf);
      hide Others, Surviving, StartedBy, SeenBy, LastSeenBy;
    }
  }

  predicate IsTimeoutOf(o: Output, at: Time, k: ConnectionKey, protocol: Protocol) {
    o == Drop(at, k.nodeName, k.observerPID, protocol, k.source, ResponseTimeout)
  }

  /** And it reports exactly the requests it removes, each with a timeout drop of its connection. */
  lemma SweepReportsExactly<D>(c: Config, s: State<D>, f: Fragment)
    requires ValidConfig(c)
    ensures var now, due, one, two := TimestampNS(f), SweepDue(c, s, f), TimedOut1(c, s, f), TimedOut2(c, s, f);
            && (forall k :: k in one <==> due && k in s.http1 && !Survives(c, now, s.http1[k].startedNS))
            && (forall k :: k in one ==> IsTimeoutOf(one[k], f.observedAt, k, PlainHttp1))
            && (forall k :: k in two <==> due && k in s.http2 && !Survives(c, now, s.http2[k].startedNS))
            && (forall k :: k in two ==> IsTimeoutOf(two[k], f.observedAt, k.connection, PlainHttp2))
  {
    hide TimestampNS;
  }

  // ---------- Header blocks ----------

  /** Field i is the last one of this name. */
  predicate IsLast(fields: seq<HeaderField>, name: Text, i: int) {
    0 <= i < |fields| && fields[i].name == name && forall j :: i < j < |fields| ==> fields[j].name != name
  }

  /** value is that of the last field of this name, or empty if there is none. */
  ghost predicate LastValue(fields: seq<HeaderField>, name: Text, value: Text) {
    || (exists i :: IsLast(fields, name, i) && fields[i].value == value)
    || ((forall i :: 0 <= i < |fields| ==> fields[i].name != name) && value == [])
  }

  predicate IsStatus(field: HeaderField) {
    field.name == Ascii(":status") && Status(field.value).Some?
  }

  /** status is that of the last valid status field, or 0 if there is none. */
  ghost predicate LastStatus(fields: seq<HeaderField>, status: nat) {
    || (exists i :: && 0 <= i < |fields| && IsStatus(fields[i]) && Status(fields[i].value) == Some(status)
                    && forall j :: i < j < |fields| ==> !IsStatus(fields[j]))
    || ((forall i :: 0 <= i < |fields| ==> !IsStatus(fields[i])) && status == 0)
  }

  lemma LastValueSnoc(fields: seq<HeaderField>, x: HeaderField, name: Text, value: Text)
    requires LastValue(fields, name, value)
    ensures LastValue(fields + [x], name, if x.name == name then x.value else value)
  {
    var more, n := fields + [x], |fields|;
    if x.name == name {
      assert IsLast(more, name, n) && more[n].value == x.value;
    } else if i :| IsLast(fields, name, i) && fields[i].value == value {
      assert IsLast(more, name, i) && more[i].value == value;
    }
  }

  lemma LastStatusSnoc(fields: seq<HeaderField>, x: HeaderField, status: nat)
    requires LastStatus(fields, status)
    ensures LastStatus(fields + [x], if IsStatus(x) then Status(x.value).value else status)
  {
    var more, n := fields + [x], |fields|;
    assert IsStatus(x) ==> Status(x.value) == Some(Status(x.value).value);
    hide IsStatus, Status;
    if IsStatus(x) {
      assert IsStatus(more[n]) && Status(more[n].value) == Some(Status(x.value).value);
    } else if i :| 0 <= i < n && IsStatus(fields[i]) && Status(fields[i].value) == Some(status)
                   && forall j :: i < j < n ==> !IsStatus(fields[j]) {
      assert IsStatus(more[i]);
    }
  }

  lemma NamesDiffer()
    ensures Ascii(":method") != Ascii(":path") && Ascii(":method") != Ascii(":status") && Ascii(":path") != Ascii(":status")
  {
    assert Ascii(":method")[1] != Ascii(":path")[1] && Ascii(":method")[1] != Ascii(":status")[1];
    assert Ascii(":path")[1] != Ascii(":status")[1];
  }

  /** The head fields of a block: the last method, the last path, the last valid status. */
  lemma {:induction false} PseudoExactly(fields: seq<HeaderField>)
    ensures var p := PseudoOf(fields);
            LastValue(fields, Ascii(":method"), p.method_) && LastValue(fields, Ascii(":path"), p.path) && LastStatus(fields, p.status)
    decreases |fields|
  {
    if fields != [] {
      var before, x := fields[..|fields| - 1], fields[|fields| - 1];
      var p := PseudoOf(before);
      assert fields == before + [x];
      PseudoExactly(before);
      LastValueSnoc(before, x, Ascii(":method"), p.method_);
      LastValueSnoc(before, x, Ascii(":path"), p.path);
      LastStatusSnoc(before, x, p.status);
      NamesDiffer();
      hide LastValue, LastStatus, Status, Ascii;
    }
  }

  /** A block is a request if it has a method, and a path or a status; a response if it has no method but a
      status; and otherwise neither. */
  lemma HeadExactly(c: Config, fields: seq<HeaderField>)
    ensures exists m, path, status :: && LastValue(fields, Ascii(":method"), m) && LastValue(fields, Ascii(":path"), path)
                                      && LastStatus(fields, status)
                                      && HeadOf(c, fields)
                                         == if m != [] && (PathOf(path, c.maxPath) != [] || status != 0)
                                            then RequestHead(m, PathOf(path, c.maxPath))
                                            else if m == [] && status != 0 then ResponseHead(status)
                                            else NoHead
  {
    PseudoExactly(fields);
    hide LastValue, LastStatus, PathOf, PseudoOf;
    var p := PseudoOf(fields);
    assert LastValue(fields, Ascii(":method"), p.method_);
  }

  // ---------- HTTP/2 ----------

  /** The streams that wait once stream k was asked for by block b. */
  function Asked(c: Config, streams: Streams, k: StreamKey, b: Block, m: Text, path: Text): Streams {
    if k in streams then streams - {k}
    else if |streams| >= c.maxStreams then streams
    else streams[k := Pending(b.origin.ns, m, path, b.origin.identity)]
  }

  /** A request block starts a stream; on a waiting one it ends it as invalid; without room it is refused. */
  lemma RequestBlockExactly(c: Config, f: Fragment, streams: Streams, b: Block)
    requires HeadOf(c, b.fields).RequestHead?
    ensures var p, h, k := PairBlock(c, f, streams, b), HeadOf(c, b.fields), StreamKey(RequestKey(f), b.stream);
            && p.streams == Asked(c, streams, k, b, h.method_, h.path)
            && if k in streams then |p.out| == 1 && IsDropOf(p.out[0], f, PlainHttp2, InvalidRequest)
               else if |streams| >= c.maxStreams then |p.out| == 1 && IsDropOf(p.out[0], f, PlainHttp2, StateCapacity)
               else p.out == []
  {
    hide HeadOf, RequestKey;
  }

  /** A final response block to a waiting stream ends it: with a transaction exactly if its frame began
      later than the request's, else as an invalid latency. Interim and unexpected ones change nothing. */
  lemma ResponseBlockExactly(c: Config, f: Fragment, streams: Streams, b: Block)
    requires HeadOf(c, b.fields).ResponseHead?
    ensures var p, status, k := PairBlock(c, f, streams, b), HeadOf(c, b.fields).status, StreamKey(ResponseKey(f), b.stream);
            if status < 200 || k !in streams then p == Paired(streams, [])
            else
              && p.streams == streams - {k} && |p.out| == 1
              && if b.origin.ns > streams[k].startedNS
                 then IsTransactionOf(p.out[0], f, streams[k], PlainHttp2, status, b.stream, b.origin.ns)
                 else IsDropOf(p.out[0], f, PlainHttp2, InvalidLatency)
  {
    hide HeadOf, ResponseKey;
  }

  /** A fragment is lost on its direction exactly if it was cut short or its bytes cannot be digested; then
      the direction is poisoned and keeps no bytes, and a poisoned one takes nothing any more. */
  lemma LossPoisons<D>(hpack: Hpack<D>, c: Config, t: Tracked<D>, f: Fragment, payload: seq<byte>)
    ensures var fed := FeedTrack(hpack, c, t, f, payload);
            var one := FeedOne(hpack, c.limits, t.direction, Chunk(payload, Origin(TimestampNS(f), IdentityFrom(f))));
            && fed.track.lastSeenNS == TimestampNS(f)
            && (fed.lost <==> !t.poisoned && (f.totalLength > |f.payload| || one.error.Some?))
            && (fed.track.poisoned <==> t.poisoned || fed.lost)
            && (fed.lost ==> fed.blocks == [] && fed.track.direction.buffer == [] && fed.track.direction.asm.stream == 0)
            && (t.poisoned ==> fed.blocks == [] && fed.track.direction == t.direction)
            && (!t.poisoned && !fed.lost ==> fed.blocks == one.blocks && fed.track.direction == one.direction)
  {
    hide FeedOne, TimestampNS, IdentityFrom;
  }

  /** What pairing `second` behind `first` amounts to. */
  function Both(first: Paired, second: Paired): Paired {
    Paired(second.streams, first.out + second.out)
  }

  lemma BothAssociate(a: Paired, b: Paired, x: Paired)
    ensures Both(Both(a, b), x) == Both(a, Both(b, x))
  {
    assert (a.out + b.out) + x.out == a.out + (b.out + x.out);
  }

  /** Header blocks are paired one after the other, and their records come in that order. */
  lemma {:induction false} PairsInOrder(c: Config, f: Fragment, streams: Streams, a: seq<Block>, b: seq<Block>)
    ensures var first := PairBlocks(c, f, streams, a);
            PairBlocks(c, f, streams, a + b) == Both(first, PairBlocks(c, f, first.streams, b))
    decreases |b|
  {
    hide PairBlock, PairBlocks;
    var first := PairBlocks(c, f, streams, a);
    if b == [] {
      assert a + b == a;
      NothingPaired(c, f, first);
    } else {
      var before, x := b[..|b| - 1], b[|b| - 1];
      assert b == before + [x] && a + b == (a + before) + [x];
      PairsInOrder(c, f, streams, a, before);
      PairsSnoc(c, f, streams, a + before, x);
      PairsSnoc(c, f, first.streams, before, x);
      var middle := PairBlocks(c, f, first.streams, before);
      BothAssociate(first, middle, PairBlock(c, f, middle.streams, x));
      hide Both;
    }
  }

  lemma NothingPaired(c: Config, f: Fragment, first: Paired)
    ensures Both(first, PairBlocks(c, f, first.streams, [])) == first
  {
  }

  lemma PairsSnoc(c: Config, f: Fragment, streams: Streams, bs: seq<Block>, x: Block)
    ensures var before := PairBlocks(c, f, streams, bs);
            var last := PairBlock(c, f, before.streams, x);
            PairBlocks(c, f, streams, bs + [x]) == Both(before, last) && Both(before, last).streams == last.streams
  {
    hide PairBlock;
    assert (bs + [x])[..|bs|] == bs;
  }

  lemma OneBlockPaired(c: Config, f: Fragment, streams: Streams, b: Block)
    ensures PairBlocks(c, f, streams, []) == Paired(streams, [])
    ensures PairBlocks(c, f, streams, [b]) == PairBlock(c, f, streams, b)
  {
    hide PairBlock;
    assert [b][..0] == [];
  }

  /** On a connection that is tracked the fragment is fed to its own direction, a new one if it is the first;
      if it is lost exactly a desync drop is put out and no stream changes, otherwise its blocks are paired. */
  lemma TrackedExactly<D>(hpack: Hpack<D>, decoder: D, c: Config, s: State<D>, f: Fragment, payload: seq<byte>)
    ensures var e, d := HandleTracked(hpack, decoder, c, s, f, payload), DirectionOf(f);
            var t := if d in s.http2Directions then s.http2Directions[d] else Tracked(NewDirectionOf(decoder), 0, false);
            var fed := FeedTrack(hpack, c, t, f, payload);
            && e.state.http2Directions == s.http2Directions[d := fed.track]
            && if fed.lost then |e.out| == 1 && IsDropOf(e.out[0], f, PlainHttp2, StreamDesync) && e.state.http2 == s.http2
               else e.state.http2 == PairBlocks(c, f, s.http2, fed.blocks).streams && e.out == PairBlocks(c, f, s.http2, fed.blocks).out
  {
    hide FeedTrack, FeedOne, TimestampNS, PairBlocks, MakeTransportKey, DirectionOf;
  }

  lemma TrackedIsSeen<D>(hpack: Hpack<D>, decoder: D, c: Config, s: State<D>, f: Fragment, payload: seq<byte>)
    ensures var t := HandleTracked(hpack, decoder, c, s, f, payload).state;
            && t.http2Connections == s.http2Connections[MakeTransportKey(f) := TimestampNS(f)]
            && t.http2Directions.Keys == s.http2Directions.Keys + {DirectionOf(f)}
            && t.http2Directions[DirectionOf(f)].lastSeenNS == TimestampNS(f)
            && t.processed == s.processed && t.http1 == s.http1 && t.http1Ambiguous == s.http1Ambiguous
  {
    var d := DirectionOf(f);
    LossPoisons(hpack, c, if d in s.http2Directions then s.http2Directions[d] else NewDirection(decoder), f, payload);
    hide FeedTrack, FeedOne, TimestampNS, PairBlocks, MakeTransportKey, DirectionOf;
  }

  /** A fragment of HTTP/2 opens a connection exactly if it starts with the preface and there is room; then
      and later both its connection and its direction are seen at its time. */
  lemma ConnectionsExactly<D>(hpack: Hpack<D>, decoder: D, c: Config, s: State<D>, f: Fragment)
    requires IsHttp2(s, f)
    ensures var e, k := HandleHttp2(hpack, decoder, c, s, f), MakeTransportKey(f);
            var room := |s.http1| + |s.http1Ambiguous| + |s.http2Connections| < c.maxTracked;
            if k !in s.http2Connections && !room then e.state == s && |e.out| == 1 && IsDropOf(e.out[0], f, PlainHttp2, StateCapacity)
            else
              && (k in s.http2Connections || PREFACE <= f.payload)
              && e.state.http2Connections == s.http2Connections[k := TimestampNS(f)]
              && e.state.http2Directions.Keys == s.http2Directions.Keys + {DirectionOf(f)}
              && e.state.http2Directions[DirectionOf(f)].lastSeenNS == TimestampNS(f)
              && e.state.processed == s.processed && e.state.http1 == s.http1 && e.state.http1Ambiguous == s.http1Ambiguous
  {
    if MakeTransportKey(f) in s.http2Connections {
      TrackedIsSeen(hpack, decoder, c, s, f, f.payload);
    } else {
      TrackedIsSeen(hpack, decoder, c, s, f, f.payload[|PREFACE|..]);
    }
    hide HandleTracked, TimestampNS, MakeTransportKey, DirectionOf, PREFACE;
  }

  /** What a fragment means: a message of HTTP/2 on a known connection or with the preface, else of HTTP/1. */
  lemma StepIsSweepThenHandle<D>(hpack: Hpack<D>, decoder: D, c: Config, s: State<D>, f: Fragment)
    requires ValidConfig(c)
    ensures var t, e := Swept(c, s, f), Step(hpack, decoder, c, s, f);
            e == if MakeTransportKey(f) in t.http2Connections || PREFACE <= f.payload
                 then HandleHttp2(hpack, decoder, c, t, f) else HandleHttp1(c, t, f)
  {
    hide HandleHttp1, HandleHttp2, Swept, MakeTransportKey;
  }
}
