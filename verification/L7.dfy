/** The plaintext HTTP correlator (internal/l7/correlator.go): the meaning of one Process call. */
module L7 {
  import opened Base
  import opened FlowTypes
  import opened L7Fragment
  import opened Order
  import opened Lists
  import opened Http1
  import opened Http2

  const WORD: nat := 0x1_0000_0000_0000_0000
  /** Nanoseconds from Go's zero time to the Unix epoch. */
  const UNIX_EPOCH: Time := 62_135_596_800_000_000_000

  datatype Config = Config(maxPath: nat, limits: Limits, ttl: nat, sweepEvery: nat, maxTracked: nat, maxStreams: nat)

  predicate ValidConfig(c: Config) {
    c.sweepEvery > 0
  }

  // ---------- Keys ----------

  datatype ConnectionKey = ConnectionKey(nodeName: string, observerPID: nat, source: string, client: Endpoint, server: Endpoint)
  datatype TransportKey = TransportKey(nodeName: string, observerPID: nat, source: string, low: Endpoint, high: Endpoint)
  datatype DirectionKey = DirectionKey(transport: TransportKey, from: Endpoint, to: Endpoint)
  datatype StreamKey = StreamKey(connection: ConnectionKey, stream: nat)

  predicate EndpointLess(l: Endpoint, r: Endpoint) {
    if l.address != r.address then CompareText(l.address, r.address) < 0 else l.port < r.port
  }

  function MakeTransportKey(f: Fragment): TransportKey {
    var swap := EndpointLess(f.destinationEndpoint, f.sourceEndpoint);
    TransportKey(f.nodeName, f.observerPID, f.source,
                 if swap then f.destinationEndpoint else f.sourceEndpoint,
                 if swap then f.sourceEndpoint else f.destinationEndpoint)
  }

  function Reversed(f: Fragment): Fragment {
    f.(sourceEndpoint := f.destinationEndpoint, destinationEndpoint := f.sourceEndpoint)
  }

  /** Both directions of a connection have one transport key. */
  lemma TransportIsShared(f: Fragment)
    ensures MakeTransportKey(Reversed(f)) == MakeTransportKey(f)
  {
    var a, b := f.sourceEndpoint, f.destinationEndpoint;
    TextOrder(a.address, b.address, a.address);
    TextOrder(b.address, a.address, b.address);
  }

  function DirectionOf(f: Fragment): DirectionKey {
    DirectionKey(MakeTransportKey(f), f.sourceEndpoint, f.destinationEndpoint)
  }

  function RequestKey(f: Fragment): ConnectionKey {
    ConnectionKey(f.nodeName, f.observerPID, f.source, f.sourceEndpoint, f.destinationEndpoint)
  }

  function ResponseKey(f: Fragment): ConnectionKey {
    RequestKey(Reversed(f))
  }

  /** fragmentTimestampNS: 64-bit kernel time, else Unix time. */
  function TimestampNS(f: Fragment): nat {
    if f.kernelTimestampNS != 0 then f.kernelTimestampNS
    else if f.observedAt == 0 then 0
    else (f.observedAt - UNIX_EPOCH) % WORD
  }

  predicate Expired(now: nat, started: nat, ttl: nat) {
    started != 0 && now >= started && now - started >= ttl
  }

  // ---------- State and outputs ----------

  datatype Pending = Pending(startedNS: nat, method_: Text, path: Text, identity: Identity)

  datatype Tracked<D> = Tracked(direction: Direction<D>, lastSeenNS: nat, poisoned: bool)

  datatype State<D> = State(
    processed: nat,
    http1: map<ConnectionKey, Pending>,
    http1Ambiguous: map<ConnectionKey, nat>,
    http2Connections: map<TransportKey, nat>,
    http2Directions: map<DirectionKey, Tracked<D>>,
    http2: map<StreamKey, Pending>)

  function Initial<D>(): State<D> {
    State(0, map[], map[], map[], map[], map[])
  }

  datatype Protocol = PlainHttp1 | PlainHttp2

  datatype Reason =
    | OverlappingRequest | ProtocolUpgrade | ResponseTimeout | StateCapacity
    | InvalidRequest | StreamDesync | InvalidLatency

  datatype Transaction = Transaction(
    observedAt: Time, flow: FlowKey, observerPID: nat, protocol: Protocol, source: string,
    method_: Text, path: Text, statusCode: nat, stream: nat, latencyMicros: nat, identity: Identity)

  datatype Output =
    | Done(transaction: Transaction)
    | Drop(observedAt: Time, nodeName: string, observerPID: nat, protocol: Protocol, source: string, reason: Reason)

  function NewDrop(f: Fragment, protocol: Protocol, reason: Reason): Output {
    Drop(f.observedAt, f.nodeName, f.observerPID, protocol, f.source, reason)
  }

  function ConnectionDrop(at: Time, key: ConnectionKey, protocol: Protocol, reason: Reason): Output {
    Drop(at, key.nodeName, key.observerPID, protocol, key.source, reason)
  }

  /** The transaction that a response of this status, completed at `done`, makes of a request. */
  function Completed(f: Fragment, p: Pending, protocol: Protocol, status: nat, stream: nat, done: nat): Output
    requires done > p.startedNS
  {
    Done(Transaction(f.observedAt,
                     FlowKey(f.nodeName, "tcp", "client-to-server", f.destinationEndpoint, f.sourceEndpoint),
                     f.observerPID, protocol, f.source, p.method_, p.path, status, stream,
                     (done - p.startedNS) / 1000, p.identity))
  }

  function TrackedConnections<D>(s: State<D>): nat {
    |s.http1| + |s.http1Ambiguous| + |s.http2Connections|
  }

  // ---------- expire ----------

  function StartedBy(now: nat, ttl: nat): Pending -> bool {
    (p: Pending) => Expired(now, p.startedNS, ttl)
  }

  function SeenBy(now: nat, ttl: nat): nat -> bool {
    (t: nat) => Expired(now, t, ttl)
  }

  function LastSeenBy<D>(now: nat, ttl: nat): Tracked<D> -> bool {
    (t: Tracked<D>) => Expired(now, t.lastSeenNS, ttl)
  }

  function Counted<D>(s: State<D>): State<D> {
    s.(processed := (s.processed + 1) % WORD)
  }

  /** Every sweepEvery-th fragment with a time sweeps the state. */
  predicate Sweeps<D>(c: Config, s: State<D>, f: Fragment)
    requires ValidConfig(c)
  {
    Counted(s).processed % c.sweepEvery == 0 && TimestampNS(f) != 0
  }

  function Swept<D>(c: Config, s: State<D>, f: Fragment): State<D>
    requires ValidConfig(c)
  {
    if !Sweeps(c, s, f) then Counted(s)
    else
      var now := TimestampNS(f);
      Counted(s).(
        http1 := Others(s.http1, StartedBy(now, c.ttl)),
        http1Ambiguous := Others(s.http1Ambiguous, SeenBy(now, c.ttl)),
        http2Connections := Others(s.http2Connections, SeenBy(now, c.ttl)),
        http2Directions := Others(s.http2Directions, LastSeenBy(now, c.ttl)),
        http2 := Others(s.http2, StartedBy(now, c.ttl)))
  }

  function TimeoutOf(at: Time): ConnectionKey -> Output {
    (k: ConnectionKey) => ConnectionDrop(at, k, PlainHttp1, ResponseTimeout)
  }

  function StreamTimeoutOf(at: Time): StreamKey -> Output {
    (k: StreamKey) => ConnectionDrop(at, k.connection, PlainHttp2, ResponseTimeout)
  }

  /** One drop for each pending request that has come of age. */
  function Drops<K>(m: map<K, Pending>, now: nat, ttl: nat, drop: K -> Output): map<K, Output> {
    map k | k in m && Expired(now, m[k].startedNS, ttl) :: drop(k)
  }

  /** The drops of a sweep. */
  function TimedOut1<D>(c: Config, s: State<D>, f: Fragment): map<ConnectionKey, Output>
    requires ValidConfig(c)
  {
    if Sweeps(c, s, f) then Drops(s.http1, TimestampNS(f), c.ttl, TimeoutOf(f.observedAt)) else map[]
  }

  function TimedOut2<D>(c: Config, s: State<D>, f: Fragment): map<StreamKey, Output>
    requires ValidConfig(c)
  {
    if Sweeps(c, s, f) then Drops(s.http2, TimestampNS(f), c.ttl, StreamTimeoutOf(f.observedAt)) else map[]
  }

  datatype Effect<D> = Effect(state: State<D>, out: seq<Output>)

  // ---------- HTTP/1 ----------

  function Http1Request<D>(c: Config, s: State<D>, f: Fragment, r: Request): Effect<D> {
    var k := RequestKey(f);
    if k in s.http1Ambiguous then Effect(s, [])
    else if Pipelined(f.payload, c.maxPath) || k in s.http1 then
      Effect(s.(http1 := s.http1 - {k}, http1Ambiguous := s.http1Ambiguous[k := TimestampNS(f)]),
             [NewDrop(f, PlainHttp1, OverlappingRequest)])
    else if TrackedConnections(s) >= c.maxTracked then Effect(s, [NewDrop(f, PlainHttp1, StateCapacity)])
    else Effect(s.(http1 := s.http1[k := Pending(TimestampNS(f), r.method_, r.path, IdentityFrom(f))]), [])
  }

  function Http1Response<D>(s: State<D>, f: Fragment, status: nat): Effect<D> {
    var k := ResponseKey(f);
    if k in s.http1Ambiguous || (status < 200 && status != 101) || k !in s.http1 then Effect(s, [])
    else
      var p, t := s.http1[k], s.(http1 := s.http1 - {k});
      if status == 101 then Effect(t, [NewDrop(f, PlainHttp1, ProtocolUpgrade)])
      else if TimestampNS(f) <= p.startedNS then Effect(t, [])
      else Effect(t, [Completed(f, p, PlainHttp1, status, 0, TimestampNS(f))])
  }

  function HandleHttp1<D>(c: Config, s: State<D>, f: Fragment): Effect<D> {
    match ParseRequest(f.payload, c.maxPath)
    case Some(r) => Http1Request(c, s, f, r)
    case None =>
      match ParseResponse(f.payload)
      case Some(status) => Http1Response(s, f, status)
      case None => Effect(s, [])
  }

  // ---------- HTTP/2 ----------

  const PREFACE: Text := Ascii("PRI * HTTP/2.0\r\n\r\nSM\r\n\r\n")

  /** What http2Identity reads from a header block. */
  datatype Pseudo = Pseudo(method_: Text, path: Text, status: nat)

  const NO_PSEUDO := Pseudo([], [], 0)

  function Noted(p: Pseudo, field: HeaderField): Pseudo {
    if field.name == Ascii(":method") then p.(method_ := field.value)
    else if field.name == Ascii(":path") then p.(path := field.value)
    else if field.name == Ascii(":status") then
      (match Status(field.value)
       case Some(status) => p.(status := status)
       case None => p)
    else p
  }

  function PseudoOf(fields: seq<HeaderField>): Pseudo {
    if fields == [] then NO_PSEUDO else Noted(PseudoOf(fields[..|fields| - 1]), fields[|fields| - 1])
  }

  datatype Head = RequestHead(method_: Text, path: Text) | ResponseHead(status: nat) | NoHead

  /** A block is a request, a response, or neither. */
  function HeadOf(c: Config, fields: seq<HeaderField>): Head {
    var p := PseudoOf(fields);
    var path := PathOf(p.path, c.maxPath);
    if !((p.method_ != [] && path != []) || p.status != 0) then NoHead
    else if p.method_ != [] then RequestHead(p.method_, path)
    else ResponseHead(p.status)
  }

  type Streams = map<StreamKey, Pending>
  datatype Paired = Paired(streams: Streams, out: seq<Output>)

  /** One header block of one direction. */
  function PairBlock(c: Config, f: Fragment, streams: Streams, b: Block): Paired {
    match HeadOf(c, b.fields)
    case NoHead => Paired(streams, [])
    case RequestHead(m, path) =>
      var k := StreamKey(RequestKey(f), b.stream);
      if k in streams then Paired(streams - {k}, [NewDrop(f, PlainHttp2, InvalidRequest)])
      else if |streams| >= c.maxStreams then Paired(streams, [NewDrop(f, PlainHttp2, StateCapacity)])
      else Paired(streams[k := Pending(b.origin.ns, m, path, b.origin.identity)], [])
    case ResponseHead(status) =>
      var k := StreamKey(ResponseKey(f), b.stream);
      if status < 200 || k !in streams then Paired(streams, [])
      else if b.origin.ns <= streams[k].startedNS then Paired(streams - {k}, [NewDrop(f, PlainHttp2, InvalidLatency)])
      else Paired(streams - {k}, [Completed(f, streams[k], PlainHttp2, status, b.stream, b.origin.ns)])
  }

  function PairBlocks(c: Config, f: Fragment, streams: Streams, bs: seq<Block>): Paired {
    if bs == [] then Paired(streams, [])
    else
      var n := |bs| - 1;
      var before := PairBlocks(c, f, streams, bs[..n]);
      var last := PairBlock(c, f, before.streams, bs[n]);
      Paired(last.streams, before.out + last.out)
  }

  function NewDirection<D>(decoder: D): Tracked<D> {
    Tracked(NewDirectionOf(decoder), 0, false)
  }

  function Poisoned<D>(t: Tracked<D>): Tracked<D> {
    Tracked(Direction([], NO_ORIGIN, Cleared(t.direction.asm)), t.lastSeenNS, true)
  }

  datatype FedTrack<D> = FedTrack(track: Tracked<D>, blocks: seq<Block>, lost: bool)

  /** The direction's share of one observation. */
  function FeedTrack<D>(hpack: Hpack<D>, c: Config, t: Tracked<D>, f: Fragment, payload: seq<byte>): FedTrack<D> {
    var now := TimestampNS(f);
    var seen := t.(lastSeenNS := now);
    if t.poisoned then FedTrack(seen, [], false)
    else if f.totalLength > |f.payload| then FedTrack(Poisoned(seen), [], true)
    else
      var fed := FeedOne(hpack, c.limits, t.direction, Chunk(payload, Origin(now, IdentityFrom(f))));
      var next := seen.(direction := fed.direction);
      if fed.error.Some? then FedTrack(Poisoned(next), [], true) else FedTrack(next, fed.blocks, false)
  }

  /** processHTTP2 on a tracked connection. */
  function HandleTracked<D>(hpack: Hpack<D>, decoder: D, c: Config, s: State<D>, f: Fragment, payload: seq<byte>): Effect<D> {
    var d := DirectionOf(f);
    var t := if d in s.http2Directions then s.http2Directions[d] else NewDirection(decoder);
    var fed := FeedTrack(hpack, c, t, f, payload);
    var next := s.(http2Connections := s.http2Connections[MakeTransportKey(f) := TimestampNS(f)],
                   http2Directions := s.http2Directions[d := fed.track]);
    if fed.lost then Effect(next, [NewDrop(f, PlainHttp2, StreamDesync)])
    else
      var paired := PairBlocks(c, f, s.http2, fed.blocks);
      Effect(next.(http2 := paired.streams), paired.out)
  }

  /** The fragment belongs to an HTTP/2 connection, or opens one. */
  predicate IsHttp2<D>(s: State<D>, f: Fragment) {
    MakeTransportKey(f) in s.http2Connections || PREFACE <= f.payload
  }

  function HandleHttp2<D>(hpack: Hpack<D>, decoder: D, c: Config, s: State<D>, f: Fragment): Effect<D>
    requires IsHttp2(s, f)
  {
    if MakeTransportKey(f) in s.http2Connections then HandleTracked(hpack, decoder, c, s, f, f.payload)
    else if TrackedConnections(s) >= c.maxTracked then Effect(s, [NewDrop(f, PlainHttp2, StateCapacity)])
    else HandleTracked(hpack, decoder, c, s, f, f.payload[|PREFACE|..])
  }

  /** One fragment, after the sweep. */
  function Handle<D>(hpack: Hpack<D>, decoder: D, c: Config, s: State<D>, f: Fragment): Effect<D> {
    if IsHttp2(s, f) then HandleHttp2(hpack, decoder, c, s, f) else HandleHttp1(c, s, f)
  }

  function Step<D>(hpack: Hpack<D>, decoder: D, c: Config, s: State<D>, f: Fragment): Effect<D>
    requires ValidConfig(c)
  {
    Handle(hpack, decoder, c, Swept(c, s, f), f)
  }

  /** The state after a run. */
  function Run<D>(hpack: Hpack<D>, decoder: D, c: Config, fs: seq<Fragment>): State<D>
    requires ValidConfig(c)
  {
    if fs == [] then Initial()
    else Step(hpack, decoder, c, Run(hpack, decoder, c, fs[..|fs| - 1]), fs[|fs| - 1]).state
  }
}
