/** Flow windows: grouping key, order, folding and batch aggregation (internal/flow/window.go, pod.go). */
module Windows {
  import opened Base
  import opened FlowTypes
  import opened Order
  import opened Distributions

  datatype Observation = Observation(
    sourcePod: Option<Pod>,
    destinationPod: Option<Pod>,
    observerPod: Option<Pod>,
    observedAt: Time,
    kernelTimestampNS: uint64,
    flow: FlowKey,
    sourceResolved: Option<ResolvedEndpoint>,
    destinationResolved: Option<ResolvedEndpoint>,
    process: Option<Process>,
    bytesTx: uint64,
    bytesRx: uint64,
    packetsTx: uint64,
    packetsRx: uint64,
    retransmissions: uint64,
    losses: uint64,
    rtt: Distribution,
    jitter: Distribution)

  /** The fields of a window that its key fixes. */
  datatype Identity = Identity(
    windowStart: Time,
    windowEnd: Time,
    flow: FlowKey,
    sourceResolved: Option<ResolvedEndpoint>,
    destinationResolved: Option<ResolvedEndpoint>,
    process: Option<Process>,
    sourcePod: Option<Pod>,
    destinationPod: Option<Pod>,
    observerPod: Option<Pod>)

  datatype Window = Window(
    id: Identity,
    isPartial: bool,
    lastObservedAt: Time,
    observationCount: uint64,
    bytesTx: uint64,
    bytesRx: uint64,
    packetsTx: uint64,
    packetsRx: uint64,
    retransmissions: uint64,
    losses: uint64,
    rtt: Distribution,
    jitter: Distribution)

  datatype Key = Key(
    start: Time,
    flow: FlowKey,
    sourceResolved: Option<ResolvedEndpoint>,
    destinationResolved: Option<ResolvedEndpoint>,
    process: Option<Process>,
    sourcePod: Pod,
    destinationPod: Pod,
    observerPod: Pod)

  const NO_POD := Pod("", "", "")

  function PodOrZero(p: Option<Pod>): Pod {
    if p.Some? then p.value else NO_POD
  }

  /** time.Truncate: the latest multiple of size that is not later. */
  function Truncate(t: Time, size: int): (r: Time)
    requires size > 0
    ensures r <= t < r + size
  {
    t - t % size
  }

  function KeyFor(o: Observation, size: int): Key
    requires size > 0
  {
    Key(Truncate(o.observedAt, size), o.flow, o.sourceResolved, o.destinationResolved,
        if o.process.Some? then Some(o.process.value.(cmdline := "")) else None,
        PodOrZero(o.sourcePod), PodOrZero(o.destinationPod), PodOrZero(o.observerPod))
  }

  function PodIfNamed(p: Pod): Option<Pod> {
    if p.uid != "" then Some(p) else None
  }

  function IdentityOf(k: Key, size: int): Identity {
    Identity(k.start, k.start + size, k.flow, k.sourceResolved, k.destinationResolved, k.process,
             PodIfNamed(k.sourcePod), PodIfNamed(k.destinationPod), PodIfNamed(k.observerPod))
  }

  function NewWindow(k: Key, size: int): Window {
    Window(IdentityOf(k, size), false, 0, 0, 0, 0, 0, 0, 0, 0, EMPTY, EMPTY)
  }

  /** Window.add. */
  function AddTo(w: Window, o: Observation): Window {
    w.(observationCount := Add(w.observationCount, 1),
       lastObservedAt := if w.lastObservedAt == 0 || o.observedAt > w.lastObservedAt then o.observedAt else w.lastObservedAt,
       bytesTx := Add(w.bytesTx, o.bytesTx),
       bytesRx := Add(w.bytesRx, o.bytesRx),
       packetsTx := Add(w.packetsTx, o.packetsTx),
       packetsRx := Add(w.packetsRx, o.packetsRx),
       retransmissions := Add(w.retransmissions, o.retransmissions),
       losses := Add(w.losses, o.losses),
       rtt := Merge(w.rtt, o.rtt),
       jitter := Merge(w.jitter, o.jitter))
  }

  type Table = map<Key, Window>

  /** The window of key k after observation o joined it. */
  function Joined(m: Table, k: Key, o: Observation, size: int): Window {
    AddTo(if k in m then m[k] else NewWindow(k, size), o)
  }

  /** Put one observation into the table of open windows. */
  function Put(m: Table, o: Observation, size: int): (r: Table)
    requires size > 0
    ensures r.Keys == m.Keys + {KeyFor(o, size)}
  {
    m[KeyFor(o, size) := Joined(m, KeyFor(o, size), o, size)]
  }

  function TableOf(obs: seq<Observation>, size: int): Table
    requires size > 0
  {
    if obs == [] then map[] else Put(TableOf(obs[..|obs| - 1], size), obs[|obs| - 1], size)
  }

  // ---------- What the table means ----------

  /** The observations grouped under k, in order. */
  function Group(obs: seq<Observation>, k: Key, size: int): seq<Observation>
    requires size > 0
  {
    if obs == [] then []
    else
      var g := Group(obs[..|obs| - 1], k, size);
      if KeyFor(obs[|obs| - 1], size) == k then g + [obs[|obs| - 1]] else g
  }

  function Fold(w: Window, obs: seq<Observation>): Window {
    if obs == [] then w else AddTo(Fold(w, obs[..|obs| - 1]), obs[|obs| - 1])
  }

  /** The table has one window per key that occurs, folding exactly that key's observations. */
  lemma {:induction false} TableGroups(obs: seq<Observation>, k: Key, size: int)
    requires size > 0
    ensures k in TableOf(obs, size) <==> Group(obs, k, size) != []
    ensures k in TableOf(obs, size) ==> TableOf(obs, size)[k] == Fold(NewWindow(k, size), Group(obs, k, size))
    decreases |obs|
  {
    if obs != [] {
      var last, init := obs[|obs| - 1], obs[..|obs| - 1];
      TableGroups(init, k, size);
      if KeyFor(last, size) == k {
        var g := Group(init, k, size);
        assert (g + [last])[..|g|] == g;
      }
    }
  }

  /** The additive counters of an observation and of a window, numbered alike. */
  function Amount(o: Observation, i: nat): uint64 {
    if i == 0 then o.bytesTx else if i == 1 then o.bytesRx else if i == 2 then o.packetsTx
    else if i == 3 then o.packetsRx else if i == 4 then o.retransmissions else if i == 5 then o.losses else 1
  }

  function Tally(w: Window, i: nat): uint64 {
    if i == 0 then w.bytesTx else if i == 1 then w.bytesRx else if i == 2 then w.packetsTx
    else if i == 3 then w.packetsRx else if i == 4 then w.retransmissions else if i == 5 then w.losses
    else w.observationCount
  }

  function Amounts(obs: seq<Observation>, i: nat): nat {
    if obs == [] then 0 else Amounts(obs[..|obs| - 1], i) + Amount(obs[|obs| - 1], i)
  }

  lemma AddModulo(n: nat, b: uint64)
    ensures Add(n % TWO64, b) == (n + b) % TWO64
  {
    var q, r := n / TWO64, n % TWO64;
    assert n == q * TWO64 + r;
    if r + b < TWO64 {
      assert n + b == q * TWO64 + (r + b);
    } else {
      assert n + b == (q + 1) * TWO64 + (r + b - TWO64);
    }
  }

  /** Every counter of a folded window is the true total modulo 2^64 (index 6: the observation count). */
  lemma {:induction false} FoldTotals(k: Key, obs: seq<Observation>, size: int, i: nat)
    requires i <= 6
    ensures Tally(Fold(NewWindow(k, size), obs), i) == Amounts(obs, i) % TWO64
    ensures i == 6 ==> Amounts(obs, i) == |obs|
    decreases |obs|
  {
    if obs != [] {
      FoldTotals(k, obs[..|obs| - 1], size, i);
      AddModulo(Amounts(obs[..|obs| - 1], i), Amount(obs[|obs| - 1], i));
    }
  }

  /** The last observation time is the greatest one. */
  lemma {:induction false} FoldLatest(k: Key, obs: seq<Observation>, size: int)
    requires obs != [] && forall o :: o in obs ==> o.observedAt != 0
    ensures var w := Fold(NewWindow(k, size), obs);
            && (exists i :: 0 <= i < |obs| && obs[i].observedAt == w.lastObservedAt)
            && (forall i :: 0 <= i < |obs| ==> obs[i].observedAt <= w.lastObservedAt)
    decreases |obs|
  {
    var last, init := obs[|obs| - 1], obs[..|obs| - 1];
    if init == [] {
      assert Fold(NewWindow(k, size), init) == NewWindow(k, size);
      assert obs[0] == last;
    } else {
      FoldLatest(k, init, size);
      var w := Fold(NewWindow(k, size), init);
      var i :| 0 <= i < |init| && init[i].observedAt == w.lastObservedAt;
      assert obs[i] == init[i] && obs[i] in obs && last in obs;
      assert forall j :: 0 <= j < |init| ==> obs[j] == init[j];
    }
  }

  // ---------- Timing of a window ----------

  function Timing(o: Observation, jitter: bool): Distribution {
    if jitter then o.jitter else o.rtt
  }

  function WindowTiming(w: Window, jitter: bool): Distribution {
    if jitter then w.jitter else w.rtt
  }

  /** The collector reports a single sample or none. */
  predicate PointOrNone(d: Distribution) {
    d == EMPTY || d == Point(d.sum)
  }

  function Samples(obs: seq<Observation>, jitter: bool): seq<nat> {
    if obs == [] then []
    else
      var d := Timing(obs[|obs| - 1], jitter);
      Samples(obs[..|obs| - 1], jitter) + if d == EMPTY then [] else [d.sum]
  }

  /** A window of point samples carries exactly the summary of those samples. */
  lemma {:induction false} FoldSummarizes(k: Key, obs: seq<Observation>, size: int, jitter: bool)
    requires forall o :: o in obs ==> PointOrNone(Timing(o, jitter))
    requires Countable(Samples(obs, jitter))
    ensures WindowTiming(Fold(NewWindow(k, size), obs), jitter) == Summary(Samples(obs, jitter))
    decreases |obs|
  {
    if obs != [] {
      var last, init := obs[|obs| - 1], obs[..|obs| - 1];
      assert last in obs;
      var d := Timing(last, jitter);
      var one: seq<nat> := if d == EMPTY then [] else [d.sum];
      SumConcat(Samples(init, jitter), one);
      FoldSummarizes(k, init, size, jitter);
      MergeIsConcat(Samples(init, jitter), one);
      if d != EMPTY {
        assert Sum(one) == d.sum + Sum(one[1..]);
        assert Summary(one) == d;
      }
    }
  }

  /** So the wire check never rejects a measured window for its RTT figures, within its limits. */
  lemma MeasuredWindowsAreValid(obs: seq<Observation>, k: Key, size: int)
    requires size > 0 && k in TableOf(obs, size)
    requires forall o :: o in Group(obs, k, size) ==> PointOrNone(o.rtt)
    requires Countable(Samples(Group(obs, k, size), false))
    requires WithinLimits(TableOf(obs, size)[k].rtt)
    ensures ValidRtt(TableOf(obs, size)[k].rtt)
  {
    TableGroups(obs, k, size);
    FoldSummarizes(k, Group(obs, k, size), size, false);
    ValidRttExactly(TableOf(obs, size)[k].rtt);
  }

  // ---------- Order of windows ----------

  function ResolvedField(r: Option<ResolvedEndpoint>): Field {
    if r.None? then Missing else Record([Text(r.value.address), Number(r.value.port), Text(r.value.via)])
  }

  function ProcessField(p: Option<Process>): Field {
    if p.None? then Missing
    else Record([Number(p.value.pid), Number(p.value.startTimeTicks), Text(p.value.containerId),
                 Text(p.value.via), Text(p.value.comm)])
  }

  function PodField(p: Option<Pod>): Field {
    if p.None? then Missing else Record([Text(p.value.uid), Text(p.value.namespace), Text(p.value.name)])
  }

  /** The fields sortWindows looks at, in its order. */
  function Fields(id: Identity): seq<Field> {
    [Number(id.windowStart), Text(id.flow.nodeName), Text(id.flow.protocol), Text(id.flow.direction),
     Text(id.flow.source.address), Number(id.flow.source.port),
     Text(id.flow.destination.address), Number(id.flow.destination.port),
     ResolvedField(id.sourceResolved), ResolvedField(id.destinationResolved), ProcessField(id.process),
     PodField(id.sourcePod), PodField(id.destinationPod), PodField(id.observerPod)]
  }

  predicate Less(l: Window, r: Window) {
    CompareFields(Fields(l.id), Fields(r.id)) < 0
  }

  lemma PartsAreSeen(a: Identity, b: Identity)
    requires Fields(a) == Fields(b)
    ensures a.windowStart == b.windowStart && a.flow == b.flow
    ensures ResolvedField(a.sourceResolved) == ResolvedField(b.sourceResolved)
    ensures ResolvedField(a.destinationResolved) == ResolvedField(b.destinationResolved)
    ensures ProcessField(a.process) == ProcessField(b.process)
    ensures PodField(a.sourcePod) == PodField(b.sourcePod)
    ensures PodField(a.destinationPod) == PodField(b.destinationPod)
    ensures PodField(a.observerPod) == PodField(b.observerPod)
  {
    var f, g := Fields(a), Fields(b);
    assert f[0] == g[0] && f[1] == g[1] && f[2] == g[2] && f[3] == g[3] && f[4] == g[4] && f[5] == g[5] && f[6] == g[6];
    assert f[7] == g[7] && f[8] == g[8] && f[9] == g[9] && f[10] == g[10] && f[11] == g[11] && f[12] == g[12] && f[13] == g[13];
  }

  lemma PodIsSeen(a: Option<Pod>, b: Option<Pod>)
    requires PodField(a) == PodField(b)
    ensures a == b
  {
    if a.Some? && b.Some? {
      assert PodField(a).fields[0] == PodField(b).fields[0] && PodField(a).fields[1] == PodField(b).fields[1]
          && PodField(a).fields[2] == PodField(b).fields[2];
    }
  }

  lemma ResolvedIsSeen(a: Option<ResolvedEndpoint>, b: Option<ResolvedEndpoint>)
    requires ResolvedField(a) == ResolvedField(b)
    ensures a == b
  {
    if a.Some? && b.Some? {
      assert ResolvedField(a).fields[0] == ResolvedField(b).fields[0] && ResolvedField(a).fields[1] == ResolvedField(b).fields[1]
          && ResolvedField(a).fields[2] == ResolvedField(b).fields[2];
    }
  }

  lemma ProcessIsSeen(a: Option<Process>, b: Option<Process>)
    requires ProcessField(a) == ProcessField(b)
    requires (a.Some? ==> a.value.cmdline == "") && (b.Some? ==> b.value.cmdline == "")
    ensures a == b
  {
    if a.Some? && b.Some? {
      var f, g := ProcessField(a).fields, ProcessField(b).fields;
      assert f[0] == g[0] && f[1] == g[1] && f[2] == g[2] && f[3] == g[3] && f[4] == g[4];
    }
  }

  function ProcessSeen(p: Option<Process>): Option<Process> {
    if p.Some? then Some(p.value.(cmdline := "")) else None
  }

  /** What the window order sees of a key: no command line, and no Pod without a UID. */
  function Seen(k: Key): Key {
    k.(process := ProcessSeen(k.process),
       sourcePod := PodOrZero(PodIfNamed(k.sourcePod)),
       destinationPod := PodOrZero(PodIfNamed(k.destinationPod)),
       observerPod := PodOrZero(PodIfNamed(k.observerPod)))
  }

  /** Nothing of the key escapes the order. */
  predicate Proper(k: Key) {
    Seen(k) == k
  }

  lemma SeenFields(k: Key, size: int)
    ensures Fields(IdentityOf(Seen(k), size)) == Fields(IdentityOf(k, size))
  {
    var a, b := IdentityOf(Seen(k), size), IdentityOf(k, size);
    assert a.sourcePod == b.sourcePod && a.destinationPod == b.destinationPod && a.observerPod == b.observerPod;
    assert ProcessField(a.process) == ProcessField(b.process);
  }

  /** The window order leaves two keys undecided exactly when it sees the same of both. */
  lemma UndecidedExactly(k: Key, l: Key, size: int)
    ensures CompareFields(Fields(IdentityOf(k, size)), Fields(IdentityOf(l, size))) == 0 <==> Seen(k) == Seen(l)
  {
    var a, b := IdentityOf(Seen(k), size), IdentityOf(Seen(l), size);
    SeenFields(k, size);
    SeenFields(l, size);
    FieldsOrder(Fields(a), Fields(b), []);
    if Fields(a) == Fields(b) {
      PartsAreSeen(a, b);
      ResolvedIsSeen(a.sourceResolved, b.sourceResolved);
      ResolvedIsSeen(a.destinationResolved, b.destinationResolved);
      ProcessIsSeen(a.process, b.process);
      PodIsSeen(a.sourcePod, b.sourcePod);
      PodIsSeen(a.destinationPod, b.destinationPod);
      PodIsSeen(a.observerPod, b.observerPod);
    }
  }

  /** The window order tells distinct proper keys apart. */
  lemma OrderSeesKeys(k: Key, l: Key, size: int)
    requires Proper(k) && Proper(l)
    requires CompareFields(Fields(IdentityOf(k, size)), Fields(IdentityOf(l, size))) == 0
    ensures k == l
  {
    UndecidedExactly(k, l, size);
  }

  /** Without a UID a Pod is dropped from the window, so two keys can look alike. */
  lemma UnnamedPodsLookAlike(flow: FlowKey, size: int)
    ensures var k := Key(0, flow, None, None, None, NO_POD, NO_POD, NO_POD);
            var l := k.(sourcePod := Pod("", "ns", "a"));
            k != l && IdentityOf(k, size) == IdentityOf(l, size)
  {
  }
}
