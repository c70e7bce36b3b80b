/** Batch aggregation (Aggregate and sortWindows of internal/flow/window.go) and its independence
    of the order of observations. */
module Aggregation {
  import opened Order
  import opened Distributions
  import opened Lists
  import opened Windows

  datatype AggregateError = WindowSizeNotPositive | TimeRequired
  datatype Result<T> = Ok(value: T) | Err(error: AggregateError)

  // ---------- The algorithms ----------

  lemma LessIsOrdering()
    ensures Ordering(Less)
  {
    forall x, y | Less(x, y) ensures !Less(y, x) {
      FieldsOrder(Fields(x.id), Fields(y.id), []);
    }
    forall x, y, z | !Less(y, x) && !Less(z, y) ensures !Less(z, x) {
      NotLessChains(Fields(x.id), Fields(y.id), Fields(z.id));
    }
  }

  lemma NotLessChains(x: seq<Field>, y: seq<Field>, z: seq<Field>)
    requires CompareFields(y, x) >= 0 && CompareFields(z, y) >= 0
    ensures CompareFields(z, x) >= 0
  {
    FieldsOrder(x, y, z);
    FieldsOrder(y, z, x);
    FieldsOrder(x, z, []);
  }

  method SortWindows(ws: seq<Window>) returns (r: seq<Window>)
    ensures Sorted(r, Less) && multiset(r) == multiset(ws)
  {
    LessIsOrdering();
    r := Sort(ws, Less);
  }

  predicate Timed(obs: seq<Observation>) {
    forall i :: 0 <= i < |obs| ==> obs[i].observedAt != 0
  }

  /** Aggregate: the sorted windows of the table of all observations, or the first objection. */
  method Aggregate(observations: seq<Observation>, size: int) returns (r: Result<seq<Window>>)
    ensures size <= 0 ==> r == Err(WindowSizeNotPositive)
    ensures size > 0 && !Timed(observations) ==> r == Err(TimeRequired)
    ensures size > 0 && Timed(observations) ==>
              r.Ok? && Listing(r.value, TableOf(observations, size)) && Sorted(r.value, Less)
  {
    if size <= 0 {
      return Err(WindowSizeNotPositive);
    }
    var byKey: Table := map[];
    for i := 0 to |observations|
      invariant byKey == TableOf(observations[..i], size)
      invariant forall j :: 0 <= j < i ==> observations[j].observedAt != 0
    {
      if observations[i].observedAt == 0 {
        return Err(TimeRequired);
      }
      assert observations[..i + 1][..i] == observations[..i];
      byKey := Put(byKey, observations[i], size);
    }
    assert observations[..|observations|] == observations;
    var windows := ListMap(byKey);
    windows := SortWindows(windows);
    return Ok(windows);
  }

  // ---------- One sorted listing ----------

  /** Every window carries the identity of its key. */
  ghost predicate Keyed(m: Table, size: int) {
    forall k :: k in m ==> m[k].id == IdentityOf(k, size)
  }

  /** Keys of which the order sees the same have the same window. */
  ghost predicate NoTwins(m: Table) {
    forall k, l :: k in m && l in m && Seen(k) == Seen(l) ==> m[k] == m[l]
  }

  /** The order does not tell two windows apart. */
  predicate Undecided(x: Window, y: Window) {
    !Less(x, y) && !Less(y, x)
  }

  lemma ListedHasKey(ws: seq<Window>, m: Table, w: Window) returns (k: Key)
    requires Listing(ws, m) && w in multiset(ws)
    ensures k in m && m[k] == w
  {
    var keys :| Enumerates(keys, m) && multiset(ws) == multiset(Look(m, keys));
    assert w in multiset(Look(m, keys));
    var i :| 0 <= i < |keys| && Look(m, keys)[i] == w;
    k := keys[i];
  }

  lemma KeyIsListed(ws: seq<Window>, m: Table, k: Key) returns (i: nat)
    requires Listing(ws, m) && k in m
    ensures i < |ws| && ws[i] == m[k]
  {
    var keys :| Enumerates(keys, m) && multiset(ws) == multiset(Look(m, keys));
    var j :| 0 <= j < |keys| && keys[j] == k;
    assert Look(m, keys)[j] in multiset(ws);
    i :| 0 <= i < |ws| && ws[i] == m[k];
  }

  lemma UndecidedIsSeenAlike(m: Table, k: Key, l: Key, size: int)
    requires Keyed(m, size) && k in m && l in m
    ensures Undecided(m[k], m[l]) <==> Seen(k) == Seen(l)
    ensures Undecided(m[k], m[l]) ==> Fields(m[k].id) == Fields(m[l].id)
  {
    UndecidedExactly(k, l, size);
    FieldsOrder(Fields(m[k].id), Fields(m[l].id), []);
  }

  /** A table without twins has exactly one sorted listing. */
  lemma ListingUnique(a: seq<Window>, b: seq<Window>, m: Table, size: int)
    requires Listing(a, m) && Listing(b, m) && Sorted(a, Less) && Sorted(b, Less) && Keyed(m, size) && NoTwins(m)
    ensures a == b
  {
    ListingsAgree(a, b, m);
    forall x, y | x in multiset(a) && y in multiset(a) && !Less(x, y) && !Less(y, x)
      ensures x == y
    {
      var k := ListedHasKey(a, m, x);
      var l := ListedHasKey(a, m, y);
      UndecidedIsSeenAlike(m, k, l, size);
    }
    LessIsOrdering();
    SortedUnique(a, b, Less);
  }

  /** Two windows that the order does not tell apart may change places. */
  lemma SwapKeepsSorted(a: seq<Window>, i: nat, j: nat)
    requires i < |a| && j < |a| && Sorted(a, Less) && Fields(a[i].id) == Fields(a[j].id)
    ensures Sorted(a[i := a[j]][j := a[i]], Less)
    ensures multiset(a[i := a[j]][j := a[i]]) == multiset(a)
  {
    var b := a[i := a[j]][j := a[i]];
    assert forall n :: 0 <= n < |a| ==> Fields(b[n].id) == Fields(a[n].id);
    hide Fields, CompareFields;
    forall p, q | 0 <= p < q < |b| ensures !Less(b[q], b[p]) {
      assert !Less(a[q], a[p]);
    }
  }

  /** A table with twins has more than one. */
  lemma TwinsSwap(a: seq<Window>, m: Table, size: int) returns (b: seq<Window>)
    requires Listing(a, m) && Sorted(a, Less) && Keyed(m, size) && !NoTwins(m)
    ensures Listing(b, m) && Sorted(b, Less) && b != a
  {
    var k, l :| k in m && l in m && Seen(k) == Seen(l) && m[k] != m[l];
    var i := KeyIsListed(a, m, k);
    var j := KeyIsListed(a, m, l);
    UndecidedIsSeenAlike(m, k, l, size);
    SwapKeepsSorted(a, i, j);
    b := a[i := a[j]][j := a[i]];
    assert b[i] != a[i];
    var keys :| Enumerates(keys, m) && multiset(a) == multiset(Look(m, keys));
    assert Enumerates(keys, m) && multiset(b) == multiset(Look(m, keys));
  }

  // ---------- Order independence ----------

  /** Absent timings carry no leftovers, and the time is set. */
  predicate Clean(o: Observation) {
    o.observedAt != 0 && WellFormed(o.rtt) && WellFormed(o.jitter)
  }

  predicate AllClean(obs: seq<Observation>) {
    forall i :: 0 <= i < |obs| ==> Clean(obs[i])
  }

  /** What x adds to the timing samples of window k. */
  function Share(x: Observation, k: Key, size: int, jitter: bool): nat
    requires size > 0
  {
    if KeyFor(x, size) == k then Timing(x, jitter).count else 0
  }

  /** How many timing samples the observations report for window k. */
  function Load(obs: seq<Observation>, k: Key, size: int, jitter: bool): nat
    requires size > 0
  {
    if obs == [] then 0 else Load(obs[..|obs| - 1], k, size, jitter) + Share(obs[|obs| - 1], k, size, jitter)
  }

  /** No window's sample counter wraps. */
  ghost predicate Light(obs: seq<Observation>, size: int)
    requires size > 0
  {
    forall k, jitter :: Load(obs, k, size, jitter) < TWO64
  }

  lemma {:induction false} LoadConcat(a: seq<Observation>, b: seq<Observation>, k: Key, size: int, jitter: bool)
    requires size > 0
    ensures Load(a + b, k, size, jitter) == Load(a, k, size, jitter) + Load(b, k, size, jitter)
    decreases |b|
  {
    if b == [] {
      assert a + b == a;
    } else {
      assert (a + b)[..|a + b| - 1] == a + b[..|b| - 1];
      LoadConcat(a, b[..|b| - 1], k, size, jitter);
    }
  }

  /** A window holds at most the samples reported for it. */
  lemma {:induction false} CountWithinLoad(obs: seq<Observation>, k: Key, size: int, jitter: bool)
    requires size > 0 && Load(obs, k, size, jitter) < TWO64 && k in TableOf(obs, size)
    ensures WindowTiming(TableOf(obs, size)[k], jitter).count <= Load(obs, k, size, jitter)
    decreases |obs|
  {
    var last, init := obs[|obs| - 1], obs[..|obs| - 1];
    if k in TableOf(init, size) {
      CountWithinLoad(init, k, size, jitter);
    }
  }

  lemma AddSwaps(a: uint64, b: uint64, c: uint64)
    ensures Add(Add(a, b), c) == Add(Add(a, c), b)
  {
  }

  lemma AddToSwaps(w: Window, x: Observation, y: Observation)
    requires Clean(x) && Clean(y)
    requires w.rtt.count + x.rtt.count + y.rtt.count < TWO64
    requires w.jitter.count + x.jitter.count + y.jitter.count < TWO64
    ensures AddTo(AddTo(w, x), y) == AddTo(AddTo(w, y), x)
  {
    AddSwaps(w.bytesTx, x.bytesTx, y.bytesTx);
    AddSwaps(w.bytesRx, x.bytesRx, y.bytesRx);
    AddSwaps(w.packetsTx, x.packetsTx, y.packetsTx);
    AddSwaps(w.packetsRx, x.packetsRx, y.packetsRx);
    AddSwaps(w.retransmissions, x.retransmissions, y.retransmissions);
    AddSwaps(w.losses, x.losses, y.losses);
    MergeSwaps(w.rtt, x.rtt, y.rtt);
    MergeSwaps(w.jitter, x.jitter, y.jitter);
  }

  lemma TableSnoc(a: seq<Observation>, x: Observation, size: int)
    requires size > 0
    ensures TableOf(a + [x], size) == Put(TableOf(a, size), x, size)
  {
    assert (a + [x])[..|a|] == a;
  }

  lemma LoadSnoc(a: seq<Observation>, x: Observation, k: Key, size: int, jitter: bool)
    requires size > 0
    ensures Load(a + [x], k, size, jitter) == Load(a, k, size, jitter) + Share(x, k, size, jitter)
  {
    assert (a + [x])[..|a|] == a;
  }

  lemma PutSwaps(obs: seq<Observation>, x: Observation, y: Observation, size: int)
    requires size > 0 && Clean(x) && Clean(y) && Light(obs + [x] + [y], size)
    ensures Put(Put(TableOf(obs, size), x, size), y, size) == Put(Put(TableOf(obs, size), y, size), x, size)
  {
    var m, k := TableOf(obs, size), KeyFor(x, size);
    if k == KeyFor(y, size) {
      SharesFit(obs, x, y, k, size, false);
      SharesFit(obs, x, y, k, size, true);
      if k in m {
        AddToSwaps(m[k], x, y);
      } else {
        AddToSwaps(NewWindow(k, size), x, y);
      }
    }
  }

  /** A window has room for the samples of two more observations of its key. */
  lemma SharesFit(obs: seq<Observation>, x: Observation, y: Observation, k: Key, size: int, jitter: bool)
    requires size > 0 && Light(obs + [x] + [y], size) && KeyFor(x, size) == k == KeyFor(y, size)
    ensures k in TableOf(obs, size) ==>
              WindowTiming(TableOf(obs, size)[k], jitter).count + Timing(x, jitter).count + Timing(y, jitter).count < TWO64
    ensures Timing(x, jitter).count + Timing(y, jitter).count < TWO64
  {
    LoadSnoc(obs, x, k, size, jitter);
    LoadSnoc(obs + [x], y, k, size, jitter);
    if k in TableOf(obs, size) {
      CountWithinLoad(obs, k, size, jitter);
    }
  }

  lemma LoadMoves(a: seq<Observation>, x: Observation, b: seq<Observation>, k: Key, size: int, jitter: bool)
    requires size > 0
    ensures Load(a + [x] + b, k, size, jitter) == Load(a + b + [x], k, size, jitter)
    ensures Load(a + b, k, size, jitter) <= Load(a + [x] + b, k, size, jitter)
  {
    LoadConcat(a + [x], b, k, size, jitter);
    LoadConcat(a, b, k, size, jitter);
    LoadSnoc(a, x, k, size, jitter);
    LoadSnoc(a + b, x, k, size, jitter);
  }

  lemma LightMoves(a: seq<Observation>, x: Observation, b: seq<Observation>, size: int)
    requires size > 0 && Light(a + [x] + b, size)
    ensures Light(a + b + [x], size) && Light(a + b, size)
  {
    forall k, jitter: bool
      ensures Load(a + b + [x], k, size, jitter) < TWO64 && Load(a + b, k, size, jitter) < TWO64
    {
      LoadMoves(a, x, b, k, size, jitter);
      assert Load(a + [x] + b, k, size, jitter) < TWO64;
    }
  }

  lemma LightPrefix(a: seq<Observation>, b: seq<Observation>, size: int)
    requires size > 0 && Light(a + b, size)
    ensures Light(a, size)
  {
    forall k, jitter: bool ensures Load(a, k, size, jitter) < TWO64 {
      LoadConcat(a, b, k, size, jitter);
      assert Load(a + b, k, size, jitter) < TWO64;
    }
  }

  /** An observation may be moved to the end. */
  lemma {:induction false} MoveToEnd(a: seq<Observation>, x: Observation, b: seq<Observation>, size: int)
    requires size > 0 && Clean(x) && AllClean(b) && Light(a + [x] + b, size)
    ensures TableOf(a + [x] + b, size) == TableOf(a + b + [x], size)
    decreases |b|
  {
    if b == [] {
      assert a + [x] + b == a + b + [x];
    } else {
      var b', y := b[..|b| - 1], b[|b| - 1];
      assert b == b' + [y];
      assert a + [x] + b == (a + [x] + b') + [y] && a + b == (a + b') + [y];
      LightPrefix(a + [x] + b', [y], size);
      MoveToEnd(a, x, b', size);
      LightMoves(a, x, b, size);
      assert a + b + [x] == (a + b') + [y] + [x];
      LightMoves(a + b', y, [x], size);
      TableSnoc(a + [x] + b', y, size);
      TableSnoc(a + b', x, size);
      PutSwaps(a + b', x, y, size);
      TableSnoc(a + b', y, size);
      TableSnoc(a + b, x, size);
    }
  }

  /** The table depends on which observations there are, not on their order. */
  lemma {:induction false} TableOfPermutation(xs: seq<Observation>, ys: seq<Observation>, size: int)
    requires size > 0 && multiset(xs) == multiset(ys) && AllClean(ys) && Light(ys, size)
    ensures TableOf(xs, size) == TableOf(ys, size)
    decreases |xs|
  {
    if xs == [] {
      assert |multiset(ys)| == |ys|;
    } else {
      var xs', x := xs[..|xs| - 1], xs[|xs| - 1];
      DropLast(xs);
      assert x in multiset(xs);
      var a, b := TakeOut(ys, x);
      CleanParts(a, x, b);
      MoveToEnd(a, x, b, size);
      LightMoves(a, x, b, size);
      TableOfPermutation(xs', a + b, size);
      TableSnoc(xs', x, size);
      TableSnoc(a + b, x, size);
    }
  }

  lemma CleanParts(a: seq<Observation>, x: Observation, b: seq<Observation>)
    requires AllClean(a + [x] + b)
    ensures Clean(x) && AllClean(b) && AllClean(a + b)
  {
    var s := a + [x] + b;
    assert s[|a|] == x;
    assert forall i :: 0 <= i < |a| ==> a[i] == s[i];
    assert forall i :: 0 <= i < |b| ==> b[i] == s[|a| + 1 + i];
  }

  lemma {:induction false} TableIsKeyed(obs: seq<Observation>, size: int)
    requires size > 0
    ensures Keyed(TableOf(obs, size), size)
    decreases |obs|
  {
    if obs != [] {
      TableIsKeyed(obs[..|obs| - 1], size);
    }
  }

  /** What Aggregate promises of its result. */
  ghost predicate IsAggregate(ws: seq<Window>, obs: seq<Observation>, size: int)
    requires size > 0
  {
    Listing(ws, TableOf(obs, size)) && Sorted(ws, Less)
  }

  /** Any two runs of Aggregate on permuted observations give the identical window list exactly when no
      two different windows belong to keys that the order does not tell apart. */
  lemma AggregateIgnoresOrder(a: seq<Window>, xs: seq<Observation>, ys: seq<Observation>, size: int)
    requires size > 0 && multiset(xs) == multiset(ys) && AllClean(ys) && Light(ys, size)
    requires IsAggregate(a, xs, size)
    ensures (forall b :: IsAggregate(b, ys, size) ==> a == b) <==> NoTwins(TableOf(ys, size))
  {
    TableOfPermutation(xs, ys, size);
    TableIsKeyed(ys, size);
    var m := TableOf(ys, size);
    if NoTwins(m) {
      forall b | IsAggregate(b, ys, size) ensures a == b {
        ListingUnique(a, b, m, size);
      }
    } else {
      var b := TwinsSwap(a, m, size);
      assert IsAggregate(b, ys, size) && a != b;
    }
  }

  /** A Pod without UID is the zero Pod. */
  predicate PodsAreNamed(o: Observation) {
    && (PodOrZero(o.sourcePod).uid == "" ==> PodOrZero(o.sourcePod) == NO_POD)
    && (PodOrZero(o.destinationPod).uid == "" ==> PodOrZero(o.destinationPod) == NO_POD)
    && (PodOrZero(o.observerPod).uid == "" ==> PodOrZero(o.observerPod) == NO_POD)
  }

  /** There are no twins when every Pod without UID is the zero Pod. */
  lemma {:induction false} NamedPodsHaveNoTwins(obs: seq<Observation>, size: int)
    requires size > 0 && forall i :: 0 <= i < |obs| ==> PodsAreNamed(obs[i])
    ensures forall k :: k in TableOf(obs, size) ==> Proper(k)
    ensures NoTwins(TableOf(obs, size))
    decreases |obs|
  {
    if obs != [] {
      NamedPodsHaveNoTwins(obs[..|obs| - 1], size);
      assert PodsAreNamed(obs[|obs| - 1]);
      assert Proper(KeyFor(obs[|obs| - 1], size));
    }
  }
}
