/** Egress connects that wait for their translated destination (the pending list of
    RunEventsWithOptions in internal/app/events.go), and the record each of them ends in. */
module Resolutions {
  import opened Base
  import opened FlowTypes
  import opened Windows

  const MAX_PENDING := 1024
  const RESOLUTION_GRACE := 250_000_000 // 250 ms

  datatype Item = Item(observation: Observation, deadline: Time, attempts: nat)

  /** What one lookup answers: a rewrite of the destination, of the source, or nothing. */
  datatype Lookup = Backend(to: ResolvedEndpoint) | Frontend(from: ResolvedEndpoint) | Unknown

  /** resolveObservation, given the resolver's answer. */
  function Resolve(o: Observation, answer: Lookup): Observation {
    match answer
    case Backend(e) => o.(destinationResolved := Some(e))
    case Frontend(e) => o.(sourceResolved := Some(e))
    case Unknown => o
  }

  datatype Reason = NoReason | RetryDeadline | TupleReused | QueueFull | CaptureEnded

  /** An encoded flow record: plain, or with the outcome of resolving its destination. */
  datatype Record =
    | Plain(observation: Observation)
    | Resolution(observation: Observation, resolved: bool, reason: Reason, attempts: nat)

  /** resolutionRecord. */
  function Concluded(item: Item, reason: Reason): Record {
    var resolved := item.observation.destinationResolved.Some?;
    Resolution(item.observation, resolved, if resolved then NoReason else reason, item.attempts)
  }

  // ---------- One pass over the pending list ----------

  /** A decision about an item: encode it now or keep it. */
  datatype Decided = Decided(item: Item, keep: bool)

  datatype Sifted = Sifted(records: seq<Record>, left: seq<Item>)

  /** Encode or keep, item by item. */
  function Sift(ds: seq<Decided>, reason: Reason): Sifted {
    if ds == [] then Sifted([], [])
    else
      var n := |ds| - 1;
      SiftOne(Sift(ds[..n], reason), ds[n], reason)
  }

  function SiftOne(s: Sifted, d: Decided, reason: Reason): Sifted {
    if d.keep then s.(left := s.left + [d.item]) else s.(records := s.records + [Concluded(d.item, reason)])
  }

  /** One retry: the resolver's answer and the elapsed-time clock. */
  datatype Retry = Retry(answer: Lookup, now: Time)

  function Retried(item: Item, r: Retry): Decided {
    var o := Resolve(item.observation, r.answer);
    Decided(Item(o, item.deadline, item.attempts + 1), o.destinationResolved.None? && r.now < item.deadline)
  }

  /** The retry tick's decisions. */
  function RetryAll(items: seq<Item>, rs: seq<Retry>): (ds: seq<Decided>)
    requires |rs| == |items|
    ensures |ds| == |items| && forall i :: 0 <= i < |items| ==> ds[i] == Retried(items[i], rs[i])
  {
    seq(|items|, i requires 0 <= i < |items| => Retried(items[i], rs[i]))
  }

  /** Whom a new connect on the same tuple ends. */
  function Superseding(items: seq<Item>, flow: FlowKey): (ds: seq<Decided>)
    ensures |ds| == |items| && forall i :: 0 <= i < |items| ==> ds[i] == Decided(items[i], items[i].observation.flow != flow)
  {
    seq(|items|, i requires 0 <= i < |items| => Decided(items[i], items[i].observation.flow != flow))
  }

  /** The end of the capture ends them all. */
  function Ending(items: seq<Item>): (ds: seq<Decided>)
    ensures |ds| == |items| && forall i :: 0 <= i < |items| ==> ds[i] == Decided(items[i], false)
  {
    seq(|items|, i requires 0 <= i < |items| => Decided(items[i], false))
  }

  // ---------- What a pass keeps ----------

  /** The observation as it was before any lookup. */
  function Original(o: Observation): Observation {
    o.(destinationResolved := None, sourceResolved := None)
  }

  /** The originals of the connects of one flow: already recorded, still waiting. */
  function Recorded(records: seq<Record>, flow: FlowKey): seq<Observation> {
    if records == [] then []
    else
      var n := |records| - 1;
      Recorded(records[..n], flow) + RecordedOne(records[n], flow)
  }

  function RecordedOne(r: Record, flow: FlowKey): seq<Observation> {
    if r.Resolution? && r.observation.flow == flow then [Original(r.observation)] else []
  }

  function Waiting(items: seq<Item>, flow: FlowKey): seq<Observation> {
    if items == [] then []
    else
      var n := |items| - 1;
      Waiting(items[..n], flow) + WaitingOne(items[n], flow)
  }

  function WaitingOne(item: Item, flow: FlowKey): seq<Observation> {
    if item.observation.flow == flow then [Original(item.observation)] else []
  }

  /** No two items have the same flow. */
  predicate Distinct(items: seq<Item>) {
    forall i, j :: 0 <= i < j < |items| ==> items[i].observation.flow != items[j].observation.flow
  }

  lemma {:induction false} RecordedConcat(a: seq<Record>, b: seq<Record>, flow: FlowKey)
    ensures Recorded(a + b, flow) == Recorded(a, flow) + Recorded(b, flow)
    decreases |b|
  {
    hide RecordedOne;
    if b == [] {
      assert a + b == a;
    } else {
      var n := |b| - 1;
      RecordedConcat(a, b[..n], flow);
      assert (a + b)[..|a + b| - 1] == a + b[..n];
    }
  }

  lemma RecordedSnoc(a: seq<Record>, r: Record, flow: FlowKey)
    ensures Recorded(a + [r], flow) == Recorded(a, flow) + RecordedOne(r, flow)
  {
    assert (a + [r])[..|a|] == a;
  }

  lemma WaitingSnoc(items: seq<Item>, item: Item, flow: FlowKey)
    ensures Waiting(items + [item], flow) == Waiting(items, flow) + WaitingOne(item, flow)
  {
    assert (items + [item])[..|items|] == items;
  }

  lemma {:induction false} NoneWaiting(items: seq<Item>, flow: FlowKey)
    requires forall i :: 0 <= i < |items| ==> items[i].observation.flow != flow
    ensures Waiting(items, flow) == []
    decreases |items|
  {
    if items != [] {
      NoneWaiting(items[..|items| - 1], flow);
    }
  }

  /** d decides about item without changing what was observed. */
  predicate About(d: Decided, item: Item) {
    Original(d.item.observation) == Original(item.observation)
  }

  ghost predicate AllAbout(ds: seq<Decided>, items: seq<Item>) {
    |ds| == |items| && forall i :: 0 <= i < |ds| ==> About(ds[i], items[i])
  }

  lemma AboutKeepsFlow(d: Decided, item: Item, flow: FlowKey)
    requires About(d, item)
    ensures WaitingOne(d.item, flow) == WaitingOne(item, flow)
    ensures forall reason: Reason :: RecordedOne(Concluded(d.item, reason), flow) == WaitingOne(item, flow)
  {
    assert Original(d.item.observation).flow == Original(item.observation).flow;
  }

  lemma Parts<T>(r: seq<T>, w: seq<T>, all: seq<T>, x: seq<T>)
    requires r + w == all
    ensures r + (w + x) == all + x
    ensures all == [] || x == [] ==> (r + x) + w == all + x
  {
  }

  lemma SiftOneKeepsFlow(s: Sifted, d: Decided, item: Item, before: seq<Item>, reason: Reason, flow: FlowKey)
    requires Recorded(s.records, flow) + Waiting(s.left, flow) == Waiting(before, flow)
    requires About(d, item) && (item.observation.flow == flow ==> Waiting(before, flow) == [])
    ensures var t := SiftOne(s, d, reason);
            Recorded(t.records, flow) + Waiting(t.left, flow) == Waiting(before, flow) + WaitingOne(item, flow)
  {
    AboutKeepsFlow(d, item, flow);
    WaitingSnoc(s.left, d.item, flow);
    RecordedSnoc(s.records, Concluded(d.item, reason), flow);
    assert item.observation.flow != flow ==> WaitingOne(item, flow) == [];
    hide Concluded, Original, About, Recorded, Waiting, RecordedOne, WaitingOne;
    Parts(Recorded(s.records, flow), Waiting(s.left, flow), Waiting(before, flow), WaitingOne(item, flow));
  }

  /** A pass loses, repeats and reorders nothing of any flow: what it records, then what it leaves,
      is what was waiting. */
  lemma {:induction false} SiftKeepsFlow(ds: seq<Decided>, items: seq<Item>, reason: Reason, flow: FlowKey)
    requires AllAbout(ds, items) && Distinct(items)
    ensures var s := Sift(ds, reason); Recorded(s.records, flow) + Waiting(s.left, flow) == Waiting(items, flow)
    decreases |ds|
  {
    hide Concluded, Original, About, Recorded, WaitingOne, SiftOne;
    if ds == [] {
      hide *;
      NothingSifted(ds, items, reason, flow);
    } else {
      var n := |ds| - 1;
      SiftKeepsFlow(ds[..n], items[..n], reason, flow);
      if items[n].observation.flow == flow {
        NoneWaiting(items[..n], flow);
      }
      SiftOneKeepsFlow(Sift(ds[..n], reason), ds[n], items[n], items[..n], reason, flow);
    }
  }

  lemma NothingSifted(ds: seq<Decided>, items: seq<Item>, reason: Reason, flow: FlowKey)
    requires ds == [] && items == []
    ensures var s := Sift(ds, reason); Recorded(s.records, flow) + Waiting(s.left, flow) == Waiting(items, flow)
  {
  }

  /** Everything a pass leaves was to be kept, and everything it records was not. */
  lemma {:induction false} SiftSources(ds: seq<Decided>, reason: Reason)
    ensures var s := Sift(ds, reason);
            && |s.left| <= |ds|
            && (forall j :: 0 <= j < |s.left| ==> IsKept(ds, s.left[j]))
            && (forall j :: 0 <= j < |s.records| ==> IsConcluded(ds, reason, s.records[j]))
    decreases |ds|
  {
    if ds != [] {
      var n := |ds| - 1;
      var s := Sift(ds[..n], reason);
      SiftSources(ds[..n], reason);
      hide Concluded;
      assert ds[n] == ds[..n + 1][n];
      forall j | 0 <= j < |s.left| ensures IsKept(ds, s.left[j]) {
        var i :| 0 <= i < n && ds[..n][i].keep && ds[..n][i].item == s.left[j];
        assert ds[i].keep && ds[i].item == s.left[j];
      }
      forall j | 0 <= j < |s.records| ensures IsConcluded(ds, reason, s.records[j]) {
        var i :| 0 <= i < n && !ds[..n][i].keep && Concluded(ds[..n][i].item, reason) == s.records[j];
        assert !ds[i].keep && Concluded(ds[i].item, reason) == s.records[j];
      }
    }
  }

  lemma {:induction false} SiftDropsAll(ds: seq<Decided>, reason: Reason)
    requires forall i :: 0 <= i < |ds| ==> !ds[i].keep
    ensures Sift(ds, reason).left == []
    decreases |ds|
  {
    if ds != [] {
      SiftDropsAll(ds[..|ds| - 1], reason);
    }
  }

  ghost predicate IsKept(ds: seq<Decided>, item: Item) {
    exists i :: 0 <= i < |ds| && ds[i].keep && ds[i].item == item
  }

  ghost predicate IsConcluded(ds: seq<Decided>, reason: Reason, r: Record) {
    exists i :: 0 <= i < |ds| && !ds[i].keep && Concluded(ds[i].item, reason) == r
  }

  lemma {:induction false} SiftDistinct(ds: seq<Decided>, items: seq<Item>, reason: Reason)
    requires AllAbout(ds, items) && Distinct(items)
    ensures Distinct(Sift(ds, reason).left)
    decreases |ds|
  {
    if ds != [] {
      var n := |ds| - 1;
      var s := Sift(ds[..n], reason);
      SiftDistinct(ds[..n], items[..n], reason);
      SiftSources(ds[..n], reason);
      forall j | 0 <= j < |s.left| ensures s.left[j].observation.flow != ds[n].item.observation.flow {
        var i :| 0 <= i < n && ds[..n][i].keep && ds[..n][i].item == s.left[j];
        SameFlow(ds[i], items[i]);
        SameFlow(ds[n], items[n]);
      }
    }
  }

  lemma SameFlow(d: Decided, item: Item)
    requires About(d, item)
    ensures d.item.observation.flow == item.observation.flow && d.item.observation.observedAt == item.observation.observedAt
  {
    assert Original(d.item.observation).flow == Original(item.observation).flow;
    assert Original(d.item.observation).observedAt == Original(item.observation).observedAt;
  }

  lemma RetryIsAbout(items: seq<Item>, rs: seq<Retry>)
    requires |rs| == |items|
    ensures AllAbout(RetryAll(items, rs), items)
  {
    forall i | 0 <= i < |items| ensures About(Retried(items[i], rs[i]), items[i]) {
    }
  }

  // ---------- The list as the event loop keeps it ----------

  /** The loop's pending list, the records it has encoded, and the egress connects it was handed. */
  datatype Ledger = Ledger(pending: seq<Item>, records: seq<Record>, seen: seq<Observation>)

  const EMPTY_LEDGER := Ledger([], [], [])

  function Swept(l: Ledger, ds: seq<Decided>, reason: Reason): Ledger {
    var s := Sift(ds, reason);
    Ledger(s.left, l.records + s.records, l.seen)
  }

  /** A new egress connect: it supersedes a waiting one on its tuple; then it waits, or is recorded
      at once when already resolved or when the list is full. The grace period is elapsed time. */
  function Taken(l: Ledger, o: Observation, now: Time): Ledger {
    Placed(Swept(l, Superseding(l.pending, o.flow), TupleReused), o, now)
  }

  function Placed(l: Ledger, o: Observation, now: Time): Ledger {
    var item := Item(o, now + RESOLUTION_GRACE, 1);
    var seen := l.seen + [Original(o)];
    if o.destinationResolved.None? && |l.pending| < MAX_PENDING
    then Ledger(l.pending + [item], l.records, seen)
    else Ledger(l.pending, l.records + [Concluded(item, QueueFull)], seen)
  }

  /** The connects of one flow among those seen. */
  function SeenOf(seen: seq<Observation>, flow: FlowKey): seq<Observation> {
    if seen == [] then []
    else
      var n := |seen| - 1;
      SeenOf(seen[..n], flow) + (if seen[n].flow == flow then [seen[n]] else [])
  }

  /** Flow by flow and in order, the connects seen are those recorded followed by the one waiting. */
  ghost predicate Faithful(l: Ledger) {
    forall flow :: Recorded(l.records, flow) + Waiting(l.pending, flow) == SeenOf(l.seen, flow)
  }

  /** Pending items are unresolved, on pairwise different flows, and at most MAX_PENDING. */
  ghost predicate Orderly(l: Ledger) {
    && |l.pending| <= MAX_PENDING && Distinct(l.pending)
    && forall i :: 0 <= i < |l.pending| ==> l.pending[i].observation.destinationResolved.None?
  }

  ghost predicate Sound(l: Ledger) {
    Faithful(l) && Orderly(l)
  }

  lemma Regroup<T>(r: seq<T>, s: seq<T>, w: seq<T>, all: seq<T>)
    requires s + w == all
    ensures (r + s) + w == r + all
  {
  }

  lemma SweptKeeps(l: Ledger, ds: seq<Decided>, reason: Reason)
    requires Sound(l) && AllAbout(ds, l.pending)
    requires forall i :: 0 <= i < |ds| && ds[i].keep ==> ds[i].item.observation.destinationResolved.None?
    ensures Sound(Swept(l, ds, reason))
  {
    var s := Sift(ds, reason);
    SiftSources(ds, reason);
    SiftDistinct(ds, l.pending, reason);
    hide Sift, Recorded, Waiting, SeenOf, AllAbout, IsConcluded, Distinct;
    forall flow ensures Recorded(l.records + s.records, flow) + Waiting(s.left, flow) == SeenOf(l.seen, flow) {
      SiftKeepsFlow(ds, l.pending, reason, flow);
      RecordedConcat(l.records, s.records, flow);
      Regroup(Recorded(l.records, flow), Recorded(s.records, flow), Waiting(s.left, flow), Waiting(l.pending, flow));
    }
  }

  lemma SupersedingIsAbout(items: seq<Item>, flow: FlowKey)
    ensures AllAbout(Superseding(items, flow), items)
  {
  }

  lemma NobodyLeft(l: Ledger, flow: FlowKey)
    ensures forall i :: 0 <= i < |Swept(l, Superseding(l.pending, flow), TupleReused).pending| ==>
                          Swept(l, Superseding(l.pending, flow), TupleReused).pending[i].observation.flow != flow
  {
    SiftSources(Superseding(l.pending, flow), TupleReused);
  }

  lemma SeenSnoc(seen: seq<Observation>, o: Observation, flow: FlowKey)
    ensures SeenOf(seen + [o], flow) == SeenOf(seen, flow) + if o.flow == flow then [o] else []
  {
    assert (seen + [o])[..|seen|] == seen;
  }

  lemma RecordedNow(l: Ledger, item: Item, reason: Reason)
    requires Sound(l)
    requires forall i :: 0 <= i < |l.pending| ==> l.pending[i].observation.flow != item.observation.flow
    ensures Sound(Ledger(l.pending, l.records + [Concluded(item, reason)], l.seen + [Original(item.observation)]))
  {
    var o := item.observation;
    forall flow
      ensures Recorded(l.records + [Concluded(item, reason)], flow) + Waiting(l.pending, flow) == SeenOf(l.seen + [Original(o)], flow)
    {
      RecordedSnoc(l.records, Concluded(item, reason), flow);
      SeenSnoc(l.seen, Original(o), flow);
      if o.flow == flow {
        NoneWaiting(l.pending, flow);
      }
      AboutKeepsFlow(Decided(item, false), item, flow);
      hide Recorded, Waiting, SeenOf, Concluded, Original, Orderly, RecordedOne;
      Parts(Recorded(l.records, flow), Waiting(l.pending, flow), SeenOf(l.seen, flow), WaitingOne(item, flow));
    }
  }

  lemma WaitsNow(l: Ledger, item: Item)
    requires Sound(l) && |l.pending| < MAX_PENDING && item.observation.destinationResolved.None?
    requires forall i :: 0 <= i < |l.pending| ==> l.pending[i].observation.flow != item.observation.flow
    ensures Sound(Ledger(l.pending + [item], l.records, l.seen + [Original(item.observation)]))
  {
    var o := item.observation;
    forall flow
      ensures Recorded(l.records, flow) + Waiting(l.pending + [item], flow) == SeenOf(l.seen + [Original(o)], flow)
    {
      WaitingSnoc(l.pending, item, flow);
      SeenSnoc(l.seen, Original(o), flow);
      hide Recorded, Waiting, SeenOf, Orderly;
      Parts(Recorded(l.records, flow), Waiting(l.pending, flow), SeenOf(l.seen, flow), WaitingOne(item, flow));
    }
  }

  /** A new connect keeps the ledger sound. */
  lemma TakenKeeps(l: Ledger, o: Observation, now: Time)
    requires Sound(l)
    ensures Sound(Taken(l, o, now))
  {
    SupersedingIsAbout(l.pending, o.flow);
    var swept := Swept(l, Superseding(l.pending, o.flow), TupleReused);
    SweptKeeps(l, Superseding(l.pending, o.flow), TupleReused);
    NobodyLeft(l, o.flow);
    hide Sound, Swept, Superseding, Concluded, Original;
    if o.destinationResolved.None? && |swept.pending| < MAX_PENDING {
      WaitsNow(swept, Item(o, now + RESOLUTION_GRACE, 1));
    } else {
      RecordedNow(swept, Item(o, now + RESOLUTION_GRACE, 1), QueueFull);
    }
  }

  /** A record that waited for nothing. */
  function Passed(l: Ledger, o: Observation): Ledger {
    l.(records := l.records + [Plain(o)])
  }

  lemma PassedKeeps(l: Ledger, o: Observation)
    requires Sound(l)
    ensures Sound(Passed(l, o))
  {
    forall flow ensures Recorded(Passed(l, o).records, flow) == Recorded(l.records, flow) {
      RecordedSnoc(l.records, Plain(o), flow);
      assert Recorded(l.records, flow) + [] == Recorded(l.records, flow);
    }
  }

  lemma EndingIsAbout(items: seq<Item>)
    ensures AllAbout(Ending(items), items)
  {
  }

  // ---------- What each operation does, item by item ----------

  function CountStays(stays: seq<bool>, n: nat): nat
    requires n <= |stays|
  {
    if n == 0 then 0 else CountStays(stays, n - 1) + if stays[n - 1] then 1 else 0
  }

  /** The items are dealt out in order: what stays is left as `after` says, the others are made records
      as `done` says, each once. */
  ghost predicate DealtOut(stays: seq<bool>, after: seq<Item>, done: seq<Record>, left: seq<Item>, made: seq<Record>)
    requires |stays| == |after| == |done|
  {
    && |left| == CountStays(stays, |stays|) && |left| + |made| == |stays|
    && forall i :: 0 <= i < |stays| ==> DealtOne(stays[i], after[i], done[i], left, made, CountStays(stays, i), i)
  }

  predicate DealtOne(stays: bool, after: Item, done: Record, left: seq<Item>, made: seq<Record>, before: nat, i: nat) {
    if stays then before < |left| && left[before] == after
    else 0 <= i - before < |made| && made[i - before] == done
  }

  lemma CountPrefix(stays: seq<bool>, m: nat, n: nat)
    requires m <= n <= |stays|
    ensures CountStays(stays[..n], m) == CountStays(stays, m)
    decreases m
  {
  }

  lemma DealtLater(stays: bool, after: Item, done: Record, s: Sifted, d: Decided, reason: Reason, before: nat, i: nat)
    requires DealtOne(stays, after, done, s.left, s.records, before, i)
    ensures DealtOne(stays, after, done, SiftOne(s, d, reason).left, SiftOne(s, d, reason).records, before, i)
  {
    hide Concluded;
  }

  lemma DealtNow(s: Sifted, d: Decided, reason: Reason)
    ensures var t := SiftOne(s, d, reason);
            && DealtOne(d.keep, d.item, Concluded(d.item, reason), t.left, t.records, |s.left|, |s.left| + |s.records|)
            && |t.left| == |s.left| + (if d.keep then 1 else 0) && |t.left| + |t.records| == |s.left| + |s.records| + 1
  {
    hide Concluded;
  }

  /** One more item changes nothing about the earlier ones. */
  lemma DealtEarlier(stays: seq<bool>, after: seq<Item>, done: seq<Record>, s: Sifted, d: Decided, reason: Reason, i: nat)
    requires |stays| == |after| == |done| && i < |stays| - 1
    requires DealtOut(stays[..|stays| - 1], after[..|stays| - 1], done[..|stays| - 1], s.left, s.records)
    ensures DealtOne(stays[i], after[i], done[i], SiftOne(s, d, reason).left, SiftOne(s, d, reason).records, CountStays(stays, i), i)
  {
    var n := |stays| - 1;
    CountPrefix(stays, i, n);
    hide CountStays, SiftOne, DealtOne, Concluded;
    assert DealtOne(stays[..n][i], after[..n][i], done[..n][i], s.left, s.records, CountStays(stays[..n], i), i);
    DealtLater(stays[i], after[i], done[i], s, d, reason, CountStays(stays, i), i);
  }

  lemma DealtSnoc(stays: seq<bool>, after: seq<Item>, done: seq<Record>, s: Sifted, d: Decided, reason: Reason)
    requires |stays| == |after| == |done| > 0
    requires var n := |stays| - 1;
             && DealtOut(stays[..n], after[..n], done[..n], s.left, s.records)
             && d.keep == stays[n] && d.item == after[n] && Concluded(d.item, reason) == done[n]
    ensures DealtOut(stays, after, done, SiftOne(s, d, reason).left, SiftOne(s, d, reason).records)
  {
    DealtCounts(stays, after, done, s, d, reason);
    forall i | 0 <= i < |stays| - 1
      ensures DealtOne(stays[i], after[i], done[i], SiftOne(s, d, reason).left, SiftOne(s, d, reason).records, CountStays(stays, i), i)
    {
      DealtEarlier(stays, after, done, s, d, reason, i);
    }
    hide Concluded, CountStays, SiftOne, DealtOne;
  }

  /** The last item is dealt behind the others. */
  lemma DealtCounts(stays: seq<bool>, after: seq<Item>, done: seq<Record>, s: Sifted, d: Decided, reason: Reason)
    requires |stays| == |after| == |done| > 0
    requires var n := |stays| - 1;
             && |s.left| == CountStays(stays[..n], n) && |s.left| + |s.records| == n
             && d.keep == stays[n] && d.item == after[n] && Concluded(d.item, reason) == done[n]
    ensures var n, t := |stays| - 1, SiftOne(s, d, reason);
            && |t.left| == CountStays(stays, |stays|) && |t.left| + |t.records| == |stays|
            && DealtOne(stays[n], after[n], done[n], t.left, t.records, CountStays(stays, n), n)
  {
    var n := |stays| - 1;
    CountPrefix(stays, n, n);
    CountLast(stays);
    DealtNow(s, d, reason);
    hide Concluded, CountStays, SiftOne, DealtOne;
  }

  lemma CountLast(stays: seq<bool>)
    requires stays != []
    ensures CountStays(stays, |stays|) == CountStays(stays, |stays| - 1) + if stays[|stays| - 1] then 1 else 0
  {
  }

  /** A pass deals out its items as its decisions say. */
  lemma {:induction false} SiftDeals(ds: seq<Decided>, reason: Reason, stays: seq<bool>, after: seq<Item>, done: seq<Record>)
    requires |stays| == |after| == |done| == |ds|
    requires forall i :: 0 <= i < |ds| ==>
               ds[i].keep == stays[i] && ds[i].item == after[i] && Concluded(ds[i].item, reason) == done[i]
    ensures var s := Sift(ds, reason); DealtOut(stays, after, done, s.left, s.records)
    decreases |ds|
  {
    hide Concluded, DealtOne, SiftOne;
    if ds != [] {
      var n := |ds| - 1;
      SiftDeals(ds[..n], reason, stays[..n], after[..n], done[..n]);
      hide DealtOut;
      DealtSnoc(stays, after, done, Sift(ds[..n], reason), ds[n], reason);
    }
  }

  /** An item waits on exactly if neither this answer nor an earlier one resolved it and its time is not up. */
  predicate StaysWaiting(item: Item, r: Retry) {
    item.observation.destinationResolved.None? && !r.answer.Backend? && r.now < item.deadline
  }

  /** A translated destination fills the destination, a translated source the source. */
  function FilledIn(o: Observation, answer: Lookup): Observation {
    o.(destinationResolved := if answer.Backend? then Some(answer.to) else o.destinationResolved,
       sourceResolved := if answer.Frontend? then Some(answer.from) else o.sourceResolved)
  }

  function RetriedItems(items: seq<Item>, rs: seq<Retry>): (r: seq<Item>)
    requires |rs| == |items|
    ensures |r| == |items|
  {
    seq(|items|, i requires 0 <= i < |items| =>
          Item(FilledIn(items[i].observation, rs[i].answer), items[i].deadline, items[i].attempts + 1))
  }

  /** The record of an item: resolved or not, the reason if not, and the number of lookups. */
  function RecordsOf(items: seq<Item>, reason: Reason): (r: seq<Record>)
    ensures |r| == |items|
  {
    seq(|items|, i requires 0 <= i < |items| =>
          if items[i].observation.destinationResolved.Some? then Resolution(items[i].observation, true, NoReason, items[i].attempts)
          else Resolution(items[i].observation, false, reason, items[i].attempts))
  }

  function WhoStays(items: seq<Item>, rs: seq<Retry>): (r: seq<bool>)
    requires |rs| == |items|
    ensures |r| == |items|
  {
    seq(|items|, i requires 0 <= i < |items| => StaysWaiting(items[i], rs[i]))
  }

  function OnOtherFlows(items: seq<Item>, flow: FlowKey): (r: seq<bool>)
    ensures |r| == |items|
  {
    seq(|items|, i requires 0 <= i < |items| => items[i].observation.flow != flow)
  }

  /** From l to t every item was looked up once more; those that stay are left, the others recorded. */
  ghost predicate RetryDone(l: Ledger, rs: seq<Retry>, t: Ledger)
    requires |rs| == |l.pending|
  {
    var again := RetriedItems(l.pending, rs);
    && l.records <= t.records && t.seen == l.seen
    && DealtOut(WhoStays(l.pending, rs), again, RecordsOf(again, RetryDeadline), t.pending, t.records[|l.records|..])
  }

  /** From l to t earlier connects on the flow were recorded as they are, the others left. */
  ghost predicate SupersedeDone(l: Ledger, flow: FlowKey, t: Ledger) {
    && l.records <= t.records && t.seen == l.seen
    && DealtOut(OnOtherFlows(l.pending, flow), l.pending, RecordsOf(l.pending, TupleReused), t.pending, t.records[|l.records|..])
  }

  lemma RetryDeals(l: Ledger, rs: seq<Retry>)
    requires |rs| == |l.pending|
    ensures RetryDone(l, rs, Swept(l, RetryAll(l.pending, rs), RetryDeadline))
  {
    var again := RetriedItems(l.pending, rs);
    SiftDeals(RetryAll(l.pending, rs), RetryDeadline, WhoStays(l.pending, rs), again, RecordsOf(again, RetryDeadline));
    AddedRecords(l.records, Sift(RetryAll(l.pending, rs), RetryDeadline).records);
    hide DealtOut;
  }

  lemma SupersedingDeals(l: Ledger, flow: FlowKey)
    ensures SupersedeDone(l, flow, Swept(l, Superseding(l.pending, flow), TupleReused))
  {
    SiftDeals(Superseding(l.pending, flow), TupleReused, OnOtherFlows(l.pending, flow), l.pending, RecordsOf(l.pending, TupleReused));
    AddedRecords(l.records, Sift(Superseding(l.pending, flow), TupleReused).records);
    hide DealtOut;
  }

  lemma AddedRecords(a: seq<Record>, b: seq<Record>)
    ensures a <= a + b && (a + b)[|a|..] == b
  {
  }

  /** The end of the capture records every item, in order. */
  lemma {:induction false} EndingDeals(items: seq<Item>)
    ensures Sift(Ending(items), CaptureEnded) == Sifted(RecordsOf(items, CaptureEnded), [])
    decreases |items|
  {
    if items != [] {
      var n := |items| - 1;
      EndingDeals(items[..n]);
      assert Ending(items)[..n] == Ending(items[..n]);
      assert RecordsOf(items, CaptureEnded) == RecordsOf(items[..n], CaptureEnded) + [Concluded(items[n], CaptureEnded)];
    }
  }

  /** From t to u, an unresolved connect waits for 250 ms if there is room; otherwise it is recorded at
      once, as resolved or as refused for want of room. */
  predicate ConnectDone(o: Observation, now: Time, t: Ledger, u: Ledger) {
    && u.seen == t.seen + [Original(o)]
    && if o.destinationResolved.None? && |t.pending| < 1024
       then u.pending == t.pending + [Item(o, now + 250_000_000, 1)] && u.records == t.records
       else u.pending == t.pending
            && u.records == t.records + [Resolution(o, o.destinationResolved.Some?,
                                                    if o.destinationResolved.Some? then NoReason else QueueFull, 1)]
  }

  /** A new connect first ends the earlier ones on its flow. */
  ghost predicate TakenDone(l: Ledger, o: Observation, now: Time, u: Ledger) {
    exists t :: SupersedeDone(l, o.flow, t) && ConnectDone(o, now, t, u)
  }

  lemma PlacedDone(t: Ledger, o: Observation, now: Time)
    ensures ConnectDone(o, now, t, Placed(t, o, now))
  {
    hide Original;
  }

  lemma TakenDeals(l: Ledger, o: Observation, now: Time)
    ensures TakenDone(l, o, now, Taken(l, o, now))
  {
    SupersedingDeals(l, o.flow);
    PlacedDone(Swept(l, Superseding(l.pending, o.flow), TupleReused), o, now);
    hide SupersedeDone, Swept, Superseding, ConnectDone, Placed;
  }

  /** After a retry tick every waiting connect has time left: its deadline is later than any time that
      all readings of the tick have reached. */
  lemma NobodyIsOverdue(items: seq<Item>, rs: seq<Retry>, now: Time)
    requires |rs| == |items| && forall i :: 0 <= i < |rs| ==> now <= rs[i].now
    ensures forall j :: 0 <= j < |Sift(RetryAll(items, rs), RetryDeadline).left| ==>
                          Sift(RetryAll(items, rs), RetryDeadline).left[j].deadline > now
  {
    SiftSources(RetryAll(items, rs), RetryDeadline);
  }

  /** The pending list and what it hands to the encoder. */
  class PendingList {
    var pending: seq<Item>
    var records: seq<Record>
    ghost var seen: seq<Observation>

    constructor ()
      ensures View() == EMPTY_LEDGER && Sound(View())
    {
      pending, records, seen := [], [], [];
      new;
      NothingIsSound();
    }

    ghost function View(): Ledger
      reads this
    {
      Ledger(pending, records, seen)
    }

    method Encode(r: Record)
      modifies this`records
      ensures records == old(records) + [r]
    {
      records := records + [r];
    }

    /** The retry tick. */
    method Retry(rs: seq<Retry>)
      requires Sound(View()) && |rs| == |pending|
      modifies this
      ensures Sound(View()) && View() == Swept(old(View()), RetryAll(old(pending), rs), RetryDeadline)
      ensures RetryDone(old(View()), rs, View())
    {
      ghost var ds := RetryAll(pending, rs);
      ghost var before := View();
      RetryIsAbout(pending, rs);
      SweptKeeps(View(), ds, RetryDeadline);
      hide Sound, Resolve, Original, AllAbout, RetryDone;
      var remaining := [];
      for i := 0 to |pending|
        invariant pending == before.pending && seen == before.seen && |rs| == |pending|
        invariant records == before.records + Sift(ds[..i], RetryDeadline).records
        invariant remaining == Sift(ds[..i], RetryDeadline).left
      {
        assert ds[..i + 1][..i] == ds[..i];
        var item := pending[i];
        item := item.(observation := Resolve(item.observation, rs[i].answer), attempts := item.attempts + 1);
        if item.observation.destinationResolved.Some? || !(rs[i].now < item.deadline) {
          Encode(Concluded(item, RetryDeadline));
        } else {
          remaining := remaining + [item];
        }
      }
      assert ds[..|ds|] == ds;
      pending := remaining;
      RetryDeals(before, rs);
    }

    /** End the earlier connects on the same tuple. */
    method Supersede(flow: FlowKey)
      requires Sound(View())
      modifies this
      ensures Sound(View()) && View() == Swept(old(View()), Superseding(old(pending), flow), TupleReused)
      ensures SupersedeDone(old(View()), flow, View())
    {
      ghost var ds := Superseding(pending, flow);
      ghost var before := View();
      SupersedingIsAbout(pending, flow);
      SweptKeeps(View(), ds, TupleReused);
      hide Sound, AllAbout, SupersedeDone;
      var remaining := [];
      for i := 0 to |pending|
        invariant pending == before.pending && seen == before.seen
        invariant records == before.records + Sift(ds[..i], TupleReused).records
        invariant remaining == Sift(ds[..i], TupleReused).left
      {
        assert ds[..i + 1][..i] == ds[..i];
        if pending[i].observation.flow == flow {
          Encode(Concluded(pending[i], TupleReused));
        } else {
          remaining := remaining + [pending[i]];
        }
      }
      assert ds[..|ds|] == ds;
      pending := remaining;
      SupersedingDeals(before, flow);
    }

    /** A new egress connect, at an elapsed time. */
    method Connect(o: Observation, now: Time)
      requires Sound(View())
      modifies this
      ensures Sound(View()) && View() == Taken(old(View()), o, now)
      ensures TakenDone(old(View()), o, now, View())
    {
      hide Sound, Superseding, Sift, Original, SupersedeDone, TakenDone;
      TakenKeeps(View(), o, now);
      TakenDeals(View(), o, now);
      Supersede(o.flow);
      var item := Item(o, now + RESOLUTION_GRACE, 1);
      seen := seen + [Original(o)];
      if o.destinationResolved.None? && |pending| < MAX_PENDING {
        pending := pending + [item];
      } else {
        Encode(Concluded(item, QueueFull));
      }
    }

    /** The capture was cut short: everything that waits is recorded as it is. */
    method End()
      requires Sound(View())
      modifies this
      ensures Sound(View()) && View() == Swept(old(View()), Ending(old(pending)), CaptureEnded) && pending == []
      ensures records == old(records) + RecordsOf(old(pending), CaptureEnded)
    {
      EndingDeals(pending);
      ghost var ds := Ending(pending);
      ghost var before := View();
      EndingIsAbout(pending);
      SweptKeeps(View(), ds, CaptureEnded);
      hide Sound, AllAbout, RecordsOf;
      for i := 0 to |pending|
        invariant pending == before.pending && seen == before.seen
        invariant records == before.records + Sift(ds[..i], CaptureEnded).records && Sift(ds[..i], CaptureEnded).left == []
      {
        assert ds[..i + 1][..i] == ds[..i];
        Encode(Concluded(pending[i], CaptureEnded));
      }
      assert ds[..|ds|] == ds;
      pending := [];
    }
  }

  lemma NothingIsSound()
    ensures Sound(EMPTY_LEDGER)
  {
  }
}
