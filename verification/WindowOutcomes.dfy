/** Which observations share a window, what a window tells of them, and which of two windows comes first. */
module WindowOutcomes {
  import opened Base
  import opened FlowTypes
  import opened Order
  import opened Windows

  // ---------- Buckets ----------

  lemma NextMultiple(p: int, q: int, size: int)
    requires size > 0 && p < q
    ensures p * size + size <= q * size
  {
    assert (q - p - 1) * size >= 0;
  }

  lemma SameMultiple(p: int, q: int, size: int)
    requires size > 0 && p * size < q * size + size && q * size < p * size + size
    ensures p == q
  {
    if p < q {
      NextMultiple(p, q, size);
    } else if q < p {
      NextMultiple(q, p, size);
    }
  }

  /** The start of the bucket of t is the multiple of the size at or before t and less than one size away. */
  lemma TruncateExactly(t: Time, size: int, r: Time)
    requires size > 0
    ensures Truncate(t, size) == r <==> (exists q: int :: r == q * size) && r <= t < r + size
  {
    assert Truncate(t, size) == (t / size) * size;
    if q: int :| r == q * size {
      if r <= t < r + size {
        SameMultiple(q, t / size, size);
      }
    }
  }

  // ---------- Keys ----------

  /** What grouping compares of a process. */
  predicate SameProcess(a: Option<Process>, b: Option<Process>) {
    && (a.Some? <==> b.Some?)
    && (a.Some? ==>
          && a.value.pid == b.value.pid && a.value.startTimeTicks == b.value.startTimeTicks && a.value.comm == b.value.comm
          && a.value.containerId == b.value.containerId && a.value.via == b.value.via)
  }

  /** An absent Pod counts as one whose fields are empty. */
  predicate SamePod(a: Option<Pod>, b: Option<Pod>) {
    (if a.Some? then a.value else Pod("", "", "")) == (if b.Some? then b.value else Pod("", "", ""))
  }

  /** Two observations share a window exactly if they agree on bucket, flow, resolved ends, process without its
      command line, and Pods. */
  lemma KeysExactly(o: Observation, p: Observation, size: int)
    requires size > 0
    ensures KeyFor(o, size) == KeyFor(p, size) <==>
            && Truncate(o.observedAt, size) == Truncate(p.observedAt, size) && o.flow == p.flow
            && o.sourceResolved == p.sourceResolved && o.destinationResolved == p.destinationResolved
            && SameProcess(o.process, p.process)
            && SamePod(o.sourcePod, p.sourcePod) && SamePod(o.destinationPod, p.destinationPod) && SamePod(o.observerPod, p.observerPod)
  {
    hide Truncate;
  }

  /** A window shows a Pod only if it has a UID. */
  predicate ShowsPod(shown: Option<Pod>, p: Option<Pod>) {
    shown == if p.Some? && p.value.uid != "" then p else None
  }

  /** The window of an observation starts at a multiple of the size, is that long, holds the observation's time,
      and shows its flow, resolved ends, process without command line, and named Pods. */
  lemma WindowShows(o: Observation, size: int)
    requires size > 0
    ensures var id := NewWindow(KeyFor(o, size), size).id;
            && id.windowStart <= o.observedAt < id.windowEnd == id.windowStart + size
            && (exists q: int :: id.windowStart == q * size)
            && id.flow == o.flow && id.sourceResolved == o.sourceResolved && id.destinationResolved == o.destinationResolved
            && SameProcess(id.process, o.process) && (id.process.Some? ==> id.process.value.cmdline == "")
            && ShowsPod(id.sourcePod, o.sourcePod) && ShowsPod(id.destinationPod, o.destinationPod)
            && ShowsPod(id.observerPod, o.observerPod)
  {
    TruncateExactly(o.observedAt, size, Truncate(o.observedAt, size));
    hide Truncate;
  }

  // ---------- Order ----------

  /** The text comparison is decided by the first difference; a proper prefix comes first. */
  lemma {:induction false} TextByFirstDifference(a: string, b: string, n: nat)
    requires n <= |a| && n <= |b| && a[..n] == b[..n]
    ensures n < |a| && n < |b| && a[n] != b[n] ==> (CompareText(a, b) < 0 <==> a[n] < b[n])
    ensures n == |a| < |b| ==> CompareText(a, b) < 0
    decreases n
  {
    if n > 0 {
      assert a[0] == a[..n][0] && b[0] == b[..n][0];
      assert a[1..][..n - 1] == a[..n][1..] && b[1..][..n - 1] == b[..n][1..];
      TextByFirstDifference(a[1..], b[1..], n - 1);
    }
  }

  /** The comparison of records is decided by the first field that differs. */
  lemma {:induction false} FieldsByFirstDifference(a: seq<Field>, b: seq<Field>, n: nat)
    requires |a| == |b| && n < |a| && a[..n] == b[..n] && a[n] != b[n]
    ensures CompareFields(a, b) == CompareField(a[n], b[n])
    decreases n
  {
    FieldOrder(a[n], b[n], a[n]);
    if n > 0 {
      assert a[0] == a[..n][0] && b[0] == b[..n][0];
      assert a[1..][..n - 1] == a[..n][1..] && b[1..][..n - 1] == b[..n][1..];
      FieldOrder(a[0], b[0], a[0]);
      FieldsByFirstDifference(a[1..], b[1..], n - 1);
    }
  }

  /** l and r agree on the first n of: start, node, protocol, direction, source address and port, destination
      address and port. */
  predicate AgreeOn(l: Identity, r: Identity, n: nat) {
    && (n >= 1 ==> l.windowStart == r.windowStart)
    && (n >= 2 ==> l.flow.nodeName == r.flow.nodeName)
    && (n >= 3 ==> l.flow.protocol == r.flow.protocol)
    && (n >= 4 ==> l.flow.direction == r.flow.direction)
    && (n >= 5 ==> l.flow.source.address == r.flow.source.address)
    && (n >= 6 ==> l.flow.source.port == r.flow.source.port)
    && (n >= 7 ==> l.flow.destination.address == r.flow.destination.address)
    && (n >= 8 ==> l.flow.destination.port == r.flow.destination.port)
  }

  lemma PrefixAgrees(l: Identity, r: Identity, n: nat)
    requires n <= 8 && AgreeOn(l, r, n)
    ensures Fields(l)[..n] == Fields(r)[..n]
  {
    assert |Fields(l)[..n]| == n == |Fields(r)[..n]|;
  }

  /** What comes first by the n-th of these. */
  predicate Precedes(l: Identity, r: Identity, n: nat) {
    if n == 0 then l.windowStart < r.windowStart
    else if n == 1 then CompareText(l.flow.nodeName, r.flow.nodeName) < 0
    else if n == 2 then CompareText(l.flow.protocol, r.flow.protocol) < 0
    else if n == 3 then CompareText(l.flow.direction, r.flow.direction) < 0
    else if n == 4 then CompareText(l.flow.source.address, r.flow.source.address) < 0
    else if n == 5 then l.flow.source.port < r.flow.source.port
    else if n == 6 then CompareText(l.flow.destination.address, r.flow.destination.address) < 0
    else l.flow.destination.port < r.flow.destination.port
  }

  lemma FieldAgrees(l: Identity, r: Identity, n: nat)
    requires n < 8 && AgreeOn(l, r, n)
    ensures Fields(l)[n] == Fields(r)[n] <==> AgreeOn(l, r, n + 1)
    ensures CompareField(Fields(l)[n], Fields(r)[n]) < 0 <==> Precedes(l, r, n)
  {
    hide CompareText;
  }

  /** Windows are sorted by start, then by node, protocol, direction, source and destination: the first of
      these on which two windows differ decides. */
  lemma OrderExactly(l: Window, r: Window, n: nat)
    requires n < 8 && AgreeOn(l.id, r.id, n) && !AgreeOn(l.id, r.id, n + 1)
    ensures Less(l, r) <==> Precedes(l.id, r.id, n)
  {
    PrefixAgrees(l.id, r.id, n);
    FieldAgrees(l.id, r.id, n);
    FieldsByFirstDifference(Fields(l.id), Fields(r.id), n);
    hide CompareFields, CompareField, AgreeOn, Precedes;
  }
}
