/** The indexed heap of pending queries (internal/dns/pending.go over Go's container/heap). */
module DnsHeaps {
  import opened DnsTypes

  /** A pending query object; only its heap position changes. */
  class PendingQuery {
    const value: Query
    const key: Key
    var index: int

    constructor (value: Query, key: Key)
      ensures this.value == value && this.key == key
    {
      this.value, this.key, index := value, key, -1;
    }
  }

  // ---------- Heap order on sequences ----------

  function Parent(c: nat): nat
    requires c > 0
  {
    (c - 1) / 2
  }

  predicate Less(a: PendingQuery, b: PendingQuery) {
    Before(a.value, b.value)
  }

  /** Within the first n slots, slot c is not before its parent. */
  predicate Fine(s: seq<PendingQuery>, c: nat)
    requires 0 < c < |s|
  {
    !Less(s[c], s[Parent(c)])
  }

  /** Every child of slot i is not before i's own parent: i may be overwritten. */
  predicate Bridged(s: seq<PendingQuery>, n: nat, i: nat)
    requires n <= |s|
  {
    forall c :: 0 < c < n && Parent(c) == i && i > 0 ==> !Less(s[c], s[Parent(i)])
  }

  /** The first n slots form a heap, except that slot `up` may be before its parent and the
      children of slot `down` may be before it (-1: no exception). */
  predicate HeapBut(s: seq<PendingQuery>, n: nat, up: int, down: int)
    requires n <= |s|
  {
    forall c :: 0 < c < n && c != up && Parent(c) != down ==> Fine(s, c)
  }

  predicate Heap(s: seq<PendingQuery>) {
    HeapBut(s, |s|, -1, -1)
  }

  /** The root of a heap is first. */
  lemma {:induction false} RootIsFirst(s: seq<PendingQuery>, c: nat)
    requires Heap(s) && c < |s|
    ensures !Less(s[c], s[0])
    decreases c
  {
    if c > 0 {
      assert Fine(s, c);
      RootIsFirst(s, Parent(c));
    }
  }

  function Swapped<T>(s: seq<T>, i: nat, j: nat): (r: seq<T>)
    requires i < |s| && j < |s|
    ensures |r| == |s| && multiset(r) == multiset(s)
  {
    s[i := s[j]][j := s[i]]
  }

  lemma SwapUp(s: seq<PendingQuery>, n: nat, j: nat)
    requires 0 < j < n <= |s| && HeapBut(s, n, j, -1) && Bridged(s, n, j) && Less(s[j], s[Parent(j)])
    ensures var r := Swapped(s, Parent(j), j); HeapBut(r, n, Parent(j), -1) && Bridged(r, n, Parent(j))
  {
    var i, r := Parent(j), Swapped(s, Parent(j), j);
    forall c | 0 < c < n && c != i ensures Fine(r, c) {
      if c != j {
        assert Fine(s, c);
      }
    }
    forall c | 0 < c < n && Parent(c) == i && i > 0 ensures !Less(r[c], r[Parent(i)]) {
      assert Fine(s, i);
      if c != j {
        assert Fine(s, c);
      }
    }
  }

  lemma SwapDown(s: seq<PendingQuery>, n: nat, start: nat, i: nat, j: nat)
    requires start <= i < j < n <= |s| && Parent(j) == i
    requires HeapBut(s, n, if i == start then start else -1, i) && Bridged(s, n, i)
    requires Less(s[j], s[i]) && forall c :: 0 < c < n && Parent(c) == i ==> !Less(s[c], s[j])
    ensures var r := Swapped(s, i, j); HeapBut(r, n, -1, j) && Bridged(r, n, j)
  {
    var r := Swapped(s, i, j);
    forall c | 0 < c < n && Parent(c) != j ensures Fine(r, c) {
      if c == i {
        assert r[Parent(i)] == s[Parent(i)];
      } else if Parent(c) != i {
        assert Fine(s, c);
      }
    }
    forall c | 0 < c < n && Parent(c) == j ensures !Less(r[c], r[i]) {
      assert Fine(s, c);
    }
  }

  lemma SettledUp(s: seq<PendingQuery>, n: nat, j: nat)
    requires j < n <= |s| && HeapBut(s, n, j, -1) && (j > 0 ==> !Less(s[j], s[Parent(j)]))
    ensures HeapBut(s, n, -1, -1)
  {
  }

  lemma SettledDown(s: seq<PendingQuery>, n: nat, up: int, i: nat)
    requires i < n <= |s| && HeapBut(s, n, up, i)
    requires 2 * i + 1 < n ==> !Less(s[2 * i + 1], s[i])
    requires 2 * i + 2 < n ==> !Less(s[2 * i + 2], s[i])
    ensures HeapBut(s, n, up, -1)
  {
    forall c | 0 < c < n && c != up && Parent(c) == i ensures Fine(s, c) {
      assert c == 2 * i + 1 || c == 2 * i + 2;
    }
  }

  /** The child that should come first, as down picks it. */
  function FirstChild(s: seq<PendingQuery>, n: nat, i: nat): (j: nat)
    requires 2 * i + 1 < n <= |s|
    ensures i < j < n && Parent(j) == i
  {
    if 2 * i + 2 < n && Less(s[2 * i + 2], s[2 * i + 1]) then 2 * i + 2 else 2 * i + 1
  }

  lemma FirstChildIsFirst(s: seq<PendingQuery>, n: nat, i: nat)
    requires 2 * i + 1 < n <= |s|
    ensures forall c :: 0 < c < n && Parent(c) == i ==> !Less(s[c], s[FirstChild(s, n, i)])
  {
    forall c | 0 < c < n && Parent(c) == i ensures !Less(s[c], s[FirstChild(s, n, i)]) {
      assert c == 2 * i + 1 || c == 2 * i + 2;
    }
  }

  /** Moving the last query into slot i leaves a heap that is open only around i. */
  lemma Replaceable(s: seq<PendingQuery>, i: nat)
    requires Heap(s) && i < |s| - 1
    ensures var r, n := Swapped(s, i, |s| - 1), |s| - 1;
            HeapBut(r, n, i, i) && Bridged(r, n, i)
  {
    var n := |s| - 1;
    var r := Swapped(s, i, n);
    forall c | 0 < c < n && c != i && Parent(c) != i ensures Fine(r, c) {
      assert Fine(s, c);
    }
    forall c | 0 < c < n && Parent(c) == i && i > 0 ensures !Less(r[c], r[Parent(i)]) {
      assert Fine(s, c) && Fine(s, i);
    }
  }

  lemma CutLast(s: seq<PendingQuery>)
    requires |s| > 0 && HeapBut(s, |s| - 1, -1, -1)
    ensures Heap(s[..|s| - 1]) && multiset(s[..|s| - 1]) == multiset(s) - multiset{s[|s| - 1]}
  {
    var n := |s| - 1;
    assert s == s[..n] + [s[n]];
    forall c | 0 < c < n ensures Fine(s[..n], c) {
      assert Fine(s, c);
    }
  }

  lemma AppendOpen(s: seq<PendingQuery>, q: PendingQuery)
    requires Heap(s)
    ensures HeapBut(s + [q], |s| + 1, |s|, -1) && Bridged(s + [q], |s| + 1, |s|)
  {
    forall c | 0 < c < |s| ensures Fine(s + [q], c) {
      assert Fine(s, c);
    }
  }

  // ---------- The heap object ----------

  /** Same queries, the slots from n on untouched. */
  ghost predicate Rearranged(s: seq<PendingQuery>, t: seq<PendingQuery>, n: nat) {
    && |s| == |t| && multiset(s) == multiset(t)
    && (forall c :: n <= c < |s| ==> s[c] == t[c])
    && (forall c :: 0 <= c < |s| ==> s[c] in t)
  }

  lemma SwapRearranges(s: seq<PendingQuery>, t: seq<PendingQuery>, n: nat, i: nat, j: nat)
    requires Rearranged(s, t, n) && i < n && j < n <= |s|
    ensures Rearranged(Swapped(s, i, j), t, n)
  {
  }

  class PendingHeap {
    var items: seq<PendingQuery>

    constructor ()
      ensures items == []
    {
      items := [];
    }

    /** Each query knows its slot; so no query is held twice. */
    ghost predicate Indexed()
      reads this, items
    {
      forall i :: 0 <= i < |items| ==> items[i].index == i
    }

    ghost predicate Valid()
      reads this, items
    {
      Indexed() && Heap(items)
    }

    method Swap(i: nat, j: nat)
      requires Indexed() && i < |items| && j < |items|
      modifies this, items[i], items[j]
      ensures Indexed() && items == Swapped(old(items), i, j)
    {
      ghost var before := items;
      items := items[i := items[j]][j := items[i]];
      items[i].index := i;
      items[j].index := j;
      forall c | 0 <= c < |items| ensures items[c].index == c {
        assert c != i && c != j ==> items[c] == before[c] && items[c] != items[i] && items[c] != items[j];
      }
    }

    /** container/heap up. */
    method Up(start: nat, ghost n: nat)
      requires Indexed() && start < n <= |items| && HeapBut(items, n, start, -1) && Bridged(items, n, start)
      modifies this, items
      ensures Indexed() && Rearranged(items, old(items), n) && HeapBut(items, n, -1, -1)
    {
      hide HeapBut, Bridged, Before;
      var j := start;
      while j > 0
        invariant 0 <= j < n <= |items|
        invariant Indexed() && Rearranged(items, old(items), n)
        invariant HeapBut(items, n, j, -1) && Bridged(items, n, j)
      {
        var i := Parent(j);
        if !Less(items[j], items[i]) {
          break;
        }
        SwapUp(items, n, j);
        SwapRearranges(items, old(items), n, i, j);
        Swap(i, j);
        j := i;
      }
      SettledUp(items, n, j);
    }

    /** container/heap down over the first n slots; tells whether anything moved. */
    method Down(start: nat, n: nat) returns (moved: bool)
      requires Indexed() && start < n <= |items| && HeapBut(items, n, start, start) && Bridged(items, n, start)
      modifies this, items
      ensures Indexed() && Rearranged(items, old(items), n)
      ensures HeapBut(items, n, if moved then -1 else start, -1)
      ensures !moved ==> items == old(items)
    {
      hide HeapBut, Bridged, Before;
      var i := start;
      while 2 * i + 1 < n
        invariant start <= i < n <= |items|
        invariant Indexed() && Rearranged(items, old(items), n)
        invariant HeapBut(items, n, if i == start then start else -1, i) && Bridged(items, n, i)
        invariant i == start ==> items == old(items)
        decreases n - i
      {
        var j := FirstChild(items, n, i);
        FirstChildIsFirst(items, n, i);
        if !Less(items[j], items[i]) {
          break;
        }
        SwapDown(items, n, start, i, j);
        SwapRearranges(items, old(items), n, i, j);
        Swap(i, j);
        i := j;
      }
      ChildrenSettled(items, n, i);
      SettledDown(items, n, if i == start then start else -1, i);
      moved := i > start;
    }

    /** heap.Push: append, then sift up. */
    method Push(q: PendingQuery)
      requires Valid() && q !in items
      modifies this, items, q
      ensures Valid() && multiset(items) == old(multiset(items)) + multiset{q}
    {
      AppendOpen(items, q);
      q.index := |items|;
      items := items + [q];
      Up(|items| - 1, |items|);
    }

    /** Overwrite slot i by the last query, which gives up its slot, and restore the order. */
    method Replace(i: nat)
      requires Valid() && i < |items| - 1
      modifies this, items
      ensures Indexed() && Rearranged(items, old(items), |items|)
      ensures items[|items| - 1] == old(items[i]) && HeapBut(items, |items| - 1, -1, -1)
    {
      hide HeapBut, Bridged, Before;
      var n := |items| - 1;
      Replaceable(items, i);
      Swap(i, n);
      var moved := Down(i, n);
      if !moved {
        Up(i, n);
      }
    }

    /** heap.Pop: cut the last slot. */
    method Pop() returns (q: PendingQuery)
      requires Indexed() && |items| > 0 && HeapBut(items, |items| - 1, -1, -1)
      modifies this, items
      ensures Valid() && q == old(items[|items| - 1]) && items == old(items[..|items| - 1]) && q.index == -1
    {
      CutLast(items);
      q := items[|items| - 1];
      items := items[..|items| - 1];
      q.index := -1;
    }

    /** heap.Remove. */
    method Remove(i: nat)
      requires Valid() && i < |items|
      modifies this, items
      ensures Valid() && multiset(items) == old(multiset(items)) - multiset{old(items[i])}
    {
      hide HeapBut, Less;
      ghost var gone := items[i];
      if i == |items| - 1 {
        WholeHeapCut(items);
      } else {
        Replace(i);
      }
      assert multiset(items) == old(multiset(items)) && items[|items| - 1] == gone;
      CutLast(items);
      var q := Pop();
    }
  }

  lemma WholeHeapCut(s: seq<PendingQuery>)
    requires Heap(s) && |s| > 0
    ensures HeapBut(s, |s| - 1, -1, -1)
  {
  }

  /** Why down stops: no child should come before slot i. */
  lemma ChildrenSettled(s: seq<PendingQuery>, n: nat, i: nat)
    requires i < n <= |s|
    requires 2 * i + 1 < n ==> !Less(s[FirstChild(s, n, i)], s[i])
    ensures 2 * i + 1 < n ==> !Less(s[2 * i + 1], s[i])
    ensures 2 * i + 2 < n ==> !Less(s[2 * i + 2], s[i])
  {
  }
}
