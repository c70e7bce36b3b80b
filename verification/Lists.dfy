/** Sequences seen as listings of maps and as results of sorting by a comparison. */
module Lists {
  import opened Base

  predicate NoDup<T(==)>(s: seq<T>) {
    forall i, j :: 0 <= i < j < |s| ==> s[i] != s[j]
  }

  /** The values of m under the given keys. */
  function Look<K, V>(m: map<K, V>, keys: seq<K>): (s: seq<V>)
    requires forall i :: 0 <= i < |keys| ==> keys[i] in m
    ensures |s| == |keys| && forall i :: 0 <= i < |s| ==> s[i] == m[keys[i]]
  {
    seq(|keys|, i requires 0 <= i < |keys| => m[keys[i]])
  }

  /** keys enumerates the domain of m without repetition. */
  ghost predicate Enumerates<K(!new), V>(keys: seq<K>, m: map<K, V>) {
    NoDup(keys) && (forall i :: 0 <= i < |keys| ==> keys[i] in m) && (forall k :: k in m ==> k in keys)
  }

  /** The values of m, each key's once, in some order. */
  ghost predicate Listing<K(!new), V>(s: seq<V>, m: map<K, V>) {
    exists keys :: Enumerates(keys, m) && multiset(s) == multiset(Look(m, keys))
  }

  /** Take one occurrence of x out of s. */
  lemma TakeOut<T>(s: seq<T>, x: T) returns (a: seq<T>, b: seq<T>)
    requires x in multiset(s)
    ensures s == a + [x] + b && multiset(a + b) == multiset(s) - multiset{x}
  {
    var i :| 0 <= i < |s| && s[i] == x;
    a, b := s[..i], s[i + 1..];
    assert s == a + [x] + b;
    assert multiset(s) == multiset(a) + multiset{x} + multiset(b);
  }

  lemma DropLast<T>(s: seq<T>)
    requires s != []
    ensures s == s[..|s| - 1] + [s[|s| - 1]]
    ensures multiset(s[..|s| - 1]) == multiset(s) - multiset{s[|s| - 1]}
  {
    assert s == s[..|s| - 1] + [s[|s| - 1]];
  }

  lemma DropFirst<T>(s: seq<T>)
    requires s != []
    ensures s == [s[0]] + s[1..]
    ensures multiset(s[1..]) == multiset(s) - multiset{s[0]}
  {
    assert s == [s[0]] + s[1..];
  }

  lemma LookConcat<K, V>(m: map<K, V>, a: seq<K>, k: K, b: seq<K>)
    requires k in m
    requires forall i :: 0 <= i < |a| ==> a[i] in m
    requires forall i :: 0 <= i < |b| ==> b[i] in m
    ensures multiset(Look(m, a + [k] + b)) == multiset(Look(m, a + b)) + multiset{m[k]}
  {
    assert Look(m, a + [k] + b) == Look(m, a) + [m[k]] + Look(m, b);
    assert Look(m, a + b) == Look(m, a) + Look(m, b);
  }

  lemma {:induction false} LookOfPermutation<K, V>(m: map<K, V>, a: seq<K>, b: seq<K>)
    requires multiset(a) == multiset(b)
    requires forall i :: 0 <= i < |a| ==> a[i] in m
    requires forall i :: 0 <= i < |b| ==> b[i] in m
    ensures multiset(Look(m, a)) == multiset(Look(m, b))
    decreases |a|
  {
    if a == [] {
      assert |multiset(b)| == |b|;
    } else {
      var last := a[|a| - 1];
      DropLast(a);
      assert last in multiset(a);
      var b0, b1 := TakeOut(b, last);
      assert forall i :: 0 <= i < |b0| ==> b0[i] == b[i];
      assert forall i :: 0 <= i < |b1| ==> b1[i] == b[|b0| + 1 + i];
      LookOfPermutation(m, a[..|a| - 1], b0 + b1);
      assert a == a[..|a| - 1] + [last] + [] && a[..|a| - 1] + [] == a[..|a| - 1];
      LookConcat(m, a[..|a| - 1], last, []);
      LookConcat(m, b0, last, b1);
    }
  }

  lemma NoDupCounts<T>(s: seq<T>, x: T)
    requires NoDup(s)
    ensures multiset(s)[x] == if x in s then 1 else 0
  {
    if x in s {
      var i :| 0 <= i < |s| && s[i] == x;
      assert s == s[..i] + [x] + s[i + 1..];
      assert x !in s[..i] && x !in s[i + 1..];
    }
  }

  /** All listings of a map hold the same values equally often. */
  lemma ListingsAgree<K(!new), V>(a: seq<V>, b: seq<V>, m: map<K, V>)
    requires Listing(a, m) && Listing(b, m)
    ensures multiset(a) == multiset(b)
  {
    var ka :| Enumerates(ka, m) && multiset(a) == multiset(Look(m, ka));
    var kb :| Enumerates(kb, m) && multiset(b) == multiset(Look(m, kb));
    forall k: K ensures multiset(ka)[k] == multiset(kb)[k] {
      NoDupCounts(ka, k);
      NoDupCounts(kb, k);
    }
    LookOfPermutation(m, ka, kb);
  }

  /** List a map; Go's map iteration may take any order. */
  method ListMap<K(==, !new), V>(m: map<K, V>) returns (s: seq<V>)
    ensures Listing(s, m)
  {
    s := [];
    var rest := m.Keys;
    ghost var keys: seq<K> := [];
    while rest != {}
      invariant rest <= m.Keys && NoDup(keys)
      invariant forall i :: 0 <= i < |keys| ==> keys[i] in m && keys[i] !in rest
      invariant forall k :: k in m ==> k in rest || k in keys
      invariant s == Look(m, keys)
    {
      var k :| k in rest;
      s, keys, rest := s + [m[k]], keys + [k], rest - {k};
    }
  }

  // ---------- Sorting ----------

  /** No element precedes one that should come before it: all that sort.Slice promises. */
  ghost predicate Sorted<T(!new)>(s: seq<T>, less: (T, T) -> bool) {
    forall i, j :: 0 <= i < j < |s| ==> !less(s[j], s[i])
  }

  /** `less` is a strict weak order. */
  ghost predicate Ordering<T(!new)>(less: (T, T) -> bool) {
    && (forall x, y :: less(x, y) ==> !less(y, x))
    && (forall x, y, z :: !less(y, x) && !less(z, y) ==> !less(z, x))
  }

  method Insert<T(!new)>(s: seq<T>, w: T, less: (T, T) -> bool) returns (r: seq<T>)
    requires Sorted(s, less) && Ordering(less)
    ensures Sorted(r, less) && multiset(r) == multiset(s) + multiset{w}
  {
    var p := |s|;
    while p > 0 && less(w, s[p - 1])
      invariant 0 <= p <= |s|
      invariant forall j :: p <= j < |s| ==> less(w, s[j])
    {
      p := p - 1;
    }
    r := s[..p] + [w] + s[p..];
    assert s == s[..p] + s[p..];
    InsertedSorted(s, p, w, less);
  }

  lemma InsertedSorted<T(!new)>(s: seq<T>, p: nat, w: T, less: (T, T) -> bool)
    requires p <= |s| && Sorted(s, less) && Ordering(less)
    requires forall j :: p <= j < |s| ==> less(w, s[j])
    requires p > 0 ==> !less(w, s[p - 1])
    ensures Sorted(s[..p] + [w] + s[p..], less)
  {
    var r := s[..p] + [w] + s[p..];
    forall i, j | 0 <= i < j < |r|
      ensures !less(r[j], r[i])
    {
      var si := if i < p then s[i] else if i == p then w else s[i - 1];
      var sj := if j < p then s[j] else if j == p then w else s[j - 1];
      assert r[i] == si && r[j] == sj;
      if j == p && i < p - 1 {
        assert !less(s[p - 1], s[i]);
      }
    }
  }

  /** Some sorting of s: which one is left open where `less` does not decide. */
  method Sort<T(!new)>(s: seq<T>, less: (T, T) -> bool) returns (r: seq<T>)
    requires Ordering(less)
    ensures Sorted(r, less) && multiset(r) == multiset(s)
  {
    r := [];
    for i := 0 to |s|
      invariant Sorted(r, less) && multiset(r) == multiset(s[..i])
    {
      assert s[..i + 1] == s[..i] + [s[i]];
      r := Insert(r, s[i], less);
    }
    assert s[..|s|] == s;
  }

  lemma HeadIsNotAfter<T(!new)>(a: seq<T>, x: T, less: (T, T) -> bool)
    requires Sorted(a, less) && Ordering(less) && x in multiset(a)
    ensures a != [] && !less(x, a[0])
  {
    var i :| 0 <= i < |a| && a[i] == x;
  }

  /** `less` decides between any two different elements. */
  ghost predicate Decides<T(!new)>(s: multiset<T>, less: (T, T) -> bool) {
    forall x, y :: x in s && y in s && !less(x, y) && !less(y, x) ==> x == y
  }

  /** Where `less` decides between all elements, there is only one sorted order. */
  lemma {:induction false} SortedUnique<T(!new)>(a: seq<T>, b: seq<T>, less: (T, T) -> bool)
    requires multiset(a) == multiset(b) && Sorted(a, less) && Sorted(b, less)
    requires Ordering(less) && Decides(multiset(a), less)
    ensures a == b
    decreases |a|
  {
    if a == [] {
      assert |multiset(b)| == |b|;
    } else {
      var x := a[0];
      assert x in multiset(a);
      HeadIsNotAfter(b, x, less);
      var y := b[0];
      assert y in multiset(b);
      HeadIsNotAfter(a, y, less);
      assert x == y;
      DropFirst(a);
      DropFirst(b);
      TailSorted(a, less);
      TailSorted(b, less);
      assert multiset(a[1..]) <= multiset(a);
      SortedUnique(a[1..], b[1..], less);
    }
  }

  lemma TailSorted<T(!new)>(s: seq<T>, less: (T, T) -> bool)
    requires s != [] && Sorted(s, less)
    ensures Sorted(s[1..], less)
  {
    forall i, j | 0 <= i < j < |s[1..]| ensures !less(s[1..][j], s[1..][i]) {
      assert s[1..][i] == s[i + 1] && s[1..][j] == s[j + 1];
    }
  }

  // ---------- Parts of maps ----------

  /** The entries of m whose value satisfies p. */
  function Where<K, V>(m: map<K, V>, p: V -> bool): map<K, V> {
    map k | k in m && p(m[k]) :: m[k]
  }

  function Others<K, V>(m: map<K, V>, p: V -> bool): map<K, V> {
    map k | k in m && !p(m[k]) :: m[k]
  }

  method Partition<K(==), V>(m: map<K, V>, p: V -> bool) returns (taken: map<K, V>, left: map<K, V>)
    ensures taken == Where(m, p) && left == Others(m, p)
  {
    taken, left := map[], m;
    var rest := m.Keys;
    while rest != {}
      invariant rest <= m.Keys
      invariant taken == map k | k in m && k !in rest && p(m[k]) :: m[k]
      invariant left == map k | k in m && (k in rest || !p(m[k])) :: m[k]
    {
      var k :| k in rest;
      rest := rest - {k};
      if p(m[k]) {
        taken, left := taken[k := m[k]], left - {k};
      }
    }
  }

  /** u and w have no key in common and together are t. */
  ghost predicate Shares<K(!new), V>(u: map<K, V>, w: map<K, V>, t: map<K, V>) {
    && (forall k :: k in u ==> k !in w && k in t && t[k] == u[k])
    && (forall k :: k in w ==> k in t && t[k] == w[k])
    && (forall k :: k in t ==> k in u || k in w)
  }

  lemma SubsetIsSmaller<T>(a: set<T>, b: set<T>)
    requires a <= b
    ensures |a| <= |b|
  {
    assert b == a + (b - a);
  }

  lemma UpdateShared<K(!new), V>(u: map<K, V>, w: map<K, V>, t: map<K, V>, k: K, v: V)
    requires Shares(u, w, t) && k !in u
    ensures Shares(u, w[k := v], t[k := v])
    ensures |w[k := v]| == if k in w then |w| else |w| + 1
  {
    assert w[k := v].Keys == w.Keys + {k};
    assert |w[k := v]| == |w[k := v].Keys|;
  }

  /** Entries may move from w over to u. */
  lemma MoveShared<K(!new), V>(u: map<K, V>, w: map<K, V>, t: map<K, V>, p: V -> bool)
    requires Shares(u, w, t)
    ensures u.Keys !! Where(w, p).Keys
    ensures Shares(u + Where(w, p), Others(w, p), t)
    ensures |Others(w, p)| <= |w|
  {
    SubsetIsSmaller(Others(w, p).Keys, w.Keys);
  }

  /** Marking some entries of w and erasing all marks gives back t. */
  lemma EraseShared<K(!new), V>(u: map<K, V>, w: map<K, V>, t: map<K, V>, p: V -> bool, mark: V -> V, erase: V -> V)
    requires Shares(u, w, t)
    requires forall k :: k in t ==> erase(t[k]) == t[k] && erase(mark(t[k])) == t[k]
    ensures u.Keys !! (Where(w, p) + MappedValues(mark, Others(w, p))).Keys
    ensures MappedValues(erase, u + (Where(w, p) + MappedValues(mark, Others(w, p)))) == t
  {
    var last := Where(w, p) + MappedValues(mark, Others(w, p));
    assert forall k :: k in last <==> k in w;
    forall k | k in t ensures k in u + last && erase((u + last)[k]) == t[k] {
    }
  }

  lemma LookUnion<K, V>(m: map<K, V>, n: map<K, V>, ka: seq<K>, kb: seq<K>)
    requires m.Keys !! n.Keys
    requires forall i :: 0 <= i < |ka| ==> ka[i] in m
    requires forall i :: 0 <= i < |kb| ==> kb[i] in n
    ensures forall i :: 0 <= i < |ka + kb| ==> (ka + kb)[i] in m + n
    ensures Look(m + n, ka + kb) == Look(m, ka) + Look(n, kb)
  {
  }

  lemma ListingUnion<K(!new), V>(a: seq<V>, m: map<K, V>, b: seq<V>, n: map<K, V>)
    requires Listing(a, m) && Listing(b, n) && m.Keys !! n.Keys
    ensures Listing(a + b, m + n)
  {
    var ka :| Enumerates(ka, m) && multiset(a) == multiset(Look(m, ka));
    var kb :| Enumerates(kb, n) && multiset(b) == multiset(Look(n, kb));
    LookUnion(m, n, ka, kb);
    assert Enumerates(ka + kb, m + n);
  }

  function Mapped<A, B>(f: A -> B, s: seq<A>): (r: seq<B>)
    ensures |r| == |s| && forall i :: 0 <= i < |r| ==> r[i] == f(s[i])
  {
    seq(|s|, i requires 0 <= i < |s| => f(s[i]))
  }

  lemma MappedCons<A, B>(f: A -> B, x: A, s: seq<A>)
    ensures Mapped(f, [x] + s) == [f(x)] + Mapped(f, s)
  {
  }

  lemma MappedConcat<A, B>(f: A -> B, s: seq<A>, t: seq<A>)
    ensures Mapped(f, s + t) == Mapped(f, s) + Mapped(f, t)
  {
  }

  function MappedValues<K, A, B>(f: A -> B, m: map<K, A>): map<K, B> {
    map k | k in m :: f(m[k])
  }

  lemma MappedWithout<K, A, B>(f: A -> B, m: map<K, A>, k: K)
    ensures MappedValues(f, m - {k}) == MappedValues(f, m) - {k}
  {
  }

  lemma MappedWith<K, A, B>(f: A -> B, m: map<K, A>, k: K, a: A)
    ensures MappedValues(f, m[k := a]) == MappedValues(f, m)[k := f(a)]
  {
  }

  lemma MappedAround<A, B>(f: A -> B, a: seq<A>, x: A, b: seq<A>)
    ensures multiset(Mapped(f, a + [x] + b)) == multiset(Mapped(f, a + b)) + multiset{f(x)}
  {
    MappedConcat(f, a, b);
    MappedConcat(f, a + [x], b);
    MappedConcat(f, a, [x]);
    assert Mapped(f, [x]) == [f(x)];
  }

  lemma {:induction false} MappedPermutes<A, B>(f: A -> B, a: seq<A>, b: seq<A>)
    requires multiset(a) == multiset(b)
    ensures multiset(Mapped(f, a)) == multiset(Mapped(f, b))
    decreases |a|
  {
    if a == [] {
      assert |multiset(b)| == |b|;
    } else {
      var n := |a| - 1;
      DropLast(a);
      assert a[n] in multiset(a);
      var b0, b1 := TakeOut(b, a[n]);
      MappedPermutes(f, a[..n], b0 + b1);
      MappedAround(f, a[..n], a[n], []);
      assert a[..n] + [] == a[..n] && a[..n] + [a[n]] + [] == a;
      MappedAround(f, b0, a[n], b1);
    }
  }

  lemma ListingMapped<K(!new), A, B>(f: A -> B, s: seq<A>, m: map<K, A>)
    requires Listing(s, m)
    ensures Listing(Mapped(f, s), MappedValues(f, m))
  {
    var keys :| Enumerates(keys, m) && multiset(s) == multiset(Look(m, keys));
    MappedPermutes(f, s, Look(m, keys));
    assert Enumerates(keys, MappedValues(f, m));
    assert Mapped(f, Look(m, keys)) == Look(MappedValues(f, m), keys);
  }

  // ---------- Picking ----------

  /** What pick finds in s, in order. */
  function Collect<A, B>(s: seq<A>, pick: A -> Option<B>): seq<B> {
    if s == [] then []
    else
      Collect(s[..|s| - 1], pick) + (match pick(s[|s| - 1]) case Some(b) => [b] case None => [])
  }

  lemma {:induction false} CollectConcat<A, B>(s: seq<A>, t: seq<A>, pick: A -> Option<B>)
    ensures Collect(s + t, pick) == Collect(s, pick) + Collect(t, pick)
    decreases |t|
  {
    if t == [] {
      assert s + t == s;
    } else {
      var n := |t| - 1;
      CollectConcat(s, t[..n], pick);
      assert (s + t)[..|s + t| - 1] == s + t[..n];
    }
  }

  lemma CollectOne<A, B>(a: A, pick: A -> Option<B>)
    ensures Collect([a], pick) == match pick(a) case Some(b) => [b] case None => []
  {
    assert [a][..0] == [];
  }

  lemma {:induction false} CollectNone<A, B>(s: seq<A>, pick: A -> Option<B>)
    requires forall i :: 0 <= i < |s| ==> pick(s[i]).None?
    ensures Collect(s, pick) == []
    decreases |s|
  {
    if s != [] {
      CollectNone(s[..|s| - 1], pick);
    }
  }

  lemma {:induction false} CollectAll<A, B>(s: seq<A>, t: seq<B>, pick: A -> Option<B>)
    requires |s| == |t| && forall i :: 0 <= i < |s| ==> pick(s[i]) == Some(t[i])
    ensures Collect(s, pick) == t
    decreases |s|
  {
    if s != [] {
      var n := |s| - 1;
      CollectAll(s[..n], t[..n], pick);
      assert t == t[..n] + [t[n]];
    }
  }

  // ---------- Counting ----------

  function Count<T>(s: seq<T>, p: T -> bool): nat {
    if s == [] then 0 else Count(s[..|s| - 1], p) + (if p(s[|s| - 1]) then 1 else 0)
  }

  lemma {:induction false} CountConcat<T>(a: seq<T>, b: seq<T>, p: T -> bool)
    ensures Count(a + b, p) == Count(a, p) + Count(b, p)
    decreases |b|
  {
    if b == [] {
      assert a + b == a;
    } else {
      var n := |b| - 1;
      CountConcat(a, b[..n], p);
      assert (a + b)[..|a + b| - 1] == a + b[..n];
    }
  }

  lemma {:induction false} CountNone<T>(s: seq<T>, p: T -> bool)
    requires forall i :: 0 <= i < |s| ==> !p(s[i])
    ensures Count(s, p) == 0
    decreases |s|
  {
    if s != [] {
      CountNone(s[..|s| - 1], p);
    }
  }

  // ---------- The values of a map in order ----------

  /** `less` orders any two entries of m. */
  ghost predicate Ranked<K(!new), V(!new)>(m: map<K, V>, less: (V, V) -> bool) {
    forall k, l :: k in m && l in m && k != l ==> less(m[k], m[l]) || less(m[l], m[k])
  }

  ghost predicate ComesFirst<K(!new), V(!new)>(m: map<K, V>, k: K, less: (V, V) -> bool) {
    k in m && forall l :: l in m && l != k ==> less(m[k], m[l])
  }

  lemma {:induction false} HasFirst<K(!new), V(!new)>(m: map<K, V>, less: (V, V) -> bool) returns (k: K)
    requires Ordering(less) && Ranked(m, less) && |m| > 0
    ensures ComesFirst(m, k, less)
    decreases |m|
  {
    k :| k in m;
    if |m| > 1 {
      var rest := m - {k};
      assert rest.Keys == m.Keys - {k};
      var f := HasFirst(rest, less);
      forall l | l in m && l != f && l != k ensures less(m[f], m[l]) {
        assert l in rest;
      }
      if less(m[f], m[k]) {
        k := f;
      }
    } else {
      forall l | l in m ensures l == k {
        if l != k {
          SubsetIsSmaller({k, l}, m.Keys);
        }
      }
    }
  }

  lemma FirstExists<K(!new), V(!new)>(m: map<K, V>, less: (V, V) -> bool)
    requires Ordering(less) && Ranked(m, less) && |m| > 0
    ensures exists k :: ComesFirst(m, k, less)
  {
    var k := HasFirst(m, less);
  }

  /** The values of m, first to last. */
  ghost function InOrder<K(!new), V(!new)>(m: map<K, V>, less: (V, V) -> bool): seq<V>
    requires Ordering(less) && Ranked(m, less)
    decreases |m|
  {
    if |m| == 0 then []
    else
      FirstExists(m, less);
      var k :| ComesFirst(m, k, less);
      assert (m - {k}).Keys == m.Keys - {k};
      [m[k]] + InOrder(m - {k}, less)
  }

  lemma InOrderNext<K(!new), V(!new)>(m: map<K, V>, k: K, less: (V, V) -> bool)
    requires Ordering(less) && Ranked(m, less) && ComesFirst(m, k, less)
    ensures InOrder(m, less) == [m[k]] + InOrder(m - {k}, less)
  {
    assert k in m.Keys;
    assert forall l :: ComesFirst(m, l, less) ==> l == k;
  }

  /** v is a value of m. */
  ghost predicate IsValue<K(!new), V(!new)>(m: map<K, V>, v: V) {
    exists k :: k in m && m[k] == v
  }

  lemma IsValueWithout<K(!new), V(!new)>(m: map<K, V>, k: K, v: V)
    requires k in m
    ensures IsValue(m, v) <==> v == m[k] || IsValue(m - {k}, v)
  {
    if l :| l in m && m[l] == v && l != k {
      assert l in m - {k} && (m - {k})[l] == v;
    }
    if l :| l in m - {k} && (m - {k})[l] == v {
      assert l in m && m[l] == v;
    }
  }

  /** InOrder shows every value of m exactly once, in ascending order. */
  lemma {:induction false} InOrderIsExact<K(!new), V(!new)>(m: map<K, V>, less: (V, V) -> bool)
    requires Ordering(less) && Ranked(m, less)
    ensures var s := InOrder(m, less);
            && |s| == |m|
            && (forall i, j :: 0 <= i < j < |s| ==> less(s[i], s[j]))
            && (forall v :: v in s <==> IsValue(m, v))
    decreases |m|
  {
    if |m| > 0 {
      var k := HasFirst(m, less);
      var rest := m - {k};
      assert rest.Keys == m.Keys - {k};
      InOrderNext(m, k, less);
      InOrderIsExact(rest, less);
      var s, t := InOrder(m, less), InOrder(rest, less);
      forall v ensures v in s <==> IsValue(m, v) {
        IsValueWithout(m, k, v);
      }
      forall i, j | 0 <= i < j < |s| ensures less(s[i], s[j]) {
        assert s[j] == t[j - 1] && t[j - 1] in t;
      }
    } else {
      assert m.Keys == {};
      assert forall k :: k in m ==> k in m.Keys;
    }
  }

  lemma NoneInOrder<K(!new), V(!new)>(m: map<K, V>, less: (V, V) -> bool)
    requires Ordering(less) && Ranked(m, less) && forall k :: k !in m
    ensures InOrder(m, less) == []
  {
    assert m.Keys == {};
  }

  lemma WhereWithout<K(!new), V(!new)>(m: map<K, V>, p: V -> bool, k: K)
    requires k in m && p(m[k])
    ensures Where(m, p) - {k} == Where(m - {k}, p)
    ensures Others(m, p) == Others(m - {k}, p)
  {
  }
}
