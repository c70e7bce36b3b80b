/** Mergeable timing statistics (internal/flow/stats.go) and the check that a statistic can be
    real (internal/bridge/validation.go). Counters are uint64 and wrap. */
module Distributions {

  const TWO64: nat := 0x1_0000_0000_0000_0000
  type uint64 = n: int | 0 <= n < TWO64

  /** Wrapping addition. */
  function Add(a: uint64, b: uint64): uint64 {
    if a + b < TWO64 then a + b else a + b - TWO64
  }

  datatype Distribution = Distribution(count: uint64, sum: uint64, min: uint64, max: uint64)

  const EMPTY := Distribution(0, 0, 0, 0)

  function Point(v: uint64): Distribution {
    Distribution(1, v, v, v)
  }

  function Merge(d: Distribution, e: Distribution): Distribution {
    if d.count == 0 then e
    else if e.count == 0 then d
    else Distribution(Add(d.count, e.count), Add(d.sum, e.sum),
                      if e.min < d.min then e.min else d.min,
                      if e.max > d.max then e.max else d.max)
  }

  // ---------- What a distribution means: a summary of samples ----------

  function Sum(s: seq<nat>): nat {
    if s == [] then 0 else s[0] + Sum(s[1..])
  }

  predicate AllAtLeast(s: seq<nat>, lo: nat) { forall i :: 0 <= i < |s| ==> lo <= s[i] }
  predicate AllAtMost(s: seq<nat>, hi: nat) { forall i :: 0 <= i < |s| ==> s[i] <= hi }

  function MinOf(s: seq<nat>): (m: nat)
    requires s != []
    ensures m in s && AllAtLeast(s, m)
  {
    if |s| == 1 then s[0]
    else
      var m := MinOf(s[1..]);
      assert forall i :: 1 <= i < |s| ==> s[i] == s[1..][i - 1];
      if s[0] <= m then s[0] else m
  }

  function MaxOf(s: seq<nat>): (m: nat)
    requires s != []
    ensures m in s && AllAtMost(s, m)
  {
    if |s| == 1 then s[0]
    else
      var m := MaxOf(s[1..]);
      assert forall i :: 1 <= i < |s| ==> s[i] == s[1..][i - 1];
      if s[0] >= m then s[0] else m
  }

  /** The samples fit the counters: nothing wraps while they are summed. */
  predicate Countable(s: seq<nat>) {
    |s| < TWO64 && Sum(s) < TWO64
  }

  function Summary(s: seq<nat>): Distribution
    requires Countable(s)
  {
    if s == [] then EMPTY
    else
      SumBounds(s, MinOf(s));
      SumBounds(s, MaxOf(s));
      Distribution(|s|, Sum(s), MinOf(s), MaxOf(s))
  }

  lemma {:induction false} SumBounds(s: seq<nat>, x: nat)
    requires x in s
    ensures x <= Sum(s)
  {
    if s[0] != x {
      SumBounds(s[1..], x);
    }
  }

  lemma {:induction false} SumConcat(s: seq<nat>, t: seq<nat>)
    ensures Sum(s + t) == Sum(s) + Sum(t)
  {
    if s == [] {
      assert s + t == t;
    } else {
      assert (s + t)[1..] == s[1..] + t;
      SumConcat(s[1..], t);
    }
  }

  /** Merging summaries summarizes the concatenated samples. */
  lemma MergeIsConcat(s: seq<nat>, t: seq<nat>)
    requires Countable(s + t)
    ensures Countable(s) && Countable(t)
    ensures Merge(Summary(s), Summary(t)) == Summary(s + t)
  {
    SumConcat(s, t);
    if s == [] {
      assert s + t == t;
    } else if t == [] {
      assert s + t == s;
    } else {
      MinIsUnique(s + t, if MinOf(t) < MinOf(s) then MinOf(t) else MinOf(s));
      MaxIsUnique(s + t, if MaxOf(t) > MaxOf(s) then MaxOf(t) else MaxOf(s));
    }
  }

  lemma MinIsUnique(s: seq<nat>, m: nat)
    requires m in s && AllAtLeast(s, m)
    ensures MinOf(s) == m
  {
    var i :| 0 <= i < |s| && s[i] == MinOf(s);
  }

  lemma MaxIsUnique(s: seq<nat>, m: nat)
    requires m in s && AllAtMost(s, m)
    ensures MaxOf(s) == m
  {
    var i :| 0 <= i < |s| && s[i] == MaxOf(s);
  }

  // ---------- Algebra of Merge ----------

  /** An absent measurement carries no leftovers. */
  predicate WellFormed(d: Distribution) {
    d.count == 0 ==> d == EMPTY
  }

  /** Merge commutes exactly when two absent measurements agree. */
  lemma MergeCommutesExactly(d: Distribution, e: Distribution)
    ensures Merge(d, e) == Merge(e, d) <==> (d.count == 0 && e.count == 0 ==> d == e)
  {
  }

  /** Merge associates unless a pair of counts adds up to exactly 2^64, which reads as "no samples". */
  lemma MergeAssociates(d: Distribution, e: Distribution, f: Distribution)
    requires d.count + e.count != TWO64 && e.count + f.count != TWO64
    ensures Merge(Merge(d, e), f) == Merge(d, Merge(e, f))
  {
  }

  /** The counts add up to exactly 2^64. */
  predicate Cancels(d: Distribution, e: Distribution) {
    d.count + e.count == TWO64
  }

  /** The figures of z would not change those of d. */
  predicate AddsNothing(z: Distribution, d: Distribution) {
    z.sum == 0 && d.min <= z.min && d.max >= z.max
  }

  /** Merge associates exactly if what a cancelled pair loses would not have shown in the third one. */
  lemma MergeAssociatesExactly(d: Distribution, e: Distribution, f: Distribution)
    ensures Merge(Merge(d, e), f) == Merge(d, Merge(e, f)) <==>
            if Cancels(d, e) && Cancels(e, f) then d == f
            else if Cancels(d, e) then (if f.count == 0 then f == Merge(d, e) else AddsNothing(Merge(d, e), f))
            else if Cancels(e, f) then d.count == 0 || AddsNothing(Merge(e, f), d)
            else true
  {
    if Cancels(d, e) {
      assert Merge(d, e).count == 0 && Merge(Merge(d, e), f) == f;
    } else if Cancels(e, f) && d.count != 0 {
      assert Merge(e, f).count == 0 && Merge(d, Merge(e, f)) == d;
    }
  }

  /** Folding two measurements in either order. */
  lemma MergeSwaps(w: Distribution, d: Distribution, e: Distribution)
    requires WellFormed(d) && WellFormed(e)
    requires w.count + d.count + e.count < TWO64
    ensures Merge(Merge(w, d), e) == Merge(Merge(w, e), d)
  {
    MergeAssociates(w, d, e);
    MergeAssociates(w, e, d);
    MergeCommutesExactly(d, e);
  }

  /** A count that wraps to zero erases what was merged before, so order matters then. */
  lemma WrappedCountBreaksOrder()
    ensures var big, one := Distribution(0x8000_0000_0000_0000, 8, 1, 1), Point(5);
            WellFormed(big) && WellFormed(one) && Merge(Merge(big, big), one) != Merge(Merge(big, one), big)
  {
  }

  // ---------- Realizability (validateWindow) ----------

  const MAX_SAFE: nat := 0x1F_FFFF_FFFF_FFFF // 2^53 - 1
  const MAX_COUNT: nat := 1_000_000_000

  /** The numeric limits of an accepted RTT statistic. */
  predicate WithinLimits(d: Distribution) {
    && 1 <= d.count <= MAX_COUNT
    && 1 <= d.sum <= MAX_SAFE
    && 1 <= d.min <= MAX_SAFE
    && d.max <= MAX_SAFE
  }

  /** The RTT part of validateWindow. */
  predicate ValidRtt(d: Distribution) {
    if !WithinLimits(d) || d.max < d.min then false
    else if d.count == 1 then d.sum == d.min && d.sum == d.max
    else
      var n := d.count - 1;
      n * d.min + d.max <= d.sum <= n * d.max + d.min
  }

  /** Some samples have exactly this count, sum, minimum and maximum. */
  ghost predicate Realizable(d: Distribution) {
    exists s: seq<nat> :: s != [] && Countable(s) && Summary(s) == d
  }

  /** The first of k + 1 such values: lo while the others can make up the rest. */
  function FirstFill(k: nat, lo: nat, hi: nat, target: nat): (x: nat)
    requires lo <= hi && (k + 1) * lo <= target <= (k + 1) * hi
    ensures lo <= x <= hi && k * lo <= target - x <= k * hi
  {
    assert (k + 1) * lo == k * lo + lo && (k + 1) * hi == k * hi + hi;
    if target - lo <= k * hi then lo else target - k * hi
  }

  /** k values between lo and hi that add up to target. */
  function Fill(k: nat, lo: nat, hi: nat, target: nat): (s: seq<nat>)
    requires lo <= hi && k * lo <= target <= k * hi
    ensures |s| == k && Sum(s) == target && AllAtLeast(s, lo) && AllAtMost(s, hi)
  {
    if k == 0 then []
    else
      var x := FirstFill(k - 1, lo, hi, target);
      var rest := Fill(k - 1, lo, hi, target - x);
      assert ([x] + rest)[1..] == rest;
      [x] + rest
  }

  lemma {:induction false} SumAtLeast(s: seq<nat>, lo: nat, j: nat)
    requires j < |s| && AllAtLeast(s, lo)
    ensures Sum(s) >= s[j] + (|s| - 1) * lo
    decreases |s|
  {
    if |s| == 1 {
      assert Sum(s) == s[0] + Sum(s[1..]) == s[0];
    } else {
      SumAtLeast(s[1..], lo, if j == 0 then 0 else j - 1);
      assert (|s| - 1) * lo == (|s| - 2) * lo + lo;
    }
  }

  lemma {:induction false} SumAtMost(s: seq<nat>, hi: nat, j: nat)
    requires j < |s| && AllAtMost(s, hi)
    ensures Sum(s) <= s[j] + (|s| - 1) * hi
    decreases |s|
  {
    if |s| == 1 {
      assert Sum(s) == s[0] + Sum(s[1..]) == s[0];
    } else {
      SumAtMost(s[1..], hi, if j == 0 then 0 else j - 1);
      assert (|s| - 1) * hi == (|s| - 2) * hi + hi;
    }
  }

  lemma RoomBetween(k: nat, lo: nat, hi: nat, sum: nat)
    requires (k + 1) * lo + hi <= sum <= (k + 1) * hi + lo
    ensures 0 <= k * lo <= sum - lo - hi <= k * hi
  {
    assert (k + 1) * lo == k * lo + lo && (k + 1) * hi == k * hi + hi;
  }

  lemma SpreadSamples(d: Distribution, fill: seq<nat>)
    requires |fill| + 2 == d.count && Sum(fill) + d.min + d.max == d.sum
    requires AllAtLeast(fill, d.min) && AllAtMost(fill, d.max) && d.min <= d.max
    ensures Realizable(d)
  {
    var s := [d.min, d.max] + fill;
    assert s[1..] == [d.max] + fill && s[1..][1..] == fill;
    assert Sum(s) == d.min + (d.max + Sum(fill));
    assert s[0] == d.min && s[1] == d.max;
    MinIsUnique(s, d.min);
    MaxIsUnique(s, d.max);
    assert Countable(s) && Summary(s) == d;
  }

  lemma AcceptedIsRealizable(d: Distribution)
    requires ValidRtt(d)
    ensures Realizable(d)
  {
    if d.count == 1 {
      var one: seq<nat> := [d.sum];
      assert Sum(one) == d.sum + Sum(one[1..]);
      assert Countable(one) && Summary(one) == d;
    } else {
      var k: nat := d.count - 2;
      RoomBetween(k, d.min, d.max, d.sum);
      SpreadSamples(d, Fill(k, d.min, d.max, d.sum - d.min - d.max));
    }
  }

  lemma RealizableIsAccepted(d: Distribution)
    requires WithinLimits(d) && Realizable(d)
    ensures ValidRtt(d)
  {
    var s: seq<nat> :| s != [] && Countable(s) && Summary(s) == d;
    var i :| 0 <= i < |s| && s[i] == d.min;
    var j :| 0 <= j < |s| && s[j] == d.max;
    SumAtLeast(s, d.min, j);
    SumAtMost(s, d.max, i);
  }

  /** The check accepts exactly the statistics, within the limits, that some samples have. */
  lemma ValidRttExactly(d: Distribution)
    ensures ValidRtt(d) <==> WithinLimits(d) && Realizable(d)
  {
    if ValidRtt(d) {
      AcceptedIsRealizable(d);
    } else if WithinLimits(d) && Realizable(d) {
      RealizableIsAccepted(d);
    }
  }

  /** Merging real statistics gives a real statistic, unless a counter wraps. */
  lemma MergeKeepsRealizable(d: Distribution, e: Distribution)
    requires Realizable(d) && Realizable(e)
    requires d.count + e.count < TWO64 && d.sum + e.sum < TWO64
    ensures Realizable(Merge(d, e))
  {
    var s: seq<nat> :| s != [] && Countable(s) && Summary(s) == d;
    var t: seq<nat> :| t != [] && Countable(t) && Summary(t) == e;
    SumConcat(s, t);
    MergeIsConcat(s, t);
    assert s + t != [];
  }
}
