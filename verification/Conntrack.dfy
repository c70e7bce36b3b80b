/** The conntrack resolver (internal/conntrack/conntrack.go): which NAT rewrites a dump proves,
    which dump an answer may rest on, and how often dumps are attempted. */
module Conntracks {
  import opened Base
  import opened FlowTypes

  const MIN_MISS_REFRESH := 20_000_000 // 20 ms
  const MAX_MISS_REFRESH := 25_000_000 // 25 ms
  const ONE_SECOND := 1_000_000_000
  const FAILURE_BACKOFF := 10

  datatype Tuple = Tuple(protocol: nat, source: Endpoint, destination: Endpoint)
  datatype Entry = Entry(original: Tuple, reply: Tuple)

  datatype LookupKey = LookupKey(
    protocol: nat, sourceAddress: string, sourcePort: nat, destinationAddress: string, destinationPort: nat)

  type Table = map<LookupKey, Endpoint>

  const NO_ENDPOINT := Endpoint("", 0)

  function KeyOf(t: Tuple): LookupKey {
    LookupKey(t.protocol, t.source.address, t.source.port, t.destination.address, t.destination.port)
  }

  /** A key carries everything of a tuple. */
  lemma KeysExactly(s: Tuple, t: Tuple)
    ensures KeyOf(s) == KeyOf(t) <==> s == t
  {
  }

  // ---------- What a dump proves ----------

  /** Entry i of the dump has key k. */
  predicate Has(entries: seq<Entry>, i: int, k: LookupKey) {
    0 <= i < |entries| && KeyOf(entries[i].original) == k
  }

  /** Entries for k exist, all with one reply, whose source e is not the original destination. */
  ghost predicate Proves(entries: seq<Entry>, k: LookupKey, e: Endpoint) {
    exists i :: Has(entries, i, k) && entries[i].reply.source == e && e != entries[i].original.destination
                && forall j :: Has(entries, j, k) ==> entries[j].reply == entries[i].reply
  }

  /** The table holds exactly the proved rewrites. */
  ghost predicate IsTable(table: Table, entries: seq<Entry>) {
    && (forall k :: k in table ==> Proves(entries, k, table[k]))
    && (forall k, e :: Proves(entries, k, e) ==> k in table && table[k] == e)
  }

  /** Two entries for k disagree. */
  ghost predicate Conflicting(entries: seq<Entry>, k: LookupKey) {
    exists i, j :: Has(entries, i, k) && Has(entries, j, k) && entries[i].reply != entries[j].reply
  }

  /** What the loop of buildTable knows about k after some entries. */
  ghost predicate ProgressAt(entries: seq<Entry>, table: Table, seen: map<LookupKey, Tuple>, ambiguous: set<LookupKey>, k: LookupKey) {
    && SeenAt(entries, seen, k)
    && (k in ambiguous <==> Conflicting(entries, k))
    && (k in table <==> k in seen && k !in ambiguous && !Unchanged(k, seen[k]))
    && (k in table ==> table[k] == seen[k].source)
  }

  /** seen holds the reply of some entry for k, if there is one. */
  ghost predicate SeenAt(entries: seq<Entry>, seen: map<LookupKey, Tuple>, k: LookupKey) {
    && (k !in seen ==> forall i :: !Has(entries, i, k))
    && (k in seen ==> exists i :: Has(entries, i, k) && entries[i].reply == seen[k])
  }

  ghost predicate Progress(entries: seq<Entry>, table: Table, seen: map<LookupKey, Tuple>, ambiguous: set<LookupKey>) {
    forall k :: ProgressAt(entries, table, seen, ambiguous, k)
  }

  /** The reply comes from the original destination: no rewrite. */
  predicate Unchanged(k: LookupKey, reply: Tuple) {
    reply.source == Endpoint(k.destinationAddress, k.destinationPort)
  }

  lemma ProgressProves(entries: seq<Entry>, table: Table, seen: map<LookupKey, Tuple>, ambiguous: set<LookupKey>, k: LookupKey, e: Endpoint)
    requires ProgressAt(entries, table, seen, ambiguous, k)
    ensures Proves(entries, k, e) <==> k in table && table[k] == e
  {
    if k in table && table[k] == e {
      var i :| Has(entries, i, k) && entries[i].reply == seen[k];
      assert forall j :: Has(entries, j, k) ==> entries[j].reply == entries[i].reply;
    }
    if Proves(entries, k, e) {
      var i :| Has(entries, i, k) && entries[i].reply.source == e && e != entries[i].original.destination
               && forall j :: Has(entries, j, k) ==> entries[j].reply == entries[i].reply;
      assert !Conflicting(entries, k);
    }
  }

  /** One round of the loop. */
  function Judged(table: Table, seen: map<LookupKey, Tuple>, ambiguous: set<LookupKey>, x: Entry): (r: (Table, set<LookupKey>))
  {
    var k := KeyOf(x.original);
    var a := if k in seen && seen[k] != x.reply then ambiguous + {k} else ambiguous;
    var t := if k in seen && seen[k] != x.reply then table - {k} else table;
    (if k in a || x.reply.source == x.original.destination then t else t[k := x.reply.source], a)
  }

  lemma HasSnoc(entries: seq<Entry>, x: Entry, i: int, k: LookupKey)
    ensures Has(entries + [x], i, k) <==> Has(entries, i, k) || (i == |entries| && KeyOf(x.original) == k)
  {
  }

  lemma ConflictSnoc(entries: seq<Entry>, x: Entry, k: LookupKey, seen: map<LookupKey, Tuple>)
    requires SeenAt(entries, seen, k)
    ensures Conflicting(entries + [x], k) <==>
            Conflicting(entries, k) || (KeyOf(x.original) == k && k in seen && seen[k] != x.reply)
  {
    var more, n := entries + [x], |entries|;
    if Conflicting(entries, k) {
      var i, j :| Has(entries, i, k) && Has(entries, j, k) && entries[i].reply != entries[j].reply;
      assert Has(more, i, k) && Has(more, j, k);
    } else if KeyOf(x.original) == k && k in seen && seen[k] != x.reply {
      var i :| Has(entries, i, k) && entries[i].reply == seen[k];
      assert Has(more, i, k) && Has(more, n, k);
    }
    if Conflicting(more, k) {
      var i, j :| Has(more, i, k) && Has(more, j, k) && more[i].reply != more[j].reply;
      HasSnoc(entries, x, i, k);
      HasSnoc(entries, x, j, k);
      if i < n && j < n {
        assert Conflicting(entries, k);
      } else {
        var l :| Has(entries, l, k) && entries[l].reply == seen[k];
      }
    }
  }

  lemma SeenSnoc(entries: seq<Entry>, x: Entry, k: LookupKey, seen: map<LookupKey, Tuple>)
    requires SeenAt(entries, seen, k)
    ensures SeenAt(entries + [x], seen[KeyOf(x.original) := x.reply], k)
  {
    var more, n := entries + [x], |entries|;
    if KeyOf(x.original) == k {
      assert Has(more, n, k) && more[n].reply == x.reply;
    } else if k in seen {
      var i :| Has(entries, i, k) && entries[i].reply == seen[k];
      assert Has(more, i, k) && more[i].reply == seen[k];
    } else {
      forall i ensures !Has(more, i, k) {
        HasSnoc(entries, x, i, k);
      }
    }
  }

  lemma ProgressSnoc(entries: seq<Entry>, x: Entry, table: Table, seen: map<LookupKey, Tuple>, ambiguous: set<LookupKey>, k: LookupKey)
    requires ProgressAt(entries, table, seen, ambiguous, k)
    ensures var (t, a) := Judged(table, seen, ambiguous, x);
            ProgressAt(entries + [x], t, seen[KeyOf(x.original) := x.reply], a, k)
  {
    ConflictSnoc(entries, x, k, seen);
    SeenSnoc(entries, x, k, seen);
    hide Has, Conflicting, SeenAt;
  }

  lemma AllProgress(entries: seq<Entry>, x: Entry, table: Table, seen: map<LookupKey, Tuple>, ambiguous: set<LookupKey>)
    requires Progress(entries, table, seen, ambiguous)
    ensures Progress(entries + [x], Judged(table, seen, ambiguous, x).0, seen[KeyOf(x.original) := x.reply],
                     Judged(table, seen, ambiguous, x).1)
  {
    var more, judged, seen' := entries + [x], Judged(table, seen, ambiguous, x), seen[KeyOf(x.original) := x.reply];
    var table', ambiguous' := judged.0, judged.1;
    forall k: LookupKey ensures ProgressAt(more, table', seen', ambiguous', k) {
      ProgressSnoc(entries, x, table, seen, ambiguous, k);
    }
  }

  /** buildTable: the table of exactly what the dump proves. */
  method BuildTable(entries: seq<Entry>) returns (table: Table)
    ensures IsTable(table, entries)
  {
    table := map[];
    var seen: map<LookupKey, Tuple>, ambiguous: set<LookupKey> := map[], {};
    for n := 0 to |entries|
      invariant Progress(entries[..n], table, seen, ambiguous)
    {
      var entry := entries[n];
      var key := KeyOf(entry.original);
      AllProgress(entries[..n], entry, table, seen, ambiguous);
      assert entries[..n + 1] == entries[..n] + [entry];
      // A tombstone stays for the whole dump: later duplicates cannot undo an ambiguity.
      if key in seen && seen[key] != entry.reply {
        ambiguous, table := ambiguous + {key}, table - {key};
      }
      seen := seen[key := entry.reply];
      if !(key in ambiguous || entry.reply.source == entry.original.destination) {
        table := table[key := entry.reply.source];
      }
    }
    assert entries[..|entries|] == entries;
    forall k, e ensures Proves(entries, k, e) <==> k in table && table[k] == e {
      ProgressProves(entries, table, seen, ambiguous, k, e);
    }
  }

  /** Neither order nor duplication of entries matters. */
  lemma TableIgnoresOrder(t: Table, xs: seq<Entry>, u: Table, ys: seq<Entry>)
    requires IsTable(t, xs) && IsTable(u, ys)
    requires forall x :: x in xs <==> x in ys
    ensures t == u
  {
    forall k, e ensures Proves(xs, k, e) <==> Proves(ys, k, e) {
      ProofCarriesOver(xs, ys, k, e);
      ProofCarriesOver(ys, xs, k, e);
    }
    assert forall k :: k in t ==> Proves(ys, k, t[k]);
    assert forall k :: k in u ==> Proves(xs, k, u[k]);
  }

  lemma ProofCarriesOver(xs: seq<Entry>, ys: seq<Entry>, k: LookupKey, e: Endpoint)
    requires forall x :: x in xs <==> x in ys
    ensures Proves(xs, k, e) ==> Proves(ys, k, e)
  {
    if Proves(xs, k, e) {
      var i :| Has(xs, i, k) && xs[i].reply.source == e && e != xs[i].original.destination
               && forall j :: Has(xs, j, k) ==> xs[j].reply == xs[i].reply;
      assert xs[i] in ys;
      var i' :| 0 <= i' < |ys| && ys[i'] == xs[i];
      forall j | Has(ys, j, k) ensures ys[j].reply == ys[i'].reply {
        assert ys[j] in xs;
        var j' :| 0 <= j' < |xs| && xs[j'] == ys[j];
        assert Has(xs, j', k);
      }
      assert Has(ys, i', k);
    }
  }

  // ---------- Freshness and throttling ----------

  /** One dump: when it started and what it returned. */
  datatype Attempt = Attempt(at: nat, entries: Option<seq<Entry>>)

  datatype Timing = Timing(ttl: int, missRefresh: int)

  predicate ValidTiming(t: Timing) {
    t.ttl > 0 && MIN_MISS_REFRESH <= t.missRefresh <= MAX_MISS_REFRESH
  }

  function Min(a: int, b: int): int {
    if a < b then a else b
  }

  /** The least time before the dump after this one. */
  function Gap(t: Timing, a: Attempt): int {
    if a.entries.Some? then Min(t.ttl, t.missRefresh) else FAILURE_BACKOFF * t.ttl
  }

  predicate Spaced(t: Timing, attempts: seq<Attempt>) {
    forall i :: 0 <= i < |attempts| - 1 ==> attempts[i + 1].at - attempts[i].at >= Gap(t, attempts[i])
  }

  lemma SpacedSnoc(t: Timing, attempts: seq<Attempt>, a: Attempt)
    requires Spaced(t, attempts) && (attempts != [] ==> a.at - attempts[|attempts| - 1].at >= Gap(t, attempts[|attempts| - 1]))
    ensures Spaced(t, attempts + [a])
  {
  }

  /** How long a dump keeps the next scheduled one away. */
  function Rest(t: Timing, a: Attempt): int {
    if a.entries.Some? then t.ttl else FAILURE_BACKOFF * t.ttl
  }

  /** A scheduled dump is due: none was made, or the latest one has rested long enough. */
  predicate Due(t: Timing, attempts: seq<Attempt>, now: Time) {
    attempts == [] || now - attempts[|attempts| - 1].at >= Rest(t, attempts[|attempts| - 1])
  }

  /** A miss may dump again: the latest dump succeeded, at a set time, and is old enough. */
  predicate Renewable(t: Timing, attempts: seq<Attempt>, now: Time) {
    && attempts != []
    && var last := attempts[|attempts| - 1];
       last.entries.Some? && last.at != 0 && now - last.at >= t.missRefresh
  }

  /** The latest attempt succeeded, started no earlier than `since`, and proves k rewritten to e. */
  ghost predicate Vouches(attempts: seq<Attempt>, k: LookupKey, since: Time, e: Endpoint) {
    && attempts != []
    && var last := attempts[|attempts| - 1];
       last.entries.Some? && last.at >= since && Proves(last.entries.value, k, e)
  }

  /** The attempts do not answer for k. */
  ghost predicate Misses(attempts: seq<Attempt>, k: LookupKey, since: Time) {
    forall e :: !Vouches(attempts, k, since, e)
  }

  /** The attempts after one more dump if it is wanted. */
  function Dumped(attempts: seq<Attempt>, wanted: bool, now: nat, entries: Option<seq<Entry>>): seq<Attempt> {
    if wanted then attempts + [Attempt(now, entries)] else attempts
  }

  /** The attempts of one lookup at `now` and, if it misses, once more at `later`. */
  ghost function LookedUp(t: Timing, attempts: seq<Attempt>, k: LookupKey, since: Time, now: nat, first: Option<seq<Entry>>,
                          later: nat, second: Option<seq<Entry>>): seq<Attempt>
  {
    var refreshed := Dumped(attempts, Due(t, attempts, now), now, first);
    Dumped(refreshed, Misses(refreshed, k, since) && Renewable(t, refreshed, later), later, second)
  }

  /** No answer rests on a dump that is as old as the lifetime. */
  lemma AnswersAreFresh(t: Timing, attempts: seq<Attempt>, k: LookupKey, since: Time, now: nat, first: Option<seq<Entry>>,
                        later: nat, second: Option<seq<Entry>>, e: Endpoint)
    requires ValidTiming(t) && now <= later
    requires var all := LookedUp(t, attempts, k, since, now, first, later, second);
             all != [] && Vouches(all, k, since, e)
    ensures var all := LookedUp(t, attempts, k, since, now, first, later, second);
            now - all[|all| - 1].at < t.ttl
  {
  }

  /** A lookup dumps exactly if no dump was made before, or the latest is as old as the lifetime, or as ten of
      them after a failure; or on a miss, if the latest one succeeded and is as old as the throttle. */
  lemma DumpsExactly(t: Timing, attempts: seq<Attempt>, k: LookupKey, since: Time, now: nat, first: Option<seq<Entry>>,
                     later: nat, second: Option<seq<Entry>>)
    requires ValidTiming(t) && now <= later
    ensures |LookedUp(t, attempts, k, since, now, first, later, second)| > |attempts| <==>
            || attempts == []
            || var last := attempts[|attempts| - 1];
               || now >= last.at + 10 * t.ttl
               || (last.entries.Some? && now >= last.at + t.ttl)
               || (last.entries.Some? && last.at > 0 && later >= last.at + t.missRefresh && Misses(attempts, k, since))
  {
  }

  /** So any stretch of time holds a bounded number of dumps. */
  lemma {:induction false} DumpRate(t: Timing, attempts: seq<Attempt>, i: nat, j: nat)
    requires ValidTiming(t) && Spaced(t, attempts) && i <= j < |attempts|
    ensures attempts[j].at - attempts[i].at >= (j - i) * Min(t.ttl, t.missRefresh)
    decreases j - i
  {
    if i < j {
      DumpRate(t, attempts, i, j - 1);
      var step := Min(t.ttl, t.missRefresh);
      assert attempts[j - 1 + 1].at - attempts[j - 1].at >= Gap(t, attempts[j - 1]) >= step;
      assert (j - i) * step == (j - 1 - i) * step + step;
    }
  }

  /** The wall clock is set and does not go back. */
  ghost predicate Steady(clock: nat -> nat) {
    forall i: nat, j: nat :: i <= j ==> 0 < clock(i) <= clock(j)
  }

  function ProtocolNumber(protocol: string): Option<nat> {
    if protocol == "tcp" then Some(6) else if protocol == "udp" then Some(17) else None
  }

  /** Only the two transport protocols are looked up, by their assigned numbers. */
  lemma ProtocolsExactly(protocol: string, n: nat)
    ensures ProtocolNumber(protocol) == Some(n) <==> (protocol == "tcp" && n == 6) || (protocol == "udp" && n == 17)
  {
  }

  class Resolver {
    // The environment: successive clock readings and successive dump outcomes.
    const clock: nat -> nat
    const dumps: nat -> Option<seq<Entry>>
    var readings: nat
    var dumped: nat

    const timing: Timing
    var refreshAt: Time
    var dumpedAt: Time
    var table: Table
    ghost var attempts: seq<Attempt>

    /** newResolver: defaults and clamping of the configured lifetime. */
    constructor (ttl: int, clock: nat -> nat, dumps: nat -> Option<seq<Entry>>)
      ensures Valid() && attempts == [] && this.clock == clock && this.dumps == dumps
      ensures timing.ttl == if ttl <= 0 then 1_000_000_000 else ttl
      ensures timing.missRefresh == var tenth := timing.ttl / 10;
                                    if tenth < 20_000_000 then 20_000_000 else if tenth > 25_000_000 then 25_000_000 else tenth
    {
      this.clock, this.dumps, readings, dumped := clock, dumps, 0, 0;
      var life := if ttl <= 0 then ONE_SECOND else ttl;
      var miss := life / 10;
      if miss < MIN_MISS_REFRESH {
        miss := MIN_MISS_REFRESH;
      }
      if miss > MAX_MISS_REFRESH {
        miss := MAX_MISS_REFRESH;
      }
      timing := Timing(life, miss);
      refreshAt, dumpedAt, table, attempts := 0, 0, map[], [];
    }

    /** The fields reflect the latest dump attempt, and only that one. */
    ghost predicate Current()
      reads this
    {
      if attempts == [] then table == map[] && dumpedAt == 0 && refreshAt == 0
      else
        var last := attempts[|attempts| - 1];
        match last.entries
        case Some(entries) => IsTable(table, entries) && dumpedAt == last.at && refreshAt == last.at + timing.ttl
        case None => table == map[] && dumpedAt == 0 && refreshAt == last.at + FAILURE_BACKOFF * timing.ttl
    }

    /** Under a steady clock dumps are throttled. */
    ghost predicate Throttled()
      reads this
    {
      Steady(clock) ==>
        && Spaced(timing, attempts)
        && forall i :: 0 <= i < |attempts| ==> 0 < attempts[i].at <= clock(readings)
    }

    ghost predicate Valid()
      reads this
    {
      ValidTiming(timing) && Current() && Throttled()
    }

    method Now() returns (now: Time)
      requires Valid()
      modifies this`readings
      ensures Valid() && now == clock(old(readings)) && readings == old(readings) + 1
    {
      now := clock(readings);
      readings := readings + 1;
    }

    /** Load a dump; a failed one invalidates the table and starts the back-off. */
    method Load(now: Time) returns (ok: bool)
      requires Valid() && readings > 0 && now == clock(readings - 1)
      requires Steady(clock) && attempts != [] ==> now - attempts[|attempts| - 1].at >= Gap(timing, attempts[|attempts| - 1])
      modifies this
      ensures Valid() && readings == old(readings) && dumped == old(dumped) + 1
      ensures attempts == old(attempts) + [Attempt(now, dumps(old(dumped)))]
      ensures ok == dumps(old(dumped)).Some?
    {
      hide Spaced, Proves;
      var outcome := dumps(dumped);
      if Steady(clock) {
        SpacedSnoc(timing, attempts, Attempt(now, outcome));
      }
      dumped := dumped + 1;
      attempts := attempts + [Attempt(now, outcome)];
      match outcome {
        case None =>
          table, dumpedAt, refreshAt := map[], 0, now + timing.ttl * FAILURE_BACKOFF;
          ok := false;
        case Some(entries) =>
          dumpedAt, refreshAt := now, now + timing.ttl;
          table := BuildTable(entries);
          ok := true;
      }
    }

    /** Dump when a scheduled dump is due, and only then. */
    method Refresh()
      requires Valid()
      modifies this
      ensures Valid() && readings == old(readings) + 1 && dumped == old(dumped) + |attempts| - |old(attempts)|
      ensures attempts == Dumped(old(attempts), Due(timing, old(attempts), clock(old(readings))),
                                 clock(old(readings)), dumps(old(dumped)))
    {
      var now := Now();
      if refreshAt != 0 && now < refreshAt {
        return;
      }
      var _ := Load(now);
    }

    /** Dump for a miss outside throttle and back-off, and only then; true when the dump succeeded. */
    method RefreshOnMiss() returns (renewed: bool)
      requires Valid()
      modifies this
      ensures Valid() && readings == old(readings) + 1 && dumped == old(dumped) + |attempts| - |old(attempts)|
      ensures attempts == Dumped(old(attempts), Renewable(timing, old(attempts), clock(old(readings))),
                                 clock(old(readings)), dumps(old(dumped)))
      ensures renewed <==> attempts != old(attempts) && attempts[|attempts| - 1].entries.Some?
      ensures !renewed ==> (table, dumpedAt) == old((table, dumpedAt)) || (table == map[] && dumpedAt == 0)
    {
      var now := Now();
      if dumpedAt == 0 || now - dumpedAt < timing.missRefresh {
        return false;
      }
      if refreshAt != 0 && now < refreshAt && refreshAt - now > timing.ttl {
        return false;
      }
      renewed := Load(now);
    }

    /** The table and its age answer what the attempts vouch for. */
    lemma AnswersVouched(k: LookupKey, since: Time)
      requires Valid()
      ensures forall e :: k in table && table[k] == e && dumpedAt >= since <==> Vouches(attempts, k, since, e)
    {
      if attempts != [] && attempts[|attempts| - 1].entries.Some? {
        assert IsTable(table, attempts[|attempts| - 1].entries.value);
      }
    }

    /** ResolveAfter answers exactly what the latest dump attempt vouches for, and dumps when it must:
        when a dump is due, and again on a miss outside throttle and back-off. */
    method ResolveAfter(protocol: string, source: Endpoint, destination: Endpoint, observedAt: Time) returns (answer: Option<Endpoint>)
      requires Valid()
      modifies this
      ensures Valid()
      ensures ProtocolNumber(protocol).None? ==> answer.None? && attempts == old(attempts)
      ensures ProtocolNumber(protocol).Some? ==>
                var k := KeyOf(Tuple(ProtocolNumber(protocol).value, source, destination));
                && (forall e :: answer == Some(e) <==> Vouches(attempts, k, observedAt, e))
                && var now, later, n := clock(old(readings)), clock(old(readings) + 1), old(dumped);
                   attempts == LookedUp(timing, old(attempts), k, observedAt, now, dumps(n), later,
                                        dumps(if Due(timing, old(attempts), now) then n + 1 else n))
    {
      hide Proves, IsTable, Due, Renewable, Spaced;
      var number := ProtocolNumber(protocol);
      if number.None? {
        return None;
      }
      Refresh();
      ghost var first := attempts;
      var key := LookupKey(number.value, source.address, source.port, destination.address, destination.port);
      var ok := key in table;
      var resolved := if ok then table[key] else NO_ENDPOINT;
      AnswersVouched(key, observedAt);
      assert ok && dumpedAt >= observedAt ==> Vouches(first, key, observedAt, resolved);
      if !ok || dumpedAt < observedAt {
        var renewed := RefreshOnMiss();
        if renewed {
          ok := key in table;
          resolved := if ok then table[key] else NO_ENDPOINT;
        }
      }
      AnswersVouched(key, observedAt);
      if !ok || dumpedAt < observedAt {
        return None;
      }
      return Some(resolved);
    }
  }
}
