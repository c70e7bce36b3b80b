/** The DNS correlator (Correlator of internal/dns/dns.go): a map of pending queries kept in step
    with the indexed heap, and what becomes of every admitted query. */
module DnsCorrelators {
  import opened Base
  import opened FlowTypes
  import opened Lists
  import opened DnsMessages
  import opened DnsTypes
  import opened DnsHeaps

  datatype Config = Config(timeout: int, maxPending: nat)

  const DEFAULT_TIMEOUT := 5_000_000_000
  const DEFAULT_MAX_PENDING := 16384

  type Pending = map<Key, Query>
  datatype State = State(pending: Pending, sequence: nat)

  const EMPTY_STATE := State(map[], 0)

  // ---------- What each call means ----------

  /** The transaction that closes an admitted query. */
  datatype Settlement = Settlement(query: Query, transaction: Transaction)

  /** The effect of a call: the queries it settles, in output order, then records of no admitted query. */
  datatype Effect = Effect(state: State, settled: seq<Settlement>, alone: seq<Transaction>)

  function TransactionOf(s: Settlement): Transaction {
    s.transaction
  }

  function Output(e: Effect): seq<Transaction> {
    Mapped(TransactionOf, e.settled) + e.alone
  }

  function Settle(report: Query -> Transaction): Query -> Settlement {
    (q: Query) => Settlement(q, report(q))
  }

  /** Settle queries in the order they are due. */
  ghost function Settled(m: Pending, report: Query -> Transaction): seq<Settlement>
    requires Distinct(m)
  {
    RankedByDue(m);
    Mapped(Settle(report), InOrder(m, Before))
  }

  /** The query's age at `now` has reached the timeout. */
  function Aged(now: Time, timeout: int): Query -> bool {
    (q: Query) => now - q.fragment.observedAt >= timeout
  }

  /** expire. */
  ghost function Expired(c: Config, s: State, now: Time): Effect
    requires Distinct(s.pending)
  {
    Effect(s.(pending := Others(s.pending, Aged(now, c.timeout))),
           Settled(Where(s.pending, Aged(now, c.timeout)), TimedOut), [])
  }

  /** One datagram, after expiry. */
  function Handle(c: Config, s: State, f: Fragment): Effect {
    var g := Snapshot(f);
    match Parse(f.payload)
    case Unparsable(_) => Effect(s, [], [Unparsed(g, f.payload)])
    case Parsed(m) =>
      if m.response then
        var k := ResponseKey(g, m);
        if k in s.pending
        then Effect(s.(pending := s.pending - {k}), [Settlement(s.pending[k], Answered(g, m, Some(s.pending[k])))], [])
        else Effect(s, [], [Answered(g, m, None)])
      else
        var k := QueryKey(g, m);
        if k in s.pending then Effect(s, [], [])
        else if |s.pending| >= c.maxPending then Effect(s, [], [Unanswered(g, m, Incomplete(StateCapacity))])
        else Effect(State(s.pending[k := Query(g, m, s.sequence + 1)], s.sequence + 1), [], [])
  }

  /** Drain everything that is pending. */
  ghost function Drained(s: State, report: Query -> Transaction): Effect
    requires Distinct(s.pending)
  {
    Effect(s.(pending := map[]), Settled(s.pending, report), [])
  }

  function Then(a: Effect, b: Effect): Effect {
    Effect(b.state, a.settled + b.settled, a.alone + b.alone)
  }

  datatype Call = Process(f: Fragment) | Expire(now: Time) | Finish(end: Time) | Flush

  ghost function Step(c: Config, s: State, call: Call): Effect
    requires Distinct(s.pending)
  {
    match call
    case Process(f) =>
      var e := Expired(c, s, f.observedAt);
      Then(e, Handle(c, e.state, f))
    case Expire(now) => Expired(c, s, now)
    case Finish(end) =>
      var e := Expired(c, s, end);
      Then(e, Drained(e.state, CutOff))
    case Flush => Drained(s, TimedOut)
  }

  /** No two pending queries share a sequence number. */
  ghost predicate Distinct(m: Pending) {
    forall k, l :: k in m && l in m && m[k].sequence == m[l].sequence ==> k == l
  }

  lemma RankedByDue(m: Pending)
    requires Distinct(m)
    ensures Ordering(Before) && Ranked(m, Before)
  {
  }

  /** What holds of every reachable state. */
  ghost predicate Good(c: Config, s: State) {
    && |s.pending| <= c.maxPending
    && Distinct(s.pending)
    && Keyed(s.pending)
    && Numbered(s.pending, s.sequence)
  }

  ghost predicate Keyed(m: Pending) {
    forall k :: k in m ==> k == QueryKey(m[k].fragment, m[k].message)
  }

  ghost predicate Numbered(m: Pending, sequence: nat) {
    forall k :: k in m ==> 1 <= m[k].sequence <= sequence
  }

  lemma FewerIsGood(c: Config, s: State, m: Pending)
    requires Good(c, s) && forall k :: k in m ==> k in s.pending && m[k] == s.pending[k]
    ensures Good(c, s.(pending := m))
  {
    SubsetIsSmaller(m.Keys, s.pending.Keys);
  }

  lemma AdmittedIsDistinct(m: Pending, sequence: nat, k: Key, q: Query)
    requires Distinct(m) && Numbered(m, sequence) && k !in m && q.sequence == sequence + 1
    ensures Distinct(m[k := q]) && Numbered(m[k := q], sequence + 1)
  {
    var n := m[k := q];
    forall i, j | i in n && j in n && n[i].sequence == n[j].sequence ensures i == j {
      assert i != k ==> n[i] == m[i];
      assert j != k ==> n[j] == m[j];
    }
  }

  lemma AdmittedIsGood(c: Config, s: State, k: Key, q: Query)
    requires Good(c, s) && |s.pending| < c.maxPending && k !in s.pending
    requires q.sequence == s.sequence + 1 && k == QueryKey(q.fragment, q.message)
    ensures Good(c, State(s.pending[k := q], s.sequence + 1))
  {
    hide QueryKey, Distinct, Numbered;
    AdmittedIsDistinct(s.pending, s.sequence, k, q);
    assert s.pending[k := q].Keys == s.pending.Keys + {k};
  }

  lemma HandleIsGood(c: Config, s: State, f: Fragment)
    requires Good(c, s)
    ensures Good(c, Handle(c, s, f).state)
  {
    hide Parse, Answered, Unanswered, Unparsed, Snapshot, QueryKey, ResponseKey, Good;
    var g := Snapshot(f);
    match Parse(f.payload)
    case Unparsable(_) =>
    case Parsed(m) =>
      if m.response {
        FewerIsGood(c, s, s.pending - {ResponseKey(g, m)});
      } else if QueryKey(g, m) !in s.pending && |s.pending| < c.maxPending {
        AdmittedIsGood(c, s, QueryKey(g, m), Query(g, m, s.sequence + 1));
      }
  }

  lemma StepIsGood(c: Config, s: State, call: Call)
    requires Good(c, s)
    ensures Good(c, Step(c, s, call).state)
  {
    hide Handle, Aged, Settled, QueryKey;
    match call
    case Process(f) =>
      FewerIsGood(c, s, Others(s.pending, Aged(f.observedAt, c.timeout)));
      HandleIsGood(c, Expired(c, s, f.observedAt).state, f);
    case Expire(now) => FewerIsGood(c, s, Others(s.pending, Aged(now, c.timeout)));
    case Finish(now) => FewerIsGood(c, s, map[]);
    case Flush => FewerIsGood(c, s, map[]);
  }

  // ---------- Map and heap agree ----------

  /** The map and the heap hold the same query objects, each under its own key. */
  ghost predicate Agree(pending: map<Key, PendingQuery>, items: seq<PendingQuery>) {
    && (forall k :: k in pending ==> pending[k].key == k && pending[k] in items)
    && (forall i :: 0 <= i < |items| ==> items[i].key in pending && pending[items[i].key] == items[i])
  }

  function ValueOf(q: PendingQuery): Query {
    q.value
  }

  function Values(pending: map<Key, PendingQuery>): Pending {
    MappedValues(ValueOf, pending)
  }

  lemma AgreeAdded(pending: map<Key, PendingQuery>, items: seq<PendingQuery>, more: seq<PendingQuery>, q: PendingQuery)
    requires Agree(pending, items) && q.key !in pending && multiset(more) == multiset(items) + multiset{q}
    ensures Agree(pending[q.key := q], more)
  {
    var p := pending[q.key := q];
    forall k | k in p ensures p[k] in more {
      assert p[k] in multiset(more);
    }
    forall i | 0 <= i < |more| ensures more[i].key in p && p[more[i].key] == more[i] {
      assert more[i] in multiset(more);
    }
  }

  lemma AgreeRemoved(pending: map<Key, PendingQuery>, items: seq<PendingQuery>, less: seq<PendingQuery>, q: PendingQuery)
    requires Agree(pending, items) && NoDup(items) && q in items && multiset(less) == multiset(items) - multiset{q}
    ensures Agree(pending - {q.key}, less)
  {
    NoDupCounts(items, q);
    assert q !in multiset(less);
    forall k | k in pending - {q.key} ensures pending[k] in less {
      assert pending[k] in multiset(items) && pending[k] != q;
      assert pending[k] in multiset(less);
    }
    forall i | 0 <= i < |less| ensures less[i].key in pending - {q.key} && pending[less[i].key] == less[i] {
      assert less[i] in multiset(less);
      assert less[i] in multiset(items);
    }
  }

  lemma KnowsItsSlot(h: PendingHeap, q: PendingQuery)
    requires h.Valid() && q in h.items
    ensures NoDup(h.items) && 0 <= q.index < |h.items| && h.items[q.index] == q
  {
  }

  predicate Within(less: seq<PendingQuery>, items: seq<PendingQuery>) {
    forall i :: 0 <= i < |less| ==> less[i] in items
  }

  lemma FewerItems(items: seq<PendingQuery>, less: seq<PendingQuery>, q: PendingQuery)
    requires q in items && multiset(less) == multiset(items) - multiset{q}
    ensures |less| == |items| - 1 && Within(less, items)
  {
    assert |multiset(less)| == |less| && |multiset(items)| == |items|;
    forall i | 0 <= i < |less| ensures less[i] in items {
      assert less[i] in multiset(less);
    }
  }

  lemma ViewWithout(c: Config, pending: map<Key, PendingQuery>, sequence: nat, k: Key)
    requires Good(c, State(Values(pending), sequence))
    ensures Values(pending - {k}) == Values(pending) - {k}
    ensures Good(c, State(Values(pending - {k}), sequence))
  {
    hide Good, MappedValues;
    MappedWithout(ValueOf, pending, k);
    FewerIsGood(c, State(Values(pending), sequence), Values(pending) - {k});
  }

  /** The query at the root is due before every other pending query. */
  lemma RootIsDue(pending: map<Key, PendingQuery>, items: seq<PendingQuery>)
    requires Agree(pending, items) && Heap(items) && |items| > 0 && Distinct(Values(pending))
    ensures items[0].key in pending && ComesFirst(Values(pending), items[0].key, Before)
  {
    var m := Values(pending);
    forall l | l in m && l != items[0].key ensures Before(m[items[0].key], m[l]) {
      var i :| 0 <= i < |items| && items[i] == pending[l];
      RootIsFirst(items, i);
      assert m[l] == items[i].value && m[items[0].key] == items[0].value;
    }
  }

  /** When the root is younger than the timeout, so is everything. */
  lemma NoneIsAged(pending: map<Key, PendingQuery>, items: seq<PendingQuery>, now: Time, timeout: int)
    requires Agree(pending, items) && Heap(items)
    requires |items| > 0 ==> now - items[0].value.fragment.observedAt < timeout
    ensures forall k :: k in Values(pending) ==> !Aged(now, timeout)(Values(pending)[k])
  {
    forall k | k in pending ensures !Aged(now, timeout)(Values(pending)[k]) {
      var i :| 0 <= i < |items| && items[i] == pending[k];
      RootIsFirst(items, i);
    }
  }

  lemma NoneAgedLeft(m: Pending, p: Query -> bool)
    requires forall k :: k in m ==> !p(m[k])
    ensures Others(m, p) == m && forall k :: k !in Where(m, p)
  {
  }

  lemma GoodIsDistinct(c: Config, s: State)
    requires Good(c, s)
    ensures Distinct(s.pending)
  {
  }

  lemma DistinctPart(m: Pending, n: Pending)
    requires Distinct(m) && forall k :: k in n ==> k in m && n[k] == m[k]
    ensures Distinct(n)
  {
  }

  /** Settling the first query, then the rest. */
  lemma SettledNext(m: Pending, k: Key, report: Query -> Transaction)
    requires Distinct(m) && ComesFirst(m, k, Before)
    ensures Distinct(m - {k}) && Settled(m, report) == [Settlement(m[k], report(m[k]))] + Settled(m - {k}, report)
  {
    hide InOrder, Before, Ordering, Ranked, Mapped;
    RankedByDue(m);
    DistinctPart(m, m - {k});
    RankedByDue(m - {k});
    InOrderNext(m, k, Before);
    MappedCons(Settle(report), m[k], InOrder(m - {k}, Before));
  }

  lemma SettledNothing(m: Pending, report: Query -> Transaction)
    requires forall k :: k !in m
    ensures Distinct(m) && Settled(m, report) == []
  {
    RankedByDue(m);
    NoneInOrder(m, Before);
  }

  /** The same, where m is the part of a state that has come of age. */
  lemma SettledNextOf(m: Pending, p: Query -> bool, k: Key, report: Query -> Transaction)
    requires Distinct(m) && ComesFirst(m, k, Before) && p(m[k])
    ensures Distinct(Where(m, p)) && Distinct(Where(m - {k}, p))
    ensures Settled(Where(m, p), report) == [Settlement(m[k], report(m[k]))] + Settled(Where(m - {k}, p), report)
    ensures Others(m - {k}, p) == Others(m, p)
  {
    DistinctPart(m, Where(m, p));
    WhereWithout(m, p, k);
    assert ComesFirst(Where(m, p), k, Before);
    SettledNext(Where(m, p), k, report);
  }

  lemma OutputNext(done: seq<Transaction>, s: Settlement, rest: seq<Settlement>)
    ensures done + Mapped(TransactionOf, [s] + rest) == (done + [s.transaction]) + Mapped(TransactionOf, rest)
  {
    MappedCons(TransactionOf, s, rest);
  }

  /** The map and the heap agree, and the map is that of a reachable state. */
  ghost predicate Linked(c: Config, pending: map<Key, PendingQuery>, sequence: nat, items: seq<PendingQuery>) {
    Agree(pending, items) && Good(c, State(Values(pending), sequence))
  }

  lemma RemovedLinked(c: Config, pending: map<Key, PendingQuery>, sequence: nat, items: seq<PendingQuery>,
                      less: seq<PendingQuery>, q: PendingQuery)
    requires Linked(c, pending, sequence, items) && NoDup(items) && q in items
    requires multiset(less) == multiset(items) - multiset{q}
    ensures Linked(c, pending - {q.key}, sequence, less)
    ensures Values(pending - {q.key}) == Values(pending) - {q.key}
    ensures |less| == |items| - 1 && Within(less, items)
  {
    hide Agree, Good, Values;
    FewerItems(items, less, q);
    AgreeRemoved(pending, items, less, q);
    ViewWithout(c, pending, sequence, q.key);
  }

  lemma AddedLinked(c: Config, pending: map<Key, PendingQuery>, sequence: nat, items: seq<PendingQuery>,
                    more: seq<PendingQuery>, q: PendingQuery)
    requires Linked(c, pending, sequence, items) && q.key !in pending && |pending| < c.maxPending
    requires multiset(more) == multiset(items) + multiset{q}
    requires q.value.sequence == sequence + 1 && q.key == QueryKey(q.value.fragment, q.value.message)
    ensures Linked(c, pending[q.key := q], sequence + 1, more)
    ensures Values(pending[q.key := q]) == Values(pending)[q.key := q.value]
  {
    SameValues(pending);
    MappedWith(ValueOf, pending, q.key, q);
    AgreeAdded(pending, items, more, q);
    hide Agree, Good, QueryKey, MappedValues;
    AdmittedIsGood(c, State(Values(pending), sequence), q.key, q.value);
  }

  lemma SameValues(pending: map<Key, PendingQuery>)
    ensures |Values(pending)| == |pending|
    ensures forall k :: k in pending <==> k in Values(pending)
    ensures forall k :: k in pending ==> Values(pending)[k] == pending[k].value
  {
    assert Values(pending).Keys == pending.Keys;
  }

  lemma PendingInHeap(pending: map<Key, PendingQuery>, items: seq<PendingQuery>, k: Key)
    requires Agree(pending, items) && k in pending
    ensures pending[k] in items && pending[k].key == k
  {
  }

  lemma EmptyTogether(pending: map<Key, PendingQuery>, items: seq<PendingQuery>)
    requires Agree(pending, items) && items == []
    ensures Values(pending) == map[]
  {
  }

  lemma OutputThen(a: Effect, b: Effect)
    requires a.alone == []
    ensures Output(Then(a, b)) == Output(a) + Output(b)
  {
    MappedConcat(TransactionOf, a.settled, b.settled);
  }

  // ---------- The correlator ----------

  class Correlator {
    const config: Config
    var pending: map<Key, PendingQuery>
    const deadlines: PendingHeap
    var sequence: nat

    /** NewCorrelatorWithConfig. */
    constructor (timeout: int, maxPending: int)
      ensures Valid() && View() == EMPTY_STATE && fresh(deadlines)
      ensures config == Config(if timeout <= 0 then DEFAULT_TIMEOUT else timeout,
                               if maxPending <= 0 then DEFAULT_MAX_PENDING else maxPending)
    {
      config := Config(if timeout <= 0 then DEFAULT_TIMEOUT else timeout,
                       if maxPending <= 0 then DEFAULT_MAX_PENDING else maxPending);
      pending, sequence := map[], 0;
      deadlines := new PendingHeap();
    }

    ghost function View(): State
      reads this
    {
      State(Values(pending), sequence)
    }

    ghost predicate Valid()
      reads this, deadlines, deadlines.items
    {
      deadlines.Valid() && Linked(config, pending, sequence, deadlines.items)
    }

    /** remove: out of the heap by stored index, and out of the map. */
    method Remove(q: PendingQuery)
      requires Valid() && q in deadlines.items
      modifies this`pending, deadlines, deadlines.items
      ensures Valid() && View() == old(View()).(pending := old(View()).pending - {q.key})
      ensures |deadlines.items| == |old(deadlines.items)| - 1
      ensures Within(deadlines.items, old(deadlines.items))
    {
      hide Linked, Heap, Values, NoDup, Within;
      ghost var items := deadlines.items;
      KnowsItsSlot(deadlines, q);
      deadlines.Remove(q.index);
      RemovedLinked(config, pending, sequence, items, deadlines.items, q);
      pending := pending - {q.key};
    }

    /** Settle the query at the root. */
    method SettleFirst() returns (q: Query, ghost k: Key)
      requires Valid() && |deadlines.items| > 0
      modifies this`pending, deadlines, deadlines.items
      ensures Valid() && ComesFirst(old(View()).pending, k, Before) && q == old(View()).pending[k]
      ensures q == old(deadlines.items[0].value)
      ensures View() == old(View()).(pending := old(View()).pending - {k})
      ensures |deadlines.items| == |old(deadlines.items)| - 1
      ensures Within(deadlines.items, old(deadlines.items))
    {
      var first := deadlines.items[0];
      q, k := first.value, first.key;
      RootIsDue(pending, deadlines.items);
      Remove(first);
    }

    /** expire: report and remove, in order, exactly the queries of at least the timeout's age. */
    method ExpireAged(now: Time) returns (out: seq<Transaction>)
      requires Valid()
      modifies this`pending, deadlines, deadlines.items
      ensures Valid() && View() == Expired(config, old(View()), now).state
      ensures out == Output(Expired(config, old(View()), now))
      ensures Within(deadlines.items, old(deadlines.items))
    {
      hide Good, Heap, Before, TimedOut, Agree, Values, Settled, ComesFirst, Ordering, Ranked;
      out := [];
      GoodIsDistinct(config, View());
      ghost var p := Aged(now, config.timeout);
      ghost var goal := Expired(config, View(), now);
      while |deadlines.items| > 0 && now - deadlines.items[0].value.fragment.observedAt >= config.timeout
        invariant Valid() && Distinct(View().pending)
        invariant Expired(config, View(), now).state == goal.state
        invariant out + Mapped(TransactionOf, Expired(config, View(), now).settled) == Output(goal)
        invariant Within(deadlines.items, old(deadlines.items))
        decreases |deadlines.items|
      {
        ghost var m := View().pending;
        ghost var k;
        var q;
        q, k := SettleFirst();
        GoodIsDistinct(config, View());
        SettledNextOf(m, p, k, TimedOut);
        OutputNext(out, Settlement(q, TimedOut(q)), Settled(Where(m - {k}, p), TimedOut));
        out := out + [TimedOut(q)];
      }
      NoneIsAged(pending, deadlines.items, now, config.timeout);
      NoneAgedLeft(View().pending, p);
      SettledNothing(Where(View().pending, p), TimedOut);
    }

    /** Settle everything that is pending, first due first. */
    method SettleAll(report: Query -> Transaction) returns (out: seq<Transaction>)
      requires Valid()
      modifies this`pending, deadlines, deadlines.items
      ensures Valid() && View() == State(map[], old(sequence))
      ensures Distinct(old(View()).pending) && out == Output(Drained(old(View()), report))
    {
      hide Good, Heap, Before, Agree, Values, Settled, ComesFirst, Ordering, Ranked;
      out := [];
      GoodIsDistinct(config, View());
      ghost var goal := Drained(View(), report);
      while |deadlines.items| > 0
        invariant Valid() && Distinct(View().pending) && sequence == old(sequence)
        invariant out + Mapped(TransactionOf, Settled(View().pending, report)) == Output(goal)
        invariant Within(deadlines.items, old(deadlines.items))
        decreases |deadlines.items|
      {
        ghost var m := View().pending;
        ghost var k;
        var q;
        q, k := SettleFirst();
        GoodIsDistinct(config, View());
        SettledNext(m, k, report);
        OutputNext(out, Settlement(q, report(q)), Settled(m - {k}, report));
        out := out + [report(q)];
      }
      EmptyTogether(pending, deadlines.items);
      SettledNothing(View().pending, report);
    }

    /** Admit a query: a new object under the next sequence number. */
    method Admit(g: Fragment, m: Message)
      requires Valid() && QueryKey(g, m) !in pending && |pending| < config.maxPending
      modifies this, deadlines, deadlines.items
      ensures Valid() && sequence == old(sequence) + 1
      ensures View().pending == old(View()).pending[QueryKey(g, m) := Query(g, m, sequence)]
    {
      hide Linked, Heap, Values;
      var q := new PendingQuery(Query(g, m, sequence + 1), QueryKey(g, m));
      ghost var items := deadlines.items;
      deadlines.Push(q);
      AddedLinked(config, pending, sequence, items, deadlines.items, q);
      sequence := sequence + 1;
      pending := pending[q.key := q];
    }

    /** The datagram itself, after expiry. */
    method Consume(f: Fragment) returns (out: seq<Transaction>)
      requires Valid()
      modifies this, deadlines, deadlines.items
      ensures Valid() && View() == Handle(config, old(View()), f).state
      ensures out == Output(Handle(config, old(View()), f))
    {
      hide Parse, Answered, Unanswered, Unparsed, Snapshot, QueryKey, ResponseKey, Good, Heap, Agree;
      var g := Snapshot(f);
      out := [];
      match Parse(f.payload) {
        case Unparsable(_) =>
          out := [Unparsed(g, f.payload)];
        case Parsed(m) =>
          SameValues(pending);
          if m.response {
            var key := ResponseKey(g, m);
            if key in pending {
              var q := pending[key];
              PendingInHeap(pending, deadlines.items, key);
              Remove(q);
              out := [Answered(g, m, Some(q.value))];
            } else {
              out := [Answered(g, m, None)];
            }
          } else {
            var key := QueryKey(g, m);
            if key !in pending {
              if |pending| >= config.maxPending {
                out := [Unanswered(g, m, Incomplete(StateCapacity))];
              } else {
                Admit(g, m);
              }
            }
          }
      }
    }

    method Process(f: Fragment) returns (out: seq<Transaction>)
      requires Valid()
      modifies this, deadlines, deadlines.items
      ensures Valid() && View() == Step(config, old(View()), Call.Process(f)).state
      ensures out == Output(Step(config, old(View()), Call.Process(f)))
    {
      hide Handle, Settled, Good, Agree, Values;
      GoodIsDistinct(config, View());
      ghost var e := Expired(config, View(), f.observedAt);
      out := ExpireAged(f.observedAt);
      var more := Consume(f);
      OutputThen(e, Handle(config, e.state, f));
      out := out + more;
    }

    method Expire(now: Time) returns (out: seq<Transaction>)
      requires Valid()
      modifies this`pending, deadlines, deadlines.items
      ensures Valid() && View() == Step(config, old(View()), Call.Expire(now)).state
      ensures out == Output(Step(config, old(View()), Call.Expire(now)))
    {
      out := ExpireAged(now);
    }

    method Finish(now: Time) returns (out: seq<Transaction>)
      requires Valid()
      modifies this`pending, deadlines, deadlines.items
      ensures Valid() && View() == Step(config, old(View()), Call.Finish(now)).state
      ensures out == Output(Step(config, old(View()), Call.Finish(now)))
    {
      hide Settled, Good, Agree, Values;
      GoodIsDistinct(config, View());
      ghost var e := Expired(config, View(), now);
      out := ExpireAged(now);
      var rest := SettleAll(CutOff);
      OutputThen(e, Drained(e.state, CutOff));
      out := out + rest;
    }

    method Flush() returns (out: seq<Transaction>)
      requires Valid()
      modifies this`pending, deadlines, deadlines.items
      ensures Valid() && View() == Step(config, old(View()), Call.Flush).state
      ensures out == Output(Step(config, old(View()), Call.Flush))
    {
      out := SettleAll(TimedOut);
    }
  }
}
