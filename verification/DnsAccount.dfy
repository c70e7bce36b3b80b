/** What becomes of every admitted DNS query over whole runs of the correlator. */
module DnsAccounts {
  import opened Base
  import opened FlowTypes
  import opened Lists
  import opened DnsMessages
  import opened DnsTypes
  import opened DnsCorrelators

  /** The effect of successive calls on a new correlator. */
  ghost function Run(c: Config, calls: seq<Call>): (e: Effect)
    ensures Good(c, e.state)
  {
    if calls == [] then Effect(EMPTY_STATE, [], [])
    else
      var e := Run(c, calls[..|calls| - 1]);
      StepIsGood(c, e.state, calls[|calls| - 1]);
      Then(e, Step(c, e.state, calls[|calls| - 1]))
  }

  ghost predicate IsPending(m: Pending, n: nat) {
    exists k :: k in m && m[k].sequence == n
  }

  ghost predicate IsSettled(settled: seq<Settlement>, n: nat) {
    exists i :: 0 <= i < |settled| && settled[i].query.sequence == n
  }

  /** Settlements are of different queries, none of them still pending. */
  ghost predicate Apart(m: Pending, settled: seq<Settlement>) {
    && (forall i, j :: 0 <= i < j < |settled| ==> settled[i].query.sequence != settled[j].query.sequence)
    && (forall i, k :: 0 <= i < |settled| && k in m ==> settled[i].query.sequence != m[k].sequence)
  }

  /** The n-th admitted query, for every n so far, is pending or settled; nothing else is. */
  ghost predicate Complete(s: State, settled: seq<Settlement>) {
    forall n: nat :: 1 <= n <= s.sequence <==> IsPending(s.pending, n) || IsSettled(settled, n)
  }

  /** Every admitted query is either still pending or was closed by exactly one transaction. */
  ghost predicate Accounted(s: State, settled: seq<Settlement>) {
    Apart(s.pending, settled) && Complete(s, settled)
  }

  // ---------- Taking queries out ----------

  /** n is what is left of m. */
  ghost predicate Remains(m: Pending, n: Pending) {
    forall k :: k in n ==> k in m && n[k] == m[k]
  }

  /** Each settlement closes a query of m that is not in n. */
  ghost predicate CloseSome(m: Pending, n: Pending, settled: seq<Settlement>) {
    && (forall i :: 0 <= i < |settled| ==> IsValue(m, settled[i].query))
    && (forall i, k :: 0 <= i < |settled| && k in n ==> settled[i].query.sequence != n[k].sequence)
  }

  ghost predicate NoneTwice(settled: seq<Settlement>) {
    forall i, j :: 0 <= i < j < |settled| ==> settled[i].query.sequence != settled[j].query.sequence
  }

  ghost predicate CloseAll(m: Pending, n: Pending, settled: seq<Settlement>) {
    forall k :: k in m && k !in n ==> IsSettled(settled, m[k].sequence)
  }

  /** settled closes, each once, exactly the queries of m that are not in n. */
  ghost predicate Takes(m: Pending, n: Pending, settled: seq<Settlement>) {
    Remains(m, n) && CloseSome(m, n, settled) && NoneTwice(settled) && CloseAll(m, n, settled)
  }

  lemma TakesKeeps(s: State, m: Pending, before: seq<Settlement>, settled: seq<Settlement>)
    requires Accounted(s, before) && Takes(s.pending, m, settled)
    ensures Accounted(s.(pending := m), before + settled)
  {
    TakesApart(s.pending, m, before, settled);
    TakesComplete(s, m, before, settled);
  }

  lemma TakesApart(n: Pending, m: Pending, before: seq<Settlement>, settled: seq<Settlement>)
    requires Apart(n, before) && Takes(n, m, settled)
    ensures Apart(m, before + settled)
  {
    hide IsSettled;
    var all := before + settled;
    forall i, j | 0 <= i < j < |all| ensures all[i].query.sequence != all[j].query.sequence {
      if i < |before| <= j {
        assert all[i] == before[i] && all[j] == settled[j - |before|];
        var k :| k in n && n[k] == all[j].query;
      } else if j < |before| {
        assert all[i] == before[i] && all[j] == before[j];
      } else {
        assert all[i] == settled[i - |before|] && all[j] == settled[j - |before|];
      }
    }
    forall i, k | 0 <= i < |all| && k in m ensures all[i].query.sequence != m[k].sequence {
      assert all[i] == if i < |before| then before[i] else settled[i - |before|];
    }
  }

  lemma SettledConcat(a: seq<Settlement>, b: seq<Settlement>, n: nat)
    ensures IsSettled(a + b, n) <==> IsSettled(a, n) || IsSettled(b, n)
  {
    var all := a + b;
    if IsSettled(a, n) {
      var i :| 0 <= i < |a| && a[i].query.sequence == n;
      assert all[i] == a[i];
    }
    if IsSettled(b, n) {
      var i :| 0 <= i < |b| && b[i].query.sequence == n;
      assert all[|a| + i] == b[i];
    }
    if IsSettled(all, n) {
      var i :| 0 <= i < |all| && all[i].query.sequence == n;
      assert all[i] == if i < |a| then a[i] else b[i - |a|];
    }
  }

  lemma TakesComplete(s: State, m: Pending, before: seq<Settlement>, settled: seq<Settlement>)
    requires Complete(s, before) && Takes(s.pending, m, settled)
    ensures Complete(s.(pending := m), before + settled)
  {
    forall n: nat ensures 1 <= n <= s.sequence <==> IsPending(m, n) || IsSettled(before + settled, n) {
      SettledConcat(before, settled, n);
      TakesNumber(s.pending, m, settled, n);
    }
  }

  lemma TakesNumber(m: Pending, n: Pending, settled: seq<Settlement>, x: nat)
    requires Takes(m, n, settled)
    ensures IsPending(m, x) <==> IsPending(n, x) || IsSettled(settled, x)
  {
    if IsPending(m, x) {
      var k :| k in m && m[k].sequence == x;
      assert k in n ==> n[k].sequence == x;
    }
    if IsPending(n, x) {
      var k :| k in n && n[k].sequence == x;
      assert k in m && m[k].sequence == x;
    }
    if IsSettled(settled, x) {
      var i :| 0 <= i < |settled| && settled[i].query.sequence == x;
      var k :| k in m && m[k] == settled[i].query;
    }
  }

  // ---------- Each call ----------

  lemma SettledQueries(t: Pending, report: Query -> Transaction, i: nat)
    requires Distinct(t) && i < |Settled(t, report)|
    ensures var s := Settled(t, report)[i]; IsValue(t, s.query) && s.transaction == report(s.query)
  {
    RankedByDue(t);
    InOrderIsExact(t, Before);
    hide Before, IsValue, Ordering, Ranked;
    assert InOrder(t, Before)[i] in InOrder(t, Before);
  }

  lemma SettledOrdered(t: Pending, report: Query -> Transaction, i: nat, j: nat)
    requires Distinct(t) && i < j < |Settled(t, report)|
    ensures Before(Settled(t, report)[i].query, Settled(t, report)[j].query)
  {
    RankedByDue(t);
    InOrderIsExact(t, Before);
    hide Before, IsValue, Ordering, Ranked;
  }

  lemma SettledReaches(t: Pending, report: Query -> Transaction, k: Key)
    requires Distinct(t) && k in t
    ensures IsSettled(Settled(t, report), t[k].sequence)
  {
    RankedByDue(t);
    InOrderIsExact(t, Before);
    KeyIsValue(t, k);
    hide Before, IsValue, Ordering, Ranked;
    var qs, settled := InOrder(t, Before), Settled(t, report);
    var i :| 0 <= i < |qs| && qs[i] == t[k];
    assert settled[i].query == t[k];
  }

  lemma KeyIsValue(t: Pending, k: Key)
    requires k in t
    ensures IsValue(t, t[k])
  {
  }

  lemma ValuesApart(t: Pending, a: Query, b: Query)
    requires Distinct(t) && IsValue(t, a) && IsValue(t, b) && a != b
    ensures a.sequence != b.sequence
  {
  }

  lemma ValueOfWhole(t: Pending, n: Pending, m: Pending, q: Query)
    requires Shares(t, n, m) && Distinct(m) && IsValue(t, q)
    ensures IsValue(m, q) && forall k :: k in n ==> n[k].sequence != q.sequence
  {
    var l :| l in t && t[l] == q;
    assert l in m && m[l] == q;
  }

  lemma SettledApart(t: Pending, report: Query -> Transaction, i: nat, j: nat)
    requires Distinct(t) && i < j < |Settled(t, report)|
    ensures Settled(t, report)[i].query.sequence != Settled(t, report)[j].query.sequence
  {
    hide Distinct, Settled, IsValue, Before;
    var settled := Settled(t, report);
    SettledQueries(t, report, i);
    SettledQueries(t, report, j);
    SettledOrdered(t, report, i, j);
    NotBeforeItself(settled[i].query);
    ValuesApart(t, settled[i].query, settled[j].query);
  }

  lemma SettledOfWhole(m: Pending, t: Pending, n: Pending, report: Query -> Transaction, i: nat)
    requires Distinct(m) && Shares(t, n, m) && Distinct(t) && i < |Settled(t, report)|
    ensures var s := Settled(t, report)[i];
            && s.transaction == report(s.query) && IsValue(m, s.query)
            && forall k :: k in n ==> s.query.sequence != n[k].sequence
  {
    hide Distinct, Settled, IsValue, Shares;
    SettledQueries(t, report, i);
    ValueOfWhole(t, n, m, Settled(t, report)[i].query);
  }

  lemma SettledCloseSome(m: Pending, t: Pending, n: Pending, report: Query -> Transaction)
    requires Distinct(m) && Shares(t, n, m) && Distinct(t)
    ensures CloseSome(m, n, Settled(t, report))
  {
    hide Distinct, Settled, IsValue, Shares;
    var settled := Settled(t, report);
    forall i | 0 <= i < |settled|
      ensures IsValue(m, settled[i].query)
      ensures forall k :: k in n ==> settled[i].query.sequence != n[k].sequence
    {
      SettledOfWhole(m, t, n, report, i);
    }
  }

  lemma SettledNoneTwice(t: Pending, report: Query -> Transaction)
    requires Distinct(t)
    ensures NoneTwice(Settled(t, report))
  {
    hide Distinct, Settled;
    var settled := Settled(t, report);
    forall i, j | 0 <= i < j < |settled| ensures settled[i].query.sequence != settled[j].query.sequence {
      SettledApart(t, report, i, j);
    }
  }

  lemma SettledCloseAll(m: Pending, t: Pending, n: Pending, report: Query -> Transaction)
    requires Shares(t, n, m) && Distinct(t)
    ensures CloseAll(m, n, Settled(t, report))
  {
    SharedPart(t, n, m);
    hide Distinct, Settled, Shares, IsSettled;
    forall k | k in m && k !in n ensures IsSettled(Settled(t, report), m[k].sequence) {
      SettledReaches(t, report, k);
    }
  }

  lemma SettledTakes(m: Pending, t: Pending, n: Pending, report: Query -> Transaction)
    requires Distinct(m) && Shares(t, n, m) && Distinct(t)
    ensures Takes(m, n, Settled(t, report))
  {
    SharedPart(t, n, m);
    hide Distinct, Settled, Shares, CloseSome, NoneTwice, CloseAll;
    SettledCloseSome(m, t, n, report);
    SettledNoneTwice(t, report);
    SettledCloseAll(m, t, n, report);
  }

  lemma NotBeforeItself(q: Query)
    ensures !Before(q, q)
  {
  }

  lemma SharedPart(t: Pending, n: Pending, m: Pending)
    requires Shares(t, n, m)
    ensures forall k :: k in n ==> k in m && n[k] == m[k]
    ensures forall k :: k in m && k !in n ==> k in t && t[k] == m[k]
  {
  }

  lemma TakesAged(c: Config, s: State, now: Time)
    requires Distinct(s.pending)
    ensures Takes(s.pending, Expired(c, s, now).state.pending, Expired(c, s, now).settled)
  {
    hide Takes, Settled;
    var p := Aged(now, c.timeout);
    var t := Where(s.pending, p);
    DistinctPart(s.pending, t);
    SettledTakes(s.pending, t, Others(s.pending, p), TimedOut);
  }

  lemma TakesAll(s: State, report: Query -> Transaction)
    requires Distinct(s.pending)
    ensures Takes(s.pending, map[], Settled(s.pending, report))
  {
    hide Takes, Settled;
    SettledTakes(s.pending, s.pending, map[], report);
  }

  lemma TakesOne(m: Pending, k: Key, t: Transaction)
    requires Distinct(m) && k in m
    ensures Takes(m, m - {k}, [Settlement(m[k], t)])
  {
    assert IsValue(m, m[k]);
    var settled := [Settlement(m[k], t)];
    assert settled[0].query == m[k];
    assert IsSettled(settled, m[k].sequence);
  }

  /** Admitting the next query. */
  lemma AdmittedAccounted(s: State, settled: seq<Settlement>, k: Key, q: Query)
    requires Accounted(s, settled) && k !in s.pending && q.sequence == s.sequence + 1
    ensures Accounted(State(s.pending[k := q], s.sequence + 1), settled)
  {
    var m := s.pending[k := q];
    forall i | 0 <= i < |settled| ensures settled[i].query.sequence <= s.sequence {
      assert IsSettled(settled, settled[i].query.sequence);
    }
    forall n: nat ensures IsPending(m, n) <==> IsPending(s.pending, n) || n == q.sequence {
      if IsPending(s.pending, n) {
        var l :| l in s.pending && s.pending[l].sequence == n;
        assert m[l].sequence == n;
      }
      assert m[k].sequence == q.sequence;
    }
  }

  lemma HandleAccounted(c: Config, s: State, f: Fragment, before: seq<Settlement>)
    requires Good(c, s) && Accounted(s, before)
    ensures var e := Handle(c, s, f); Accounted(e.state, before + e.settled)
  {
    hide Parse, Answered, Unanswered, Unparsed, Snapshot, QueryKey, ResponseKey, Accounted, Takes;
    var g := Snapshot(f);
    assert before + [] == before;
    match Parse(f.payload)
    case Unparsable(_) =>
    case Parsed(m) =>
      if m.response {
        var k := ResponseKey(g, m);
        if k in s.pending {
          TakesOne(s.pending, k, Answered(g, m, Some(s.pending[k])));
          TakesKeeps(s, s.pending - {k}, before, [Settlement(s.pending[k], Answered(g, m, Some(s.pending[k])))]);
        }
      } else if QueryKey(g, m) !in s.pending && |s.pending| < c.maxPending {
        AdmittedAccounted(s, before, QueryKey(g, m), Query(g, m, s.sequence + 1));
      }
  }

  lemma ExpiredAccounted(c: Config, s: State, now: Time, before: seq<Settlement>)
    requires Good(c, s) && Accounted(s, before)
    ensures var e := Expired(c, s, now); Accounted(e.state, before + e.settled) && Good(c, e.state)
  {
    hide Accounted, Takes, Settled, Aged;
    TakesAged(c, s, now);
    var e := Expired(c, s, now);
    TakesKeeps(s, e.state.pending, before, e.settled);
    StepIsGood(c, s, Call.Expire(now));
  }

  lemma DrainedAccounted(c: Config, s: State, report: Query -> Transaction, before: seq<Settlement>)
    requires Good(c, s) && Accounted(s, before)
    ensures var e := Drained(s, report); Accounted(e.state, before + e.settled)
  {
    hide Accounted, Takes, Settled;
    TakesAll(s, report);
    TakesKeeps(s, map[], before, Settled(s.pending, report));
  }

  lemma ThreeParts<T>(a: seq<T>, b: seq<T>, c: seq<T>)
    ensures a + (b + c) == (a + b) + c
  {
  }

  lemma StepAccounted(c: Config, s: State, call: Call, before: seq<Settlement>)
    requires Good(c, s) && Accounted(s, before)
    ensures var e := Step(c, s, call); Accounted(e.state, before + e.settled)
  {
    hide Accounted, Expired, Drained, Handle, Good;
    GoodIsDistinct(c, s);
    match call
    case Process(f) =>
      var e := Expired(c, s, f.observedAt);
      ExpiredAccounted(c, s, f.observedAt, before);
      HandleAccounted(c, e.state, f, before + e.settled);
      ThreeParts(before, e.settled, Handle(c, e.state, f).settled);
    case Expire(now) =>
      ExpiredAccounted(c, s, now, before);
    case Finish(end) =>
      var e := Expired(c, s, end);
      ExpiredAccounted(c, s, end, before);
      GoodIsDistinct(c, e.state);
      DrainedAccounted(c, e.state, CutOff, before + e.settled);
      ThreeParts(before, e.settled, Drained(e.state, CutOff).settled);
    case Flush =>
      DrainedAccounted(c, s, TimedOut, before);
  }

  /** Conservation: after any calls, the queries admitted so far are those numbered 1 to the
      sequence counter, and each is either pending or closed by exactly one transaction of the run;
      no more than the configured number is pending. */
  lemma {:induction false} EveryQueryIsAccounted(c: Config, calls: seq<Call>)
    ensures var e := Run(c, calls); Accounted(e.state, e.settled) && |e.state.pending| <= c.maxPending
    decreases |calls|
  {
    if calls != [] {
      var e := Run(c, calls[..|calls| - 1]);
      EveryQueryIsAccounted(c, calls[..|calls| - 1]);
      hide Accounted, Step;
      StepAccounted(c, e.state, calls[|calls| - 1], e.settled);
    }
  }

  /** Finish and Flush leave nothing pending, so then every admitted query was closed exactly once. */
  lemma EndingSettlesAll(c: Config, calls: seq<Call>, last: Call)
    requires last.Finish? || last.Flush?
    ensures var e := Run(c, calls + [last]);
            && e.state.pending == map[] && Apart(map[], e.settled)
            && forall n: nat :: 1 <= n <= e.state.sequence <==> IsSettled(e.settled, n)
  {
    var all := calls + [last];
    var e := Run(c, calls);
    RunNext(c, calls, last);
    EveryQueryIsAccounted(c, all);
    hide Run, Apart, IsSettled;
    LastEmpties(c, e.state, last);
  }

  lemma RunNext(c: Config, calls: seq<Call>, last: Call)
    ensures Run(c, calls + [last]) == Then(Run(c, calls), Step(c, Run(c, calls).state, last))
  {
    assert (calls + [last])[..|calls|] == calls;
  }

  lemma LastEmpties(c: Config, s: State, last: Call)
    requires Distinct(s.pending) && (last.Finish? || last.Flush?)
    ensures Step(c, s, last).state.pending == map[]
  {
  }

  // ---------- Datagrams and transactions ----------

  predicate IsResponse(call: Call) {
    call.Process? && Parse(call.f.payload).Parsed? && Parse(call.f.payload).message.response
  }

  predicate IsQuery(call: Call) {
    call.Process? && Parse(call.f.payload).Parsed? && !Parse(call.f.payload).message.response
  }

  predicate IsUnparsable(call: Call) {
    call.Process? && Parse(call.f.payload).Unparsable?
  }

  /** A query that, after expiry, is already outstanding. */
  ghost predicate IsDuplicate(c: Config, s: State, call: Call)
    requires Distinct(s.pending)
  {
    IsQuery(call) &&
    QueryKey(Snapshot(call.f), Parse(call.f.payload).message) in Expired(c, s, call.f.observedAt).state.pending
  }

  ghost function Duplicates(c: Config, calls: seq<Call>): nat {
    if calls == [] then 0
    else
      var s, last := Run(c, calls[..|calls| - 1]).state, calls[|calls| - 1];
      GoodIsDistinct(c, s);
      Duplicates(c, calls[..|calls| - 1]) + (if IsDuplicate(c, s, last) then 1 else 0)
  }

  function HasOutcome(o: Outcome): Transaction -> bool {
    (t: Transaction) => t.outcome == o
  }

  const REJECTED := Incomplete(StateCapacity)

  predicate OfDatagrams(o: Outcome) {
    o == Response || o == ParseFailed || o == REJECTED
  }

  lemma ExpiryIsApart(m: Pending, report: Query -> Transaction, o: Outcome)
    requires Distinct(m) && forall q :: report(q).outcome != o
    ensures Count(Mapped(TransactionOf, Settled(m, report)), HasOutcome(o)) == 0
  {
    hide InOrder, Before, Ordering, Ranked;
    RankedByDue(m);
    CountNone(Mapped(TransactionOf, Settled(m, report)), HasOutcome(o));
  }

  lemma OneCounted(t: Transaction, o: Outcome)
    ensures Count([t], HasOutcome(o)) == if t.outcome == o then 1 else 0
  {
    assert [t][..0] == [];
  }

  /** How many of the transactions of an effect have this outcome. */
  function Outcomes(e: Effect, o: Outcome): nat {
    Count(Output(e), HasOutcome(o))
  }

  lemma OutcomesThen(a: Effect, b: Effect, o: Outcome)
    ensures Outcomes(Then(a, b), o) == Outcomes(a, o) + Outcomes(b, o)
  {
    var p := HasOutcome(o);
    var sa, sb := Mapped(TransactionOf, a.settled), Mapped(TransactionOf, b.settled);
    MappedConcat(TransactionOf, a.settled, b.settled);
    hide Count, Mapped;
    CountConcat(sa, a.alone, p);
    CountConcat(sb, b.alone, p);
    CountConcat(sa + sb, a.alone + b.alone, p);
    CountConcat(sa, sb, p);
    CountConcat(a.alone, b.alone, p);
  }

  /** The query is new: nothing pending has its key. */
  predicate IsNew(s: State, f: Fragment) {
    Parse(f.payload).Parsed? && QueryKey(Snapshot(f), Parse(f.payload).message) !in s.pending
  }

  /** How many transactions of outcome o the datagram itself yields. */
  function Yield(c: Config, s: State, f: Fragment, o: Outcome): nat {
    var call := Call.Process(f);
    if o == Response then (if IsResponse(call) then 1 else 0)
    else if o == ParseFailed then (if IsUnparsable(call) then 1 else 0)
    else if IsQuery(call) && IsNew(s, f) && |s.pending| >= c.maxPending then 1 else 0
  }

  /** The transaction that handling a datagram puts out, if any. */
  function HandleOutput(c: Config, s: State, f: Fragment): Option<Transaction> {
    var g := Snapshot(f);
    match Parse(f.payload)
    case Unparsable(_) => Some(Unparsed(g, f.payload))
    case Parsed(m) =>
      if m.response then
        var k := ResponseKey(g, m);
        Some(Answered(g, m, if k in s.pending then Some(s.pending[k]) else None))
      else if QueryKey(g, m) !in s.pending && |s.pending| >= c.maxPending then Some(Unanswered(g, m, REJECTED))
      else None
  }

  lemma HandleOutputs(c: Config, s: State, f: Fragment)
    ensures Output(Handle(c, s, f)) == match HandleOutput(c, s, f) case Some(t) => [t] case None => []
  {
    hide Parse, Snapshot, QueryKey, ResponseKey, Answered, Unanswered, Unparsed;
  }

  lemma OutputYields(c: Config, s: State, f: Fragment, o: Outcome)
    requires OfDatagrams(o)
    ensures Yield(c, s, f, o) == match HandleOutput(c, s, f) case Some(t) => (if t.outcome == o then 1 else 0) case None => 0
  {
    hide Parse, Snapshot, QueryKey, ResponseKey;
  }

  lemma HandleYields(c: Config, s: State, f: Fragment, o: Outcome)
    requires OfDatagrams(o)
    ensures Outcomes(Handle(c, s, f), o) == Yield(c, s, f, o)
  {
    hide Handle, HandleOutput, Output, Yield;
    HandleOutputs(c, s, f);
    OutputYields(c, s, f, o);
    match HandleOutput(c, s, f)
    case Some(t) => OneCounted(t, o);
    case None =>
  }

  lemma HandleAdmits(c: Config, s: State, f: Fragment)
    ensures Handle(c, s, f).state.sequence
            == s.sequence + (if IsQuery(Call.Process(f)) && IsNew(s, f) && |s.pending| < c.maxPending then 1 else 0)
  {
    hide Parse, Snapshot, QueryKey, ResponseKey, Answered, Unanswered, Unparsed;
  }

  /** What one call adds to the tallies. */
  lemma StepCounts(c: Config, s: State, call: Call)
    requires Good(c, s)
    ensures var e := Step(c, s, call);
            && Outcomes(e, Response) == (if IsResponse(call) then 1 else 0)
            && Outcomes(e, ParseFailed) == (if IsUnparsable(call) then 1 else 0)
            && (e.state.sequence - s.sequence) + Outcomes(e, REJECTED) + (if IsDuplicate(c, s, call) then 1 else 0)
               == (if IsQuery(call) then 1 else 0)
  {
    hide Parse, Snapshot, QueryKey, Good, Settled, Handle, TimedOut, CutOff, Outcomes, Aged;
    GoodIsDistinct(c, s);
    StepCountsOf(c, s, call, Response);
    StepCountsOf(c, s, call, ParseFailed);
    StepCountsOf(c, s, call, REJECTED);
    if call.Process? {
      HandleAdmits(c, Expired(c, s, call.f.observedAt).state, call.f);
    }
  }

  lemma StepCountsOf(c: Config, s: State, call: Call, o: Outcome)
    requires Good(c, s) && OfDatagrams(o)
    ensures Distinct(s.pending)
    ensures Outcomes(Step(c, s, call), o) == if call.Process? then Yield(c, Expired(c, s, call.f.observedAt).state, call.f, o) else 0
  {
    hide Parse, Snapshot, QueryKey, Good, Settled, Handle, Outcomes, Yield, Aged;
    GoodIsDistinct(c, s);
    match call
    case Process(f) =>
      ExpiredCounts(c, s, f.observedAt, o);
      HandleYields(c, Expired(c, s, f.observedAt).state, f, o);
      OutcomesThen(Expired(c, s, f.observedAt), Handle(c, Expired(c, s, f.observedAt).state, f), o);
    case Expire(now) =>
      ExpiredCounts(c, s, now, o);
    case Finish(end) =>
      var e := Expired(c, s, end);
      ExpiredCounts(c, s, end, o);
      DistinctPart(s.pending, e.state.pending);
      DrainedCounts(e.state, CutOff, o);
      OutcomesThen(e, Drained(e.state, CutOff), o);
    case Flush =>
      DrainedCounts(s, TimedOut, o);
  }

  lemma DrainedCounts(s: State, report: Query -> Transaction, o: Outcome)
    requires Distinct(s.pending) && OfDatagrams(o) && (report == TimedOut || report == CutOff)
    ensures Outcomes(Drained(s, report), o) == 0
  {
    hide Settled, Count;
    ExpiryIsApart(s.pending, report, o);
    assert Output(Drained(s, report)) == Mapped(TransactionOf, Settled(s.pending, report));
  }

  lemma ExpiredCounts(c: Config, s: State, now: Time, o: Outcome)
    requires Distinct(s.pending) && OfDatagrams(o)
    ensures Outcomes(Expired(c, s, now), o) == 0
  {
    hide Settled, Count;
    var t := Where(s.pending, Aged(now, c.timeout));
    DistinctPart(s.pending, t);
    ExpiryIsApart(t, TimedOut, o);
    assert Output(Expired(c, s, now)) == Mapped(TransactionOf, Settled(t, TimedOut));
  }

  /** Datagrams are accounted for too: each response yields one response transaction, each
      unparsable datagram one parse failure, and each query is admitted, rejected for lack of room
      with one record, or absorbed by an identical outstanding query. */
  lemma {:induction false} EveryDatagramIsAccounted(c: Config, calls: seq<Call>)
    ensures var e := Run(c, calls);
            && Outcomes(e, Response) == Count(calls, IsResponse)
            && Outcomes(e, ParseFailed) == Count(calls, IsUnparsable)
            && e.state.sequence + Outcomes(e, REJECTED) + Duplicates(c, calls) == Count(calls, IsQuery)
    decreases |calls|
  {
    if calls == [] {
      assert Output(Run(c, [])) == [];
    } else {
      var n := |calls| - 1;
      var e := Run(c, calls[..n]);
      EveryDatagramIsAccounted(c, calls[..n]);
      hide Step, IsResponse, IsUnparsable, IsQuery, IsDuplicate, Outcomes, Good;
      StepIsGood(c, e.state, calls[n]);
      StepCounts(c, e.state, calls[n]);
      GoodIsDistinct(c, e.state);
      OutcomesThen(e, Step(c, e.state, calls[n]), Response);
      OutcomesThen(e, Step(c, e.state, calls[n]), ParseFailed);
      OutcomesThen(e, Step(c, e.state, calls[n]), REJECTED);
    }
  }

  // ---------- No early expiry ----------

  /** The state after further calls. */
  ghost function Later(c: Config, s: State, calls: seq<Call>): State
    requires Good(c, s)
    decreases |calls|
  {
    if calls == [] then s
    else
      StepIsGood(c, s, calls[0]);
      Later(c, Step(c, s, calls[0]).state, calls[1..])
  }

  /** The call neither reaches the query's deadline nor answers it. */
  predicate Spares(c: Config, call: Call, k: Key, q: Query) {
    match call
    case Process(f) =>
      f.observedAt - q.fragment.observedAt < c.timeout &&
      !(IsResponse(call) && ResponseKey(Snapshot(f), Parse(f.payload).message) == k)
    case Expire(now) => now - q.fragment.observedAt < c.timeout
    case _ => false
  }

  lemma SparedByExpiry(c: Config, s: State, now: Time, k: Key)
    requires Distinct(s.pending) && k in s.pending && now - s.pending[k].fragment.observedAt < c.timeout
    ensures var t := Expired(c, s, now).state; k in t.pending && t.pending[k] == s.pending[k]
  {
    hide Settled;
  }

  lemma SparedByHandle(c: Config, s: State, f: Fragment, k: Key)
    requires k in s.pending
    requires !(IsResponse(Call.Process(f)) && ResponseKey(Snapshot(f), Parse(f.payload).message) == k)
    ensures var t := Handle(c, s, f).state; k in t.pending && t.pending[k] == s.pending[k]
  {
    hide Parse, Snapshot, QueryKey, ResponseKey, Answered, Unanswered, Unparsed;
  }

  lemma SparedByOne(c: Config, s: State, call: Call, k: Key)
    requires Good(c, s) && k in s.pending && Spares(c, call, k, s.pending[k])
    ensures var t := Step(c, s, call).state; k in t.pending && t.pending[k] == s.pending[k]
  {
    hide Expired, Handle, Good, IsResponse, Snapshot, ResponseKey;
    GoodIsDistinct(c, s);
    if call.Process? {
      SparedByExpiry(c, s, call.f.observedAt, k);
      SparedByHandle(c, Expired(c, s, call.f.observedAt).state, call.f, k);
    } else {
      SparedByExpiry(c, s, call.now, k);
    }
  }

  /** An admitted query stays pending, unchanged, through any calls before its deadline that do not answer it. */
  lemma {:induction false} StillPending(c: Config, s: State, calls: seq<Call>, k: Key)
    requires Good(c, s) && k in s.pending
    requires forall i :: 0 <= i < |calls| ==> Spares(c, calls[i], k, s.pending[k])
    ensures var t := Later(c, s, calls); k in t.pending && t.pending[k] == s.pending[k]
    decreases |calls|
  {
    if calls != [] {
      SparedByOne(c, s, calls[0], k);
      StepIsGood(c, s, calls[0]);
      hide Spares, Step, Good;
      StillPending(c, Step(c, s, calls[0]).state, calls[1..], k);
    }
  }

  // ---------- What is not retained ----------

  predicate Bare(q: Query) {
    q.fragment.payload == [] && (q.fragment.process.Some? ==> q.fragment.process.value.cmdline == "")
  }

  ghost predicate AllBare(m: Pending) {
    forall k :: k in m ==> Bare(m[k])
  }

  lemma HandleStaysBare(c: Config, s: State, f: Fragment)
    requires AllBare(s.pending)
    ensures AllBare(Handle(c, s, f).state.pending)
  {
    hide Parse, QueryKey, ResponseKey, Answered, Unanswered, Unparsed;
  }

  lemma StepStaysBare(c: Config, s: State, call: Call)
    requires Good(c, s) && AllBare(s.pending)
    ensures AllBare(Step(c, s, call).state.pending)
  {
    hide Handle, Bare, Settled, Aged;
    if call.Process? {
      HandleStaysBare(c, Expired(c, s, call.f.observedAt).state, call.f);
    }
  }

  /** No pending query ever holds a datagram or a command line. */
  lemma {:induction false} PendingStaysBare(c: Config, calls: seq<Call>)
    ensures AllBare(Run(c, calls).state.pending)
    decreases |calls|
  {
    if calls != [] {
      PendingStaysBare(c, calls[..|calls| - 1]);
      hide AllBare, Step;
      StepStaysBare(c, Run(c, calls[..|calls| - 1]).state, calls[|calls| - 1]);
    }
  }
}
