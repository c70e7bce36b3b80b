/** Which queries a run of the DNS correlator admitted, and which transaction closed each of them. */
module DnsLedgers {
  import opened Base
  import opened FlowTypes
  import opened Lists
  import opened DnsMessages
  import opened DnsTypes
  import opened DnsCorrelators
  import opened DnsAccounts

  // ---------- The queries admitted ----------

  /** The query that a call admits: a parsed query that is new after expiry and for which there is room. */
  ghost function Admitted(c: Config, s: State, call: Call): seq<Query>
    requires Distinct(s.pending)
  {
    if !IsQuery(call) then []
    else
      var kept := Expired(c, s, call.f.observedAt).state;
      if IsNew(kept, call.f) && |kept.pending| < c.maxPending
      then [Query(Snapshot(call.f), Parse(call.f.payload).message, s.sequence + 1)] else []
  }

  /** All queries admitted by the calls, in order. */
  ghost function Log(c: Config, calls: seq<Call>): seq<Query> {
    if calls == [] then []
    else
      var n := |calls| - 1;
      var s := Run(c, calls[..n]).state;
      GoodIsDistinct(c, s);
      Log(c, calls[..n]) + Admitted(c, s, calls[n])
  }

  /** q is the query logged under its own number. */
  ghost predicate IsLogged(log: seq<Query>, q: Query) {
    1 <= q.sequence <= |log| && log[q.sequence - 1] == q
  }

  lemma LoggedLater(log: seq<Query>, more: seq<Query>, q: Query)
    requires IsLogged(log, q)
    ensures IsLogged(log + more, q)
  {
  }

  /** What a call adds to the pending queries is what it admits. */
  lemma HandleAdds(c: Config, s: State, f: Fragment, k: Key)
    requires k in Handle(c, s, f).state.pending
    ensures var q := Handle(c, s, f).state.pending[k];
            || (k in s.pending && q == s.pending[k])
            || (IsQuery(Call.Process(f)) && IsNew(s, f) && |s.pending| < c.maxPending
                && q == Query(Snapshot(f), Parse(f.payload).message, s.sequence + 1))
  {
    hide Parse, Snapshot, QueryKey, ResponseKey, Answered, Unanswered, Unparsed;
  }

  lemma StepAdds(c: Config, s: State, call: Call, k: Key)
    requires Good(c, s) && k in Step(c, s, call).state.pending
    ensures Distinct(s.pending)
    ensures var q := Step(c, s, call).state.pending[k];
            (k in s.pending && q == s.pending[k]) || Admitted(c, s, call) == [q]
  {
    hide Parse, Snapshot, Handle, IsNew, Settled, Good, Aged, IsQuery;
    GoodIsDistinct(c, s);
    if call.Process? {
      HandleAdds(c, Expired(c, s, call.f.observedAt).state, call.f, k);
    }
  }

  lemma StepNumbers(c: Config, s: State, call: Call)
    requires Good(c, s)
    ensures Distinct(s.pending) && Step(c, s, call).state.sequence == s.sequence + |Admitted(c, s, call)|
  {
    hide Parse, Snapshot, Handle, IsNew, Settled, Good, Aged;
    GoodIsDistinct(c, s);
    if call.Process? {
      HandleAdmits(c, Expired(c, s, call.f.observedAt).state, call.f);
    }
  }

  // ---------- The transactions that close them ----------

  /** What a call may report of an admitted query: a timeout once it is as old as the timeout, the end of
      the capture before that, or a response under its key. */
  ghost predicate Reports(c: Config, call: Call, q: Query, t: Transaction) {
    match call
    case Process(f) =>
      || (t == TimedOut(q) && Aged(f.observedAt, c.timeout)(q))
      || (IsResponse(call) && var m := Parse(f.payload).message;
                              ResponseKey(Snapshot(f), m) == QueryKey(q.fragment, q.message) && t == Answered(Snapshot(f), m, Some(q)))
    case Expire(now) => t == TimedOut(q) && Aged(now, c.timeout)(q)
    case Finish(end) => t == if Aged(end, c.timeout)(q) then TimedOut(q) else CutOff(q)
    case Flush => t == TimedOut(q)
  }

  /** The settlements are of pending queries, as the call may report them. */
  ghost predicate Proper(c: Config, m: Pending, call: Call, settled: seq<Settlement>) {
    forall i :: 0 <= i < |settled| ==> IsValue(m, settled[i].query) && Reports(c, call, settled[i].query, settled[i].transaction)
  }

  lemma SettledProper(c: Config, m: Pending, t: Pending, call: Call, report: Query -> Transaction)
    requires Distinct(t) && forall k :: k in t ==> k in m && t[k] == m[k]
    requires forall k :: k in t ==> Reports(c, call, t[k], report(t[k]))
    ensures Proper(c, m, call, Settled(t, report))
  {
    hide Reports, Settled;
    forall i | 0 <= i < |Settled(t, report)|
      ensures IsValue(m, Settled(t, report)[i].query)
      ensures Reports(c, call, Settled(t, report)[i].query, Settled(t, report)[i].transaction)
    {
      SettledQueries(t, report, i);
      var k :| k in t && t[k] == Settled(t, report)[i].query;
      assert k in m && m[k] == t[k];
    }
  }

  lemma AgedProper(c: Config, s: State, call: Call, now: Time)
    requires Distinct(s.pending)
    requires match call case Process(f) => now == f.observedAt case Expire(t) => now == t case Finish(e) => now == e case Flush => false
    ensures Proper(c, s.pending, call, Expired(c, s, now).settled)
  {
    hide Settled, Proper, IsResponse, Parse, Answered;
    var t := Where(s.pending, Aged(now, c.timeout));
    DistinctPart(s.pending, t);
    SettledProper(c, s.pending, t, call, TimedOut);
  }

  lemma HandleProper(c: Config, m: Pending, s: State, f: Fragment)
    requires Good(c, s) && forall k :: k in s.pending ==> k in m && m[k] == s.pending[k]
    ensures Proper(c, m, Call.Process(f), Handle(c, s, f).settled)
  {
    hide Parse, Snapshot, Answered, Unanswered, Unparsed, QueryKey;
  }

  lemma ProperConcat(c: Config, m: Pending, call: Call, a: seq<Settlement>, b: seq<Settlement>)
    requires Proper(c, m, call, a) && Proper(c, m, call, b)
    ensures Proper(c, m, call, a + b)
  {
    hide Reports, IsValue;
  }

  lemma StepProper(c: Config, s: State, call: Call)
    requires Good(c, s)
    ensures Proper(c, s.pending, call, Step(c, s, call).settled)
  {
    hide Settled, Proper, Handle, Good;
    GoodIsDistinct(c, s);
    match call
    case Process(f) =>
      var e := Expired(c, s, f.observedAt);
      AgedProper(c, s, call, f.observedAt);
      StepIsGood(c, s, Call.Expire(f.observedAt));
      HandleProper(c, s.pending, e.state, f);
      ProperConcat(c, s.pending, call, e.settled, Handle(c, e.state, f).settled);
    case Expire(now) => AgedProper(c, s, call, now);
    case Finish(end) =>
      var e := Expired(c, s, end);
      AgedProper(c, s, call, end);
      DistinctPart(s.pending, e.state.pending);
      SettledProper(c, s.pending, e.state.pending, call, CutOff);
      ProperConcat(c, s.pending, call, e.settled, Settled(e.state.pending, CutOff));
    case Flush => SettledProper(c, s.pending, s.pending, call, TimedOut);
  }

  // ---------- Runs ----------

  /** Some call of the run may report this of q. */
  ghost predicate IsReported(c: Config, calls: seq<Call>, q: Query, t: Transaction) {
    exists i :: 0 <= i < |calls| && Reports(c, calls[i], q, t)
  }

  lemma ReportedLater(c: Config, calls: seq<Call>, call: Call, q: Query, t: Transaction)
    ensures IsReported(c, calls, q, t) ==> IsReported(c, calls + [call], q, t)
    ensures Reports(c, call, q, t) ==> IsReported(c, calls + [call], q, t)
  {
    hide Reports;
    var more := calls + [call];
    if IsReported(c, calls, q, t) {
      var i :| 0 <= i < |calls| && Reports(c, calls[i], q, t);
      assert more[i] == calls[i];
    }
    assert more[|calls|] == call;
  }

  /** All that is pending or settled is as admitted, and every closing transaction is one that a call of
      the run may report of its query. */
  ghost predicate Told(c: Config, calls: seq<Call>, log: seq<Query>, e: Effect) {
    && |log| == e.state.sequence
    && (forall k :: k in e.state.pending ==> IsLogged(log, e.state.pending[k]))
    && (forall i :: 0 <= i < |e.settled| ==> IsLogged(log, e.settled[i].query))
    && (forall i :: 0 <= i < |e.settled| ==> IsReported(c, calls, e.settled[i].query, e.settled[i].transaction))
  }

  lemma PendingTold(c: Config, calls: seq<Call>, log: seq<Query>, e: Effect, call: Call)
    requires Good(c, e.state) && Told(c, calls, log, e)
    ensures Distinct(e.state.pending)
    ensures var t := Step(c, e.state, call).state;
            && |log + Admitted(c, e.state, call)| == t.sequence
            && forall k :: k in t.pending ==> IsLogged(log + Admitted(c, e.state, call), t.pending[k])
  {
    GoodIsDistinct(c, e.state);
    StepNumbers(c, e.state, call);
    var t, more := Step(c, e.state, call).state, Admitted(c, e.state, call);
    forall k | k in t.pending ensures IsLogged(log + more, t.pending[k]) {
      StepAdds(c, e.state, call, k);
      hide Step, Good;
      if k in e.state.pending && t.pending[k] == e.state.pending[k] {
        LoggedLater(log, more, e.state.pending[k]);
      } else {
        assert more == [t.pending[k]];
      }
    }
  }

  lemma SettledTold(c: Config, calls: seq<Call>, log: seq<Query>, e: Effect, call: Call, more: seq<Query>, i: nat)
    requires Good(c, e.state) && Told(c, calls, log, e) && Distinct(e.state.pending)
    requires i < |e.settled + Step(c, e.state, call).settled|
    ensures var s := (e.settled + Step(c, e.state, call).settled)[i];
            IsLogged(log + more, s.query) && IsReported(c, calls + [call], s.query, s.transaction)
  {
    hide Step, Good, Reports, IsReported, IsLogged;
    StepProper(c, e.state, call);
    var s := (e.settled + Step(c, e.state, call).settled)[i];
    ReportedLater(c, calls, call, s.query, s.transaction);
    if i < |e.settled| {
      assert s == e.settled[i];
    } else {
      assert s == Step(c, e.state, call).settled[i - |e.settled|];
      var k :| k in e.state.pending && e.state.pending[k] == s.query;
    }
    LoggedLater(log, more, s.query);
  }

  lemma StepTold(c: Config, calls: seq<Call>, log: seq<Query>, e: Effect, call: Call)
    requires Good(c, e.state) && Told(c, calls, log, e)
    ensures Distinct(e.state.pending)
    ensures Told(c, calls + [call], log + Admitted(c, e.state, call), Then(e, Step(c, e.state, call)))
  {
    GoodIsDistinct(c, e.state);
    PendingTold(c, calls, log, e, call);
    var more := Admitted(c, e.state, call);
    var all := e.settled + Step(c, e.state, call).settled;
    hide Step, Good, IsReported, IsLogged, Admitted;
    forall i | 0 <= i < |all|
      ensures IsLogged(log + more, all[i].query) && IsReported(c, calls + [call], all[i].query, all[i].transaction)
    {
      SettledTold(c, calls, log, e, call, more, i);
    }
  }

  lemma LogNext(c: Config, calls: seq<Call>, call: Call)
    ensures Distinct(Run(c, calls).state.pending)
    ensures Log(c, calls + [call]) == Log(c, calls) + Admitted(c, Run(c, calls).state, call)
  {
    assert (calls + [call])[..|calls|] == calls;
    GoodIsDistinct(c, Run(c, calls).state);
    hide Run, Admitted;
  }

  lemma NothingTold(c: Config)
    ensures Told(c, [], Log(c, []), Run(c, []))
  {
  }

  lemma {:induction false} RunTold(c: Config, calls: seq<Call>)
    ensures Told(c, calls, Log(c, calls), Run(c, calls))
    decreases |calls|
  {
    hide Told, Step, Admitted, Good, Run, Log;
    if calls == [] {
      NothingTold(c);
    } else {
      var before, last := calls[..|calls| - 1], calls[|calls| - 1];
      assert calls == before + [last];
      RunTold(c, before);
      StepTold(c, before, Log(c, before), Run(c, before), last);
      LogNext(c, before, last);
      RunNext(c, before, last);
    }
  }

  /** The n-th logged query has number n. */
  ghost predicate InSequence(log: seq<Query>) {
    forall i :: 0 <= i < |log| ==> log[i].sequence == i + 1
  }

  /** Conservation: after any calls each admitted query is, unchanged, either pending or closed by exactly
      one transaction, which reports its timeout, the end of the capture or a response of the run. */
  lemma EveryAdmittedQueryIsClosedOnce(c: Config, calls: seq<Call>)
    ensures var e, log := Run(c, calls), Log(c, calls);
            InSequence(log) && Told(c, calls, log, e) && Accounted(e.state, e.settled)
  {
    hide Run, Log, Told, Accounted, InSequence, Good;
    RunTold(c, calls);
    EveryQueryIsAccounted(c, calls);
    LogIsNumbered(c, calls);
  }

  lemma AdmittedIsNext(c: Config, s: State, call: Call)
    requires Distinct(s.pending)
    ensures |Admitted(c, s, call)| <= 1
    ensures Admitted(c, s, call) != [] ==> Admitted(c, s, call)[0].sequence == s.sequence + 1
  {
    hide Expired, Parse, Snapshot;
  }

  lemma InSequenceSnoc(log: seq<Query>, more: seq<Query>)
    requires InSequence(log) && |more| <= 1 && (more != [] ==> more[0].sequence == |log| + 1)
    ensures InSequence(log + more)
  {
  }

  lemma {:induction false} LogIsNumbered(c: Config, calls: seq<Call>)
    ensures |Log(c, calls)| == Run(c, calls).state.sequence
    ensures InSequence(Log(c, calls))
    decreases |calls|
  {
    hide Run, Log, Step, Admitted, Good, InSequence, Told;
    if calls == [] {
      NoneLogged(c);
    } else {
      var before, last := calls[..|calls| - 1], calls[|calls| - 1];
      assert calls == before + [last];
      LogIsNumbered(c, before);
      LogNext(c, before, last);
      RunNext(c, before, last);
      StepNumbers(c, Run(c, before).state, last);
      AdmittedIsNext(c, Run(c, before).state, last);
      InSequenceSnoc(Log(c, before), Admitted(c, Run(c, before).state, last));
    }
  }

  lemma NoneLogged(c: Config)
    ensures Log(c, []) == [] && Run(c, []).state.sequence == 0 && InSequence(Log(c, []))
  {
  }

  // ---------- Latency ----------

  /** The key of a response datagram. */
  function KeyAnswered(f: Fragment): Key
    requires IsResponse(Call.Process(f))
  {
    ResponseKey(Snapshot(f), Parse(f.payload).message)
  }

  /** The query that a response datagram finds pending, after expiry, with usable kernel times. */
  ghost predicate Measures(c: Config, s: State, f: Fragment)
    requires Distinct(s.pending) && IsResponse(Call.Process(f))
  {
    var pending := Expired(c, s, f.observedAt).state.pending;
    && KeyAnswered(f) in pending
    && 0 < pending[KeyAnswered(f)].fragment.kernelTimestampNS <= f.kernelTimestampNS
  }

  lemma ExpiredOutcomes(m: Pending, i: nat)
    requires Distinct(m) && i < |Settled(m, TimedOut)|
    ensures Settled(m, TimedOut)[i].transaction.outcome == NoAnswer
  {
    SettledQueries(m, TimedOut, i);
  }

  /** What a call puts out for a response datagram: timeouts, and then one response. */
  lemma ResponseComesLast(c: Config, s: State, f: Fragment)
    requires Good(c, s) && IsResponse(Call.Process(f))
    ensures Distinct(s.pending)
    ensures var e := Expired(c, s, f.observedAt);
            var out := Output(Step(c, s, Call.Process(f)));
            && |out| > 0 && HandleOutput(c, e.state, f) == Some(out[|out| - 1])
            && forall i :: 0 <= i < |out| - 1 ==> out[i].outcome == NoAnswer
  {
    GoodIsDistinct(c, s);
    var e := Expired(c, s, f.observedAt);
    HandleOutputs(c, e.state, f);
    hide Handle, Settled, Parse, Snapshot, ResponseKey, Answered, Good, Aged;
    OutputThen(e, Handle(c, e.state, f));
    var t := Where(s.pending, Aged(f.observedAt, c.timeout));
    DistinctPart(s.pending, t);
    assert Output(e) == Mapped(TransactionOf, Settled(t, TimedOut));
    forall i | 0 <= i < |Output(e)| ensures Output(e)[i].outcome == NoAnswer {
      ExpiredOutcomes(t, i);
    }
  }

  /** The transaction t of a response datagram has a latency exactly if it measures, and then the right one. */
  ghost predicate MeasuredRight(c: Config, s: State, f: Fragment, t: Transaction)
    requires Distinct(s.pending) && IsResponse(Call.Process(f))
  {
    && t.outcome == Response
    && (t.latencyMicros.Some? <==> Measures(c, s, f))
    && (Measures(c, s, f) ==>
          var q := Expired(c, s, f.observedAt).state.pending[KeyAnswered(f)];
          t.latencyMicros.value == (f.kernelTimestampNS - q.fragment.kernelTimestampNS) / 1000)
  }

  lemma ResponseIsMeasured(c: Config, s: State, f: Fragment)
    requires Distinct(s.pending) && IsResponse(Call.Process(f))
    ensures HandleOutput(c, Expired(c, s, f.observedAt).state, f).Some?
    ensures MeasuredRight(c, s, f, HandleOutput(c, Expired(c, s, f.observedAt).state, f).value)
  {
    hide Expired, Parse, ResponseKey;
  }

  /** A response datagram yields exactly one response transaction, rightly measured. */
  ghost predicate OneMeasured(c: Config, s: State, f: Fragment)
    requires Distinct(s.pending) && IsResponse(Call.Process(f))
  {
    var out := Output(Step(c, s, Call.Process(f)));
    exists n :: && 0 <= n < |out| && MeasuredRight(c, s, f, out[n])
                && forall i :: 0 <= i < |out| && i != n ==> out[i].outcome != Response
  }

  lemma OneIsMeasured(c: Config, s: State, f: Fragment)
    requires Good(c, s) && IsResponse(Call.Process(f))
    ensures Distinct(s.pending) && OneMeasured(c, s, f)
  {
    ResponseComesLast(c, s, f);
    ResponseIsMeasured(c, s, f);
    hide Step, Expired, MeasuredRight, HandleOutput, Good, IsResponse;
    var out := Output(Step(c, s, Call.Process(f)));
    assert MeasuredRight(c, s, f, out[|out| - 1]);
  }

  /** LatencyMeasured: after any calls, a response datagram yields exactly one response transaction, and
      it has a latency exactly if a query of its key is pending after expiry and has a nonzero kernel time
      that is not later; the latency is the difference of these times. */
  lemma LatencyIsMeasuredExactly(c: Config, calls: seq<Call>, f: Fragment)
    requires IsResponse(Call.Process(f))
    ensures Distinct(Run(c, calls).state.pending) && OneMeasured(c, Run(c, calls).state, f)
  {
    hide Run, OneMeasured, IsResponse, Good;
    OneIsMeasured(c, Run(c, calls).state, f);
  }
}
