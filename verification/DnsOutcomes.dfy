/** What each call of the DNS correlator keeps, closes and reports, said of datagrams and queries by their fields. */
module DnsOutcomes {
  import opened Base
  import opened FlowTypes
  import opened Lists
  import opened DnsMessages
  import opened DnsTypes
  import opened DnsCorrelators
  import opened DnsAccounts

  // ---------- Which datagrams belong together ----------

  predicate SameQuestion(m: Message, n: Message) {
    m.id == n.id && m.questionName == n.questionName && m.questionType == n.questionType
  }

  predicate SameObserver(f: Fragment, g: Fragment) {
    f.nodeName == g.nodeName && f.observerPID == g.observerPID
  }

  /** f asks again what q asked: same observer, same ends, same identifier and question. */
  predicate Repeats(f: Fragment, m: Message, q: Query) {
    SameObserver(f, q.fragment) && SameQuestion(m, q.message) && f.source == q.fragment.source && f.destination == q.fragment.destination
  }

  /** f answers q: same observer, ends exchanged, same identifier and question. */
  predicate Answers(f: Fragment, m: Message, q: Query) {
    SameObserver(f, q.fragment) && SameQuestion(m, q.message) && f.source == q.fragment.destination && f.destination == q.fragment.source
  }

  lemma KeysExactly(f: Fragment, m: Message, q: Query)
    ensures QueryKey(f, m) == QueryKey(q.fragment, q.message) <==> Repeats(f, m, q)
    ensures ResponseKey(f, m) == QueryKey(q.fragment, q.message) <==> Answers(f, m, q)
  {
  }

  /** A snapshot differs from the datagram in payload and command line only. */
  lemma SnapshotKeeps(f: Fragment)
    ensures Snapshot(f).(payload := f.payload, process := f.process) == f && Snapshot(f).payload == []
    ensures f.process.None? ==> Snapshot(f).process == None
    ensures f.process.Some? ==> Snapshot(f).process == Some(f.process.value.(cmdline := ""))
  {
  }

  lemma SnapshotBelongs(f: Fragment, m: Message, q: Query)
    ensures Repeats(Snapshot(f), m, q) <==> Repeats(f, m, q)
    ensures Answers(Snapshot(f), m, q) <==> Answers(f, m, q)
  {
  }

  // ---------- What a transaction tells ----------

  /** The transaction tells of a query: its sender is the client, its receiver the server. */
  predicate TellsOf(t: Transaction, q: Query) {
    var f := q.fragment;
    && (t.nodeName, t.observerPID, t.process, t.observerPod) == (f.nodeName, f.observerPID, f.process, f.observerPod)
    && (t.client, t.clientResolved, t.clientPod) == (f.source, f.sourceResolved, f.sourcePod)
    && (t.server, t.serverResolved, t.serverPod) == (f.destination, f.destinationResolved, f.destinationPod)
    && (t.queryName, t.queryType) == (q.message.questionName, q.message.questionType)
  }

  predicate IsUnanswered(t: Transaction, q: Query, outcome: Outcome) {
    TellsOf(t, q) && t.observedAt == q.fragment.observedAt && t.outcome == outcome && t.responseCode == None && t.latencyMicros == None
  }

  /** The record of a response to q: when it came, its code, and the time it took if the kernel timed both. */
  predicate IsAnswered(t: Transaction, f: Fragment, m: Message, q: Query) {
    && TellsOf(t, q) && t.observedAt == f.observedAt && t.outcome == Response && t.responseCode == Some(m.responseCode)
    && t.latencyMicros == if 0 < q.fragment.kernelTimestampNS <= f.kernelTimestampNS
                          then Some((f.kernelTimestampNS - q.fragment.kernelTimestampNS) / 1000) else None
  }

  /** The record of a response that nothing waits for: its receiver is the client, its sender the server. */
  predicate IsStray(t: Transaction, f: Fragment, m: Message) {
    && (t.nodeName, t.observerPID, t.observerPod) == (f.nodeName, f.observerPID, f.observerPod)
    && (t.client, t.clientResolved, t.clientPod) == (f.destination, f.destinationResolved, f.destinationPod)
    && (t.server, t.serverResolved, t.serverPod) == (f.source, f.sourceResolved, f.sourcePod)
    && (t.queryName, t.queryType) == (m.questionName, m.questionType) && t.process == Snapshot(f).process
    && t.observedAt == f.observedAt && t.outcome == Response && t.responseCode == Some(m.responseCode) && t.latencyMicros == None
  }

  lemma TransactionsTell(f: Fragment, m: Message, q: Query)
    ensures IsUnanswered(TimedOut(q), q, NoAnswer) && IsUnanswered(CutOff(q), q, Incomplete(CaptureEnded))
    ensures Answers(f, m, q) ==> IsAnswered(Answered(Snapshot(f), m, Some(q)), f, m, q)
    ensures IsStray(Answered(Snapshot(f), m, None), f, m)
    ensures IsUnanswered(Unanswered(q.fragment, q.message, Incomplete(StateCapacity)), q, Incomplete(StateCapacity))
  {
  }

  /** The record of an unparsable datagram: sides only with a whole header, turned if it marks a response. */
  predicate IsUnparsed(t: Transaction, f: Fragment) {
    && (t.observedAt, t.nodeName, t.observerPID, t.observerPod) == (f.observedAt, f.nodeName, f.observerPID, f.observerPod)
    && t.process == Snapshot(f).process && t.outcome == ParseFailed
    && t.queryName == [] && t.queryType == 0 && t.responseCode == None && t.latencyMicros == None
    && if |f.payload| >= 12 && f.payload[2] >= 128 then
         && (t.client, t.clientResolved, t.clientPod) == (f.destination, f.destinationResolved, f.destinationPod)
         && (t.server, t.serverResolved, t.serverPod) == (f.source, f.sourceResolved, f.sourcePod)
       else
         && t.client == f.source && t.server == f.destination
         && (t.clientResolved, t.clientPod) == (if |f.payload| >= 12 then (f.sourceResolved, f.sourcePod) else (None, None))
         && (t.serverResolved, t.serverPod) == (if |f.payload| >= 12 then (f.destinationResolved, f.destinationPod) else (None, None))
  }

  lemma UnparsedTells(f: Fragment)
    ensures IsUnparsed(Unparsed(Snapshot(f), f.payload), f)
  {
  }

  // ---------- Expiry ----------

  /** The pending queries that at `now` are younger than the timeout. */
  function Young(c: Config, m: Pending, now: Time): Pending {
    map k | k in m && now - m[k].fragment.observedAt < c.timeout :: m[k]
  }

  /** Those that have reached it. */
  function Old(c: Config, m: Pending, now: Time): Pending {
    map k | k in m && now - m[k].fragment.observedAt >= c.timeout :: m[k]
  }

  predicate Earlier(a: Query, b: Query) {
    || a.fragment.observedAt < b.fragment.observedAt
    || (a.fragment.observedAt == b.fragment.observedAt && a.sequence < b.sequence)
  }

  /** qs are the queries of m, each once, by capture time and then by admission. */
  ghost predicate Queue(qs: seq<Query>, m: Pending) {
    && (forall i, j :: 0 <= i < j < |qs| ==> Earlier(qs[i], qs[j]))
    && (forall k :: k in m ==> m[k] in qs)
    && (forall i :: 0 <= i < |qs| ==> IsValue(m, qs[i]))
  }

  lemma BeforeIsEarlier(a: Query, b: Query)
    ensures Before(a, b) <==> Earlier(a, b)
  {
  }

  lemma OrderIsQueue(m: Pending)
    requires Distinct(m)
    ensures Ordering(Before) && Ranked(m, Before) && Queue(InOrder(m, Before), m)
  {
    RankedByDue(m);
    InOrderIsExact(m, Before);
    hide Ranked, Ordering, InOrder, Before, IsValue, Earlier, Distinct;
    var qs := InOrder(m, Before);
    forall i, j | 0 <= i < j < |qs| ensures Earlier(qs[i], qs[j]) {
      BeforeIsEarlier(qs[i], qs[j]);
    }
    forall k | k in m ensures m[k] in qs {
      KeyIsValue(m, k);
    }
    forall i | 0 <= i < |qs| ensures IsValue(m, qs[i]) {
      assert qs[i] in qs;
    }
  }

  lemma ReportsOf(qs: seq<Query>, report: Query -> Transaction)
    ensures Mapped(TransactionOf, Mapped(Settle(report), qs)) == Mapped(report, qs)
  {
  }

  lemma SettledIsQueue(m: Pending, report: Query -> Transaction) returns (qs: seq<Query>)
    requires Distinct(m)
    ensures Queue(qs, m) && Mapped(TransactionOf, Settled(m, report)) == Mapped(report, qs)
  {
    OrderIsQueue(m);
    qs := InOrder(m, Before);
    ReportsOf(qs, report);
    hide Ranked, Ordering, InOrder, Queue, Distinct, Mapped;
  }

  lemma ExpiryDivides(c: Config, s: State, now: Time)
    requires Distinct(s.pending)
    ensures var e := Expired(c, s, now);
            && e.state == s.(pending := Young(c, s.pending, now)) && e.alone == []
            && Distinct(Old(c, s.pending, now)) && e.settled == Settled(Old(c, s.pending, now), TimedOut)
  {
    assert Others(s.pending, Aged(now, c.timeout)) == Young(c, s.pending, now);
    assert Where(s.pending, Aged(now, c.timeout)) == Old(c, s.pending, now);
  }

  /** The output: the timeouts of the old queries in order, and then `rest`. */
  ghost predicate TimesOut(c: Config, m: Pending, now: Time, out: seq<Transaction>, rest: seq<Transaction>) {
    exists qs :: Queue(qs, Old(c, m, now)) && out == Mapped(TimedOut, qs) + rest
  }

  lemma ExpiredOutput(c: Config, s: State, now: Time)
    requires Distinct(s.pending)
    ensures TimesOut(c, s.pending, now, Output(Expired(c, s, now)), [])
  {
    ExpiryDivides(c, s, now);
    var qs := SettledIsQueue(Old(c, s.pending, now), TimedOut);
    hide Queue, Old, Expired, TimedOut, Mapped;
    assert Output(Expired(c, s, now)) == Mapped(TimedOut, qs) + [];
  }

  lemma StepTimesOut(c: Config, s: State, now: Time, e: Effect, rest: seq<Transaction>)
    requires Distinct(s.pending) && Output(e) == rest && Expired(c, s, now).alone == []
    ensures TimesOut(c, s.pending, now, Output(Then(Expired(c, s, now), e)), rest)
  {
    ExpiredOutput(c, s, now);
    OutputThen(Expired(c, s, now), e);
    hide Queue, Old, Expired, Output, TimedOut, Mapped;
    var qs :| Queue(qs, Old(c, s.pending, now)) && Output(Expired(c, s, now)) == Mapped(TimedOut, qs) + [];
    assert Output(Then(Expired(c, s, now), e)) == Mapped(TimedOut, qs) + rest;
  }

  // ---------- Every call ----------

  ghost predicate SomeRepeated(f: Fragment, m: Message, young: Pending) {
    exists k :: k in young && Repeats(f, m, young[k])
  }

  /** An unparsable datagram: recorded as such. */
  lemma UnparsableIsRecorded(c: Config, calls: seq<Call>, f: Fragment)
    requires IsUnparsable(Call.Process(f))
    ensures var s, e := Run(c, calls).state, StepOf(c, calls, Call.Process(f));
            && e.state == s.(pending := Young(c, s.pending, f.observedAt))
            && exists t :: IsUnparsed(t, f) && TimesOut(c, s.pending, f.observedAt, Output(e), [t])
  {
    var s := Run(c, calls).state;
    GoodIsDistinct(c, s);
    ExpiryDivides(c, s, f.observedAt);
    UnparsedTells(f);
    var kept := Expired(c, s, f.observedAt).state;
    assert Output(Handle(c, kept, f)) == [Unparsed(Snapshot(f), f.payload)];
    StepTimesOut(c, s, f.observedAt, Handle(c, kept, f), [Unparsed(Snapshot(f), f.payload)]);
    hide Run, Expired, Young, TimesOut, IsUnparsed, Unparsed, Parse, Output;
  }

  /** The effect of a further call after a run. */
  ghost function StepOf(c: Config, calls: seq<Call>, call: Call): Effect {
    GoodIsDistinct(c, Run(c, calls).state);
    Step(c, Run(c, calls).state, call)
  }

  /** A query: nothing if a young query asks the same, refused if the young fill the room, else admitted
      with the next number. */
  lemma QueryIsAdmitted(c: Config, calls: seq<Call>, f: Fragment)
    requires IsQuery(Call.Process(f))
    ensures var s, e, m := Run(c, calls).state, StepOf(c, calls, Call.Process(f)), Parse(f.payload).message;
            var young := Young(c, s.pending, f.observedAt);
            var q := Query(Snapshot(f), m, s.sequence + 1);
            if SomeRepeated(f, m, young) then
              e.state == s.(pending := young) && TimesOut(c, s.pending, f.observedAt, Output(e), [])
            else if |young| >= c.maxPending then
              && e.state == s.(pending := young)
              && exists t :: IsUnanswered(t, q, Incomplete(StateCapacity)) && TimesOut(c, s.pending, f.observedAt, Output(e), [t])
            else
              && e.state.sequence == s.sequence + 1
              && (exists k :: k !in young && e.state.pending == young[k := q])
              && TimesOut(c, s.pending, f.observedAt, Output(e), [])
  {
    var s, m := Run(c, calls).state, Parse(f.payload).message;
    var young, q := Young(c, s.pending, f.observedAt), Query(Snapshot(f), m, s.sequence + 1);
    GoodIsDistinct(c, s);
    ExpiryDivides(c, s, f.observedAt);
    RepeatedByKey(c, s, f, m, young);
    var kept := Expired(c, s, f.observedAt).state;
    HandleOutputs(c, kept, f);
    TransactionsTell(f, m, q);
    hide Run, Expired, Young, TimesOut, IsUnanswered, Unanswered, Parse, Output, QueryKey, SomeRepeated, Good, Snapshot, Repeats;
    match HandleOutput(c, kept, f)
    case None => StepTimesOut(c, s, f.observedAt, Handle(c, kept, f), []);
    case Some(t) => StepTimesOut(c, s, f.observedAt, Handle(c, kept, f), [t]);
  }

  lemma RepeatedByKey(c: Config, s: State, f: Fragment, m: Message, young: Pending)
    requires Good(c, s) && forall k :: k in young ==> k in s.pending && young[k] == s.pending[k]
    ensures QueryKey(Snapshot(f), m) in young <==> SomeRepeated(f, m, young)
  {
    hide QueryKey, Snapshot, Repeats;
    forall k | k in young ensures k == QueryKey(Snapshot(f), m) <==> Repeats(f, m, young[k]) {
      assert k == QueryKey(young[k].fragment, young[k].message);
      KeysExactly(Snapshot(f), m, young[k]);
      SnapshotBelongs(f, m, young[k]);
    }
  }

  lemma AnsweredByKey(c: Config, s: State, f: Fragment, m: Message, young: Pending, k: Key)
    requires Good(c, s) && k in young && k in s.pending && young[k] == s.pending[k]
    ensures k == ResponseKey(Snapshot(f), m) <==> Answers(f, m, young[k])
  {
    hide QueryKey, ResponseKey, Snapshot, Answers;
    assert k == QueryKey(young[k].fragment, young[k].message);
    KeysExactly(Snapshot(f), m, young[k]);
    SnapshotBelongs(f, m, young[k]);
  }

  /** The young queries that f does not answer. */
  ghost function Unconcerned(f: Fragment, m: Message, young: Pending): Pending {
    map k | k in young && !Answers(f, m, young[k]) :: young[k]
  }

  /** t tells of the young query that f answers, or else of f alone. */
  ghost predicate IsResponseRecord(t: Transaction, f: Fragment, m: Message, young: Pending) {
    && (forall k :: k in young && Answers(f, m, young[k]) ==> IsAnswered(t, f, m, young[k]))
    && ((forall k :: k in young ==> !Answers(f, m, young[k])) ==> IsStray(t, f, m))
  }

  lemma ResponseRecorded(c: Config, s: State, f: Fragment, m: Message, young: Pending)
    requires Good(c, s) && forall k :: k in young ==> k in s.pending && young[k] == s.pending[k]
    ensures var key := ResponseKey(Snapshot(f), m);
            && IsResponseRecord(Answered(Snapshot(f), m, if key in young then Some(young[key]) else None), f, m, young)
            && young - {key} == Unconcerned(f, m, young)
  {
    var key := ResponseKey(Snapshot(f), m);
    hide ResponseKey, Good, Snapshot, Answered, Answers, IsAnswered, IsStray;
    forall k | k in young
      ensures k == key <==> Answers(f, m, young[k])
      ensures k == key ==> IsAnswered(Answered(Snapshot(f), m, Some(young[k])), f, m, young[k])
    {
      AnsweredByKey(c, s, f, m, young, k);
      TransactionsTell(f, m, young[k]);
    }
    StrayTells(f, m);
  }

  lemma ResponseHandled(c: Config, s: State, f: Fragment)
    requires IsResponse(Call.Process(f))
    ensures var m, e := Parse(f.payload).message, Handle(c, s, f);
            var key := ResponseKey(Snapshot(f), m);
            && e.state == s.(pending := s.pending - {key})
            && Output(e) == [Answered(Snapshot(f), m, if key in s.pending then Some(s.pending[key]) else None)]
  {
    HandleOutputs(c, s, f);
    hide Parse, Snapshot, ResponseKey, Answered;
    if ResponseKey(Snapshot(f), Parse(f.payload).message) !in s.pending {
      assert s.pending - {ResponseKey(Snapshot(f), Parse(f.payload).message)} == s.pending;
    }
  }

  /** A response closes exactly the young query it answers, and is recorded with it; without one it is
      recorded as a stray. */
  lemma ResponseCloses(c: Config, calls: seq<Call>, f: Fragment)
    requires IsResponse(Call.Process(f))
    ensures var s, e, m := Run(c, calls).state, StepOf(c, calls, Call.Process(f)), Parse(f.payload).message;
            var young := Young(c, s.pending, f.observedAt);
            && e.state == s.(pending := Unconcerned(f, m, young))
            && exists t :: IsResponseRecord(t, f, m, young) && TimesOut(c, s.pending, f.observedAt, Output(e), [t])
  {
    var s, m := Run(c, calls).state, Parse(f.payload).message;
    var young := Young(c, s.pending, f.observedAt);
    GoodIsDistinct(c, s);
    ExpiryDivides(c, s, f.observedAt);
    var kept := Expired(c, s, f.observedAt).state;
    ResponseHandled(c, kept, f);
    ResponseRecorded(c, s, f, m, young);
    hide Run, Expired, TimesOut, IsResponseRecord, Unconcerned, Answered, Parse, Output, ResponseKey, Good, Snapshot, Handle, Young;
    var key := ResponseKey(Snapshot(f), m);
    var t := Answered(Snapshot(f), m, if key in young then Some(young[key]) else None);
    StepTimesOut(c, s, f.observedAt, Handle(c, kept, f), [t]);
  }

  lemma StrayTells(f: Fragment, m: Message)
    ensures IsStray(Answered(Snapshot(f), m, None), f, m)
  {
  }

  /** Expiry alone keeps the young queries and times out the old. */
  lemma ExpireKeepsYoung(c: Config, calls: seq<Call>, now: Time)
    ensures var s, e := Run(c, calls).state, StepOf(c, calls, Expire(now));
            e.state == s.(pending := Young(c, s.pending, now)) && TimesOut(c, s.pending, now, Output(e), [])
  {
    var s := Run(c, calls).state;
    GoodIsDistinct(c, s);
    ExpiryDivides(c, s, now);
    ExpiredOutput(c, s, now);
    hide Run, Expired, TimesOut, Output;
  }

  lemma DrainedOutput(s: State, report: Query -> Transaction) returns (qs: seq<Query>)
    requires Distinct(s.pending)
    ensures Queue(qs, s.pending) && Output(Drained(s, report)) == Mapped(report, qs)
  {
    qs := SettledIsQueue(s.pending, report);
    hide Queue, Settled, Mapped;
    assert Mapped(report, qs) + [] == Mapped(report, qs);
  }

  /** The end of the capture times out the old queries and reports the young as cut off, all in order. */
  lemma FinishReportsAll(c: Config, calls: seq<Call>, end: Time)
    ensures var s, e := Run(c, calls).state, StepOf(c, calls, Finish(end));
            && e.state == s.(pending := map[])
            && exists qs :: && Queue(qs, Young(c, s.pending, end))
                            && TimesOut(c, s.pending, end, Output(e), Mapped(CutOff, qs))
  {
    var s := Run(c, calls).state;
    GoodIsDistinct(c, s);
    ExpiryDivides(c, s, end);
    var kept := Expired(c, s, end).state;
    DistinctPart(s.pending, kept.pending);
    var d := Drained(kept, CutOff);
    var qs := DrainedOutput(kept, CutOff);
    hide Run, Expired, TimesOut, Output, Queue, Settled, Mapped, CutOff, Young;
    StepTimesOut(c, s, end, d, Mapped(CutOff, qs));
  }

  /** Flush reports everything as unanswered, in order. */
  lemma FlushReportsAll(c: Config, calls: seq<Call>)
    ensures var s, e := Run(c, calls).state, StepOf(c, calls, Flush);
            e.state == s.(pending := map[]) && exists qs :: Queue(qs, s.pending) && Output(e) == Mapped(TimedOut, qs)
  {
    var s := Run(c, calls).state;
    GoodIsDistinct(c, s);
    hide Run, Queue, Settled, Mapped, TimedOut, Output, Good, Distinct;
    assert StepOf(c, calls, Flush) == Drained(s, TimedOut);
    var qs := DrainedOutput(s, TimedOut);
  }
}
