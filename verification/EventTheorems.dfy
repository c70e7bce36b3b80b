/** What capture time guarantees the collectors behind the event loop. */
module EventTheorems {
  import opened Base
  import opened FlowTypes
  import opened Captures
  import opened Windows
  import opened Resolutions
  import opened EventLoops
  import opened EventSafety
  import Streams
  import Dns = DnsCorrelators
  import opened DnsTypes
  import opened DnsMessages
  import DnsAccounts

  // ---------- No observation is late ----------

  datatype Pods = Pods(source: Option<Pod>, destination: Option<Pod>, observer: Option<Pod>)

  /** What the Pod enricher answers for the n-th record. */
  type Enricher = (nat, Observation) -> Pods

  /** What the aggregating stream is asked to do, records enriched on the way. */
  function Ops(feed: seq<Feed>, enrich: Enricher): (ops: seq<Streams.Op>)
    ensures |ops| == |feed| && forall i :: 0 <= i < |feed| ==> ops[i] == OpOf(feed[i], i, enrich)
  {
    seq(|feed|, i requires 0 <= i < |feed| => OpOf(feed[i], i, enrich))
  }

  function OpOf(f: Feed, n: nat, enrich: Enricher): Streams.Op {
    match f
    case Put(o) =>
      var pods := enrich(n, o);
      Streams.Offer(o.(sourcePod := pods.source, destinationPod := pods.destination, observerPod := pods.observer))
    case Mark(at) => Streams.Tick(at)
  }

  /** The stream is open, and its watermark, if any, is a tick's less the allowed lateness. */
  ghost predicate FromTick(c: Streams.Config, ops: seq<Streams.Op>, s: Streams.State) {
    !s.finished && (s.hasWatermark ==> exists i :: 0 <= i < |ops| && ops[i].Tick? && s.watermark == ops[i].now - c.lateness)
  }

  lemma {:induction false} WatermarkIsATick(c: Streams.Config, ops: seq<Streams.Op>)
    requires Streams.ValidConfig(c)
    ensures FromTick(c, ops, Streams.Run(c, ops).state)
    decreases |ops|
  {
    if ops != [] {
      var n := |ops| - 1;
      WatermarkIsATick(c, ops[..n]);
      var s := Streams.Run(c, ops[..n]).state;
      FromTickLater(c, ops[..n], ops, s);
      match ops[n]
      case Offer(o) =>
        hide Windows.Put, Streams.Judge;
      case Tick(now) =>
        assert ops[n].Tick?;
    }
  }

  lemma FromTickLater(c: Streams.Config, some: seq<Streams.Op>, ops: seq<Streams.Op>, s: Streams.State)
    requires FromTick(c, some, s) && some <= ops
    ensures FromTick(c, ops, s)
  {
    if s.hasWatermark {
      var i :| 0 <= i < |some| && some[i].Tick? && s.watermark == some[i].now - c.lateness;
      assert ops[i] == some[i];
    }
  }

  /** A bucket ends after each of its observations. */
  lemma BucketEndsLater(c: Streams.Config, o: Observation)
    requires Streams.ValidConfig(c)
    ensures KeyFor(o, c.size).start + c.size > o.observedAt
  {
  }

  /** Whatever the interleaving of pump, events and ticks, and whatever the Pod enricher says: every
      observation the loop encodes is accepted by the stream, unless there is no room for its window. */
  lemma NoObservationIsLate(c: Config, moves: seq<Move>, stream: Streams.Config, enrich: Enricher, n: nat)
    requires Streams.ValidConfig(stream)
    requires n < |Run(c, moves).feed| && Run(c, moves).feed[n].Put?
    ensures var ops := Ops(Run(c, moves).feed, enrich);
            var verdict := Streams.Judge(stream, Streams.Run(stream, ops[..n]).state, ops[n].o);
            verdict == Streams.Accepted || verdict == Streams.WindowCapacity
  {
    var feed := Run(c, moves).feed;
    var ops := Ops(feed, enrich);
    FeedStaysSound(c, moves);
    var s := Streams.Run(stream, ops[..n]).state;
    WatermarkIsATick(stream, ops[..n]);
    assert InTime(feed[..n], feed[n].o.observedAt);
    hide Run, FeedSound, Streams.Run;
    var o := ops[n].o;
    BucketEndsLater(stream, o);
    if s.hasWatermark {
      var i :| 0 <= i < n && ops[..n][i].Tick? && s.watermark == ops[..n][i].now - stream.lateness;
      assert feed[..n][i] == Mark(ops[i].now);
    }
  }

  // ---------- Windows of everything encoded ----------

  /** The observations among the operations, in order. */
  function Offered(ops: seq<Streams.Op>): seq<Observation> {
    if ops == [] then []
    else
      var n := |ops| - 1;
      Offered(ops[..n]) + (if ops[n].Offer? then [ops[n].o] else [])
  }

  /** There was room for another window at every step. */
  ghost predicate HasRoom(stream: Streams.Config, ops: seq<Streams.Op>)
    requires Streams.ValidConfig(stream)
  {
    forall n :: 0 <= n < |ops| ==> |Streams.Run(stream, ops[..n]).state.windows| < stream.maxWindows
  }

  /** Nothing is refused before step n. */
  lemma {:induction false} AcceptedIsOffered(stream: Streams.Config, ops: seq<Streams.Op>)
    requires Streams.ValidConfig(stream)
    requires forall n :: 0 <= n < |ops| && ops[n].Offer? ==>
                           Streams.Judge(stream, Streams.Run(stream, ops[..n]).state, ops[n].o) == Streams.Accepted
    ensures Streams.Run(stream, ops).accepted == Offered(ops)
    decreases |ops|
  {
    if ops != [] {
      var n := |ops| - 1;
      var before := ops[..n];
      forall i | 0 <= i < n && before[i].Offer?
        ensures Streams.Judge(stream, Streams.Run(stream, before[..i]).state, before[i].o) == Streams.Accepted
      {
        assert before[..i] == ops[..i] && before[i] == ops[i];
      }
      AcceptedIsOffered(stream, before);
      hide Streams.Judge, Streams.AfterAdd, Streams.AfterFlush, Streams.Raised, Streams.Due;
    }
  }

  /** Streaming equals batch aggregation: as long as there is room for another window, the windows of
      all flushes and of the finish, partial marks erased, are the batch table of every observation
      the loop encoded, and no window is emitted twice. */
  lemma EmitsBatchOfEverything(c: Config, moves: seq<Move>, stream: Streams.Config, enrich: Enricher, end: Time)
    requires Streams.ValidConfig(stream) && HasRoom(stream, Ops(Run(c, moves).feed, enrich))
    ensures var ops := Ops(Run(c, moves).feed, enrich);
            var h := Streams.Run(stream, ops);
            var rounds := h.rounds + [Streams.Final(stream, h.state, end)];
            Streams.Disjoint(rounds) && Streams.EraseAll(Streams.Union(rounds)) == TableOf(Offered(ops), stream.size)
  {
    var feed := Run(c, moves).feed;
    var ops := Ops(feed, enrich);
    forall n | 0 <= n < |ops| && ops[n].Offer?
      ensures Streams.Judge(stream, Streams.Run(stream, ops[..n]).state, ops[n].o) == Streams.Accepted
    {
      assert feed[n].Put?;
      NoObservationIsLate(c, moves, stream, enrich, n);
      NoCapacityVerdict(stream, Streams.Run(stream, ops[..n]).state, ops[n].o);
    }
    hide Run, Streams.Run, Streams.Judge;
    AcceptedIsOffered(stream, ops);
    Streams.StreamRefinesBatch(stream, ops, end);
  }

  lemma NoCapacityVerdict(stream: Streams.Config, s: Streams.State, o: Observation)
    requires Streams.ValidConfig(stream) && |s.windows| < stream.maxWindows
    ensures Streams.Judge(stream, s, o) != Streams.WindowCapacity
  {
  }

  // ---------- No query expires early ----------

  const DNS_CONFIG := Dns.Config(Dns.DEFAULT_TIMEOUT, Dns.DEFAULT_MAX_PENDING)

  /** The loop only processes datagrams and expires queries until it ends. */
  predicate Running(calls: seq<Dns.Call>) {
    forall i :: 0 <= i < |calls| ==> calls[i].Process? || calls[i].Expire?
  }

  lemma {:induction false} RunningUntilFinished(c: Config, moves: seq<Move>)
    ensures Run(c, moves).phase != EventLoops.Finished ==> Running(Run(c, moves).calls)
    decreases |moves|
  {
    if moves != [] {
      RunningUntilFinished(c, moves[..|moves| - 1]);
      RunningOfStep(c, Run(c, moves[..|moves| - 1]), moves[|moves| - 1]);
    }
  }

  lemma RunningSnoc(calls: seq<Dns.Call>, call: Dns.Call)
    requires Running(calls) && (call.Process? || call.Expire?)
    ensures Running(calls + [call])
  {
  }

  lemma RunningOfStep(c: Config, s: System, m: Move)
    requires Tracked(s) && (s.phase != EventLoops.Finished ==> Running(s.calls))
    ensures Step(c, s, m).phase != EventLoops.Finished ==> Running(Step(c, s, m).calls)
  {
    hide Puts, Swept, Taken, Passed, Observed, FlushMark, Watermark, RetryAll, Ending, Tracked, Running;
    if Enabled(c, s, m) {
      match m
      case ExpireTick(at) => RunningSnoc(s.calls, Dns.Expire(Watermark(s.progress, at)));
      case Receive(answer, elapsed) =>
        if s.pipe[0].event.DnsEvent? {
          RunningSnoc(s.calls, Dns.Process(Arriving(s)));
        }
      case _ =>
    }
  }

  /** Running on from a reachable state of the correlator. */
  lemma {:induction false} RunSplits(c: Dns.Config, a: seq<Dns.Call>, b: seq<Dns.Call>)
    ensures DnsAccounts.Run(c, a + b).state == DnsAccounts.Later(c, DnsAccounts.Run(c, a).state, b)
    decreases |b|
  {
    if b == [] {
      assert a + b == a;
    } else {
      assert (a + b)[..|a|] == a && a + b == (a + [b[0]]) + b[1..];
      RunSplits(c, a + [b[0]], b[1..]);
      DnsAccounts.RunNext(c, a, b[0]);
    }
  }

  /** The call answers a query under key k. */
  predicate Answers(call: Dns.Call, k: DnsTypes.Key) {
    DnsAccounts.IsResponse(call) && ResponseKey(Snapshot(call.f), Parse(call.f.payload).message) == k
  }

  lemma ResponseSettles(c: Dns.Config, s: Dns.State, f: Fragment, k: DnsTypes.Key)
    requires Dns.Distinct(s.pending) && k in s.pending && Answers(Dns.Process(f), k)
    requires f.observedAt - s.pending[k].fragment.observedAt < c.timeout
    ensures var t := Answered(Snapshot(f), Parse(f.payload).message, Some(s.pending[k]));
            Dns.Settlement(s.pending[k], t) in Dns.Step(c, s, Dns.Process(f)).settled
  {
    hide Parse, Snapshot, ResponseKey, Answered, Unanswered, Unparsed, Dns.Settled;
    DnsAccounts.SparedByExpiry(c, s, f.observedAt, k);
    var e := Dns.Expired(c, s, f.observedAt);
    var h := Dns.Handle(c, e.state, f);
    assert (e.settled + h.settled)[|e.settled|] == h.settled[0];
  }

  /** Calls up to f's time spare a query that is younger than the timeout at that time. */
  lemma PendingWhenAnswered(calls: seq<Dns.Call>, n: nat, f: Fragment, k: DnsTypes.Key)
    requires n <= |calls| && Running(calls) && CallsBy(calls, f.observedAt)
    requires forall i :: n <= i < |calls| ==> !Answers(calls[i], k)
    requires var pending := DnsAccounts.Run(DNS_CONFIG, calls[..n]).state.pending;
             k in pending && f.observedAt - pending[k].fragment.observedAt < DNS_CONFIG.timeout
    ensures var dns := DnsAccounts.Run(DNS_CONFIG, calls).state;
            k in dns.pending && dns.pending[k] == DnsAccounts.Run(DNS_CONFIG, calls[..n]).state.pending[k]
  {
    hide Parse, Snapshot, ResponseKey, DnsAccounts.Run, DnsAccounts.IsResponse, Dns.Good;
    var before, rest := DnsAccounts.Run(DNS_CONFIG, calls[..n]).state, calls[n..];
    forall i | 0 <= i < |rest| ensures DnsAccounts.Spares(DNS_CONFIG, rest[i], k, before.pending[k]) {
      assert rest[i] == calls[n + i] && !Answers(calls[n + i], k);
    }
    hide DnsAccounts.Spares;
    DnsAccounts.StillPending(DNS_CONFIG, before, rest, k);
    assert calls[..n] + rest == calls;
    RunSplits(DNS_CONFIG, calls[..n], rest);
  }

  /** The datagram at the head of the pump, as the correlator will be given it. */
  function Arriving(s: System): Fragment
    requires s.pipe != [] && s.pipe[0].event.DnsEvent?
  {
    s.pipe[0].event.f.(observedAt := s.pipe[0].at)
  }

  /** A query pending after the first n calls is still pending, unchanged, when the first response to
      it is received, provided the response was accepted within the timeout; it settles the query.
      How long the response waited in the pump, and how often the loop expired queries meanwhile,
      does not matter. */
  lemma NoQueryExpiresEarly(c: Config, moves: seq<Move>, n: nat, k: DnsTypes.Key)
    requires var s := Run(c, moves);
             && n <= |s.calls| && s.pipe != [] && s.pipe[0].event.DnsEvent?
             && (forall i :: n <= i < |s.calls| ==> !Answers(s.calls[i], k))
             && Answers(Dns.Process(Arriving(s)), k)
    requires var s := Run(c, moves);
             var pending := DnsAccounts.Run(DNS_CONFIG, s.calls[..n]).state.pending;
             k in pending && Arriving(s).observedAt - pending[k].fragment.observedAt < DNS_CONFIG.timeout
    ensures var s, f := Run(c, moves), Arriving(Run(c, moves));
            var query := DnsAccounts.Run(DNS_CONFIG, s.calls[..n]).state.pending[k];
            var dns := DnsAccounts.Run(DNS_CONFIG, s.calls).state;
            && k in dns.pending && dns.pending[k] == query
            && Dns.Settlement(query, Answered(Snapshot(f), Parse(f.payload).message, Some(query)))
               in Dns.Step(DNS_CONFIG, dns, Dns.Process(f)).settled
  {
    var s, f := Run(c, moves), Arriving(Run(c, moves));
    AllCallsBefore(c, moves);
    hide Run, Answered, Parse, Snapshot, ResponseKey, DnsAccounts.Run, DnsAccounts.IsResponse, Dns.Step, Dns.Good, Answers, CallsBy;
    PendingWhenAnswered(s.calls, n, f, k);
    Dns.GoodIsDistinct(DNS_CONFIG, DnsAccounts.Run(DNS_CONFIG, s.calls).state);
    ResponseSettles(DNS_CONFIG, DnsAccounts.Run(DNS_CONFIG, s.calls).state, f, k);
  }

  /** While an event waits, every call so far was for a time no later than the event's. */
  lemma AllCallsBefore(c: Config, moves: seq<Move>)
    requires Run(c, moves).pipe != []
    ensures CallsBy(Run(c, moves).calls, Run(c, moves).pipe[0].at) && Running(Run(c, moves).calls)
  {
    var s := Run(c, moves);
    CallsStaySound(c, moves);
    PumpStaysSound(c, moves);
    RunningUntilFinished(c, moves);
    assert s.progress.outstanding[0] == s.pipe[0].at;
    FirstHeld(s.calls, s.progress.outstanding, s.clock);
  }
}
