/** What single steps of the event loop do, said of the reads, records and marks themselves. */
module EventOutcomes {
  import opened Base
  import opened FlowTypes
  import opened Captures
  import opened Windows
  import opened Resolutions
  import opened EventLoops
  import opened EventTraces

  // ---------- Flow events ----------

  /** A flow event as an observation: its capture time, and what one lookup found, if there is a resolver. */
  function AsObserved(c: Config, o: Observation, at: Time, answer: Lookup): Observation {
    o.(observedAt := at,
       destinationResolved := if c.hasResolver && answer.Backend? then Some(answer.to) else None,
       sourceResolved := if c.hasResolver && answer.Frontend? then Some(answer.from) else None)
  }

  lemma ObservedExactly(c: Config, o: Observation, at: Time, answer: Lookup)
    ensures Observed(c, o, at, answer) == AsObserved(c, o, at, answer)
  {
  }

  /** Receiving a flow event: an egress connect is taken into the pending list, anything else recorded as
      observed. */
  lemma FlowIsHandled(c: Config, s: System, answer: Lookup, elapsed: Time)
    requires Tracked(s) && Enabled(c, s, Receive(answer, elapsed)) && s.pipe[0].event.FlowEvent?
    ensures var t := Step(c, s, Receive(answer, elapsed));
            var e := s.pipe[0].event;
            var o := AsObserved(c, e.o, s.pipe[0].at, answer);
            && t.pipe == s.pipe[1..]
            && if c.hasResolver && e.connect && e.o.flow.direction == "egress" then TakenDone(s.ledger, o, elapsed, t.ledger)
               else t.ledger == Ledger(s.ledger.pending, s.ledger.records + [Plain(o)], s.ledger.seen)
  {
    ObservedExactly(c, s.pipe[0].event.o, s.pipe[0].at, answer);
    TakenDeals(s.ledger, Observed(c, s.pipe[0].event.o, s.pipe[0].at, answer), elapsed);
    hide TakenDone, Taken, AsObserved, Observed, Puts;
  }

  // ---------- The retry tick ----------

  /** A retry tick looks up and deals out every waiting connect, and afterwards none is overdue: every
      deadline left is later than any time that all readings of the tick have reached. */
  lemma RetryTickLeavesNobodyOverdue(c: Config, moves: seq<Move>, rs: seq<Retry>, now: Time)
    requires Enabled(c, Run(c, moves), RetryTick(rs)) && forall i :: 0 <= i < |rs| ==> now <= rs[i].now
    ensures var s, t := Run(c, moves), Run(c, moves + [RetryTick(rs)]);
            && RetryDone(s.ledger, rs, t.ledger)
            && forall j :: 0 <= j < |t.ledger.pending| ==> t.ledger.pending[j].deadline > now
  {
    var s := Run(c, moves);
    assert (moves + [RetryTick(rs)])[..|moves|] == moves;
    RetryDeals(s.ledger, rs);
    NobodyIsOverdue(s.ledger.pending, rs, now);
    hide RetryDone, RetryAll, Sift, Puts, Run;
  }

  /** A tick never gets stuck: retries, expiry and flush follow each other, and the loop goes on as before. */
  lemma TickGoesRound(c: Config, s: System, rs: seq<Retry>, expiry: Time, flush: Time)
    requires Tracked(s) && Enabled(c, s, RetryTick(rs)) && s.clock <= expiry <= flush
    ensures var t := Next(c, s, RetryTick(rs));
            && Tracked(t) && Enabled(c, t, ExpireTick(expiry))
            && var u := Next(c, t, ExpireTick(expiry));
               && Tracked(u) && Enabled(c, u, FlushTick(flush))
               && var v := Next(c, u, FlushTick(flush));
                  v.phase == Ready && v.ledger == t.ledger && (v.streaming, v.cancelled, v.pumping) == (s.streaming, s.cancelled, s.pumping)
  {
    hide Swept, RetryAll, Puts, Watermark, FlushMark;
  }

  // ---------- Marks ----------

  /** The time of the first move that ended the capture: the last read, a cancellation, or the end. */
  function CaptureEnd(c: Config, moves: seq<Move>): Option<Time> {
    if moves == [] then None
    else
      var n := |moves| - 1;
      var before := CaptureEnd(c, moves[..n]);
      if before.Some? || !Enabled(c, Run(c, moves[..n]), moves[n]) then before
      else
        match moves[n]
        case Accept(read, at) =>
          if IsError(read) || Run(c, moves[..n]).count + 1 == c.maxEvents then Some(at) else None
        case Cancel(at) => Some(at)
        case End(at) => Some(at)
        case _ => None
  }

  ghost predicate EndIs(p: Progress, end: Option<Time>) {
    (p.ended <==> end.Some?) && (end.Some? ==> p.cutoff == end.value)
  }

  /** The capture ends once, with the first move that ends it. */
  lemma {:induction false} CaptureEndsOnce(c: Config, moves: seq<Move>)
    ensures EndIs(Run(c, moves).progress, CaptureEnd(c, moves))
    decreases |moves|
  {
    if moves != [] {
      var n := |moves| - 1;
      CaptureEndsOnce(c, moves[..n]);
      EndOfStep(c, Run(c, moves[..n]), moves[n], CaptureEnd(c, moves[..n]), CaptureEnd(c, moves));
    }
  }

  lemma EndOfStep(c: Config, s: System, m: Move, before: Option<Time>, after: Option<Time>)
    requires Tracked(s) && EndIs(s.progress, before)
    requires if before.Some? || !Enabled(c, s, m) then after == before
             else match m
                  case Accept(read, at) => after == if IsError(read) || s.count + 1 == c.maxEvents then Some(at) else None
                  case Cancel(at) => after == Some(at)
                  case End(at) => after == Some(at)
                  case _ => after == None
    ensures EndIs(Step(c, s, m).progress, after)
  {
    hide Puts, Swept, Taken, Passed, Observed, FlushMark, Watermark, RetryAll, Ending, Tracked;
  }

  /** m is the least of `at` and the times. */
  ghost predicate IsLeast(m: Time, at: Time, times: seq<Time>) {
    && m <= at && (forall i :: 0 <= i < |times| ==> m <= times[i])
    && (m == at || exists i :: 0 <= i < |times| && times[i] == m)
  }

  lemma {:induction false} LeastIsLeast(at: Time, times: seq<Time>)
    ensures IsLeast(Least(at, times), at, times)
    decreases |times|
  {
    if times != [] {
      var n := |times| - 1;
      LeastIsLeast(at, times[..n]);
      LeastIsGreatestBound(at, times, Least(at, times));
      var l := Least(at, times[..n]);
      if l != at && times[n] >= l {
        var i :| 0 <= i < n && times[..n][i] == l;
        assert times[i] == l;
      }
    }
  }

  /** When the reads still in the pump were accepted. */
  function PumpTimes(s: System): (r: seq<Time>)
    ensures |r| == |s.pipe| && forall i :: 0 <= i < |r| ==> r[i] == s.pipe[i].at
  {
    seq(|s.pipe|, i requires 0 <= i < |s.pipe| => s.pipe[i].at)
  }

  /** When the waiting connects were observed. */
  function WaitingTimes(s: System): (r: seq<Time>)
    ensures |r| == |s.ledger.pending| && forall i :: 0 <= i < |r| ==> r[i] == s.ledger.pending[i].observation.observedAt
  {
    seq(|s.ledger.pending|, i requires 0 <= i < |s.ledger.pending| => s.ledger.pending[i].observation.observedAt)
  }

  /** The time up to which nothing more can come: the clock while the capture runs, its end afterwards,
      and no later than any read still in the pump. */
  ghost predicate IsMark(c: Config, moves: seq<Move>, now: Time, mark: Time) {
    var end := CaptureEnd(c, moves);
    IsLeast(mark, if end.Some? then end.value else now, PumpTimes(Run(c, moves)))
  }

  lemma WatermarkIsMark(c: Config, moves: seq<Move>, now: Time)
    ensures IsMark(c, moves, now, Watermark(Run(c, moves).progress, now))
  {
    var s := Run(c, moves);
    CaptureEndsOnce(c, moves);
    assert s.progress.outstanding == PumpTimes(s) by {
      assert Tracked(s);
    }
    LeastIsLeast(CaptureTime(s.progress, now), s.progress.outstanding);
    hide Run, CaptureEnd, IsLeast;
  }

  /** An expiry tick expires by exactly that time. */
  lemma ExpiresByMark(c: Config, moves: seq<Move>, at: Time)
    requires Enabled(c, Run(c, moves), ExpireTick(at))
    ensures var s, t := Run(c, moves), Run(c, moves + [ExpireTick(at)]);
            exists mark :: IsMark(c, moves, at, mark) && t.calls == s.calls + [DnsCorrelators.Expire(mark)]
  {
    assert (moves + [ExpireTick(at)])[..|moves|] == moves;
    WatermarkIsMark(c, moves, at);
    hide Watermark, IsMark, CaptureEnd;
  }

  /** A flush tick flushes by the earliest of that time and of what waits. */
  lemma FlushesByMark(c: Config, moves: seq<Move>, at: Time)
    requires Enabled(c, Run(c, moves), FlushTick(at))
    ensures var s, t := Run(c, moves), Run(c, moves + [FlushTick(at)]);
            exists mark, held :: IsMark(c, moves, at, mark) && IsLeast(held, mark, WaitingTimes(s)) && t.feed == s.feed + [Mark(held)]
  {
    var s := Run(c, moves);
    assert (moves + [FlushTick(at)])[..|moves|] == moves;
    WatermarkIsMark(c, moves, at);
    var mark := Watermark(s.progress, at);
    assert Lists.Mapped(ObservedAt, s.ledger.pending) == WaitingTimes(s);
    LeastIsLeast(mark, WaitingTimes(s));
    hide Watermark, IsMark, CaptureEnd, IsLeast;
    assert IsMark(c, moves, at, mark) && IsLeast(FlushMark(s, at), mark, WaitingTimes(s));
  }

  // ---------- The end ----------

  /** The loop ends only when nothing more can come and, unless it was cancelled, nothing waits. The end records
      everything that waits, as unresolved, and finishes the DNS correlator by the end of the capture. */
  lemma EndIsHandled(c: Config, moves: seq<Move>, at: Time)
    requires Enabled(c, Run(c, moves), End(at))
    ensures var s, t := Run(c, moves), Run(c, moves + [End(at)]);
            && t.ledger == Ledger([], s.ledger.records + RecordsOf(s.ledger.pending, CaptureEnded), s.ledger.seen)
            && !s.streaming && (s.cancelled || s.ledger.pending == [])
            && CaptureEnd(c, moves + [End(at)]).Some?
            && t.calls == s.calls + [DnsCorrelators.Finish(CaptureEnd(c, moves + [End(at)]).value)]
  {
    var s := Run(c, moves);
    assert (moves + [End(at)])[..|moves|] == moves;
    EndingDeals(s.ledger.pending);
    CaptureEndsOnce(c, moves);
    CaptureEndsOnce(c, moves + [End(at)]);
    hide RecordsOf, Ending, Sift, Puts;
  }

  // ---------- Reads and cancellation ----------

  /** n reads were accepted: never more than asked for, and then the pump has stopped. */
  predicate Counted(c: Config, s: System, n: nat) {
    s.count == n && (c.maxEvents > 0 ==> n <= c.maxEvents && (s.pumping ==> n < c.maxEvents))
  }

  lemma CountOfStep(c: Config, s: System, m: Move, n: nat)
    requires Tracked(s) && Counted(c, s, n)
    ensures Counted(c, Step(c, s, m), n + |NewRead(c, s, m)|)
  {
    hide Puts, Swept, Taken, Passed, Observed, FlushMark, Watermark, RetryAll, Ending, Tracked;
  }

  /** In every run the pump accepts at most as many reads as it was asked for, and stops with the last one. */
  lemma {:induction false} ReadsAreBounded(c: Config, moves: seq<Move>)
    ensures Counted(c, Run(c, moves), |AcceptedReads(c, moves)|)
    decreases |moves|
  {
    if moves != [] {
      var n := |moves| - 1;
      ReadsAreBounded(c, moves[..n]);
      CountOfStep(c, Run(c, moves[..n]), moves[n], |AcceptedReads(c, moves[..n])|);
      hide Counted, NewRead, Step;
    }
  }

  /** The run was cancelled. */
  ghost predicate WasCancelled(c: Config, moves: seq<Move>) {
    exists i :: 0 <= i < |moves| && moves[i].Cancel? && Enabled(c, Run(c, moves[..i]), moves[i])
  }

  predicate CancelKept(s: System, cancelled: bool) {
    && (s.stopping <==> cancelled) && (s.cancelled <==> cancelled && s.phase != Joining)
    && (s.phase == Joining ==> cancelled)
  }

  lemma CancelOfStep(c: Config, s: System, m: Move, cancelled: bool)
    requires Tracked(s) && CancelKept(s, cancelled)
    ensures CancelKept(Step(c, s, m), cancelled || (m.Cancel? && Enabled(c, s, m)))
  {
    hide Puts, Swept, Taken, Passed, Observed, FlushMark, Watermark, RetryAll, Ending, Tracked;
  }

  lemma CancelledBefore(c: Config, moves: seq<Move>)
    requires moves != []
    ensures var n := |moves| - 1;
            WasCancelled(c, moves) <==> WasCancelled(c, moves[..n]) || (moves[n].Cancel? && Enabled(c, Run(c, moves[..n]), moves[n]))
  {
    var n := |moves| - 1;
    hide Run, Enabled;
    if i :| 0 <= i < n && moves[i].Cancel? && Enabled(c, Run(c, moves[..i]), moves[i]) {
      assert moves[..n][..i] == moves[..i] && moves[..n][i] == moves[i];
    }
    if i :| 0 <= i < n && moves[..n][i].Cancel? && Enabled(c, Run(c, moves[..n][..i]), moves[..n][i]) {
      assert moves[..n][..i] == moves[..i] && moves[..n][i] == moves[i];
    }
  }

  /** A cancellation stops the pump at once and, once the pump has been joined, ends the waiting for good. */
  lemma {:induction false} CancellationIsKept(c: Config, moves: seq<Move>)
    ensures CancelKept(Run(c, moves), WasCancelled(c, moves))
    decreases |moves|
  {
    if moves != [] {
      var n := |moves| - 1;
      CancellationIsKept(c, moves[..n]);
      CancelledBefore(c, moves);
      CancelOfStep(c, Run(c, moves[..n]), moves[n], WasCancelled(c, moves[..n]));
      hide CancelKept, WasCancelled, Step, Enabled;
    }
  }
}
