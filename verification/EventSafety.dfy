/** What holds in every reachable state of the event loop. */
module EventSafety {
  import opened FlowTypes
  import opened Lists
  import opened Captures
  import opened Windows
  import opened Resolutions
  import opened EventLoops

  // ---------- The ledger ----------

  lemma LedgerOfStep(c: Config, s: System, m: Move)
    requires Tracked(s) && Sound(s.ledger)
    ensures Sound(Step(c, s, m).ledger)
  {
    hide Sound, Swept, Taken, Passed, Puts, Observed, Watermark, FlushMark, RetryAll, Ending;
    if Enabled(c, s, m) {
      match m
      case Receive(answer, elapsed) =>
        if s.pipe[0].event.FlowEvent? {
          var o := Observed(c, s.pipe[0].event.o, s.pipe[0].at, answer);
          TakenKeeps(s.ledger, o, elapsed);
          PassedKeeps(s.ledger, o);
        }
      case RetryTick(rs) => RetryKeeps(s.ledger, rs);
      case End(at) => EndKeeps(s.ledger);
      case _ =>
    }
  }

  lemma RetryKeeps(l: Ledger, rs: seq<Retry>)
    requires Sound(l) && |rs| == |l.pending|
    ensures Sound(Swept(l, RetryAll(l.pending, rs), RetryDeadline))
  {
    RetryIsAbout(l.pending, rs);
    SweptKeeps(l, RetryAll(l.pending, rs), RetryDeadline);
  }

  lemma EndKeeps(l: Ledger)
    requires Sound(l)
    ensures Sound(Swept(l, Ending(l.pending), CaptureEnded)) && Swept(l, Ending(l.pending), CaptureEnded).pending == []
  {
    EndingIsAbout(l.pending);
    SweptKeeps(l, Ending(l.pending), CaptureEnded);
    SiftDropsAll(Ending(l.pending), CaptureEnded);
  }

  /** In every run: at most MAX_PENDING connects wait, on pairwise different flows; and flow by flow,
      the egress connects received so far are, in order and with their original observation, those
      recorded followed by the one that waits. */
  lemma {:induction false} EveryConnectIsKept(c: Config, moves: seq<Move>)
    ensures Sound(Run(c, moves).ledger)
    decreases |moves|
  {
    if moves == [] {
      NothingIsSound();
    } else {
      EveryConnectIsKept(c, moves[..|moves| - 1]);
      hide Sound, Step;
      LedgerOfStep(c, Run(c, moves[..|moves| - 1]), moves[|moves| - 1]);
    }
  }

  // ---------- The pump ----------

  ghost predicate PumpSound(s: System) {
    && |s.pipe| <= CHANNEL_CAPACITY + 1
    && (forall i :: 0 <= i < |s.pipe| && IsError(s.pipe[i].event) ==> i == |s.pipe| - 1 && !s.pumping)
    && (!s.streaming ==> s.pipe == [] && !s.pumping)
    && (s.stopping || !s.pumping ==> s.progress.ended)
    && (s.phase == Joining ==> s.stopping)
    && (s.phase == Finished ==> s.ledger.pending == [] && !s.streaming)
  }

  lemma PumpOfStep(c: Config, s: System, m: Move)
    requires Tracked(s) && PumpSound(s) && Sound(s.ledger)
    ensures PumpSound(Step(c, s, m))
  {
    hide Sound, Swept, Taken, Passed, Puts, Observed, Watermark, FlushMark, RetryAll, Ending, Tracked;
    if Enabled(c, s, m) {
      match m
      case End(at) => EndKeeps(s.ledger);
      case _ =>
    }
  }

  /** Nothing accepted is lost: a run that has ended has received everything, and recorded every
      egress connect it was given; the capture end is fixed by then. */
  lemma FinishedIsComplete(c: Config, moves: seq<Move>, flow: FlowKey)
    requires Run(c, moves).phase == Finished
    ensures var s := Run(c, moves);
            && s.pipe == [] && !s.pumping && s.progress.ended && s.ledger.pending == []
            && Recorded(s.ledger.records, flow) == SeenOf(s.ledger.seen, flow)
  {
    EveryConnectIsKept(c, moves);
    PumpStaysSound(c, moves);
    var l := Run(c, moves).ledger;
    assert Recorded(l.records, flow) + Waiting(l.pending, flow) == SeenOf(l.seen, flow);
    assert Recorded(l.records, flow) + [] == Recorded(l.records, flow);
  }

  lemma {:induction false} PumpStaysSound(c: Config, moves: seq<Move>)
    ensures PumpSound(Run(c, moves))
    decreases |moves|
  {
    if moves != [] {
      PumpStaysSound(c, moves[..|moves| - 1]);
      EveryConnectIsKept(c, moves[..|moves| - 1]);
      hide PumpSound, Step;
      PumpOfStep(c, Run(c, moves[..|moves| - 1]), moves[|moves| - 1]);
    }
  }

  // ---------- Times ----------

  /** No watermark handed to the stream so far is after t. */
  ghost predicate MarksBy(feed: seq<Feed>, t: Time) {
    forall i :: 0 <= i < |feed| && feed[i].Mark? ==> feed[i].at <= t
  }

  /** A capture time at which an observation is still in time. */
  ghost predicate InTime(feed: seq<Feed>, t: Time) {
    t != 0 && MarksBy(feed, t)
  }

  /** Every observation came with a capture time, and none after a later watermark. */
  ghost predicate Timely(feed: seq<Feed>) {
    forall j :: 0 <= j < |feed| && feed[j].Put? ==> InTime(feed[..j], feed[j].o.observedAt)
  }

  function CallTime(call: DnsCorrelators.Call): Time {
    match call
    case Process(f) => f.observedAt
    case Expire(now) => now
    case Finish(end) => end
    case Flush => 0
  }

  ghost predicate CallsBy(calls: seq<DnsCorrelators.Call>, t: Time) {
    forall i :: 0 <= i < |calls| ==> CallTime(calls[i]) <= t
  }

  /** Expiry never ran ahead of a read that is outstanding, or of one still to come; reads are
      outstanding in the order of their times. */
  ghost predicate CallsHeld(calls: seq<DnsCorrelators.Call>, outstanding: seq<Time>, clock: Time) {
    && CallsBy(calls, clock)
    && (forall i :: 0 <= i < |outstanding| ==> outstanding[i] <= clock && CallsBy(calls, outstanding[i]))
    && (forall i, j :: 0 <= i < j < |outstanding| ==> outstanding[i] <= outstanding[j])
  }

  predicate CutoffBy(p: Progress, clock: Time) {
    p.ended ==> p.cutoff <= clock
  }

  ghost predicate CallsSound(s: System) {
    CallsHeld(s.calls, s.progress.outstanding, s.clock) && CutoffBy(s.progress, s.clock)
  }

  lemma CallsSnoc(calls: seq<DnsCorrelators.Call>, call: DnsCorrelators.Call, t: Time)
    ensures CallsBy(calls + [call], t) <==> CallsBy(calls, t) && CallTime(call) <= t
  {
    if CallsBy(calls + [call], t) {
      assert (calls + [call])[|calls|] == call;
      assert forall i :: 0 <= i < |calls| ==> calls[i] == (calls + [call])[i];
    }
  }

  lemma CallsLater(calls: seq<DnsCorrelators.Call>, t: Time, u: Time)
    requires CallsBy(calls, t) && t <= u
    ensures CallsBy(calls, u)
  {
  }

  lemma HeldLater(calls: seq<DnsCorrelators.Call>, outstanding: seq<Time>, clock: Time, at: Time)
    requires CallsHeld(calls, outstanding, clock) && at >= clock
    ensures CallsHeld(calls, outstanding, at) && CallsHeld(calls, outstanding + [at], at)
  {
    hide CallsBy;
    CallsLater(calls, clock, at);
  }

  lemma HeldSnoc(calls: seq<DnsCorrelators.Call>, outstanding: seq<Time>, clock: Time, call: DnsCorrelators.Call)
    requires CallsHeld(calls, outstanding, clock) && CallTime(call) <= clock
    requires forall i :: 0 <= i < |outstanding| ==> CallTime(call) <= outstanding[i]
    ensures CallsHeld(calls + [call], outstanding, clock)
  {
    hide CallsBy, CallTime;
    CallsSnoc(calls, call, clock);
    forall i | 0 <= i < |outstanding| ensures CallsBy(calls + [call], outstanding[i]) {
      CallsSnoc(calls, call, outstanding[i]);
    }
  }

  lemma HeldTail(calls: seq<DnsCorrelators.Call>, outstanding: seq<Time>, clock: Time)
    requires CallsHeld(calls, outstanding, clock) && outstanding != []
    ensures CallsHeld(calls, outstanding[1..], clock)
    ensures forall i :: 0 <= i < |outstanding[1..]| ==> outstanding[0] <= outstanding[1..][i]
  {
    hide CallsBy;
  }

  lemma ExpireSound(s: System, at: Time)
    requires CallsSound(s) && at >= s.clock
    ensures CallsHeld(s.calls + [DnsCorrelators.Expire(Watermark(s.progress, at))], s.progress.outstanding, at)
  {
    var mark := Watermark(s.progress, at);
    WatermarkExactly(s.progress, at, mark);
    HeldLater(s.calls, s.progress.outstanding, s.clock, at);
    hide Watermark, CallsHeld;
    HeldSnoc(s.calls, s.progress.outstanding, at, DnsCorrelators.Expire(mark));
  }

  lemma HandlingCallsSound(c: Config, s: System, event: Read, at: Time, answer: Lookup, elapsed: Time)
    requires CallsSound(s) && at <= s.clock
    requires forall i :: 0 <= i < |s.progress.outstanding| ==> at <= s.progress.outstanding[i]
    ensures CallsSound(Handling(c, s, event, at, answer, elapsed))
  {
    hide Observed, Taken, Passed, Puts, CallsHeld;
    if event.DnsEvent? {
      HeldSnoc(s.calls, s.progress.outstanding, s.clock, DnsCorrelators.Process(event.f.(observedAt := at)));
    }
  }

  lemma ReceiveCallsSound(c: Config, s: System, answer: Lookup, elapsed: Time)
    requires Tracked(s) && CallsSound(s) && s.pipe != []
    ensures CallsSound(Receiving(c, s, answer, elapsed))
  {
    hide Handling, CallsHeld;
    HeldTail(s.calls, s.progress.outstanding, s.clock);
    FirstHeld(s.calls, s.progress.outstanding, s.clock);
    assert s.progress.outstanding[0] == s.pipe[0].at;
    HandlingCallsSound(c, Popped(s), s.pipe[0].event, s.pipe[0].at, answer, elapsed);
  }

  /** The state once the loop holds the first event. */
  function Popped(s: System): System
    requires s.pipe != [] && s.progress.outstanding != []
  {
    s.(pipe := s.pipe[1..], progress := Consumed(s.progress))
  }

  lemma FirstHeld(calls: seq<DnsCorrelators.Call>, outstanding: seq<Time>, clock: Time)
    requires CallsHeld(calls, outstanding, clock) && outstanding != []
    ensures outstanding[0] <= clock && CallsBy(calls, outstanding[0])
  {
  }

  lemma EndCallsSound(s: System, at: Time)
    requires CallsSound(s) && at >= s.clock && s.progress.outstanding == []
    ensures var ended := Captures.Finished(s.progress, at);
            CallsHeld(s.calls + [DnsCorrelators.Finish(CaptureTime(ended, at))], [], at)
  {
    hide CallsHeld;
    HeldLater(s.calls, s.progress.outstanding, s.clock, at);
    HeldSnoc(s.calls, [], at, DnsCorrelators.Finish(CaptureTime(Captures.Finished(s.progress, at), at)));
  }

  lemma CallsOfStep(c: Config, s: System, m: Move)
    requires Tracked(s) && CallsSound(s) && PumpSound(s)
    ensures CallsSound(Step(c, s, m))
  {
    hide Taken, Passed, Puts, Swept, CallsHeld, Observed, Watermark, FlushMark, RetryAll, Ending;
    if Enabled(c, s, m) {
      match m
      case Accept(read, at) => HeldLater(s.calls, s.progress.outstanding, s.clock, at);
      case Receive(answer, elapsed) => ReceiveCallsSound(c, s, answer, elapsed);
      case ExpireTick(at) => ExpireSound(s, at);
      case FlushTick(at) => HeldLater(s.calls, s.progress.outstanding, s.clock, at);
      case Cancel(at) => HeldLater(s.calls, s.progress.outstanding, s.clock, at);
      case End(at) => EndCallsSound(s, at);
      case _ =>
    }
  }

  lemma {:induction false} CallsStaySound(c: Config, moves: seq<Move>)
    ensures CallsSound(Run(c, moves))
    decreases |moves|
  {
    if moves != [] {
      CallsStaySound(c, moves[..|moves| - 1]);
      PumpStaysSound(c, moves[..|moves| - 1]);
      hide CallsSound, PumpSound, Step;
      CallsOfStep(c, Run(c, moves[..|moves| - 1]), moves[|moves| - 1]);
    }
  }

  // ---------- Watermarks ----------

  /** No watermark ran ahead of a read that is outstanding or to come, or of a connect that waits. */
  ghost predicate MarksHeld(feed: seq<Feed>, outstanding: seq<Time>, pending: seq<Item>, clock: Time) {
    && MarksBy(feed, clock)
    && (forall i :: 0 <= i < |outstanding| ==> MarksBy(feed, outstanding[i]))
    && (forall i :: 0 <= i < |pending| ==> InTime(feed, pending[i].observation.observedAt))
  }

  ghost predicate FeedSound(s: System) {
    && Timely(s.feed) && MarksHeld(s.feed, s.progress.outstanding, s.ledger.pending, s.clock)
    && CutoffBy(s.progress, s.clock)
  }

  /** Adding observations leaves the watermarks what they were. */
  lemma PutsAddNoMarks(feed: seq<Feed>, more: seq<Feed>, t: Time)
    requires forall i :: 0 <= i < |more| ==> more[i].Put?
    ensures MarksBy(feed + more, t) <==> MarksBy(feed, t)
  {
    if MarksBy(feed + more, t) {
      assert forall i :: 0 <= i < |feed| ==> feed[i] == (feed + more)[i];
    }
  }

  lemma PutsInTime(feed: seq<Feed>, more: seq<Feed>)
    requires Timely(feed)
    requires forall i :: 0 <= i < |more| ==> more[i].Put? && InTime(feed, more[i].o.observedAt)
    ensures Timely(feed + more)
  {
    var all := feed + more;
    forall j | 0 <= j < |all| && all[j].Put? ensures InTime(all[..j], all[j].o.observedAt) {
      if j < |feed| {
        assert all[..j] == feed[..j] && all[j] == feed[j];
      } else {
        assert all[..j] == feed + more[..j - |feed|] && all[j] == more[j - |feed|];
        PutsAddNoMarks(feed, more[..j - |feed|], all[j].o.observedAt);
      }
    }
  }

  /** A later ledger whose new records and pending connects are all in time. */
  ghost predicate InTimeAfter(feed: seq<Feed>, l: Ledger, m: Ledger) {
    && |l.records| <= |m.records|
    && (forall i :: |l.records| <= i < |m.records| ==> InTime(feed, m.records[i].observation.observedAt))
    && (forall i :: 0 <= i < |m.pending| ==> InTime(feed, m.pending[i].observation.observedAt))
  }

  lemma EncodingSound(s: System, m: Ledger)
    requires FeedSound(s) && InTimeAfter(s.feed, s.ledger, m)
    ensures FeedSound(Encoding(s, m))
  {
    var more := Puts(s.ledger, m);
    forall i | 0 <= i < |more| ensures more[i].Put? && InTime(s.feed, more[i].o.observedAt) {
      assert more[i] == PutOf(m.records[|s.ledger.records| + i]);
    }
    PutsInTime(s.feed, more);
    hide MarksBy, Timely, Puts;
    forall t ensures MarksBy(s.feed + more, t) <==> MarksBy(s.feed, t) {
      PutsAddNoMarks(s.feed, more, t);
    }
  }

  lemma SweptInTime(feed: seq<Feed>, l: Ledger, ds: seq<Decided>, reason: Reason)
    requires AllAbout(ds, l.pending)
    requires forall i :: 0 <= i < |l.pending| ==> InTime(feed, l.pending[i].observation.observedAt)
    ensures InTimeAfter(feed, l, Swept(l, ds, reason))
  {
    SiftSources(ds, reason);
    hide MarksBy, InTime, Sift, About;
    var s, m := Sift(ds, reason), Swept(l, ds, reason);
    forall i | 0 <= i < |ds| ensures InTime(feed, ds[i].item.observation.observedAt) {
      SameFlow(ds[i], l.pending[i]);
    }
    forall i | |l.records| <= i < |m.records| ensures InTime(feed, m.records[i].observation.observedAt) {
      assert m.records[i] == s.records[i - |l.records|];
      assert IsConcluded(ds, reason, s.records[i - |l.records|]);
    }
    forall i | 0 <= i < |m.pending| ensures InTime(feed, m.pending[i].observation.observedAt) {
      assert IsKept(ds, s.left[i]);
    }
  }

  lemma TakenInTime(feed: seq<Feed>, l: Ledger, o: Observation, elapsed: Time)
    requires InTime(feed, o.observedAt)
    requires forall i :: 0 <= i < |l.pending| ==> InTime(feed, l.pending[i].observation.observedAt)
    ensures InTimeAfter(feed, l, Taken(l, o, elapsed)) && InTimeAfter(feed, l, Passed(l, o))
  {
    SupersedingIsAbout(l.pending, o.flow);
    SweptInTime(feed, l, Superseding(l.pending, o.flow), TupleReused);
    hide MarksBy, InTime, Swept, Superseding;
  }

  lemma ObservedKeepsTime(c: Config, o: Observation, at: Time, answer: Lookup)
    ensures Observed(c, o, at, answer).observedAt == at && Observed(c, o, at, answer).flow == o.flow
  {
  }

  lemma PoppedFeedSound(s: System)
    requires Tracked(s) && FeedSound(s) && s.pipe != []
    ensures FeedSound(Popped(s)) && MarksBy(s.feed, s.pipe[0].at)
  {
    hide MarksBy, InTime, Timely;
    assert s.progress.outstanding[0] == s.pipe[0].at;
  }

  lemma HandlingFeedSound(c: Config, s: System, event: Read, at: Time, answer: Lookup, elapsed: Time)
    requires FeedSound(s) && (InTime(s.feed, at) || IsError(event))
    ensures FeedSound(Handling(c, s, event, at, answer, elapsed))
  {
    hide InTimeAfter, Taken, Passed, Observed, MarksBy, Timely, Encoding, InTime;
    if event.FlowEvent? {
      var o := Observed(c, event.o, at, answer);
      ObservedKeepsTime(c, event.o, at, answer);
      TakenInTime(s.feed, s.ledger, o, elapsed);
      EncodingSound(s, Taken(s.ledger, o, elapsed));
      EncodingSound(s, Passed(s.ledger, o));
    }
  }

  lemma ReceiveFeedSound(c: Config, s: System, answer: Lookup, elapsed: Time)
    requires Tracked(s) && FeedSound(s) && s.pipe != [] && (s.pipe[0].at != 0 || IsError(s.pipe[0].event))
    ensures FeedSound(Receiving(c, s, answer, elapsed))
  {
    hide Handling, MarksBy, FeedSound;
    PoppedFeedSound(s);
    HandlingFeedSound(c, Popped(s), s.pipe[0].event, s.pipe[0].at, answer, elapsed);
  }

  lemma MarkSnoc(feed: seq<Feed>, mark: Time, t: Time)
    ensures MarksBy(feed + [Mark(mark)], t) <==> MarksBy(feed, t) && mark <= t
  {
    var all := feed + [Mark(mark)];
    assert all[|feed|] == Mark(mark);
    assert forall i :: 0 <= i < |feed| ==> feed[i] == all[i];
  }

  lemma MarkTimely(feed: seq<Feed>, mark: Time)
    requires Timely(feed)
    ensures Timely(feed + [Mark(mark)])
  {
    var all := feed + [Mark(mark)];
    forall j | 0 <= j < |all| && all[j].Put? ensures InTime(all[..j], all[j].o.observedAt) {
      assert all[..j] == feed[..j] && all[j] == feed[j];
    }
  }

  lemma MarksLater(feed: seq<Feed>, t: Time, u: Time)
    requires MarksBy(feed, t) && t <= u
    ensures MarksBy(feed, u)
  {
  }

  /** The flush watermark is held back by everything that can still arrive. */
  lemma FlushMarkHeld(s: System, at: Time)
    requires at >= s.clock && CutoffBy(s.progress, s.clock)
    ensures var mark := FlushMark(s, at);
            && mark <= at
            && (forall i :: 0 <= i < |s.progress.outstanding| ==> mark <= s.progress.outstanding[i])
            && (forall i :: 0 <= i < |s.ledger.pending| ==> mark <= s.ledger.pending[i].observation.observedAt)
  {
    var mark := FlushMark(s, at);
    LeastIsGreatestBound(Watermark(s.progress, at), Mapped(ObservedAt, s.ledger.pending), mark);
    WatermarkExactly(s.progress, at, mark);
    forall i | 0 <= i < |s.ledger.pending| ensures mark <= s.ledger.pending[i].observation.observedAt {
      assert Mapped(ObservedAt, s.ledger.pending)[i] == s.ledger.pending[i].observation.observedAt;
    }
  }

  lemma FlushFeedSound(s: System, at: Time)
    requires FeedSound(s) && at >= s.clock
    ensures FeedSound(s.(feed := s.feed + [Mark(FlushMark(s, at))], phase := Ready, clock := at))
  {
    var mark := FlushMark(s, at);
    FlushMarkHeld(s, at);
    MarkTimely(s.feed, mark);
    hide MarksBy, Timely, FlushMark;
    MarksLater(s.feed, s.clock, at);
    forall t ensures MarksBy(s.feed + [Mark(mark)], t) <==> MarksBy(s.feed, t) && mark <= t {
      MarkSnoc(s.feed, mark, t);
    }
  }

  lemma FeedOfStep(c: Config, s: System, m: Move)
    requires Tracked(s) && FeedSound(s)
    ensures FeedSound(Step(c, s, m))
  {
    if Enabled(c, s, m) {
      match m
      case Receive(answer, elapsed) => ReceiveFeedSound(c, s, answer, elapsed);
      case RetryTick(rs) =>
        RetryIsAbout(s.ledger.pending, rs);
        SweptInTime(s.feed, s.ledger, RetryAll(s.ledger.pending, rs), RetryDeadline);
        EncodingSound(s, Swept(s.ledger, RetryAll(s.ledger.pending, rs), RetryDeadline));
      case FlushTick(at) => FlushFeedSound(s, at);
      case End(at) =>
        EndingIsAbout(s.ledger.pending);
        SweptInTime(s.feed, s.ledger, Ending(s.ledger.pending), CaptureEnded);
        EncodingSound(s, Swept(s.ledger, Ending(s.ledger.pending), CaptureEnded));
        MarksLater(s.feed, s.clock, at);
      case Accept(_, at) => MarksLater(s.feed, s.clock, at);
      case ExpireTick(at) => MarksLater(s.feed, s.clock, at);
      case Cancel(at) => MarksLater(s.feed, s.clock, at);
      case _ =>
    }
  }

  lemma {:induction false} FeedStaysSound(c: Config, moves: seq<Move>)
    ensures FeedSound(Run(c, moves))
    decreases |moves|
  {
    if moves != [] {
      FeedStaysSound(c, moves[..|moves| - 1]);
      hide FeedSound, Step;
      FeedOfStep(c, Run(c, moves[..|moves| - 1]), moves[|moves| - 1]);
    }
  }
}
