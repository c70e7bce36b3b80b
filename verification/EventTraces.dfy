/** From the reads the pump accepted to what the event loop made of them: nothing is lost, repeated
    or reordered on the way. */
module EventTraces {
  import opened Base
  import opened FlowTypes
  import opened Lists
  import opened Captures
  import opened Windows
  import opened Resolutions
  import opened EventLoops
  import opened EventSafety

  // ---------- What the reads amount to ----------

  /** The read that a move accepts. */
  function NewRead(c: Config, s: System, m: Move): seq<Timed> {
    if m.Accept? && Enabled(c, s, m)
    then [Timed(if m.read.ReaderClosed? then (if s.stopping then EndOfInput else ReadFailed) else m.read, m.at)]
    else []
  }

  /** All reads accepted in a run, in order. */
  function AcceptedReads(c: Config, moves: seq<Move>): seq<Timed> {
    if moves == [] then []
    else
      var n := |moves| - 1;
      AcceptedReads(c, moves[..n]) + NewRead(c, Run(c, moves[..n]), moves[n])
  }

  /** The flow event with its capture time, as first observed. */
  function AsCaptured(t: Timed): Observation
    requires t.event.FlowEvent?
  {
    Original(t.event.o.(observedAt := t.at))
  }

  predicate IsEgressConnect(c: Config, t: Timed) {
    c.hasResolver && t.event.FlowEvent? && t.event.connect && t.event.o.flow.direction == "egress"
  }

  function ConnectIn(c: Config): Timed -> Option<Observation> {
    (t: Timed) => if IsEgressConnect(c, t) then Some(AsCaptured(t)) else None
  }

  function PlainIn(c: Config): Timed -> Option<Observation> {
    (t: Timed) => if t.event.FlowEvent? && !IsEgressConnect(c, t) then Some(AsCaptured(t)) else None
  }

  function DatagramIn(t: Timed): Option<DnsTypes.Fragment> {
    if t.event.DnsEvent? then Some(t.event.f.(observedAt := t.at)) else None
  }

  // ---------- What the loop made of them ----------

  function PlainRecord(r: Record): Option<Observation> {
    if r.Plain? then Some(Original(r.observation)) else None
  }

  function ProcessedIn(call: DnsCorrelators.Call): Option<DnsTypes.Fragment> {
    if call.Process? then Some(call.f) else None
  }

  function PutIn(f: Feed): Option<Observation> {
    if f.Put? then Some(f.o) else None
  }

  function ObservationOf(r: Record): Observation {
    r.observation
  }

  /** Every received read had its effect, once and in order: egress connects entered the ledger, other
      flow events a plain record, datagrams the DNS correlator; and every record was put to the stream. */
  ghost predicate Accounts(c: Config, received: seq<Timed>, s: System) {
    && s.ledger.seen == Collect(received, ConnectIn(c))
    && Collect(s.ledger.records, PlainRecord) == Collect(received, PlainIn(c))
    && Collect(s.calls, ProcessedIn) == Collect(received, DatagramIn)
    && Collect(s.feed, PutIn) == Mapped(ObservationOf, s.ledger.records)
  }

  // ---------- The ledger's records ----------

  lemma OriginalStays(o: Observation, answer: Lookup)
    ensures Original(Resolve(o, answer)) == Original(o) && Original(Original(o)) == Original(o)
  {
  }

  lemma SweptRecords(l: Ledger, ds: seq<Decided>, reason: Reason)
    ensures var m := Swept(l, ds, reason);
            && l.records <= m.records && m.seen == l.seen
            && Collect(m.records, PlainRecord) == Collect(l.records, PlainRecord)
  {
    var more := Sift(ds, reason).records;
    SiftSources(ds, reason);
    forall i | 0 <= i < |more| ensures PlainRecord(more[i]).None? {
      assert IsConcluded(ds, reason, more[i]);
    }
    hide Sift, PlainRecord, Collect;
    CollectNone(more, PlainRecord);
    CollectConcat(l.records, more, PlainRecord);
  }

  lemma TakenRecords(l: Ledger, o: Observation, elapsed: Time)
    ensures var m := Taken(l, o, elapsed);
            && l.records <= m.records && m.seen == l.seen + [Original(o)]
            && Collect(m.records, PlainRecord) == Collect(l.records, PlainRecord)
  {
    SweptRecords(l, Superseding(l.pending, o.flow), TupleReused);
    var swept := Swept(l, Superseding(l.pending, o.flow), TupleReused);
    var last := Concluded(Item(o, elapsed + RESOLUTION_GRACE, 1), QueueFull);
    assert PlainRecord(last).None?;
    hide Swept, Superseding, PlainRecord, Collect, Concluded, Original;
    CollectOne(last, PlainRecord);
    CollectConcat(swept.records, [last], PlainRecord);
  }

  lemma PassedRecords(l: Ledger, o: Observation)
    ensures var m := Passed(l, o);
            && l.records <= m.records && m.seen == l.seen
            && Collect(m.records, PlainRecord) == Collect(l.records, PlainRecord) + [Original(o)]
  {
    assert PlainRecord(Plain(o)) == Some(Original(o));
    hide PlainRecord, Collect, Original;
    CollectOne(Plain(o), PlainRecord);
    CollectConcat(l.records, [Plain(o)], PlainRecord);
  }

  lemma MappedSuffix<A, B>(f: A -> B, s: seq<A>, n: nat)
    requires n <= |s|
    ensures Mapped(f, s) == Mapped(f, s[..n]) + Mapped(f, s[n..])
  {
  }

  /** Encoding puts exactly the new records to the stream. */
  lemma EncodedPuts(s: System, m: Ledger)
    requires s.ledger.records <= m.records && Collect(s.feed, PutIn) == Mapped(ObservationOf, s.ledger.records)
    ensures Collect(Encoding(s, m).feed, PutIn) == Mapped(ObservationOf, m.records)
  {
    var n := |s.ledger.records|;
    var added := m.records[n..];
    var puts := Puts(s.ledger, m);
    assert m.records[..n] == s.ledger.records;
    forall i | 0 <= i < |puts| ensures PutIn(puts[i]) == Some(Mapped(ObservationOf, added)[i]) {
    }
    hide Collect, PutIn, ObservationOf, Puts;
    CollectAll(puts, Mapped(ObservationOf, added), PutIn);
    CollectConcat(s.feed, puts, PutIn);
    MappedSuffix(ObservationOf, m.records, n);
  }

  // ---------- Each move ----------

  /** The read at the head of the pipe has its effect. */
  lemma HandlingAccounts(c: Config, received: seq<Timed>, s: System, t: Timed, answer: Lookup, elapsed: Time)
    requires Accounts(c, received, s)
    ensures Accounts(c, received + [t], Handling(c, s, t.event, t.at, answer, elapsed))
  {
    ReceivedMore(c, received, t);
    match t.event
    case FlowEvent(o, connect) => FlowAccounts(c, received, s, t, answer, elapsed);
    case DnsEvent(f) =>
      var call := DnsCorrelators.Process(f.(observedAt := t.at));
      hide Collect;
      CollectOne(call, ProcessedIn);
      CollectConcat(s.calls, [call], ProcessedIn);
    case _ =>
  }

  lemma ReceivedMore(c: Config, received: seq<Timed>, t: Timed)
    ensures Collect(received + [t], ConnectIn(c)) ==
            Collect(received, ConnectIn(c)) + (if IsEgressConnect(c, t) then [AsCaptured(t)] else [])
    ensures Collect(received + [t], PlainIn(c)) ==
            Collect(received, PlainIn(c)) + (if t.event.FlowEvent? && !IsEgressConnect(c, t) then [AsCaptured(t)] else [])
    ensures Collect(received + [t], DatagramIn) ==
            Collect(received, DatagramIn) + (if t.event.DnsEvent? then [t.event.f.(observedAt := t.at)] else [])
  {
    hide Collect, AsCaptured;
    CollectOne(t, ConnectIn(c));
    CollectConcat(received, [t], ConnectIn(c));
    CollectOne(t, PlainIn(c));
    CollectConcat(received, [t], PlainIn(c));
    CollectOne(t, DatagramIn);
    CollectConcat(received, [t], DatagramIn);
  }

  lemma ConnectAccounts(c: Config, received: seq<Timed>, s: System, t: Timed, o: Observation, elapsed: Time)
    requires Accounts(c, received, s) && IsEgressConnect(c, t) && Original(o) == AsCaptured(t)
    ensures Accounts(c, received + [t], Encoding(s, Taken(s.ledger, o, elapsed)))
  {
    hide Collect, Original, AsCaptured, Taken, Puts;
    ReceivedMore(c, received, t);
    TakenRecords(s.ledger, o, elapsed);
    EncodedPuts(s, Taken(s.ledger, o, elapsed));
  }

  lemma PlainAccounts(c: Config, received: seq<Timed>, s: System, t: Timed, o: Observation)
    requires Accounts(c, received, s) && t.event.FlowEvent? && !IsEgressConnect(c, t) && Original(o) == AsCaptured(t)
    ensures Accounts(c, received + [t], Encoding(s, Passed(s.ledger, o)))
  {
    hide Collect, Original, AsCaptured, Passed, Puts, IsEgressConnect;
    ReceivedMore(c, received, t);
    PassedRecords(s.ledger, o);
    EncodedPuts(s, Passed(s.ledger, o));
  }

  lemma FlowAccounts(c: Config, received: seq<Timed>, s: System, t: Timed, answer: Lookup, elapsed: Time)
    requires Accounts(c, received, s) && t.event.FlowEvent?
    ensures Accounts(c, received + [t], Handling(c, s, t.event, t.at, answer, elapsed))
  {
    var o := Observed(c, t.event.o, t.at, answer);
    OriginalStays(t.event.o.(observedAt := t.at), answer);
    OriginalStays(AsCaptured(t), answer);
    assert Original(o) == AsCaptured(t);
    hide Accounts, Original, Observed, AsCaptured, Encoding, Taken, Passed;
    if IsEgressConnect(c, t) {
      ConnectAccounts(c, received, s, t, o, elapsed);
    } else {
      PlainAccounts(c, received, s, t, o);
    }
  }

  lemma SweepAccounts(c: Config, received: seq<Timed>, s: System, ds: seq<Decided>, reason: Reason)
    requires Accounts(c, received, s)
    ensures Accounts(c, received, Encoding(s, Swept(s.ledger, ds, reason)))
  {
    hide Collect, Swept, Puts;
    SweptRecords(s.ledger, ds, reason);
    EncodedPuts(s, Swept(s.ledger, ds, reason));
  }

  lemma CallAccounts(c: Config, received: seq<Timed>, s: System, call: DnsCorrelators.Call)
    requires Accounts(c, received, s) && !call.Process?
    ensures Accounts(c, received, s.(calls := s.calls + [call]))
  {
    hide Collect;
    CollectOne(call, ProcessedIn);
    CollectConcat(s.calls, [call], ProcessedIn);
  }

  lemma MarkAccounts(c: Config, received: seq<Timed>, s: System, at: Time)
    requires Accounts(c, received, s)
    ensures Accounts(c, received, s.(feed := s.feed + [Mark(at)]))
  {
    hide Collect;
    CollectOne(Mark(at), PutIn);
    CollectConcat(s.feed, [Mark(at)], PutIn);
  }

  /** The reads accepted so far are those received, which had their effect, and those in the pipe. */
  ghost predicate Traced(c: Config, all: seq<Timed>, s: System) {
    && |s.pipe| <= |all| && s.pipe == all[|all| - |s.pipe|..]
    && Accounts(c, all[..|all| - |s.pipe|], s)
  }

  lemma PipeGrows(all: seq<Timed>, pipe: seq<Timed>, t: Timed)
    requires |pipe| <= |all| && pipe == all[|all| - |pipe|..]
    ensures pipe + [t] == (all + [t])[|all + [t]| - |pipe + [t]|..]
    ensures (all + [t])[..|all + [t]| - |pipe + [t]|] == all[..|all| - |pipe|]
  {
  }

  lemma PipeShrinks(all: seq<Timed>, pipe: seq<Timed>)
    requires |pipe| <= |all| && pipe == all[|all| - |pipe|..] && pipe != []
    ensures pipe[1..] == all[|all| - |pipe[1..]|..]
    ensures all[..|all| - |pipe[1..]|] == all[..|all| - |pipe|] + [pipe[0]]
  {
  }

  /** The moves that neither accept nor receive leave the pipe alone and lose nothing. */
  lemma OtherMoveTraced(c: Config, received: seq<Timed>, s: System, m: Move)
    requires Tracked(s) && Accounts(c, received, s) && !m.Accept? && !m.Receive?
    ensures Accounts(c, received, Step(c, s, m)) && Step(c, s, m).pipe == s.pipe
  {
    hide Accounts, Swept, RetryAll, Ending, FlushMark, Watermark, Puts;
    if Enabled(c, s, m) {
      match m
      case RetryTick(rs) =>
        SweepAccounts(c, received, s, RetryAll(s.ledger.pending, rs), RetryDeadline);
        SameAccounts(c, received, Encoding(s, Swept(s.ledger, RetryAll(s.ledger.pending, rs), RetryDeadline)), Step(c, s, m));
      case ExpireTick(at) =>
        var call := DnsCorrelators.Expire(Watermark(s.progress, at));
        CallAccounts(c, received, s, call);
        SameAccounts(c, received, s.(calls := s.calls + [call]), Step(c, s, m));
      case FlushTick(at) =>
        MarkAccounts(c, received, s, FlushMark(s, at));
        SameAccounts(c, received, s.(feed := s.feed + [Mark(FlushMark(s, at))]), Step(c, s, m));
      case End(at) => EndAccounts(c, received, s, at);
      case PumpStops => SameAccounts(c, received, s, Step(c, s, m));
      case StreamCloses => SameAccounts(c, received, s, Step(c, s, m));
      case Cancel(_) => SameAccounts(c, received, s, Step(c, s, m));
      case Join => SameAccounts(c, received, s, Step(c, s, m));
    }
  }

  lemma AcceptTraced(c: Config, all: seq<Timed>, s: System, read: Read, at: Time)
    requires Tracked(s) && Traced(c, all, s) && Enabled(c, s, Accept(read, at))
    ensures Traced(c, all + NewRead(c, s, Accept(read, at)), Accepting(c, s, read, at))
  {
    hide Accounts;
    PipeGrows(all, s.pipe, NewRead(c, s, Accept(read, at))[0]);
    SameAccounts(c, all[..|all| - |s.pipe|], s, Accepting(c, s, read, at));
  }

  lemma TraceOfStep(c: Config, all: seq<Timed>, s: System, m: Move)
    requires Tracked(s) && Traced(c, all, s)
    ensures Traced(c, all + NewRead(c, s, m), Step(c, s, m))
  {
    hide Accounts, Handling, Receiving, Accepting;
    if m.Accept? && Enabled(c, s, m) {
      AcceptTraced(c, all, s, m.read, m.at);
    } else {
      assert all + NewRead(c, s, m) == all;
      if m.Receive? && Enabled(c, s, m) {
        ReceiveTraced(c, all, s, m.answer, m.elapsed);
      } else if !m.Accept? && !m.Receive? {
        hide Step;
        OtherMoveTraced(c, all[..|all| - |s.pipe|], s, m);
      }
    }
  }

  lemma SameAccounts(c: Config, received: seq<Timed>, s: System, t: System)
    requires Accounts(c, received, s) && t.ledger == s.ledger && t.calls == s.calls && t.feed == s.feed
    ensures Accounts(c, received, t)
  {
  }

  lemma ReceiveTraced(c: Config, all: seq<Timed>, s: System, answer: Lookup, elapsed: Time)
    requires Tracked(s) && Traced(c, all, s) && s.pipe != []
    ensures Traced(c, all, Receiving(c, s, answer, elapsed))
  {
    hide Accounts, Handling, Tracked;
    assert s.progress.outstanding != [] by {
      OutstandingToo(s);
    }
    PipeShrinks(all, s.pipe);
    SameAccounts(c, all[..|all| - |s.pipe|], s, Popped(s));
    HandlingAccounts(c, all[..|all| - |s.pipe|], Popped(s), s.pipe[0], answer, elapsed);
    HandlingKeepsPipe(c, Popped(s), s.pipe[0], answer, elapsed);
  }

  lemma OutstandingToo(s: System)
    requires Tracked(s) && s.pipe != []
    ensures s.progress.outstanding != []
  {
    assert s.progress.outstanding[0] == s.pipe[0].at;
  }

  lemma HandlingKeepsPipe(c: Config, s: System, t: Timed, answer: Lookup, elapsed: Time)
    ensures Handling(c, s, t.event, t.at, answer, elapsed).pipe == s.pipe
  {
    hide Taken, Passed, Puts, Observed;
  }

  lemma EndAccounts(c: Config, received: seq<Timed>, s: System, at: Time)
    requires Tracked(s) && Accounts(c, received, s) && Enabled(c, s, End(at))
    ensures Accounts(c, received, Step(c, s, End(at)))
  {
    hide Accounts, Swept, Puts;
    var swept := Encoding(s, Swept(s.ledger, Ending(s.ledger.pending), CaptureEnded));
    SweepAccounts(c, received, s, Ending(s.ledger.pending), CaptureEnded);
    var call := DnsCorrelators.Finish(CaptureTime(Captures.Finished(s.progress, at), at));
    CallAccounts(c, received, swept, call);
    SameAccounts(c, received, swept.(calls := swept.calls + [call]), Step(c, s, End(at)));
  }

  /** In every run the reads the pump accepted are, in order, those received and those in the pipe; and
      the received ones all had their effect: each egress connect entered the ledger, each other flow
      event became a plain record, each datagram was processed, each record was put to the stream. */
  lemma {:induction false} EveryReadIsTraced(c: Config, moves: seq<Move>)
    ensures Traced(c, AcceptedReads(c, moves), Run(c, moves))
    decreases |moves|
  {
    if moves == [] {
      NothingTraced(c);
    } else {
      EveryReadIsTraced(c, moves[..|moves| - 1]);
      hide Traced, Step, NewRead;
      TraceOfStep(c, AcceptedReads(c, moves[..|moves| - 1]), Run(c, moves[..|moves| - 1]), moves[|moves| - 1]);
    }
  }

  lemma NothingTraced(c: Config)
    ensures Traced(c, [], START)
  {
  }

  /** The connects of one flow among those accepted, by the program's own filter. */
  function ConnectsOn(c: Config, all: seq<Timed>, flow: FlowKey): seq<Observation> {
    SeenOf(Collect(all, ConnectIn(c)), flow)
  }

  /** Pending connects are emitted exactly once: a run that has ended has recorded, flow by flow and in
      the order of acceptance, exactly the egress connects that the pump accepted, each with its
      original flow and capture time; and it has recorded every other flow event and processed every
      datagram that was accepted, in order. */
  lemma EveryAcceptedReadIsRecorded(c: Config, moves: seq<Move>, flow: FlowKey)
    requires Run(c, moves).phase == EventLoops.Finished
    ensures var s, all := Run(c, moves), AcceptedReads(c, moves);
            && Recorded(s.ledger.records, flow) == ConnectsOn(c, all, flow)
            && Collect(s.ledger.records, PlainRecord) == Collect(all, PlainIn(c))
            && Collect(s.calls, ProcessedIn) == Collect(all, DatagramIn)
            && Collect(s.feed, PutIn) == Mapped(ObservationOf, s.ledger.records)
  {
    EveryReadIsTraced(c, moves);
    FinishedIsComplete(c, moves, flow);
    var all := AcceptedReads(c, moves);
    assert all[..|all|] == all;
    hide Collect, Recorded, SeenOf;
  }
}
