/** The event loop (RunEventsWithOptions in internal/app/events.go) with its reader pump
    (pumpEvents in internal/app/event_stream.go), as interleaved steps over one wall clock. */
module EventLoops {
  import opened FlowTypes
  import opened Lists
  import opened Captures
  import opened Windows
  import opened Resolutions
  import DnsTypes
  import DnsCorrelators

  const CHANNEL_CAPACITY := 64

  datatype Config = Config(hasResolver: bool, maxEvents: nat)

  /** What a read delivers; a closed reader is the end of input only once the pump was told to stop. */
  datatype Read =
    | FlowEvent(o: Observation, connect: bool)
    | DnsEvent(f: DnsTypes.Fragment)
    | TypedEvent
    | EndOfInput
    | ReaderClosed
    | ReadFailed

  predicate IsError(r: Read) {
    r.EndOfInput? || r.ReaderClosed? || r.ReadFailed?
  }

  datatype Timed = Timed(event: Read, at: Time)

  datatype Phase = Ready | Expiring | Flushing | Joining | Finished

  /** What the aggregating stream is given: an observation, or a watermark to flush by. */
  datatype Feed = Put(o: Observation) | Mark(at: Time)

  datatype System = System(
    // The pump: pipe holds what was accepted and not received (the channel and the one in hand).
    progress: Progress,
    pipe: seq<Timed>,
    pumping: bool,
    stopping: bool,
    count: nat,
    // The loop.
    streaming: bool,
    cancelled: bool,
    phase: Phase,
    ledger: Ledger,
    feed: seq<Feed>,
    calls: seq<DnsCorrelators.Call>,
    // The latest wall clock reading by anyone.
    clock: Time)

  const START := System(NOT_STARTED, [], true, false, 0, true, false, Ready, EMPTY_LEDGER, [], [], 0)

  datatype Move =
    | Accept(read: Read, at: Time)
    | PumpStops
    | Receive(answer: Lookup, elapsed: Time)
    | StreamCloses
    | RetryTick(retries: seq<Retry>)
    | ExpireTick(at: Time)
    | FlushTick(at: Time)
    | Cancel(at: Time)
    | Join
    | End(at: Time)

  /** The loop goes round again. */
  predicate Looping(s: System) {
    s.phase == Ready && (s.streaming || s.ledger.pending != []) && !(s.cancelled && !s.streaming)
  }

  /** The moves the program can make next; the clock never goes back. An event without a capture
      time fails to convert, which aborts the run. */
  predicate Enabled(c: Config, s: System, m: Move) {
    match m
    case Accept(_, at) => s.pumping && at >= s.clock && |s.pipe| <= CHANNEL_CAPACITY
    case PumpStops => s.pumping && s.stopping
    case Receive(_, _) => Looping(s) && s.streaming && s.pipe != [] && (s.pipe[0].at != 0 || IsError(s.pipe[0].event))
    case StreamCloses => Looping(s) && s.streaming && s.pipe == [] && !s.pumping
    case RetryTick(rs) => Looping(s) && !s.cancelled && |rs| == |s.ledger.pending|
    case ExpireTick(at) => s.phase == Expiring && at >= s.clock
    case FlushTick(at) => s.phase == Flushing && at >= s.clock
    case Cancel(at) => Looping(s) && !s.cancelled && at >= s.clock
    case Join => s.phase == Joining && !s.pumping
    case End(at) => s.phase == Ready && !Looping(s) && at >= s.clock
  }

  /** The pump accepts a read, and stops after an error, the last event or a stop request. */
  function Accepting(c: Config, s: System, read: Read, at: Time): System {
    var event := if read.ReaderClosed? then (if s.stopping then EndOfInput else ReadFailed) else read;
    var terminal := IsError(read) || (c.maxEvents > 0 && s.count + 1 == c.maxEvents);
    s.(progress := Accepted(s.progress, at, terminal), pipe := s.pipe + [Timed(event, at)],
       pumping := !terminal && !s.stopping, count := s.count + 1, clock := at)
  }

  /** The records a step added, as the stream sees them. */
  function Puts(base: Ledger, l: Ledger): seq<Feed> {
    if |base.records| <= |l.records| then Mapped(PutOf, l.records[|base.records|..]) else []
  }

  function PutOf(r: Record): Feed {
    Put(r.observation)
  }

  function Encoding(s: System, l: Ledger): System {
    s.(ledger := l, feed := s.feed + Puts(s.ledger, l))
  }

  /** A flow event as an observation: captured at `at`, and looked up once. */
  function Observed(c: Config, o: Observation, at: Time, answer: Lookup): Observation {
    var raw := Original(o.(observedAt := at));
    if c.hasResolver then Resolve(raw, answer) else raw
  }

  function Handling(c: Config, s: System, event: Read, at: Time, answer: Lookup, elapsed: Time): System {
    match event
    case FlowEvent(o, connect) =>
      var observation := Observed(c, o, at, answer);
      if c.hasResolver && connect && o.flow.direction == "egress"
      then Encoding(s, Taken(s.ledger, observation, elapsed))
      else Encoding(s, Passed(s.ledger, observation))
    case DnsEvent(f) => s.(calls := s.calls + [DnsCorrelators.Process(f.(observedAt := at))])
    case TypedEvent => s
    case _ => s.(streaming := false)
  }

  function Receiving(c: Config, s: System, answer: Lookup, elapsed: Time): System
    requires s.pipe != [] && s.progress.outstanding != []
  {
    Handling(c, s.(pipe := s.pipe[1..], progress := Consumed(s.progress)),
             s.pipe[0].event, s.pipe[0].at, answer, elapsed)
  }

  /** The watermark to flush by: held back further by connects that wait. */
  function FlushMark(s: System, at: Time): Time {
    Least(Watermark(s.progress, at), Mapped(ObservedAt, s.ledger.pending))
  }

  function ObservedAt(item: Item): Time {
    item.observation.observedAt
  }

  function Next(c: Config, s: System, m: Move): System
    requires Enabled(c, s, m) && Tracked(s)
  {
    match m
    case Accept(read, at) => Accepting(c, s, read, at)
    case PumpStops => s.(pumping := false)
    case Receive(answer, elapsed) => Receiving(c, s, answer, elapsed)
    case StreamCloses => s.(streaming := false)
    case RetryTick(rs) =>
      Encoding(s, Swept(s.ledger, RetryAll(s.ledger.pending, rs), RetryDeadline)).(phase := Expiring)
    case ExpireTick(at) =>
      s.(calls := s.calls + [DnsCorrelators.Expire(Watermark(s.progress, at))], phase := Flushing, clock := at)
    case FlushTick(at) => s.(feed := s.feed + [Mark(FlushMark(s, at))], phase := Ready, clock := at)
    case Cancel(at) => s.(progress := Captures.Finished(s.progress, at), stopping := true, phase := Joining, clock := at)
    case Join => s.(streaming := true, cancelled := true, phase := Ready)
    case End(at) =>
      var swept := Encoding(s, Swept(s.ledger, Ending(s.ledger.pending), CaptureEnded));
      var ended := Captures.Finished(s.progress, at);
      swept.(progress := ended, calls := s.calls + [DnsCorrelators.Finish(CaptureTime(ended, at))],
             phase := Finished, clock := at)
  }

  /** Moves that are not possible leave the system as it is. */
  function Step(c: Config, s: System, m: Move): System
    requires Tracked(s)
  {
    if Enabled(c, s, m) then Next(c, s, m) else s
  }

  function Run(c: Config, moves: seq<Move>): (s: System)
    ensures Tracked(s)
  {
    if moves == [] then START
    else
      var s := Run(c, moves[..|moves| - 1]);
      StepTracks(c, s, moves[|moves| - 1]);
      Step(c, s, moves[|moves| - 1])
  }

  // ---------- The progress tracks the pipe ----------

  function TimeOf(t: Timed): Time {
    t.at
  }

  /** Exactly the reads in the pipe are outstanding, in order: consume never runs dry. */
  predicate Tracked(s: System) {
    s.progress.outstanding == Mapped(TimeOf, s.pipe)
  }

  lemma StepTracks(c: Config, s: System, m: Move)
    requires Tracked(s)
    ensures Tracked(Step(c, s, m))
  {
    hide Puts, Swept, Taken, Passed, Observed, FlushMark, Watermark, RetryAll, Ending;
    if Enabled(c, s, m) {
      match m
      case Accept(read, at) =>
        assert Mapped(TimeOf, Accepting(c, s, read, at).pipe) == Mapped(TimeOf, s.pipe) + [at];
      case Receive(answer, elapsed) =>
        assert Mapped(TimeOf, s.pipe[1..]) == Mapped(TimeOf, s.pipe)[1..];
      case _ =>
    }
  }
}
