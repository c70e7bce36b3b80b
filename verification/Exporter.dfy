/** The bounded exporter (internal/tagcount/exporter.go, export_events.go): producers, one worker and
    Close as interleaved atomic steps, over a sender that behaves as Clients.Client.Send. */
module Exporters {
  import opened Base
  import opened Clients

  /** A pack; its record identity, if any, is completed by the ordinal of the attempt to queue it. */
  datatype Pack = Pack(recordId: string, ordinal: Option<nat>, body: seq<byte>)

  datatype Error = SendFailed(delivery: Delivery) | SenderCloseFailed

  /** What building a pack from a record gives; the skips are for windows only. */
  datatype Built = Packed(recordId: string, body: seq<byte>) | SkipPartial | SkipUnmeasured | SkipIncompleteTuple | BuildFailed

  datatype Reply = Taken | Skipped | Closed | AlreadyFailed | WrongNode | Rejected

  datatype Summary = Summary(
    queued: nat, written: nat, failed: nat, dropped: nat,
    skippedPartial: nat, skippedUnmeasured: nat, skippedIncompleteTuple: nat)

  /** Where the worker is: waiting for the queue, holding a pack it took, sending it, about to record
      the result, about to report a failure, or stopped. */
  datatype Worker =
    | Waiting
    | Holding(pack: Pack)
    | Sending(sending: Pack)
    | Recording(delivery: Delivery)
    | Failing(failure: Delivery)
    | Stopped

  datatype State = State(
    queue: seq<Pack>, closing: bool, cancelled: bool, errors: seq<Error>, senderClosed: bool, summary: Summary, worker: Worker)

  const START := State([], false, false, [], false, Summary(0, 0, 0, 0, 0, 0, 0), Waiting)

  /** enqueueLocked's ordinal: dropped attempts count too. */
  function Stamped(s: State, recordId: string, body: seq<byte>): Pack {
    Pack(recordId, if recordId != "" then Some(s.summary.queued + s.summary.dropped + 1) else None, body)
  }

  function Enqueued(capacity: nat, s: State, p: Pack): State {
    if |s.queue| < capacity
    then s.(queue := s.queue + [p], summary := s.summary.(queued := s.summary.queued + 1))
    else s.(summary := s.summary.(dropped := s.summary.dropped + 1))
  }

  datatype Exported = Exported(state: State, reply: Reply)

  /** Export and exportEvent, whose whole body holds the lock. */
  function Export(capacity: nat, s: State, ownNode: bool, built: Built): Exported {
    if s.closing then Exported(s, Closed)
    else if s.errors != [] then Exported(s, AlreadyFailed)
    else if !ownNode then Exported(s, WrongNode)
    else
      match built
      case Packed(recordId, body) => Exported(Enqueued(capacity, s, Stamped(s, recordId, body)), Taken)
      case SkipPartial => Exported(s.(summary := s.summary.(skippedPartial := s.summary.skippedPartial + 1)), Skipped)
      case SkipUnmeasured => Exported(s.(summary := s.summary.(skippedUnmeasured := s.summary.skippedUnmeasured + 1)), Skipped)
      case SkipIncompleteTuple =>
        Exported(s.(summary := s.summary.(skippedIncompleteTuple := s.summary.skippedIncompleteTuple + 1)), Skipped)
      case BuildFailed => Exported(s, Rejected)
  }

  /** Snapshot's Pending. */
  function PendingCount(s: State): int {
    s.summary.queued - s.summary.written - s.summary.failed
  }

  datatype Move =
    | Produce(ownNode: bool, built: Built)
    | Take
    | Check
    | Return(delivery: Delivery, carried: Traffic)
    | Record
    | Report
    | QueueEnds
    | BeginClose
    | DrainTimeout
    | CloseFails

  predicate Enabled(s: State, m: Move) {
    match m
    case Produce(_, _) => true
    case Take => s.worker == Waiting && s.queue != []
    case Check => s.worker.Holding?
    case Return(_, _) => s.worker.Sending?
    case Record => s.worker.Recording?
    case Report => s.worker.Failing?
    case QueueEnds => s.worker == Waiting && s.queue == [] && s.closing
    case BeginClose => !s.closing
    case DrainTimeout => s.closing && !s.cancelled
    case CloseFails => (s.cancelled || s.worker == Stopped) && !s.senderClosed
  }

  function Recorded(s: State, delivery: Delivery): State {
    if delivery == Sent
    then s.(summary := s.summary.(written := s.summary.written + 1), worker := Waiting)
    else s.(summary := s.summary.(failed := s.summary.failed + 1), worker := Failing(delivery))
  }

  function Next(capacity: nat, s: State, m: Move): State
    requires Enabled(s, m)
  {
    match m
    case Produce(ownNode, built) => Export(capacity, s, ownNode, built).state
    case Take => s.(queue := s.queue[1..], worker := Holding(s.queue[0]))
    case Check => s.(worker := if s.cancelled then Stopped else Sending(s.worker.pack))
    case Return(delivery, _) => s.(worker := Recording(delivery))
    case Record => Recorded(s, s.worker.delivery)
    case Report => s.(errors := s.errors + [SendFailed(s.worker.failure)], worker := Stopped)
    case QueueEnds => s.(worker := Stopped)
    case BeginClose => s.(closing := true)
    case DrainTimeout => s.(cancelled := true)
    case CloseFails => s.(errors := s.errors + [SenderCloseFailed], senderClosed := true)
  }

  // ---------- Runs ----------

  datatype Setup = Setup(capacity: nat, framing: Framing)

  /** The frame attempted for the at-th send: the calls of one writeAll on one connection. */
  datatype Attempt = Attempt(at: nat, session: nat, calls: Traffic)

  /** A run: the state, every pack queued, the packs passed to Send with what it returned, the pack
      thrown away when a cancelled worker stops, everything the network was asked to carry, and the
      frames found in it. */
  datatype History = History(
    state: State, accepted: seq<Pack>, sends: seq<Pack>, returned: seq<Delivery>, discarded: seq<Pack>,
    traffic: Traffic, frames: seq<Attempt>)

  const NOTHING_YET := History(START, [], [], [], [], [], [])

  /** Send returns only what the client's contract allows for the traffic it has caused. */
  ghost predicate Possible(e: Setup, h: History, m: Move) {
    && Enabled(h.state, m)
    && (m.Return? ==> Means(e.framing, m.delivery, Some(h.state.worker.sending.body), h.traffic, m.carried))
  }

  /** The frame that a delivery added to the traffic. */
  ghost predicate Adds(e: Setup, h: History, delivery: Delivery, carried: Traffic, a: Attempt)
    requires h.state.worker.Sending?
  {
    && a.at == |h.returned|
    && OneFrame(e.framing, a.session, h.state.worker.sending.body, a.calls, h.traffic, carried)
    && (delivery == Sent ==> AllFine(a.calls))
  }

  lemma AddsSome(e: Setup, h: History, delivery: Delivery, carried: Traffic)
    requires Possible(e, h, Return(delivery, carried)) && delivery != NotSent
    ensures exists a :: Adds(e, h, delivery, carried, a)
  {
    var s: nat, calls :| OneFrame(e.framing, s, h.state.worker.sending.body, calls, h.traffic, carried)
                         && (delivery == Sent ==> AllFine(calls));
    assert Adds(e, h, delivery, carried, Attempt(|h.returned|, s, calls));
  }

  /** What a move adds to the history. */
  ghost function Step(e: Setup, h: History, m: Move): History {
    var s := h.state;
    if !Possible(e, h, m) then h
    else
      var t := Next(e.capacity, s, m);
      match m
      case Produce(_, Packed(recordId, body)) =>
        if t.summary.queued > s.summary.queued
        then h.(state := t, accepted := h.accepted + [Stamped(s, recordId, body)])
        else h.(state := t)
      case Check =>
        if s.cancelled then h.(state := t, discarded := h.discarded + [s.worker.pack])
        else h.(state := t, sends := h.sends + [s.worker.pack])
      case Return(delivery, carried) =>
        var g := h.(state := t, returned := h.returned + [delivery], traffic := carried);
        if delivery == NotSent then g
        else
          AddsSome(e, h, delivery, carried);
          var a :| Adds(e, h, delivery, carried, a);
          g.(frames := h.frames + [a])
      case _ => h.(state := t)
  }

  ghost function Run(e: Setup, moves: seq<Move>): History {
    if moves == [] then NOTHING_YET
    else Step(e, Run(e, moves[..|moves| - 1]), moves[|moves| - 1])
  }

  /** The pack that was taken and not passed to Send. */
  function InHand(h: History): seq<Pack> {
    if h.state.worker.Holding? then [h.state.worker.pack] else h.discarded
  }

  /** Packs pass from the queue through the worker's hand to Send, in order. */
  ghost predicate InOrder(h: History) {
    && h.accepted == h.sends + InHand(h) + h.state.queue
    && |h.discarded| <= 1 && (h.discarded != [] ==> h.state.worker == Stopped)
    && (h.state.worker.Sending? ==> |h.sends| > 0 && h.state.worker.sending == h.sends[|h.sends| - 1])
  }

  lemma MovePart<T>(a: seq<T>, x: T, b: seq<T>)
    ensures a + [] + ([x] + b) == a + [x] + b
    ensures a + [x] + b == (a + [x]) + [] + b
  {
  }

  lemma AddPart<T>(a: seq<T>, b: seq<T>, c: seq<T>, x: T)
    ensures (a + b + c) + [x] == a + b + (c + [x])
  {
  }

  lemma TakeInOrder(e: Setup, h: History)
    requires InOrder(h) && Enabled(h.state, Take)
    ensures InOrder(Step(e, h, Take))
  {
    var q := h.state.queue;
    assert q == [q[0]] + q[1..];
    MovePart(h.sends, q[0], q[1..]);
  }

  lemma CheckInOrder(e: Setup, h: History)
    requires InOrder(h) && Enabled(h.state, Check)
    ensures InOrder(Step(e, h, Check))
  {
    MovePart(h.sends, h.state.worker.pack, h.state.queue);
  }

  lemma ProduceInOrder(e: Setup, h: History, ownNode: bool, built: Built)
    requires InOrder(h)
    ensures InOrder(Step(e, h, Produce(ownNode, built)))
  {
    if built.Packed? {
      AddPart(h.sends, InHand(h), h.state.queue, Stamped(h.state, built.recordId, built.body));
    }
  }

  lemma InOrderStep(e: Setup, h: History, m: Move)
    requires InOrder(h)
    ensures InOrder(Step(e, h, m))
  {
    if Enabled(h.state, m) {
      match m
      case Produce(ownNode, built) => ProduceInOrder(e, h, ownNode, built);
      case Take => TakeInOrder(e, h);
      case Check => CheckInOrder(e, h);
      case _ =>
    }
  }

  /** All sends but the last have succeeded; a failure is the last one and ends the worker. */
  ghost predicate FailsLast(h: History) {
    && |h.returned| == |h.sends| - (if h.state.worker.Sending? then 1 else 0)
    && (forall i :: 0 <= i < |h.returned| - 1 ==> h.returned[i] == Sent)
    && (|h.returned| > 0 && h.returned[|h.returned| - 1] != Sent ==>
          h.state.worker == Stopped || h.state.worker == Failing(h.returned[|h.returned| - 1])
          || h.state.worker == Recording(h.returned[|h.returned| - 1]))
    && (h.state.worker.Recording? ==> |h.returned| > 0 && h.returned[|h.returned| - 1] == h.state.worker.delivery)
    && (h.state.worker.Failing? ==> |h.returned| > 0 && h.returned[|h.returned| - 1] == h.state.worker.failure != Sent)
  }

  lemma FailsLastStep(e: Setup, h: History, m: Move)
    requires FailsLast(h)
    ensures FailsLast(Step(e, h, m))
  {
  }

  /** How many of the results were of this kind. */
  function Results(returned: seq<Delivery>, sent: bool): nat {
    if returned == [] then 0
    else Results(returned[..|returned| - 1], sent) + (if (returned[|returned| - 1] == Sent) == sent then 1 else 0)
  }

  /** The results the worker has recorded so far. */
  function RecordedResults(h: History): seq<Delivery> {
    if h.state.worker.Recording? && h.returned != [] then h.returned[..|h.returned| - 1] else h.returned
  }

  /** The counters count what happened. */
  ghost predicate Counts(h: History) {
    && h.state.summary.queued == |h.accepted|
    && h.state.summary.written == Results(RecordedResults(h), true)
    && h.state.summary.failed == Results(RecordedResults(h), false)
  }

  lemma ReturnCounts(e: Setup, h: History, delivery: Delivery, carried: Traffic)
    requires Counts(h) && FailsLast(h) && h.state.worker.Sending?
    ensures Counts(Step(e, h, Return(delivery, carried)))
  {
    assert (h.returned + [delivery])[..|h.returned|] == h.returned;
  }

  lemma RecordCounts(e: Setup, h: History)
    requires Counts(h) && FailsLast(h) && h.state.worker.Recording?
    ensures Counts(Step(e, h, Record))
  {
  }

  lemma CountsStep(e: Setup, h: History, m: Move)
    requires Counts(h) && FailsLast(h)
    ensures Counts(Step(e, h, m))
  {
    hide Results, FailsLast;
    if Enabled(h.state, m) {
      match m
      case Return(delivery, carried) => ReturnCounts(e, h, delivery, carried);
      case Record => RecordCounts(e, h);
      case _ =>
    }
  }

  lemma {:induction false} ResultsAddUp(returned: seq<Delivery>)
    ensures Results(returned, true) + Results(returned, false) == |returned|
    decreases |returned|
  {
    if returned != [] {
      ResultsAddUp(returned[..|returned| - 1]);
    }
  }

  /** A data frame was attempted for exactly the sends that did not report NotSent, once each, in order. */
  ghost predicate AttemptedOnce(h: History) {
    && (forall i, j :: 0 <= i < j < |h.frames| ==> h.frames[i].at < h.frames[j].at)
    && (forall i :: 0 <= i < |h.frames| ==> h.frames[i].at < |h.returned| && h.returned[h.frames[i].at] != NotSent)
    && (forall p: nat :: p < |h.returned| && h.returned[p] != NotSent ==> HasFrame(h.frames, p))
  }

  ghost predicate HasFrame(frames: seq<Attempt>, p: nat) {
    exists i :: 0 <= i < |frames| && frames[i].at == p
  }

  lemma HasFrameLater(frames: seq<Attempt>, a: Attempt, p: nat)
    ensures HasFrame(frames + [a], p) <==> HasFrame(frames, p) || a.at == p
  {
    var more := frames + [a];
    if HasFrame(frames, p) {
      var i :| 0 <= i < |frames| && frames[i].at == p;
      assert more[i].at == p;
    }
    assert more[|frames|] == a;
  }

  lemma AttemptedOnceStep(e: Setup, h: History, m: Move)
    requires AttemptedOnce(h)
    ensures AttemptedOnce(Step(e, h, m))
  {
    if Possible(e, h, m) && m.Return? {
      var t := Step(e, h, m);
      forall p: nat | p < |t.returned| && t.returned[p] != NotSent ensures HasFrame(t.frames, p) {
        if m.delivery != NotSent {
          HasFrameLater(h.frames, t.frames[|h.frames|], p);
        }
      }
    }
  }

  /** The calls of the frames, one frame after the other. */
  function Calls(frames: seq<Attempt>): Traffic {
    if frames == [] then [] else Calls(frames[..|frames| - 1]) + frames[|frames| - 1].calls
  }

  /** Each frame is one writeAll of the frame of its own pack, all taken if Send reported success. */
  ghost predicate FrameOfPack(e: Setup, h: History, a: Attempt) {
    && a.at < |h.returned| <= |h.sends| && IsFrameOf(e, a, h.sends)
    && (h.returned[a.at] == Sent ==> AllFine(a.calls))
  }

  /** The network carried these frames and nothing else; a connection that failed carried no later one. */
  ghost predicate CarriesFrames(e: Setup, h: History) {
    && h.traffic == Calls(h.frames)
    && (forall i :: 0 <= i < |h.frames| ==> FrameOfPack(e, h, h.frames[i]))
    && (forall i, j :: 0 <= i < j < |h.frames| && h.frames[i].session == h.frames[j].session ==> AllFine(h.frames[i].calls))
  }

  lemma CallsSnoc(frames: seq<Attempt>, a: Attempt)
    ensures Calls(frames + [a]) == Calls(frames) + a.calls
  {
    assert (frames + [a])[..|frames|] == frames;
  }

  /** On a clean connection all earlier frames were taken. */
  lemma {:induction false} CleanMeansFine(frames: seq<Attempt>, s: nat, i: nat)
    requires i < |frames| && frames[i].session == s && CleanOn(Calls(frames), s)
    requires forall c :: c in frames[i].calls ==> c.session == s
    ensures AllFine(frames[i].calls)
    decreases |frames|
  {
    var n := |frames| - 1;
    var before, last := Calls(frames[..n]), frames[n].calls;
    assert forall j :: 0 <= j < |before| ==> (before + last)[j] == before[j];
    assert forall j :: 0 <= j < |last| ==> (before + last)[|before| + j] == last[j];
    if i < n {
      CleanMeansFine(frames[..n], s, i);
    }
  }

  lemma FramesStay(e: Setup, h: History, t: History)
    requires CarriesFrames(e, h) && t.frames == h.frames && t.traffic == h.traffic
    requires h.returned <= t.returned && h.sends <= t.sends && |t.returned| <= |t.sends|
    ensures CarriesFrames(e, t)
  {
    forall i | 0 <= i < |t.frames| ensures FrameOfPack(e, t, t.frames[i]) {
      assert FrameOfPack(e, h, h.frames[i]);
    }
  }

  lemma FrameAdded(e: Setup, h: History, delivery: Delivery, carried: Traffic, a: Attempt)
    requires CarriesFrames(e, h) && h.state.worker.Sending? && Adds(e, h, delivery, carried, a)
    requires |h.returned| == |h.sends| - 1 && h.state.worker.sending == h.sends[|h.sends| - 1]
    ensures CarriesFrames(e, h.(returned := h.returned + [delivery], traffic := carried, frames := h.frames + [a]))
  {
    var t := h.(returned := h.returned + [delivery], traffic := carried, frames := h.frames + [a]);
    CallsSnoc(h.frames, a);
    forall i | 0 <= i < |t.frames| ensures FrameOfPack(e, t, t.frames[i]) {
      if i < |h.frames| {
        assert FrameOfPack(e, h, h.frames[i]);
      }
    }
    forall i | 0 <= i < |h.frames| && h.frames[i].session == a.session ensures AllFine(h.frames[i].calls) {
      assert FrameOfPack(e, h, h.frames[i]);
      OneSession(h.frames[i].calls, a.session, e.framing(a.session, h.sends[h.frames[i].at].body));
      CleanMeansFine(h.frames, a.session, i);
    }
  }

  lemma CarriesStep(e: Setup, h: History, m: Move)
    requires CarriesFrames(e, h) && FailsLast(h) && InOrder(h)
    ensures CarriesFrames(e, Step(e, h, m))
  {
    var t := Step(e, h, m);
    hide CarriesFrames;
    if Possible(e, h, m) && m.Return? && m.delivery != NotSent {
      var a := t.frames[|h.frames|];
      FrameAdded(e, h, m.delivery, m.carried, a);
      FramesStay(e, h.(returned := h.returned + [m.delivery], traffic := m.carried, frames := h.frames + [a]), t);
    } else {
      FramesStay(e, h, t);
    }
  }

  /** Ordinals grow along the accepted packs and stay below the next one. */
  ghost predicate OrdinalsGrow(h: History) {
    && (forall i, j :: 0 <= i < j < |h.accepted| && h.accepted[i].ordinal.Some? && h.accepted[j].ordinal.Some? ==>
          h.accepted[i].ordinal.value < h.accepted[j].ordinal.value)
    && (forall i :: 0 <= i < |h.accepted| && h.accepted[i].ordinal.Some? ==>
          h.accepted[i].ordinal.value <= h.state.summary.queued + h.state.summary.dropped)
  }

  lemma OrdinalsStep(e: Setup, h: History, m: Move)
    requires OrdinalsGrow(h)
    ensures OrdinalsGrow(Step(e, h, m))
  {
  }

  ghost predicate Sound(e: Setup, h: History) {
    && InOrder(h) && FailsLast(h) && Counts(h) && AttemptedOnce(h) && CarriesFrames(e, h) && OrdinalsGrow(h)
    && |h.state.queue| <= e.capacity
  }

  lemma {:induction false} RunSound(e: Setup, moves: seq<Move>)
    ensures Sound(e, Run(e, moves))
    decreases |moves|
  {
    if moves != [] {
      var h, m := Run(e, moves[..|moves| - 1]), moves[|moves| - 1];
      RunSound(e, moves[..|moves| - 1]);
      QueueBounded(e, h, m);
      hide InOrder, FailsLast, Counts, AttemptedOnce, CarriesFrames, OrdinalsGrow, Step;
      InOrderStep(e, h, m);
      FailsLastStep(e, h, m);
      CountsStep(e, h, m);
      AttemptedOnceStep(e, h, m);
      CarriesStep(e, h, m);
      OrdinalsStep(e, h, m);
    }
  }

  lemma QueueBounded(e: Setup, h: History, m: Move)
    requires |h.state.queue| <= e.capacity
    ensures |Step(e, h, m).state.queue| <= e.capacity
  {
  }

  /** At-most-once delivery, over every interleaving of producers, worker and Close: Send is called in
      order on a prefix of the queued packs; a pack has at most one data-frame write attempt, and has
      one exactly if Send did not report a plain error; nothing follows a failed send; and ordinals
      grow strictly. */
  lemma DeliversAtMostOnce(e: Setup, moves: seq<Move>)
    ensures var h := Run(e, moves);
            && h.sends <= h.accepted
            && AttemptedOnce(h) && CarriesFrames(e, h) && OrdinalsGrow(h)
            && |h.returned| <= |h.sends| <= |h.returned| + 1
            && (forall i :: 0 <= i < |h.sends| - 1 ==> i < |h.returned| && h.returned[i] == Sent)
  {
    RunSound(e, moves);
    var h := Run(e, moves);
    hide Run, Counts, AttemptedOnce, CarriesFrames, OrdinalsGrow;
    FrontOf(h.sends, InHand(h), h.state.queue);
    EarlierSucceeded(h);
  }

  lemma FrontOf<T>(a: seq<T>, b: seq<T>, c: seq<T>)
    ensures a <= a + b + c
  {
  }

  lemma EarlierSucceeded(h: History)
    requires FailsLast(h)
    ensures |h.returned| <= |h.sends| <= |h.returned| + 1
    ensures forall i :: 0 <= i < |h.sends| - 1 ==> i < |h.returned| && h.returned[i] == Sent
  {
  }

  /** What the frames put on one connection. */
  function PartsOn(frames: seq<Attempt>, session: nat): seq<byte> {
    if frames == [] then []
    else
      var n := |frames| - 1;
      PartsOn(frames[..n], session) + (if frames[n].session == session then StreamOn(frames[n].calls, session) else [])
  }

  /** So every connection carries, one after the other, the parts of its frames. */
  lemma {:induction false} ConnectionsCarryFrames(e: Setup, frames: seq<Attempt>, sends: seq<Pack>, session: nat)
    requires forall i :: 0 <= i < |frames| ==> IsFrameOf(e, frames[i], sends)
    ensures StreamOn(Calls(frames), session) == PartsOn(frames, session)
    decreases |frames|
  {
    if frames != [] {
      var n := |frames| - 1;
      hide IsFrameOf, StreamOn;
      ConnectionsCarryFrames(e, frames[..n], sends, session);
      assert IsFrameOf(e, frames[n], sends);
      StreamConcat(Calls(frames[..n]), frames[n].calls, session);
      FramePart(e, frames[n], sends);
      assert frames[n].session != session ==> StreamOn(frames[n].calls, session) == [];
    } else {
      assert Calls(frames) == [];
    }
  }

  predicate IsFrameOf(e: Setup, a: Attempt, sends: seq<Pack>) {
    a.at < |sends| && IsWriteAll(a.calls, a.session, e.framing(a.session, sends[a.at].body))
  }

  /** A frame puts a prefix of its pack's own frame on its connection, and all of it when it was taken. */
  lemma FramePart(e: Setup, a: Attempt, sends: seq<Pack>)
    requires IsFrameOf(e, a, sends)
    ensures var frame, part := e.framing(a.session, sends[a.at].body), StreamOn(a.calls, a.session);
            part <= frame && (AllFine(a.calls) ==> part == frame)
    ensures forall t: nat :: t != a.session ==> StreamOn(a.calls, t) == []
  {
    WriteAllCarries(a.calls, a.session, e.framing(a.session, sends[a.at].body));
  }

  /** Exact accounting: the packs queued and neither written nor failed are those in the queue, the
      one the worker holds or threw away, and the one being sent or whose result is unrecorded. */
  lemma PendingIsExact(e: Setup, moves: seq<Move>)
    ensures var h := Run(e, moves);
            PendingCount(h.state) == |h.state.queue| + |InHand(h)|
                                     + (if h.state.worker.Sending? || h.state.worker.Recording? then 1 else 0)
  {
    RunSound(e, moves);
    var h := Run(e, moves);
    ResultsAddUp(RecordedResults(h));
  }

  /** After Close has begun nothing is queued any more: the closed queue is never sent to. */
  lemma NothingQueuedAfterClose(e: Setup, h: History, m: Move)
    requires h.state.closing
    ensures var t := Step(e, h, m); t.state.closing && t.accepted == h.accepted && |t.state.queue| <= |h.state.queue|
  {
  }

  // ---------- The exporter object: each method is one critical section or one worker step ----------

  class Exporter {
    const capacity: nat
    const sender: Client
    var queue: seq<Pack>
    var closing: bool
    var cancelled: bool
    var errors: seq<Error>
    var senderClosed: bool
    var summary: Summary
    var worker: Worker

    constructor (sender: Client, capacity: nat)
      ensures View() == START && this.capacity == capacity && this.sender == sender
    {
      this.sender, this.capacity := sender, capacity;
      queue, closing, cancelled, errors, senderClosed := [], false, false, [], false;
      summary, worker := Summary(0, 0, 0, 0, 0, 0, 0), Waiting;
    }

    ghost function View(): State
      reads this
    {
      State(queue, closing, cancelled, errors, senderClosed, summary, worker)
    }

    /** enqueueLocked. */
    method Enqueue(recordId: string, body: seq<byte>)
      modifies this`queue, this`summary
      ensures View() == Enqueued(capacity, old(View()), Stamped(old(View()), recordId, body))
    {
      var ordinal := None;
      if recordId != "" {
        ordinal := Some(summary.queued + summary.dropped + 1);
      }
      if |queue| < capacity {
        queue := queue + [Pack(recordId, ordinal, body)];
        summary := summary.(queued := summary.queued + 1);
      } else {
        summary := summary.(dropped := summary.dropped + 1);
      }
    }

    method Produce(ownNode: bool, built: Built) returns (reply: Reply)
      modifies this`queue, this`summary
      ensures Exported(View(), reply) == Export(capacity, old(View()), ownNode, built)
    {
      if closing {
        return Closed;
      }
      if errors != [] {
        return AlreadyFailed;
      }
      if !ownNode {
        return WrongNode;
      }
      match built {
        case SkipPartial =>
          summary := summary.(skippedPartial := summary.skippedPartial + 1);
          return Skipped;
        case SkipUnmeasured =>
          summary := summary.(skippedUnmeasured := summary.skippedUnmeasured + 1);
          return Skipped;
        case SkipIncompleteTuple =>
          summary := summary.(skippedIncompleteTuple := summary.skippedIncompleteTuple + 1);
          return Skipped;
        case BuildFailed =>
          return Rejected;
        case Packed(recordId, body) =>
          Enqueue(recordId, body);
          return Taken;
      }
    }

    /** The worker receives from the queue. */
    method Take()
      requires Enabled(View(), Move.Take)
      modifies this`queue, this`worker
      ensures View() == Next(capacity, old(View()), Move.Take)
    {
      worker := Holding(queue[0]);
      queue := queue[1..];
    }

    /** The worker looks at its context; a cancelled one gives the pack up. */
    method Check()
      requires Enabled(View(), Move.Check)
      modifies this`worker
      ensures View() == Next(capacity, old(View()), Move.Check)
    {
      worker := if cancelled then Stopped else Sending(worker.pack);
    }

    /** The worker sends: what it is told is what happened on the wire. */
    method Deliver() returns (delivery: Delivery)
      requires worker.Sending? && sender.Valid()
      modifies this`worker, sender, sender.world
      ensures sender.Valid() && View() == Next(capacity, old(View()), Return(delivery, sender.world.traffic))
      ensures Means(sender.frameOf, delivery, Some(old(worker.sending.body)), old(sender.world.traffic), sender.world.traffic)
    {
      delivery := sender.Send(Some(worker.sending.body));
      worker := Recording(delivery);
    }

    method Record()
      requires Enabled(View(), Move.Record)
      modifies this`summary, this`worker
      ensures View() == Next(capacity, old(View()), Move.Record)
    {
      var delivery := worker.delivery;
      if delivery != Sent {
        summary := summary.(failed := summary.failed + 1);
        worker := Failing(delivery);
      } else {
        summary := summary.(written := summary.written + 1);
        worker := Waiting;
      }
    }

    /** fail, and leave the loop. */
    method Fail()
      requires Enabled(View(), Report)
      modifies this`errors, this`worker
      ensures View() == Next(capacity, old(View()), Report)
    {
      errors := errors + [SendFailed(worker.failure)];
      worker := Stopped;
    }

    /** The first part of Close. */
    method BeginClose()
      requires Enabled(View(), Move.BeginClose)
      modifies this`closing
      ensures View() == Next(capacity, old(View()), Move.BeginClose)
    {
      closing := true;
    }

    method Snapshot() returns (s: Summary, pending: int)
      ensures s == summary && pending == PendingCount(View())
    {
      s := summary;
      pending := summary.queued - summary.written - summary.failed;
    }
  }
}
