/** What producers are answered and what the exporter's counters count, said of the moves of a run. */
module ExporterOutcomes {
  import opened Base
  import opened Lists
  import opened Clients
  import opened Exporters

  // ---------- One call of a producer ----------

  /** The exporter still takes records: Close has not begun and nothing has failed. */
  predicate Takes(s: State) {
    !s.closing && s.errors == []
  }

  /** A producer is refused after Close or a failure or for another node; a built pack is taken, whether it
      is queued or dropped; a record without a pack is skipped, one that cannot be built rejected. */
  lemma RepliesExactly(capacity: nat, s: State, ownNode: bool, built: Built)
    ensures var r := Export(capacity, s, ownNode, built).reply;
            && (r == Closed <==> s.closing)
            && (r == AlreadyFailed <==> !s.closing && s.errors != [])
            && (r == WrongNode <==> Takes(s) && !ownNode)
            && (r == Reply.Taken <==> Takes(s) && ownNode && built.Packed?)
            && (r == Rejected <==> Takes(s) && ownNode && built.BuildFailed?)
            && (r == Skipped <==> Takes(s) && ownNode && (built.SkipPartial? || built.SkipUnmeasured? || built.SkipIncompleteTuple?))
  {
  }

  /** A taken pack goes behind the queue exactly if there is room, and is dropped otherwise; a record with an
      identity is numbered by how many packs were taken before it. No other call changes the queue. */
  lemma QueueExactly(capacity: nat, s: State, ownNode: bool, built: Built)
    ensures var t := Export(capacity, s, ownNode, built);
            && (t.state.closing, t.state.cancelled, t.state.errors, t.state.senderClosed, t.state.worker)
               == (s.closing, s.cancelled, s.errors, s.senderClosed, s.worker)
            && if t.reply == Reply.Taken && |s.queue| < capacity then
                 && t.state.queue == s.queue + [Pack(built.recordId,
                                                     if built.recordId == "" then None else Some(s.summary.queued + s.summary.dropped + 1),
                                                     built.body)]
                 && t.state.summary == s.summary.(queued := s.summary.queued + 1)
               else
                 && t.state.queue == s.queue
                 && (t.reply == Reply.Taken ==> t.state.summary == s.summary.(dropped := s.summary.dropped + 1))
  {
  }

  // ---------- Runs ----------

  /** The records that the exporter did not refuse, in order. */
  ghost function Considered(e: Setup, moves: seq<Move>): seq<Built> {
    if moves == [] then []
    else
      var n := |moves| - 1;
      Considered(e, moves[..n])
      + if moves[n].Produce? && moves[n].ownNode && Takes(Run(e, moves[..n]).state) then [moves[n].built] else []
  }

  function IsBuilt(b: Built): bool {
    b.Packed?
  }

  function Is(kind: Built): Built -> bool {
    (b: Built) => b == kind
  }

  /** Every counter of the producers counts the records it stands for. */
  ghost predicate Tallied(s: Summary, bs: seq<Built>) {
    && s.queued + s.dropped == Count(bs, IsBuilt)
    && s.skippedPartial == Count(bs, Is(SkipPartial))
    && s.skippedUnmeasured == Count(bs, Is(SkipUnmeasured))
    && s.skippedIncompleteTuple == Count(bs, Is(SkipIncompleteTuple))
  }

  lemma CountSnoc(bs: seq<Built>, b: Built, p: Built -> bool)
    ensures Count(bs + [b], p) == Count(bs, p) + if p(b) then 1 else 0
  {
    assert (bs + [b])[..|bs|] == bs;
  }

  lemma TalliedSnoc(capacity: nat, s: State, bs: seq<Built>, b: Built)
    requires Tallied(s.summary, bs) && Takes(s)
    ensures Tallied(Export(capacity, s, true, b).state.summary, bs + [b])
  {
    CountSnoc(bs, b, IsBuilt);
    CountSnoc(bs, b, Is(SkipPartial));
    CountSnoc(bs, b, Is(SkipUnmeasured));
    CountSnoc(bs, b, Is(SkipIncompleteTuple));
    hide Count;
  }

  /** The producers' part of the summary is what a move leaves of it. */
  predicate SameTallies(s: Summary, t: Summary) {
    && s.queued + s.dropped == t.queued + t.dropped && s.skippedPartial == t.skippedPartial
    && s.skippedUnmeasured == t.skippedUnmeasured && s.skippedIncompleteTuple == t.skippedIncompleteTuple
  }

  lemma OthersKeepTallies(e: Setup, h: History, m: Move)
    requires m.Produce? ==> !m.ownNode || !Takes(h.state)
    ensures SameTallies(Step(e, h, m).state.summary, h.state.summary)
  {
  }

  /** In every run every record that was not refused is counted exactly once, as queued, dropped, or skipped
      for its reason, unless it could not be built. */
  lemma {:induction false} RecordsAreCounted(e: Setup, moves: seq<Move>)
    ensures Tallied(Run(e, moves).state.summary, Considered(e, moves))
    decreases |moves|
  {
    if moves != [] {
      var n := |moves| - 1;
      var h, m := Run(e, moves[..n]), moves[n];
      RecordsAreCounted(e, moves[..n]);
      if m.Produce? && m.ownNode && Takes(h.state) {
        TalliedSnoc(e.capacity, h.state, Considered(e, moves[..n]), m.built);
        assert Step(e, h, m).state == Export(e.capacity, h.state, true, m.built).state;
      } else {
        OthersKeepTallies(e, h, m);
        assert Considered(e, moves) == Considered(e, moves[..n]);
      }
    }
  }

  /** Once draining has timed out no further pack is passed to Send. */
  lemma NothingSentAfterTimeout(e: Setup, h: History, m: Move)
    requires h.state.cancelled
    ensures var t := Step(e, h, m); t.state.cancelled && t.sends == h.sends
  {
  }

  /** A failed delivery was reported. */
  ghost predicate Reported(s: State, d: Delivery) {
    SendFailed(d) in s.errors
  }

  /** What the worker still has to report, or has reported, is the last result if that was a failure. */
  ghost predicate KeepsFailure(h: History) {
    forall d :: Reported(h.state, d) <==>
                h.returned != [] && h.returned[|h.returned| - 1] == d != Sent && h.state.worker == Stopped
  }

  lemma FailureStep(e: Setup, h: History, m: Move)
    requires FailsLast(h) && KeepsFailure(h)
    ensures KeepsFailure(Step(e, h, m))
  {
    var t := Step(e, h, m);
    forall d
      ensures Reported(t.state, d) <==>
              t.returned != [] && t.returned[|t.returned| - 1] == d != Sent && t.state.worker == Stopped
    {
      assert Reported(h.state, d) <==>
             h.returned != [] && h.returned[|h.returned| - 1] == d != Sent && h.state.worker == Stopped;
      ErrorsExactly(e, h, m, d);
      hide Reported, Export;
    }
  }

  lemma ErrorsExactly(e: Setup, h: History, m: Move, d: Delivery)
    ensures Reported(Step(e, h, m).state, d) <==>
            Reported(h.state, d) || (Possible(e, h, m) && m.Report? && h.state.worker.failure == d)
  {
  }

  /** In every run the failure kept for producers and Close is exactly that of the failed last Send, once the
      worker has stopped. */
  lemma {:induction false} FailureIsKept(e: Setup, moves: seq<Move>)
    ensures KeepsFailure(Run(e, moves))
    decreases |moves|
  {
    if moves != [] {
      var n := |moves| - 1;
      FailureIsKept(e, moves[..n]);
      RunSound(e, moves[..n]);
      FailureStep(e, Run(e, moves[..n]), moves[n]);
    }
  }

  /** The worker stops for a timed-out drain, after a failed Send, or because the closed queue is empty. */
  ghost predicate StopsForReason(h: History) {
    && (h.discarded != [] ==> h.state.cancelled)
    && (h.state.worker == Stopped ==>
          || h.state.cancelled
          || (h.returned != [] && h.returned[|h.returned| - 1] != Sent)
          || (h.state.closing && h.state.queue == []))
  }

  lemma StopStep(e: Setup, h: History, m: Move)
    requires FailsLast(h) && StopsForReason(h)
    ensures StopsForReason(Step(e, h, m))
  {
  }

  lemma {:induction false} StopsStayReasonable(e: Setup, moves: seq<Move>)
    ensures StopsForReason(Run(e, moves))
    decreases |moves|
  {
    if moves != [] {
      var n := |moves| - 1;
      StopsStayReasonable(e, moves[..n]);
      RunSound(e, moves[..n]);
      StopStep(e, Run(e, moves[..n]), moves[n]);
    }
  }

  /** An orderly end loses nothing: once the worker has stopped without a timed-out drain and without a failed
      Send, every pack ever queued was sent, successfully and in order. */
  lemma OrderlyEndSendsAll(e: Setup, moves: seq<Move>)
    requires var h := Run(e, moves);
             && h.state.worker == Stopped && !h.state.cancelled
             && (h.returned != [] ==> h.returned[|h.returned| - 1] == Sent)
    ensures var h := Run(e, moves);
            && h.state.queue == [] && h.sends == h.accepted && |h.returned| == |h.accepted|
            && forall i :: 0 <= i < |h.returned| ==> h.returned[i] == Sent
  {
    StopsStayReasonable(e, moves);
    RunSound(e, moves);
    hide Run, Counts, AttemptedOnce, CarriesFrames, OrdinalsGrow;
    var h := Run(e, moves);
    assert h.sends + [] + [] == h.sends;
  }
}
