/** What the window stream accepts, emits and marks, said of the ticks of a run. */
module StreamOutcomes {
  import opened FlowTypes
  import opened Windows
  import opened Streams

  // ---------- The watermark ----------

  predicate IsTick(ops: seq<Op>, i: int) {
    0 <= i < |ops| && ops[i].Tick?
  }

  /** m is the greatest of all ticks' times, less the allowed lateness. */
  ghost predicate IsHighest(c: Config, ops: seq<Op>, m: Time) {
    && (forall i :: IsTick(ops, i) ==> ops[i].now - c.lateness <= m)
    && exists i :: IsTick(ops, i) && ops[i].now - c.lateness == m
  }

  ghost predicate Marked(c: Config, ops: seq<Op>, s: State) {
    && (s.hasWatermark <==> exists i :: IsTick(ops, i))
    && (s.hasWatermark ==> IsHighest(c, ops, s.watermark))
  }

  lemma MarkedByTick(c: Config, ops: seq<Op>, s: State, now: Time)
    requires Marked(c, ops, s)
    ensures Marked(c, ops + [Tick(now)], Raised(c, s, now)) && Raised(c, s, now).hasWatermark
  {
    var more, n, t := ops + [Tick(now)], |ops|, Raised(c, s, now);
    assert IsTick(more, n);
    forall i | IsTick(more, i) ensures more[i].now - c.lateness <= t.watermark {
      if i < n {
        assert IsTick(ops, i);
      }
    }
    if t.watermark == now - c.lateness {
      assert more[n].now - c.lateness == t.watermark;
    } else {
      var i :| IsTick(ops, i) && ops[i].now - c.lateness == s.watermark;
      assert IsTick(more, i) && more[i].now - c.lateness == t.watermark;
    }
  }

  lemma MarkedByOffer(c: Config, ops: seq<Op>, s: State, t: State, o: Observation)
    requires Marked(c, ops, s) && t.hasWatermark == s.hasWatermark && t.watermark == s.watermark
    ensures Marked(c, ops + [Offer(o)], t)
  {
    var more := ops + [Offer(o)];
    forall i | IsTick(ops, i) ensures IsTick(more, i) && more[i] == ops[i] {
    }
    assert forall i :: IsTick(more, i) ==> IsTick(ops, i);
  }

  /** In every run there is a watermark exactly if there was a tick, and it is the highest of them: it
      never goes back and never stays behind. */
  lemma {:induction false} WatermarkIsHighest(c: Config, ops: seq<Op>)
    requires ValidConfig(c)
    ensures Marked(c, ops, Run(c, ops).state)
    decreases |ops|
  {
    if ops != [] {
      var before, last := ops[..|ops| - 1], ops[|ops| - 1];
      assert ops == before + [last];
      WatermarkIsHighest(c, before);
      var h := Run(c, before);
      hide Marked, Run;
      RunNext(c, before, last);
      match last
      case Offer(o) => MarkedByOffer(c, before, h.state, Run(c, ops).state, o);
      case Tick(now) =>
        MarkedByTick(c, before, h.state, now);
        MarkedAlike(c, ops, Raised(c, h.state, now), Run(c, ops).state);
    }
  }

  lemma RunNext(c: Config, ops: seq<Op>, op: Op)
    requires ValidConfig(c)
    ensures Run(c, ops + [op]) == Step(c, Run(c, ops), op)
  {
    assert (ops + [op])[..|ops|] == ops;
  }

  lemma MarkedAlike(c: Config, ops: seq<Op>, s: State, t: State)
    requires Marked(c, ops, s) && t.hasWatermark == s.hasWatermark && t.watermark == s.watermark
    ensures Marked(c, ops, t)
  {
  }

  // ---------- What is accepted ----------

  /** Some tick's mark has reached the end of the window that starts at `start`. */
  ghost predicate HasEnded(c: Config, ops: seq<Op>, start: Time) {
    exists i :: IsTick(ops, i) && start + c.size <= ops[i].now - c.lateness
  }

  lemma EndedByHighest(c: Config, ops: seq<Op>, s: State, start: Time)
    requires Marked(c, ops, s)
    ensures HasEnded(c, ops, start) <==> s.hasWatermark && start + c.size <= s.watermark
  {
    if s.hasWatermark && start + c.size <= s.watermark {
      var i :| IsTick(ops, i) && ops[i].now - c.lateness == s.watermark;
      assert start + c.size <= ops[i].now - c.lateness;
    }
  }

  /** In every run an observation is refused exactly for want of a time, if some tick has closed its
      window, or for want of room for a new window, in this order. */
  lemma VerdictExactly(c: Config, ops: seq<Op>, o: Observation)
    requires ValidConfig(c)
    ensures var s, k := Run(c, ops).state, KeyFor(o, c.size);
            Judge(c, s, o) ==
            if o.observedAt == 0 then ObservationTimeRequired
            else if HasEnded(c, ops, k.start) then LateObservation
            else if k !in s.windows && |s.windows| >= c.maxWindows then WindowCapacity
            else Accepted
  {
    WatermarkIsHighest(c, ops);
    RunKeeps(c, ops);
    EndedByHighest(c, ops, Run(c, ops).state, KeyFor(o, c.size).start);
    hide Marked, HasEnded, Run, KeyFor;
  }

  /** After Finish nothing is accepted or emitted any more. */
  lemma FinishIsFinal(c: Config, s: State, now: Time, o: Observation, later: Time)
    requires ValidConfig(c)
    ensures var t := AfterFinish(c, s, now);
            && Judge(c, t, o) == StreamClosed && AfterAdd(c, t, o) == t
            && Final(c, t, later) == map[] && AfterFinish(c, t, later) == t
  {
  }

  // ---------- What is emitted ----------

  /** Of the open windows exactly those that have ended are in `due`, the others in `open`, unchanged. */
  ghost predicate Divided(c: Config, ops: seq<Op>, windows: Table, due: Table, open: Table) {
    && (forall k :: k in windows ==> if HasEnded(c, ops, k.start) then k in due && k !in open else k in open && k !in due)
    && (forall k :: k in due ==> k in windows && due[k] == windows[k])
    && (forall k :: k in open ==> k in windows && open[k] == windows[k])
  }

  lemma OpenHasIdentity(c: Config, ops: seq<Op>, k: Key)
    requires ValidConfig(c) && k in Run(c, ops).state.windows
    ensures Run(c, ops).state.windows[k].id.windowEnd == k.start + c.size
  {
    RunKeeps(c, ops);
    var h := Run(c, ops);
    hide Run;
    assert k in TableOf(h.accepted, c.size) && TableOf(h.accepted, c.size)[k] == h.state.windows[k];
    assert h.state.windows[k].id == IdentityOf(k, c.size);
  }

  lemma RaisedDivides(c: Config, ops: seq<Op>, now: Time)
    requires ValidConfig(c)
    ensures var s := Run(c, ops).state;
            var r := Raised(c, s, now);
            Divided(c, ops + [Tick(now)], s.windows, Due(r), Kept(r))
  {
    var s, more := Run(c, ops).state, ops + [Tick(now)];
    var r := Raised(c, s, now);
    WatermarkIsHighest(c, ops);
    MarkedByTick(c, ops, s, now);
    forall k | k in s.windows
      ensures s.windows[k].id.windowEnd == k.start + c.size
      ensures HasEnded(c, more, k.start) <==> k.start + c.size <= r.watermark
    {
      OpenHasIdentity(c, ops, k);
      EndedByHighest(c, more, r, k.start);
    }
    hide HasEnded, Marked, Run;
  }

  /** A tick emits exactly the open windows that some tick by now has closed, and keeps the others. */
  lemma TickEmitsWhatHasEnded(c: Config, ops: seq<Op>, now: Time)
    requires ValidConfig(c)
    ensures var h, t := Run(c, ops), Run(c, ops + [Tick(now)]);
            && |t.rounds| == |h.rounds| + 1 && t.rounds[..|h.rounds|] == h.rounds
            && Divided(c, ops + [Tick(now)], h.state.windows, t.rounds[|h.rounds|], t.state.windows)
  {
    RunNext(c, ops, Tick(now));
    RaisedDivides(c, ops, now);
    hide Divided, Run;
  }

  /** Finish emits everything that is open: what has ended by now as it is, the rest marked partial. */
  lemma FinishMarksWhatHasNotEnded(c: Config, ops: seq<Op>, now: Time)
    requires ValidConfig(c)
    ensures var windows, last := Run(c, ops).state.windows, Final(c, Run(c, ops).state, now);
            && last.Keys == windows.Keys
            && forall k :: k in windows ==>
                 last[k] == windows[k].(isPartial := !HasEnded(c, ops + [Tick(now)], k.start))
  {
    var s := Run(c, ops).state;
    var r, last := Raised(c, s, now), Final(c, s, now);
    RunKeeps(c, ops);
    RaisedDivides(c, ops, now);
    OpenIsUnmarked(c, Run(c, ops));
    hide HasEnded, Run, Raised;
    forall k | k in s.windows ensures k in last && last[k] == s.windows[k].(isPartial := !HasEnded(c, ops + [Tick(now)], k.start)) {
      if HasEnded(c, ops + [Tick(now)], k.start) {
        assert k in Due(r) && k !in Kept(r);
      } else {
        assert k in Kept(r) && k !in Due(r);
      }
    }
  }
}
