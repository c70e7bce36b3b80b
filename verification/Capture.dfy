/** Capture time: what has been accepted from the reader and not yet received (captureProgress of
    internal/app/event_stream.go). */
module Captures {
  import opened FlowTypes

  datatype Progress = Progress(cutoff: Time, ended: bool, outstanding: seq<Time>)

  const NOT_STARTED := Progress(0, false, [])

  /** accept: the read is outstanding; the first terminal one ends the capture. */
  function Accepted(p: Progress, at: Time, terminal: bool): Progress {
    Progress(if terminal && !p.ended then at else p.cutoff, p.ended || terminal, p.outstanding + [at])
  }

  function Consumed(p: Progress): Progress
    requires p.outstanding != []
  {
    p.(outstanding := p.outstanding[1..])
  }

  function Finished(p: Progress, now: Time): Progress {
    if p.ended then p else p.(cutoff := now, ended := true)
  }

  function CaptureTime(p: Progress, now: Time): Time {
    if p.ended then p.cutoff else now
  }

  function Least(at: Time, times: seq<Time>): Time
    decreases |times|
  {
    if times == [] then at
    else
      var n := |times| - 1;
      var l := Least(at, times[..n]);
      if times[n] < l then times[n] else l
  }

  /** The least time is a lower bound, and the greatest one. */
  lemma {:induction false} LeastIsGreatestBound(at: Time, times: seq<Time>, bound: Time)
    ensures bound <= Least(at, times) <==> bound <= at && forall i :: 0 <= i < |times| ==> bound <= times[i]
    decreases |times|
  {
    if times != [] {
      LeastIsGreatestBound(at, times[..|times| - 1], bound);
    }
  }

  /** Capture time, held back by every outstanding read. */
  function Watermark(p: Progress, now: Time): Time {
    Least(CaptureTime(p, now), p.outstanding)
  }

  /** A time is at or before the watermark exactly when it is at or before the capture time and
      every outstanding read. */
  lemma WatermarkExactly(p: Progress, now: Time, bound: Time)
    ensures bound <= Watermark(p, now) <==>
            bound <= CaptureTime(p, now) && forall i :: 0 <= i < |p.outstanding| ==> bound <= p.outstanding[i]
  {
    LeastIsGreatestBound(CaptureTime(p, now), p.outstanding, bound);
  }

  /** The object; `reading` is what the wall clock shows during the call. */
  class CaptureProgress {
    var cutoff: Time
    var ended: bool
    var outstanding: seq<Time>

    constructor ()
      ensures View() == NOT_STARTED
    {
      cutoff, ended, outstanding := 0, false, [];
    }

    function View(): Progress
      reads this
    {
      Progress(cutoff, ended, outstanding)
    }

    method Accept(terminal: bool, reading: Time) returns (at: Time)
      modifies this
      ensures at == reading && View() == Accepted(old(View()), reading, terminal)
    {
      at := reading;
      outstanding := outstanding + [at];
      if terminal && !ended {
        cutoff, ended := at, true;
      }
    }

    method Consume()
      requires outstanding != []
      modifies this
      ensures View() == Consumed(old(View()))
    {
      outstanding := outstanding[1..];
    }

    method Finish(reading: Time)
      modifies this
      ensures View() == Finished(old(View()), reading)
    {
      if !ended {
        cutoff, ended := reading, true;
      }
    }

    method Now(reading: Time) returns (at: Time)
      ensures at == CaptureTime(View(), reading)
    {
      if ended {
        return cutoff;
      }
      return reading;
    }

    method ReadWatermark(reading: Time) returns (at: Time)
      ensures at == Watermark(View(), reading)
    {
      at := cutoff;
      if !ended {
        at := reading;
      }
      for i := 0 to |outstanding|
        invariant at == Least(CaptureTime(View(), reading), outstanding[..i])
      {
        assert outstanding[..i + 1][..i] == outstanding[..i];
        if outstanding[i] < at {
          at := outstanding[i];
        }
      }
      assert outstanding[..|outstanding|] == outstanding;
    }
  }
}
