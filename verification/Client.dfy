/** The collector client (Client.Send of internal/whatap/client.go, writeAll of protocol.go) over a
    network that may answer anything. */
module Clients {
  import opened Base

  /** What Send reports: one complete write, one write of unknown fate, or no write at all. */
  datatype Delivery = Sent | Ambiguous | NotSent

  datatype Fault = ClientClosed | Cancelled | DeadlineExceeded | NetworkError | ShortWrite | NoProgress

  type Frame = f: seq<byte> | f != [] witness [0]
  type Framing = (nat, seq<byte>) -> Frame

  // ---------- Traffic ----------

  /** One call of Write on a connection: what was offered, what the network took, and its fault. */
  datatype Call = Call(session: nat, data: seq<byte>, taken: int, fault: Option<Fault>)

  /** Everything the network was asked to carry, in order. */
  type Traffic = seq<Call>

  /** The call took some of its data, and failed in no way. */
  predicate Fine(call: Call) {
    call.fault.None? && 0 < call.taken <= |call.data|
  }

  predicate AllFine(calls: Traffic) {
    forall i :: 0 <= i < |calls| ==> Fine(calls[i])
  }

  /** The calls are those of one writeAll of data: each offers what is left, and the first that is not
      fine, or takes the rest, is the last. */
  predicate IsWriteAll(calls: Traffic, session: nat, data: seq<byte>) {
    && calls != [] && calls[0].session == session && calls[0].data == data
    && if Fine(calls[0]) && calls[0].taken < |data|
       then IsWriteAll(calls[1..], session, data[calls[0].taken..])
       else |calls| == 1
  }

  /** The bytes that reached a connection. */
  function StreamOn(traffic: Traffic, session: nat): seq<byte> {
    if traffic == [] then []
    else StreamOn(traffic[..|traffic| - 1], session) + TakenOn(traffic[|traffic| - 1], session)
  }

  function TakenOn(call: Call, session: nat): seq<byte> {
    if call.session == session && 0 <= call.taken <= |call.data| then call.data[..call.taken] else []
  }

  lemma {:induction false} StreamConcat(a: Traffic, b: Traffic, session: nat)
    ensures StreamOn(a + b, session) == StreamOn(a, session) + StreamOn(b, session)
    decreases |b|
  {
    if b == [] {
      assert a + b == a;
    } else {
      StreamConcat(a, b[..|b| - 1], session);
      assert (a + b)[..|a + b| - 1] == a + b[..|b| - 1];
    }
  }

  lemma StreamOfOne(call: Call, session: nat)
    ensures StreamOn([call], session) == TakenOn(call, session)
  {
    assert [call][..0] == [];
  }

  /** One writeAll puts a prefix of its data on its connection, all of it if every call was fine, and
      nothing on any other connection. */
  lemma {:induction false} WriteAllCarries(calls: Traffic, session: nat, data: seq<byte>)
    requires IsWriteAll(calls, session, data)
    ensures StreamOn(calls, session) <= data
    ensures AllFine(calls) ==> StreamOn(calls, session) == data
    ensures forall t: nat :: t != session ==> StreamOn(calls, t) == []
    decreases |calls|
  {
    var first := calls[0];
    assert calls == [first] + calls[1..];
    forall t: nat ensures StreamOn(calls, t) == TakenOn(first, t) + StreamOn(calls[1..], t) {
      StreamConcat([first], calls[1..], t);
      StreamOfOne(first, t);
    }
    if Fine(first) && first.taken < |data| {
      WriteAllCarries(calls[1..], session, data[first.taken..]);
      assert AllFine(calls) ==> AllFine(calls[1..]);
      assert data == data[..first.taken] + data[first.taken..];
    }
  }

  /** The connection never failed: only fine calls so far. */
  predicate CleanOn(traffic: Traffic, session: nat) {
    forall i :: 0 <= i < |traffic| && traffic[i].session == session ==> Fine(traffic[i])
  }

  /** One data frame was attempted: a single writeAll, on a connection that never failed before. */
  predicate OneFrame(framing: Framing, s: nat, body: seq<byte>, calls: Traffic, before: Traffic, after: Traffic) {
    after == before + calls && IsWriteAll(calls, s, framing(s, body)) && CleanOn(before, s)
  }

  /** What a delivery means for the traffic. */
  ghost predicate Means(framing: Framing, delivery: Delivery, body: Option<seq<byte>>, before: Traffic, after: Traffic) {
    match delivery
    case NotSent => after == before
    case Sent => body.Some? && exists s, calls :: OneFrame(framing, s, body.value, calls, before, after) && AllFine(calls)
    case Ambiguous => body.Some? && exists s, calls :: OneFrame(framing, s, body.value, calls, before, after)
  }

  /** From before to after, s got `part` of the frame of a body, and no other connection anything. */
  ghost predicate Carried(framing: Framing, s: nat, body: seq<byte>, part: seq<byte>, before: Traffic, after: Traffic) {
    && part <= framing(s, body)
    && StreamOn(after, s) == StreamOn(before, s) + part
    && forall t: nat :: t != s ==> StreamOn(after, t) == StreamOn(before, t)
  }

  lemma OneFrameCarries(framing: Framing, s: nat, body: seq<byte>, calls: Traffic, before: Traffic, after: Traffic)
    requires OneFrame(framing, s, body, calls, before, after)
    ensures Carried(framing, s, body, StreamOn(calls, s), before, after)
    ensures AllFine(calls) ==> StreamOn(calls, s) == framing(s, body)
  {
    WriteAllCarries(calls, s, framing(s, body));
    forall t: nat ensures StreamOn(after, t) == StreamOn(before, t) + StreamOn(calls, t) {
      StreamConcat(before, calls, t);
    }
  }

  /** So at most one connection changes in one Send: it gets a prefix of one frame, the whole frame if
      the delivery is reported as sent, and nothing is carried if it is reported as not sent. */
  lemma SendCarriesAtMostOneFrame(framing: Framing, delivery: Delivery, body: Option<seq<byte>>, before: Traffic, after: Traffic)
    requires Means(framing, delivery, body, before, after)
    ensures if delivery == NotSent then after == before
            else body.Some? && exists s, part :: && Carried(framing, s, body.value, part, before, after)
                                                 && (delivery == Sent ==> part == framing(s, body.value))
  {
    if delivery != NotSent {
      var s, calls :| OneFrame(framing, s, body.value, calls, before, after) && (delivery == Sent ==> AllFine(calls));
      OneFrameCarries(framing, s, body.value, calls, before, after);
    }
  }

  /** Everything outside the client: interruptions and the answers of the network, one after the
      other. It keeps its own record of what it was asked to carry. */
  class World {
    const faults: nat -> Option<Fault>
    const sizes: nat -> int
    var asked: nat
    ghost var traffic: Traffic

    constructor (faults: nat -> Option<Fault>, sizes: nat -> int)
      ensures this.faults == faults && this.sizes == sizes && traffic == []
    {
      this.faults, this.sizes, asked, traffic := faults, sizes, 0, [];
    }

    /** Something outside failed or interrupted since the given answer. */
    predicate Faulted(since: nat)
      reads this`asked
    {
      exists n :: since <= n < asked && faults(n).Some?
    }

    /** Ask whether something failed or was interrupted. */
    method Ask() returns (fault: Option<Fault>)
      modifies this`asked
      ensures asked == old(asked) + 1 && fault == faults(old(asked))
    {
      fault := faults(asked);
      asked := asked + 1;
    }

    /** conn.Write: some number of bytes, possibly an impossible one, and possibly a fault. */
    method Write(session: nat, data: seq<byte>) returns (n: int, fault: Option<Fault>)
      modifies this
      ensures traffic == old(traffic) + [Call(session, data, n, fault)] && asked == old(asked) + 1
    {
      n, fault := sizes(asked), faults(asked);
      asked := asked + 1;
      traffic := traffic + [Call(session, data, n, fault)];
    }
  }

  /** The calls so far are a writeAll of data that still has `rest` to offer. */
  predicate Underway(calls: Traffic, session: nat, data: seq<byte>, rest: seq<byte>) {
    if calls == [] then rest == data
    else
      && calls[0].session == session && calls[0].data == data && Fine(calls[0])
      && Underway(calls[1..], session, data[calls[0].taken..], rest)
  }

  lemma {:induction false} GoesOn(calls: Traffic, session: nat, data: seq<byte>, rest: seq<byte>, call: Call)
    requires Underway(calls, session, data, rest) && rest != [] && call.session == session && call.data == rest
    ensures Fine(call) ==> Underway(calls + [call], session, data, rest[call.taken..])
    ensures !(Fine(call) && call.taken < |rest|) ==> IsWriteAll(calls + [call], session, data)
    decreases |calls|
  {
    if calls == [] {
      assert calls + [call] == [call] && [call][1..] == [];
    } else {
      GoesOn(calls[1..], session, data[calls[0].taken..], rest, call);
      assert (calls + [call])[1..] == calls[1..] + [call];
      UnderwayShrinks(calls[1..], session, data[calls[0].taken..], rest);
    }
  }

  lemma {:induction false} UnderwayShrinks(calls: Traffic, session: nat, data: seq<byte>, rest: seq<byte>)
    requires Underway(calls, session, data, rest)
    ensures |rest| <= |data| && AllFine(calls)
    decreases |calls|
  {
    if calls != [] {
      UnderwayShrinks(calls[1..], session, data[calls[0].taken..], rest);
      assert forall i :: 1 <= i < |calls| ==> calls[i] == calls[1..][i - 1];
    }
  }

  /** writeAll: the network is asked for one writeAll of the data, and a nil error means that it took
      all of it. */
  method WriteAll(world: World, session: nat, data: seq<byte>) returns (total: nat, fault: Option<Fault>)
    requires data != []
    modifies world
    ensures old(world.traffic) <= world.traffic
    ensures IsWriteAll(world.traffic[|old(world.traffic)|..], session, data)
    ensures fault.None? <==> AllFine(world.traffic[|old(world.traffic)|..])
    ensures world.asked >= old(world.asked)
  {
    total := 0;
    ghost var calls: Traffic := [];
    while total < |data|
      invariant total <= |data| && world.traffic == old(world.traffic) + calls && world.asked >= old(world.asked)
      invariant Underway(calls, session, data, data[total..])
      invariant total == |data| ==> IsWriteAll(calls, session, data)
    {
      var rest := data[total..];
      var n, err := world.Write(session, rest);
      ghost var call := Call(session, rest, n, err);
      GoesOn(calls, session, data, rest, call);
      UnderwayShrinks(calls, session, data, rest);
      calls := calls + [call];
      assert world.traffic[|old(world.traffic)|..] == calls && calls[|calls| - 1] == call;
      if n < 0 || n > |rest| {
        return total, Some(ShortWrite);
      }
      total := total + n;
      if err.Some? {
        return total, err;
      }
      if n == 0 {
        return total, Some(NoProgress);
      }
    }
    UnderwayShrinks(calls, session, data, []);
    assert world.traffic[|old(world.traffic)|..] == calls;
    return total, None;
  }

  class Client {
    const world: World
    const servers: nat
    /** serialize, makeFrame and the session cipher: the data frame of a body on a session. */
    const frameOf: Framing
    var session: Option<nat>
    var nextSession: nat

    constructor (world: World, servers: nat, frameOf: Framing)
      requires world.traffic == []
      ensures Valid() && this.world == world && this.servers == servers && this.frameOf == frameOf
    {
      this.world, this.servers, this.frameOf := world, servers, frameOf;
      session, nextSession := None, 0;
    }

    /** Since then something outside failed, or a write to the network was not fine. */
    ghost predicate Troubled(since: nat, carried: nat)
      reads world
    {
      world.Faulted(since) || exists i :: carried <= i < |world.traffic| && !Fine(world.traffic[i])
    }

    /** Sessions are numbered in order of connecting. */
    ghost predicate Numbered()
      reads this, world`traffic
    {
      forall i :: 0 <= i < |world.traffic| ==> world.traffic[i].session < nextSession
    }

    /** The current session never failed. */
    ghost predicate Valid()
      reads this, world`traffic
    {
      Numbered() && (session.Some? ==> session.value < nextSession && CleanOn(world.traffic, session.value))
    }

    /** dropSession. */
    method Drop(s: nat)
      requires Numbered() && (session.Some? && session != Some(s) ==> session.value < nextSession && CleanOn(world.traffic, session.value))
      modifies this`session
      ensures Valid() && session == if old(session) == Some(s) then None else old(session)
    {
      if session == Some(s) {
        session := None;
      }
    }

    /** currentSession; a reader or Close may have dropped it meanwhile. */
    method Current() returns (s: Option<nat>)
      requires Valid()
      modifies this`session, world`asked
      ensures Valid() && s == session && world.asked >= old(world.asked)
      ensures s == old(session) || (s == None && world.Faulted(old(world.asked)))
    {
      var dropped := world.Ask();
      if dropped.Some? {
        session := None;
      }
      s := session;
    }

    /** connect: dial, publish the session, shake hands. */
    method Connect() returns (s: nat, fault: Option<Fault>)
      requires Valid()
      modifies this`session, this`nextSession, world`asked
      ensures Valid() && nextSession >= old(nextSession) && world.asked >= old(world.asked)
      ensures if fault.None? then s >= old(nextSession) && session == Some(s) else world.Faulted(old(world.asked))
    {
      fault := world.Ask();
      s := nextSession;
      if fault.Some? {
        return;
      }
      session, nextSession := Some(s), nextSession + 1;
      fault := world.Ask();
      if fault.Some? {
        Drop(s);
      }
    }

    /** The checks before a write: interruption, a closed session, the write deadline, interruption. */
    method Prepare() returns (fault: Option<Fault>)
      modifies world`asked
      ensures world.asked >= old(world.asked) && (fault.Some? ==> world.Faulted(old(world.asked)))
    {
      fault := world.Ask();
      if fault.None? {
        var closed := world.Ask();
        if closed.Some? {
          return Some(NetworkError);
        }
        fault := world.Ask();
        if fault.None? {
          fault := world.Ask();
        }
      }
    }

    /** sendFrame: whether a data-frame write was attempted, and what failed. */
    method SendFrame(s: nat, body: seq<byte>) returns (attempted: bool, fault: Option<Fault>, ghost calls: Traffic)
      requires Valid() && session == Some(s)
      modifies world
      ensures !attempted ==> fault.Some? && world.traffic == old(world.traffic) && world.Faulted(old(world.asked))
      ensures world.asked >= old(world.asked)
      ensures attempted ==> OneFrame(frameOf, s, body, calls, old(world.traffic), world.traffic)
      ensures if fault.None? then AllFine(calls) else Troubled(old(world.asked), |old(world.traffic)|)
      ensures Numbered() && (fault.None? ==> Valid())
    {
      calls := [];
      fault := Prepare();
      attempted := fault.None?;
      if attempted {
        ghost var before := world.traffic;
        var total, err := WriteAll(world, s, frameOf(s, body));
        calls := world.traffic[|before|..];
        OneSession(calls, s, frameOf(s, body));
        fault := world.Ask();
        if fault.None? {
          fault := err;
        }
      }
    }

    /** One try on one session; a session that failed is dropped. */
    method Try(s: nat, body: seq<byte>) returns (attempted: bool, fault: Option<Fault>, ghost calls: Traffic)
      requires Valid() && session == Some(s)
      modifies this`session, world
      ensures Valid() && (fault.Some? ==> session == None)
      ensures !attempted ==> fault.Some? && world.traffic == old(world.traffic) && world.Faulted(old(world.asked))
      ensures world.asked >= old(world.asked)
      ensures attempted ==> OneFrame(frameOf, s, body, calls, old(world.traffic), world.traffic)
      ensures if fault.None? then AllFine(calls) else Troubled(old(world.asked), |old(world.traffic)|)
    {
      hide OneFrame, AllFine, CleanOn;
      attempted, fault, calls := SendFrame(s, body);
      if fault.Some? {
        Drop(s);
      }
    }

    /** Send; body is None when the pack cannot be serialized. Whatever happens outside, the network
        is asked for at most one data frame: for a nil result it took the whole frame, for an
        ambiguous delivery it was asked for one frame, for any other error for none. It reports an
        error only if something outside has failed, and else keeps to the current session. */
    method Send(body: Option<seq<byte>>) returns (delivery: Delivery)
      requires Valid()
      modifies this, world
      ensures Valid() && Means(frameOf, delivery, body, old(world.traffic), world.traffic)
      ensures delivery != Sent && body.Some? && servers > 0 ==> Troubled(old(world.asked), |old(world.traffic)|)
      ensures body.Some? && old(session).Some? && !world.Faulted(old(world.asked)) ==>
                exists calls :: OneFrame(frameOf, old(session).value, body.value, calls, old(world.traffic), world.traffic)
    {
      hide OneFrame, AllFine, Numbered, CleanOn;
      delivery := NotSent;
      var gate := world.Ask();
      if gate.Some? || body.None? {
        return;
      }
      var interrupted := world.Ask();
      if interrupted.Some? {
        return;
      }
      var current := Current();
      if current.Some? {
        var attempted, fault;
        ghost var calls;
        attempted, fault, calls := Try(current.value, body.value);
        if attempted {
          return if fault.None? then Sent else Ambiguous;
        }
      }
      delivery := SendAnew(body.value);
    }

    /** The server loop: connect to one server after the other until a write was attempted. */
    method SendAnew(body: seq<byte>) returns (delivery: Delivery)
      requires Valid()
      modifies this, world
      ensures Valid() && Means(frameOf, delivery, Some(body), old(world.traffic), world.traffic)
      ensures world.asked >= old(world.asked)
      ensures delivery != Sent && servers > 0 ==> Troubled(old(world.asked), |old(world.traffic)|)
    {
      hide OneFrame, AllFine, Numbered, CleanOn;
      delivery := NotSent;
      var i := 0;
      while i < servers
        invariant Valid() && delivery == NotSent && world.traffic == old(world.traffic)
        invariant world.asked >= old(world.asked) && (i > 0 ==> world.Faulted(old(world.asked)))
      {
        var interrupted := world.Ask();
        if interrupted.Some? {
          return;
        }
        var s, down := Connect();
        if down.None? {
          var attempted, fault;
          ghost var calls;
          attempted, fault, calls := Try(s, body);
          if attempted {
            return if fault.None? then Sent else Ambiguous;
          }
        }
        i := i + 1;
      }
    }
  }

  lemma {:induction false} OneSession(calls: Traffic, session: nat, data: seq<byte>)
    requires IsWriteAll(calls, session, data)
    ensures forall i :: 0 <= i < |calls| ==> calls[i].session == session
    decreases |calls|
  {
    if Fine(calls[0]) && calls[0].taken < |data| {
      OneSession(calls[1..], session, data[calls[0].taken..]);
      assert forall i :: 1 <= i < |calls| ==> calls[i] == calls[1..][i - 1];
    }
  }
}
