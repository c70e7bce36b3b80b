/** How long the plaintext HTTP correlator's state can outlive its use. */
module L7Lifetime {
  import opened Base
  import opened FlowTypes
  import opened L7Fragment
  import opened Lists
  import opened Http1
  import opened Http2
  import opened L7
  import opened L7Safety

  // ---------- Direction states belong to connections ----------

  /** Every direction state belongs to a tracked connection that was seen no earlier. */
  ghost predicate Covered<D>(s: State<D>, now: nat) {
    forall d :: d in s.http2Directions ==>
      && d.transport in s.http2Connections
      && 0 < s.http2Directions[d].lastSeenNS <= s.http2Connections[d.transport] <= now
  }

  lemma SweptCovered<D>(c: Config, s: State<D>, f: Fragment, now: nat)
    requires ValidConfig(c) && Covered(s, now) && TimestampNS(f) >= now
    ensures Covered(Swept(c, s, f), TimestampNS(f))
  {
    hide TimestampNS;
  }

  lemma FedTrackSeen<D>(hpack: Hpack<D>, c: Config, t: Tracked<D>, f: Fragment, payload: seq<byte>)
    ensures FeedTrack(hpack, c, t, f, payload).track.lastSeenNS == TimestampNS(f)
  {
    hide TimestampNS, FeedOne, IdentityFrom;
  }

  lemma TrackedCovered<D>(hpack: Hpack<D>, decoder: D, c: Config, s: State<D>, f: Fragment, payload: seq<byte>)
    requires 0 < TimestampNS(f) && Covered(s, TimestampNS(f))
    ensures Covered(HandleTracked(hpack, decoder, c, s, f, payload).state, TimestampNS(f))
  {
    hide TimestampNS, FeedTrack, PairBlocks, MakeTransportKey;
    var d := DirectionOf(f);
    var t := if d in s.http2Directions then s.http2Directions[d] else NewDirection(decoder);
    FedTrackSeen(hpack, c, t, f, payload);
  }

  lemma StepCovered<D>(hpack: Hpack<D>, decoder: D, c: Config, s: State<D>, f: Fragment, now: nat)
    requires ValidConfig(c) && Covered(s, now) && 0 < TimestampNS(f) && now <= TimestampNS(f)
    ensures Covered(Step(hpack, decoder, c, s, f).state, TimestampNS(f))
  {
    SweptCovered(c, s, f, now);
    var t := Swept(c, s, f);
    hide Covered, Swept, TimestampNS, HandleHttp2, HandleHttp1, IsHttp2;
    if IsHttp2(t, f) {
      Http2Covered(hpack, decoder, c, t, f);
    } else {
      Http1Covered(c, t, f);
    }
  }

  lemma Http2Covered<D>(hpack: Hpack<D>, decoder: D, c: Config, s: State<D>, f: Fragment)
    requires IsHttp2(s, f) && 0 < TimestampNS(f) && Covered(s, TimestampNS(f))
    ensures Covered(HandleHttp2(hpack, decoder, c, s, f).state, TimestampNS(f))
  {
    hide Covered, TimestampNS, HandleTracked, MakeTransportKey, TrackedConnections;
    TrackedCovered(hpack, decoder, c, s, f, f.payload);
    if PREFACE <= f.payload {
      TrackedCovered(hpack, decoder, c, s, f, f.payload[|PREFACE|..]);
    }
  }

  lemma Http1Covered<D>(c: Config, s: State<D>, f: Fragment)
    requires Covered(s, TimestampNS(f))
    ensures Covered(HandleHttp1(c, s, f).state, TimestampNS(f))
  {
    hide ParseRequest, ParseResponse, Pipelined, TimestampNS, RequestKey, ResponseKey, PendingOf, HandleHttp1;
    Http1Cases(c, s, f);
  }

  /** Fragment times are nonzero and never go back. */
  ghost predicate Chronological(fs: seq<Fragment>) {
    && (forall i :: 0 <= i < |fs| ==> TimestampNS(fs[i]) != 0)
    && (forall i, j :: 0 <= i < j < |fs| ==> TimestampNS(fs[i]) <= TimestampNS(fs[j]))
  }

  /** The time of the last fragment. */
  function LastTime(fs: seq<Fragment>): nat {
    if fs == [] then 0 else TimestampNS(fs[|fs| - 1])
  }

  lemma ChronologicalPrefix(fs: seq<Fragment>)
    requires Chronological(fs) && fs != []
    ensures var n := |fs| - 1;
            Chronological(fs[..n]) && 0 < TimestampNS(fs[n]) && LastTime(fs[..n]) <= TimestampNS(fs[n])
  {
    hide TimestampNS;
    var before := fs[..|fs| - 1];
    assert forall i :: 0 <= i < |before| ==> before[i] == fs[i];
  }

  /** Fed in the order of nonzero times, no direction state outlives its connection. */
  lemma {:induction false} DirectionsBelongToConnections<D>(hpack: Hpack<D>, decoder: D, c: Config, fs: seq<Fragment>)
    requires ValidConfig(c) && Chronological(fs)
    ensures Covered(Run(hpack, decoder, c, fs), LastTime(fs))
    decreases |fs|
  {
    if fs != [] {
      var n := |fs| - 1;
      ChronologicalPrefix(fs);
      hide Covered, Step, TimestampNS, Chronological;
      DirectionsBelongToConnections(hpack, decoder, c, fs[..n]);
      StepCovered(hpack, decoder, c, Run(hpack, decoder, c, fs[..n]), fs[n], LastTime(fs[..n]));
    } else {
      NoneCovered<D>();
    }
  }

  lemma NoneCovered<D>()
    ensures Covered<D>(Initial(), 0)
  {
  }

  // ---------- Ambiguous keys are not bounded ----------

  const GET_LINE: Text := [71, 69, 84, 32, 47, 32, 72, 84, 84, 80, 47, 49, 46, 49]

  /** Two requests in one payload. */
  const PIPELINED: Text := GET_LINE + HEADER_END + (GET_LINE + HEADER_END)

  /** One instant, as every captured fragment has one. */
  const INSTANT: nat := 1_000_000

  /** A fragment from a client to one server, seen on one node by one process at that instant. */
  function From(client: Endpoint, payload: Text, at: nat): Fragment {
    Fragment(UNIX_EPOCH + at, at, "node", 7, "kernel_plaintext", client, Endpoint("10.0.0.1", 80), |payload|, payload,
             None, None, None, None, None, None)
  }

  lemma {:induction false} IndexAfter(a: Text, part: Text, rest: Text)
    requires part != [] && Lacks(a, part[0])
    ensures IndexOf(a + part + rest, part) == Some(|a|)
    decreases |a|
  {
    var s := a + part + rest;
    if a == [] {
      assert s[..|part|] == part;
    } else {
      assert s[..|part|][0] == a[0];
      assert s[1..] == a[1..] + part + rest;
      IndexAfter(a[1..], part, rest);
    }
  }

  lemma GetLine()
    ensures IsRequestLine(GET_LINE, Ascii("GET"), [SLASH], [49]) && Lacks(GET_LINE, CRLF[0])
  {
    assert Ascii("GET") == [71, 69, 84] && Ascii("HTTP/1.") == [72, 84, 84, 80, 47, 49, 46];
    assert GET_LINE == Ascii("GET") + [SPACE] + [SLASH] + [SPACE] + (Ascii("HTTP/1.") + [49]);
  }

  lemma LineParses(line: Text, m: Text, target: Text, version: Text, rest: Text, maxPath: nat)
    requires IsRequestLine(line, m, target, version) && Lacks(line, CRLF[0])
    ensures ParseRequest(line + CRLF + rest, maxPath).Some?
  {
    hide IsRequestLine, ParseRequest;
    IndexAfter(line, CRLF, rest);
    var payload := line + CRLF + rest;
    assert payload[..|line|] == line;
    LineIsRequest(payload, maxPath, m, target, version);
  }

  lemma TwiceIsPipelined(line: Text, m: Text, target: Text, version: Text, maxPath: nat)
    requires IsRequestLine(line, m, target, version) && Lacks(line, CRLF[0])
    ensures var twice := line + HEADER_END + (line + HEADER_END);
            ParseRequest(twice, maxPath).Some? && Pipelined(twice, maxPath)
  {
    hide IsRequestLine, ParseRequest, Lacks;
    var tail := line + HEADER_END;
    var twice := line + HEADER_END + tail;
    assert HEADER_END == CRLF + CRLF && HEADER_END[0] == CRLF[0];
    IndexAfter(line, HEADER_END, tail);
    assert twice[|line| + 4..] == tail;
    assert tail == line + CRLF + CRLF;
    LineParses(line, m, target, version, CRLF, maxPath);
    assert twice == line + CRLF + (CRLF + tail);
    LineParses(line, m, target, version, CRLF + tail, maxPath);
  }

  lemma PipelinedIsRecognized(maxPath: nat)
    ensures ParseRequest(PIPELINED, maxPath).Some? && Pipelined(PIPELINED, maxPath)
  {
    GetLine();
    hide IsRequestLine, ParseRequest, Pipelined, Lacks;
    TwiceIsPipelined(GET_LINE, Ascii("GET"), [SLASH], [49], maxPath);
  }

  lemma NotAPreface(payload: Text)
    requires payload != [] && payload[0] != 80
    ensures !(PREFACE <= payload)
  {
    assert PREFACE[0] == 80;
  }

  /** Each client sends one pipelined request, all at the same instant. */
  function Flood(clients: seq<Endpoint>): (fs: seq<Fragment>)
    ensures |fs| == |clients| && forall i :: 0 <= i < |fs| ==> fs[i] == From(clients[i], PIPELINED, INSTANT)
  {
    seq(|clients|, i requires 0 <= i < |clients| => From(clients[i], PIPELINED, INSTANT))
  }

  /** Nothing is tracked but the ambiguous keys of these clients, all as old as the instant. */
  ghost predicate Flooded<D>(s: State<D>, clients: seq<Endpoint>) {
    && |s.http1Ambiguous| == |clients|
    && s.http1 == map[] && s.http2Connections == map[] && s.http2Directions == map[] && s.http2 == map[]
    && forall k :: k in s.http1Ambiguous ==> k.client in clients && s.http1Ambiguous[k] == INSTANT
  }

  /** At that instant nothing of it has come of age. */
  lemma FloodStays<D>(c: Config, s: State<D>, clients: seq<Endpoint>, f: Fragment)
    requires ValidConfig(c) && c.ttl > 0 && Flooded(s, clients) && TimestampNS(f) == INSTANT
    ensures Flooded(Swept(c, s, f), clients)
  {
    hide TimestampNS;
    var t := Swept(c, s, f);
    assert t.http1Ambiguous == s.http1Ambiguous;
    assert t.http1 == map[] && t.http2Connections == map[] && t.http2Directions == map[] && t.http2 == map[];
  }

  lemma FloodFragment(c: Config, client: Endpoint)
    ensures var f := From(client, PIPELINED, INSTANT);
            && RequestKey(f).client == client && TimestampNS(f) == INSTANT && !(PREFACE <= f.payload)
            && ParseRequest(f.payload, c.maxPath).Some? && Pipelined(f.payload, c.maxPath)
  {
    PipelinedIsRecognized(c.maxPath);
    hide ParseRequest, Pipelined, PREFACE;
    assert PIPELINED[0] == 71;
    NotAPreface(PIPELINED);
  }

  lemma FloodHandled<D>(hpack: Hpack<D>, decoder: D, c: Config, s: State<D>, clients: seq<Endpoint>, client: Endpoint)
    requires Flooded(s, clients) && client !in clients
    ensures Flooded(Handle(hpack, decoder, c, s, From(client, PIPELINED, INSTANT)).state, clients + [client])
  {
    var f := From(client, PIPELINED, INSTANT);
    FloodFragment(c, client);
    hide From, ParseRequest, Pipelined, MakeTransportKey, PREFACE, PIPELINED, HandleHttp1, HandleHttp2, TimestampNS, RequestKey;
    assert !IsHttp2(s, f) && RequestKey(f) !in s.http1Ambiguous;
    Http1Cases(c, s, f);
    SizeWith(s.http1Ambiguous, RequestKey(f), INSTANT);
    assert (clients + [client])[|clients|] == client;
    assert forall e :: e in clients ==> e in clients + [client];
  }

  lemma FloodStep<D>(hpack: Hpack<D>, decoder: D, c: Config, fs: seq<Fragment>, clients: seq<Endpoint>, client: Endpoint)
    requires ValidConfig(c) && c.ttl > 0 && client !in clients && Flooded(Run(hpack, decoder, c, fs), clients)
    ensures Flooded(Run(hpack, decoder, c, fs + [From(client, PIPELINED, INSTANT)]), clients + [client])
  {
    var f := From(client, PIPELINED, INSTANT);
    assert (fs + [f])[..|fs|] == fs;
    FloodFragment(c, client);
    hide From, Handle, Swept, Flooded, TimestampNS, ParseRequest, Pipelined, PREFACE, RequestKey;
    FloodStays(c, Run(hpack, decoder, c, fs), clients, f);
    FloodHandled(hpack, decoder, c, Swept(c, Run(hpack, decoder, c, fs), f), clients, client);
  }

  /** Any n different clients of one server, each sending one pipelined request at one and the same
      instant, leave n tracked connections, whatever the limit: the total is not bounded. */
  lemma {:induction false} TrackedIsUnbounded<D>(hpack: Hpack<D>, decoder: D, c: Config, clients: seq<Endpoint>)
    requires ValidConfig(c) && c.ttl > 0 && NoDup(clients)
    ensures Flooded(Run(hpack, decoder, c, Flood(clients)), clients)
    ensures TrackedConnections(Run(hpack, decoder, c, Flood(clients))) == |clients|
    decreases |clients|
  {
    hide From, Run, PIPELINED;
    if clients == [] {
      NothingFlooded(hpack, decoder, c);
    } else {
      var before, last := clients[..|clients| - 1], clients[|clients| - 1];
      TrackedIsUnbounded(hpack, decoder, c, before);
      assert clients == before + [last];
      assert Flood(clients) == Flood(before) + [From(last, PIPELINED, INSTANT)];
      FloodStep(hpack, decoder, c, Flood(before), before, last);
    }
  }

  lemma NothingFlooded<D>(hpack: Hpack<D>, decoder: D, c: Config)
    requires ValidConfig(c)
    ensures Flooded(Run(hpack, decoder, c, Flood([])), [])
  {
    assert Flood([]) == [];
  }

  // ---------- A request that goes without a record ----------

  const STATUS_LINE: Text := [72, 84, 84, 80, 47, 49, 46, 49, 32, 50, 48, 48]

  lemma {:induction false} NoIndex(a: Text, part: Text, tail: Text)
    requires part != [] && Lacks(a, part[0]) && |tail| < |part|
    ensures IndexOf(a + tail, part).None?
    decreases |a|
  {
    var s := a + tail;
    if a != [] && |s| >= |part| {
      assert s[..|part|][0] == a[0];
      assert s[1..] == a[1..] + tail;
      NoIndex(a[1..], part, tail);
    }
  }

  lemma StatusLineParses(maxPath: nat)
    ensures ParseResponse(STATUS_LINE + CRLF) == Some(200) && ParseRequest(STATUS_LINE + CRLF, maxPath).None?
  {
    var payload := STATUS_LINE + CRLF;
    assert STATUS_LINE + CRLF + [] == payload;
    IndexAfter(STATUS_LINE, CRLF, []);
    assert payload[..|STATUS_LINE|] == STATUS_LINE;
    hide IndexOf;
    StatusParts();
  }

  lemma StatusParts()
    ensures Parts(STATUS_LINE) == [STATUS_LINE[..8], [50, 48, 48]]
    ensures Ascii("HTTP/1.") <= STATUS_LINE[..8] && Status([50, 48, 48]) == Some(200)
  {
    var version, status: Text := STATUS_LINE[..8], [50, 48, 48];
    assert Lacks(version, SPACE) && Lacks(status, SPACE);
    assert STATUS_LINE == version + [SPACE] + status;
    assert Ascii("HTTP/1.") == [72, 84, 84, 80, 47, 49, 46] && Ascii("HTTP/1.") <= version;
    hide Ascii, Lacks;
    TwoParts(version, status);
    StatusIsOk();
  }

  lemma TwoParts(a: Text, b: Text)
    requires Lacks(a, SPACE) && Lacks(b, SPACE)
    ensures Parts(a + [SPACE] + b) == [a, b]
  {
    FindAfter(a, SPACE, b);
  }

  lemma StatusIsOk()
    ensures Status([50, 48, 48]) == Some(200)
  {
    var three, two, one: Text := [50, 48, 48], [50, 48], [50];
    assert three[..2] == two && two[..1] == one && one[..0] == [];
    assert DecimalValue(one) == 2 && DecimalValue(two) == 20;
  }

  lemma GetIsSingle(maxPath: nat)
    ensures ParseRequest(GET_LINE + CRLF, maxPath).Some? && !Pipelined(GET_LINE + CRLF, maxPath)
  {
    GetLine();
    assert GET_LINE + CRLF + [] == GET_LINE + CRLF && HEADER_END[0] == CRLF[0];
    LineParses(GET_LINE, Ascii("GET"), [SLASH], [49], [], maxPath);
    NoIndex(GET_LINE, HEADER_END, CRLF);
  }

  function GetFrom(client: Endpoint, at: nat): Fragment {
    From(client, GET_LINE + CRLF, at)
  }

  function OkTo(client: Endpoint, at: nat): Fragment {
    Reversed(From(client, STATUS_LINE + CRLF, at))
  }

  /** The request waits. */
  lemma GetWaits<D>(hpack: Hpack<D>, decoder: D, c: Config, client: Endpoint, at: nat)
    requires ValidConfig(c) && c.maxTracked > 0 && at > 0
    ensures var s, k := Step(hpack, decoder, c, Initial(), GetFrom(client, at)).state, RequestKey(GetFrom(client, at));
            && k in s.http1 && s.http1[k].startedNS == at
            && s.http1Ambiguous == map[] && s.http2Connections == map[]
  {
    var f := GetFrom(client, at);
    GetIsSingle(c.maxPath);
    NotAPreface(f.payload);
    var t := Swept<D>(c, Initial(), f);
    assert t.http1 == map[] && t.http1Ambiguous == map[] && t.http2Connections == map[];
    hide ParseRequest, Pipelined, MakeTransportKey, PREFACE, HandleHttp1, HandleHttp2, RequestKey, Swept;
    assert TimestampNS(f) == at;
    Http1Cases(c, t, f);
  }

  /** A response captured at the time of its request, or earlier, ends it without any record. */
  lemma SilentRemovalHappens<D>(hpack: Hpack<D>, decoder: D, c: Config, client: Endpoint, asked: nat, answered: nat)
    requires ValidConfig(c) && c.maxTracked > 0 && c.ttl > 0 && 0 < answered <= asked
    ensures var s := Step(hpack, decoder, c, Initial(), GetFrom(client, asked)).state;
            var e := Step(hpack, decoder, c, s, OkTo(client, answered));
            var k := RequestKey(GetFrom(client, asked));
            k in s.http1 && k !in e.state.http1 && e.out == []
  {
    var f := OkTo(client, answered);
    GetWaits(hpack, decoder, c, client, asked);
    StatusLineParses(c.maxPath);
    NotAPreface(f.payload);
    var s, k := Step(hpack, decoder, c, Initial(), GetFrom(client, asked)).state, RequestKey(GetFrom(client, asked));
    assert ResponseKey(f) == k && TimestampNS(f) == answered;
    hide Step, ParseRequest, ParseResponse, MakeTransportKey, PREFACE, HandleHttp2, RequestKey, ResponseKey, TimestampNS;
    var t := Swept(c, s, f);
    assert k in t.http1 && t.http1[k] == s.http1[k] && t.http1Ambiguous == map[] && t.http2Connections == map[];
    assert !IsHttp2(t, f);
    hide Swept;
    SilentlyEnded(hpack, decoder, c, s, f, k);
  }

  lemma SilentlyEnded<D>(hpack: Hpack<D>, decoder: D, c: Config, s: State<D>, f: Fragment, k: ConnectionKey)
    requires ValidConfig(c) && !IsHttp2(Swept(c, s, f), f)
    requires ParseRequest(f.payload, c.maxPath).None? && ParseResponse(f.payload) == Some(200) && ResponseKey(f) == k
    requires var t := Swept(c, s, f); k in t.http1 && t.http1Ambiguous == map[] && TimestampNS(f) <= t.http1[k].startedNS
    ensures var e := Step(hpack, decoder, c, s, f); k !in e.state.http1 && e.out == []
  {
    hide ParseRequest, ParseResponse, Pipelined, TimestampNS, IdentityFrom, RequestKey, ResponseKey, Swept, IsHttp2, Completed;
  }
}
