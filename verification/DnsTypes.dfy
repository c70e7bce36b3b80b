/** Captured DNS datagrams, pending queries and the transactions made of them (internal/dns/dns.go). */
module DnsTypes {
  import opened Base
  import opened FlowTypes
  import opened DnsMessages

  datatype Fragment = Fragment(
    observedAt: Time,
    kernelTimestampNS: nat,
    nodeName: string,
    observerPID: nat,
    process: Option<Process>,
    sourceResolved: Option<ResolvedEndpoint>,
    destinationResolved: Option<ResolvedEndpoint>,
    sourcePod: Option<Pod>,
    destinationPod: Option<Pod>,
    observerPod: Option<Pod>,
    source: Endpoint,
    destination: Endpoint,
    payload: seq<byte>)

  /** The identity kept of a datagram: neither payload nor command line. */
  function Snapshot(f: Fragment): Fragment {
    f.(payload := [], process := if f.process.Some? then Some(f.process.value.(cmdline := "")) else None)
  }

  datatype Key = Key(
    client: Endpoint, server: Endpoint, id: nat, name: seq<byte>, queryType: nat, observerPID: nat, nodeName: string)

  /** A pending query; sequence numbers count admissions from 1. */
  datatype Query = Query(fragment: Fragment, message: Message, sequence: nat)

  function QueryKey(f: Fragment, m: Message): Key {
    Key(f.source, f.destination, m.id, m.questionName, m.questionType, f.observerPID, f.nodeName)
  }

  function ResponseKey(f: Fragment, m: Message): Key {
    Key(f.destination, f.source, m.id, m.questionName, m.questionType, f.observerPID, f.nodeName)
  }

  /** Earlier capture first; admissions in order where capture times agree. */
  predicate Before(a: Query, b: Query) {
    a.fragment.observedAt < b.fragment.observedAt || (a.fragment.observedAt == b.fragment.observedAt && a.sequence < b.sequence)
  }

  datatype Outcome = Response | NoAnswer | ParseFailed | Incomplete(reason: Reason)
  datatype Reason = CaptureEnded | StateCapacity

  datatype Transaction = Transaction(
    observedAt: Time,
    nodeName: string,
    observerPID: nat,
    process: Option<Process>,
    clientResolved: Option<ResolvedEndpoint>,
    serverResolved: Option<ResolvedEndpoint>,
    clientPod: Option<Pod>,
    serverPod: Option<Pod>,
    observerPod: Option<Pod>,
    client: Endpoint,
    server: Endpoint,
    queryName: seq<byte>,
    queryType: nat,
    outcome: Outcome,
    responseCode: Option<nat>,
    latencyMicros: Option<nat>) // None: not measured

  /** noResponse, for a datagram sent by the client. */
  function Unanswered(f: Fragment, m: Message, outcome: Outcome): Transaction {
    Transaction(f.observedAt, f.nodeName, f.observerPID, f.process, f.sourceResolved, f.destinationResolved,
                f.sourcePod, f.destinationPod, f.observerPod, f.source, f.destination,
                m.questionName, m.questionType, outcome, None, None)
  }

  function TimedOut(q: Query): Transaction {
    Unanswered(q.fragment, q.message, NoAnswer)
  }

  function CutOff(q: Query): Transaction {
    Unanswered(q.fragment, q.message, Incomplete(CaptureEnded))
  }

  /** The transaction of a response: the query's identity wins if one matched. */
  function Answered(f: Fragment, m: Message, query: Option<Query>): Transaction {
    var t := Transaction(f.observedAt, f.nodeName, f.observerPID, f.process, f.destinationResolved, f.sourceResolved,
                         f.destinationPod, f.sourcePod, f.observerPod, f.destination, f.source,
                         m.questionName, m.questionType, Response, Some(m.responseCode), None);
    match query
    case None => t
    case Some(q) =>
      t.(process := q.fragment.process, clientResolved := q.fragment.sourceResolved,
         serverResolved := q.fragment.destinationResolved, clientPod := q.fragment.sourcePod,
         serverPod := q.fragment.destinationPod, observerPod := q.fragment.observerPod,
         latencyMicros := if q.fragment.kernelTimestampNS != 0 && f.kernelTimestampNS >= q.fragment.kernelTimestampNS
                          then Some((f.kernelTimestampNS - q.fragment.kernelTimestampNS) / 1000) else None)
  }

  /** A transaction without what only a response can add. */
  function Unmeasured(t: Transaction): Transaction {
    t.(observedAt := 0, outcome := NoAnswer, responseCode := None, latencyMicros := None)
  }

  /** The datagram as if it had been sent the other way. */
  function Turned(f: Fragment): Fragment {
    f.(source := f.destination, destination := f.source,
       sourceResolved := f.destinationResolved, destinationResolved := f.sourceResolved,
       sourcePod := f.destinationPod, destinationPod := f.sourcePod)
  }

  /** A response tells of its query: the same client, server, question and identities as the record
      of a query that nobody answers. */
  lemma AnswerKeepsQueryIdentity(f: Fragment, m: Message, q: Query)
    requires ResponseKey(f, m) == QueryKey(q.fragment, q.message)
    ensures Unmeasured(Answered(f, m, Some(q))) == Unmeasured(TimedOut(q))
  {
    assert f.source == q.fragment.destination && f.destination == q.fragment.source;
  }

  /** A response that matches no query is recorded as its own query would have been. */
  lemma StrayAnswerIsTurned(f: Fragment, m: Message)
    ensures Unmeasured(Answered(f, m, None)) == Unmeasured(Unanswered(Turned(f), m, NoAnswer))
    ensures ResponseKey(f, m) == QueryKey(Turned(f), m)
  {
  }

  /** The diagnostic record of an unparsable datagram: the raw tuple, turned around only when the
      header shows a response, and without sides when there is no complete header. */
  function Unparsed(f: Fragment, payload: seq<byte>): Transaction {
    var g :=
      if |payload| < HEADER_BYTES then
        f.(sourceResolved := None, destinationResolved := None, sourcePod := None, destinationPod := None)
      else if payload[2] >= 128 then Turned(f)
      else f;
    Transaction(g.observedAt, g.nodeName, g.observerPID, g.process, g.sourceResolved, g.destinationResolved,
                g.sourcePod, g.destinationPod, g.observerPod, g.source, g.destination, [], 0, ParseFailed, None, None)
  }
}
