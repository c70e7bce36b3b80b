# A verified model of the node network collector

The collector reads kernel events on a node, groups TCP observations into time windows, pairs DNS
queries and HTTP requests with their answers, asks the connection tracking table for the true
destination of a connection, and delivers everything through a bounded queue to a collector server.
This project models those components and proves what their comments promise.

Components that update state are classes whose methods are proved equal to functions on values
(`View()` gives the value of an object); loops are loops with invariants. What holds over whole runs
is then proved about those functions, and the files named `Outcomes`, `Exact` and `Wire` say apart
from their bodies what the functions compute: by an encoder of what is read, by the fields that are
compared, or by the moves of a run. Time is an unbounded integer of nanoseconds since Go's zero
time, whose value 0 means "no time". Clocks, resolvers, reads, network answers, the Pod enricher and
the header decoder (HPACK) are parameters: a theorem holds whatever they answer, under the
assumptions it names.

| file | contents |
|---|---|
| `Http2.dfy`, `Http2Wire.dfy` | reassembling HTTP/2 header blocks from arbitrary chunks (RFC 9113 sections 4.1, 6.2 and 6.10) |
| `Http1.dfy`, `Http1Exact.dfy`, `L7.dfy`, `L7Outcomes.dfy`, `L7Safety.dfy`, `L7Pairing.dfy`, `L7Streams.dfy`, `L7Directions.dfy`, `L7Lifetime.dfy`, `L7Correlator.dfy` | the plaintext HTTP correlator |
| `DnsMessage.dfy`, `DnsMessageExact.dfy`, `DnsTypes.dfy`, `DnsHeap.dfy`, `DnsCorrelator.dfy`, `DnsAccount.dfy`, `DnsLedger.dfy`, `DnsOutcomes.dfy` | DNS parsing (RFC 1035 sections 2.3.4, 3.1, 4.1.1 and 4.1.2), the indexed heap, and the DNS correlator |
| `Capture.dfy`, `Resolution.dfy`, `EventLoop.dfy`, `EventSafety.dfy`, `EventOutcomes.dfy`, `EventTraces.dfy`, `EventTheorems.dfy` | capture time, connects waiting for their translated destination, and the interleaving of reader pump, event loop and ticks |
| `Order.dfy`, `Distribution.dfy`, `Window.dfy`, `WindowOutcomes.dfy`, `Aggregate.dfy`, `Stream.dfy`, `StreamOutcomes.dfy` | comparators, mergeable distributions, windows, batch aggregation and the live window stream |
| `Exporter.dfy`, `ExporterOutcomes.dfy`, `Client.dfy` | the bounded exporter and the collector client |
| `Conntrack.dfy` | the connection tracking resolver |
| `Preflight.dfy`, `PreflightWidths.dfy`, `Utf8Exact.dfy` | the bounded check of a wire map before it is decoded |
| `Base.dfy`, `FlowTypes.dfy`, `L7Fragment.dfy`, `Lists.dfy` | shared vocabulary, sequences and maps |

## Where the code and its promises differ

- `trackedConnections()` as a whole is not bounded: the branch for a pipelined request marks a fresh
  key ambiguous without looking at the capacity (`internal/l7/correlator.go:240-243`).
  `L7Lifetime.TrackedIsUnbounded` gives the run: any number of clients of one server on one node, each
  sending one pipelined request at the same instant. `L7Safety.GrowsBeyondExactly` is the exact
  condition; the bound that does hold is `L7Safety.RunBounded`.
- HTTP/1 drops a pending request without a record when its response is not later than it
  (`internal/l7/correlator.go:288-291`); HTTP/2 reports that case. `L7Pairing.Http1RemovalIsReported`
  says exactly when, and `L7Lifetime.SilentRemovalHappens` gives two fragments for which it does.
- `preflightMap` says that it rejects noncanonical widths, but it accepts a decimal or a length
  written wider than needed (`Preflights.WideFormsAreAccepted`). An accepted body is the shortest
  with its keys and values exactly when no digit string and no length prefix in it is longer than
  needed, and there is only one such body:
  `PreflightWidths.WiderThanNeededExactly` and `PreflightWidths.NarrowBodyIsUnique`.
- `Distribution.Merge` commutes exactly when two empty measurements agree
  (`Distributions.MergeCommutesExactly`), and a count that wraps to zero makes the order of merging
  matter (`Distributions.WrappedCountBreaksOrder`); when it does is `Distributions.MergeAssociatesExactly`.
  Order independence of aggregation therefore asks that a zero count mean an empty measurement and that
  no window's sample count wrap.
- A Pod without a UID is dropped from the window, so two keys that differ only in such a Pod have
  windows that look alike (`Windows.UnnamedPodsLookAlike`); the order leaves keys undecided in exactly
  that case (`Windows.UndecidedExactly`), and the list of windows then depends on map iteration and
  sorting exactly if two such windows differ (`Aggregation.AggregateIgnoresOrder`). The repository's own
  enricher never yields a Pod without a UID (`internal/podidentity/cache.go:70`), so there the order
  is determined (`Aggregation.NamedPodsHaveNoTwins`).
- `feed` ignores DATA and other frames between HEADERS and CONTINUATION, where section 6.10 of RFC 9113
  asks for a connection error. Of the frames that section forbids it reports exactly the HEADERS and
  CONTINUATION frames (`Http2.InterruptionReportedExactly`, `Http2.DataPassesUnreported`).

## Model

| member | source | states |
|---|---|---|
| `Http2.FragmentationIndependent` | internal/l7/http2.go:89-187 | Two ways of cutting the same bytes into calls give the same blocks, verdict, unread bytes, open header block and decoder, from any direction state, as long as no call overruns the buffer. |
| `Http2.PiecesActLikeOne` | internal/l7/http2.go:89-187 | Pieces that fit the buffer together act like one call with all of them. |
| `Http2.FeedAllIsDrain` | internal/l7/http2.go:89-187 | A run of feed calls computes the reference meaning of the whole byte stream, in which every byte carries the origin of the call that delivered it. |
| `Http2.DrainConcat` | internal/l7/http2.go:101-187 | Walking a stream in two stretches equals walking it at once; an error in the first stretch is final. |
| `Http2.WithinLimitFits` | internal/l7/http2.go:91-94 | Bytes that fit the buffer together never overrun it, however they are cut. |
| `Http2Wires.FrameIsRead` | internal/l7/http2.go:101-118 | A frame written as nine header octets (24-bit length, kind, flags, reserved bit, 31-bit stream) and payload is cut and read back as it was, whatever follows. |
| `Http2Wires.FragmentExactly` | internal/l7/http2.go:208-226 | A HEADERS payload yields a fragment exactly if it is that fragment behind the pad length and the five priority octets that the flags announce, before the padding. |
| `Http2Wires.SentIsRead` | internal/l7/http2.go:89-187 | Whatever a sender writes, header blocks cut into HEADERS and CONTINUATION frames with any padding, priority and reserved bits, and frames of other kinds between blocks, is read back as the decoded blocks in order, with nothing left over. |
| `Http2Wires.RunReadsWhatWasSent` | internal/l7/http2.go:89-187 | So is it over any run of feed calls, however the bytes are cut, as long as no call overruns the buffer. |
| `Http2Wires.RunSucceedsExactly` | internal/l7/http2.go:91-112 | A run reports no error exactly if no call overruns the buffer and walking the whole stream reports none. |
| `Http2Wires.IdleErrorsExactly` | internal/l7/http2.go:132-165 | With no block open, an error is reported exactly for a CONTINUATION frame and for a HEADERS frame without a stream, that wraps no fragment, one too long, or a complete one that is not decodable. |
| `Http2.OriginsDoNotSteer` | internal/l7/http2.go:95-130 | Times and identities are carried along but never change blocks, verdict or state. |
| `Http2.Provenance` | internal/l7/http2.go:119-183 | The blocks of a stretch correspond, one to one and in order, to the header block open at its start and the HEADERS frames walked over in it: each has stream and first-byte origin of its own frame, and without an error only the one left open has given no block. |
| `Http2.FirstByteProvenance` | internal/l7/http2.go:95-183 | From a new direction, the i-th emitted block is that of the i-th HEADERS frame of the stream and has time and identity of the very call that delivered that frame's first byte; without an error every HEADERS frame but one still open has given its block. |
| `Http2.StartsAreHeaders` | internal/l7/http2.go:101-134 | The offsets counted as starts of HEADERS frames really hold a HEADERS frame header of that stream. |
| `Http2.OpenBlockErrorsExactly` | internal/l7/http2.go:132-186 | While a header block is open, an error is reported exactly for a HEADERS frame, a CONTINUATION of another stream, and a CONTINUATION that is oversize or not decodable; any other kind changes nothing. |
| `Http2.InterruptionReportedExactly` | internal/l7/http2.go:132-165 | Of the frames that section 6.10 of RFC 9113 forbids inside a header block, feed reports exactly those of kind HEADERS and CONTINUATION. |
| `Http2.DataPassesUnreported` | internal/l7/http2.go:132-165 | A forbidden DATA frame inside a header block passes without error, and the block stays open as it was. |
| `Http2.DirectionState.Feed` | internal/l7/http2.go:89-187 | The object with one origin for its whole buffer computes exactly one step of the reference. |
| `Http2.DirectionState.DrainBuffer` | internal/l7/http2.go:101-187 | The loop of feed digests the buffer as the reference does, for the origins its bytes really had. |
| `Http2.DirectionState.TakeFrame` | internal/l7/http2.go:113-130 | After cutting a frame, the remaining bytes have the current call's origin, and walking on gives the same result. |
| `Http2.DirectionState.Join` | internal/l7/http2.go:132-186 | HEADERS and CONTINUATION are joined, bounded and decoded as the frame semantics says. |
| `Http2.DirectionState.Poison` | internal/l7/http2.go:189-206 | A poisoned direction keeps nothing but its decoder. |
| `Http1.RequestExactly` | internal/l7/correlator.go:529-546 | A payload parses as a request exactly when its first line is method, target and HTTP/1 version with single spaces; the path is the target without query, bounded. |
| `Http1Exact.FirstLineExactly` | internal/l7/correlator.go:570-575 | The first line is what stands before the first CR LF, or everything. |
| `Http1Exact.MethodsExactly` | internal/l7/correlator.go:577-584 | Exactly the nine standard methods are recognized. |
| `Http1Exact.PathExactly` | internal/l7/correlator.go:535-545 | The path is the target up to its first question mark, cut to the limit. |
| `Http1Exact.ResponseExactly` | internal/l7/correlator.go:557-568 | A payload parses as a response of a status exactly when its first line is a version of HTTP/1, a space, the three digits of that status from 100 to 599, and nothing or a space more. |
| `Http1Exact.StatusExactly` | internal/l7/http2.go:236-239 | A :status value counts exactly if it is the decimal form of a number from 100 to 599, zeros in front allowed. |
| `Http1Exact.PipelinedExactly` | internal/l7/correlator.go:548-555 | Another request is seen behind a message exactly if one begins behind its first blank line. |
| `L7.TransportIsShared` | internal/l7/http2.go:252-271 | Both directions of a connection have one transport key. |
| `L7Outcomes.TransportKeysExactly` | internal/l7/http2.go:252-271 | Two fragments are of one connection exactly if observer and both endpoints agree, the same way or exchanged, and of one direction exactly if the same way. |
| `L7Outcomes.ConnectionKeysExactly` | internal/l7/correlator.go:230-284 | A response looks for exactly the requests of its observer whose endpoints are its own, exchanged. |
| `L7Outcomes.TimeExactly` | internal/l7/correlator.go:519-527 | A fragment's time is the kernel's, and without one the wall clock's in nanoseconds of Unix time. |
| `L7Outcomes.IdentityTells` | internal/l7/correlator.go:137-153 | The identity taken of a fragment has its own sides, Pods and process, less the command line. |
| `L7Outcomes.Http1RecordsExactly` | internal/l7/correlator.go:229-317 | An HTTP/1 message puts out one transaction exactly if it is a final response later than the request waiting under its key, told field by field; an upgrade drop exactly if it is a 101 response to one; an overlap or capacity drop exactly if it is a request that cannot be paired or has no room; and nothing else. |
| `L7Outcomes.Http1WaitsExactly` | internal/l7/correlator.go:229-291 | What waits and what is ambiguous after an HTTP/1 message, in each of these cases and no other. |
| `L7Outcomes.SweepsExactly` | internal/l7/correlator.go:320-364 | A sweep, due with every sweepEvery-th fragment that has a time, removes from all five maps exactly the entries as old as the lifetime. |
| `L7Outcomes.SweepReportsExactly` | internal/l7/correlator.go:329-352 | It reports exactly the waiting requests it removes, each with a timeout drop of its connection and protocol. |
| `L7Outcomes.HeadExactly` | internal/l7/http2.go:229-250 | A block is a request with the last method and path, or a response with the last valid status, exactly as the last such fields say. |
| `L7Outcomes.RequestBlockExactly` | internal/l7/correlator.go:430-465 | A request block starts a stream with its own origin, ends a waiting one as invalid, or is refused for want of room. |
| `L7Outcomes.ResponseBlockExactly` | internal/l7/correlator.go:466-505 | A final response block to a waiting stream ends it: with a transaction exactly if its frame began later than the request's, otherwise with an invalid-latency drop. |
| `L7Outcomes.PairsInOrder` | internal/l7/correlator.go:428-506 | The blocks of a fragment are paired one after the other, and their records come in that order. |
| `L7Outcomes.LossPoisons` | internal/l7/correlator.go:403-422 | A fragment is lost exactly if it was cut short or cannot be digested on a direction not yet poisoned; then the direction is poisoned for good. |
| `L7Outcomes.TrackedExactly` | internal/l7/correlator.go:396-428 | A fragment is fed to its own direction, a new one if it is the first; if it is lost exactly one desync drop comes out and no stream changes, otherwise its blocks are paired. |
| `L7Outcomes.OneBlockPaired` | internal/l7/correlator.go:428-506 | A single block is paired as the block it is, and no block changes nothing. |
| `L7Outcomes.StepIsSweepThenHandle` | internal/l7/correlator.go:224-228 | A fragment is a message of HTTP/2 exactly on a known connection or with the preface, judged after the sweep, and else one of HTTP/1. |
| `L7Outcomes.ConnectionsExactly` | internal/l7/correlator.go:384-414 | An HTTP/2 connection is opened exactly by the preface and if there is room; connection and direction are then seen at the fragment's time. |
| `L7Safety.RunBounded` | internal/l7/correlator.go:224-318 | In every run pending streams, and HTTP/1 requests plus HTTP/2 connections, stay within their limits, and no HTTP/1 key is both pending and ambiguous. |
| `L7Safety.GrowsBeyondExactly` | internal/l7/correlator.go:240-250 | At the limit, the tracked total grows exactly for a pipelined request on a key neither pending nor ambiguous. |
| `L7Lifetime.TrackedIsUnbounded` | internal/l7/correlator.go:240-243 | Any n different clients of one server on one node, each sending one pipelined request at one nonzero instant, leave n tracked connections, whatever the limit. |
| `L7Lifetime.SilentRemovalHappens` | internal/l7/correlator.go:286-291 | A request, and a response captured no later than it, leave nothing waiting and nothing recorded. |
| `L7Lifetime.DirectionsBelongToConnections` | internal/l7/correlator.go:347-358 | Fed in order of nonzero times, every direction state belongs to a tracked connection seen no earlier. |
| `L7Pairing.WaitingIsGrounded` | internal/l7/correlator.go:229-285 | Every waiting HTTP/1 request is the last message that concerned its key: no later request and no final response. |
| `L7Pairing.Http1PairsOneRequest` | internal/l7/correlator.go:271-318 | An HTTP/1 transaction uses time, method, path and identity of one earlier request on its key, nothing on that key lies between, and its latency is a positive time difference; its status is the response's. |
| `L7Streams.StreamsAreFromLog` | internal/l7/correlator.go:430-470 | Every waiting HTTP/2 stream was opened by the last block of the run that touched it. |
| `L7Streams.Http2PairsOneRequest` | internal/l7/correlator.go:430-506 | An HTTP/2 transaction uses origin, method and path of one earlier request block on its stream, no block between touched that stream, and its latency is the positive difference of the times of the two blocks, which are those of their HEADERS frames (`L7Directions.BlocksComeFromOwnFrames`). |
| `L7Directions.DirectionsAreFed` | internal/l7/correlator.go:384-428 | In every run a direction that is not poisoned is what a new direction becomes by feeding it, one by one, the chunks it was given since it was made. |
| `L7Directions.ChunksAreFragments` | internal/l7/correlator.go:384-428 | Each such chunk is the payload of a fragment of that very direction, less a connection preface, with that fragment's time and identity. |
| `L7Directions.BlocksComeFromOwnFrames` | internal/l7/correlator.go:403-430 | The header blocks a fragment completes are those of the next HEADERS frames in the bytes of its direction, each with time and identity of the fragment that brought its frame's first byte. |
| `L7Pairing.Http1RemovalIsReported` | internal/l7/correlator.go:240-318 | A waiting request is removed with exactly one record, the one of `L7Outcomes.Http1RecordsExactly`, or silently exactly when a non-upgrade final response is not later than it. |
| `L7Pairing.PairsConserve` | internal/l7/correlator.go:430-505 | Request blocks and waiting streams balance: those waiting afterwards plus what the records account for are those waiting before plus the request blocks. |
| `L7Pairing.RemovedStreamIsReported` | internal/l7/correlator.go:430-505 | A block takes away no waiting stream but its own, and does so exactly when its one record closes that stream; a completed one tells method, path, identity and stream of the request that waited. |
| `L7Pairing.SweepConserves` | internal/l7/correlator.go:320-346 | The numbers of entries a sweep takes out and of drops it reports agree. |
| `L7Pairing.SweptStreamIsReported` | internal/l7/correlator.go:320-346 | A sweep removes exactly the waiting streams it reports, each with a timeout drop that names its connection. |
| `L7Pairing.Http2Conserves` | internal/l7/correlator.go:384-507 | Over any run, request blocks and refused connections equal what the records account for plus the streams still waiting. |
| `L7Correlators.Correlator.Process` | internal/l7/correlator.go:224-360 | The object with its maps of state objects computes exactly one step; sweep drops come first, in some order. |
| `L7Correlators.Correlator.ProcessHttp2` | internal/l7/correlator.go:384-428 | The connection and direction bookkeeping of HTTP/2 changes no other direction's state. |
| `L7Correlators.Correlator.FeedDirection` | internal/l7/correlator.go:403-428 | Feeding, or finding a loss and poisoning, changes exactly one direction. |
| `L7Correlators.Correlator.PairAll` | internal/l7/correlator.go:430-506 | The loop over blocks pairs them one after the other. |
| `L7Correlators.Correlator.Expire` | internal/l7/correlator.go:320-360 | Every sweepEvery-th fragment with a time removes exactly the expired entries of all five maps. |
| `L7Correlators.Correlator.ProcessRequest` | internal/l7/correlator.go:229-259 | Sticky ambiguity, overlap and capacity in the order of the code. |
| `L7Correlators.Correlator.ProcessResponse` | internal/l7/correlator.go:262-318 | Interim responses leave the request waiting; upgrades and completions end it. |
| `L7Correlators.ReadHead` | internal/l7/http2.go:229-250 | The last value of each pseudo header counts, and an invalid status does not overwrite a valid one. |
| `DnsMessages.ParseNameExactly` | internal/dns/dns.go:129-159 | parseName answers a name and an end exactly when the bytes up to there are the wire form of labels of 1 to 63 visible characters joined to at most 253 bytes. |
| `DnsMessages.WireIsUnique` | internal/dns/dns.go:129-159 | A byte sequence is the wire form of at most one label list. |
| `DnsMessages.WireLength` | internal/dns/dns.go:150-158 | A nonempty name takes two bytes more on the wire than in dotted form, so at most 255. |
| `DnsMessages.EncodedLabelsParse` | internal/dns/dns.go:129-159 | Parsing gives back the labels of an encoded name. |
| `DnsMessages.ParsedLabelsAreEncoded` | internal/dns/dns.go:129-159 | What was parsed is what was encoded: the bytes read are the wire form of the result. |
| `DnsMessages.ParseInvertsEncoding` | internal/dns/dns.go:88-113 | Parsing an encoded message returns its id, flags, name and type. |
| `DnsMessageExact.ParsesExactly` | internal/dns/dns.go:88-113 | A datagram parses to a message exactly if it has a whole header with that identifier, response bit and code, and either no question, or a first question of that name and type with room for its class. |
| `DnsMessageExact.LabelsExactly` | internal/dns/dns.go:117-127 | A label is 1 to 63 octets of visible ASCII. |
| `DnsMessages.ParseName` | internal/dns/dns.go:129-159 | The loop with one growing name computes the recursive parse, errors included. |
| `DnsLedgers.LatencyIsMeasuredExactly` | internal/dns/dns.go:258-349 | After any calls, a response datagram yields exactly one response transaction; it has a latency exactly when a query that it answers (`DnsOutcomes.KeysExactly`) is pending after expiry with a nonzero kernel time that is not later, and the latency is the difference of the two times. |
| `DnsOutcomes.QueryIsAdmitted` | internal/dns/dns.go:258-313 | After any calls, a query times out the old queries, then does nothing if a young one asks the same, is recorded as refused if the young ones fill the room, and else waits under the next number. |
| `DnsOutcomes.ResponseCloses` | internal/dns/dns.go:258-349 | A response closes exactly the young queries it answers by their fields and is recorded with that query, or as a stray if there is none. |
| `DnsOutcomes.UnparsableIsRecorded` | internal/dns/dns.go:258-290 | An unparsable datagram expires the old queries and is recorded, nothing else. |
| `DnsOutcomes.ExpireKeepsYoung` | internal/dns/dns.go:381-396 | Expiry removes exactly the queries whose age has reached the timeout and records each as unanswered, by capture time and admission. |
| `DnsOutcomes.FinishReportsAll` | internal/dns/dns.go:354-367 | The end of the capture times out the old queries and reports the young as cut off, each once, in order. |
| `DnsOutcomes.FlushReportsAll` | internal/dns/dns.go:369-377 | Flush reports every pending query as unanswered, once, in order. |
| `DnsTypes.AnswerKeepsQueryIdentity` | internal/dns/dns.go:335-345 | A matched response records the same client, server, question and identities as the record of a query that nobody answers. |
| `DnsTypes.StrayAnswerIsTurned` | internal/dns/dns.go:315-334 | An unmatched response is recorded as its own query, sent the other way, would have been. |
| `DnsOutcomes.KeysExactly` | internal/dns/dns.go:292-315 | A query repeats another, and a response answers it, exactly if identifier, name, type, observer and node agree and the endpoints are the same, or exchanged. |
| `DnsOutcomes.SnapshotKeeps` | internal/dns/dns.go:400-430 | A snapshot differs from its datagram in payload and command line only. |
| `DnsOutcomes.TransactionsTell` | internal/dns/dns.go:316-349 | Every record tells of its query field by field, with the query's sender as client; an answered one adds the response's time and code and the measured latency; a stray one has the response's receiver as client. |
| `DnsOutcomes.UnparsedTells` | internal/dns/dns.go:263-290 | The record of an unparsable datagram has sides only with a whole header, turned if the header marks a response. |
| `DnsHeaps.RootIsFirst` | internal/dns/pending.go:11-16 | No element of a heap comes before its root. |
| `DnsHeaps.PendingHeap.Push` | internal/dns/pending.go:21-25 | Pushing adds one query, keeps heap order, and every query still knows its slot. |
| `DnsHeaps.PendingHeap.Remove` | internal/dns/pending.go:26-39 | Removal by stored index takes out exactly that query, and keeps heap order and indexes. |
| `DnsHeaps.PendingHeap.Up` | internal/dns/pending.go:11-25 | Sifting up repairs a heap that is wrong only at one slot. |
| `DnsHeaps.PendingHeap.Down` | internal/dns/pending.go:11-20 | Sifting down repairs a heap that is wrong only below one slot, and says whether it moved anything. |
| `DnsCorrelators.Correlator.Remove` | internal/dns/pending.go:36-39 | Map and heap lose the same query and keep agreeing. |
| `DnsCorrelators.Correlator.ExpireAged` | internal/dns/dns.go:385-396 | Removes exactly the queries at least as old as the timeout, reports them in due order, and keeps all others. |
| `DnsCorrelators.Correlator.Process` | internal/dns/dns.go:258-350 | Expiry first, then the datagram's own effect on the pending map and outputs. |
| `DnsCorrelators.Correlator.Finish` | internal/dns/dns.go:354-365 | Aged queries time out, fresh ones are reported incomplete, each in due order, and none stays. |
| `DnsCorrelators.Correlator.Flush` | internal/dns/dns.go:369-377 | Everything pending is reported unanswered, in due order. |
| `DnsCorrelators.StepIsGood` | internal/dns/dns.go:258-396 | Every call keeps the pending limit, distinct sequence numbers, and keys that belong to their queries. |
| `Lists.InOrderIsExact` | internal/dns/dns.go:385-396 | The due order lists every pending query exactly once, ascending. |
| `DnsAccounts.EveryQueryIsAccounted` | internal/dns/dns.go:258-396 | By number: after any calls each number given out is pending or was settled exactly once, never both. |
| `DnsLedgers.EveryAdmittedQueryIsClosedOnce` | internal/dns/dns.go:258-396 | After any calls each query in the log of admitted queries is, unchanged, either pending or closed by exactly one transaction, and that one reports its timeout, the end of the capture, or a response under its key among the calls. |
| `DnsAccounts.EndingSettlesAll` | internal/dns/dns.go:354-377 | After Finish or Flush nothing is pending and every number given out was settled exactly once. |
| `DnsAccounts.EveryDatagramIsAccounted` | internal/dns/dns.go:258-350 | Over any run responses equal response records, unparsable datagrams equal parse failures, and queries equal admissions plus capacity records plus duplicates. |
| `DnsAccounts.StillPending` | internal/dns/dns.go:258-396 | A pending query survives, unchanged, any calls before its deadline that do not answer it. |
| `DnsAccounts.PendingStaysBare` | internal/dns/dns.go:398-451 | In every run no pending query holds a datagram or a command line. |
| `Captures.WatermarkExactly` | internal/app/event_stream.go:67-80 | A time is at or before the watermark exactly when it is at or before the capture time and every outstanding read. |
| `Captures.CaptureProgress.Accept` | internal/app/event_stream.go:36-45 | An accepted read is outstanding; the first terminal one fixes the capture end. |
| `Captures.CaptureProgress.Consume` | internal/app/event_stream.go:46-51 | Exactly the oldest outstanding read is released. |
| `Captures.CaptureProgress.Finish` | internal/app/event_stream.go:52-58 | The capture end is fixed once. |
| `Captures.CaptureProgress.ReadWatermark` | internal/app/event_stream.go:67-80 | The loop over outstanding reads finds the least of them and the capture time. |
| `EventLoops.Run` | internal/app/event_stream.go:85-150 | In every interleaving exactly the reads in the pump are outstanding, in order, so consume never runs dry. |
| `EventSafety.EveryConnectIsKept` | internal/app/events.go:227-254 | Flow by flow and in order, the egress connects that reached the loop are, with their original observation, those recorded followed by the one waiting; at most 1024 wait, on different flows, all unresolved. |
| `EventSafety.FinishedIsComplete` | internal/app/events.go:96-102 | A run that ended by itself or by cancellation has emptied the pump, keeps nothing waiting and recorded exactly the egress connects that reached the loop. |
| `EventTraces.EveryReadIsTraced` | internal/app/event_stream.go:85-150 | In every run the reads the pump accepted are, in order, those received and those still in the pump; of the received ones each egress connect entered the pending list, each other flow event became a record, each datagram was processed, each record was put to the stream. |
| `EventTraces.EveryAcceptedReadIsRecorded` | internal/app/events.go:96-254 | A run that has ended recorded, flow by flow and in order, exactly the egress connects among the accepted reads, with original flow and capture time, every other flow event, and processed every datagram; nothing else was put to the stream. |
| `EventSafety.FlushMarkHeld` | internal/app/events.go:141-146 | The flush watermark is no later than any outstanding read, any waiting connect and the clock. |
| `EventOutcomes.CaptureEndsOnce` | internal/app/event_stream.go:36-65 | In every run the capture ends with the first last read, cancellation or end, and keeps that move's time. |
| `EventOutcomes.ExpiresByMark` | internal/app/events.go:138-140 | An expiry tick expires by the clock, or the end of the capture, or the earliest read still in the pump, whichever is least. |
| `EventOutcomes.FlushesByMark` | internal/app/events.go:141-148 | A flush tick flushes by the least of that and of the times of the waiting connects. |
| `EventOutcomes.FlowIsHandled` | internal/app/events.go:219-260 | A flow event received is observed at its capture time with what one lookup found; an egress connect is then taken into the pending list, anything else recorded. |
| `EventOutcomes.RetryTickLeavesNobodyOverdue` | internal/app/events.go:123-137 | In every run a retry tick deals out all waiting connects, and afterwards no deadline is at or before a time that all its readings have reached. |
| `EventOutcomes.TickGoesRound` | internal/app/events.go:123-150 | Retries, expiry and flush of a tick follow each other without getting stuck, and the loop goes on as before. |
| `EventOutcomes.EndIsHandled` | internal/app/events.go:95-102 | The loop ends only when nothing more can come and, unless it was cancelled, nothing waits; the end records everything that waits as unresolved, in order, and finishes the DNS correlator by the end of the capture. |
| `EventOutcomes.ReadsAreBounded` | internal/app/event_stream.go:94-130 | In every run the pump accepts at most as many reads as it was asked for, and stops with the last one. |
| `EventOutcomes.CancellationIsKept` | internal/app/events.go:107-119 | A cancellation stops the pump at once and, once the pump has been joined, ends the waiting for good. |
| `EventTheorems.NoObservationIsLate` | internal/app/events.go:123-158 | Whatever the interleaving and the enricher, the stream accepts every observation the loop encodes, unless there is no room for its window. |
| `EventTheorems.EmitsBatchOfEverything` | internal/app/pipeline.go:62-110 | As long as there is room, the windows of all flushes and the finish, partial marks erased, are the batch table of every observation encoded, none emitted twice. |
| `EventTheorems.NoQueryExpiresEarly` | internal/app/events.go:123-141 | A query whose first response was accepted within the timeout is still pending when that response is received, however long it waited and however many ticks expired queries meanwhile; the response settles it. |
| `Resolutions.SiftKeepsFlow` | internal/app/events.go:124-135 | A pass over the waiting connects loses, repeats and reorders nothing of any flow. |
| `Resolutions.TakenKeeps` | internal/app/events.go:230-254 | A new connect ends an earlier one on its tuple and then waits or is recorded, keeping the ledger faithful and bounded. |
| `Resolutions.PendingList.Retry` | internal/app/events.go:123-137 | Every item is looked up once more, a backend filling its destination and a frontend its source; item by item and in order, it is left exactly if it is unresolved and its deadline not reached, and else recorded once with attempts, outcome and reason. |
| `Resolutions.PendingList.Connect` | internal/app/events.go:230-254 | Earlier connects on the flow are recorded as superseded; then an unresolved one waits for 250 ms if fewer than 1024 wait, and else is recorded at once as resolved or refused. |
| `Resolutions.PendingList.End` | internal/app/events.go:97-102 | A cancelled capture records everything that waits, in order and as it is, and leaves nothing. |
| `Order.TextOrder` | internal/flow/window.go:193-227 | String comparison is antisymmetric, transitive and zero only on equal strings. |
| `Order.FieldsOrder` | internal/flow/window.go:193-259 | Field-by-field comparison is a total order on records of like shape. |
| `Windows.OrderSeesKeys` | internal/flow/window.go:193-259 | The window comparator leaves two keys undecided only if they are equal, when nothing of them escapes it. |
| `Windows.UndecidedExactly` | internal/flow/window.go:193-259 | For any two keys the comparator leaves their windows undecided exactly when the keys agree after dropping command lines and Pods without a UID. |
| `Windows.UnnamedPodsLookAlike` | internal/flow/window.go:144-152 | Without that condition two different keys have windows of the same identity. |
| `WindowOutcomes.TruncateExactly` | internal/flow/window.go:110 | A bucket starts at the multiple of the window size at or before the time and less than one size away. |
| `WindowOutcomes.KeysExactly` | internal/flow/window.go:109-134 | Two observations share a window exactly if they agree on bucket, flow, resolved ends, process without command line, and Pods. |
| `WindowOutcomes.WindowShows` | internal/flow/window.go:109-163 | A window holds its observation's time, is one size long, and shows its flow, ends, process without command line, and Pods with a UID. |
| `WindowOutcomes.OrderExactly` | internal/flow/window.go:193-220 | Windows are sorted by start, node, protocol, direction, source and destination: the first of these that differs decides. |
| `WindowOutcomes.TextByFirstDifference` | internal/flow/window.go:193-220 | Of two strings the first differing character decides, and a proper prefix comes first. |
| `Windows.TableGroups` | internal/flow/window.go:165-189 | A window folds exactly the observations of its key, in order. |
| `Windows.FoldTotals` | internal/flow/window.go:261-274 | A window's counters are the sums over its observations, modulo 64 bits. |
| `Windows.FoldLatest` | internal/flow/window.go:261-274 | The last observation time is the maximum. |
| `Windows.FoldSummarizes` | internal/flow/window.go:261-274 | RTT and jitter are the summaries of the samples the observations carry. |
| `Windows.MeasuredWindowsAreValid` | internal/bridge/validation.go:55-75 | A window built from point samples passes the RTT check whenever it is within the numeric limits and neither number nor sum of its samples wraps. |
| `Aggregation.Aggregate` | internal/flow/window.go:165-191 | The map loop and sort produce the windows of the table of keys, each once, sorted. |
| `Aggregation.AggregateIgnoresOrder` | internal/flow/window.go:165-274 | For permuted well-formed observations, no single window's sample count wrapping: every run of the aggregation gives the identical window list exactly when no two different windows belong to keys that the order does not tell apart. |
| `Aggregation.NamedPodsHaveNoTwins` | internal/flow/window.go:144-189 | That is so whenever every Pod without a UID is the zero Pod. |
| `Aggregation.TableOfPermutation` | internal/flow/window.go:165-189 | Folding per key commutes, so the table of a permutation is the same, as long as no single window's sample count wraps. |
| `Streams.RunKeeps` | internal/flow/stream.go:45-85 | After any adds and flushes, emitted and open windows share the batch table of the accepted observations, no key in both, at most MaxWindows open. |
| `Streams.StreamRefinesBatch` | internal/flow/stream.go:45-100 | A finished run emitted, partial marks erased, the batch table of exactly the accepted observations, no key twice. |
| `StreamOutcomes.FinishMarksWhatHasNotEnded` | internal/flow/stream.go:87-100 | Finish emits everything open; a window is marked partial exactly if no tick, the finish included, has reached its end less the allowed lateness. |
| `StreamOutcomes.WatermarkIsHighest` | internal/flow/stream.go:68-74 | In every run there is a watermark exactly if there was a flush, and it is the highest flush time less the allowed lateness. |
| `Streams.PartialExactly` | internal/flow/stream.go:68-100 | No flushed window is partial; of those that Finish emits, one is exactly if its end is after the final watermark, the highest of all ticks (`StreamOutcomes.WatermarkIsHighest`). |
| `StreamOutcomes.VerdictExactly` | internal/flow/stream.go:45-66 | In every run an observation is refused exactly for want of a time, if some flush has closed its window, or for want of room for a new window. |
| `StreamOutcomes.TickEmitsWhatHasEnded` | internal/flow/stream.go:68-83 | A flush emits exactly the open windows that some flush by now has closed, unchanged, and keeps the others. |
| `StreamOutcomes.FinishIsFinal` | internal/flow/stream.go:45-100 | After Finish nothing is accepted or emitted any more. |
| `Streams.EmittedIsPermutationOfBatch` | internal/flow/stream.go:68-100 | The windows written out, in whatever order each batch had, are a permutation of any batch aggregate. |
| `Streams.Stream.Add` | internal/flow/stream.go:45-66 | Verdict and new state in the order closed, untimed, late, no room. |
| `Streams.Stream.Flush` | internal/flow/stream.go:68-83 | Exactly the windows ended by the raised watermark are emitted, sorted; the watermark never goes back. |
| `Streams.Stream.Finish` | internal/flow/stream.go:87-100 | Everything left is emitted once and the stream is closed. |
| `Distributions.MergeIsConcat` | internal/flow/stats.go:19-40 | Merging summaries is summarizing the concatenated samples. |
| `Distributions.MergeCommutesExactly` | internal/flow/stats.go:19-40 | Two distributions merge alike both ways exactly if they are equal whenever both counts are zero. |
| `Distributions.MergeAssociates` | internal/flow/stats.go:19-40 | Merging associates where counts do not wrap to zero. |
| `Distributions.MergeAssociatesExactly` | internal/flow/stats.go:19-40 | Merging associates exactly when no pair's counts add up to 2^64, or the figures of such a pair would not have changed the third one. |
| `Distributions.WrappedCountBreaksOrder` | internal/flow/stats.go:19-40 | With a count that wraps to zero the order of merging changes the result. |
| `Distributions.ValidRttExactly` | internal/bridge/validation.go:55-75 | Within the limits the check accepts count, sum, minimum and maximum exactly when some samples have them. |
| `Distributions.MergeKeepsRealizable` | internal/flow/stats.go:19-40 | Merging keeps distributions realizable. |
| `Exporters.DeliversAtMostOnce` | internal/tagcount/exporter.go:162-182 | Over every interleaving, with Send bound by what the client proves of the traffic: Send is called in order on a prefix of the queued packs; the traffic consists of the frames, each one writeAll of its own pack's frame, at most one per pack, one exactly if Send reported no plain error, whole if it reported success; a connection that failed carries no later frame; nothing follows a failure; ordinals grow. |
| `Exporters.ConnectionsCarryFrames` | internal/tagcount/exporter.go:162-182 | Every connection carries, one after the other, what the frames sent on it put there, and nothing else. |
| `Exporters.FramePart` | internal/tagcount/exporter.go:162-182 | A frame puts a prefix of its own pack's frame on its connection, all of it when it was taken, and nothing on any other. |
| `Exporters.PendingIsExact` | internal/tagcount/exporter.go:135-140 | Queued less written less failed is the queue plus the pack held, thrown away, or being sent or recorded. |
| `Exporters.NothingQueuedAfterClose` | internal/tagcount/exporter.go:186-191 | Once Close has begun no move sends to the queue. |
| `Exporters.OrdinalsStep` | internal/tagcount/export_events.go:55-68 | Ordinals count dropped attempts too and are never reused. |
| `ExporterOutcomes.RepliesExactly` | internal/tagcount/exporter.go:94-122 | A producer is refused exactly after Close, after a failure, or for another node; otherwise a built pack is taken, a record without a pack skipped, and one that cannot be built rejected. |
| `ExporterOutcomes.QueueExactly` | internal/tagcount/export_events.go:55-68 | A taken pack is queued behind the others exactly if there is room and dropped otherwise, numbered by how many were taken before; nothing else changes the queue. |
| `ExporterOutcomes.RecordsAreCounted` | internal/tagcount/exporter.go:94-122 | In every run each record that was not refused is counted exactly once, as queued, dropped, or skipped for its reason, unless it could not be built. |
| `ExporterOutcomes.NothingSentAfterTimeout` | internal/tagcount/exporter.go:165-168 | Once draining has timed out no further pack is passed to Send. |
| `ExporterOutcomes.FailureIsKept` | internal/tagcount/exporter.go:143-182 | In every run the failure kept for producers and Close is exactly that of the last Send, once the worker has stopped. |
| `ExporterOutcomes.OrderlyEndSendsAll` | internal/tagcount/exporter.go:162-200 | Once the worker has stopped without a timed-out drain and without a failed Send, every pack ever queued was sent, successfully and in order. |
| `Exporters.Exporter.Produce` | internal/tagcount/exporter.go:94-122 | Closed, failed, foreign node, skipped and rejected records in the order of the code; only a built pack is queued or dropped. |
| `Exporters.Exporter.Enqueue` | internal/tagcount/export_events.go:55-68 | A full queue drops and counts, never waits; a record identity gets its ordinal first. |
| `Exporters.Exporter.Deliver` | internal/tagcount/exporter.go:165-168 | What the worker is told by Send is a possible return for the traffic Send has caused. |
| `Exporters.Exporter.Record` | internal/tagcount/exporter.go:169-179 | A failed send is counted and ends the worker; a written one lets it go on. |
| `Exporters.Exporter.Fail` | internal/tagcount/exporter.go:143-181 | A failure is kept for producers and Close, and the worker has left its loop. |
| `Clients.WriteAll` | internal/whatap/protocol.go:154-171 | The network is asked for one writeAll: each call offers what is left on that connection, the first failing or last one ends it; a nil error means all was taken. |
| `Clients.WriteAllCarries` | internal/whatap/protocol.go:154-171 | One writeAll puts a prefix of its data on its connection, without gap or repetition, all of it if every call was fine, and nothing on any other connection. |
| `Clients.Client.Send` | internal/whatap/client.go:188-248 | Whatever the network answers: for a nil result the network was asked for one writeAll of one whole frame, for an ambiguous delivery for one writeAll of the frame, for any other error for nothing; the connection used never failed before. An error, with servers to try, means that something outside failed; if nothing did, the frame goes out on the current session. |
| `Clients.Client.SendFrame` | internal/whatap/client.go:362-385 | The attempt flag says exactly whether a data-frame write was begun; if so the traffic grew by one writeAll of the frame on that connection, otherwise not at all. |
| `Clients.Client.Try` | internal/whatap/client.go:195-247 | A session whose try failed is no longer the current one; the traffic grew as the attempt flag says. |
| `Clients.Client.SendAnew` | internal/whatap/client.go:216-247 | The server loop goes on only while nothing was attempted; with servers to try it reports an error only after something outside has failed. |
| `Clients.Client.Connect` | internal/whatap/client.go:316-360 | A session is published only while it is the client's, and is new. |
| `Clients.Client.Drop` | internal/whatap/client.go:290-297 | A failed session is never the current one again. |
| `Clients.SendCarriesAtMostOneFrame` | internal/whatap/client.go:188-248 | In one Send at most one connection changes: it gets a prefix of one frame, the whole frame if the delivery is reported as sent; and nothing is carried if it is reported as not sent. |
| `Conntracks.BuildTable` | internal/conntrack/conntrack.go:189-216 | The table maps a key to an endpoint exactly when entries for the key exist, all share one reply, and its source is that endpoint and not the original destination. |
| `Conntracks.TableIgnoresOrder` | internal/conntrack/conntrack.go:189-216 | Order and duplication of entries do not matter. |
| `Conntracks.KeysExactly` | internal/conntrack/conntrack.go:60-66 | A lookup key carries everything of a tuple. |
| `Conntracks.ProtocolsExactly` | internal/conntrack/conntrack.go:218-227 | Only TCP and UDP are looked up, by their protocol numbers. |
| `Conntracks.AnswersAreFresh` | internal/conntrack/conntrack.go:119-187 | No answer rests on a dump as old as the lifetime. |
| `Conntracks.DumpsExactly` | internal/conntrack/conntrack.go:148-187 | A lookup dumps exactly if no dump was made before, or the latest is as old as the lifetime, or as ten of them after a failure; or on a miss, if the latest succeeded and is as old as the throttle. |
| `Conntracks.Resolver.ResolveAfter` | internal/conntrack/conntrack.go:119-142 | An answer is exactly what the latest dump attempt vouches for: it succeeded, started no earlier than the observation, and proves the rewrite. A dump is made when one is due, and again on a miss outside throttle and back-off, and at no other time. |
| `Conntracks.Resolver.Load` | internal/conntrack/conntrack.go:157-187 | A failed dump invalidates all proof and starts the back-off; under a steady clock dumps stay spaced. |
| `Conntracks.Resolver.Refresh` | internal/conntrack/conntrack.go:170-187 | A scheduled dump is made exactly when none was made before or the latest has rested for the lifetime, ten lifetimes after a failure. |
| `Conntracks.Resolver.RefreshOnMiss` | internal/conntrack/conntrack.go:148-168 | A miss dumps exactly when the latest dump succeeded and is at least as old as the throttle; it answers true exactly when that dump succeeded. |
| `Conntracks.DumpRate` | internal/conntrack/conntrack.go:144-187 | So any stretch of time holds a bounded number of dumps. |
| `Preflights.AcceptsExactly` | internal/bridge/preflight.go:11-110 | A body is accepted exactly when it is the wire form of one bounded map of scalars with at most 32 distinct UTF-8 keys and nothing left over. |
| `Preflights.PrefixFree` | internal/bridge/preflight.go:106-109 | No proper prefix and no extension of an accepted body is accepted. |
| `Preflights.WideFormsAreAccepted` | internal/bridge/preflight.go:9-72 | Three bodies written wider than needed are accepted, against the comment. |
| `PreflightWidths.WiderThanNeededExactly` | internal/bridge/preflight.go:9-72 | An accepted body has a digit string or a length prefix longer than needed exactly when a shorter accepted body has the same keys and values. |
| `PreflightWidths.NarrowBodyIsUnique` | internal/bridge/preflight.go:9-72 | Among the accepted bodies with the same keys and values exactly one has nothing longer than needed. |
| `Preflights.SignedFits` | internal/bridge/preflight.go:25-46 | The shifted accumulator is the two's complement value of the digits and never leaves 64 bits. |
| `Preflights.PreflightMap` | internal/bridge/preflight.go:11-110 | The cursor loop with its set of keys accepts exactly what the readers accept. |
| `Preflights.Decimal` | internal/bridge/preflight.go:25-46 | The decimal cursor step reads what the grammar's reader reads. |
| `Preflights.ReadText` | internal/bridge/preflight.go:47-72 | The text cursor step reads length, limit and UTF-8 as the grammar's reader does. |
| `Utf8Exact.Utf8Exactly` | internal/bridge/preflight.go:68-70 | A text passes the UTF-8 check exactly if it encodes a sequence of Unicode scalar values as section 3 of RFC 3629 says. |
| `Utf8Exact.WidthsExactly` | internal/bridge/preflight.go:25-34 | A decimal may have any width up to eight octets but six and seven. |

## Left out

- Sockets, deadlines, key exchange, AES frames and the codecs of the wire library: network answers are arbitrary, a data frame is an arbitrary nonempty function of session and body, and the traffic holds data-frame writes only, not the handshake.
- HPACK internals: an arbitrary deterministic decoder step.
- Concurrency inside `Client` (readers dropping a session, Close) appears as arbitrary interruptions and session losses between the steps of Send.
- `Exporters.DeliversAtMostOnce`: the exporter's counters are unbounded, so ordinals do not wrap at 64 bits; `PackForWindow`, `PackForL7` and `PackForDNS` are represented by their possible outcomes.
- `EventTheorems.NoObservationIsLate`: assumes the wall clock does not go back, as interleaved steps over one clock; a run aborted by an encode, export or conversion failure is a prefix of the runs considered.
- `EventTheorems.EmitsBatchOfEverything`: the room for windows is a condition on the run, since the code drops observations when it runs out.
- `Conntracks.Resolver.ResolveAfter`: the mutex is not modelled; the spacing of dumps assumes a nonzero clock that does not go back.
- L7 fragments and coverage drops inside the event loop: received there without effect; the HTTP correlator is modelled on its own.
- `parseMessages` and `forEachAttribute` of the netlink dump: a dump is a sequence of entries or a failure; the padding the attribute walk relies on is not modelled.
- Names of RCODE and QTYPE, schema versions, latency boundary names and JSON: transactions keep the numbers.
- Saturation of Go's time differences: times are unbounded integers.
- Aliasing of identity snapshots, windows and payload slices: these are values.
- Go's map iteration order is arbitrary; sort.Slice is represented by its promise, an insertion sort standing in for it.
- The backing array shared by a slice and its in-place filter: the pending list is a sequence that is rebuilt.
- The exact order in which cancellation, failure channels and ticks become ready: any order is allowed.
- The rest of `validateWindow` (printable names, endpoints, tokens), the process resolver, the Kubernetes informer, the eBPF programs and loaders, command line, logging, configuration and license text: they would add only easy members or lie outside the program.
