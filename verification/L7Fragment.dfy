/** One captured plaintext fragment and the identity snapshot taken from it. */
module L7Fragment {
  import opened Base
  import opened FlowTypes

  datatype Fragment = Fragment(
    observedAt: Time,
    kernelTimestampNS: nat,
    nodeName: string,
    observerPID: nat,
    source: string,
    sourceEndpoint: Endpoint,
    destinationEndpoint: Endpoint,
    totalLength: nat,
    payload: seq<byte>,
    process: Option<Process>,
    sourceResolved: Option<ResolvedEndpoint>,
    destinationResolved: Option<ResolvedEndpoint>,
    sourcePod: Option<Pod>,
    destinationPod: Option<Pod>,
    observerPod: Option<Pod>)

  datatype Identity = Identity(
    process: Option<Process>,
    source: Option<ResolvedEndpoint>,
    destination: Option<ResolvedEndpoint>,
    sourcePod: Option<Pod>,
    destinationPod: Option<Pod>,
    observerPod: Option<Pod>)

  const NO_IDENTITY := Identity(None, None, None, None, None, None)

  /** A value snapshot; command lines are never retained. */
  function IdentityFrom(f: Fragment): Identity {
    Identity(
      if f.process.Some? then Some(f.process.value.(cmdline := "")) else None,
      f.sourceResolved, f.destinationResolved, f.sourcePod, f.destinationPod, f.observerPod)
  }
}
