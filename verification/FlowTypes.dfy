/** The flow records shared by every collector (internal/flow). */
module FlowTypes {

  /** Nanoseconds since Go's zero time; the zero value means "no time". */
  type Time = int

  datatype Endpoint = Endpoint(address: string, port: nat)
  datatype ResolvedEndpoint = ResolvedEndpoint(address: string, port: nat, via: string)
  datatype Pod = Pod(uid: string, namespace: string, name: string)
  datatype Process = Process(
    pid: nat, startTimeTicks: nat, comm: string, cmdline: string, containerId: string, via: string)
  datatype FlowKey = FlowKey(
    nodeName: string, protocol: string, direction: string, source: Endpoint, destination: Endpoint)
}
