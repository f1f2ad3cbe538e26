/**
 * The records the hub's REST API returns, one shape per resource, as the
 * exporter decodes them. Go's `uint64` fields are a subset type of `int`;
 * `float64` power readings are `real`.
 */
module Hub6 {

  /** Go's `uint64`. */
  type uint64 = x: int | 0 <= x < 0x1_0000_0000_0000_0000

  /** The four REST resources the exporter reads on every scrape. */
  datatype Resource = DownstreamResource | UpstreamResource | ServiceFlowsResource | StateResource

  /** One downstream RF channel (`downstream.channels[]`). */
  datatype DownstreamChannel = DownstreamChannel(
    channelType: string,      // sc_qam = DOCSIS 3.0, ofdm = DOCSIS 3.1
    channelId: uint64,
    frequency: uint64,        // Hz
    power: real,              // dBmV
    modulation: string,
    snr: uint64,              // dB
    rxMer: uint64,            // dB
    correctedErrors: uint64,  // pre-RS errors
    uncorrectedErrors: uint64, // post-RS errors
    lockStatus: bool)

  datatype DownstreamItem = DownstreamItem(downstreamChannels: seq<DownstreamChannel>)

  /** Body of `/rest/v1/cablemodem/downstream`. */
  datatype Downstream = Downstream(downstreamItem: DownstreamItem)

  /** One upstream RF channel (`upstream.channels[]`). */
  datatype UpstreamChannel = UpstreamChannel(
    channelId: uint64,
    frequency: uint64,   // Hz
    lockStatus: bool,
    power: real,         // dBmV
    symbolRate: uint64,  // ksps
    modulation: string,
    t1Timeout: uint64,
    t2Timeout: uint64,
    t3Timeout: uint64,
    t4Timeout: uint64,
    channelType: string)

  datatype UpstreamItem = UpstreamItem(channels: seq<UpstreamChannel>)

  /** Body of `/rest/v1/cablemodem/upstream`. */
  datatype Upstream = Upstream(upstreamItem: UpstreamItem)

  /** One DOCSIS service flow (`serviceFlows.serviceFlow[]`). */
  datatype ServiceFlow = ServiceFlow(
    serviceFlowId: uint64,
    direction: string,
    maxTrafficRate: uint64,        // bps
    maxTrafficBurst: uint64,       // bytes
    minReservedRate: uint64,       // bps
    maxConcatenatedBurst: uint64,  // bytes
    scheduleType: string)

  datatype ServiceFlowItem = ServiceFlowItem(serviceFlows: seq<ServiceFlow>)

  /** Body of `/rest/v1/cablemodem/serviceflows`: a list under one wrapping key. */
  datatype ServiceFlows = ServiceFlows(serviceFlowItem: ServiceFlowItem)

  /** Device-wide identity and status. */
  datatype CableModem = CableModem(
    bootFilename: string,
    docsisVersion: string,
    macAddress: string,
    serialNumber: string,
    upTime: uint64,   // seconds
    accessAllowed: bool,
    status: string,
    maxCpes: uint64,
    baselinePrivacyEnabled: bool)

  /** Body of `/rest/v1/cablemodem/state_`, wrapped under "cablemodem". */
  datatype State = State(cableModem: CableModem)
}
