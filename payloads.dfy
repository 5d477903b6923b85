/**
 * The wire shapes of the agent protocol (the records of the payload files)
 * and the library calls that turn bytes into them and back. JSON decoding and
 * encoding are not modelled: a `Codec` carries their outcomes as functions,
 * so every property proved here holds for whatever the JSON library does.
 */
module Payloads {
  import opened Wrappers
  import opened Text

  newtype uint64 = x: int | 0 <= x < 0x1_0000_0000_0000_0000

  datatype TraceReference = TraceReference(traceID: string, parentID: string)

  datatype FromS = FromS(entityID: string, hostless: bool, cloudProvider: string, hostID: string)

  datatype BatchInfo = BatchInfo(size: int)

  /** The span's `data` member: an arbitrary JSON value, kept verbatim and never interpreted. */
  datatype SpanData = SpanData(raw: Bytes)

  datatype Span = Span(
    reference: TraceReference,
    spanID: string,
    longTraceID: string,
    timestamp: uint64,
    duration: uint64,
    name: string,
    from: Option<FromS>,
    batch: Option<BatchInfo>,
    kind: int,
    ec: int,
    data: SpanData,
    synthetic: bool,
    correlationType: string,
    correlationID: string,
    foreignTrace: bool,
    ancestor: Option<TraceReference>)

  datatype DiscoveryRequest = DiscoveryRequest(
    pid: int,
    name: string,
    args: seq<string>,
    fd: string,
    inode: string,
    cpuSetFileContent: string)

  datatype Secrets = Secrets(matcher: string, list: seq<string>)

  datatype DiscoveryResponse = DiscoveryResponse(
    pid: int,
    hostID: string,
    secrets: Secrets,
    extraHTTPHeaders: seq<string>,
    tracingExtraHTTPHeaders: seq<string>)

  /** The value `discoveryResponse{}`: every field at Go's zero value. */
  const ZeroDiscoveryResponse: DiscoveryResponse :=
    DiscoveryResponse(0, "", Secrets("", []), [], [])

  /** Outcomes of `json.Unmarshal` and `json.Marshal`; None stands for a non-nil error. */
  datatype Codec = Codec(
    decodeSpans: Bytes -> Option<seq<Span>>,
    decodeDiscovery: Bytes -> Option<DiscoveryRequest>,
    encodeDiscovery: DiscoveryResponse -> Option<Bytes>,
    encodeSpans: seq<Span> -> Option<Bytes>)
}
