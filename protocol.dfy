/** The parts of the egress protocol messages that the handler reads or writes. */
module Protocol {

  datatype EgressStatus =
    | EgressStarting
    | EgressActive
    | EgressEnding
    | EgressComplete
    | EgressFailed
    | EgressAborted
    | EgressLimitReached

  /** The job descriptor (livekit.EgressInfo); timestamps are Unix nanoseconds. */
  datatype EgressInfo = EgressInfo(
    egressId: string,
    status: EgressStatus,
    updatedAt: int,
    endedAt: int,
    error: string)

  /** livekit.UpdateStreamRequest: the output URLs to add to and remove from a stream egress. */
  datatype UpdateStreamRequest = UpdateStreamRequest(
    egressId: string,
    addOutputUrls: seq<string>,
    removeOutputUrls: seq<string>)

  newtype Byte = x: int | 0 <= x < 256

  /** The responses of the local introspection service (package ipc). */
  datatype DotResponse = DotResponse(dotFile: string)
  datatype PProfResponse = PProfResponse(pprofFile: seq<Byte>)
  datatype MetricsResponse = MetricsResponse(metrics: string)
}
