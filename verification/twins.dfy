/** The device-shadow ("twin") messages exchanged with the cloud, and the raw
    inbound message handed from the MQTT callback to the dispatcher. */
module Twins {
  import opened Values

  /** Shadow methods of an outbound request. */
  const Update := "update"
  const GetMethod := "get"
  const Delete := "delete"
  const Control := "control"

  /** Reported and desired views of the device's attributes. A Go nil map and an
      empty map marshal alike (both are omitted), so both are the empty map here. */
  datatype State = State(reported: Fields, desired: Fields)

  /** An outbound shadow update; `state` is a pointer in Go, absent when nil. */
  datatype RequestTwins = RequestTwins(shadowMethod: string, state: Option<State>, version: int)

  datatype Payload = Payload(status: string, state: State)

  /** An inbound shadow command, decoded once from the raw payload. */
  datatype ResponseTwins = ResponseTwins(
    shadowMethod: string,
    payload: Payload,
    timestamp: int,
    version: int,
    commandId: string)

  /** A raw inbound message and the device id taken from its topic. `payload` is
      None when the transport hands over a nil byte slice. */
  datatype DevicePayload = DevicePayload(did: string, payload: Option<seq<Byte>>)
}
