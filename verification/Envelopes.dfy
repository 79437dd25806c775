/** The event envelope that the bus fans out (`events/envelope.rs`). */
module Envelopes {
  import opened Documents

  type StreamId = string
  type EventId = string

  /** `meta` holds the serialized form of the fields no modelled code reads by name. */
  datatype Envelope = Envelope(
    eventId: EventId,
    nodeId: string,
    resourceId: string,
    resourceKind: string,
    streamId: StreamId,
    stream: string,
    sequence: nat,
    meta: map<string, Json>,
    data: Json)

  /** The camel-case JSON view that serialization gives. */
  function AsJson(env: Envelope): Json
  {
    Object(env.meta + map[
      "eventId" := String(env.eventId),
      "nodeId" := String(env.nodeId),
      "resourceId" := String(env.resourceId),
      "resourceKind" := String(env.resourceKind),
      "streamId" := String(env.streamId),
      "stream" := String(env.stream),
      "sequence" := Number(env.sequence as real),
      "data" := env.data])
  }
}
