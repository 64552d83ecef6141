/**
 * The AMQP values the consumer kernel handles. Connections, channels and
 * queue handles belong to the broker client library; here they are reduced
 * to the few attributes the kernel reads or writes.
 */
module Messages {
  import opened Wrappers

  /** A message body: opaque bytes, passed through unchanged. */
  type Bytes = seq<bv8>

  /** The broker channel a message arrived on (an opaque handle). */
  datatype Channel = Channel(id: nat)

  /**
   * Basic properties of an outbound message. Only the correlation id is
   * touched by the kernel; every other property (content type, headers,
   * expiration, ...) is carried in `attributes` as an opaque map.
   */
  datatype Properties = Properties(correlationId: Option<string>, attributes: map<string, string>)

  /** An outbound message as a handler builds it: body plus properties. */
  datatype Message = Message(body: Bytes, properties: Properties)

  /**
   * A delivered message. The routing key, reply destination and
   * correlation id may each be absent, as in the broker client.
   */
  datatype Incoming = Incoming(
    routingKey: Option<string>,
    body: Bytes,
    replyTo: Option<string>,
    correlationId: Option<string>,
    channel: Channel)

  /**
   * What a handler returns: either an outbound `Message`, or any other
   * value (including nothing at all), which the kernel treats alike.
   */
  datatype HandlerResult = Response(message: Message) | Other

  /** A handler: an abstract function from a delivered message to its result. */
  type Handler = Incoming -> HandlerResult

  /** One publish on the broker: body and properties sent to a routing key over a channel. */
  datatype Publish = Publish(channel: Channel, body: Bytes, properties: Properties, routingKey: string)

  /** A bound queue, seen as the finite sequence of messages its iterator delivers. */
  datatype Queue = Queue(deliveries: seq<Incoming>)
}
