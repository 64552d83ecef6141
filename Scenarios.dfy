/**
 * Clients of the consumer that drive one message through registration,
 * the consume loop and the reply step, using only the contracts of
 * `Consumers.Consumer`.
 */
module Scenarios {
  import opened Wrappers
  import opened Messages
  import opened Routing
  import opened Consumers

  const Hello: Bytes := [0x68, 0x65, 0x6c, 0x6c, 0x6f]
  const Hi: Bytes := [0x68, 0x69]

  /** A handler that answers every message with the body "hi". */
  function Greet(m: Incoming): HandlerResult
  {
    Response(Message(Hi, Properties(None, map[])))
  }

  /** A handler that answers nothing. */
  function Log(m: Incoming): HandlerResult
  {
    Other
  }

  /**
   * A "greet" request with reply destination "client-1" and correlation id
   * "abc" is dispatched once and answered once: "hi" to "client-1" with
   * correlation id "abc", over the channel the request arrived on.
   */
  method GreetIsAnswered() returns (dispatched: seq<Dispatch>, published: Option<Publish>)
    ensures |dispatched| == 1
    ensures published == Some(Publish(Channel(7), Hi, Properties(Some("abc"), map[]), "client-1"))
  {
    var c := new Consumer();
    var _ := c.Task("greet", Greet);
    var request := Incoming(Some("greet"), Hello, Some("client-1"), Some("abc"), Channel(7));
    dispatched := c.Consume(Queue([request]));
    RoutedAt(c.endpoints, [request], 0);
    published := c.ProcessMessage(dispatched[0].handler, dispatched[0].message);
  }

  /** A message whose routing key has no handler is neither dispatched nor answered. */
  method UnknownIsDropped() returns (dispatched: seq<Dispatch>)
    ensures dispatched == []
  {
    var c := new Consumer();
    dispatched := c.Consume(Queue([Incoming(Some("unknown"), [0x78], None, None, Channel(0))]));
  }

  /**
   * A handler that returns no message is still run, but even with a reply
   * destination nothing is published.
   */
  method SilentHandlerIsNotAnswered() returns (dispatched: seq<Dispatch>, published: Option<Publish>)
    ensures |dispatched| == 1 && dispatched[0].message.routingKey == Some("log")
    ensures published == None
  {
    var c := new Consumer();
    var _ := c.Task("log", Log);
    var request := Incoming(Some("log"), Hello, Some("client-1"), Some("abc"), Channel(0));
    dispatched := c.Consume(Queue([request]));
    RoutedAt(c.endpoints, [request], 0);
    published := c.ProcessMessage(dispatched[0].handler, dispatched[0].message);
  }
}
