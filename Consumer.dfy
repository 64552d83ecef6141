/**
 * The consumer object of src/consumer.py: the handler registry, the consume
 * loop, the reply step and the run/setup bookkeeping. Spawning a task is
 * modelled as recording what the task would run: `Consume` returns the
 * dispatches it would spawn and `Run` the consume loops it would start.
 */
module Consumers {
  import opened Wrappers
  import opened Messages
  import opened Routing

  /**
   * Placeholder for the broker connection. The kernel only opens channels
   * on it; `channelsOpened` counts them, so each call yields a distinct channel.
   */
  class Connection {
    var channelsOpened: nat

    constructor ()
      ensures channelsOpened == 0
    {
      channelsOpened := 0;
    }

    method OpenChannel() returns (ch: Channel)
      modifies this
      ensures ch == Channel(old(channelsOpened)) && channelsOpened == old(channelsOpened) + 1
    {
      ch := Channel(channelsOpened);
      channelsOpened := channelsOpened + 1;
    }
  }

  /** A consume loop started by `Run`: the index it was started for and its queue. */
  datatype ConsumeTask = ConsumeTask(index: nat, queue: Queue)

  class Consumer {
    /** Routing key to handler; written only by `Task`. */
    var endpoints: Endpoints
    /** The bound queues, as the embedder set them; nothing in the kernel appends to them. */
    var queues: seq<Queue>
    /** The default channel; absent until the first `Setup`. */
    var defaultChannel: Option<Channel>
    /** The connection given to the last `Run`; absent before it. */
    var connection: Connection?

    constructor ()
      ensures endpoints == map[] && queues == []
      ensures defaultChannel == None && connection == null
    {
      endpoints := map[];
      queues := [];
      defaultChannel := None;
      connection := null;
    }

    /**
     * The `task` decorator applied to `func`: registers it under
     * `routingKey`, replacing any earlier handler for that key, and hands
     * `func` back unchanged.
     */
    method Task(routingKey: string, func: Handler) returns (decorated: Handler)
      modifies this`endpoints
      ensures decorated == func
      ensures endpoints == old(endpoints)[routingKey := func]
      ensures routingKey in endpoints && endpoints[routingKey] == func
      ensures forall k :: k != routingKey ==>
                (k in endpoints <==> k in old(endpoints)) &&
                (k in endpoints ==> endpoints[k] == old(endpoints)[k])
    {
      endpoints := endpoints[routingKey := func];
      decorated := func;
    }

    /**
     * Runs the handler on the message and builds the reply, if any: the
     * response gets the inbound correlation id and is published to the
     * inbound reply destination over the inbound channel.
     */
    method ProcessMessage(func: Handler, message: Incoming) returns (published: Option<Publish>)
      ensures published == ReplyFor(message, func(message))
    {
      var response := func(message);
      if message.replyTo.Some? && message.replyTo.value != "" && response.Response? {
        var reply := response.message;
        reply := reply.(properties := reply.properties.(correlationId := message.correlationId));
        published := Some(Publish(message.channel, reply.body, reply.properties, message.replyTo.value));
      } else {
        published := None;
      }
    }

    /**
     * The consume loop over one queue: each message whose routing key is
     * registered is dispatched to its handler, the others are dropped, and
     * the loop always moves on to the next message.
     */
    method Consume(queue: Queue) returns (dispatched: seq<Dispatch>)
      ensures dispatched == Routed(endpoints, queue.deliveries)
      ensures forall j :: 0 <= j < |dispatched| ==>
                Routable(endpoints, dispatched[j].message) &&
                dispatched[j].handler == HandlerFor(endpoints, dispatched[j].message)
    {
      var messages := queue.deliveries;
      dispatched := [];
      for i := 0 to |messages|
        invariant dispatched == Routed(endpoints, messages[..i])
      {
        var message := messages[i];
        var route := message.routingKey;
        if route.Some? && route.value in endpoints {
          dispatched := dispatched + [Dispatch(endpoints[route.value], message)];
        }
        assert messages[..i + 1][..i] == messages[..i];
      }
      assert messages[..|messages|] == messages;
    }

    /** Opens the default channel on the connection, unless one exists already. */
    method Setup()
      requires connection != null
      modifies this`defaultChannel, connection
      ensures old(defaultChannel).Some? ==>
                defaultChannel == old(defaultChannel) && connection.channelsOpened == old(connection.channelsOpened)
      ensures old(defaultChannel).None? ==>
                defaultChannel == Some(Channel(old(connection.channelsOpened))) &&
                connection.channelsOpened == old(connection.channelsOpened) + 1
    {
      if defaultChannel.None? {
        var ch := connection.OpenChannel();
        defaultChannel := Some(ch);
      }
    }

    /**
     * Takes the connection, sets up the default channel and starts one
     * consume loop per queue, in index order.
     */
    method Run(conn: Connection) returns (started: seq<ConsumeTask>)
      modifies this`connection, this`defaultChannel, conn
      ensures connection == conn
      ensures old(defaultChannel).Some? ==>
                defaultChannel == old(defaultChannel) && conn.channelsOpened == old(conn.channelsOpened)
      ensures old(defaultChannel).None? ==>
                defaultChannel == Some(Channel(old(conn.channelsOpened))) && conn.channelsOpened == old(conn.channelsOpened) + 1
      ensures |started| == |queues|
      ensures forall i :: 0 <= i < |started| ==> started[i] == ConsumeTask(i, queues[i])
    {
      connection := conn;
      Setup();
      started := [];
      for i := 0 to |queues|
        invariant |started| == i
        invariant forall k :: 0 <= k < i ==> started[k] == ConsumeTask(k, queues[k])
      {
        started := started + [ConsumeTask(i, queues[i])];
      }
    }
  }

  /**
   * The class object of `Consumer` under its singleton metaclass: the
   * first call constructs the instance, every later call returns it.
   */
  class Singleton {
    var instance: Consumer?

    constructor ()
      ensures instance == null
    {
      instance := null;
    }

    method Call() returns (c: Consumer)
      modifies this
      ensures instance == c
      ensures old(instance) != null ==> c == old(instance)
      ensures old(instance) == null ==>
                fresh(c) && c.endpoints == map[] && c.queues == [] &&
                c.defaultChannel == None && c.connection == null
    {
      if instance == null {
        instance := new Consumer();
      }
      c := instance;
    }
  }

  /**
   * Two calls of the class share one registry: a handler registered
   * through the first instance is seen through the second.
   */
  method SharedRegistry(cls: Singleton, routingKey: string, func: Handler) returns (first: Consumer, second: Consumer)
    modifies cls, cls.instance
    ensures second == first && cls.instance == first
    ensures routingKey in second.endpoints && second.endpoints[routingKey] == func
  {
    first := cls.Call();
    var _ := first.Task(routingKey, func);
    second := cls.Call();
  }

  /** A second `Setup` opens no channel and keeps the default channel of the first. */
  method SetupTwice(c: Consumer)
    requires c.connection != null
    modifies c`defaultChannel, c.connection
    ensures c.connection == old(c.connection) && c.defaultChannel.Some?
    ensures c.endpoints == old(c.endpoints) && c.queues == old(c.queues)
    ensures old(c.defaultChannel).Some? ==> c.defaultChannel == old(c.defaultChannel)
    ensures c.connection.channelsOpened <= old(c.connection.channelsOpened) + 1
  {
    c.Setup();
    ghost var afterFirst := c.defaultChannel;
    ghost var openedAfterFirst := c.connection.channelsOpened;
    c.Setup();
    assert c.defaultChannel == afterFirst && c.connection.channelsOpened == openedAfterFirst;
  }
}
