/**
 * The pure decisions of the consumer kernel: which delivered messages are
 * dispatched to which handler, and which handler results become a reply.
 * The class in Consumer.dfy performs these decisions step by step and is
 * proved to agree with the functions here.
 */
module Routing {
  import opened Wrappers
  import opened Messages

  /** The handler registry: routing key to the handler registered last for it. */
  type Endpoints = map<string, Handler>

  /** One unit of dispatch work: a handler applied to one delivered message. */
  datatype Dispatch = Dispatch(handler: Handler, message: Incoming)

  /**
   * The membership test of the consume loop. A message without a routing
   * key never matches, since registered keys are strings.
   */
  predicate Routable(endpoints: Endpoints, m: Incoming)
  {
    m.routingKey.Some? && m.routingKey.value in endpoints
  }

  /** The handler a routable message is dispatched to. */
  function HandlerFor(endpoints: Endpoints, m: Incoming): Handler
    requires Routable(endpoints, m)
  {
    endpoints[m.routingKey.value]
  }

  /**
   * The dispatches a consume loop produces for the messages `q`, in
   * delivery order: one per routable message, none for the others.
   */
  function Routed(endpoints: Endpoints, q: seq<Incoming>): (ds: seq<Dispatch>)
    ensures |ds| <= |q|
    ensures forall j :: 0 <= j < |ds| ==>
              ds[j].message in q && Routable(endpoints, ds[j].message) &&
              ds[j].handler == HandlerFor(endpoints, ds[j].message)
  {
    if q == [] then []
    else
      var m := q[|q| - 1];
      Routed(endpoints, q[..|q| - 1]) +
        (if Routable(endpoints, m) then [Dispatch(HandlerFor(endpoints, m), m)] else [])
  }

  /** Routing a concatenation routes each part, in order. */
  lemma {:induction false} RoutedAppend(endpoints: Endpoints, a: seq<Incoming>, b: seq<Incoming>)
    ensures Routed(endpoints, a + b) == Routed(endpoints, a) + Routed(endpoints, b)
    decreases |b|
  {
    if b == [] {
      assert a + b == a;
    } else {
      var b' := b[..|b| - 1];
      assert (a + b)[..|a + b| - 1] == a + b';
      assert (a + b)[|a + b| - 1] == b[|b| - 1];
      RoutedAppend(endpoints, a, b');
    }
  }

  /** Routing one more message of a queue adds its dispatch, if it is routable. */
  lemma RoutedStep(endpoints: Endpoints, q: seq<Incoming>, i: nat)
    requires i < |q|
    ensures Routed(endpoints, q[..i + 1]) == Routed(endpoints, q[..i]) +
              (if Routable(endpoints, q[i]) then [Dispatch(HandlerFor(endpoints, q[i]), q[i])] else [])
  {
    assert q[..i + 1][..i] == q[..i];
  }

  /** A message whose routing key is not registered is dropped, and routing goes on with the rest. */
  lemma RoutedSkips(endpoints: Endpoints, q: seq<Incoming>, i: nat)
    requires i < |q| && !Routable(endpoints, q[i])
    ensures Routed(endpoints, q) == Routed(endpoints, q[..i]) + Routed(endpoints, q[i + 1..])
  {
    var head, rest := q[..i + 1], q[i + 1..];
    RoutedStep(endpoints, q, i);
    assert Routed(endpoints, head) == Routed(endpoints, q[..i]);
    RoutedAppend(endpoints, head, rest);
    assert head + rest == q;
  }

  /**
   * A routable message at position `i` is dispatched, to the handler
   * registered for its key, at the position right after the dispatches of
   * the messages before it.
   */
  lemma RoutedAt(endpoints: Endpoints, q: seq<Incoming>, i: nat)
    requires i < |q| && Routable(endpoints, q[i])
    ensures |Routed(endpoints, q[..i])| < |Routed(endpoints, q)|
    ensures Routed(endpoints, q)[|Routed(endpoints, q[..i])|] == Dispatch(HandlerFor(endpoints, q[i]), q[i])
  {
    RoutedStep(endpoints, q, i);
    assert q == q[..i + 1] + q[i + 1..];
    RoutedAppend(endpoints, q[..i + 1], q[i + 1..]);
  }

  /** Dispatch positions grow strictly with the positions of routable messages. */
  lemma RoutedInOrder(endpoints: Endpoints, q: seq<Incoming>, i: nat, k: nat)
    requires i < k <= |q| && Routable(endpoints, q[i])
    ensures |Routed(endpoints, q[..i])| < |Routed(endpoints, q[..k])|
  {
    var tail := q[i..k];
    assert q[..k] == q[..i] + tail;
    RoutedAppend(endpoints, q[..i], tail);
    assert tail[0] == q[i];
    RoutedAt(endpoints, tail, 0);
  }

  /**
   * Every dispatch comes from a routable message of the queue, at exactly
   * the position `RoutedAt` gives that message.
   */
  lemma {:induction false} RoutedOrigin(endpoints: Endpoints, q: seq<Incoming>, j: nat)
    requires j < |Routed(endpoints, q)|
    ensures exists i :: 0 <= i < |q| && Routable(endpoints, q[i]) &&
              j == |Routed(endpoints, q[..i])| &&
              Routed(endpoints, q)[j] == Dispatch(HandlerFor(endpoints, q[i]), q[i])
  {
    var n := |q| - 1;
    var p := q[..n];
    if j < |Routed(endpoints, p)| {
      RoutedOrigin(endpoints, p, j);
      var i :| 0 <= i < |p| && Routable(endpoints, p[i]) &&
               j == |Routed(endpoints, p[..i])| &&
               Routed(endpoints, p)[j] == Dispatch(HandlerFor(endpoints, p[i]), p[i]);
      assert p[..i] == q[..i];
      assert p[i] == q[i];
    } else {
      assert q[..n] == p;
      assert Routable(endpoints, q[n]);
    }
  }

  /** A queue yields no dispatch exactly when none of its messages is routable. */
  lemma {:induction false} RoutedEmpty(endpoints: Endpoints, q: seq<Incoming>)
    ensures Routed(endpoints, q) == [] <==> forall i :: 0 <= i < |q| ==> !Routable(endpoints, q[i])
    decreases |q|
  {
    if q != [] {
      var p := q[..|q| - 1];
      RoutedEmpty(endpoints, p);
      if Routed(endpoints, q) == [] {
        forall i | 0 <= i < |q| ensures !Routable(endpoints, q[i]) {
          if Routable(endpoints, q[i]) {
            RoutedAt(endpoints, q, i);
          }
        }
      }
    }
  }

  /** Python truthiness of an optional string: present and non-empty. */
  predicate Truthy(s: Option<string>)
  {
    s.Some? && s.value != ""
  }

  /**
   * The reply guard: a reply is published exactly when the inbound message
   * names a reply destination and the handler returned a `Message`. The
   * reply carries the inbound correlation id, goes to the inbound reply
   * destination over the inbound channel, and otherwise is the response's
   * own body and properties.
   */
  function ReplyFor(inbound: Incoming, result: HandlerResult): (r: Option<Publish>)
    ensures r.Some? <==> Truthy(inbound.replyTo) && result.Response?
    ensures r.Some? ==>
              r.value.properties.correlationId == inbound.correlationId &&
              r.value.routingKey == inbound.replyTo.value &&
              r.value.channel == inbound.channel &&
              r.value.body == result.message.body &&
              r.value.properties.attributes == result.message.properties.attributes
  {
    if Truthy(inbound.replyTo) && result.Response? then
      var response := result.message.(properties := result.message.properties.(correlationId := inbound.correlationId));
      Some(Publish(inbound.channel, response.body, response.properties, inbound.replyTo.value))
    else
      None
  }

  /**
   * The correlation id is inherited, never generated: whatever correlation
   * id the handler put on its response, the reply is the same.
   */
  lemma ReplyIgnoresResponseCorrelation(inbound: Incoming, response: Message, c: Option<string>)
    ensures ReplyFor(inbound, Response(response)) ==
            ReplyFor(inbound, Response(response.(properties := response.properties.(correlationId := c))))
  {
  }

  /**
   * The replies a sequence of dispatches publishes. Listing them in dispatch
   * order is a serialisation chosen by the model: each reply is sent from its
   * own task, so the broker may see them in any order.
   */
  function Publishes(ds: seq<Dispatch>): (ps: seq<Publish>)
    ensures |ps| <= |ds|
  {
    if ds == [] then []
    else
      var d := ds[|ds| - 1];
      var reply := ReplyFor(d.message, d.handler(d.message));
      Publishes(ds[..|ds| - 1]) + (if reply.Some? then [reply.value] else [])
  }

  lemma {:induction false} PublishesAppend(a: seq<Dispatch>, b: seq<Dispatch>)
    ensures Publishes(a + b) == Publishes(a) + Publishes(b)
    decreases |b|
  {
    if b == [] {
      assert a + b == a;
    } else {
      var b' := b[..|b| - 1];
      assert (a + b)[..|a + b| - 1] == a + b';
      assert (a + b)[|a + b| - 1] == b[|b| - 1];
      PublishesAppend(a, b');
    }
  }

  /**
   * Every reply a queue causes answers one routable message that named a
   * reply destination: it goes to that destination, over that message's
   * channel, with that message's correlation id.
   */
  lemma {:induction false} PublishOrigin(endpoints: Endpoints, q: seq<Incoming>, k: nat)
    requires k < |Publishes(Routed(endpoints, q))|
    ensures exists i :: 0 <= i < |q| && Routable(endpoints, q[i]) && Truthy(q[i].replyTo) &&
              var p := Publishes(Routed(endpoints, q))[k];
              ReplyFor(q[i], HandlerFor(endpoints, q[i])(q[i])) == Some(p) &&
              p.routingKey == q[i].replyTo.value &&
              p.channel == q[i].channel &&
              p.properties.correlationId == q[i].correlationId
    decreases |q|
  {
    var n := |q| - 1;
    var p := q[..n];
    var m := q[n];
    var tail := if Routable(endpoints, m) then [Dispatch(HandlerFor(endpoints, m), m)] else [];
    assert Routed(endpoints, q) == Routed(endpoints, p) + tail;
    PublishesAppend(Routed(endpoints, p), tail);
    if k < |Publishes(Routed(endpoints, p))| {
      PublishOrigin(endpoints, p, k);
      var i :| 0 <= i < |p| && Routable(endpoints, p[i]) && Truthy(p[i].replyTo) &&
               ReplyFor(p[i], HandlerFor(endpoints, p[i])(p[i])) == Some(Publishes(Routed(endpoints, p))[k]);
      assert p[i] == q[i];
    } else {
      assert tail != [];
      assert tail[..0] == [];
      assert Publishes(tail) != [];
      assert Routable(endpoints, q[n]) && Truthy(q[n].replyTo);
    }
  }

  /**
   * Conversely, a routable message that names a reply destination and
   * whose handler returns a `Message` is answered: its reply is among the
   * queue's replies, right after the replies to the messages before it in
   * the model's serialisation.
   */
  lemma PublishAt(endpoints: Endpoints, q: seq<Incoming>, i: nat)
    requires i < |q| && Routable(endpoints, q[i]) && Truthy(q[i].replyTo)
    requires HandlerFor(endpoints, q[i])(q[i]).Response?
    ensures |Publishes(Routed(endpoints, q[..i]))| < |Publishes(Routed(endpoints, q))|
    ensures Some(Publishes(Routed(endpoints, q))[|Publishes(Routed(endpoints, q[..i]))|]) ==
            ReplyFor(q[i], HandlerFor(endpoints, q[i])(q[i]))
    ensures ReplyFor(q[i], HandlerFor(endpoints, q[i])(q[i])).value in Publishes(Routed(endpoints, q))
  {
    var d := Dispatch(HandlerFor(endpoints, q[i]), q[i]);
    RoutedStep(endpoints, q, i);
    assert q == q[..i + 1] + q[i + 1..];
    RoutedAppend(endpoints, q[..i + 1], q[i + 1..]);
    PublishesAppend(Routed(endpoints, q[..i]) + [d], Routed(endpoints, q[i + 1..]));
    PublishesAppend(Routed(endpoints, q[..i]), [d]);
    assert [d][..0] == [];
  }
}
