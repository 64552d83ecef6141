# ConsumerLib consumer kernel in Dafny

A model of the routing-and-reply kernel of ConsumerLib's `Consumer`
(src/consumer.py), an asynchronous AMQP consumer built on aio_pika:

- a **handler registry**: the `task` decorator stores a handler under a routing key. The last registration for a key wins, and the decorator hands the function back unchanged;
- the **singleton** metaclass: every `Consumer()` call yields one shared instance;
- the **consume loop**: it walks a queue's deliveries in order. A message whose routing key is registered is dispatched to that key's handler, and any other message is dropped;
- the **reply step**: a reply is published only when the inbound message has a non-empty `reply_to` and the handler returned a `Message`. The reply carries the inbound correlation id and goes to `reply_to` over the inbound channel;
- **run/setup**: the default channel is opened only if none exists, and one consume loop is started per queue, in index order.

Files:

- `Wrappers.dfy` defines `Option`.
- `Messages.dfy` holds the AMQP values: inbound messages, outbound messages, handler results, publishes and queues.
- `Routing.dfy` holds the pure routing and reply decisions, with the lemmas about them.
- `Consumer.dfy` holds the `Consumer` class, the singleton class object and a connection placeholder.
- `Scenarios.dfy` has three clients that drive one message through the whole kernel.

Handlers are abstract total functions from an inbound message to a result. A result is either `Response(message)` or `Other` (Python `None` or any non-`Message` value). The broker client's spawned tasks become records:

- `Consume` returns the sequence of (handler, message) dispatches it would spawn.
- `ProcessMessage` returns the publish it would send.
- `Run` returns the consume loops it would start.

The connection is a placeholder class that counts the channels opened on it. This makes it possible to state that `_setup` opens at most one channel.

## Model

| member | source | states |
|---|---|---|
| Consumers.Singleton.Call | src/consumer.py:15-19 | The first call constructs a fresh, empty consumer and stores it. Every later call returns the stored instance itself. |
| Consumers.SharedRegistry | src/consumer.py:15-36 | Two calls of `Consumer()` give the same object. A handler registered through the first is seen through the second, so the registry is shared, not reset. |
| Consumers.Consumer.constructor | src/consumer.py:23-30 | A new consumer has no endpoints and no queues. It has neither a default channel nor a connection yet. |
| Consumers.Consumer.Task | src/consumer.py:32-36 | Registering `func` under a key binds the key to `func` and replaces any earlier handler (last wins). Every other key keeps its binding or its absence, and `func` itself is returned. |
| Consumers.Consumer.Consume | src/consumer.py:88-92 | The dispatches equal `Routed` of the queue's deliveries. Each dispatch pairs a routable message with the handler registered for its key. |
| Routing.Routed | src/consumer.py:89-92 | The dispatch list is no longer than the queue. Each dispatch's message is in the queue and is routable, and its handler is the one registered for its key. |
| Routing.RoutedAppend | src/consumer.py:89-92 | Routing a concatenation of deliveries equals routing each part, in order. |
| Routing.RoutedSkips | src/consumer.py:89-92 | A message with an unregistered routing key adds no dispatch. Routing continues with the messages after it. |
| Routing.RoutedAt | src/consumer.py:89-92 | A routable message at position i is dispatched to `endpoints[key]` with itself. Its position is the number of dispatches for the messages before it. |
| Routing.RoutedInOrder | src/consumer.py:89-92 | For routable messages, dispatch positions increase strictly with delivery positions, so dispatch order is delivery order. |
| Routing.RoutedOrigin | src/consumer.py:89-92 | Every dispatch comes from a routable message, at exactly the position `RoutedAt` assigns it. Together with `RoutedAt` and `RoutedInOrder` (distinct routable positions get distinct slots) this makes each routable message dispatched exactly once. |
| Routing.RoutedEmpty | src/consumer.py:89-92 | A queue yields no dispatch exactly when none of its messages has a registered routing key. |
| Consumers.Consumer.ProcessMessage | src/consumer.py:72-85 | The publish sent after running the handler is exactly `ReplyFor(message, handler(message))`. |
| Routing.ReplyFor | src/consumer.py:77-85 | A reply exists if and only if `reply_to` is present and non-empty and the handler returned a `Message`. The reply's correlation id is the inbound one, and its routing key is the inbound `reply_to`. It goes over the inbound channel, with the response's own body and other properties. |
| Routing.ReplyIgnoresResponseCorrelation | src/consumer.py:78-79 | The correlation id is inherited, not kept from the response: the reply does not depend on the correlation id the handler set. |
| Routing.Publishes | src/consumer.py:77-92 | A sequence of dispatches publishes no more replies than there are dispatches; with `PublishesAppend` this gives at most one reply per dispatch. |
| Routing.PublishesAppend | src/consumer.py:77-92 | The replies of concatenated dispatch sequences are the replies of each part, concatenated (order within the model's serialisation, see Left out). |
| Routing.PublishOrigin | src/consumer.py:78-92 | Every reply caused by a queue answers one routable message with a truthy `reply_to`. It goes to that message's `reply_to`, over its channel, with its correlation id. |
| Routing.PublishAt | src/consumer.py:78-92 | A routable message with a truthy `reply_to` whose handler returns a `Message` is answered: its reply is among the queue's replies, at the slot after the replies to the messages before it in the model's serialisation. |
| Consumers.Consumer.Setup | src/consumer.py:95-97 | With a default channel present, nothing changes and no channel is opened. Otherwise exactly one channel is opened on the connection and becomes the default. |
| Consumers.SetupTwice | src/consumer.py:95-97 | Two setups in a row open at most one channel and leave a default channel. An existing default channel is kept, and the registry and queues are unchanged. |
| Consumers.Consumer.Run | src/consumer.py:100-104 | Stores the connection and sets up the channel once. Starts exactly `len(queues)` consume loops, loop i on `queues[i]`, in index order, and none for an empty `queues`. |
| Scenarios.GreetIsAnswered | src/consumer.py:72-92 | A "greet" request with `reply_to` "client-1" and correlation id "abc" is dispatched once. It gets one reply: "hi" to "client-1" with correlation id "abc". |
| Scenarios.UnknownIsDropped | src/consumer.py:89-92 | A message with an unregistered routing key yields no dispatch. |
| Scenarios.SilentHandlerIsNotAnswered | src/consumer.py:77-78 | A handler that returns no `Message` is dispatched, but nothing is published even though `reply_to` is set. |

## Left out

- `add_queue` (src/consumer.py:39-69) is not modelled. When `use_new_channel` is false it opens a fresh channel with `self._connection.channel()` (line 56, outside the `try`). It then calls the broker client's `declare_queue` and `bind`, which are not part of this model, and re-raises their exceptions unchanged. It also never appends to `queues`, so `queues` holds whatever the embedder assigned. Its `use_new_channel=True` branch selects the default channel, which is the inverse of what the flag's name suggests.
- Concurrency is not modelled: `asyncio.create_task` in the consume loop and in `run` becomes a recorded dispatch or started loop. Interleaving, handler completion order, isolation of handler or publish failures between tasks, and shutdown are not modelled.
- Running a handler and `basic_publish` on the broker are foreign calls. The handler is an abstract function, and the publish is the returned `Publish` record. Publish failures are not modelled.
- Routing.Publishes: the reply sequence is the model's serialisation of the replies, at most one per dispatch, in dispatch order. In the source each reply is published from its own task (line 92) after awaiting the handler (line 77), so replies may go out in any order. Only which replies are sent, and their contents, are modelled; the positions in `PublishesAppend` and `PublishAt` are positions in this serialisation.
- Consumers.Consumer.Setup: opening the channel never fails in the model. In the source `self._connection.channel()` (line 97) may raise; `run` then stops at line 102 before starting any consume loop. That failure path, and the resulting absence of started loops in `Run`, are not modelled.
- Consumers.Consumer.ProcessMessage: in the source, the reply step overwrites `correlation_id` on the very `Message` object the handler returned, so anyone else holding that object sees the change. The model updates a copy of the value, so this aliasing is not captured.
- Consumers.Consumer.Task: Python's `task(key)` returns a decorator that is then applied to `func`. The model folds both steps into one call.
- Connections and channels are opaque. A channel is a numbered handle, and the connection is a placeholder that counts the channels opened on it. Body encoding and `pamqp` argument types are not modelled.
- Routing keys of the registry are strings, as `task`'s annotation says. A registration under `None` is not modelled, so an inbound message without a routing key is never dispatched.
- `run` does not refuse a second call, and `task` can still register handlers once consumption has begun (src/consumer.py:32-36, 100-104). The model follows the code: `Run` may be called again, and `Task` may be called at any time.
