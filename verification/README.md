# Redis consumer: receive, acknowledge and reject

A model of `RedisConsumer` from the enqueue Redis transport. The consumer is bound to one
destination (a named Redis list) and one context (which hands out the Redis connection and
creates producers). It offers:

- `getQueue`: the destination it was built with;
- `acknowledge`: nothing to do, since the pop already removed the message from Redis;
- `reject(message, requeue = false)`: drops the message, or with `requeue` sends the same
  message to the same destination through a producer, which puts it behind everything waiting;
- `receive(timeoutMs)`: a positive timeout becomes one `BRPOP` on `[queue]` bounded to the
  timeout in whole seconds; a timeout of 0 means "wait until a message comes", done as a
  series of 5-second `BRPOP`s; a negative timeout is refused before Redis is asked;
- `receiveNoWait`: one `RPOP` of the queue.

The broker is modelled as pure state (`Broker.State`): the payloads waiting on each list, in
the order they will be popped, and a script of what other clients push while a blocking pop
waits (one entry per wait, as a mocked Redis answers one call at a time). `Broker.Redis` holds
that state in fields and logs every request. `Context.RedisContext` logs every `getRedis` and
`createProducer` request. `Protocol` gives each consumer operation as a function of the broker
state: what it returns, the state after it and the requests it makes, in order.
`Consumer.RedisConsumer` is the class, and each of its methods is proved to match the function.
`ProtocolProperties` relates several calls and restates the test scenarios.

The consumer's implementation file is not part of this model. Its behaviour is taken from its
test suite, `pkg/redis/Tests/RedisConsumerTest.php`. Where the tests say nothing, the model
makes its own choices: positive timeouts are rounded up to whole seconds (the tests pin only
2000 ms to 2 s), negative timeouts are refused with an `InvalidArgument` error, and an
undecodable payload is reported as a `MalformedEnvelope` error.

## Model

| member | source | states |
|---|---|---|
| Messages.Decode | pkg/redis/Tests/RedisConsumerTest.php:110 | decoding fails, with MalformedEnvelope, exactly on a payload that is not an envelope |
| Messages.Encode | pkg/redis/Tests/RedisConsumerTest.php:110 | encoding is lossless: a message encoded with `json_encode` decodes back to the same body, properties and headers |
| Messages.EncodeDecode | pkg/redis/Tests/RedisConsumerTest.php:122-125 | a payload that decodes is the encoding of the message it decodes to |
| Broker.FirstNonEmpty | pkg/redis/Tests/RedisConsumerTest.php:84-85 | the position of the first named list with a payload waiting; every list before it is empty; None exactly when all are empty |
| Broker.Take | pkg/redis/Tests/RedisConsumerTest.php:84 | a pop removes exactly the head of one list and changes no other list |
| Broker.PushStep | pkg/redis/Tests/RedisConsumerTest.php:59-62 | a push appends the payload behind everything waiting on that list and changes no other list |
| Broker.BlockingPopStep | pkg/redis/Tests/RedisConsumerTest.php:84-86 | `brpop` pops the head of the first non-empty named list; if all are empty it consumes one wait of the script: it answers with that wait's payload exactly when it was pushed to a named list, a payload pushed to another list stays there behind what was waiting, and every named list is left empty |
| Broker.NonBlockingPopStep | pkg/redis/Tests/RedisConsumerTest.php:176-178 | `rpop` answers nothing exactly when the list is empty, leaving the state unchanged; otherwise it pops the head |
| Broker.Redis.Brpop | pkg/redis/Tests/RedisConsumerTest.php:82-86 | the connection's state moves as BlockingPopStep says and the call is logged with its queue names and timeout |
| Broker.Redis.Rpop | pkg/redis/Tests/RedisConsumerTest.php:174-178 | the connection's state moves as NonBlockingPopStep says and the call is logged |
| Broker.Redis.Push | pkg/redis/Tests/RedisConsumerTest.php:59-62 | the connection's state moves as PushStep says and the call is logged |
| Context.RedisProducer.Send | pkg/redis/Tests/RedisConsumerTest.php:58-63 | sending pushes exactly the encoded message onto the destination's list, as one logged push |
| Context.RedisContext.GetRedis | pkg/redis/Tests/RedisConsumerTest.php:89-94 | returns the context's connection and logs one getRedis request |
| Context.RedisContext.CreateProducer | pkg/redis/Tests/RedisConsumerTest.php:65-70 | returns a new producer on the context's connection and logs one createProducer request |
| Protocol.WholeSeconds | pkg/redis/Tests/RedisConsumerTest.php:85 | a positive timeout in milliseconds becomes the least whole number of seconds covering it, at least 1 (2000 ms is 2 s) |
| Protocol.Decoded | pkg/redis/Tests/RedisConsumerTest.php:122-125 | a dequeued payload is handed out as the message it encodes, never as null; a malformed one as MalformedEnvelope |
| Protocol.Deliver | pkg/redis/Tests/RedisConsumerTest.php:86-98 | the caller gets null exactly when the pop brought nothing, otherwise the decoded payload |
| Protocol.Poll | pkg/redis/Tests/RedisConsumerTest.php:82-86 | one blocking pop on `[queue]` with the given timeout; a waiting head is handed out and removed; on an empty queue the first wait's payload is handed out if it was pushed to the queue, null otherwise, the queue stays empty and that wait is used up |
| Protocol.FirstArrivalFor | pkg/redis/Tests/RedisConsumerTest.php:134-152 | the first scripted wait that brings a payload to the queue; no earlier wait does |
| Protocol.EmptyPollProgress | pkg/redis/Tests/RedisConsumerTest.php:135-146 | a blocking pop that comes back null brings the next payload for the queue exactly one wait closer |
| Protocol.PollUntilMessage | pkg/redis/Tests/RedisConsumerTest.php:134-163 | waiting with timeout 0 never returns null, and its first request is a blocking pop `([queue], 5)` |
| Protocol.PollUntilMessageDelivers | pkg/redis/Tests/RedisConsumerTest.php:128-167 | waiting with timeout 0 makes exactly (empty waits + 1) blocking pops, each `([queue], 5)`, hands out the first payload that comes and removes it |
| Protocol.WaitingAfterEmptyPoll | pkg/redis/Tests/RedisConsumerTest.php:135-146 | after an empty 5-second pop the rest of the wait is the same wait started from the new state |
| Protocol.WaitingEndsWithPayload | pkg/redis/Tests/RedisConsumerTest.php:147-151 | the 5-second pop that brings a payload ends the wait with that payload |
| Protocol.Receive | pkg/redis/Tests/RedisConsumerTest.php:77-167 | negative timeout: error, no request; positive: exactly one blocking pop with the timeout in seconds, returning the decoded next payload when it is waiting or comes in the first wait and null otherwise, with the queue's head or that wait consumed; 0: at least one pop and never null; every pop is on `[queue]` with a timeout of at least 1 s |
| Protocol.ReceiveNoWait | pkg/redis/Tests/RedisConsumerTest.php:169-218 | exactly one non-blocking pop; null exactly when the queue is empty (state unchanged), otherwise the decoded head, which is removed |
| Protocol.Reject | pkg/redis/Tests/RedisConsumerTest.php:45-75 | without requeue the broker is unchanged; with requeue the queue gains exactly the encoded message at its end and nothing else changes |
| ProtocolProperties.DrainDeliversInOrder | pkg/redis/Tests/RedisConsumerTest.php:193-218 | n receiveNoWait calls hand out the first n waiting payloads in order, each once, and leave the rest waiting |
| ProtocolProperties.RequeueGoesBehindWaiting | pkg/redis/Tests/RedisConsumerTest.php:52-75 | a requeued message is handed out after every message already waiting, and it is the same message |
| ProtocolProperties.ReceiveTwoSecondsFromEmptyQueue | pkg/redis/Tests/RedisConsumerTest.php:77-99 | receive(2000) on an empty queue makes one `brpop(['aQueue'], 2)` and returns null |
| ProtocolProperties.ReceiveTwoSecondsFromFilledQueue | pkg/redis/Tests/RedisConsumerTest.php:101-126 | receive(2000) with a message waiting makes one `brpop(['aQueue'], 2)` and returns the message with body 'aBody' |
| ProtocolProperties.ReceiveZeroPollsUntilThirdWait | pkg/redis/Tests/RedisConsumerTest.php:128-167 | receive(0) with null, null, then a message makes exactly three `brpop(['aQueue'], 5)` and returns body 'aBody' |
| ProtocolProperties.ReceiveNoWaitFromEmptyQueue | pkg/redis/Tests/RedisConsumerTest.php:169-191 | receiveNoWait on an empty queue makes one `rpop('aQueue')` and returns null |
| ProtocolProperties.ReceiveNoWaitFromFilledQueue | pkg/redis/Tests/RedisConsumerTest.php:193-218 | receiveNoWait with a message waiting makes one `rpop('aQueue')`, returns body 'aBody', and a second call finds the queue empty |
| Consumer.RedisConsumer.constructor | pkg/redis/Tests/RedisConsumerTest.php:29-36 | getQueue returns exactly the destination given to the constructor |
| Consumer.RedisConsumer.GetQueue | pkg/redis/Tests/RedisConsumerTest.php:29-36 | returns the destination the consumer is bound to |
| Consumer.RedisConsumer.Acknowledge | pkg/redis/Tests/RedisConsumerTest.php:38-43 | acknowledging makes no request and changes neither the context nor the connection |
| Consumer.RedisConsumer.Reject | pkg/redis/Tests/RedisConsumerTest.php:45-75 | without requeue nothing changes; with requeue one createProducer request and one push of the same message to the same destination, as Protocol.Reject says |
| Consumer.RedisConsumer.Receive | pkg/redis/Tests/RedisConsumerTest.php:77-167 | result, new broker state and logged pops are those of Protocol.Receive, with one getRedis request per pop |
| Consumer.RedisConsumer.WaitForMessage | pkg/redis/Tests/RedisConsumerTest.php:128-167 | the polling loop of receive(0) returns, leaves and logs exactly what PollUntilMessage gives |
| Consumer.RedisConsumer.PollOnce | pkg/redis/Tests/RedisConsumerTest.php:82-94 | one getRedis request, then one blocking pop on `[queue]` with the given timeout |
| Consumer.RedisConsumer.ReceiveNoWait | pkg/redis/Tests/RedisConsumerTest.php:169-218 | result, new broker state and logged pop are those of Protocol.ReceiveNoWait, with one getRedis request |

## Left out

- The consumer's implementation file is not part of this model; its behaviour comes from the tests, and the model's own choices where they are silent.
- JSON encoding is not modelled character by character: a payload is either an envelope carrying body, properties and headers, or unparsable text.
- The message's redelivered flag is not modelled; it is consumer-local metadata that does not travel in the envelope.
- The real connection, wall-clock time and blocking: timeouts are integers recorded in the call log, and what happens during a wait is scripted in the broker state.
- Connection failures (`BrokerUnavailable`): no broker call fails in the model.
- Consumer.RedisConsumer.Receive: with timeout 0 it requires that a payload eventually comes for the queue; otherwise the polling loop runs forever, which the model does not represent.
- Protocol.WholeSeconds: rounding up applies to timeouts that are not whole seconds; the tests pin only 2000 ms to 2 s, so the rounding of other values is the model's choice.
- Which end of the Redis list a push writes to and a pop reads from: lists are kept in pop order and a push appends, so a list is first in, first out.
- Concurrent use of one consumer or one connection: the consumer is used by one caller at a time.
- The check that RedisConsumer implements the Consumer interface and the PHPUnit mock machinery: test scaffolding, not behaviour.
