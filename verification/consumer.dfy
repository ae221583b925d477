/**
 * RedisConsumer: bound to one destination and one context for its whole life. Every operation
 * is proved to do what the Protocol functions say, request by request.
 */
module Consumer {
  import opened Wrappers
  import opened Messages
  import opened Broker
  import opened Context
  import opened Protocol

  class RedisConsumer {
    const context: RedisContext
    const queue: Destination

    constructor (context: RedisContext, queue: Destination)
      ensures this.context == context && GetQueue() == queue
    {
      this.context := context;
      this.queue := queue;
    }

    /** The destination this consumer is bound to; it never changes. */
    function GetQueue(): (d: Destination)
      ensures d == queue
    {
      queue
    }

    /** The pop already removed the message from the broker, so there is nothing to confirm. */
    method Acknowledge(message: Message)
      ensures unchanged(context, context.redis)
    {
    }

    /** Drops the message, or with `requeue` sends the same message back to the same queue. */
    method Reject(message: Message, requeue: bool := false)
      modifies context, context.redis
      ensures context.redis.Snapshot() ==
        Protocol.Reject(old(context.redis.Snapshot()), queue, message, requeue)
      ensures context.redis.log ==
        old(context.redis.log) + (if requeue then [PushCall(queue.name, Encode(message))] else [])
      ensures context.requests ==
        old(context.requests) + (if requeue then [CreateProducerRequest] else [])
    {
      if requeue {
        var producer := context.CreateProducer();
        producer.Send(queue, message);
      }
    }

    /**
     * Waits up to `timeoutMs` milliseconds for a message, or, with 0, until one comes. The
     * connection is requested from the context once per blocking pop.
     */
    method Receive(timeoutMs: int) returns (r: Received)
      requires timeoutMs == 0 ==> EmptyPolls(context.redis.Snapshot(), queue.name).Some?
      modifies context, context.redis
      ensures var o := Protocol.Receive(old(context.redis.Snapshot()), queue.name, timeoutMs);
        r == o.result && context.redis.Snapshot() == o.next &&
        context.redis.log == old(context.redis.log) + o.calls &&
        context.requests == old(context.requests) + Repeat(GetRedisRequest, |o.calls|)
    {
      if timeoutMs < 0 {
        r := Err(InvalidArgument);
      } else if timeoutMs > 0 {
        var raw := PollOnce(WholeSeconds(timeoutMs));
        r := Deliver(raw);
      } else {
        r := WaitForMessage();
      }
    }

    /** receive(0): blocking pops of PollSeconds each until one brings a payload. */
    method WaitForMessage() returns (r: Received)
      requires EmptyPolls(context.redis.Snapshot(), queue.name).Some?
      modifies context, context.redis
      ensures var o := PollUntilMessage(old(context.redis.Snapshot()), queue.name);
        r == o.result && context.redis.Snapshot() == o.next &&
        context.redis.log == old(context.redis.log) + o.calls &&
        context.requests == old(context.requests) + Repeat(GetRedisRequest, |o.calls|)
    {
      ghost var whole := PollUntilMessage(context.redis.Snapshot(), queue.name);
      ghost var done: seq<Call> := [];
      while true
        invariant WaitingFrom(whole, done, context.redis.Snapshot(), queue.name)
        invariant context.redis.log == old(context.redis.log) + done
        invariant context.requests == old(context.requests) + Repeat(GetRedisRequest, |done|)
        decreases EmptyPolls(context.redis.Snapshot(), queue.name).value
      {
        ghost var before := context.redis.Snapshot();
        var raw := PollOnce(PollSeconds);
        if raw.Some? {
          WaitingEndsWithPayload(whole, done, before, queue.name);
          done := done + [BlockingPopCall([queue.name], PollSeconds)];
          return Deliver(raw);
        }
        WaitingAfterEmptyPoll(whole, done, before, queue.name);
        done := done + [BlockingPopCall([queue.name], PollSeconds)];
      }
    }

    /** Asks the context for the connection, then makes one blocking pop on the queue. */
    method PollOnce(seconds: int) returns (raw: Option<RawResult>)
      modifies context, context.redis
      ensures Popped(raw, context.redis.Snapshot()) ==
        BlockingPopStep(old(context.redis.Snapshot()), [queue.name])
      ensures context.redis.log == old(context.redis.log) + [BlockingPopCall([queue.name], seconds)]
      ensures context.requests == old(context.requests) + [GetRedisRequest]
    {
      var redis := context.GetRedis();
      raw := redis.Brpop([queue.name], seconds);
    }

    /** One non-blocking pop: the next message, or null at once when the queue is empty. */
    method ReceiveNoWait() returns (r: Received)
      modifies context, context.redis
      ensures var o := Protocol.ReceiveNoWait(old(context.redis.Snapshot()), queue.name);
        r == o.result && context.redis.Snapshot() == o.next &&
        context.redis.log == old(context.redis.log) + o.calls &&
        context.requests == old(context.requests) + [GetRedisRequest]
    {
      var redis := context.GetRedis();
      var raw := redis.Rpop(queue.name);
      r := Deliver(raw);
    }
  }
}
