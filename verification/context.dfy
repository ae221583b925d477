/**
 * The context a consumer is built with (RedisContext): it hands out the broker connection and
 * creates producers. Every request made to it is recorded, so that a caller's contract can say
 * how often it asked for the connection or for a producer.
 */
module Context {
  import opened Messages
  import opened Broker

  datatype Request = GetRedisRequest | CreateProducerRequest

  /** Sends messages by encoding them and pushing them onto the destination's list. */
  class RedisProducer {
    const redis: Redis

    constructor (redis: Redis)
      ensures this.redis == redis
    {
      this.redis := redis;
    }

    method Send(destination: Destination, message: Message)
      modifies redis
      ensures redis.Snapshot() == PushStep(old(redis.Snapshot()), destination.name, Encode(message))
      ensures redis.log == old(redis.log) + [PushCall(destination.name, Encode(message))]
    {
      redis.Push(destination.name, Encode(message));
    }
  }

  class RedisContext {
    const redis: Redis
    var requests: seq<Request>

    constructor (redis: Redis)
      ensures this.redis == redis && requests == []
    {
      this.redis := redis;
      requests := [];
    }

    method GetRedis() returns (r: Redis)
      modifies this
      ensures r == redis
      ensures requests == old(requests) + [GetRedisRequest]
    {
      r := redis;
      requests := requests + [GetRedisRequest];
    }

    method CreateProducer() returns (p: RedisProducer)
      modifies this
      ensures fresh(p) && p.redis == redis
      ensures requests == old(requests) + [CreateProducerRequest]
    {
      p := new RedisProducer(redis);
      requests := requests + [CreateProducerRequest];
    }
  }
}
