/** Config validation and defaulting (config.go). Both methods overwrite the fields they default, also when
    a later check fails. */
module ConfigModel {
  import opened Basics
  import opened Strconv
  import opened Backoff

  const SECOND: int := 1_000_000_000

  datatype ConfigError =
    | SourceMissing | AddressMissing
    | NegativeRetries | NegativeInitialBackoff | NegativeMaxBackoff
    | GroupMissing | NegativeConcurrency | NegativeClaimInterval | NegativeClaimMinIdle | NegativeShutdown
    | MinIdleBelowInterval | BackoffReachesMinIdle | NoConsumerName

  datatype RedisConfig = RedisConfig(address: string, poolSize: Int64)

  datatype ConsumerConfig = ConsumerConfig(
    group: string, consumerName: string, concurrency: Int64, claimInterval: Int64, claimMinIdle: Int64,
    maxDeliveryAttempts: Int64, shutdownTimeout: Int64)

  class Config {
    var source: string
    var streamPrefix: string
    var redis: RedisConfig
    var consumer: ConsumerConfig
    var retry: RetryConfig

    constructor (source: string, streamPrefix: string, redis: RedisConfig, consumer: ConsumerConfig, retry: RetryConfig)
      ensures this.source == source && this.streamPrefix == streamPrefix && this.redis == redis
      ensures this.consumer == consumer && this.retry == retry
    {
      this.source, this.streamPrefix, this.redis, this.consumer, this.retry := source, streamPrefix, redis, consumer, retry;
    }

    /** Config.Validate; durations are nanoseconds. `pool` is the default pool size, ten times runtime.GOMAXPROCS(0). */
    method Validate(pool: Int64) returns (err: Option<ConfigError>)
      modifies `streamPrefix, `redis, `retry
      ensures err == old(if source == "" then Some(SourceMissing)
                         else if redis.address == "" then Some(AddressMissing)
                         else if retry.maxImmediateRetries < 0 then Some(NegativeRetries)
                         else if retry.initialBackoff < 0 then Some(NegativeInitialBackoff)
                         else if retry.maxBackoff < 0 then Some(NegativeMaxBackoff)
                         else None)
      ensures err.Some? ==> retry == old(retry)
      ensures err.None? ==>
                retry == old(RetryConfig(if retry.maxImmediateRetries == 0 then 3 else retry.maxImmediateRetries,
                                         if retry.initialBackoff == 0 then 100_000_000 else retry.initialBackoff,
                                         if retry.maxBackoff == 0 then 5_000_000_000 else retry.maxBackoff))
      ensures if old(source == "" || redis.address == "") then streamPrefix == old(streamPrefix) && redis == old(redis)
              else streamPrefix == (if old(streamPrefix) == "" then "foi" else old(streamPrefix))
                   && redis == old(redis).(poolSize := if old(redis.poolSize) == 0 then pool else old(redis.poolSize))
    {
      if source == "" {
        return Some(SourceMissing);
      }
      if redis.address == "" {
        return Some(AddressMissing);
      }
      if streamPrefix == "" {
        streamPrefix := "foi";
      }
      if redis.poolSize == 0 {
        redis := redis.(poolSize := pool);
      }
      if retry.maxImmediateRetries < 0 {
        return Some(NegativeRetries);
      }
      if retry.initialBackoff < 0 {
        return Some(NegativeInitialBackoff);
      }
      if retry.maxBackoff < 0 {
        return Some(NegativeMaxBackoff);
      }
      if retry.maxImmediateRetries == 0 {
        retry := retry.(maxImmediateRetries := 3);
      }
      if retry.initialBackoff == 0 {
        retry := retry.(initialBackoff := SECOND / 10);
      }
      if retry.maxBackoff == 0 {
        retry := retry.(maxBackoff := 5 * SECOND);
      }
      err := None;
    }

    /** Config.validateConsumer. `generated` is what defaultConsumerName yields, None when it fails.
        A negative MaxDeliveryAttempts passes. */
    method ValidateConsumer(generated: Option<string>) returns (err: Option<ConfigError>)
      modifies `consumer
      ensures var c := old(consumer);
              c.group == "" || c.concurrency < 0 || c.claimInterval < 0 || c.claimMinIdle < 0 || c.shutdownTimeout < 0 ==>
                && consumer == c
                && err == (if c.group == "" then Some(GroupMissing)
                           else if c.concurrency < 0 then Some(NegativeConcurrency)
                           else if c.claimInterval < 0 then Some(NegativeClaimInterval)
                           else if c.claimMinIdle < 0 then Some(NegativeClaimMinIdle)
                           else Some(NegativeShutdown))
      ensures var c := old(consumer);
              c.group != "" && 0 <= c.concurrency && 0 <= c.claimInterval && 0 <= c.claimMinIdle && 0 <= c.shutdownTimeout ==>
                && consumer == ConsumerConfig(c.group, consumer.consumerName,
                                              if c.concurrency == 0 then 1 else c.concurrency,
                                              if c.claimInterval == 0 then 30_000_000_000 else c.claimInterval,
                                              if c.claimMinIdle == 0 then 60_000_000_000 else c.claimMinIdle,
                                              if c.maxDeliveryAttempts == 0 then 5 else c.maxDeliveryAttempts,
                                              if c.shutdownTimeout == 0 then 30_000_000_000 else c.shutdownTimeout)
                && err == (if consumer.claimMinIdle < consumer.claimInterval then Some(MinIdleBelowInterval)
                           else if consumer.claimMinIdle <= CodeSum(retry, Retries(retry)) then Some(BackoffReachesMinIdle)
                           else if old(consumer.consumerName) == "" && generated.None? then Some(NoConsumerName)
                           else None)
                && consumer.consumerName == (if err.None? && old(consumer.consumerName) == "" then generated.GetOr("")
                                             else old(consumer.consumerName))
    {
      if consumer.group == "" {
        return Some(GroupMissing);
      }
      if consumer.concurrency < 0 {
        return Some(NegativeConcurrency);
      }
      if consumer.claimInterval < 0 {
        return Some(NegativeClaimInterval);
      }
      if consumer.claimMinIdle < 0 {
        return Some(NegativeClaimMinIdle);
      }
      if consumer.shutdownTimeout < 0 {
        return Some(NegativeShutdown);
      }
      if consumer.concurrency == 0 {
        consumer := consumer.(concurrency := 1);
      }
      if consumer.claimInterval == 0 {
        consumer := consumer.(claimInterval := 30 * SECOND);
      }
      if consumer.claimMinIdle == 0 {
        consumer := consumer.(claimMinIdle := 60 * SECOND);
      }
      if consumer.maxDeliveryAttempts == 0 {
        consumer := consumer.(maxDeliveryAttempts := 5);
      }
      if consumer.shutdownTimeout == 0 {
        consumer := consumer.(shutdownTimeout := 30 * SECOND);
      }
      if consumer.claimMinIdle < consumer.claimInterval {
        return Some(MinIdleBelowInterval);
      }
      var worst := WorstCaseBackoff(retry);
      if worst >= consumer.claimMinIdle {
        return Some(BackoffReachesMinIdle);
      }
      if consumer.consumerName == "" {
        if generated.None? {
          return Some(NoConsumerName);
        }
        consumer := consumer.(consumerName := generated.value);
      }
      err := None;
    }

    /** What NewConsumer accepts: the reclaim loop runs, and whenever the exact backoff sum fits in an int64 the longest
        one delivery can sleep is below ClaimMinIdle. Every jitter choice stays below it exactly when that is so. */
    method Accept(pool: Int64, generated: Option<string>) returns (ok: bool)
      modifies this
      ensures ok <==> && old(source != "" && redis.address != "" && consumer.group != "")
                      && old(0 <= retry.maxImmediateRetries && 0 <= retry.initialBackoff && 0 <= retry.maxBackoff)
                      && old(0 <= consumer.concurrency && 0 <= consumer.claimInterval && 0 <= consumer.claimMinIdle)
                      && old(0 <= consumer.shutdownTimeout) && (old(consumer.consumerName) != "" || generated.Some?)
                      && consumer.claimInterval <= consumer.claimMinIdle
                      && CodeSum(retry, Retries(retry)) < consumer.claimMinIdle
      ensures ok ==>
                && consumer.concurrency >= 1 && 0 < consumer.claimInterval <= consumer.claimMinIdle
                && consumer.shutdownTimeout > 0 && consumer.maxDeliveryAttempts != 0
                && retry.maxImmediateRetries >= 1 && retry.initialBackoff > 0 && retry.maxBackoff > 0
      ensures ok ==>
                var exact := BoundSum(retry.initialBackoff, retry.maxBackoff, Retries(retry));
                && (exact < consumer.claimMinIdle <==> exact <= MAX_INT64)
                && (exact <= MAX_INT64 ==> MaxSleep(retry, Retries(retry)) < consumer.claimMinIdle)
      ensures (forall sleeps :: Jittered(retry, sleeps) ==> Total(sleeps) < consumer.claimMinIdle)
              <==> MaxSleep(retry, Retries(retry)) < consumer.claimMinIdle
    {
      var err := Validate(pool);
      if err.None? {
        err := ValidateConsumer(generated);
      }
      ok := err.None?;
      SleepBelowMinIdleIff(retry, consumer.claimMinIdle);
      if ok {
        AcceptedBudgetIff(retry, consumer.claimMinIdle);
        if BoundSum(retry.initialBackoff, retry.maxBackoff, Retries(retry)) <= MAX_INT64 {
          SleepBelowMinIdle(retry, consumer.claimMinIdle);
        }
      }
    }
  }
}
