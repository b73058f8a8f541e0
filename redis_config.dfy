/**
 * The reconnect policy given to the Redis client in src/config/redis.ts:
 * give up after the third retry, otherwise wait `min(retries * 100, 3000)`
 * milliseconds.
 */
module RedisConfig {

  /** What `reconnectStrategy` returns: an Error, or a delay in milliseconds. */
  datatype Retry = GiveUp(error: string) | Delay(ms: nat)

  function Min(a: int, b: int): int
  {
    if a <= b then a else b
  }

  /** `reconnectStrategy(retries)`. */
  function ReconnectStrategy(retries: nat): (r: Retry)
    ensures r.GiveUp? <==> retries > 3
    ensures r.GiveUp? ==> r.error == "Retry limit exceeded"
    ensures r.Delay? ==> r.ms <= 3000
    ensures r.Delay? ==> r.ms == retries * 100 <= 300
  {
    if retries > 3 then GiveUp("Retry limit exceeded")
    else Delay(Min(retries * 100, 3000))
  }

  /** On the retry branch the delay grows with the retry count. */
  lemma DelayMonotone(a: nat, b: nat)
    requires a <= b <= 3
    ensures ReconnectStrategy(a).ms <= ReconnectStrategy(b).ms
  {
  }
}
