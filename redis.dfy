/** The Redis client options of the backend: connection defaults and the reconnect backoff. */
module RedisConfig {
  import opened Common

  const DefaultHost := "localhost"
  const DefaultPort := 6379
  const DefaultKeyPrefix := "matchinsight:"

  /** The configuration object under the `redis` key, when one is present. */
  datatype RedisSettings = RedisSettings(
    host: Option<string>, port: Option<int>, password: Option<string>, keyPrefix: Option<string>)

  datatype ClientOptions = ClientOptions(
    host: string, port: int, password: Option<string>, keyPrefix: string)

  /** The options passed to the client: every `||` falls back on a falsy configured value. */
  function ConnectionOptions(settings: Option<RedisSettings>): (o: ClientOptions)
    ensures settings.None? ==>
      o == ClientOptions(DefaultHost, DefaultPort, None, DefaultKeyPrefix)
    ensures settings.Some? ==>
      && o.host == StringOr(settings.value.host, DefaultHost)
      && o.port == (if TruthyInt(settings.value.port) then settings.value.port.value else DefaultPort)
      && o.password == settings.value.password
      && o.keyPrefix == StringOr(settings.value.keyPrefix, DefaultKeyPrefix)
  {
    match settings
    case None => ClientOptions(DefaultHost, DefaultPort, None, DefaultKeyPrefix)
    case Some(c) =>
      ClientOptions(
        StringOr(c.host, DefaultHost),
        if TruthyInt(c.port) then c.port.value else DefaultPort,
        c.password,
        StringOr(c.keyPrefix, DefaultKeyPrefix))
  }

  /** A configured port of 0 is falsy and is replaced by the default, as is an empty host. */
  lemma FalsyValuesFallBack(password: Option<string>)
    ensures ConnectionOptions(Some(RedisSettings(Some(""), Some(0), password, Some(""))))
      == ClientOptions(DefaultHost, DefaultPort, password, DefaultKeyPrefix)
  {
  }

  /** `retryStrategy`: the delay in milliseconds before reconnect attempt `times`. */
  function RetryDelay(times: int): (delay: int)
    ensures delay <= 2000
    ensures times >= 0 ==> delay >= 0
    ensures delay == times * 50 || delay == 2000
    ensures times <= 40 ==> delay == times * 50
    ensures times >= 40 ==> delay == 2000
  {
    if times * 50 < 2000 then times * 50 else 2000
  }

  /** The backoff never shrinks as attempts accumulate. */
  lemma RetryDelayMonotone(a: int, b: int)
    requires a <= b
    ensures RetryDelay(a) <= RetryDelay(b)
  {
  }
}
