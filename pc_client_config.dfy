/** Client-side settings of the `pc` push channel: the timeout getters with their defaults,
    the reconnect strategy and the reconnect counter. Durations and instants are nanoseconds;
    the exponential backoff with jitter (`CalculateNextDelay`) is floating point and not
    modelled. */
module PcClientConfig {
  import opened Wrappers
  import opened DriverDefine

  const Minute: int := 60 * Second

  /** `ReconnectStrategy`; a negative retry count means unlimited. */
  datatype ReconnectStrategy = ReconnectStrategy(
    maxRetries: int, initialDelay: int, maxDelay: int, backoffFactor: real,
    resetInterval: int, enableJitter: bool)

  /** The timing part of `PersistentConnectionConfig`; callbacks and headers are not modelled. */
  datatype ConnectionConfig = ConnectionConfig(
    address: string, clientVersion: string, reconnectStrategy: Option<ReconnectStrategy>,
    heartbeat: int, writeTimeout: int, readTimeout: int, dialTimeout: int)

  /** A positive setting, else the default. */
  function PositiveOr(value: int, default: int): (r: int)
    ensures value > 0 ==> r == value
    ensures value <= 0 ==> r == default
  {
    if value > 0 then value else default
  }

  /** `GetHeartbeatInterval`: 30s unless a positive interval is set. */
  function GetHeartbeatInterval(c: ConnectionConfig): (r: int)
    ensures r == PositiveOr(c.heartbeat, 30 * Second) && r > 0
  {
    if c.heartbeat > 0 then c.heartbeat else 30 * Second
  }

  /** `GetWriteTimeout`: 10s unless a positive timeout is set. */
  function GetWriteTimeout(c: ConnectionConfig): (r: int)
    ensures r == PositiveOr(c.writeTimeout, 10 * Second) && r > 0
  {
    if c.writeTimeout > 0 then c.writeTimeout else 10 * Second
  }

  /** `GetReadTimeout`: 60s unless a positive timeout is set. */
  function GetReadTimeout(c: ConnectionConfig): (r: int)
    ensures r == PositiveOr(c.readTimeout, 60 * Second) && r > 0
  {
    if c.readTimeout > 0 then c.readTimeout else 60 * Second
  }

  /** `DefaultReconnectStrategy`: unlimited retries from 1s up to 10s, doubling, with
      jitter, the counter reset after 5 minutes. */
  function DefaultReconnectStrategy(): (s: ReconnectStrategy)
    ensures s.maxRetries == -1 && s.initialDelay == Second && s.maxDelay == 10 * Second
    ensures s.backoffFactor == 2.0 && s.resetInterval == 5 * Minute && s.enableJitter
  {
    ReconnectStrategy(-1, 1 * Second, 10 * Second, 2.0, 5 * Minute, true)
  }

  /** `GetReconnectStrategy`: the configured strategy, else the default one. */
  function GetReconnectStrategy(c: ConnectionConfig): (s: ReconnectStrategy)
    ensures c.reconnectStrategy.Some? ==> s == c.reconnectStrategy.value
    ensures c.reconnectStrategy.None? ==> s == DefaultReconnectStrategy()
  {
    if c.reconnectStrategy.Some? then c.reconnectStrategy.value else DefaultReconnectStrategy()
  }

  /** `ShouldReset` on a snapshot: there were attempts, the last one is recorded, and more
      than the reset interval has passed since. */
  predicate ResetDue(attempts: int, lastAttempt: Option<int>, strategy: ReconnectStrategy, now: int) {
    attempts > 0 && lastAttempt.Some? && now - lastAttempt.value > strategy.resetInterval
  }

  /** Without attempts nothing is due, whatever the clock says. */
  lemma NoResetWithoutAttempts(lastAttempt: Option<int>, strategy: ReconnectStrategy, now: int)
    ensures !ResetDue(0, lastAttempt, strategy, now)
  {
  }

  /** After an attempt at `t`, a reset is due exactly once the reset interval has passed. */
  lemma ResetDueAfterInterval(attempts: int, t: int, strategy: ReconnectStrategy, now: int)
    requires attempts > 0
    ensures ResetDue(attempts, Some(t), strategy, now) <==> now > t + strategy.resetInterval
  {
  }

  /** `ReconnectState`; the zero `LastAttempt` is `None`. */
  class ReconnectState {
    var attempts: int
    var lastAttempt: Option<int>
    var nextDelay: int

    constructor ()
      ensures attempts == 0 && lastAttempt.None? && nextDelay == 0
    {
      attempts := 0;
      lastAttempt := None;
      nextDelay := 0;
    }

    /** `Reset`: no attempts and no delay, stamped now. */
    method Reset(now: int)
      modifies this
      ensures attempts == 0 && nextDelay == 0 && lastAttempt == Some(now)
    {
      attempts := 0;
      lastAttempt := Some(now);
      nextDelay := 0;
    }

    /** `IncrementAttempts`: exactly one attempt more, stamped now. */
    method IncrementAttempts(now: int)
      modifies this
      ensures attempts == old(attempts) + 1 && lastAttempt == Some(now) && nextDelay == old(nextDelay)
    {
      attempts := attempts + 1;
      lastAttempt := Some(now);
    }

    /** `ShouldReset`. */
    predicate ShouldReset(strategy: ReconnectStrategy, now: int)
      reads this
    {
      ResetDue(attempts, lastAttempt, strategy, now)
    }

    /** `GetAttempts`. */
    function GetAttempts(): int
      reads this
    {
      attempts
    }
  }
}
