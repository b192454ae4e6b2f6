/** Kafka driver settings: the producer and consumer configs, their default getters, their
    validation and the shared SASL/TLS validation. `time.ParseDuration` and `net.SplitHostPort`
    are parameters; durations are nanoseconds. */
module Kafka {
  import opened Wrappers
  import opened StrUtil
  import opened DriverDefine

  /** `net.SplitHostPort`, left uninterpreted: (host, port), or none on a malformed address. */
  type HostPortSplitter = string -> Option<(string, string)>

  datatype SASLConfig = SASLConfig(enabled: bool, mechanism: string, username: string, password: string)

  datatype TLSConfig = TLSConfig(enabled: bool, caFile: string, certFile: string, keyFile: string,
                                 insecureSkipVerify: bool)

  datatype SecurityConfig = SecurityConfig(sasl: Option<SASLConfig>, tls: Option<TLSConfig>)

  /** `KafkaProducerConfig`; a nil broker list and an empty one are the same here. */
  datatype ProducerConfig = ProducerConfig(
    requiredAcks: string, timeout: string, batchTimeout: string, batchBytes: int, batchSize: int,
    retries: int, retryBackoffMin: string, retryBackoffMax: string, compression: string,
    connectTimeout: string, validateTimeout: string,
    brokers: seq<string>, topic: string, security: Option<SecurityConfig>)

  /** `KafkaConsumerConfig`. */
  datatype ConsumerConfig = ConsumerConfig(
    groupId: string, autoOffsetReset: string, enableAutoCommit: bool, autoCommitInterval: string,
    connectTimeout: string, validateTimeout: string, readTimeout: string, commitTimeout: string,
    brokers: seq<string>, topic: string, security: Option<SecurityConfig>, retry: Option<RetryConfig>)

  /** kafka-go's acknowledgement levels. */
  datatype RequiredAcks = RequireNone | RequireOne | RequireAll

  const ValidAcks: seq<string> := ["all", "one", "none"]
  const ValidCompressions: seq<string> := ["gzip", "snappy", "lz4", "zstd"]
  const ValidOffsets: seq<string> := ["earliest", "latest"]
  const ValidMechanisms: seq<string> := ["PLAIN", "SCRAM-SHA-256", "SCRAM-SHA-512"]

  /** `parseRequiredAcks`: the three names, anything else meaning all replicas. */
  function ParseRequiredAcks(acks: string): (r: RequiredAcks)
    ensures r == RequireOne <==> acks == "one"
    ensures r == RequireNone <==> acks == "none"
    ensures acks !in ValidAcks ==> r == RequireAll
  {
    match acks
    case "all" => RequireAll
    case "one" => RequireOne
    case "none" => RequireNone
    case _ => RequireAll
  }

  /** `parseCompression`: the codec numbers of kafka-go, 0 for none. */
  function ParseCompression(compression: string): (r: int)
    ensures 0 <= r <= 4
    ensures r != 0 <==> compression in ValidCompressions
    ensures r != 0 ==> ValidCompressions[r - 1] == compression
  {
    match compression
    case "gzip" => 1
    case "snappy" => 2
    case "lz4" => 3
    case "zstd" => 4
    case _ => 0
  }

  /** The getter pattern for durations: the parsed setting, or the default when it does not parse. */
  function DurationOr(parse: DurationParser, s: string, default: int): (r: int)
    ensures parse(s).Some? ==> r == parse(s).value
    ensures parse(s).None? ==> r == default
  {
    if parse(s).Some? then parse(s).value else default
  }

  /** The getter pattern for counts: the setting unless it is 0. */
  function NonZeroOr(n: int, default: int): (r: int)
    ensures default != 0 ==> r != 0
    ensures n != 0 ==> r == n
  {
    if n != 0 then n else default
  }

  /** Producer defaults. */
  function ProducerTimeout(k: ProducerConfig, parse: DurationParser): int { DurationOr(parse, k.timeout, 5 * Second) }
  function ProducerBatchTimeout(k: ProducerConfig, parse: DurationParser): int { DurationOr(parse, k.batchTimeout, Second) }
  function ProducerBatchBytes(k: ProducerConfig): int { NonZeroOr(k.batchBytes, 1048576) }
  function ProducerBatchSize(k: ProducerConfig): int { NonZeroOr(k.batchSize, 50) }
  function ProducerRetries(k: ProducerConfig): int { NonZeroOr(k.retries, 3) }
  function ProducerRetryBackoffMin(k: ProducerConfig, parse: DurationParser): int { DurationOr(parse, k.retryBackoffMin, 100 * Millisecond) }
  function ProducerRetryBackoffMax(k: ProducerConfig, parse: DurationParser): int { DurationOr(parse, k.retryBackoffMax, Second) }
  function ProducerConnectTimeout(k: ProducerConfig, parse: DurationParser): int { DurationOr(parse, k.connectTimeout, 10 * Second) }
  function ProducerValidateTimeout(k: ProducerConfig, parse: DurationParser): int { DurationOr(parse, k.validateTimeout, 10 * Second) }

  /** Unparsable (for instance empty) duration settings fall back to 5s, 1s, 100ms, 1s, 10s and
      10s; parsable ones are used as given. */
  lemma ProducerDurationDefaults(k: ProducerConfig, parse: DurationParser)
    ensures parse(k.timeout).None? ==> ProducerTimeout(k, parse) == 5_000_000_000
    ensures parse(k.batchTimeout).None? ==> ProducerBatchTimeout(k, parse) == 1_000_000_000
    ensures parse(k.retryBackoffMin).None? ==> ProducerRetryBackoffMin(k, parse) == 100_000_000
    ensures parse(k.retryBackoffMax).None? ==> ProducerRetryBackoffMax(k, parse) == 1_000_000_000
    ensures parse(k.connectTimeout).None? ==> ProducerConnectTimeout(k, parse) == 10_000_000_000
    ensures parse(k.validateTimeout).None? ==> ProducerValidateTimeout(k, parse) == 10_000_000_000
    ensures parse(k.timeout).Some? ==> ProducerTimeout(k, parse) == parse(k.timeout).value
  {
  }

  /** Zero counts take the documented defaults; set counts are kept; the defaulted counts are never 0. */
  lemma ProducerCountDefaults(k: ProducerConfig)
    ensures k.batchBytes == 0 ==> ProducerBatchBytes(k) == 1048576
    ensures k.batchSize == 0 ==> ProducerBatchSize(k) == 50
    ensures k.retries == 0 ==> ProducerRetries(k) == 3
    ensures k.batchBytes != 0 ==> ProducerBatchBytes(k) == k.batchBytes
    ensures k.batchSize != 0 ==> ProducerBatchSize(k) == k.batchSize
    ensures k.retries != 0 ==> ProducerRetries(k) == k.retries
    ensures ProducerBatchBytes(k) != 0 && ProducerBatchSize(k) != 0 && ProducerRetries(k) != 0
  {
  }

  /** Writing the defaulted counts back into the config changes none of the getters' answers. */
  lemma ProducerCountDefaultsIdempotent(k: ProducerConfig)
    ensures var k' := k.(batchBytes := ProducerBatchBytes(k), batchSize := ProducerBatchSize(k), retries := ProducerRetries(k));
      ProducerBatchBytes(k') == ProducerBatchBytes(k) && ProducerBatchSize(k') == ProducerBatchSize(k)
      && ProducerRetries(k') == ProducerRetries(k)
  {
  }

  /** Consumer defaults. `getGroupId` derives the group from the topic. */
  function ConsumerGroupId(k: ConsumerConfig): (r: string)
    ensures k.groupId != "" ==> r == k.groupId
    ensures k.groupId == "" ==> r == "switch-consumer-" + k.topic
    ensures r != ""
  {
    if k.groupId != "" then k.groupId else "switch-consumer-" + k.topic
  }

  function ConsumerAutoOffsetReset(k: ConsumerConfig): (r: string)
    ensures r != "" && (k.autoOffsetReset != "" ==> r == k.autoOffsetReset)
    ensures k.autoOffsetReset == "" ==> r == "latest"
  {
    if k.autoOffsetReset == "" then "latest" else k.autoOffsetReset
  }

  function ConsumerAutoCommitInterval(k: ConsumerConfig, parse: DurationParser): int { DurationOr(parse, k.autoCommitInterval, Second) }
  function ConsumerConnectTimeout(k: ConsumerConfig, parse: DurationParser): int { DurationOr(parse, k.connectTimeout, 10 * Second) }
  function ConsumerValidateTimeout(k: ConsumerConfig, parse: DurationParser): int { DurationOr(parse, k.validateTimeout, 10 * Second) }
  function ConsumerReadTimeout(k: ConsumerConfig, parse: DurationParser): int { DurationOr(parse, k.readTimeout, 30 * Second) }
  function ConsumerCommitTimeout(k: ConsumerConfig, parse: DurationParser): int { DurationOr(parse, k.commitTimeout, 5 * Second) }

  /** Unparsable consumer durations fall back to 1s, 10s, 10s, 30s and 5s. */
  lemma ConsumerDurationDefaults(k: ConsumerConfig, parse: DurationParser)
    ensures parse(k.autoCommitInterval).None? ==> ConsumerAutoCommitInterval(k, parse) == 1_000_000_000
    ensures parse(k.connectTimeout).None? ==> ConsumerConnectTimeout(k, parse) == 10_000_000_000
    ensures parse(k.validateTimeout).None? ==> ConsumerValidateTimeout(k, parse) == 10_000_000_000
    ensures parse(k.readTimeout).None? ==> ConsumerReadTimeout(k, parse) == 30_000_000_000
    ensures parse(k.commitTimeout).None? ==> ConsumerCommitTimeout(k, parse) == 5_000_000_000
    ensures parse(k.readTimeout).Some? ==> ConsumerReadTimeout(k, parse) == parse(k.readTimeout).value
  {
  }

  /** `getRetry`: a missing retry setting means five retries, three seconds apart. */
  function ConsumerRetry(k: ConsumerConfig): (r: RetryConfig)
    ensures k.retry.Some? ==> r == k.retry.value
    ensures k.retry.None? ==> r == RetryConfig(5, "3s")
  {
    if k.retry.None? then RetryConfig(5, "3s") else k.retry.value
  }

  /** `getMaxRetries`. */
  function ConsumerMaxRetries(k: ConsumerConfig): (r: int)
    ensures r != 0
    ensures k.retry.None? ==> r == 5
    ensures k.retry.Some? && k.retry.value.count != 0 ==> r == k.retry.value.count
  {
    if ConsumerRetry(k).count != 0 then ConsumerRetry(k).count else 5
  }

  /** `getBackoffDuration`. */
  function ConsumerBackoff(k: ConsumerConfig, parse: DurationParser): (r: int)
    ensures var b := ConsumerRetry(k).backoff; b != "" && parse(b).Some? ==> r == parse(b).value
    ensures var b := ConsumerRetry(k).backoff; (b == "" || parse(b).None?) ==> r == 3 * Second
  {
    var b := ConsumerRetry(k).backoff;
    if b != "" && parse(b).Some? then parse(b).value else 3 * Second
  }

  /** Without a retry setting the consumer backs off three seconds, however "3s" is parsed. */
  lemma DefaultBackoff(k: ConsumerConfig, parse: DurationParser)
    requires k.retry.None?
    requires parse("3s").None? || parse("3s") == Some(3 * Second)
    ensures ConsumerBackoff(k, parse) == 3 * Second && ConsumerMaxRetries(k) == 5
  {
  }

  /** `validateBrokerAddress`. */
  function ValidateBrokerAddress(broker: string, split: HostPortSplitter): (r: Outcome)
    ensures r.Pass? <==> (broker != "" && ':' in broker && split(broker).Some?
      && split(broker).value.0 != "" && split(broker).value.1 != "")
  {
    if broker == "" then Fail("broker address cannot be empty")
    else if ':' !in broker then Fail("broker address must include port (e.g., 'localhost:9092')")
    else if split(broker).None? then Fail("invalid broker address format")
    else if split(broker).value.0 == "" then Fail("broker host cannot be empty")
    else if split(broker).value.1 == "" then Fail("broker port cannot be empty")
    else Pass
  }

  /** The broker loop of `validateBase` from index `i` on: the first empty or malformed broker. */
  function CheckBrokers(brokers: seq<string>, i: nat, split: HostPortSplitter): Outcome
    decreases |brokers| - i
  {
    if i >= |brokers| then Pass
    else if brokers[i] == "" then Fail("broker[" + NatToString(i) + "] cannot be empty")
    else if ValidateBrokerAddress(brokers[i], split).Fail? then
      Fail("invalid broker[" + NatToString(i) + "] address '" + brokers[i] + "': " + ValidateBrokerAddress(brokers[i], split).msg)
    else CheckBrokers(brokers, i + 1, split)
  }

  predicate BrokerOk(b: string, split: HostPortSplitter) {
    ValidateBrokerAddress(b, split).Pass?
  }

  /** The broker loop passes exactly when every remaining broker is a valid address. */
  lemma {:induction false} CheckBrokersAll(brokers: seq<string>, i: nat, split: HostPortSplitter)
    requires i <= |brokers|
    ensures CheckBrokers(brokers, i, split).Pass? <==> forall j :: i <= j < |brokers| ==> BrokerOk(brokers[j], split)
    decreases |brokers| - i
  {
    if i < |brokers| {
      CheckBrokersAll(brokers, i + 1, split);
    }
  }

  /** The first error among optional duration settings, in order; empty settings are skipped. */
  function CheckDurations(names: seq<string>, values: seq<string>, parse: DurationParser): (r: Outcome)
    requires |names| == |values|
    ensures r.Pass? <==> forall j :: 0 <= j < |values| ==> values[j] == "" || parse(values[j]).Some?
  {
    if values == [] then Pass
    else if values[0] != "" && parse(values[0]).None? then
      Fail("invalid " + names[0] + " format '" + values[0] + "'")
    else
      var rest := CheckDurations(names[1..], values[1..], parse);
      assert forall j :: 1 <= j < |values| ==> values[j] == values[1..][j - 1];
      rest
  }

  /** A membership check that lets the empty setting through. */
  predicate OptionalIn(s: string, allowed: seq<string>) {
    s == "" || ContainsStr(allowed, s)
  }

  /** The producer's duration settings, in the order they are checked. */
  function ProducerDurations(k: ProducerConfig): seq<string> {
    [k.timeout, k.batchTimeout, k.retryBackoffMin, k.retryBackoffMax, k.connectTimeout, k.validateTimeout]
  }

  /** `KafkaProducerConfig.validateBase`: the checks in source order, reporting the first that
      fails. It passes exactly for valid configs, and a missing broker list and a missing topic
      are reported as such. */
  function ProducerValidateBase(k: ProducerConfig, parse: DurationParser, split: HostPortSplitter): (r: Outcome)
    ensures r.Pass? <==> ProducerBaseValid(k, parse, split)
    ensures |k.brokers| == 0 ==> r == Fail("brokers must be configured")
    ensures |k.brokers| > 0 && (forall j :: 0 <= j < |k.brokers| ==> BrokerOk(k.brokers[j], split)) && k.topic == ""
      ==> r == Fail("topic must be configured")
  {
    CheckBrokersAll(k.brokers, 0, split);
    if |k.brokers| == 0 then Fail("brokers must be configured")
    else if CheckBrokers(k.brokers, 0, split).Fail? then CheckBrokers(k.brokers, 0, split)
    else if k.topic == "" then Fail("topic must be configured")
    else if !OptionalIn(k.requiredAcks, ValidAcks) then
      Fail("invalid requiredAcks '" + k.requiredAcks + "', must be one of: [all one none]")
    else if !OptionalIn(k.compression, ValidCompressions) then
      Fail("invalid Compression '" + k.compression + "', must be one of: [gzip snappy lz4 zstd]")
    else CheckDurations(["timeout", "batchTimeout", "retryBackoffMin", "retryBackoffMax", "connectTimeout", "validateTimeout"],
                        ProducerDurations(k), parse)
  }

  /** What a valid producer config is, stated independently of the check order. */
  predicate ProducerBaseValid(k: ProducerConfig, parse: DurationParser, split: HostPortSplitter) {
    && |k.brokers| > 0
    && (forall j :: 0 <= j < |k.brokers| ==> BrokerOk(k.brokers[j], split))
    && k.topic != ""
    && OptionalIn(k.requiredAcks, ValidAcks)
    && OptionalIn(k.compression, ValidCompressions)
    && forall j :: 0 <= j < 6 ==> ProducerDurations(k)[j] == "" || parse(ProducerDurations(k)[j]).Some?
  }

  /** The consumer's duration settings, in the order they are checked. */
  function ConsumerDurations(k: ConsumerConfig): seq<string> {
    [k.autoCommitInterval, k.connectTimeout, k.validateTimeout, k.readTimeout, k.commitTimeout]
  }

  /** `KafkaConsumerConfig.validateBase`; the retry check uses the defaulted retry setting. It
      passes exactly for valid configs; a negative retry count is rejected, and without a retry
      setting only the parse of "3s" is required of it. */
  function ConsumerValidateBase(k: ConsumerConfig, parse: DurationParser, split: HostPortSplitter): (r: Outcome)
    ensures r.Pass? <==> ConsumerBaseValid(k, parse, split)
    ensures k.retry.Some? && k.retry.value.count < 0 ==> r.Fail?
    ensures k.retry.None? ==> (ConsumerBaseValid(k, parse, split) ==> parse("3s").Some?)
  {
    CheckBrokersAll(k.brokers, 0, split);
    if |k.brokers| == 0 then Fail("brokers must be configured")
    else if CheckBrokers(k.brokers, 0, split).Fail? then CheckBrokers(k.brokers, 0, split)
    else if k.topic == "" then Fail("topic must be configured")
    else if !OptionalIn(k.autoOffsetReset, ValidOffsets) then
      Fail("invalid autoOffsetReset '" + k.autoOffsetReset + "', must be one of: [earliest latest]")
    else if CheckDurations(["autoCommitInterval", "connectTimeout", "validateTimeout", "readTimeout", "commitTimeout"],
                           ConsumerDurations(k), parse).Fail? then
      CheckDurations(["autoCommitInterval", "connectTimeout", "validateTimeout", "readTimeout", "commitTimeout"],
                     ConsumerDurations(k), parse)
    else if ConsumerRetry(k).count < 0 then Fail("retry count cannot be negative")
    else if ConsumerRetry(k).backoff != "" && parse(ConsumerRetry(k).backoff).None? then
      Fail("invalid retry backoff format '" + ConsumerRetry(k).backoff + "'")
    else Pass
  }

  predicate ConsumerBaseValid(k: ConsumerConfig, parse: DurationParser, split: HostPortSplitter) {
    && |k.brokers| > 0
    && (forall j :: 0 <= j < |k.brokers| ==> BrokerOk(k.brokers[j], split))
    && k.topic != ""
    && OptionalIn(k.autoOffsetReset, ValidOffsets)
    && (forall j :: 0 <= j < 5 ==> ConsumerDurations(k)[j] == "" || parse(ConsumerDurations(k)[j]).Some?)
    && ConsumerRetry(k).count >= 0
    && (ConsumerRetry(k).backoff == "" || parse(ConsumerRetry(k).backoff).Some?)
  }

  /** `validateSASLConfig`: only an enabled SASL setting is checked, and only its mechanism. */
  function ValidateSASL(sasl: Option<SASLConfig>): (r: Outcome)
    ensures r.Pass? <==> sasl.None? || !sasl.value.enabled || OptionalIn(sasl.value.mechanism, ValidMechanisms)
  {
    if sasl.None? || !sasl.value.enabled then Pass
    else if !OptionalIn(sasl.value.mechanism, ValidMechanisms) then
      Fail("invalid SASL mechanism '" + sasl.value.mechanism + "', must be one of: [PLAIN SCRAM-SHA-256 SCRAM-SHA-512]")
    else Pass
  }

  /** `validateTLSConfig`: an enabled TLS setting needs both or neither of cert and key. */
  function ValidateTLS(tls: Option<TLSConfig>): (r: Outcome)
    ensures r.Pass? <==> tls.None? || !tls.value.enabled || ((tls.value.certFile == "") == (tls.value.keyFile == ""))
  {
    if tls.None? || !tls.value.enabled then Pass
    else if tls.value.certFile != "" && tls.value.keyFile == "" then Fail("TLS key file is required when cert file is provided")
    else if tls.value.keyFile != "" && tls.value.certFile == "" then Fail("TLS cert file is required when key file is provided")
    else Pass
  }

  /** `validateSecurityConfig`: SASL then TLS, each only when present and enabled. */
  function ValidateSecurityConfig(security: Option<SecurityConfig>): (r: Outcome)
    ensures security.None? ==> r.Pass?
    ensures security.Some? ==> (r.Pass? <==> ValidateSASL(security.value.sasl).Pass? && ValidateTLS(security.value.tls).Pass?)
  {
    if security.None? then Pass
    else if security.value.sasl.Some? && security.value.sasl.value.enabled && ValidateSASL(security.value.sasl).Fail? then
      Fail("invalid SASL config: " + ValidateSASL(security.value.sasl).msg)
    else if security.value.tls.Some? && security.value.tls.value.enabled && ValidateTLS(security.value.tls).Fail? then
      Fail("invalid TLS config: " + ValidateTLS(security.value.tls).msg)
    else Pass
  }

  /** A disabled TLS setting is never rejected, whatever its files. */
  lemma DisabledTLSPasses(t: TLSConfig)
    requires !t.enabled
    ensures ValidateSecurityConfig(Some(SecurityConfig(None, Some(t)))).Pass?
  {
  }

  /** `isValid`: nil, then the base checks, then security, with the package's error prefix. */
  function ProducerIsValid(k: Option<ProducerConfig>, parse: DurationParser, split: HostPortSplitter): (r: Outcome)
    ensures r.Pass? <==> k.Some? && ProducerBaseValid(k.value, parse, split) && ValidateSecurityConfig(k.value.security).Pass?
  {
    if k.None? then Fail("kafka producer config cannot be nil")
    else
      var base := ProducerValidateBase(k.value, parse, split);
      if base.Fail? then Fail("kafka producer config validation failed: " + base.msg)
      else
        var sec := ValidateSecurityConfig(k.value.security);
        if sec.Fail? then Fail("kafka producer config validation failed: " + sec.msg)
        else Pass
  }

  function ConsumerIsValid(k: Option<ConsumerConfig>, parse: DurationParser, split: HostPortSplitter): (r: Outcome)
    ensures r.Pass? <==> k.Some? && ConsumerBaseValid(k.value, parse, split) && ValidateSecurityConfig(k.value.security).Pass?
  {
    if k.None? then Fail("kafka consumer config cannot be nil")
    else
      var base := ConsumerValidateBase(k.value, parse, split);
      if base.Fail? then Fail("kafka consumer config validation failed: " + base.msg)
      else
        var sec := ValidateSecurityConfig(k.value.security);
        if sec.Fail? then Fail("kafka consumer config validation failed: " + sec.msg)
        else Pass
  }

  /** `contains`. */
  function ContainsStr(slice: seq<string>, item: string): (r: bool)
    ensures r <==> item in slice
  {
    if slice == [] then false else slice[0] == item || ContainsStr(slice[1..], item)
  }
}
