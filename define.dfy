/** Shared definitions of the drivers package: the driver type names, the retry setting and
    its comparator, and the duration conventions the drivers' config getters rely on. */
module DriverDefine {
  import opened Wrappers

  /** `time.ParseDuration`, left uninterpreted: the duration in nanoseconds, or none when the
      text does not parse. */
  type DurationParser = string -> Option<int>

  const Millisecond: int := 1_000_000
  const Second: int := 1000 * Millisecond

  const KafkaConsumerDriverType: string := "kafka_consumer"
  const KafkaProducerDriverType: string := "kafka_producer"
  const WebhookConsumerDriverType: string := "webhook_consumer"
  const WebhookProducerDriverType: string := "webhook_producer"
  const PollingConsumerDriverType: string := "polling_consumer"
  const PollingProducerDriverType: string := "polling_producer"

  /** `SupportedTypes`. */
  const SupportedTypes: set<string> := {
    KafkaConsumerDriverType, KafkaProducerDriverType,
    WebhookConsumerDriverType, WebhookProducerDriverType,
    PollingConsumerDriverType, PollingProducerDriverType
  }

  /** The supported driver types are the producer and the consumer of each of the three
      transports, and nothing else: six combinations, six entries. */
  lemma SupportedTypesExactly()
    ensures forall transport, usage | transport in ["kafka", "webhook", "polling"] && usage in ["producer", "consumer"]
      :: transport + "_" + usage in SupportedTypes
    ensures |SupportedTypes| == 6
  {
    assert "kafka" + "_" + "consumer" == KafkaConsumerDriverType;
    assert "kafka" + "_" + "producer" == KafkaProducerDriverType;
    assert "webhook" + "_" + "consumer" == WebhookConsumerDriverType;
    assert "webhook" + "_" + "producer" == WebhookProducerDriverType;
    assert "polling" + "_" + "consumer" == PollingConsumerDriverType;
    assert "polling" + "_" + "producer" == PollingProducerDriverType;
  }

  /** `RetryConfig`. */
  datatype RetryConfig = RetryConfig(count: int, backoff: string)

  /** `isRetryConfigEqual` on possibly-nil settings. */
  predicate RetryConfigEqual(oldRetry: Option<RetryConfig>, newRetry: Option<RetryConfig>) {
    if oldRetry.None? && newRetry.None? then true
    else if oldRetry.None? || newRetry.None? then false
    else oldRetry.value.count == newRetry.value.count && oldRetry.value.backoff == newRetry.value.backoff
  }

  /** Two nil settings are equal, exactly one nil is not, and otherwise the comparator is
      plain equality of count and backoff; hence it is reflexive and symmetric. */
  lemma RetryConfigEqualMeaning(a: Option<RetryConfig>, b: Option<RetryConfig>)
    ensures RetryConfigEqual(a, b) <==> a == b
    ensures RetryConfigEqual(a, a)
    ensures RetryConfigEqual(a, b) == RetryConfigEqual(b, a)
  {
  }

  /** What a comparator learns from a type assertion on a driver: the driver is of the expected
      kind, with its possibly-nil config, or it is some other kind of driver. */
  datatype Typed<C> = Same(config: Option<C>) | Mismatch
}
