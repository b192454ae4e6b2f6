/** The Kafka driver comparators that decide whether a driver replacement can be skipped:
    field-by-field equality of producer and consumer configs, with brokers compared as a
    multiset by default or in order on request. */
module KafkaSameConfig {
  import opened Wrappers
  import opened DriverDefine
  import opened Kafka

  /** `KafkaConfigCompareOptions`. */
  datatype CompareOptions = CompareOptions(strictBrokerOrder: bool)

  /** `DefaultKafkaConfigCompareOptions`: broker order does not matter. */
  const DefaultCompareOptions: CompareOptions := CompareOptions(false)

  /** `m` holds the number of occurrences of each string of `xs`, and no other key. */
  ghost predicate CountsOf(m: map<string, int>, xs: seq<string>) {
    (forall k :: k in m <==> k in multiset(xs)) && forall k :: k in m ==> m[k] == multiset(xs)[k]
  }

  /** The counting loop: `counts[x]++` for every element, from Go's zero value. */
  method BuildCounts(xs: seq<string>) returns (counts: map<string, int>)
    ensures CountsOf(counts, xs)
  {
    counts := map[];
    var i := 0;
    while i < |xs|
      invariant 0 <= i <= |xs|
      invariant CountsOf(counts, xs[..i])
    {
      assert xs[..i + 1] == xs[..i] + [xs[i]];
      var c := if xs[i] in counts then counts[xs[i]] else 0;
      counts := counts[xs[i] := c + 1];
      i := i + 1;
    }
    assert xs[..|xs|] == xs;
  }

  /** Two count maps of equal size agree when every count of the first is found in the second. */
  method SameCounts(countA: map<string, int>, countB: map<string, int>, ghost a: seq<string>, ghost b: seq<string>)
    returns (eq: bool)
    requires CountsOf(countA, a) && CountsOf(countB, b)
    ensures eq <==> multiset(a) == multiset(b)
  {
    SameMultisetSameKeys(countA, countB, a, b);
    if |countA| != |countB| {
      return false;
    }
    var keys := countA.Keys;
    while keys != {}
      invariant keys <= countA.Keys
      invariant forall k :: k in countA && k !in keys ==> k in countB && countB[k] == countA[k]
      decreases |keys|
    {
      var k :| k in keys;
      var cb := if k in countB then countB[k] else 0;
      if cb != countA[k] {
        return false;
      }
      keys := keys - {k};
    }
    assert countA.Keys <= countB.Keys;
    SubsetOfSameSize(countA.Keys, countB.Keys);
    assert forall k :: multiset(a)[k] == multiset(b)[k] by {
      forall k ensures multiset(a)[k] == multiset(b)[k] {
        if k in countA {
          assert countA[k] == countB[k];
        }
      }
    }
    return true;
  }

  lemma SubsetOfSameSize(a: set<string>, b: set<string>)
    requires a <= b && |a| == |b|
    ensures a == b
  {
    assert b == a + (b - a) && a * (b - a) == {};
  }

  /** Count maps of equal multisets have the same keys. */
  lemma SameMultisetSameKeys(countA: map<string, int>, countB: map<string, int>, a: seq<string>, b: seq<string>)
    requires CountsOf(countA, a) && CountsOf(countB, b)
    ensures multiset(a) == multiset(b) ==> countA.Keys == countB.Keys
  {
  }

  /** `isStringSliceEqualKafka`: equal lengths and equal counts, i.e. equality up to reordering. */
  method StringSliceEqualKafka(a: seq<string>, b: seq<string>) returns (eq: bool)
    ensures eq <==> multiset(a) == multiset(b)
  {
    if |a| != |b| {
      return false;
    }
    var countA := BuildCounts(a);
    var countB := BuildCounts(b);
    eq := SameCounts(countA, countB, a, b);
  }

  /** `isStringSliceEqualKafkaOrdered`: elementwise equality. */
  method StringSliceEqualKafkaOrdered(a: seq<string>, b: seq<string>) returns (eq: bool)
    ensures eq <==> a == b
  {
    if |a| != |b| {
      return false;
    }
    var i := 0;
    while i < |a|
      invariant 0 <= i <= |a|
      invariant a[..i] == b[..i]
    {
      if a[i] != b[i] {
        return false;
      }
      assert a[..i + 1] == a[..i] + [a[i]] && b[..i + 1] == b[..i] + [b[i]];
      i := i + 1;
    }
    assert a == a[..i] && b == b[..i];
    return true;
  }

  /** The broker comparison the two slice methods implement. */
  predicate BrokersEqual(a: seq<string>, b: seq<string>, options: CompareOptions) {
    if options.strictBrokerOrder then a == b else multiset(a) == multiset(b)
  }

  /** The comparison method chosen by the options agrees with `BrokersEqual`. */
  method CompareBrokers(a: seq<string>, b: seq<string>, options: CompareOptions) returns (eq: bool)
    ensures eq == BrokersEqual(a, b, options)
  {
    if options.strictBrokerOrder {
      eq := StringSliceEqualKafkaOrdered(a, b);
    } else {
      eq := StringSliceEqualKafka(a, b);
    }
  }

  /** `isSASLConfigEqual`. */
  predicate SASLEqual(a: Option<SASLConfig>, b: Option<SASLConfig>) {
    if a.None? && b.None? then true
    else if a.None? || b.None? then false
    else (a.value.enabled == b.value.enabled && a.value.mechanism == b.value.mechanism
      && a.value.username == b.value.username && a.value.password == b.value.password)
  }

  /** `isTLSConfigEqual`. */
  predicate TLSEqual(a: Option<TLSConfig>, b: Option<TLSConfig>) {
    if a.None? && b.None? then true
    else if a.None? || b.None? then false
    else (a.value.enabled == b.value.enabled && a.value.caFile == b.value.caFile
      && a.value.certFile == b.value.certFile && a.value.keyFile == b.value.keyFile
      && a.value.insecureSkipVerify == b.value.insecureSkipVerify)
  }

  /** `isKafkaSecurityConfigEqual`. */
  predicate SecurityEqual(a: Option<SecurityConfig>, b: Option<SecurityConfig>) {
    if a.None? && b.None? then true
    else if a.None? || b.None? then false
    else SASLEqual(a.value.sasl, b.value.sasl) && TLSEqual(a.value.tls, b.value.tls)
  }

  /** Every field of the security settings takes part: the comparison is plain equality. */
  lemma SecurityEqualMeaning(a: Option<SecurityConfig>, b: Option<SecurityConfig>)
    ensures SecurityEqual(a, b) <==> a == b
  {
  }

  /** `isKafkaConsumerConfigEqualWithOptions`: base (brokers, read and commit timeouts, topic),
      security, retry and the consumer-specific fields. */
  predicate ConsumerConfigEqual(a: Option<ConsumerConfig>, b: Option<ConsumerConfig>, options: CompareOptions) {
    if a.None? && b.None? then true
    else if a.None? || b.None? then false
    else
      var o, n := a.value, b.value;
      && BrokersEqual(o.brokers, n.brokers, options) && o.readTimeout == n.readTimeout
      && o.commitTimeout == n.commitTimeout && o.topic == n.topic
      && SecurityEqual(o.security, n.security)
      && RetryConfigEqual(o.retry, n.retry)
      && o.groupId == n.groupId && o.autoOffsetReset == n.autoOffsetReset
      && o.enableAutoCommit == n.enableAutoCommit && o.autoCommitInterval == n.autoCommitInterval
  }

  /** `isKafkaProducerConfigEqualWithOptions`: brokers and topic, security and the producer fields. */
  predicate ProducerConfigEqual(a: Option<ProducerConfig>, b: Option<ProducerConfig>, options: CompareOptions) {
    if a.None? && b.None? then true
    else if a.None? || b.None? then false
    else
      var o, n := a.value, b.value;
      && BrokersEqual(o.brokers, n.brokers, options) && o.topic == n.topic
      && SecurityEqual(o.security, n.security)
      && o.requiredAcks == n.requiredAcks && o.timeout == n.timeout && o.batchTimeout == n.batchTimeout
      && o.batchBytes == n.batchBytes && o.batchSize == n.batchSize && o.retries == n.retries
      && o.retryBackoffMin == n.retryBackoffMin && o.retryBackoffMax == n.retryBackoffMax
      && o.compression == n.compression
  }

  /** The options in effect: the first one given, else the defaults. */
  function EffectiveOptions(options: seq<CompareOptions>): (r: CompareOptions)
    ensures options == [] ==> !r.strictBrokerOrder
    ensures options != [] ==> r == options[0]
  {
    if |options| > 0 then options[0] else DefaultCompareOptions
  }

  /** `KafkaConsumerConfigComparatorWithOptions`. */
  predicate ConsumerComparator(oldDriver: Typed<ConsumerConfig>, newDriver: Typed<ConsumerConfig>, options: seq<CompareOptions>) {
    if oldDriver.Mismatch? || newDriver.Mismatch? then false
    else ConsumerConfigEqual(oldDriver.config, newDriver.config, EffectiveOptions(options))
  }

  /** `KafkaProducerConfigComparatorWithOptions`. */
  predicate ProducerComparator(oldDriver: Typed<ProducerConfig>, newDriver: Typed<ProducerConfig>, options: seq<CompareOptions>) {
    if oldDriver.Mismatch? || newDriver.Mismatch? then false
    else ProducerConfigEqual(oldDriver.config, newDriver.config, EffectiveOptions(options))
  }

  /** Drivers of another kind never compare equal; two nil configs do; exactly one nil does not. */
  lemma ComparatorNilAndMismatch(c: Option<ConsumerConfig>, p: Option<ProducerConfig>, options: seq<CompareOptions>)
    ensures !ConsumerComparator(Mismatch, Same(c), options) && !ConsumerComparator(Same(c), Mismatch, options)
    ensures !ProducerComparator(Mismatch, Same(p), options) && !ProducerComparator(Same(p), Mismatch, options)
    ensures ConsumerComparator(Same(None), Same(None), options) && ProducerComparator(Same(None), Same(None), options)
    ensures c.Some? ==> !ConsumerComparator(Same(None), Same(c), options) && !ConsumerComparator(Same(c), Same(None), options)
    ensures p.Some? ==> !ProducerComparator(Same(None), Same(p), options) && !ProducerComparator(Same(p), Same(None), options)
  {
  }

  /** Every config equals itself, and the comparison is symmetric. */
  lemma ConsumerConfigEqualReflexiveSymmetric(a: Option<ConsumerConfig>, b: Option<ConsumerConfig>, options: CompareOptions)
    ensures ConsumerConfigEqual(a, a, options)
    ensures ConsumerConfigEqual(a, b, options) == ConsumerConfigEqual(b, a, options)
  {
  }

  /** Changing only the connect or validate timeout never makes a consumer config differ. */
  lemma ConsumerIgnoresConnectAndValidate(c: ConsumerConfig, connect: string, validate: string, options: CompareOptions)
    ensures ConsumerConfigEqual(Some(c), Some(c.(connectTimeout := connect, validateTimeout := validate)), options)
  {
  }

  /** The same holds for the producer's connect and validate timeouts. */
  lemma ProducerIgnoresConnectAndValidate(c: ProducerConfig, connect: string, validate: string, options: CompareOptions)
    ensures ProducerConfigEqual(Some(c), Some(c.(connectTimeout := connect, validateTimeout := validate)), options)
  {
  }

  /** With the default options, reordering the brokers does not make configs differ; with
      strict order it does whenever the order actually changes. */
  lemma BrokerOrderMatters(c: ConsumerConfig, brokers: seq<string>)
    requires multiset(brokers) == multiset(c.brokers)
    ensures ConsumerComparator(Same(Some(c)), Same(Some(c.(brokers := brokers))), [])
    ensures brokers != c.brokers ==> !ConsumerComparator(Same(Some(c)), Same(Some(c.(brokers := brokers))), [CompareOptions(true)])
  {
  }

  /** Any difference in a consumer field that is compared is noticed. */
  lemma ConsumerNoticesTopic(c: ConsumerConfig, topic: string, options: CompareOptions)
    requires topic != c.topic
    ensures !ConsumerConfigEqual(Some(c), Some(c.(topic := topic)), options)
    ensures !ConsumerConfigEqual(Some(c), Some(c.(readTimeout := c.readTimeout + "x")), options)
  {
  }
}
