/** The polling driver comparators: field-by-field equality of producer and consumer configs.
    Every field takes part and none is normalised, so both amount to plain equality; a nil
    header map still differs from an empty one. */
module PollingSameConfig {
  import opened Wrappers
  import opened DriverDefine
  import opened Polling

  /** `isStringMapEqual`: two nil maps are equal, one nil map is not, otherwise the same size
      and every key of the first maps to the same value in the second. */
  method StringMapEqual(a: Option<map<string, string>>, b: Option<map<string, string>>) returns (eq: bool)
    ensures eq <==> a == b
  {
    if a.None? && b.None? {
      return true;
    }
    if a.None? || b.None? {
      return false;
    }
    var ma, mb := a.value, b.value;
    if |ma| != |mb| {
      return false;
    }
    var keys := ma.Keys;
    while keys != {}
      invariant keys <= ma.Keys
      invariant forall k :: k in ma && k !in keys ==> k in mb && mb[k] == ma[k]
      decreases |keys|
    {
      var k :| k in keys;
      if k !in mb || ma[k] != mb[k] {
        return false;
      }
      keys := keys - {k};
    }
    SameSizeSubmap(ma, mb);
    return true;
  }

  /** A map contained in another of the same size is that map. */
  lemma SameSizeSubmap(ma: map<string, string>, mb: map<string, string>)
    requires |ma| == |mb|
    requires forall k :: k in ma ==> k in mb && mb[k] == ma[k]
    ensures ma == mb
  {
    assert ma.Keys <= mb.Keys;
    assert mb.Keys == ma.Keys + (mb.Keys - ma.Keys) && ma.Keys * (mb.Keys - ma.Keys) == {};
  }

  /** `isTokenStringSliceEqual`: the same tokens in the same order. */
  method TokenSliceEqual(a: seq<string>, b: seq<string>) returns (eq: bool)
    ensures eq <==> a == b
  {
    if |a| != |b| {
      return false;
    }
    for i := 0 to |a|
      invariant a[..i] == b[..i]
    {
      if a[i] != b[i] {
        return false;
      }
      assert a[..i + 1] == a[..i] + [a[i]] && b[..i + 1] == b[..i] + [b[i]];
    }
    assert a == a[..|a|] && b == b[..|b|];
    return true;
  }

  /** `isPollingConsumerSecurityConfigEqual`. */
  predicate ConsumerSecurityEqual(a: Option<ClientSecurityConfig>, b: Option<ClientSecurityConfig>) {
    if a.None? && b.None? then true
    else if a.None? || b.None? then false
    else a.value.insecureSkipVerify == b.value.insecureSkipVerify && a.value.token == b.value.token
  }

  /** `isPollingProducerSecurityConfigEqual`: the HTTPS files, then the tokens in order. */
  predicate ProducerSecurityEqual(a: Option<ServerSecurityConfig>, b: Option<ServerSecurityConfig>) {
    if a.None? && b.None? then true
    else if a.None? || b.None? then false
    else (a.value.certFile == b.value.certFile && a.value.keyFile == b.value.keyFile
      && a.value.validTokens == b.value.validTokens)
  }

  /** `isPollingConsumerConfigEqual`, with `isPollingTimingConfigEqual` and
      `isPollingHTTPConfigEqual` folded in. */
  predicate ConsumerConfigEqual(a: Option<ConsumerConfig>, b: Option<ConsumerConfig>) {
    if a.None? && b.None? then true
    else if a.None? || b.None? then false
    else
      var o, n := a.value, b.value;
      && o.url == n.url
      && o.pollInterval == n.pollInterval && o.requestTimeout == n.requestTimeout
      && RetryConfigEqual(o.retry, n.retry)
      && o.headers == n.headers && o.userAgent == n.userAgent
      && ConsumerSecurityEqual(o.security, n.security)
      && o.ignoreExceptions == n.ignoreExceptions
  }

  /** `isPollingProducerConfigEqual`, with `isPollingServerTimeoutConfigEqual` folded in. */
  predicate ProducerConfigEqual(a: Option<ProducerConfig>, b: Option<ProducerConfig>) {
    if a.None? && b.None? then true
    else if a.None? || b.None? then false
    else
      var o, n := a.value, b.value;
      && o.port == n.port && o.longPollTimeout == n.longPollTimeout
      && o.serverReadTimeout == n.serverReadTimeout && o.serverWriteTimeout == n.serverWriteTimeout
      && o.serverIdleTimeout == n.serverIdleTimeout
      && RetryConfigEqual(o.retry, n.retry)
      && ProducerSecurityEqual(o.security, n.security)
  }

  /** `PollingConsumerConfigComparator`. */
  predicate ConsumerComparator(oldDriver: Typed<ConsumerConfig>, newDriver: Typed<ConsumerConfig>) {
    if oldDriver.Mismatch? || newDriver.Mismatch? then false
    else ConsumerConfigEqual(oldDriver.config, newDriver.config)
  }

  /** `PollingProducerConfigComparator`. */
  predicate ProducerComparator(oldDriver: Typed<ProducerConfig>, newDriver: Typed<ProducerConfig>) {
    if oldDriver.Mismatch? || newDriver.Mismatch? then false
    else ProducerConfigEqual(oldDriver.config, newDriver.config)
  }

  /** Drivers of another kind never compare equal. */
  lemma ComparatorMismatch(c: Option<ConsumerConfig>, p: Option<ProducerConfig>)
    ensures !ConsumerComparator(Mismatch, Same(c)) && !ConsumerComparator(Same(c), Mismatch)
    ensures !ProducerComparator(Mismatch, Same(p)) && !ProducerComparator(Same(p), Mismatch)
  {
  }

  /** Both comparisons are plain equality of the (possibly nil) configs: nothing is ignored
      and nothing normalised. */
  lemma ConfigEqualIsEquality(a: Option<ConsumerConfig>, b: Option<ConsumerConfig>,
                              p: Option<ProducerConfig>, q: Option<ProducerConfig>)
    ensures ConsumerConfigEqual(a, b) <==> a == b
    ensures ProducerConfigEqual(p, q) <==> p == q
  {
    if a.Some? && b.Some? {
      RetryConfigEqualMeaning(a.value.retry, b.value.retry);
    }
    if p.Some? && q.Some? {
      RetryConfigEqualMeaning(p.value.retry, q.value.retry);
    }
  }

  /** A nil header map and an empty one make two consumer configs differ, although both
      send the same headers. */
  lemma NilHeadersDifferFromEmpty(c: ConsumerConfig)
    requires c.headers.None?
    ensures GetHeader(c) == GetHeader(c.(headers := Some(map[])))
    ensures !ConsumerConfigEqual(Some(c), Some(c.(headers := Some(map[]))))
  {
  }

  /** Reordering the accepted tokens makes two producer configs differ. */
  lemma TokenOrderMatters(p: ProducerConfig, t1: string, t2: string)
    requires p.security.Some? && p.security.value.validTokens == [t1, t2] && t1 != t2
    ensures !ProducerConfigEqual(Some(p), Some(p.(security := Some(p.security.value.(validTokens := [t2, t1])))))
  {
  }
}
