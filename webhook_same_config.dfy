/** The webhook driver comparators: field-by-field equality of producer and consumer configs,
    with the blacklists compared as multisets of normalised URLs. */
module WebhookSameConfig {
  import opened Wrappers
  import opened StrUtil
  import opened DriverDefine
  import opened Webhook
  import KafkaSameConfig

  /** The part of `normalizeURL` before the scheme check: trimmed, lower-cased, one trailing
      slash removed. */
  function Canonical(url: string): string {
    TrimSuffix(Lower(TrimSpace(url)), "/")
  }

  /** `normalizeURL`: the canonical text, with `http://` put in front when neither `http://`
      nor `https://` starts it. */
  function NormalizeUrl(url: string): (r: string)
    ensures HasPrefix(r, "http://") || HasPrefix(r, "https://")
    ensures r == Canonical(url) || r == "http://" + Canonical(url)
  {
    var normalized := Canonical(url);
    if !HasPrefix(normalized, "http://") && !HasPrefix(normalized, "https://") then
      assert ("http://" + normalized)[..7] == "http://";
      "http://" + normalized
    else normalized
  }

  /** Case does not matter to the normal form. */
  lemma NormalizeIgnoresCase(url: string)
    ensures NormalizeUrl(Lower(url)) == NormalizeUrl(url)
  {
    TrimSpaceLower(url);
    LowerIdempotent(TrimSpace(url));
  }

  /** Nor does leading whitespace. */
  lemma NormalizeIgnoresLeadingSpace(url: string, c: char)
    requires IsGoSpace(c)
    ensures NormalizeUrl([c] + url) == NormalizeUrl(url)
  {
    assert ([c] + url)[1..] == url;
    assert TrimLeft([c] + url, IsGoSpace) == TrimLeft(url, IsGoSpace);
  }

  /** A text that already carries a scheme keeps it; any other gets `http://`. */
  lemma NormalizeScheme(url: string)
    ensures HasPrefix(Canonical(url), "http://") || HasPrefix(Canonical(url), "https://") ==>
      NormalizeUrl(url) == Canonical(url)
    ensures !HasPrefix(Canonical(url), "http://") && !HasPrefix(Canonical(url), "https://") ==>
      NormalizeUrl(url) == "http://" + Canonical(url)
  {
  }

  /** The normal forms of a list of URLs, in order. */
  function NormalizeAll(urls: seq<string>): (r: seq<string>)
    ensures |r| == |urls| && forall i :: 0 <= i < |urls| ==> r[i] == NormalizeUrl(urls[i])
  {
    seq(|urls|, i requires 0 <= i < |urls| => NormalizeUrl(urls[i]))
  }

  /** The blacklist comparison: the same normalised URLs, each as often, in any order. */
  predicate BlacklistEqual(a: seq<string>, b: seq<string>) {
    multiset(NormalizeAll(a)) == multiset(NormalizeAll(b))
  }

  /** `isStringSliceEqual`: equal lengths, then equal count maps of the normalised URLs. */
  method StringSliceEqual(a: seq<string>, b: seq<string>) returns (eq: bool)
    ensures eq <==> BlacklistEqual(a, b)
  {
    if |a| != |b| {
      assert |multiset(NormalizeAll(a))| != |multiset(NormalizeAll(b))|;
      return false;
    }
    var countA := KafkaSameConfig.BuildCounts(NormalizeAll(a));
    var countB := KafkaSameConfig.BuildCounts(NormalizeAll(b));
    eq := KafkaSameConfig.SameCounts(countA, countB, NormalizeAll(a), NormalizeAll(b));
  }

  /** Swapping two entries of a blacklist never makes it differ. */
  lemma BlacklistIgnoresOrder(a: seq<string>, i: nat, j: nat)
    requires i < |a| && j < |a|
    ensures BlacklistEqual(a, a[i := a[j]][j := a[i]])
  {
    var b := a[i := a[j]][j := a[i]];
    var na := NormalizeAll(a);
    assert NormalizeAll(b) == na[i := na[j]][j := na[i]];
    SwapSameMultiset(na, i, j);
  }

  lemma SwapSameMultiset(s: seq<string>, i: nat, j: nat)
    requires i < |s| && j < |s|
    ensures multiset(s[i := s[j]][j := s[i]]) == multiset(s)
  {
    if i != j {
      var t := s[i := s[j]];
      assert multiset(t) == multiset(s) - multiset{s[i]} + multiset{s[j]};
      assert t[j] == s[j];
      assert multiset(t[j := s[i]]) == multiset(t) - multiset{s[j]} + multiset{s[i]};
    }
  }

  /** Nor does changing the case of an entry. */
  lemma BlacklistIgnoresCase(a: seq<string>, i: nat)
    requires i < |a|
    ensures BlacklistEqual(a, a[i := Lower(a[i])])
  {
    NormalizeIgnoresCase(a[i]);
    assert NormalizeAll(a[i := Lower(a[i])]) == NormalizeAll(a);
  }

  /** `isSecurityConfigEqual`. */
  predicate SecurityEqual(a: Option<SecurityConfig>, b: Option<SecurityConfig>) {
    if a.None? && b.None? then true
    else if a.None? || b.None? then false
    else a.value.secret == b.value.secret
  }

  /** The security comparison is plain equality. */
  lemma SecurityEqualMeaning(a: Option<SecurityConfig>, b: Option<SecurityConfig>)
    ensures SecurityEqual(a, b) <==> a == b
  {
  }

  /** `isProducerConfigEqual`. */
  predicate ProducerConfigEqual(a: Option<ProducerConfig>, b: Option<ProducerConfig>) {
    if a.None? && b.None? then true
    else if a.None? || b.None? then false
    else
      var o, n := a.value, b.value;
      && BlacklistEqual(o.blacklistIPs, n.blacklistIPs) && o.port == n.port
      && o.ignoreExceptions == n.ignoreExceptions && o.timeOut == n.timeOut
      && RetryConfigEqual(o.retry, n.retry) && SecurityEqual(o.security, n.security)
  }

  /** `isConsumerConfigEqual`. */
  predicate ConsumerConfigEqual(a: Option<ConsumerConfig>, b: Option<ConsumerConfig>) {
    if a.None? && b.None? then true
    else if a.None? || b.None? then false
    else
      var o, n := a.value, b.value;
      && BlacklistEqual(o.blacklistIPs, n.blacklistIPs) && o.port == n.port
      && RetryConfigEqual(o.retry, n.retry) && SecurityEqual(o.security, n.security)
  }

  /** `WebhookProducerConfigComparator`. */
  predicate ProducerComparator(oldDriver: Typed<ProducerConfig>, newDriver: Typed<ProducerConfig>) {
    if oldDriver.Mismatch? || newDriver.Mismatch? then false
    else ProducerConfigEqual(oldDriver.config, newDriver.config)
  }

  /** `WebhookConsumerConfigComparator`. */
  predicate ConsumerComparator(oldDriver: Typed<ConsumerConfig>, newDriver: Typed<ConsumerConfig>) {
    if oldDriver.Mismatch? || newDriver.Mismatch? then false
    else ConsumerConfigEqual(oldDriver.config, newDriver.config)
  }

  /** Drivers of another kind never compare equal; two nil configs do; exactly one nil does not. */
  lemma ComparatorNilAndMismatch(c: Option<ConsumerConfig>, p: Option<ProducerConfig>)
    ensures !ConsumerComparator(Mismatch, Same(c)) && !ConsumerComparator(Same(c), Mismatch)
    ensures !ProducerComparator(Mismatch, Same(p)) && !ProducerComparator(Same(p), Mismatch)
    ensures ConsumerComparator(Same(None), Same(None)) && ProducerComparator(Same(None), Same(None))
    ensures c.Some? ==> !ConsumerComparator(Same(None), Same(c)) && !ConsumerComparator(Same(c), Same(None))
    ensures p.Some? ==> !ProducerComparator(Same(None), Same(p)) && !ProducerComparator(Same(p), Same(None))
  {
  }

  /** Every config equals itself, and the comparison is symmetric. */
  lemma ProducerConfigEqualReflexiveSymmetric(a: Option<ProducerConfig>, b: Option<ProducerConfig>)
    ensures ProducerConfigEqual(a, a)
    ensures ProducerConfigEqual(a, b) == ProducerConfigEqual(b, a)
  {
  }

  /** The port is compared as written: an unset port and the default it stands for differ,
      although both configs listen on the same port. */
  lemma PortComparedAsWritten(c: ProducerConfig)
    requires c.port == ""
    ensures GetPort(c.port) == GetPort(DefaultWebhookPort)
    ensures !ProducerConfigEqual(Some(c), Some(c.(port := DefaultWebhookPort)))
  {
  }

  /** Two consumer configs are equal exactly when they agree on every field, up to the
      normalisation of the blacklist. */
  lemma ConsumerConfigEqualMeaning(a: ConsumerConfig, b: ConsumerConfig)
    ensures ConsumerConfigEqual(Some(a), Some(b)) <==>
      (BlacklistEqual(a.blacklistIPs, b.blacklistIPs) && a.(blacklistIPs := b.blacklistIPs) == b)
  {
    RetryConfigEqualMeaning(a.retry, b.retry);
    SecurityEqualMeaning(a.security, b.security);
  }
}
