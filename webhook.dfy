/** Webhook driver settings: the callback URL, the IP blacklist, the default getters and the
    validation of producer and consumer configs. `net.ParseIP` and `time.ParseDuration` are
    parameters; `fmt.Sscanf(port, "%d", &n)` is modelled exactly as it reads a number. */
module Webhook {
  import opened Wrappers
  import opened StrUtil
  import opened Val
  import opened DriverDefine

  /** `net.ParseIP(s) != nil`, left uninterpreted. */
  type IPChecker = string -> bool

  const WebhookReceivePoint: string := "/switch/webhook"
  const DefaultProto: string := "http://"
  const DefaultWebhookPort: string := "20002"

  /** `WebhookSecurityConfig`. */
  datatype SecurityConfig = SecurityConfig(secret: string)

  /** `WebhookProducerConfig`; a nil blacklist and an empty one are the same here. */
  datatype ProducerConfig = ProducerConfig(blacklistIPs: seq<string>, port: string, ignoreExceptions: bool,
                                           timeOut: string, retry: Option<RetryConfig>, security: Option<SecurityConfig>)

  /** `WebhookConsumerConfig`. */
  datatype ConsumerConfig = ConsumerConfig(blacklistIPs: seq<string>, port: string, retry: Option<RetryConfig>,
                                           security: Option<SecurityConfig>)

  /** `BuildWebhookUrl`. */
  function BuildWebhookUrl(ip: string, port: string): string {
    DefaultProto + ip + ":" + port + WebhookReceivePoint
  }

  /** The callback URL determines the client's IP and port, as long as the IP holds no colon
      (an IPv4 address or a host name). */
  lemma BuildWebhookUrlInjective(ip1: string, port1: string, ip2: string, port2: string)
    requires ':' !in ip1 && ':' !in ip2
    requires BuildWebhookUrl(ip1, port1) == BuildWebhookUrl(ip2, port2)
    ensures ip1 == ip2 && port1 == port2
  {
    var u := BuildWebhookUrl(ip1, port1);
    var m1 := ip1 + ":" + port1;
    var m2 := ip2 + ":" + port2;
    assert u == DefaultProto + m1 + WebhookReceivePoint;
    assert u == DefaultProto + m2 + WebhookReceivePoint;
    assert m1 == u[7..|u| - 15];
    assert m2 == u[7..|u| - 15];
    FirstColonSplit(ip1, port1);
    FirstColonSplit(ip2, port2);
  }

  /** In `ip + ":" + port` with a colon-free `ip`, the first colon sits right after `ip`. */
  lemma FirstColonSplit(ip: string, port: string)
    requires ':' !in ip
    ensures var m := ip + ":" + port; ':' in m && IndexOf(m, ':') == |ip| && m[..|ip|] == ip && m[|ip| + 1..] == port
  {
    var m := ip + ":" + port;
    assert m[|ip|] == ':';
    assert m[..|ip|] == ip;
    assert ':' !in m[..|ip|];
    assert m[|ip| + 1..] == port;
  }

  /** `HasBlacklistIPs`. */
  predicate HasBlacklistIPs(blacklistIPs: seq<string>) {
    |blacklistIPs| > 0
  }

  /** `IsIPBlacklisted`: the loop over the blacklist, an exact text comparison. */
  function IsIPBlacklisted(ip: string, blacklistIPs: seq<string>): (r: bool)
    ensures r <==> ip in blacklistIPs
  {
    if blacklistIPs == [] then false
    else blacklistIPs[0] == ip || IsIPBlacklisted(ip, blacklistIPs[1..])
  }

  /** `getPort` of both configs. */
  function GetPort(port: string): (r: string)
    ensures r != ""
    ensures port != "" ==> r == port
    ensures port == "" ==> r == DefaultWebhookPort
  {
    if port == "" then DefaultWebhookPort else port
  }

  /** `getTimeOut`: the parsed timeout, or ten seconds. */
  function ProducerTimeOut(w: ProducerConfig, parse: DurationParser): (r: int)
    ensures parse(w.timeOut).None? ==> r == 10 * Second
    ensures parse(w.timeOut).Some? ==> r == parse(w.timeOut).value
  {
    if parse(w.timeOut).Some? then parse(w.timeOut).value else 10 * Second
  }

  /** `getRetry`: five retries three seconds apart when none is configured. */
  function GetRetry(retry: Option<RetryConfig>): (r: RetryConfig)
    ensures retry.Some? ==> r == retry.value
    ensures retry.None? ==> r == RetryConfig(5, "3s")
  {
    if retry.None? then RetryConfig(5, "3s") else retry.value
  }

  /** `getWorkMaxRetries` / `getMaxRetries`: a zero count means 5. */
  function MaxRetries(retry: Option<RetryConfig>): (r: int)
    ensures r != 0
    ensures retry.None? ==> r == 5
    ensures retry.Some? && retry.value.count == 0 ==> r == 5
    ensures retry.Some? && retry.value.count != 0 ==> r == retry.value.count
  {
    if GetRetry(retry).count != 0 then GetRetry(retry).count else 5
  }

  /** `getWorkBackoffDuration` / `getBackoffDuration`: the parsed backoff, or three seconds. */
  function BackoffDuration(retry: Option<RetryConfig>, parse: DurationParser): (r: int)
    ensures var b := GetRetry(retry).backoff; b != "" && parse(b).Some? ==> r == parse(b).value
    ensures var b := GetRetry(retry).backoff; (b == "" || parse(b).None?) ==> r == 3 * Second
  {
    var b := GetRetry(retry).backoff;
    if b != "" && parse(b).Some? then parse(b).value else 3 * Second
  }

  /** The blanks `fmt`'s scanner skips before a number; a newline stops it instead. */
  predicate IsScanBlank(c: char) {
    IsGoSpace(c) && c != '\n'
  }

  /** The longest prefix of decimal digits. */
  function LeadingDigits(s: string): (r: string)
    ensures AllDigits(r) && |r| <= |s| && r == s[..|r|]
    ensures |r| < |s| ==> !IsDigit(s[|r|])
  {
    if s != [] && IsDigit(s[0]) then [s[0]] + LeadingDigits(s[1..]) else []
  }

  /** Trimming stops at once when the first character is kept. */
  lemma TrimLeftKeeps(s: string, p: char -> bool)
    requires s != [] && !p(s[0])
    ensures TrimLeft(s, p) == s
  {
  }

  /** `fmt.Sscanf(s, "%d", &n)`: skip blanks, accept one optional sign, read the digits that
      follow and parse them as an int64. Whatever follows the digits is not looked at. */
  function SscanfInt(s: string): (r: Option<int>)
    ensures r.Some? ==> MinInt64 <= r.value <= MaxInt64
  {
    var t := TrimLeft(s, IsScanBlank);
    var signLen := if t != [] && (t[0] == '+' || t[0] == '-') then 1 else 0;
    ParseInt64(t[..signLen] + LeadingDigits(t[signLen..]))
  }

  /** On a plain digit string the scan reads the whole text, as `strconv.ParseInt` would. */
  lemma SscanfDigits(s: string)
    requires s != [] && AllDigits(s)
    ensures SscanfInt(s) == ParseInt64(s)
    ensures ParseInt64(s) == if DigitsValue(s) <= MaxInt64 then Some(DigitsValue(s)) else None
  {
    assert IsDigit(s[0]);
    TrimLeftKeeps(s, IsScanBlank);
    DigitsPrefix(s);
    ScanToken(s);
    ParseDigits(s);
  }

  /** With no blank and no sign in front, the token read is the digit prefix. */
  lemma ScanToken(s: string)
    requires s != [] && IsDigit(s[0]) && TrimLeft(s, IsScanBlank) == s
    ensures SscanfInt(s) == ParseInt64(LeadingDigits(s))
  {
    assert s[..0] == [] && s[0..] == s;
    assert s[..0] + LeadingDigits(s[0..]) == LeadingDigits(s);
  }

  lemma {:induction false} DigitsPrefix(s: string)
    requires AllDigits(s)
    ensures LeadingDigits(s) == s
  {
    if s != [] {
      DigitsPrefix(s[1..]);
      assert s == [s[0]] + s[1..];
    }
  }

  /** `validateWebhookPort` as written: the number is read with `Sscanf`, so text after a
      numeric prefix is ignored. */
  function ValidateWebhookPortAsWritten(port: string): (r: Outcome)
    ensures r.Pass? <==> port != "" && SscanfInt(port).Some? && 1 <= SscanfInt(port).value <= 65535
  {
    if port == "" then Fail("port cannot be empty")
    else if SscanfInt(port).None? then Fail("port must be a valid number: " + port)
    else if SscanfInt(port).value < 1 || SscanfInt(port).value > 65535 then
      Fail("port must be between 1 and 65535, got: " + IntToString(SscanfInt(port).value))
    else Pass
  }

  /** The as-written check accepts a port with trailing garbage: "80abc" reads as 80. */
  lemma WebhookPortAcceptsTrailingText()
    ensures SscanfInt("80abc") == Some(80)
    ensures ValidateWebhookPortAsWritten("80abc").Pass?
  {
    var s := "80abc";
    assert !IsScanBlank(s[0]);
    assert TrimLeft(s, IsScanBlank) == s;
    assert s[..0] == [];
    var d := LeadingDigits(s);
    assert d == "80" by {
      assert LeadingDigits(s[2..]) == [];
      assert LeadingDigits(s[1..]) == [s[1]] + LeadingDigits(s[2..]);
    }
    assert DigitsValue("80") == 80 by {
      assert "80"[..1] == "8";
      assert "8"[..0] == "";
    }
    assert "" + "80" == "80";
  }

  /** `validateWebhookPort` as evidently intended: the whole text is a decimal number in 1..65535. */
  function ValidateWebhookPort(port: string): (r: Outcome)
    ensures r.Pass? <==> port != "" && AllDigits(port) && 1 <= DigitsValue(port) <= 65535
  {
    if port == "" then Fail("port cannot be empty")
    else if !AllDigits(port) then Fail("port must be a valid number: " + port)
    else if DigitsValue(port) < 1 || DigitsValue(port) > 65535 then
      Fail("port must be between 1 and 65535, got: " + NatToString(DigitsValue(port)))
    else Pass
  }

  /** The corrected check rejects "80abc". */
  lemma WebhookPortRejectsTrailingText()
    ensures !ValidateWebhookPort("80abc").Pass?
  {
    assert !IsDigit("80abc"[2]);
  }

  /** Every port text the corrected check accepts, the original accepts too. */
  lemma WebhookPortCorrectedStricter(port: string)
    ensures ValidateWebhookPort(port).Pass? ==> ValidateWebhookPortAsWritten(port).Pass?
  {
    if ValidateWebhookPort(port).Pass? {
      SscanfDigits(port);
    }
  }

  /** On plain digit strings the corrected and the original check agree. */
  lemma WebhookPortAgreesOnDigits(port: string)
    requires port != [] && AllDigits(port)
    ensures ValidateWebhookPort(port).Pass? <==> ValidateWebhookPortAsWritten(port).Pass?
  {
    SscanfDigits(port);
  }

  /** The default port passes validation. */
  lemma DefaultPortValid()
    ensures ValidateWebhookPort(GetPort("")).Pass?
  {
    var p := DefaultWebhookPort;
    assert AllDigits(p);
    assert DigitsValue("2") == 2 by { assert "2"[..0] == ""; }
    assert DigitsValue("20") == 20 by { assert "20"[..1] == "2"; }
    assert DigitsValue("200") == 200 by { assert "200"[..2] == "20"; }
    assert DigitsValue("2000") == 2000 by { assert "2000"[..3] == "200"; }
    assert DigitsValue(p) == 20002 by { assert p[..4] == "2000"; }
  }

  /** The retry checks shared by both `isValidBase`: a count not below 0 and a parsable backoff. */
  function ValidateRetry(retry: Option<RetryConfig>, parse: DurationParser): (r: Outcome)
    ensures r.Pass? <==> retry.None? || (retry.value.count >= 0 && (retry.value.backoff == "" || parse(retry.value.backoff).Some?))
  {
    if retry.None? then Pass
    else if retry.value.count < 0 then Fail("retry count cannot be negative")
    else if retry.value.backoff != "" && parse(retry.value.backoff).None? then
      Fail("invalid retry backoff format '" + retry.value.backoff + "'")
    else Pass
  }

  /** `WebhookProducerConfig.isValidBase`: the (defaulted) port, the timeout and the retry. */
  function ProducerValidateBase(w: ProducerConfig, parse: DurationParser): (r: Outcome)
    ensures r.Pass? <==> (ValidateWebhookPort(GetPort(w.port)).Pass? && (w.timeOut == "" || parse(w.timeOut).Some?)
      && ValidateRetry(w.retry, parse).Pass?)
  {
    var p := ValidateWebhookPort(GetPort(w.port));
    if p.Fail? then Fail("invalid port: " + p.msg)
    else if w.timeOut != "" && parse(w.timeOut).None? then Fail("invalid timeout format '" + w.timeOut + "'")
    else ValidateRetry(w.retry, parse)
  }

  /** `WebhookConsumerConfig.isValidBase`: the port must be given, valid, and the retry valid. */
  function ConsumerValidateBase(w: ConsumerConfig, parse: DurationParser): (r: Outcome)
    ensures w.port == "" ==> r == Fail("port must be configured")
    ensures r.Pass? <==> w.port != "" && ValidateWebhookPort(w.port).Pass? && ValidateRetry(w.retry, parse).Pass?
  {
    if w.port == "" then Fail("port must be configured")
    else
      var p := ValidateWebhookPort(w.port);
      if p.Fail? then Fail("invalid port: " + p.msg)
      else ValidateRetry(w.retry, parse)
  }

  /** One acceptable blacklist entry: not blank, and an IP address. */
  predicate BlacklistEntryOk(ip: string, isIP: IPChecker) {
    TrimSpace(ip) != "" && isIP(ip)
  }

  function AtIndex(i: nat, what: string): string {
    "blacklist IP at index " + NatToString(i) + what
  }

  /** The loop of `isValidBlacklistIPs` from index `i`: blank entries, then non-IP entries. */
  function CheckBlacklist(ips: seq<string>, i: nat, isIP: IPChecker): Outcome
    decreases |ips| - i
  {
    if i >= |ips| then Pass
    else if TrimSpace(ips[i]) == "" then Fail(AtIndex(i, " is empty"))
    else if !isIP(ips[i]) then Fail(AtIndex(i, " must be a valid IP address: " + ips[i]))
    else CheckBlacklist(ips, i + 1, isIP)
  }

  /** `isValidBlacklistIPs`: every entry must be a non-blank IP address, and an empty
      blacklist is fine. */
  function ValidateBlacklistIPs(ips: seq<string>, isIP: IPChecker): (r: Outcome)
    ensures r.Pass? <==> forall j :: 0 <= j < |ips| ==> BlacklistEntryOk(ips[j], isIP)
  {
    CheckBlacklistAll(ips, 0, isIP);
    if |ips| == 0 then Pass else CheckBlacklist(ips, 0, isIP)
  }

  /** The remaining entries pass exactly when each is non-blank and an IP address. */
  lemma {:induction false} CheckBlacklistAll(ips: seq<string>, i: nat, isIP: IPChecker)
    requires i <= |ips|
    ensures CheckBlacklist(ips, i, isIP).Pass? <==>
      forall j :: i <= j < |ips| ==> BlacklistEntryOk(ips[j], isIP)
    decreases |ips| - i
  {
    if i < |ips| {
      CheckBlacklistAll(ips, i + 1, isIP);
      if !BlacklistEntryOk(ips[i], isIP) {
        assert CheckBlacklist(ips, i, isIP).Fail?;
      }
    }
  }

  /** `isValidSecurity`: an empty secret is allowed, otherwise 8 to 256 characters. */
  function ValidateSecurity(security: Option<SecurityConfig>): (r: Outcome)
    ensures r.Pass? <==> security.None? || security.value.secret == "" || 8 <= |security.value.secret| <= 256
  {
    if security.None? || security.value.secret == "" then Pass
    else if |security.value.secret| < 8 then Fail("webhook secret must be at least 8 characters long")
    else if |security.value.secret| > 256 then Fail("webhook secret cannot exceed 256 characters")
    else Pass
  }

  /** `WebhookProducerConfig.isValid`. */
  function ProducerIsValid(w: Option<ProducerConfig>, parse: DurationParser, isIP: IPChecker): (r: Outcome)
    ensures r.Pass? <==> (w.Some? && ProducerValidateBase(w.value, parse).Pass?
      && ValidateBlacklistIPs(w.value.blacklistIPs, isIP).Pass? && ValidateSecurity(w.value.security).Pass?)
  {
    if w.None? then Fail("webhook config cannot be nil")
    else if ProducerValidateBase(w.value, parse).Fail? then
      Fail("webhook producer config validation failed: " + ProducerValidateBase(w.value, parse).msg)
    else if ValidateBlacklistIPs(w.value.blacklistIPs, isIP).Fail? then
      Fail("webhook producer config validation failed: " + ValidateBlacklistIPs(w.value.blacklistIPs, isIP).msg)
    else if ValidateSecurity(w.value.security).Fail? then
      Fail("webhook producer config validation failed: " + ValidateSecurity(w.value.security).msg)
    else Pass
  }

  /** `WebhookConsumerConfig.isValid`. */
  function ConsumerIsValid(w: Option<ConsumerConfig>, parse: DurationParser, isIP: IPChecker): (r: Outcome)
    ensures r.Pass? <==> (w.Some? && ConsumerValidateBase(w.value, parse).Pass?
      && ValidateBlacklistIPs(w.value.blacklistIPs, isIP).Pass? && ValidateSecurity(w.value.security).Pass?)
  {
    if w.None? then Fail("webhook consumer config cannot be nil")
    else if ConsumerValidateBase(w.value, parse).Fail? then
      Fail("webhook consumer config validation failed: " + ConsumerValidateBase(w.value, parse).msg)
    else if ValidateBlacklistIPs(w.value.blacklistIPs, isIP).Fail? then
      Fail("webhook consumer config validation failed: " + ValidateBlacklistIPs(w.value.blacklistIPs, isIP).msg)
    else if ValidateSecurity(w.value.security).Fail? then
      Fail("webhook consumer config validation failed: " + ValidateSecurity(w.value.security).msg)
    else Pass
  }

  /** A producer with no port, timeout, retry, blacklist or security is valid: the defaults
      pass their own checks. */
  lemma EmptyProducerValid(parse: DurationParser, isIP: IPChecker)
    ensures ProducerIsValid(Some(ProducerConfig([], "", false, "", None, None)), parse, isIP).Pass?
  {
    DefaultPortValid();
  }
}
