/** Polling driver settings: the consumer's URL, intervals, headers and token, the producer's
    port, long-poll and server timeouts and accepted tokens, their default getters and their
    validation. `url.Parse`, `net.ParseIP` and `time.ParseDuration` are parameters; the
    host/port split of a parsed URL is computed as `net/url` does it. */
module Polling {
  import opened Wrappers
  import opened StrUtil
  import opened Val
  import opened DriverDefine
  import Webhook

  const DefaultPollingPath: string := "/switch/polling"
  const DefaultPollingPort: string := "10002"
  const DefaultUserAgent: string := "Switch-SDK-Polling/1.0"

  /** The parts of a parsed URL the checks look at: scheme, authority (`Host`, port included)
      and path. */
  datatype ParsedUrl = ParsedUrl(scheme: string, host: string, path: string)

  /** `url.Parse`, left uninterpreted: none when the text does not parse. */
  type UrlParser = string -> Option<ParsedUrl>

  /** `PollingClientSecurityConfig`. */
  datatype ClientSecurityConfig = ClientSecurityConfig(token: string, insecureSkipVerify: bool)

  /** `PollingConsumerConfig`; a nil header map is `None`. */
  datatype ConsumerConfig = ConsumerConfig(url: string, pollInterval: string, requestTimeout: string,
                                           headers: Option<map<string, string>>, userAgent: string,
                                           security: Option<ClientSecurityConfig>, ignoreExceptions: bool,
                                           retry: Option<RetryConfig>)

  /** `PollingServerSecurityConfig`. */
  datatype ServerSecurityConfig = ServerSecurityConfig(validTokens: seq<string>, certFile: string, keyFile: string)

  /** `PollingProducerConfig`. */
  datatype ProducerConfig = ProducerConfig(port: string, longPollTimeout: string, serverReadTimeout: string,
                                           serverWriteTimeout: string, serverIdleTimeout: string,
                                           security: Option<ServerSecurityConfig>, retry: Option<RetryConfig>)

  // ----- host and port of a parsed URL (`URL.Hostname`, `URL.Port`) -----

  /** The position of the last colon, or -1. */
  function LastColon(s: string): (r: int)
    ensures -1 <= r < |s|
    ensures r >= 0 ==> s[r] == ':'
    ensures forall k :: r < k < |s| ==> s[k] != ':'
  {
    if s == [] then -1
    else if s[|s| - 1] == ':' then |s| - 1
    else LastColon(s[..|s| - 1])
  }

  /** `splitHostPort` of `net/url`: a last colon followed only by digits separates the port;
      square brackets around what is left are removed. */
  function SplitUrlHost(hostPort: string): (r: (string, string))
    ensures r.1 == "" || AllDigits(r.1)
  {
    var colon := LastColon(hostPort);
    var split := colon >= 0 && AllDigits(hostPort[colon + 1..]);
    var host := if split then hostPort[..colon] else hostPort;
    var port := if split then hostPort[colon + 1..] else "";
    // A host of one character cannot both start with '[' and end with ']'.
    var bare := if |host| >= 2 && HasPrefix(host, "[") && HasSuffix(host, "]") then host[1..|host| - 1] else host;
    (bare, port)
  }

  /** `URL.Hostname`. */
  function Hostname(u: ParsedUrl): string {
    SplitUrlHost(u.host).0
  }

  /** `URL.Port`. */
  function Port(u: ParsedUrl): (r: string)
    ensures r == "" || AllDigits(r)
  {
    SplitUrlHost(u.host).1
  }

  /** A plain host name followed by a numeric port splits back into the two. */
  lemma SplitHostAndPort(host: string, port: string)
    requires ':' !in host && host != [] && host[0] != '['
    requires AllDigits(port)
    ensures SplitUrlHost(host + ":" + port) == (host, port)
  {
    var s := host + ":" + port;
    assert s[|host|] == ':';
    assert s[|host| + 1..] == port;
    assert forall k :: |host| < k < |s| ==> s[k] == port[k - |host| - 1];
    LastColonAt(s, |host|);
    assert s[..|host|] == host;
  }

  /** A colon with none after it is the last colon. */
  lemma LastColonAt(s: string, i: nat)
    requires i < |s| && s[i] == ':' && forall k :: i < k < |s| ==> s[k] != ':'
    ensures LastColon(s) == i
  {
  }

  /** A host without any colon has no port. */
  lemma NoColonNoPort(u: ParsedUrl)
    requires ':' !in u.host
    ensures Port(u) == ""
  {
  }

  // ----- port, token, host and URL checks -----

  /** `validatePort` as written: the number is read with `Sscanf`. */
  function ValidatePortAsWritten(port: string): (r: Outcome)
    ensures r.Pass? <==> port != "" && Webhook.SscanfInt(port).Some? && 1 <= Webhook.SscanfInt(port).value <= 65535
  {
    if port == "" then Fail("port cannot be empty")
    else if Webhook.SscanfInt(port).None? then Fail("port must be a valid number: " + port)
    else if Webhook.SscanfInt(port).value < 1 || Webhook.SscanfInt(port).value > 65535 then
      Fail("port must be between 1 and 65535, got: " + IntToString(Webhook.SscanfInt(port).value))
    else Pass
  }

  /** The as-written check accepts "80abc" as port 80. */
  lemma PollingPortAcceptsTrailingText()
    ensures ValidatePortAsWritten("80abc").Pass?
  {
    Webhook.WebhookPortAcceptsTrailingText();
  }

  /** `validatePort` as evidently intended: a decimal number in 1..65535, nothing else. */
  function ValidatePort(port: string): (r: Outcome)
    ensures r.Pass? <==> port != "" && AllDigits(port) && 1 <= DigitsValue(port) <= 65535
  {
    if port == "" then Fail("port cannot be empty")
    else if !AllDigits(port) then Fail("port must be a valid number: " + port)
    else if DigitsValue(port) < 1 || DigitsValue(port) > 65535 then
      Fail("port must be between 1 and 65535, got: " + NatToString(DigitsValue(port)))
    else Pass
  }

  /** The corrected check rejects "80abc" and accepts only ports the original accepts; on the
      port of a parsed URL, which is empty or all digits, the two agree. */
  lemma PortCheckCorrected(u: ParsedUrl, port: string)
    ensures !ValidatePort("80abc").Pass?
    ensures ValidatePort(port).Pass? ==> ValidatePortAsWritten(port).Pass?
    ensures ValidatePort(Port(u)).Pass? <==> ValidatePortAsWritten(Port(u)).Pass?
  {
    assert !IsDigit("80abc"[2]);
    if port != [] && AllDigits(port) {
      Webhook.SscanfDigits(port);
    }
    if Port(u) != [] {
      Webhook.SscanfDigits(Port(u));
    }
  }

  /** `validateToken`: not blank, 8 to 512 characters, no space, tab, newline or carriage return. */
  function ValidateToken(token: string): (r: Outcome)
    ensures r.Pass? <==> TrimSpace(token) != "" && 8 <= |token| <= 512 && !ContainsAny(token, " \t\n\r")
  {
    if TrimSpace(token) == "" then Fail("token cannot be empty or whitespace only")
    else if |token| < 8 then Fail("token must be at least 8 characters long")
    else if |token| > 512 then Fail("token cannot exceed 512 characters")
    else if ContainsAny(token, " \t\n\r") then Fail("token cannot contain whitespace characters")
    else Pass
  }

  /** `validateDomainOrIP`: an IP address passes at once; a name must not hold "//", start or
      end with a dot, or exceed 253 characters. */
  function ValidateDomainOrIP(host: string, isIP: Webhook.IPChecker): (r: Outcome)
    ensures r.Pass? <==> (host != "" && (isIP(host) || (!Contains(host, "//") && !HasPrefix(host, ".")
      && !HasSuffix(host, ".") && |host| <= 253)))
  {
    if host == "" then Fail("host cannot be empty")
    else if isIP(host) then Pass
    else if Contains(host, "//") || HasPrefix(host, ".") || HasSuffix(host, ".") then Fail("invalid domain format")
    else if |host| > 253 then Fail("domain name too long")
    else Pass
  }

  /** The URL checks up to the host, shared by `validateSingleURL` and `getValidURL`:
      an http or https scheme, a host, no path beyond "/", and a non-empty host name. */
  function CheckUrlShape(rawUrl: string, parse: UrlParser): (r: Result<ParsedUrl>)
    ensures r.Ok? <==> (TrimSpace(rawUrl) != "" && parse(TrimSpace(rawUrl)).Some?
      && UrlShapeOk(parse(TrimSpace(rawUrl)).value))
    ensures r.Ok? ==> r.value == parse(TrimSpace(rawUrl)).value
  {
    var raw := TrimSpace(rawUrl);
    if raw == "" then Err("URL is empty")
    else if parse(raw).None? then Err("invalid URL format")
    else
      var u := parse(raw).value;
      if u.scheme != "http" && u.scheme != "https" then
        Err("unsupported protocol: " + u.scheme + ", only http and https are supported")
      else if u.host == "" then Err("host cannot be empty")
      else if u.path != "" && u.path != "/" then Err("path is not supported, use host only")
      else if Hostname(u) == "" then Err("invalid host")
      else Ok(u)
  }

  predicate UrlShapeOk(u: ParsedUrl) {
    (u.scheme == "http" || u.scheme == "https") && u.host != "" && (u.path == "" || u.path == "/")
    && Hostname(u) != ""
  }

  /** `validateSingleURL`: the shape, then the explicit port, then the host name. */
  function ValidateSingleUrl(rawUrl: string, parse: UrlParser, isIP: Webhook.IPChecker): (r: Outcome)
    ensures r.Pass? <==> (CheckUrlShape(rawUrl, parse).Ok?
      && ValidatePort(Port(CheckUrlShape(rawUrl, parse).value)).Pass?
      && ValidateDomainOrIP(Hostname(CheckUrlShape(rawUrl, parse).value), isIP).Pass?)
  {
    var shape := CheckUrlShape(rawUrl, parse);
    if shape.Err? then Fail(shape.msg)
    else
      var u := shape.value;
      var p := ValidatePort(Port(u));
      if p.Fail? then Fail("invalid port: " + p.msg)
      else
        var d := ValidateDomainOrIP(Hostname(u), isIP);
        if d.Fail? then Fail("invalid host/IP: " + Hostname(u) + ", error: " + d.msg)
        else Pass
  }

  /** A URL must name its port: one without a port never passes. */
  lemma UrlWithoutPortRejected(rawUrl: string, parse: UrlParser, isIP: Webhook.IPChecker)
    requires CheckUrlShape(rawUrl, parse).Ok? && ':' !in CheckUrlShape(rawUrl, parse).value.host
    ensures ValidateSingleUrl(rawUrl, parse, isIP).Fail?
  {
    NoColonNoPort(CheckUrlShape(rawUrl, parse).value);
  }

  /** `getValidURL`: the trimmed URL when its shape and host name pass (the port is not
      looked at here). */
  function GetValidUrl(rawUrl: string, parse: UrlParser, isIP: Webhook.IPChecker): (r: Result<string>)
    ensures r.Ok? ==> r.value == TrimSpace(rawUrl)
    ensures r.Ok? <==> (CheckUrlShape(rawUrl, parse).Ok?
      && ValidateDomainOrIP(Hostname(CheckUrlShape(rawUrl, parse).value), isIP).Pass?)
  {
    var shape := CheckUrlShape(rawUrl, parse);
    if shape.Err? then Err(shape.msg)
    else
      var d := ValidateDomainOrIP(Hostname(shape.value), isIP);
      if d.Fail? then Err("invalid host: " + d.msg) else Ok(TrimSpace(rawUrl))
  }

  /** A URL that passes validation is the one the consumer polls, trimmed. */
  lemma ValidUrlIsUsable(rawUrl: string, parse: UrlParser, isIP: Webhook.IPChecker)
    requires ValidateSingleUrl(rawUrl, parse, isIP).Pass?
    ensures GetValidUrl(rawUrl, parse, isIP) == Ok(TrimSpace(rawUrl))
  {
  }

  // ----- consumer -----

  /** `hasURL`. */
  predicate HasUrl(c: ConsumerConfig) {
    TrimSpace(c.url) != ""
  }

  /** `getPollInterval` and `getRequestTimeout`: the parsed value, or thirty seconds. */
  function DurationOr30s(text: string, parse: DurationParser): (r: int)
    ensures parse(text).Some? ==> r == parse(text).value
    ensures parse(text).None? ==> r == 30 * Second
  {
    if parse(text).Some? then parse(text).value else 30 * Second
  }

  /** `getHeader`: a nil map reads as an empty one. */
  function GetHeader(c: ConsumerConfig): (r: map<string, string>)
    ensures c.headers.None? ==> r == map[]
    ensures c.headers.Some? ==> r == c.headers.value
  {
    if c.headers.None? then map[] else c.headers.value
  }

  /** `getUserAgent`. */
  function GetUserAgent(c: ConsumerConfig): (r: string)
    ensures r != ""
    ensures c.userAgent != "" ==> r == c.userAgent
  {
    if c.userAgent == "" then DefaultUserAgent else c.userAgent
  }

  /** The consumer's `getRetry`, `getWorkMaxRetries` and `getWorkBackoffDuration` are the
      webhook getters: five retries three seconds apart unless configured, and a zero count
      still means five. */
  lemma ConsumerRetryDefaults(c: ConsumerConfig, parse: DurationParser)
    requires parse("3s") == Some(3 * Second)
    ensures c.retry.None? ==> (Webhook.GetRetry(c.retry) == RetryConfig(5, "3s")
      && Webhook.MaxRetries(c.retry) == 5 && Webhook.BackoffDuration(c.retry, parse) == 3 * Second)
    ensures c.retry.Some? && c.retry.value.count == 0 ==> Webhook.MaxRetries(c.retry) == 5
    ensures c.retry.Some? && c.retry.value.count > 0 ==> Webhook.MaxRetries(c.retry) == c.retry.value.count
  {
  }

  /** The consumer's `validateBase`: a URL is configured and the retry is sane. */
  function ConsumerValidateBase(c: ConsumerConfig, parse: DurationParser): (r: Outcome)
    ensures r.Pass? <==> (HasUrl(c) && (c.retry.None? || (c.retry.value.count >= 0
      && (c.retry.value.backoff == "" || parse(c.retry.value.backoff).Some?))))
  {
    if !HasUrl(c) then Fail("polling must have URL configured")
    else if c.retry.Some? && c.retry.value.count < 0 then Fail("work retry count cannot be negative")
    else if c.retry.Some? && c.retry.value.backoff != "" && parse(c.retry.value.backoff).None? then
      Fail("invalid work retry backoff format '" + c.retry.value.backoff + "'")
    else Pass
  }

  /** The consumer's `validateSecurity`: a token, when given, must pass `validateToken`. */
  function ConsumerValidateSecurity(c: ConsumerConfig): (r: Outcome)
    ensures r.Pass? <==> c.security.None? || c.security.value.token == "" || ValidateToken(c.security.value.token).Pass?
  {
    if c.security.None? || c.security.value.token == "" then Pass
    else
      var t := ValidateToken(c.security.value.token);
      if t.Fail? then Fail("invalid client token: " + t.msg) else Pass
  }

  /** The consumer's `isValid`: base, URL, then security. */
  function ConsumerIsValid(c: Option<ConsumerConfig>, parse: DurationParser, urlParse: UrlParser,
                           isIP: Webhook.IPChecker): (r: Outcome)
    ensures r.Pass? <==> (c.Some? && ConsumerValidateBase(c.value, parse).Pass?
      && ValidateSingleUrl(c.value.url, urlParse, isIP).Pass? && ConsumerValidateSecurity(c.value).Pass?)
  {
    if c.None? then Fail("polling config cannot be nil")
    else if ConsumerValidateBase(c.value, parse).Fail? then
      Fail("polling config validation failed: " + ConsumerValidateBase(c.value, parse).msg)
    else if ValidateSingleUrl(c.value.url, urlParse, isIP).Fail? then
      Fail("polling config validation failed: " + ValidateSingleUrl(c.value.url, urlParse, isIP).msg)
    else if ConsumerValidateSecurity(c.value).Fail? then
      Fail("polling config validation failed: " + ConsumerValidateSecurity(c.value).msg)
    else Pass
  }

  /** A valid consumer config has a usable URL. */
  lemma ValidConsumerHasUrl(c: ConsumerConfig, parse: DurationParser, urlParse: UrlParser, isIP: Webhook.IPChecker)
    requires ConsumerIsValid(Some(c), parse, urlParse, isIP).Pass?
    ensures HasUrl(c)
    ensures GetValidUrl(c.url, urlParse, isIP) == Ok(TrimSpace(c.url))
  {
  }

  // ----- producer -----

  /** The producer's `getPort`. */
  function ProducerPort(p: ProducerConfig): (r: string)
    ensures r != ""
    ensures p.port != "" ==> r == p.port
    ensures p.port == "" ==> r == DefaultPollingPort
  {
    if p.port == "" then DefaultPollingPort else p.port
  }

  /** `getLongPollTimeout`: the parsed value, or sixty seconds. */
  function LongPollTimeout(p: ProducerConfig, parse: DurationParser): int {
    if parse(p.longPollTimeout).Some? then parse(p.longPollTimeout).value else 60 * Second
  }

  /** `getServerReadTimeout`: the parsed value, or thirty seconds more than the long poll. */
  function ServerReadTimeout(p: ProducerConfig, parse: DurationParser): int {
    if parse(p.serverReadTimeout).Some? then parse(p.serverReadTimeout).value
    else LongPollTimeout(p, parse) + 30 * Second
  }

  /** `getServerWriteTimeout`: the parsed value, or ten seconds more than the long poll. */
  function ServerWriteTimeout(p: ProducerConfig, parse: DurationParser): int {
    if parse(p.serverWriteTimeout).Some? then parse(p.serverWriteTimeout).value
    else LongPollTimeout(p, parse) + 10 * Second
  }

  /** `getServerIdleTimeout`: the parsed value, or two minutes. */
  function ServerIdleTimeout(p: ProducerConfig, parse: DurationParser): int {
    if parse(p.serverIdleTimeout).Some? then parse(p.serverIdleTimeout).value else 120 * Second
  }

  /** The default timeouts: a 60 s long poll, reads cut off 30 s and writes 10 s after it. */
  lemma ProducerTimeoutDefaults(p: ProducerConfig, parse: DurationParser)
    requires parse(p.longPollTimeout).None? && parse(p.serverReadTimeout).None?
    requires parse(p.serverWriteTimeout).None? && parse(p.serverIdleTimeout).None?
    ensures LongPollTimeout(p, parse) == 60 * Second
    ensures ServerReadTimeout(p, parse) == 90 * Second
    ensures ServerWriteTimeout(p, parse) == 70 * Second
    ensures ServerIdleTimeout(p, parse) == 120 * Second
    ensures ServerReadTimeout(p, parse) > LongPollTimeout(p, parse) && ServerWriteTimeout(p, parse) > LongPollTimeout(p, parse)
  {
  }

  /** The producer's `getBackoffDuration`: its `getRetry` has no default, so a missing retry
      means three seconds directly. */
  function ProducerBackoff(p: ProducerConfig, parse: DurationParser): (r: int)
    ensures p.retry.None? ==> r == 3 * Second
    ensures p.retry.Some? && p.retry.value.backoff != "" && parse(p.retry.value.backoff).Some? ==>
      r == parse(p.retry.value.backoff).value
  {
    if p.retry.Some? && p.retry.value.backoff != "" && parse(p.retry.value.backoff).Some? then
      parse(p.retry.value.backoff).value
    else 3 * Second
  }

  /** The producer's `getMaxRetries`: the configured count unless missing or zero, else 5. */
  function ProducerMaxRetries(p: ProducerConfig): (r: int)
    ensures r != 0
    ensures p.retry.Some? && p.retry.value.count != 0 ==> r == p.retry.value.count
    ensures p.retry.None? || p.retry.value.count == 0 ==> r == 5
  {
    if p.retry.Some? && p.retry.value.count != 0 then p.retry.value.count else 5
  }

  /** The error `time.ParseDuration` reports for text it cannot read. */
  function DurationError(text: string): string {
    "time: invalid duration \"" + text + "\""
  }

  /** Given text that must parse when set. */
  predicate ParsesIfSet(text: string, parse: DurationParser) {
    text == "" || parse(text).Some?
  }

  /** The producer's `validateBase`. An unparsable write timeout is not reported; it falls
      back to its default instead. */
  function ProducerValidateBase(p: ProducerConfig, parse: DurationParser): (r: Outcome)
    ensures r.Pass? <==> (ValidatePort(ProducerPort(p)).Pass?
      && ParsesIfSet(p.longPollTimeout, parse) && ParsesIfSet(p.serverReadTimeout, parse)
      && !(p.serverWriteTimeout != "" && parse(p.serverWriteTimeout).Some? && parse(p.serverWriteTimeout).value <= 0)
      && ParsesIfSet(p.serverIdleTimeout, parse)
      && ServerReadTimeout(p, parse) > LongPollTimeout(p, parse)
      && ServerWriteTimeout(p, parse) > LongPollTimeout(p, parse)
      && Webhook.ValidateRetry(p.retry, parse).Pass?)
  {
    var port := ValidatePort(ProducerPort(p));
    if port.Fail? then Fail("invalid port: " + port.msg)
    else if !ParsesIfSet(p.longPollTimeout, parse) then Fail(DurationError(p.longPollTimeout))
    else if !ParsesIfSet(p.serverReadTimeout, parse) then Fail(DurationError(p.serverReadTimeout))
    else if p.serverWriteTimeout != "" && parse(p.serverWriteTimeout).Some? && parse(p.serverWriteTimeout).value <= 0 then
      Fail("server write timeout must be positive")
    else if !ParsesIfSet(p.serverIdleTimeout, parse) then Fail(DurationError(p.serverIdleTimeout))
    else if ServerReadTimeout(p, parse) <= LongPollTimeout(p, parse) then
      Fail("server read timeout should be greater than long poll timeout")
    else if ServerWriteTimeout(p, parse) <= LongPollTimeout(p, parse) then
      Fail("server write timeout should be greater than long poll timeout")
    else Webhook.ValidateRetry(p.retry, parse)
  }

  /** The default port passes the port check. */
  lemma DefaultPollingPortValid()
    ensures ValidatePort(DefaultPollingPort).Pass?
  {
    var p := DefaultPollingPort;
    assert AllDigits(p);
    assert DigitsValue("1") == 1 by { assert "1"[..0] == ""; }
    assert DigitsValue("10") == 10 by { assert "10"[..1] == "1"; }
    assert DigitsValue("100") == 100 by { assert "100"[..2] == "10"; }
    assert DigitsValue("1000") == 1000 by { assert "1000"[..3] == "100"; }
    assert DigitsValue(p) == 10002 by { assert p[..4] == "1000"; }
  }

  /** A producer with every setting left empty is valid, as long as empty duration text does
      not parse (which is how `time.ParseDuration` treats it). */
  lemma EmptyProducerBaseValid(parse: DurationParser)
    requires parse("").None?
    ensures ProducerValidateBase(ProducerConfig("", "", "", "", "", None, None), parse).Pass?
  {
    DefaultPollingPortValid();
  }

  predicate TokenOk(token: string) {
    ValidateToken(token).Pass?
  }

  function TokenError(i: nat, token: string): string
    requires !TokenOk(token)
  {
    "invalid token at index " + NatToString(i) + ": " + ValidateToken(token).msg
  }

  /** The tokens loop of the producer's `validateSecurity`, from index `i`. */
  function CheckTokens(tokens: seq<string>, i: nat): Outcome
    decreases |tokens| - i
  {
    if i >= |tokens| then Pass
    else if !TokenOk(tokens[i]) then Fail(TokenError(i, tokens[i]))
    else CheckTokens(tokens, i + 1)
  }

  /** The loop passes exactly when every remaining token is well formed. */
  lemma CheckTokensAll(tokens: seq<string>, i: nat)
    requires i <= |tokens|
    ensures CheckTokens(tokens, i).Pass? <==> forall j :: i <= j < |tokens| ==> TokenOk(tokens[j])
  {
    CheckTokensSound(tokens, i);
    CheckTokensComplete(tokens, i);
  }

  lemma {:induction false} CheckTokensSound(tokens: seq<string>, i: nat)
    requires i <= |tokens|
    ensures CheckTokens(tokens, i).Pass? ==> forall j :: i <= j < |tokens| ==> TokenOk(tokens[j])
    decreases |tokens| - i
  {
    if i < |tokens| && CheckTokens(tokens, i).Pass? {
      assert TokenOk(tokens[i]);
      assert CheckTokens(tokens, i + 1).Pass?;
      CheckTokensSound(tokens, i + 1);
    }
  }

  lemma {:induction false} CheckTokensComplete(tokens: seq<string>, i: nat)
    requires i <= |tokens|
    ensures (forall j :: i <= j < |tokens| ==> TokenOk(tokens[j])) ==> CheckTokens(tokens, i).Pass?
    decreases |tokens| - i
  {
    if i < |tokens| {
      CheckTokensComplete(tokens, i + 1);
    }
  }

  /** `validateHTTPS`: a certificate file and a key file come together or not at all. */
  function ValidateHttps(p: ProducerConfig): (r: Outcome)
    ensures r.Pass? <==> p.security.None? || ((p.security.value.certFile == "") == (p.security.value.keyFile == ""))
  {
    if p.security.None? then Pass
    else if p.security.value.certFile != "" && p.security.value.keyFile == "" then
      Fail("key_file is required when cert_file is specified")
    else if p.security.value.keyFile != "" && p.security.value.certFile == "" then
      Fail("cert_file is required when key_file is specified")
    else Pass
  }

  /** The producer's `validateSecurity`: every accepted token, then the HTTPS files. */
  function ProducerValidateSecurity(p: ProducerConfig): Outcome {
    if p.security.None? then Pass
    else
      var t := if |p.security.value.validTokens| > 0 then CheckTokens(p.security.value.validTokens, 0) else Pass;
      if t.Fail? then t
      else if ValidateHttps(p).Fail? then Fail("HTTPS config validation failed: " + ValidateHttps(p).msg)
      else Pass
  }

  /** The producer's security passes exactly when every accepted token is well formed and the
      certificate and key files are set together. */
  lemma ProducerSecurityMeaning(p: ProducerConfig)
    ensures ProducerValidateSecurity(p).Pass? <==> (p.security.None? ||
      ((forall j :: 0 <= j < |p.security.value.validTokens| ==> TokenOk(p.security.value.validTokens[j]))
       && (p.security.value.certFile == "") == (p.security.value.keyFile == "")))
  {
    if p.security.Some? {
      CheckTokensAll(p.security.value.validTokens, 0);
    }
  }

  /** The producer's `isValid`: base, then security. */
  function ProducerIsValid(p: Option<ProducerConfig>, parse: DurationParser): (r: Outcome)
    ensures r.Pass? <==> p.Some? && ProducerValidateBase(p.value, parse).Pass? && ProducerValidateSecurity(p.value).Pass?
  {
    if p.None? then Fail("polling producer config cannot be nil")
    else if ProducerValidateBase(p.value, parse).Fail? then
      Fail("polling producer config validation failed: " + ProducerValidateBase(p.value, parse).msg)
    else if ProducerValidateSecurity(p.value).Fail? then
      Fail("polling producer config validation failed: " + ProducerValidateSecurity(p.value).msg)
    else Pass
  }

  /** A valid producer holds its clients' requests shorter than it lets a read or write of
      the server run. */
  lemma ValidProducerTimeoutsOrdered(p: ProducerConfig, parse: DurationParser)
    requires ProducerIsValid(Some(p), parse).Pass?
    ensures ServerReadTimeout(p, parse) > LongPollTimeout(p, parse)
    ensures ServerWriteTimeout(p, parse) > LongPollTimeout(p, parse)
    ensures ProducerPort(p) != "" && AllDigits(ProducerPort(p))
  {
  }
}
