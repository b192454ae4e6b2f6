/** The long-polling producer: the bearer-token check, the version a client asks for, the
    answer to a poll, the pending-connection map (registration, removal, dispatch, expiry),
    the running flag and the bounded message queue, and the failure counter of the listener.
    HTTP, JSON encoding, goroutines and contexts are not modelled; whether a connection's
    context is done, the clock and the encoder are inputs. */
module PollingProducerDriver {
  import opened Wrappers
  import opened StrUtil
  import opened ConfigCache
  import opened DriverDefine
  import Polling

  const BearerPrefix := "Bearer "
  /** The capacity of the message channel. */
  const QueueCapacity: nat := 1000
  const MaxUint64: nat := 0xFFFF_FFFF_FFFF_FFFF
  /** The grace period added to the long-poll timeout before a connection counts as stale. */
  const StaleGrace: int := 10 * Second

  /** The accepted tokens of a producer config; none when security or its list is unset. */
  function ValidTokens(c: Polling.ProducerConfig): seq<string> {
    if c.security.None? then [] else c.security.value.validTokens
  }

  /** `validateClientToken`, with `authHeader` the request's `Authorization` header ("" when
      absent). With no accepted tokens every request passes; otherwise the header must be
      `Bearer ` followed by a non-empty token from the list. */
  function ValidateClientToken(c: Polling.ProducerConfig, authHeader: string): (r: bool)
    ensures ValidTokens(c) == [] ==> r
    ensures ValidTokens(c) != [] ==>
      (r <==> (HasPrefix(authHeader, BearerPrefix) && |authHeader| > |BearerPrefix|
               && authHeader[|BearerPrefix|..] in ValidTokens(c)))
  {
    var tokens := ValidTokens(c);
    if |tokens| == 0 then true
    else if authHeader == "" then false
    else if !HasPrefix(authHeader, BearerPrefix) then false
    else
      var token := TrimPrefix(authHeader, BearerPrefix);
      if token == "" then false
      else token in tokens
  }

  /** A missing header, another scheme, or an empty token is turned away once tokens are
      configured; a listed token after `Bearer ` is let in. */
  lemma ClientTokenCases(c: Polling.ProducerConfig, token: string)
    requires ValidTokens(c) != []
    ensures !ValidateClientToken(c, "")
    ensures !ValidateClientToken(c, BearerPrefix)
    ensures !HasPrefix(token, BearerPrefix) ==> !ValidateClientToken(c, token)
    ensures ValidateClientToken(c, BearerPrefix + token) <==> token != "" && token in ValidTokens(c)
  {
    var h := BearerPrefix + token;
    assert h[..|BearerPrefix|] == BearerPrefix;
    assert h[|BearerPrefix|..] == token;
  }

  /** `strconv.ParseUint(s, 10, 64)`: decimal digits only, within 64 bits. */
  function ParseUint64(s: string): (r: Option<nat>)
    ensures r.Some? <==> s != [] && AllDigits(s) && DigitsValue(s) <= MaxUint64
    ensures r.Some? ==> r.value == DigitsValue(s)
  {
    if s != [] && AllDigits(s) && DigitsValue(s) <= MaxUint64 then Some(DigitsValue(s)) else None
  }

  /** The client version of a poll: the `version` query parameter, 0 when absent or not a
      valid unsigned number. */
  function ClientVersion(query: string): (r: nat)
    ensures query == "" ==> r == 0
    ensures ParseUint64(query).None? ==> r == 0
    ensures ParseUint64(query).Some? ==> r == ParseUint64(query).value
  {
    if query == "" then 0
    else match ParseUint64(query)
      case Some(v) => v
      case None => 0
  }

  /** The version a consumer sends is read back as that version. */
  lemma ClientVersionRoundTrip(v: nat)
    requires v <= MaxUint64
    ensures ClientVersion(NatToString(v)) == v
  {
    NatToStringValue(v);
  }

  /** The IP list of an `X-Public-IPs` / `X-Internal-IPs` header: none when the header is
      empty, otherwise its comma-separated pieces, each with surrounding white space trimmed. */
  function ParseIPHeader(header: string): (r: seq<string>)
    ensures header == "" ==> r == []
    ensures header != "" ==>
      (|r| == |Split(header, ',')| && forall i :: 0 <= i < |r| ==> r[i] == TrimSpace(Split(header, ',')[i]))
  {
    if header == "" then []
    else
      var pieces := Split(header, ',');
      seq(|pieces|, i requires 0 <= i < |pieces| => TrimSpace(pieces[i]))
  }

  /** No address of a parsed header holds a comma, and a header without commas gives the
      one trimmed address. */
  lemma IPHeaderPieces(header: string)
    ensures forall i :: 0 <= i < |ParseIPHeader(header)| ==> ',' !in ParseIPHeader(header)[i]
    ensures header != "" && ',' !in header ==> ParseIPHeader(header) == [TrimSpace(header)]
  {
    SplitJoin(header, ',');
    var r := ParseIPHeader(header);
    forall i | 0 <= i < |r|
      ensures ',' !in r[i]
    {
      var piece := Split(header, ',')[i];
      assert r[i] == TrimSpace(piece);
      assert forall k :: 0 <= k < |r[i]| ==> r[i][k] in piece;
    }
    if header != "" && ',' !in header {
      SplitWithoutSeparator(header, ',');
    }
  }

  /** A text without the separator splits into itself. */
  lemma {:induction false} SplitWithoutSeparator(s: string, sep: char)
    requires sep !in s
    ensures Split(s, sep) == [s]
    decreases |s|
  {
    if s != [] {
      assert sep !in s[1..];
      SplitWithoutSeparator(s[1..], sep);
      assert s == [s[0]] + s[1..];
    }
  }

  /** An HTTP answer: its status and body. */
  datatype Response = Response(status: int, body: string)

  /** `sendConfigResponse`: no content for an empty list, a server error when encoding fails,
      otherwise the encoded list with status 200. */
  function SendConfigResponse<T>(configs: seq<ConfigVersion<T>>, encode: seq<ConfigVersion<T>> -> Option<string>): (r: Response)
    ensures configs == [] ==> r.status == 204
    ensures configs != [] && encode(configs).None? ==> r == Response(500, "Internal server error")
    ensures configs != [] && encode(configs).Some? ==> r == Response(200, encode(configs).value)
  {
    if |configs| == 0 then Response(204, "")
    else match encode(configs)
      case None => Response(500, "Internal server error")
      case Some(data) => Response(200, data)
  }

  /** How a parked long poll ends: with no content when its timeout ran out, and with nothing
      more written when a message was sent or the client left. */
  function LongPollEnd(deadlineExceeded: bool): (r: Option<int>)
    ensures r.Some? <==> deadlineExceeded
    ensures r.Some? ==> r.value == 204
  {
    if deadlineExceeded then Some(204) else None
  }

  /** A long-poll request: its method, `Authorization` header, `version` query and the two
      IP headers. */
  datatype PollRequest = PollRequest(httpMethod: string, authHeader: string, versionQuery: string,
                                     publicIPs: string, internalIPs: string)

  /** A parked long poll: its id, arrival time and the client's reported addresses. */
  datatype PendingConnection = PendingConnection(clientId: string, connectedAt: int,
                                                 publicIPs: seq<string>, internalIPs: seq<string>)

  /** What `handleLongPoll` did with a request: answered it at once, or parked it. */
  datatype PollAnswer = Answered(response: Response) | Parked(clientId: string)

  /** The producer's running flag, its pending connections by client id, the message channel
      (nil once closed), its config cache and its failure counter. */
  class PollingProducer<T> {
    var running: bool
    var pending: map<string, PendingConnection>
    var queue: Option<seq<seq<ConfigVersion<T>>>>
    var failureCount: nat
    const cache: ConfigCache<T>
    const config: Polling.ProducerConfig

    ghost predicate Valid()
      reads this, cache
    {
      cache.Valid() && (queue.Some? ==> |queue.value| <= QueueCapacity)
    }

    /** `NewPollingProducer`: not running, no connections, an empty channel. */
    constructor (config: Polling.ProducerConfig, cache: ConfigCache<T>)
      requires cache.Valid()
      ensures Valid() && !running && pending == map[] && queue == Some([]) && failureCount == 0
      ensures this.config == config && this.cache == cache
    {
      this.config := config;
      this.cache := cache;
      running := false;
      pending := map[];
      queue := Some([]);
      failureCount := 0;
    }

    /** `Start`: refused while running. */
    method Start() returns (r: Outcome)
      modifies this
      ensures old(running) ==> r == Fail("polling producer is already running")
      ensures !old(running) ==> r == Pass
      ensures running && pending == old(pending) && queue == old(queue) && failureCount == old(failureCount)
    {
      if running {
        return Fail("polling producer is already running");
      }
      running := true;
      return Pass;
    }

    /** `Close`: nothing changes when not running; otherwise every pending connection is
        dropped, the channel is closed and the flag cleared. */
    method Close() returns (r: Outcome)
      modifies this
      ensures r == Pass && !running
      ensures !old(running) ==> pending == old(pending) && queue == old(queue)
      ensures old(running) ==> pending == map[] && queue.None?
      ensures failureCount == old(failureCount)
    {
      if !running {
        return Pass;
      }
      pending := map[];
      queue := None;
      running := false;
      return Pass;
    }

    /** `PushRawMessage`: refused when not running; otherwise queued unless the channel is
        full (a closed, nil channel never takes a message). */
    method PushRawMessage(batch: seq<ConfigVersion<T>>) returns (r: Outcome)
      requires Valid()
      modifies this
      ensures Valid()
      ensures !old(running) ==> r == Fail("polling producer is not running") && queue == old(queue)
      ensures old(running) && old(queue).Some? && |old(queue).value| < QueueCapacity ==>
        r == Pass && queue == Some(old(queue).value + [batch])
      ensures old(running) && (old(queue).None? || |old(queue).value| >= QueueCapacity) ==>
        r == Fail("message queue is full") && queue == old(queue)
      ensures running == old(running) && pending == old(pending) && failureCount == old(failureCount)
    {
      if !running {
        return Fail("polling producer is not running");
      }
      if queue.Some? && |queue.value| < QueueCapacity {
        queue := Some(queue.value + [batch]);
        return Pass;
      }
      return Fail("message queue is full");
    }

    /** `PushMessage`: cache the config under a new version and queue it together with every
        cached config after that version, which is none at all when nothing runs alongside. */
    method PushMessage(message: T, now: int) returns (r: Outcome, version: nat)
      requires Valid()
      modifies this, cache
      ensures Valid()
      ensures version == old(cache.versionCounter) + 1 && cache.versionCounter == version
      ensures r.Pass? ==>
        (running && old(queue).Some? && queue == Some(old(queue).value + [[ConfigVersion(version, message, now)]]))
      ensures r.Fail? ==> queue == old(queue)
      ensures running == old(running) && pending == old(pending) && failureCount == old(failureCount)
    {
      ghost var before := cache.configs;
      BelowNext(before, cache.versionCounter);
      version := cache.AddConfig(message, now);
      var added := cache.GetVersion(version);
      if added.None? {
        return Fail("failed to retrieve added config version " + NatToString(version)), version;
      }
      var later := cache.GetVersionsSince(version);
      NothingNewerThanLatest(cache.configs, version);
      AddedIsUnique(before, ConfigVersion(version, message, now), now - cache.maxAge, cache.maxVersions, added.value);
      assert [added.value] + later == [ConfigVersion(version, message, now)];
      r := PushRawMessage([added.value] + later);
    }

    /** The request half of `handleLongPoll`: a method other than GET is refused, an invalid
        token is unauthorised, a client behind the cache gets every newer config at once,
        and any other client is parked under `clientId`. */
    method HandleLongPoll(req: PollRequest, clientId: string, now: int,
                          encode: seq<ConfigVersion<T>> -> Option<string>) returns (answer: PollAnswer)
      requires Valid()
      modifies this
      ensures Valid()
      ensures req.httpMethod != "GET" ==> answer == Answered(Response(405, "Method not allowed"))
      ensures req.httpMethod == "GET" && !ValidateClientToken(config, req.authHeader) ==>
        answer == Answered(Response(401, "Unauthorized: Invalid or missing token"))
      ensures answer.Answered? ==> pending == old(pending)
      ensures answer.Parked? ==>
        req.httpMethod == "GET" && ValidateClientToken(config, req.authHeader)
        && cache.versionCounter <= ClientVersion(req.versionQuery)
        && answer.clientId == clientId
        && pending == old(pending)[clientId := PendingConnection(clientId, now,
             ParseIPHeader(req.publicIPs), ParseIPHeader(req.internalIPs))]
      ensures (req.httpMethod == "GET" && ValidateClientToken(config, req.authHeader)
               && cache.versionCounter > ClientVersion(req.versionQuery)) ==>
        answer == Answered(SendConfigResponse(Newer(cache.configs, ClientVersion(req.versionQuery)), encode))
      ensures running == old(running) && queue == old(queue) && failureCount == old(failureCount)
    {
      if req.httpMethod != "GET" {
        return Answered(Response(405, "Method not allowed"));
      }
      if !ValidateClientToken(config, req.authHeader) {
        return Answered(Response(401, "Unauthorized: Invalid or missing token"));
      }
      var clientVersion := ClientVersion(req.versionQuery);
      var newer := cache.HasNewerVersion(clientVersion);
      if newer {
        var since := cache.GetVersionsSince(clientVersion);
        return Answered(SendConfigResponse(since, encode));
      }
      var conn := PendingConnection(clientId, now, ParseIPHeader(req.publicIPs), ParseIPHeader(req.internalIPs));
      pending := pending[clientId := conn];
      return Parked(clientId);
    }

    /** `removePendingConnection`: drops the id if it is there. */
    method RemovePendingConnection(clientId: string)
      modifies this
      ensures pending == old(pending) - {clientId}
      ensures running == old(running) && queue == old(queue) && failureCount == old(failureCount)
    {
      if clientId in pending {
        pending := pending - {clientId};
      }
    }

    /** `dispatchMessage` on the decoded batch (`None` when it was not a JSON list): every
        pending connection leaves the map, and the ones whose context is still live are the
        ones the batch is sent to. A batch that does not decode changes nothing. */
    method DispatchMessage(decoded: Option<seq<ConfigVersion<T>>>, isDone: string -> bool)
      returns (targets: set<string>)
      modifies this
      ensures decoded.None? ==> targets == {} && pending == old(pending)
      ensures decoded.Some? ==> pending == map[] && targets == LiveIds(old(pending), isDone)
      ensures running == old(running) && queue == old(queue) && failureCount == old(failureCount)
    {
      if decoded.None? {
        return {};
      }
      targets := CollectLive(pending.Keys, isDone);
      pending := map[];
    }

    /** `cleanExpiredConnections`: drops every connection whose context is done or that has
        waited longer than the long-poll timeout plus the grace period. */
    method CleanExpiredConnections(now: int, longPollTimeout: int, isDone: string -> bool)
      modifies this
      ensures pending == map id | id in old(pending) && !Stale(old(pending)[id], now, longPollTimeout, isDone)
        :: old(pending)[id]
      ensures running == old(running) && queue == old(queue) && failureCount == old(failureCount)
    {
      var ids := pending.Keys;
      var expired: set<string> := {};
      while ids != {}
        invariant ids <= pending.Keys
        invariant expired == set id | id in pending.Keys - ids && Stale(pending[id], now, longPollTimeout, isDone)
        decreases |ids|
      {
        var id :| id in ids;
        if Stale(pending[id], now, longPollTimeout, isDone) {
          expired := expired + {id};
        }
        ids := ids - {id};
      }
      pending := pending - expired;
    }

    /** The failure branches of `startHTTPServer`: count the failure; once the count reaches the
        configured maximum, close and give up. */
    method OnServerError() returns (giveUp: bool)
      modifies this
      ensures failureCount == old(failureCount) + 1
      ensures giveUp <==> failureCount >= Polling.ProducerMaxRetries(config)
      ensures giveUp ==> !running
      ensures !giveUp ==> running == old(running) && pending == old(pending) && queue == old(queue)
    {
      failureCount := failureCount + 1;
      if failureCount >= Polling.ProducerMaxRetries(config) {
        var _ := Close();
        return true;
      }
      return false;
    }

    /** The cancellation branch of `startHTTPServer`: close and reset the failure counter. */
    method OnCancelled()
      modifies this
      ensures !running && failureCount == 0
    {
      var _ := Close();
      failureCount := 0;
    }
  }

  /** The collecting loop of `dispatchMessage`: walk the ids and keep those whose context is
      still live; every id walked is removed afterwards. */
  method CollectLive(ids: set<string>, isDone: string -> bool) returns (live: set<string>)
    ensures live == set id | id in ids && !isDone(id)
  {
    var rest := ids;
    live := {};
    while rest != {}
      invariant rest <= ids
      invariant live == set id | id in ids - rest && !isDone(id)
      decreases |rest|
    {
      var id :| id in rest;
      if !isDone(id) {
        live := live + {id};
      }
      rest := rest - {id};
    }
  }

  /** The ids of pending connections whose context is still live. */
  function LiveIds(pending: map<string, PendingConnection>, isDone: string -> bool): set<string> {
    set id | id in pending && !isDone(id)
  }

  /** A connection the cleaner drops. */
  predicate Stale(conn: PendingConnection, now: int, longPollTimeout: int, isDone: string -> bool) {
    isDone(conn.clientId) || now - conn.connectedAt > longPollTimeout + StaleGrace
  }

  /** The newest cached version has nothing after it. */
  lemma NothingNewerThanLatest<T>(s: seq<ConfigVersion<T>>, v: nat)
    requires SortedBelow(s, v)
    ensures Newer(s, v) == []
  {
    NewerNone(s, v);
  }

  /** Every cached version is below the next one. */
  lemma BelowNext<T>(s: seq<ConfigVersion<T>>, counter: nat)
    requires SortedBelow(s, counter)
    ensures forall i :: 0 <= i < |s| ==> s[i].version < counter + 1
  {
  }

  /** After an entry newer than every cached one is added and the cache trimmed, the only
      entry carrying its version is that entry. */
  lemma AddedIsUnique<T>(prev: seq<ConfigVersion<T>>, added: ConfigVersion<T>, cutoff: int,
                         maxVersions: nat, c: ConfigVersion<T>)
    requires forall i :: 0 <= i < |prev| ==> prev[i].version < added.version
    requires c in Cleanup(prev + [added], cutoff, maxVersions) && c.version == added.version
    ensures c == added
  {
    var s := prev + [added];
    CleanupSuffix(s, cutoff, maxVersions);
    var r := Cleanup(s, cutoff, maxVersions);
    assert c in s by {
      var k :| 0 <= k < |r| && r[k] == c;
      assert r[k] == s[|s| - |r| + k];
    }
  }
}
