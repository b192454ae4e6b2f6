/** The long-polling consumer: how a poll's failure is classified, how the poll loop reacts,
    how a batch of configs is handed to the handler and the client version advanced, the
    request URL, the start/close state and the failure counter. HTTP, JSON, goroutines and
    contexts are not modelled: each poll's outcome and each handler result are inputs. */
module PollingConsumerDriver {
  import opened Wrappers
  import opened StrUtil
  import opened DriverDefine
  import opened ConfigCache
  import Polling
  import Webhook

  /** `ErrorType`. */
  datatype ErrorType = TimeoutError | NeedRetry

  /** What an HTTP client error reveals: whether it is a `net.Error` reporting a timeout,
      whether it wraps `context.DeadlineExceeded`, and whether it is a `*url.Error` whose
      inner error is a `net.Error` reporting a timeout. */
  datatype RequestError = RequestError(netTimeout: bool, deadlineExceeded: bool, urlErrorInnerTimeout: bool)

  /** `classifyRequestError`; `status` is the response status when a response came back. */
  function ClassifyRequestError(err: RequestError, status: Option<int>): (r: ErrorType)
    ensures status == Some(204) ==> r == TimeoutError
    ensures r == TimeoutError <==> (status == Some(204) || err.netTimeout || err.deadlineExceeded
      || err.urlErrorInnerTimeout)
  {
    if status == Some(204) then TimeoutError
    else if err.netTimeout then TimeoutError
    else if err.deadlineExceeded then TimeoutError
    else if err.urlErrorInnerTimeout then TimeoutError
    else NeedRetry
  }

  /** How one request went: it could not be built, it could not be sent, or a response came
      back with a status (its handling is reported but never fails the poll). */
  datatype PollEvent = CreateFailed | SendFailed(err: RequestError, status: Option<int>) | Responded(code: int)

  /** `poll`: the error type of a failed poll, or none when it succeeded. A 204 means the
      long poll ended without news. */
  function Poll(event: PollEvent): (r: Option<ErrorType>)
    ensures event.CreateFailed? ==> r == Some(NeedRetry)
    ensures event.Responded? ==> (r == Some(TimeoutError) <==> event.code == 204)
    ensures event.Responded? && event.code != 204 ==> r.None?
  {
    match event
    case CreateFailed => Some(NeedRetry)
    case SendFailed(err, status) => Some(ClassifyRequestError(err, status))
    case Responded(code) => if code == 204 then Some(TimeoutError) else None
  }

  /** No poll before `k` asked for a retry. */
  predicate NoRetryBefore(events: seq<PollEvent>, k: int) {
    forall j :: 0 <= j < k && j < |events| ==> Poll(events[j]) != Some(NeedRetry)
  }

  /** `pollURL` on a finite run of polls, the run ending when the context is cancelled:
      successes and timeouts keep the loop going, the first retryable error leaves it with
      that poll's index, and cancellation leaves it with none. */
  method PollUrl(events: seq<PollEvent>) returns (stoppedAt: Option<nat>)
    ensures stoppedAt.Some? ==>
      (stoppedAt.value < |events| && Poll(events[stoppedAt.value]) == Some(NeedRetry)
       && NoRetryBefore(events, stoppedAt.value))
    ensures stoppedAt.None? ==> NoRetryBefore(events, |events|)
  {
    var i := 0;
    while i < |events|
      invariant 0 <= i <= |events|
      invariant NoRetryBefore(events, i)
    {
      var result := Poll(events[i]);
      if result == Some(NeedRetry) {
        return Some(i);
      }
      i := i + 1;
    }
    return None;
  }

  /** `createRequest`: the base URL with the client version as query. */
  function RequestUrl(baseUrl: string, version: nat): (r: string)
    ensures HasPrefix(r, baseUrl + "?version=")
  {
    var r := baseUrl + "?version=" + NatToString(version);
    assert r[..|baseUrl + "?version="|] == baseUrl + "?version=";
    r
  }

  /** The version in the request URL is the client version, read back. */
  lemma RequestUrlCarriesVersion(baseUrl: string, v1: nat, v2: nat)
    ensures RequestUrl(baseUrl, v1)[|baseUrl| + 9..] == NatToString(v1)
    ensures RequestUrl(baseUrl, v1) == RequestUrl(baseUrl, v2) ==> v1 == v2
  {
    var p := baseUrl + "?version=";
    assert |p| == |baseUrl| + 9;
    assert RequestUrl(baseUrl, v1)[|p|..] == NatToString(v1);
    if RequestUrl(baseUrl, v1) == RequestUrl(baseUrl, v2) {
      assert RequestUrl(baseUrl, v2)[|p|..] == NatToString(v2);
      NatToStringInjective(v1, v2);
    }
  }

  /** `startPolling`'s target: the valid URL followed by the polling path. */
  function PollTarget(validUrl: string): string {
    validUrl + Polling.DefaultPollingPath
  }

  /** The largest version of a batch, or 0 when it is empty. */
  function MaxVersion<T>(configs: seq<ConfigVersion<T>>): (r: nat)
    ensures forall i :: 0 <= i < |configs| ==> configs[i].version <= r
    ensures configs == [] ==> r == 0
    ensures configs != [] ==> exists i :: 0 <= i < |configs| && configs[i].version == r
  {
    if configs == [] then 0
    else
      var m := MaxVersion(configs[..|configs| - 1]);
      var last := configs[|configs| - 1].version;
      assert forall i :: 0 <= i < |configs| - 1 ==> configs[..|configs| - 1][i] == configs[i];
      if last > m then last else m
  }

  /** Every config of the first `k` was handled without error. */
  predicate HandledUpTo<T>(configs: seq<ConfigVersion<T>>, handler: T -> Outcome, k: int) {
    forall j :: 0 <= j < k && j < |configs| ==> handler(configs[j].config).Pass?
  }

  /** `maxVersion` of the loop: the largest version handled so far. */
  lemma MaxVersionStep<T>(configs: seq<ConfigVersion<T>>, i: nat)
    requires i < |configs|
    ensures MaxVersion(configs[..i + 1]) ==
      if configs[i].version > MaxVersion(configs[..i]) then configs[i].version else MaxVersion(configs[..i])
  {
    assert configs[..i + 1][..i] == configs[..i];
  }

  /** The loop of `processMessage`: hand each config to the handler in order, stopping at the
      first error (whose message is returned), and track the largest version handled. */
  method DeliverBatch<T>(configs: seq<ConfigVersion<T>>, handler: T -> Outcome)
    returns (failure: Option<string>, maxVersion: nat)
    ensures failure.None? <==> HandledUpTo(configs, handler, |configs|)
    ensures failure.None? ==> maxVersion == MaxVersion(configs)
  {
    maxVersion := 0;
    var i := 0;
    while i < |configs|
      invariant 0 <= i <= |configs|
      invariant HandledUpTo(configs, handler, i)
      invariant maxVersion == MaxVersion(configs[..i])
    {
      var result := handler(configs[i].config);
      if result.Fail? {
        assert !handler(configs[i].config).Pass?;
        return Some(result.msg), maxVersion;
      }
      MaxVersionStep(configs, i);
      if configs[i].version > maxVersion {
        maxVersion := configs[i].version;
      }
      i := i + 1;
    }
    assert configs[..i] == configs;
    return None, maxVersion;
  }

  /** The version a successful batch leaves behind: the larger of the client version and the
      batch's largest version. */
  function AdvancedVersion(current: nat, batchMax: nat): (r: nat)
    ensures r >= current && r >= batchMax
    ensures r == current || r == batchMax
  {
    if batchMax > current then batchMax else current
  }

  /** The consumer's running state, its failure counter and the client version it sends
      (a process-wide atomic in the source). */
  class PollingConsumer {
    var running: bool
    var failureCount: nat
    var version: nat
    const config: Polling.ConsumerConfig

    constructor (config: Polling.ConsumerConfig)
      ensures !running && failureCount == 0 && version == 0 && this.config == config
    {
      this.config := config;
      running := false;
      failureCount := 0;
      version := 0;
    }

    /** `Start`: refused while running. */
    method Start() returns (r: Outcome)
      modifies this
      ensures old(running) ==> r == Fail("PollingConsumer already running") && running
      ensures !old(running) ==> r == Pass && running
      ensures failureCount == old(failureCount) && version == old(version)
    {
      if running {
        return Fail("PollingConsumer already running");
      }
      running := true;
      return Pass;
    }

    /** `Close`: a no-op when not running. */
    method Close() returns (r: Outcome)
      modifies this
      ensures r == Pass && !running
      ensures failureCount == old(failureCount) && version == old(version)
    {
      if !running {
        return Pass;
      }
      running := false;
      return Pass;
    }

    /** The error branch of `startPolling`: count the failure; once the count reaches the
        configured maximum, close and stop retrying. */
    method OnPollingError() returns (giveUp: bool)
      modifies this
      ensures failureCount == old(failureCount) + 1
      ensures giveUp <==> failureCount >= Webhook.MaxRetries(config.retry)
      ensures giveUp ==> !running
      ensures !giveUp ==> running == old(running)
      ensures version == old(version)
    {
      failureCount := failureCount + 1;
      var retries := Webhook.MaxRetries(config.retry);
      if failureCount >= retries {
        var _ := Close();
        return true;
      }
      return false;
    }

    /** The cancellation branch of `startPolling`: close and reset the failure counter. */
    method OnCancelled()
      modifies this
      ensures !running && failureCount == 0 && version == old(version)
    {
      var _ := Close();
      failureCount := 0;
    }

    /** `processMessage` on the decoded batch (`Err` when the body was not a JSON list of
        config versions). Each config goes to the handler in order; the first handler error
        ends the batch, as success when exceptions are ignored, and leaves the version as
        it was. A fully handled batch advances the version to its largest, never back. */
    method ProcessMessage<T>(decoded: Result<seq<ConfigVersion<T>>>, handler: T -> Outcome) returns (r: Outcome)
      modifies this
      ensures decoded.Err? ==> r.Fail? && version == old(version)
      ensures decoded.Ok? && !HandledUpTo(decoded.value, handler, |decoded.value|) ==>
        version == old(version) && (r.Pass? <==> config.ignoreExceptions)
      ensures decoded.Ok? && HandledUpTo(decoded.value, handler, |decoded.value|) ==>
        r == Pass && version == AdvancedVersion(old(version), MaxVersion(decoded.value))
      ensures version >= old(version)
      ensures running == old(running) && failureCount == old(failureCount)
    {
      if decoded.Err? {
        return Fail("failed to parse JSON message to ConfigVersions: " + decoded.msg);
      }
      var configs := decoded.value;
      if |configs| == 0 {
        return Pass;
      }
      var failure, maxVersion := DeliverBatch(configs, handler);
      if failure.Some? {
        if config.ignoreExceptions {
          return Pass;
        }
        return Fail("message handler error: " + failure.value);
      }
      if maxVersion > 0 && maxVersion > version {
        version := maxVersion;
      }
      return Pass;
    }
  }
}
