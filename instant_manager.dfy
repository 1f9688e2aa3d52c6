/** The direct mode's dispatcher, `InstantAIManager`: it answers a request from an identical
    request already in flight (deduplication on a fingerprint of prompt and user), else sends it
    to the remote model when a concurrency slot is free, else falls back with a polite refusal.
    The remote call, the clock, processing ids and Python's hash() are parameters; the stats
    sink is the `log` sequence of events it receives. */
module InstantManager {
  import opened Wrappers
  import opened InstantModels
  import opened Text
  import Window

  const DefaultMaxConcurrent: int := 20
  const DefaultDeployment := "gpt-4o-mini"
  const ApiVersion := "2024-02-01"
  const DeploymentsMarker := "/openai/deployments/"
  const LegacyHostPattern := ".openai.azure.com"
  const CognitiveHostPattern := ".cognitiveservices.azure.com"
  const MissingCredentials := "Missing Azure credentials!"
  const EmptyEndpoint := "Azure endpoint is empty"
  const DivisionByZero := "division by zero"
  const BatchTooLargeText := "Batch too large. Maximum 50 requests per batch."
  const BatchSizeExceeded := "batch_size_exceeded"
  /** The largest batch `process_batch_requests` runs. */
  const MaxBatch: int := 50
  /** 0.001 s, the response time reported for a batch-level error. */
  const BatchErrorTimeMs: int := 1

  // ---------------------------------------------------------------- endpoint configuration

  /** The endpoint with an https scheme: kept, rewritten from http, or prefixed. */
  function Secure(a: string): (b: string)
    ensures StartsWith(b, "https://")
    ensures StartsWith(a, "https://") ==> b == a
    ensures !StartsWith(a, "https://") && !StartsWith(a, "http://") ==> b == "https://" + a
  {
    if StartsWith(a, "https://") then a
    else if StartsWith(a, "http://") then
      ReplaceAllLeading(a, "http://", "https://");
      ReplaceAll(a, "http://", "https://")
    else "https://" + a
  }

  /** A full API URL cut back to its base: the text before the first deployments marker. */
  function BaseUrl(b: string): (c: string)
    ensures StartsWith(b, c)
    ensures !Contains(c, DeploymentsMarker)
    ensures Contains(b, DeploymentsMarker) ==> OccursAt(b, DeploymentsMarker, |c|)
    ensures !Contains(b, DeploymentsMarker) ==> c == b
  {
    if Contains(b, DeploymentsMarker) then
      BeforeFirstExcludes(b, DeploymentsMarker);
      BeforeFirst(b, DeploymentsMarker)
    else b
  }

  predicate IsAzureHost(c: string) {
    Contains(c, LegacyHostPattern) || Contains(c, CognitiveHostPattern)
  }

  /** `_clean_endpoint`: empty is an error; otherwise trailing slashes go, the scheme becomes
      https, a full API URL is cut back to its base, and the result must name an Azure host. */
  function CleanEndpoint(endpoint: string): (r: Result<string, string>)
    ensures endpoint == [] ==> r == Err(EmptyEndpoint)
    ensures endpoint != [] ==>
      var c := BaseUrl(Secure(RStripChar(endpoint, '/')));
      (r.Ok? <==> IsAzureHost(c)) && (r.Ok? ==> r.value == c)
      && (r.Err? ==> r.error == "Invalid Azure endpoint format: " + c)
  {
    if endpoint == [] then Err(EmptyEndpoint)
    else
      var c := BaseUrl(Secure(RStripChar(endpoint, '/')));
      if IsAzureHost(c) then Ok(c) else Err("Invalid Azure endpoint format: " + c)
  }

  /** Every accepted endpoint is an https URL with no deployments path that names an Azure host. */
  lemma CleanEndpointShape(endpoint: string)
    requires CleanEndpoint(endpoint).Ok?
    ensures var c := CleanEndpoint(endpoint).value;
      StartsWith(c, "https://") && !Contains(c, DeploymentsMarker) && IsAzureHost(c)
  {
    var b := Secure(RStripChar(endpoint, '/'));
    var c := BaseUrl(b);
    assert IsAzureHost(c);
    var i: nat :| i <= |c| && (OccursAt(c, LegacyHostPattern, i) || OccursAt(c, CognitiveHostPattern, i));
    assert |c| >= 8;
    assert c[..8] == b[..8];
  }

  /** A bare host name without slashes at the end gets the https prefix and nothing else. */
  lemma CleanEndpointBareHost(host: string)
    requires host != [] && host[|host| - 1] != '/'
    requires !StartsWith(host, "https://") && !StartsWith(host, "http://")
    requires !Contains("https://" + host, DeploymentsMarker) && IsAzureHost("https://" + host)
    ensures CleanEndpoint(host) == Ok("https://" + host)
  {
    assert RStripChar(host, '/') == host;
  }

  /** Cleaning an accepted endpoint again gives it back unchanged exactly when it does not end
      in a slash; one that does is cut once more. */
  lemma CleanEndpointIdempotent(endpoint: string)
    requires CleanEndpoint(endpoint).Ok?
    ensures |CleanEndpoint(endpoint).value| > 0
    ensures var c := CleanEndpoint(endpoint).value;
      CleanEndpoint(c) == CleanEndpoint(endpoint) <==> c[|c| - 1] != '/'
  {
    CleanEndpointShape(endpoint);
    var c := CleanEndpoint(endpoint).value;
    if c[|c| - 1] != '/' {
      assert RStripChar(c, '/') == c;
    } else {
      var s := RStripChar(c, '/');
      assert |s| < |c|;
      if CleanEndpoint(c).Ok? {
        assert |CleanEndpoint(c).value| <= |Secure(s)|;
      }
    }
  }

  /** The settings `__init__` reads from the environment, once validated. */
  datatype AzureConfig = AzureConfig(endpoint: string, apiKey: string, deployment: string, apiVersion: string)

  /** `__init__`'s configuration: a missing or empty endpoint or key is an error, the deployment
      defaults to gpt-4o-mini, and the endpoint is cleaned. */
  function Configure(endpoint: Option<string>, apiKey: Option<string>, deployment: Option<string>)
    : (r: Result<AzureConfig, string>)
    ensures (endpoint.None? || endpoint == Some("") || apiKey.None? || apiKey == Some(""))
            ==> r == Err(MissingCredentials)
    ensures r.Ok? ==> endpoint.Some? && CleanEndpoint(endpoint.value) == Ok(r.value.endpoint)
                      && StartsWith(r.value.endpoint, "https://") && r.value.apiKey == apiKey.value
                      && r.value.apiVersion == ApiVersion
    ensures r.Ok? ==> r.value.deployment == if deployment.Some? then deployment.value else DefaultDeployment
    ensures endpoint.Some? && endpoint.value != [] && apiKey.Some? && apiKey.value != [] ==>
              (r.Ok? <==> CleanEndpoint(endpoint.value).Ok?)
  {
    if endpoint.None? || endpoint.value == [] || apiKey.None? || apiKey.value == [] then
      Err(MissingCredentials)
    else
      match CleanEndpoint(endpoint.value)
      case Err(e) => Err(e)
      case Ok(c) =>
        CleanEndpointShape(endpoint.value);
        Ok(AzureConfig(c, apiKey.value, if deployment.Some? then deployment.value else DefaultDeployment, ApiVersion))
  }

  // ---------------------------------------------------------------- the remote call's settings

  datatype CallParams = CallParams(maxTokens: nat, timeoutSeconds: nat)

  /** The payload settings of `_call_azure_openai`, chosen by priority. */
  function PayloadParams(p: InstantPriority): (c: CallParams)
    ensures p == Instant ==> c == CallParams(150, 8)
    ensures p == Fast ==> c == CallParams(300, 15)
    ensures p == Normal ==> c == CallParams(500, 25)
  {
    match p
    case Instant => CallParams(150, 8)
    case Fast => CallParams(300, 15)
    case Normal => CallParams(500, 25)
  }

  function Urgency(p: InstantPriority): nat {
    match p
    case Instant => 0
    case Fast => 1
    case Normal => 2
  }

  /** A more urgent priority gets strictly fewer tokens and a strictly shorter timeout. */
  lemma PayloadParamsMonotone(p: InstantPriority, q: InstantPriority)
    requires Urgency(p) < Urgency(q)
    ensures PayloadParams(p).maxTokens < PayloadParams(q).maxTokens
    ensures PayloadParams(p).timeoutSeconds < PayloadParams(q).timeoutSeconds
  {
  }

  // ---------------------------------------------------------------- admission

  /** The string the fingerprint hashes: the prompt, a colon and the user id (None when absent). */
  function FingerprintKey(r: InstantAIRequest): string {
    r.prompt + ":" + (if r.userId.Some? then r.userId.value else "None")
  }

  /** The key starts with the prompt, then a colon, then the user id or "None". */
  lemma FingerprintKeyParts(r: InstantAIRequest)
    ensures var k := FingerprintKey(r);
      |k| > |r.prompt| && k[..|r.prompt|] == r.prompt && k[|r.prompt|] == ':'
      && k[|r.prompt| + 1..] == if r.userId.Some? then r.userId.value else "None"
  {
    var k := FingerprintKey(r);
    assert k[..|r.prompt|] == r.prompt;
  }

  /** The key does not tell the parts apart: a request without a user shares it with the user
      named "None", and a colon may move between prompt and user. Such requests are answered by
      each other's dispatch. */
  lemma FingerprintKeyAmbiguous(prompt: string, priority: InstantPriority, wait: Option<int>)
    ensures FingerprintKey(InstantAIRequest(prompt, priority, None, wait))
         == FingerprintKey(InstantAIRequest(prompt, priority, Some("None"), wait))
    ensures FingerprintKey(InstantAIRequest("a:b", priority, Some("c"), wait))
         == FingerprintKey(InstantAIRequest("a", priority, Some("b:c"), wait))
  {
    assert "a:b" + ":" + "c" == "a" + ":" + "b:c";
  }

  /** The fingerprint of a request under the hash function in use. */
  function FingerprintOf(hash: string -> int, r: InstantAIRequest): int {
    hash(FingerprintKey(r))
  }

  /** Which of the three strategies of `get_instant_response` applies, or the division by zero
      a full fallback with no slots at all runs into. */
  datatype Strategy = Deduplicate | Process | GracefulFallback | ZeroDivision

  function ChooseStrategy(pending: bool, activeCount: nat, maxConcurrent: int): (s: Strategy)
    ensures s == Deduplicate <==> pending
    ensures s == Process <==> !pending && activeCount < maxConcurrent
    ensures s == GracefulFallback <==> !pending && activeCount >= maxConcurrent && maxConcurrent != 0
    ensures s == ZeroDivision <==> !pending && activeCount >= maxConcurrent && maxConcurrent == 0
  {
    if pending then Deduplicate
    else if activeCount < maxConcurrent then Process
    else if maxConcurrent != 0 then GracefulFallback
    else ZeroDivision
  }

  lemma RatioAtLeastOne(load: real, m: real)
    requires m > 0.0
    ensures load / m * 100.0 >= 100.0 <==> load >= m
  {
    var q := load / m;
    assert q * m == load;
    if q >= 1.0 {
      assert q * m >= 1.0 * m;
    } else {
      assert q * m < 1.0 * m;
    }
  }

  lemma RatioNegative(load: real, m: real)
    requires m < 0.0 && load >= 0.0
    ensures load / m <= 0.0
  {
    assert load / m == -(load / -m);
  }

  /** `_graceful_fallback`'s reason: capacity_full exactly when the load is at least 100%. */
  function FallbackReasonFor(load: nat, maxConcurrent: int): (r: FallbackReason)
    requires maxConcurrent != 0
    ensures r == CapacityFull <==> (load as real) / (maxConcurrent as real) * 100.0 >= 100.0
  {
    if maxConcurrent > 0 then
      RatioAtLeastOne(load as real, maxConcurrent as real);
      if load >= maxConcurrent then CapacityFull else ProcessingTimeout
    else
      RatioNegative(load as real, maxConcurrent as real);
      ProcessingTimeout
  }

  /** Whenever the fallback is reached with a positive slot count, its reason is capacity_full. */
  lemma FallbackIsCapacityFull(activeCount: nat, maxConcurrent: int)
    requires ChooseStrategy(false, activeCount, maxConcurrent) == GracefulFallback && maxConcurrent > 0
    ensures FallbackReasonFor(activeCount, maxConcurrent) == CapacityFull
  {
    RatioAtLeastOne(activeCount as real, maxConcurrent as real);
  }

  function FallbackMessage(reason: FallbackReason, load: nat, maxConcurrent: int): string {
    match reason
    case CapacityFull =>
      "System is at full capacity (" + NatToString(load) + "/" + IntToString(maxConcurrent)
      + " slots used). Please try again in a moment."
    case ProcessingTimeout => "Unable to process request quickly. Please try again or use a simpler prompt."
  }

  /** One call of the stats sink `log_request`. */
  datatype LogEvent = LogEvent(
    promptHash: int,
    success: bool,
    responseTimeMs: int,
    tokensUsed: nat,
    source: Source,
    priority: InstantPriority,
    userId: Option<string>,
    errorMessage: Option<string>,
    modelUsed: Option<string>)

  function ErrorText(e: string): string {
    "Error processing request: " + e
  }

  /** The answer to a request that found no free slot: the fallback, or with no slots at all the
      error handler's answer to the division by zero. */
  function Declined(load: nat, maxConcurrent: int, elapsed: int): (r: InstantResponse)
    ensures !r.success
    ensures r.source == Error <==> maxConcurrent == 0
    ensures r.responseTimeMs == elapsed
    ensures maxConcurrent == 0 ==> r.metadata == ErrorInfo(DivisionByZero) && r.result == ErrorText(DivisionByZero)
    ensures maxConcurrent != 0 ==>
      r.source == Fallback
      && r.metadata == FallbackInfo(FallbackReasonFor(load, maxConcurrent), load, maxConcurrent)
      && r.result == FallbackMessage(FallbackReasonFor(load, maxConcurrent), load, maxConcurrent)
  {
    if maxConcurrent == 0 then
      InstantResponse(false, ErrorText(DivisionByZero), elapsed, Error, ErrorInfo(DivisionByZero))
    else
      var reason := FallbackReasonFor(load, maxConcurrent);
      InstantResponse(false, FallbackMessage(reason, load, maxConcurrent), elapsed, Fallback,
                      FallbackInfo(reason, load, maxConcurrent))
  }

  function ReasonName(r: FallbackReason): string {
    match r
    case CapacityFull => "capacity_full"
    case ProcessingTimeout => "processing_timeout"
  }

  /** What a declined request sends to the stats sink. */
  function DeclinedLog(request: InstantAIRequest, fp: int, promptHash: int, load: nat,
                       maxConcurrent: int, elapsed: int): (e: LogEvent)
    ensures !e.success && e.tokensUsed == 0
    ensures maxConcurrent == 0 ==> e.source == Error && e.promptHash == promptHash
    ensures maxConcurrent != 0 ==> e.source == Fallback && e.promptHash == fp
  {
    if maxConcurrent == 0 then
      LogEvent(promptHash, false, elapsed, 0, Error, request.priority, request.userId, Some(DivisionByZero), None)
    else
      LogEvent(fp, false, elapsed, 0, Fallback, request.priority, request.userId,
               Some("Fallback: " + ReasonName(FallbackReasonFor(load, maxConcurrent))), None)
  }

  /** `process_batch_requests` for batches over the limit: one identical error per request. */
  function BatchTooLarge(n: nat): (r: seq<InstantResponse>)
    ensures |r| == n
    ensures forall i :: 0 <= i < n ==>
      r[i] == InstantResponse(false, BatchTooLargeText, BatchErrorTimeMs, Error, ErrorInfo(BatchSizeExceeded))
  {
    seq(n, _ => InstantResponse(false, BatchTooLargeText, BatchErrorTimeMs, Error, ErrorInfo(BatchSizeExceeded)))
  }

  /** The entry `process_batch_requests` puts in place of the exception raised by request `i`. */
  function IndexedErrorResponse(e: string, i: nat): InstantResponse {
    InstantResponse(false, ErrorText(e), BatchErrorTimeMs, Error, IndexedError(e, i))
  }

  /** `process_batch_requests`: over 50 requests, one batch_size_exceeded error each; otherwise
      one result per request in order, where `gathered[i]` is what the concurrent run of request
      `i` produced (a response, or the text of the exception it raised). */
  method ProcessBatchRequests(requestCount: nat, gathered: seq<Result<InstantResponse, string>>)
    returns (results: seq<InstantResponse>)
    requires requestCount <= MaxBatch ==> |gathered| == requestCount
    ensures |results| == requestCount
    ensures requestCount > MaxBatch ==> results == BatchTooLarge(requestCount)
    ensures requestCount <= MaxBatch ==> forall i :: 0 <= i < requestCount ==>
      results[i] == (if gathered[i].Ok? then gathered[i].value else IndexedErrorResponse(gathered[i].error, i))
  {
    if requestCount > MaxBatch {
      return BatchTooLarge(requestCount);
    }
    results := [];
    for i := 0 to |gathered|
      invariant |results| == i
      invariant forall j :: 0 <= j < i ==>
        results[j] == (if gathered[j].Ok? then gathered[j].value else IndexedErrorResponse(gathered[j].error, j))
    {
      match gathered[i] {
        case Ok(response) => results := results + [response];
        case Err(e) => results := results + [IndexedErrorResponse(e, i)];
      }
    }
  }

  // ---------------------------------------------------------------- the dispatcher

  /** One entry of `active_processing`, with the fingerprint its dispatch registered. */
  datatype ActiveRecord = ActiveRecord(request: InstantAIRequest, startTime: int, fingerprint: int)

  /** The state of the future a dispatch creates for deduplication. */
  datatype FutureState = Unresolved | Resolved(content: string) | Failed(message: string)

  /** What the remote call returned: its content, token count and model. */
  datatype AzureReply = AzureReply(content: string, tokensUsed: nat, model: string)

  /** How far a request got in one step: answered, sent to the remote model under a processing
      id, or suspended on the future of the identical request in flight. */
  datatype Admission = Answered(response: InstantResponse) | Dispatched(processingId: string) | Awaiting(futureId: string)

  /** The dispatcher's tables agree: the active set respects the slot count, every pending
      fingerprint names an active dispatch registered under it, and the active ids are exactly
      those whose future is unresolved. */
  ghost predicate Consistent(maxConcurrent: int, hash: string -> int, active: map<string, ActiveRecord>,
                             pending: map<int, string>, futures: map<string, FutureState>)
  {
    && (|active| == 0 || |active| <= maxConcurrent)
    && (forall fp :: fp in pending ==> pending[fp] in active && active[pending[fp]].fingerprint == fp)
    && (forall id :: id in active ==>
          && active[id].fingerprint == FingerprintOf(hash, active[id].request)
          && id in futures && futures[id] == Unresolved)
    && (forall id :: id in futures && futures[id] == Unresolved ==> id in active)
  }

  /** Taking a free slot under a fresh id keeps the tables consistent. */
  lemma BeginKeepsConsistent(maxConcurrent: int, hash: string -> int, active: map<string, ActiveRecord>,
                             pending: map<int, string>, futures: map<string, FutureState>,
                             pid: string, request: InstantAIRequest, start: int)
    requires Consistent(maxConcurrent, hash, active, pending, futures)
    requires pid !in futures && |active| < maxConcurrent
    ensures var fp := FingerprintOf(hash, request);
      Consistent(maxConcurrent, hash, active[pid := ActiveRecord(request, start, fp)],
                 pending[fp := pid], futures[pid := Unresolved])
  {
    assert pid !in active;
  }

  /** Settling a dispatch's future and dropping its id and fingerprint keeps the tables consistent. */
  lemma FinishKeepsConsistent(maxConcurrent: int, hash: string -> int, active: map<string, ActiveRecord>,
                              pending: map<int, string>, futures: map<string, FutureState>,
                              pid: string, settled: FutureState)
    requires Consistent(maxConcurrent, hash, active, pending, futures)
    requires pid in active && settled != Unresolved
    ensures Consistent(maxConcurrent, hash, active - {pid}, pending - {active[pid].fingerprint},
                       futures[pid := settled])
  {
    var active' := active - {pid};
    assert |active'| == |active| - 1;
  }

  /** The time from a dispatch's start to `now`. */
  function Elapsed(rec: ActiveRecord, now: int): int {
    now - rec.startTime
  }

  /** The stats event of a successful dispatch. */
  function SuccessEvent(rec: ActiveRecord, reply: AzureReply, now: int): (e: LogEvent)
    ensures e.success && e.source == AzureAi && e.promptHash == rec.fingerprint
    ensures e.tokensUsed == reply.tokensUsed && e.modelUsed == Some(reply.model)
  {
    LogEvent(rec.fingerprint, true, Elapsed(rec, now), reply.tokensUsed, AzureAi, rec.request.priority,
             rec.request.userId, None, Some(reply.model))
  }

  /** The two stats events of a failed dispatch: the dispatcher's, under the fingerprint, then
      the error handler's, under the hash of the prompt alone. */
  function FailureEvents(rec: ActiveRecord, promptHash: int, error: string, now: int): (r: seq<LogEvent>)
    ensures |r| == 2 && !r[0].success && !r[1].success
    ensures r[0].source == AzureAi && r[0].promptHash == rec.fingerprint
    ensures r[1].source == Error && r[1].promptHash == promptHash
    ensures r[0].errorMessage == r[1].errorMessage == Some(error)
    ensures r[0].tokensUsed == 0 && r[1].tokensUsed == 0
  {
    [LogEvent(rec.fingerprint, false, Elapsed(rec, now), 0, AzureAi, rec.request.priority,
              rec.request.userId, Some(error), None),
     LogEvent(promptHash, false, Elapsed(rec, now), 0, Error, rec.request.priority,
              rec.request.userId, Some(error), None)]
  }

  /** The in-memory `stats` dictionary: request counters, the token total and the window of
      the latest response times. */
  datatype Stats = Stats(
    totalRequests: nat,
    successfulRequests: nat,
    failedRequests: nat,
    totalTokensUsed: nat,
    avgResponseTimes: seq<int>)

  class InstantAIManager {
    const maxConcurrent: int
    const config: AzureConfig
    /** Python's hash() on strings. */
    const hash: string -> int
    var activeProcessing: map<string, ActiveRecord>
    /** Fingerprint to the processing id whose future an identical request awaits. */
    var pendingRequests: map<int, string>
    /** The deduplication future of every dispatch so far, by processing id. */
    var futures: map<string, FutureState>
    var stats: Stats
    /** The events sent to the stats sink, oldest first. */
    var log: seq<LogEvent>

    ghost predicate Valid()
      reads this
    {
      && Consistent(maxConcurrent, hash, activeProcessing, pendingRequests, futures)
      && |stats.avgResponseTimes| <= Window.Capacity
    }

    constructor(config: AzureConfig, maxConcurrent: int, hash: string -> int)
      ensures Valid()
      ensures this.config == config && this.maxConcurrent == maxConcurrent && this.hash == hash
      ensures activeProcessing == map[] && pendingRequests == map[] && futures == map[]
      ensures stats == Stats(0, 0, 0, 0, []) && log == []
    {
      this.config := config;
      this.maxConcurrent := maxConcurrent;
      this.hash := hash;
      activeProcessing := map[];
      pendingRequests := map[];
      futures := map[];
      stats := Stats(0, 0, 0, 0, []);
      log := [];
    }

    /** `log_request` of the stats sink: record one event, nothing else changes. */
    method LogRequest(e: LogEvent)
      requires Valid()
      modifies this
      ensures Valid()
      ensures log == old(log) + [e]
      ensures activeProcessing == old(activeProcessing) && pendingRequests == old(pendingRequests)
      ensures futures == old(futures) && stats == old(stats)
    {
      log := log + [e];
    }

    /** Strategy 2 of `get_instant_response`: take a free slot, registering the processing id,
        its fingerprint and an unresolved future. */
    method BeginDispatch(request: InstantAIRequest, pid: string, start: int)
      requires Valid()
      requires pid !in futures && |activeProcessing| < maxConcurrent
      modifies this
      ensures Valid()
      ensures activeProcessing == old(activeProcessing)[pid := ActiveRecord(request, start, FingerprintOf(hash, request))]
      ensures pendingRequests == old(pendingRequests)[FingerprintOf(hash, request) := pid]
      ensures futures == old(futures)[pid := Unresolved]
      ensures |activeProcessing| == |old(activeProcessing)| + 1
      ensures stats == old(stats) && log == old(log)
    {
      var fp := FingerprintOf(hash, request);
      BeginKeepsConsistent(maxConcurrent, hash, activeProcessing, pendingRequests, futures, pid, request, start);
      activeProcessing, pendingRequests, futures :=
        activeProcessing[pid := ActiveRecord(request, start, fp)], pendingRequests[fp := pid], futures[pid := Unresolved];
    }

    /** Strategy 3 of `get_instant_response` with no free slot: `_graceful_fallback`, which adds
        nothing to the tables and logs the fallback; with no slots at all its load percentage
        divides by zero and the error handler counts and logs a failure instead. */
    method Decline(request: InstantAIRequest, start: int, now: int) returns (response: InstantResponse)
      requires Valid()
      requires |activeProcessing| >= maxConcurrent
      modifies this
      ensures Valid()
      ensures response == Declined(|old(activeProcessing)|, maxConcurrent, now - start)
      ensures log == old(log) + [DeclinedLog(request, FingerprintOf(hash, request), hash(request.prompt),
                                             |old(activeProcessing)|, maxConcurrent, now - start)]
      ensures stats == old(stats).(failedRequests := old(stats).failedRequests + if maxConcurrent == 0 then 1 else 0)
      ensures activeProcessing == old(activeProcessing) && pendingRequests == old(pendingRequests)
      ensures futures == old(futures)
    {
      var load := |activeProcessing|;
      LogRequest(DeclinedLog(request, FingerprintOf(hash, request), hash(request.prompt), load, maxConcurrent, now - start));
      if maxConcurrent == 0 {
        stats := stats.(failedRequests := stats.failedRequests + 1);
      }
      response := Declined(load, maxConcurrent, now - start);
    }

    /** The admission part of `get_instant_response` (strategies 2 and 3). */
    method Admit(request: InstantAIRequest, pid: string, start: int, now: int) returns (a: Admission)
      requires Valid()
      requires pid !in futures
      modifies this
      ensures Valid()
      ensures a.Dispatched? <==> |old(activeProcessing)| < maxConcurrent
      ensures a.Dispatched? ==>
        && a.processingId == pid
        && activeProcessing == old(activeProcessing)[pid := ActiveRecord(request, start, FingerprintOf(hash, request))]
        && pendingRequests == old(pendingRequests)[FingerprintOf(hash, request) := pid]
        && futures == old(futures)[pid := Unresolved]
        && stats == old(stats) && log == old(log)
      ensures !a.Dispatched? ==>
        && a == Answered(Declined(|old(activeProcessing)|, maxConcurrent, now - start))
        && activeProcessing == old(activeProcessing) && pendingRequests == old(pendingRequests)
        && futures == old(futures)
        && log == old(log) + [DeclinedLog(request, FingerprintOf(hash, request), hash(request.prompt),
                                          |old(activeProcessing)|, maxConcurrent, now - start)]
        && stats == old(stats).(failedRequests := old(stats).failedRequests + if maxConcurrent == 0 then 1 else 0)
    {
      if |activeProcessing| < maxConcurrent {
        BeginDispatch(request, pid, start);
        a := Dispatched(pid);
      } else {
        var response := Decline(request, start, now);
        a := Answered(response);
      }
    }

    /** `get_instant_response` up to its first suspension: count the request, then wait on the
        future of an identical request in flight, or admit it. */
    method Submit(request: InstantAIRequest, pid: string, start: int, now: int) returns (a: Admission)
      requires Valid()
      requires pid !in futures
      modifies this
      ensures Valid()
      ensures stats.totalRequests == old(stats.totalRequests) + 1
      ensures stats.successfulRequests == old(stats.successfulRequests)
      ensures stats.totalTokensUsed == old(stats.totalTokensUsed)
      ensures stats.avgResponseTimes == old(stats.avgResponseTimes)
      ensures var s := ChooseStrategy(FingerprintOf(hash, request) in old(pendingRequests),
                                      |old(activeProcessing)|, maxConcurrent);
        && (s == Deduplicate ==> a == Awaiting(old(pendingRequests)[FingerprintOf(hash, request)]))
        && (s == Process ==> a == Dispatched(pid))
        && (s == GracefulFallback || s == ZeroDivision ==>
              a == Answered(Declined(|old(activeProcessing)|, maxConcurrent, now - start)))
      ensures a.Awaiting? ==>
        && a.futureId in futures && futures[a.futureId] == Unresolved
        && activeProcessing == old(activeProcessing) && pendingRequests == old(pendingRequests)
        && futures == old(futures) && log == old(log)
        && stats.failedRequests == old(stats.failedRequests)
      ensures a.Dispatched? ==>
        && activeProcessing == old(activeProcessing)[pid := ActiveRecord(request, start, FingerprintOf(hash, request))]
        && pendingRequests == old(pendingRequests)[FingerprintOf(hash, request) := pid]
        && futures == old(futures)[pid := Unresolved]
        && log == old(log) && stats.failedRequests == old(stats.failedRequests)
      ensures a.Answered? ==>
        && activeProcessing == old(activeProcessing) && pendingRequests == old(pendingRequests)
        && futures == old(futures)
        && log == old(log) + [DeclinedLog(request, FingerprintOf(hash, request), hash(request.prompt),
                                          |old(activeProcessing)|, maxConcurrent, now - start)]
        && stats.failedRequests == old(stats.failedRequests) + (if maxConcurrent == 0 then 1 else 0)
    {
      stats := stats.(totalRequests := stats.totalRequests + 1);
      var fp := FingerprintOf(hash, request);
      if fp in pendingRequests {
        return Awaiting(pendingRequests[fp]);
      }
      a := Admit(request, pid, start, now);
    }

    /** `get_instant_response` after the awaited future is done: a resolved future answers from
        deduplication with no tokens; a failed one falls through to admission. */
    method ResumeWaiter(request: InstantAIRequest, futureId: string, pid: string, start: int, now: int)
      returns (a: Admission)
      requires Valid()
      requires futureId in futures && futures[futureId] != Unresolved
      requires pid !in futures
      modifies this
      ensures Valid()
      ensures old(futures)[futureId].Resolved? ==>
        && a == Answered(InstantResponse(true, old(futures)[futureId].content, now - start,
                                         Deduplication, Deduplicated))
        && log == old(log) + [LogEvent(FingerprintOf(hash, request), true, now - start, 0, Deduplication,
                                       request.priority, request.userId, None, None)]
        && activeProcessing == old(activeProcessing) && pendingRequests == old(pendingRequests)
        && futures == old(futures) && stats == old(stats)
      ensures old(futures)[futureId].Failed? ==>
        && !a.Awaiting?
        && (a.Dispatched? <==> |old(activeProcessing)| < maxConcurrent)
        && stats.totalRequests == old(stats.totalRequests)
      ensures old(futures)[futureId].Failed? && a.Dispatched? ==>
        && a.processingId == pid
        && activeProcessing == old(activeProcessing)[pid := ActiveRecord(request, start, FingerprintOf(hash, request))]
        && pendingRequests == old(pendingRequests)[FingerprintOf(hash, request) := pid]
        && futures == old(futures)[pid := Unresolved]
        && stats == old(stats) && log == old(log)
      ensures old(futures)[futureId].Failed? && !a.Dispatched? ==>
        && a == Answered(Declined(|old(activeProcessing)|, maxConcurrent, now - start))
        && activeProcessing == old(activeProcessing) && pendingRequests == old(pendingRequests)
        && futures == old(futures)
        && log == old(log) + [DeclinedLog(request, FingerprintOf(hash, request), hash(request.prompt),
                                          |old(activeProcessing)|, maxConcurrent, now - start)]
        && stats == old(stats).(failedRequests := old(stats).failedRequests + if maxConcurrent == 0 then 1 else 0)
    {
      match futures[futureId] {
        case Resolved(content) =>
          LogRequest(LogEvent(FingerprintOf(hash, request), true, now - start, 0, Deduplication,
                              request.priority, request.userId, None, None));
          return Answered(InstantResponse(true, content, now - start, Deduplication, Deduplicated));
        case Failed(_) =>
          a := Admit(request, pid, start, now);
      }
    }

    /** `_update_response_time_stats`: append the time, dropping the oldest beyond 100. */
    method UpdateResponseTimeStats(t: int)
      requires Valid()
      modifies this
      ensures Valid()
      ensures stats == old(stats).(avgResponseTimes := Window.Push(old(stats.avgResponseTimes), t))
      ensures activeProcessing == old(activeProcessing) && pendingRequests == old(pendingRequests)
      ensures futures == old(futures) && log == old(log)
    {
      stats := stats.(avgResponseTimes := Window.Push(stats.avgResponseTimes, t));
    }

    /** What `_process_with_azure` does to the tables once the call is over: the future gets its
        result or exception, and the `finally` block drops the processing id and its fingerprint. */
    method Settle(pid: string, settled: FutureState)
      requires Valid()
      requires pid in activeProcessing && settled != Unresolved
      modifies this
      ensures Valid()
      ensures activeProcessing == old(activeProcessing) - {pid}
      ensures pendingRequests == old(pendingRequests) - {old(activeProcessing)[pid].fingerprint}
      ensures futures == old(futures)[pid := settled]
      ensures stats == old(stats) && log == old(log)
    {
      var active, pending, settledFutures :=
        activeProcessing - {pid}, pendingRequests - {activeProcessing[pid].fingerprint}, futures[pid := settled];
      FinishKeepsConsistent(maxConcurrent, hash, activeProcessing, pendingRequests, futures, pid, settled);
      activeProcessing, pendingRequests, futures := active, pending, settledFutures;
    }

    /** `_process_with_azure` when the remote call returns: the success counter, the token total
        and the response-time window grow, the event goes to the stats sink and the future
        resolves to the content; the `finally` block drops the processing id and its fingerprint. */
    method SucceedDispatch(pid: string, reply: AzureReply, now: int) returns (response: InstantResponse)
      requires Valid()
      requires pid in activeProcessing
      modifies this
      ensures Valid()
      ensures activeProcessing == old(activeProcessing) - {pid}
      ensures pendingRequests == old(pendingRequests) - {old(activeProcessing)[pid].fingerprint}
      ensures futures == old(futures)[pid := Resolved(reply.content)]
      ensures stats == old(stats).(successfulRequests := old(stats).successfulRequests + 1,
                                   totalTokensUsed := old(stats).totalTokensUsed + reply.tokensUsed,
                                   avgResponseTimes := Window.Push(old(stats).avgResponseTimes,
                                                                   Elapsed(old(activeProcessing)[pid], now)))
      ensures log == old(log) + [SuccessEvent(old(activeProcessing)[pid], reply, now)]
      ensures response == InstantResponse(true, reply.content, Elapsed(old(activeProcessing)[pid], now),
                                          AzureAi, Processed(pid, reply.tokensUsed, reply.model))
    {
      var rec := activeProcessing[pid];
      var elapsed := Elapsed(rec, now);
      stats := stats.(successfulRequests := stats.successfulRequests + 1,
                      totalTokensUsed := stats.totalTokensUsed + reply.tokensUsed);
      UpdateResponseTimeStats(elapsed);
      LogRequest(SuccessEvent(rec, reply, now));
      response := InstantResponse(true, reply.content, elapsed, AzureAi, Processed(pid, reply.tokensUsed, reply.model));
      Settle(pid, Resolved(reply.content));
    }

    /** `_process_with_azure` when the remote call raises, followed by the error handler of
        `get_instant_response` that the exception is re-raised to: the failure is counted and
        logged twice, the future fails, and the `finally` block drops the processing id and its
        fingerprint. */
    method FailDispatch(pid: string, error: string, now: int) returns (response: InstantResponse)
      requires Valid()
      requires pid in activeProcessing
      modifies this
      ensures Valid()
      ensures activeProcessing == old(activeProcessing) - {pid}
      ensures pendingRequests == old(pendingRequests) - {old(activeProcessing)[pid].fingerprint}
      ensures futures == old(futures)[pid := Failed(error)]
      ensures stats == old(stats).(failedRequests := old(stats).failedRequests + 2)
      ensures log == old(log) + FailureEvents(old(activeProcessing)[pid], hash(old(activeProcessing)[pid].request.prompt), error, now)
      ensures response == InstantResponse(false, ErrorText(error), Elapsed(old(activeProcessing)[pid], now),
                                          Error, ErrorInfo(error))
    {
      var rec := activeProcessing[pid];
      var events := FailureEvents(rec, hash(rec.request.prompt), error, now);
      stats := stats.(failedRequests := stats.failedRequests + 1);
      LogRequest(events[0]);
      stats := stats.(failedRequests := stats.failedRequests + 1);
      LogRequest(events[1]);
      response := InstantResponse(false, ErrorText(error), Elapsed(rec, now), Error, ErrorInfo(error));
      Settle(pid, Failed(error));
    }

    /** The end of a dispatch, by the outcome of the remote call. */
    method FinishDispatch(pid: string, outcome: Result<AzureReply, string>, now: int)
      returns (response: InstantResponse)
      requires Valid()
      requires pid in activeProcessing
      modifies this
      ensures Valid()
      ensures pid !in activeProcessing && old(activeProcessing)[pid].fingerprint !in pendingRequests
      ensures futures == old(futures)[pid := if outcome.Ok? then Resolved(outcome.value.content) else Failed(outcome.error)]
      ensures response.success <==> outcome.Ok?
      ensures stats.successfulRequests + stats.failedRequests
              == old(stats.successfulRequests + stats.failedRequests) + (if outcome.Ok? then 1 else 2)
      ensures activeProcessing == old(activeProcessing) - {pid}
      ensures pendingRequests == old(pendingRequests) - {old(activeProcessing)[pid].fingerprint}
      ensures outcome.Ok? ==>
        && stats == old(stats).(successfulRequests := old(stats).successfulRequests + 1,
                                totalTokensUsed := old(stats).totalTokensUsed + outcome.value.tokensUsed,
                                avgResponseTimes := Window.Push(old(stats).avgResponseTimes,
                                                                Elapsed(old(activeProcessing)[pid], now)))
        && log == old(log) + [SuccessEvent(old(activeProcessing)[pid], outcome.value, now)]
        && response == InstantResponse(true, outcome.value.content, Elapsed(old(activeProcessing)[pid], now),
                                       AzureAi, Processed(pid, outcome.value.tokensUsed, outcome.value.model))
      ensures outcome.Err? ==>
        && stats == old(stats).(failedRequests := old(stats).failedRequests + 2)
        && log == old(log) + FailureEvents(old(activeProcessing)[pid], hash(old(activeProcessing)[pid].request.prompt),
                                           outcome.error, now)
        && response == InstantResponse(false, ErrorText(outcome.error), Elapsed(old(activeProcessing)[pid], now),
                                       Error, ErrorInfo(outcome.error))
    {
      match outcome {
        case Ok(reply) => response := SucceedDispatch(pid, reply, now);
        case Err(e) => response := FailDispatch(pid, e, now);
      }
    }
  }
}
