/** `AzureAIService`: the prompt rewriting and settings chosen by priority, and the discipline of
    its usage counters in `process_prompt`. The priority is the caller's string, so any value
    other than "instant" and "fast" takes the normal settings. The HTTP exchange is an outcome
    parameter; times are whole milliseconds. */
module AzureService {
  import opened Wrappers
  import opened Text

  const DefaultDeployment := "gpt-35-turbo"
  const BriefPrefix := "Brief answer to: "
  const ConcisePrefix := "Concise response to: "
  const Ellipsis := "..."
  /** Prompts longer than this are cut for the instant priority. */
  const InstantCut: nat := 100
  /** Prompts longer than this are cut for the fast priority. */
  const FastCut: nat := 300

  const BriefSystemPrompt := "You are a helpful assistant. Provide very brief, direct answers. Be concise and to the point. Maximum 1-2 sentences."
  const ConciseSystemPrompt := "You are a helpful assistant. Provide clear, concise responses. Be direct but informative."
  const ComprehensiveSystemPrompt := "You are a helpful assistant. Provide comprehensive, accurate, and helpful responses."

  datatype ServiceParams = ServiceParams(maxTokens: nat, timeoutSeconds: nat)

  /** The settings `process_prompt` picks: instant 100 tokens in 2 s, fast 250 in 5 s, and the
      normal 500 in 10 s for every other priority. */
  function ParamsFor(priority: string): (p: ServiceParams)
    ensures priority == "instant" ==> p == ServiceParams(100, 2)
    ensures priority == "fast" ==> p == ServiceParams(250, 5)
    ensures priority != "instant" && priority != "fast" ==> p == ServiceParams(500, 10)
  {
    if priority == "instant" then ServiceParams(100, 2)
    else if priority == "fast" then ServiceParams(250, 5)
    else ServiceParams(500, 10)
  }

  /** `_get_system_prompt`: brief for instant, concise for fast, comprehensive otherwise. */
  function SystemPrompt(priority: string): (s: string)
    ensures s == BriefSystemPrompt <==> priority == "instant"
    ensures s == ConciseSystemPrompt <==> priority == "fast"
    ensures s == ComprehensiveSystemPrompt <==> priority != "instant" && priority != "fast"
  {
    if priority == "instant" then BriefSystemPrompt
    else if priority == "fast" then ConciseSystemPrompt
    else ComprehensiveSystemPrompt
  }

  /** Prefix, then the first `cut` characters of the prompt, then an ellipsis. */
  function Truncated(prefix: string, prompt: string, cut: nat): (r: string)
    requires cut <= |prompt|
    ensures |r| == |prefix| + cut + |Ellipsis|
    ensures StartsWith(r, prefix) && OccursAt(r, prompt[..cut], |prefix|)
    ensures r[|r| - |Ellipsis|..] == Ellipsis
  {
    var r := prefix + prompt[..cut] + Ellipsis;
    assert r[|prefix|..|prefix| + cut] == prompt[..cut];
    assert r[..|prefix|] == prefix;
    r
  }

  /** `_optimize_user_prompt`: a long prompt is cut to its first 100 characters for instant and
      300 for fast, behind a short instruction; anything else is sent as it is. */
  function OptimizeUserPrompt(prompt: string, priority: string): (r: string)
    ensures priority != "instant" && priority != "fast" ==> r == prompt
    ensures priority == "instant" && |prompt| <= InstantCut ==> r == prompt
    ensures priority == "instant" && |prompt| > InstantCut ==>
      r == Truncated(BriefPrefix, prompt, InstantCut)
    ensures priority == "fast" && |prompt| <= FastCut ==> r == prompt
    ensures priority == "fast" && |prompt| > FastCut ==>
      r == Truncated(ConcisePrefix, prompt, FastCut)
  {
    if priority == "instant" && |prompt| > InstantCut then Truncated(BriefPrefix, prompt, InstantCut)
    else if priority == "fast" && |prompt| > FastCut then Truncated(ConcisePrefix, prompt, FastCut)
    else prompt
  }

  /** A more urgent priority gets strictly fewer tokens and a strictly shorter timeout. */
  lemma ParamsMonotone()
    ensures ParamsFor("instant").maxTokens < ParamsFor("fast").maxTokens < ParamsFor("normal").maxTokens
    ensures ParamsFor("instant").timeoutSeconds < ParamsFor("fast").timeoutSeconds < ParamsFor("normal").timeoutSeconds
  {
  }

  const MissingCredentials := "Azure OpenAI credentials not found in environment variables"

  datatype ServiceConfig = ServiceConfig(endpoint: string, apiKey: string, deployment: string)

  /** `__init__`'s configuration: a missing or empty endpoint or key is an error, and the
      deployment defaults to gpt-35-turbo. */
  function Configure(endpoint: Option<string>, apiKey: Option<string>, deployment: Option<string>)
    : (r: Result<ServiceConfig, string>)
    ensures r.Err? <==> endpoint.None? || endpoint == Some("") || apiKey.None? || apiKey == Some("")
    ensures r.Err? ==> r.error == MissingCredentials
    ensures r.Ok? ==> r.value.endpoint == endpoint.value && r.value.apiKey == apiKey.value
    ensures r.Ok? ==> r.value.deployment == if deployment.Some? then deployment.value else DefaultDeployment
  {
    if endpoint.None? || endpoint.value == [] || apiKey.None? || apiKey.value == [] then Err(MissingCredentials)
    else Ok(ServiceConfig(endpoint.value, apiKey.value, if deployment.Some? then deployment.value else DefaultDeployment))
  }

  /** The parts of a 200 answer `process_prompt` reads: the first choice's content and the
      total token count. */
  datatype ParsedBody = ParsedBody(rawContent: string, totalTokens: nat)

  /** How the HTTP exchange ended: an answer after `elapsedMs` (with its status, its text and
      its body, or the text of the error reading the body raised), the client timeout, or
      another exception. */
  datatype HttpOutcome =
    | Responded(elapsedMs: int, status: int, text: string, body: Result<ParsedBody, string>)
    | TimedOut(elapsedMs: int)
    | Raised(elapsedMs: int, error: string)

  const TimeoutExceeded := "timeout_exceeded"
  const AzureApiError := "azure_api_error"
  const TimeoutCode := "timeout"
  const ExceptionCode := "exception"

  /** The dictionary `process_prompt` returns. The message of a too-slow answer formats floats
      and is not kept. */
  datatype PromptResult =
    | Succeeded(result: string, processingTimeMs: int, tokensUsed: nat, model: string)
    | Failed(error: string, processingTimeMs: int, message: Option<string>)

  /** The failures `process_prompt` counts: those that reach an exception handler. */
  predicate CountedFailure(r: PromptResult) {
    r.Failed? && (r.error == TimeoutCode || r.error == ExceptionCode)
  }

  /** What `process_prompt` returns for an outcome: too slow, then a non-200 status, are
      uncounted failures; an unreadable body, a timeout and any other exception are counted
      failures; otherwise the stripped content with its tokens. */
  function PromptOutcome(outcome: HttpOutcome, maxResponseMs: int, deployment: string): (r: PromptResult)
    ensures r.Succeeded? <==>
      outcome.Responded? && outcome.elapsedMs <= maxResponseMs && outcome.status == 200 && outcome.body.Ok?
    ensures r.Succeeded? ==>
      r.result == Strip(outcome.body.value.rawContent) && r.tokensUsed == outcome.body.value.totalTokens
      && r.model == deployment
    ensures r.Failed? && r.error == TimeoutExceeded <==> outcome.Responded? && outcome.elapsedMs > maxResponseMs
    ensures r.Failed? && r.error == AzureApiError <==>
      outcome.Responded? && outcome.elapsedMs <= maxResponseMs && outcome.status != 200
    ensures r.Failed? && r.error == AzureApiError ==>
      r.message == Some("Azure API error " + IntToString(outcome.status) + ": " + outcome.text)
    ensures CountedFailure(r) <==>
      (outcome.TimedOut? || outcome.Raised?
       || (outcome.Responded? && outcome.elapsedMs <= maxResponseMs && outcome.status == 200 && outcome.body.Err?))
    ensures r.processingTimeMs == outcome.elapsedMs
  {
    match outcome
    case Responded(elapsed, status, text, body) =>
      if elapsed > maxResponseMs then Failed(TimeoutExceeded, elapsed, None)
      else if status != 200 then
        Failed(AzureApiError, elapsed, Some("Azure API error " + IntToString(status) + ": " + text))
      else
        (match body
         case Ok(b) => Succeeded(Strip(b.rawContent), elapsed, b.totalTokens, deployment)
         case Err(e) => Failed(ExceptionCode, elapsed, Some("Azure AI error: " + e)))
    case TimedOut(elapsed) => Failed(TimeoutCode, elapsed, Some("Azure AI request timed out"))
    case Raised(elapsed, e) => Failed(ExceptionCode, elapsed, Some("Azure AI error: " + e))
  }

  /** What the chat-completion call sends: the two messages and the settings. */
  datatype AzureRequest = AzureRequest(systemPrompt: string, userPrompt: string, params: ServiceParams)

  /** The service's usage counters. */
  datatype Usage = Usage(requests: nat, successful: nat, failed: nat, totalTokens: nat)

  /** Every success and every counted failure was a request. */
  predicate Balanced(u: Usage) {
    u.successful + u.failed <= u.requests
  }

  /** The counters after one `process_prompt` call that returned `r`: every call is a request,
      a success adds its tokens, and only the exception paths count a failure. */
  function Record(u: Usage, r: PromptResult): (v: Usage)
    ensures v.requests == u.requests + 1
    ensures v.successful == u.successful + (if r.Succeeded? then 1 else 0)
    ensures v.failed == u.failed + (if CountedFailure(r) then 1 else 0)
    ensures v.totalTokens == u.totalTokens + (if r.Succeeded? then r.tokensUsed else 0)
    ensures Balanced(u) ==> Balanced(v)
  {
    match r
    case Succeeded(_, _, tokens, _) =>
      Usage(u.requests + 1, u.successful + 1, u.failed, u.totalTokens + tokens)
    case Failed(_, _, _) =>
      Usage(u.requests + 1, u.successful, u.failed + (if CountedFailure(r) then 1 else 0), u.totalTokens)
  }

  /** A too-slow answer and a non-200 answer count the request and nothing else. */
  lemma UncountedReturns(u: Usage, outcome: HttpOutcome, maxResponseMs: int, deployment: string)
    requires outcome.Responded? && (outcome.elapsedMs > maxResponseMs || outcome.status != 200)
    ensures Record(u, PromptOutcome(outcome, maxResponseMs, deployment)) == u.(requests := u.requests + 1)
  {
  }

  class AzureAIService {
    const config: ServiceConfig
    var usage: Usage

    ghost predicate Valid()
      reads this
    {
      Balanced(usage)
    }

    constructor(config: ServiceConfig)
      ensures Valid()
      ensures this.config == config && usage == Usage(0, 0, 0, 0)
    {
      this.config := config;
      usage := Usage(0, 0, 0, 0);
    }

    /** `process_prompt` on a transport outcome: the request it sends (the system prompt, the
        rewritten user prompt and the settings of the priority), and the classified result,
        recorded in the counters. */
    method ProcessPrompt(prompt: string, maxResponseMs: int, priority: string, outcome: HttpOutcome)
      returns (sent: AzureRequest, r: PromptResult)
      requires Valid()
      modifies this
      ensures Valid()
      ensures sent == AzureRequest(SystemPrompt(priority), OptimizeUserPrompt(prompt, priority), ParamsFor(priority))
      ensures r == PromptOutcome(outcome, maxResponseMs, config.deployment)
      ensures usage == Record(old(usage), r)
    {
      sent := AzureRequest(SystemPrompt(priority), OptimizeUserPrompt(prompt, priority), ParamsFor(priority));
      r := PromptOutcome(outcome, maxResponseMs, config.deployment);
      usage := Record(usage, r);
    }
  }
}
