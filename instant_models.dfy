/** The direct mode's request and response schemas: its own three-level priority (kept apart
    from the queued mode's), the response sources and the metadata each kind of answer carries.
    Response times are whole milliseconds. */
module InstantModels {
  import opened Wrappers

  /** Literal["instant", "fast", "normal"], default "normal". */
  datatype InstantPriority = Instant | Fast | Normal

  /** Literal["azure_ai", "deduplication", "fallback", "error", "batch_error"]. */
  datatype Source = AzureAi | Deduplication | Fallback | Error | BatchError

  datatype InstantAIRequest = InstantAIRequest(
    prompt: string,
    priority: InstantPriority,
    userId: Option<string>,
    maxResponseTime: Option<int>)

  /** Why a request was answered by the fallback instead of the remote model. */
  datatype FallbackReason = CapacityFull | ProcessingTimeout

  /** The metadata dictionary of each kind of answer (the load percentage text is not kept). */
  datatype Metadata =
    | Deduplicated
    | Processed(processingId: string, tokensUsed: nat, model: string)
    | ErrorInfo(error: string)
    | FallbackInfo(reason: FallbackReason, currentLoad: nat, maxConcurrent: int)
    | IndexedError(error: string, requestIndex: nat)

  datatype InstantResponse = InstantResponse(
    success: bool,
    result: string,
    responseTimeMs: int,
    source: Source,
    metadata: Metadata)

  /** The name of a priority as the request carries it. */
  function PriorityName(p: InstantPriority): string {
    match p
    case Instant => "instant"
    case Fast => "fast"
    case Normal => "normal"
  }
}
