/** The rules of the direct mode's routes: prompt validation in `ask_ai`, the size bounds and
    the per-item loop of `process_batch`, and the load band of `get_capacity`. Each request's
    answer from the dispatcher is a parameter; the clock is whole seconds for the batch id. */
module InstantRoutes {
  import opened Wrappers
  import opened Text
  import opened InstantModels
  import InstantManager

  const MaxPromptLength: nat := 4000
  const MaxBatchRequests: nat := 50

  const EmptyPrompt := "Prompt cannot be empty"
  const PromptTooLong := "Prompt too long (max 4000 characters)"
  const NoRequests := "No requests provided"
  const TooManyRequests := "Maximum 50 requests per batch"

  // ---------------------------------------------------------------- ask_ai

  /** The 400 detail `ask_ai` answers with, if any: a prompt that is all whitespace is empty,
      and only then is the length checked; 4000 characters are still accepted. */
  function PromptError(prompt: string): (r: Option<string>)
    ensures r == Some(EmptyPrompt) <==> IsBlank(prompt)
    ensures r == Some(PromptTooLong) <==> !IsBlank(prompt) && |prompt| > MaxPromptLength
    ensures r.None? <==> !IsBlank(prompt) && |prompt| <= MaxPromptLength
  {
    StripEmptyIffBlank(prompt);
    if Strip(prompt) == [] then Some(EmptyPrompt)
    else if |prompt| > MaxPromptLength then Some(PromptTooLong)
    else None
  }

  // ---------------------------------------------------------------- process_batch

  /** The 400 detail `process_batch` answers with, if any. */
  function BatchError(count: nat): (r: Option<string>)
    ensures r == Some(NoRequests) <==> count == 0
    ensures r == Some(TooManyRequests) <==> count > MaxBatchRequests
    ensures r.None? <==> 1 <= count <= MaxBatchRequests
  {
    if count == 0 then Some(NoRequests)
    else if count > MaxBatchRequests then Some(TooManyRequests)
    else None
  }

  /** `batch_request.batch_id or f"batch_{int(time.time())}"`: a missing or empty id takes the
      default built from the clock. */
  function BatchIdFor(given: Option<string>, nowSeconds: int): (id: string)
    ensures given.Some? && given.value != [] ==> id == given.value
    ensures given.None? || given == Some([]) ==> id == "batch_" + IntToString(nowSeconds)
  {
    if given.Some? && given.value != [] then given.value else "batch_" + IntToString(nowSeconds)
  }

  /** The entry the loop puts in place of a request whose processing raised `e`. */
  function ItemError(e: string): (r: InstantResponse)
    ensures !r.success && r.source == Error && r.metadata == ErrorInfo(e)
    ensures r.responseTimeMs == InstantManager.BatchErrorTimeMs
  {
    InstantResponse(false, InstantManager.ErrorText(e), InstantManager.BatchErrorTimeMs, Error, ErrorInfo(e))
  }

  /** The response for one request: the dispatcher's answer, or the entry for its exception. */
  function ItemResult(outcome: Result<InstantResponse, string>): InstantResponse {
    match outcome
    case Ok(response) => response
    case Err(e) => ItemError(e)
  }

  /** `sum(1 for r in results if r.success)`. */
  function CountSuccess(results: seq<InstantResponse>): nat {
    if results == [] then 0
    else CountSuccess(results[..|results| - 1]) + (if results[|results| - 1].success then 1 else 0)
  }

  /** No more results succeed than there are, and all of them do exactly when the count is the
      length. */
  lemma {:induction false} CountSuccessBounds(results: seq<InstantResponse>)
    ensures CountSuccess(results) <= |results|
    ensures CountSuccess(results) == |results| <==> forall i :: 0 <= i < |results| ==> results[i].success
  {
    if results != [] {
      var init := results[..|results| - 1];
      CountSuccessBounds(init);
      if CountSuccess(results) == |results| {
        forall i | 0 <= i < |results| ensures results[i].success {
          if i < |results| - 1 {
            assert init[i] == results[i];
          }
        }
      }
      if forall i :: 0 <= i < |results| ==> results[i].success {
        assert forall i :: 0 <= i < |init| ==> init[i].success by {
          forall i | 0 <= i < |init| ensures init[i].success {
            assert init[i] == results[i];
          }
        }
      }
    }
  }

  /** The `optimizations_applied` list. */
  function Optimizations(requestCount: nat, successCount: nat, resultCount: nat): seq<string> {
    ["concurrent_processing_" + IntToString(requestCount) + "_requests",
     "success_rate_" + IntToString(successCount) + "/" + IntToString(resultCount),
     "mysql_persistence",
     "request_deduplication"]
  }

  /** The `BatchResponse` without its float timings. */
  datatype BatchResponse = BatchResponse(
    success: bool,
    batchId: string,
    totalRequests: nat,
    results: seq<InstantResponse>,
    optimizationsApplied: seq<string>)

  /** The `sum(1 for r in results if r.success)` of `process_batch`. */
  method CountSuccessful(results: seq<InstantResponse>) returns (successful: nat)
    ensures successful == CountSuccess(results)
  {
    successful := 0;
    for i := 0 to |results|
      invariant successful == CountSuccess(results[..i])
    {
      assert results[..i + 1][..i] == results[..i];
      if results[i].success {
        successful := successful + 1;
      }
    }
    assert results[..|results|] == results;
  }

  /** `process_batch`: the size bounds, then one result per request in request order, where
      `outcomes[i]` is what handling request `i` produced. The prompts of the items are not
      validated. */
  method ProcessBatch(requests: seq<InstantAIRequest>, batchId: Option<string>, nowSeconds: int,
                      outcomes: seq<Result<InstantResponse, string>>)
    returns (r: Result<BatchResponse, string>)
    requires 1 <= |requests| <= MaxBatchRequests ==> |outcomes| == |requests|
    ensures r.Err? <==> BatchError(|requests|).Some?
    ensures r.Err? ==> BatchError(|requests|) == Some(r.error)
    ensures r.Ok? ==> r.value.success && r.value.batchId == BatchIdFor(batchId, nowSeconds)
    ensures r.Ok? ==> r.value.totalRequests == |requests| && |r.value.results| == |requests|
    ensures r.Ok? ==> forall i :: 0 <= i < |requests| ==> r.value.results[i] == ItemResult(outcomes[i])
    ensures r.Ok? ==>
      r.value.optimizationsApplied == Optimizations(|requests|, CountSuccess(r.value.results), |requests|)
  {
    var error := BatchError(|requests|);
    if error.Some? {
      return Err(error.value);
    }
    var id := BatchIdFor(batchId, nowSeconds);
    var results: seq<InstantResponse> := [];
    for i := 0 to |requests|
      invariant |results| == i
      invariant forall j :: 0 <= j < i ==> results[j] == ItemResult(outcomes[j])
    {
      match outcomes[i] {
        case Ok(response) => results := results + [response];
        case Err(e) => results := results + [ItemError(e)];
      }
    }
    var successful := CountSuccessful(results);
    return Ok(BatchResponse(true, id, |requests|, results, Optimizations(|requests|, successful, |results|)));
  }

  // ---------------------------------------------------------------- get_capacity

  datatype LoadStatus = LowLoad | MediumLoad | HighLoad | AtCapacity

  function StatusName(s: LoadStatus): string {
    match s
    case LowLoad => "low_load"
    case MediumLoad => "medium_load"
    case HighLoad => "high_load"
    case AtCapacity => "at_capacity"
  }

  function Recommendation(s: LoadStatus): string {
    match s
    case LowLoad => "System ready for requests"
    case MediumLoad => "System handling requests well"
    case HighLoad => "System busy but accepting requests"
    case AtCapacity => "System at capacity, may have delays"
  }

  /** `(active_processing / max_concurrent) * 100` as an exact rational. */
  function LoadPercent(active: nat, maxConcurrent: int): real
    requires maxConcurrent != 0
  {
    (active as real) / (maxConcurrent as real) * 100.0
  }

  /** The load is under a positive `k` percent, in integers. */
  predicate Below(active: nat, maxConcurrent: int, k: nat) {
    maxConcurrent < 0 || active * 100 < k * maxConcurrent
  }

  /** The integer comparison decides the same as the rational one, for a positive or a
      negative number of slots. */
  lemma BelowIff(active: nat, maxConcurrent: int, k: nat)
    requires maxConcurrent != 0 && k > 0
    ensures Below(active, maxConcurrent, k) <==> LoadPercent(active, maxConcurrent) < k as real
  {
    var a := active as real;
    var m := maxConcurrent as real;
    var q := a / m;
    assert q * m == a;
    if maxConcurrent > 0 {
      if q * 100.0 < k as real {
        assert (k as real - q * 100.0) * m > 0.0;
      } else {
        assert (q * 100.0 - k as real) * m >= 0.0;
      }
    } else {
      assert a / -m >= 0.0;
      assert q == -(a / -m);
    }
  }

  /** `get_capacity`'s band: under 30, 70 and 90 percent are low, medium and high load, the rest
      is at capacity; with no slots the division raises. */
  function LoadBand(active: nat, maxConcurrent: int): (r: Result<LoadStatus, string>)
    ensures r.Err? <==> maxConcurrent == 0
    ensures r.Err? ==> r.error == InstantManager.DivisionByZero
    ensures r == Ok(LowLoad) <==> maxConcurrent != 0 && LoadPercent(active, maxConcurrent) < 30.0
    ensures r == Ok(MediumLoad) <==>
      maxConcurrent != 0 && 30.0 <= LoadPercent(active, maxConcurrent) < 70.0
    ensures r == Ok(HighLoad) <==>
      maxConcurrent != 0 && 70.0 <= LoadPercent(active, maxConcurrent) < 90.0
    ensures r == Ok(AtCapacity) <==> maxConcurrent != 0 && LoadPercent(active, maxConcurrent) >= 90.0
  {
    if maxConcurrent == 0 then Err(InstantManager.DivisionByZero)
    else
      BelowIff(active, maxConcurrent, 30);
      BelowIff(active, maxConcurrent, 70);
      BelowIff(active, maxConcurrent, 90);
      if Below(active, maxConcurrent, 30) then Ok(LowLoad)
      else if Below(active, maxConcurrent, 70) then Ok(MediumLoad)
      else if Below(active, maxConcurrent, 90) then Ok(HighLoad)
      else Ok(AtCapacity)
  }
}
