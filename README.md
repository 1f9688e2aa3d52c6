# AI request admission: queued scheduler and direct dispatcher

This project is a Dafny model of the two in-memory admission engines of a small AI-request
service, together with the pure rules around them.

- **Queued mode** (`QueueModels`, `QueueManager`, `QueueRoutes`).
  - `AIQueueManager` keeps three FIFO lanes (high, normal, low), a processing table, a table of
    completed records that expire after five minutes, cumulative counters, and a rolling window
    of the latest 100 processing durations.
  - It is a class whose fields the methods update in place. Dequeuing follows strict priority.
    A worker tick is one atomic step: capacity check, pop, entry into the processing table, then
    expiry. The end of processing is a separate `Finish` step.
  - The routes add the bounded flood test, the reset of every table, the health status and the
    not-found answer.
- **Direct mode** (`InstantModels`, `InstantManager`, `AzureService`, `InstantRoutes`).
  - `InstantAIManager` first deduplicates on a fingerprint of prompt and user. Otherwise it
    dispatches to the remote model while a concurrency slot is free, and otherwise it falls back.
  - The remote call is split into `BeginDispatch` and `FinishDispatch`. On every path the finish
    removes the processing id and the fingerprint it registered.
  - A deduplication future is a map from processing id to `Unresolved`, `Resolved(content)` or
    `Failed(message)`. The stats sink is the `log` sequence of events the dispatcher sends it.
  - Pure helpers: endpoint cleaning, the priority tables, prompt rewriting and the response-time
    window.
  - `AzureAIService` shows how `process_prompt` classifies a transport outcome and updates its
    counters.
  - The routes add prompt validation, the batch bounds and loop, and the load bands.
- **Shared helpers.** `Text` holds Python string built-ins: `strip`, `rstrip(c)`, `in`,
  `split(sep)[0]`, `replace` and `str(n)`. `Window` is the bounded duration window.

Modelling conventions:
- Time, identifiers (`uuid4`), Python's `hash()` and the outcome of each remote or simulated
  call are parameters.
- Queued-mode times are whole seconds. Direct-mode times are whole milliseconds, so the batch
  error time of 0.001 s is 1 ms.
- Python's float comparisons are stated over `real` in the contracts and computed with
  integers in the bodies. For health this is 0.8 and 0.5 of the queue size; for load, the 30,
  70 and 90 percent bands and the 100 percent fallback test. Lemmas show the two forms agree.

Behaviour of the code that the model keeps:
- A failed remote call is counted twice and logged twice. The dispatcher counts and logs it
  once (`instant_manager.py:247-259`). It then re-raises the exception to
  `get_instant_response`, whose handler counts and logs it again (`:166-180`).
- A waiter whose shared future failed does not see the failure. It falls through to normal
  admission (`:156-157`).
- The fallback reports `processing_timeout` only when `max_concurrent` is negative. With
  `max_concurrent == 0` the load percentage divides by zero. The error handler then answers
  with an `error` response and counts a failure (`Declined`, `Decline`).
- The health bands use strict comparisons: above 80% is overloaded, above 50% is busy.
- Batch items of `process_batch` skip the prompt checks of `ask_ai`.
- `getattr(request, 'user_id', 'anonymous')` never uses its default, because the request model
  always has the attribute. An absent user id therefore enters the fingerprint as `None`. The
  key joins prompt and user with a colon, so different requests can share a fingerprint.
- `batch_id or ...` replaces an empty batch id as well as a missing one.
- `_clean_endpoint` strips trailing slashes before it cuts a deployments path, so its result can
  end in a slash, as for `x.openai.azure.com//openai/deployments/abc`. Such a result is not
  stable under a second cleaning (`CleanEndpointIdempotent`).

## Model

| member | source | states |
|---|---|---|
| Text.LStrip | src/ai_instant/routes.py:34 | the result is a suffix of the input that starts with a non-space, and everything removed is whitespace |
| Text.RStrip | src/ai_instant/routes.py:34 | the result is a prefix of the input that ends with a non-space, and everything removed is whitespace |
| Text.Strip | src/ai_instant/routes.py:34 | `str.strip()`: the right strip of the left strip, so the properties of `LStrip` and `RStrip` apply |
| Text.BlankConcat | src/ai_instant/routes.py:34 | proof helper: two all-whitespace strings joined are all whitespace |
| Text.StripEmptyIffBlank | src/ai_instant/routes.py:34-35 | `prompt.strip()` is empty exactly when every character is whitespace |
| Text.RStripChar | src/ai_instant/instant_manager.py:77 | `rstrip('/')` removes exactly the trailing run of the character: the result is a prefix that does not end in it |
| Text.Find | src/ai_instant/instant_manager.py:86-87 | the index found is an occurrence and no earlier one exists; None means there is no occurrence at all |
| Text.FindContains | src/ai_instant/instant_manager.py:86 | find succeeds exactly when the pattern is `in` the string |
| Text.BeforeFirst | src/ai_instant/instant_manager.py:87 | `split(sep)[0]` is a prefix followed by the separator when the separator occurs, and the whole string otherwise |
| Text.BeforeFirstExcludes | src/ai_instant/instant_manager.py:87-88 | the part before the first separator holds no separator |
| Text.ReplaceAllLeading | src/ai_instant/instant_manager.py:80-81 | replacing `http://` in a string beginning with it yields a string beginning with `https://` |
| Text.NatToString | src/ai_queue/routes.py:97-99 | `str(n)` is a non-empty string of decimal digits whose value is n, with no leading zero unless it is "0" |
| Text.IntToString | src/ai_queue/routes.py:111 | `str(i)`: a leading `-` exactly for a negative i, followed by the digits of its absolute value |
| Text.ReplaceAll | src/ai_instant/instant_manager.py:80-81 | `str.replace(pat, rep)`: every non-overlapping occurrence is replaced, scanning left to right |
| Window.Push | src/ai_instant/instant_manager.py:381-387 | the new time is last; below 100 entries it is appended, at 100 the oldest is dropped; the window never exceeds 100 |
| Window.PushAllKeepsLatest | src/ai_queue/queue_manager.py:36 | after any sequence of pushes the window holds exactly the latest min(100, total) durations, oldest first |
| Window.PushAll | src/ai_queue/queue_manager.py:253 | the window after a sequence of appends, one `Push` per duration in order |
| Window.Mean | src/ai_queue/queue_manager.py:126-129 | the average is non-negative and times the count gives the sum (0 for an empty window) |
| QueueManager.FirstIndex | src/ai_queue/queue_manager.py:161-164 | the index of the first entry with the id, with no earlier match; the lane length when none matches |
| QueueManager.FindInLane | src/ai_queue/queue_manager.py:109-111 | an entry is found exactly when the lane holds the id; it is the first match |
| QueueManager.Lanes.Append | src/ai_queue/queue_manager.py:73 | the request joins the tail of its own lane, the other lanes are untouched, and the total rises by one |
| QueueManager.Lanes.PopNext | src/ai_queue/queue_manager.py:202-207 | nothing is popped exactly when all lanes are empty; otherwise the head of some lane is removed while every higher lane is empty, and the total drops by one |
| QueueManager.Lanes.FindQueued | src/ai_queue/queue_manager.py:108-117 | a queued entry is found exactly when some lane holds the id |
| QueueManager.AppendHasId | src/ai_queue/queue_manager.py:73 | after an append, the ids in the lanes are the old ones plus the new entry's |
| QueueManager.FindQueuedInOrder | src/ai_queue/queue_manager.py:109-117 | the scan in lane order high, normal, low finds the id in the first lane that holds it |
| QueueManager.QueuePosition | src/ai_queue/queue_manager.py:148-166 | the reference position: 1 + the sizes of the lanes served before the request's own + the entries ahead of it in its lane |
| QueueManager.AheadUnchanged | src/ai_queue/queue_manager.py:153-158 | the count of the lanes served before a lane depends only on the other lanes |
| QueueManager.PositionOfAppended | src/ai_queue/queue_manager.py:148-166 | a newly queued request's position is 1 + the sizes of the strictly higher lanes + the entries already in its lane |
| QueueManager.ConcurrencyFactor | src/ai_queue/queue_manager.py:175 | `max(1, max_concurrent)`: at least 1 and at least max_concurrent, and equal to one of them |
| QueueManager.FloorDivReal | src/ai_queue/queue_manager.py:178 | proof helper: integer division is the floor of the exact quotient |
| QueueManager.CastMul | src/ai_queue/queue_manager.py:176 | proof helper: an integer product cast to real is the product of the casts |
| QueueManager.WaitAsQuotient | src/ai_queue/queue_manager.py:172-178 | position × (sum / count) / factor lies in [q, q+1) for the integer quotient q |
| QueueManager.AvgTime | src/ai_queue/queue_manager.py:170-172 | the average the estimate uses: the exact mean of the window, or 10 seconds while it is empty |
| QueueManager.WaitBounds | src/ai_queue/queue_manager.py:168-178 | the same bound for the window's average, with the 10-second default for an empty window |
| QueueManager.EstimateWait | src/ai_queue/queue_manager.py:168-178 | the estimate is the non-negative integer part of position × average ÷ max(1, max_concurrent) |
| QueueManager.Progress | src/ai_queue/queue_manager.py:99 | the progress is at most 100, ten points per second below 10 s and 100 from then on |
| QueueManager.Expired | src/ai_queue/queue_manager.py:273-276 | a record expires when it has a completion time earlier than now minus five minutes |
| QueueManager.Unexpired | src/ai_queue/queue_manager.py:271-280 | exactly the records not completed before now − 5 min remain, unchanged |
| QueueManager.LookupStatus | src/ai_queue/queue_manager.py:89-119 | the reference lookup: completed record, else the processing entry with its progress, else the queued entry, else nothing |
| QueueManager.LookupStatusPrecedence | src/ai_queue/queue_manager.py:89-119 | completed first, then processing (progress ≤ 100), then queued; none exactly when the id is nowhere |
| QueueManager.Health | src/ai_queue/queue_manager.py:131-137 | overloaded iff queued > 0.8·max, busy iff not that and queued > 0.5·max, healthy iff queued ≤ 0.5·max |
| QueueManager.HealthMonotone | src/ai_queue/queue_manager.py:131-137 | more queued requests never give a better health |
| QueueManager.FinalStatus | src/ai_queue/queue_manager.py:229-265 | completed with a result exactly on success; failed with an error otherwise; a duration unless processing raised; stamped now |
| QueueManager.MockResult | src/ai_queue/queue_manager.py:230 | the mock processing result quoting the prompt |
| QueueManager.RecordDuration | src/ai_queue/queue_manager.py:253 | a measured duration joins the window as its newest entry; a raised error leaves the window unchanged; the bound of 100 is kept |
| QueueManager.MapRemoveSize | src/ai_queue/queue_manager.py:269 | proof helper: popping an id never enlarges the processing table |
| QueueManager.FinalKeepsCompletedKeyed | src/ai_queue/queue_manager.py:252 | storing a final record keeps every completed record keyed by its id, terminal and time-stamped |
| QueueManager.AIQueueManager.constructor | src/ai_queue/queue_manager.py:14-37 | empty lanes and tables, zero counters, empty window |
| QueueManager.AIQueueManager.CalculateQueuePosition | src/ai_queue/queue_manager.py:148-166 | the counting loop returns 1 + the sizes of higher lanes + the entries ahead of the id in its own lane |
| QueueManager.AIQueueManager.AddRequest | src/ai_queue/queue_manager.py:48-87 | a full queue rejects with an empty id and changes nothing; otherwise the request joins its own lane's tail, total_requests rises by 1, and the acknowledgement carries its position and wait estimate |
| QueueManager.AIQueueManager.GetRequestStatus | src/ai_queue/queue_manager.py:89-119 | the answer of the completed, then processing, then lane lookup |
| QueueManager.AIQueueManager.GetQueueStats | src/ai_queue/queue_manager.py:121-146 | queued total, processing count, both counters, the exact mean of the window, and overloaded exactly above 0.8 of the queue size |
| QueueManager.AIQueueManager.GetNextRequest | src/ai_queue/queue_manager.py:202-207 | the loop over high, normal, low pops as the strict-priority pop does; nothing else changes |
| QueueManager.AIQueueManager.CleanupCompleted | src/ai_queue/queue_manager.py:271-280 | the completed table becomes exactly its unexpired records; nothing else changes |
| QueueManager.AIQueueManager.Tick | src/ai_queue/queue_manager.py:185-193 | below the ceiling the next request is popped by strict priority and enters processing as started now; at the ceiling nothing is popped; then expiry |
| QueueManager.AIQueueManager.Finish | src/ai_queue/queue_manager.py:209-269 | the id leaves processing on every path; its final record is stored; exactly one of completed/failed rises; the duration joins the window unless processing raised |
| QueueRoutes.FloodRequest | src/ai_queue/routes.py:96-100 | submission i: prompt "Test request #i+1 ...", the given priority, user test_user_i |
| QueueRoutes.FloodEntries | src/ai_queue/routes.py:95-102 | the first k submissions as queue entries: entry j carries the j-th id and submission j |
| QueueRoutes.Accepted | src/ai_queue/routes.py:95-102 | the number of the first i submissions with room (those j with start + j < max), proved equal to 0 for a full queue and otherwise min(i, max − start) |
| QueueRoutes.FloodRoom | src/ai_queue/routes.py:102 | before submission i the lanes have room exactly when start + i < max, and the next position is then base + i |
| QueueRoutes.FloodLanesStep | src/ai_queue/routes.py:102 | one submission joins its lane exactly when the count accepted so far leaves room, at position base + i, and keeps the lanes' invariant |
| QueueRoutes.FloodStep | src/ai_queue/routes.py:96-108 | one submission: the `add_request` effect on the lanes and counters, and its result appended to the earlier ones |
| QueueRoutes.FloodSubmit | src/ai_queue/routes.py:95-108 | the loop: n results in order, numbered i+1, queued iff start + i < max (with the i-th id and position base + i), failed with empty id and no position otherwise; the accepted entries join the tail of their lane in order, the other lanes and the window are untouched |
| QueueRoutes.FloodTest | src/ai_queue/routes.py:79-114 | more than 200 is a bad request that changes nothing; otherwise the loop's results and lanes for max(n, 0) submissions, the "Submitted n test requests" message and the stats after the loop |
| QueueRoutes.ClearQueue | src/ai_queue/routes.py:117-132 | the lanes, processing and completed become empty; counters and the window are untouched; the reported stats show nothing queued or processing |
| QueueRoutes.ServiceStatus | src/ai_queue/routes.py:70 | degraded exactly when the queue is overloaded, healthy otherwise |
| QueueRoutes.HealthCheck | src/ai_queue/routes.py:62-75 | the report's status, active and queued counts come from the stats |
| QueueRoutes.StatusRoute | src/ai_queue/routes.py:43-51 | not-found with its detail exactly when the lookup found nothing, otherwise the status itself |
| InstantManager.Secure | src/ai_instant/instant_manager.py:79-83 | the result starts with https://; an https input is kept and a bare host is prefixed |
| InstantManager.BaseUrl | src/ai_instant/instant_manager.py:86-88 | the result is a prefix without the deployments marker: the text before its first occurrence, or everything |
| InstantManager.IsAzureHost | src/ai_instant/instant_manager.py:91-96 | the endpoint contains `.openai.azure.com` or `.cognitiveservices.azure.com` |
| InstantManager.CleanEndpoint | src/ai_instant/instant_manager.py:72-101 | empty raises; otherwise the cleaned URL is accepted exactly when it names an Azure host, with the invalid-format error otherwise |
| InstantManager.CleanEndpointShape | src/ai_instant/instant_manager.py:79-99 | an accepted endpoint is https, contains no deployments path and names an Azure host |
| InstantManager.CleanEndpointBareHost | src/ai_instant/instant_manager.py:77-83 | a bare Azure host name just gets the https prefix |
| InstantManager.CleanEndpointIdempotent | src/ai_instant/instant_manager.py:72-101 | cleaning an accepted endpoint again gives the same endpoint if and only if it does not end in a slash |
| InstantManager.Configure | src/ai_instant/instant_manager.py:36-48 | missing or empty credentials raise; otherwise the endpoint is the cleaned one, and the deployment defaults to gpt-4o-mini |
| InstantManager.PayloadParams | src/ai_instant/instant_manager.py:323-335 | instant 150 tokens/8 s, fast 300/15 s, normal 500/25 s |
| InstantManager.PayloadParamsMonotone | src/ai_instant/instant_manager.py:323-335 | a more urgent priority gets strictly fewer tokens and a strictly shorter timeout |
| InstantManager.FingerprintKeyParts | src/ai_instant/instant_manager.py:130 | the hashed key is the prompt, a colon, then the user id or "None" |
| InstantManager.FingerprintKeyAmbiguous | src/ai_instant/instant_manager.py:130-132 | a request without user shares its key with user "None", and a colon can move between prompt and user without changing the key |
| InstantManager.ChooseStrategy | src/ai_instant/instant_manager.py:132-164 | deduplicate iff the fingerprint is pending; else process iff a slot is free; else fall back, or divide by zero when there are no slots |
| InstantManager.RatioAtLeastOne | src/ai_instant/instant_manager.py:276-278 | with positive slots, load/max·100 ≥ 100 exactly when load ≥ max |
| InstantManager.RatioNegative | src/ai_instant/instant_manager.py:276 | with negative slots the load ratio is never positive |
| InstantManager.FallbackReasonFor | src/ai_instant/instant_manager.py:274-283 | capacity_full exactly when load/max·100 ≥ 100 |
| InstantManager.FallbackIsCapacityFull | src/ai_instant/instant_manager.py:160-164 | whenever the fallback is reached with positive slots, its reason is capacity_full |
| InstantManager.FallbackMessage | src/ai_instant/instant_manager.py:278-283 | the fallback text: the slot counts for capacity_full, the retry advice for processing_timeout |
| InstantManager.ErrorText | src/ai_instant/instant_manager.py:184 | the error result text "Error processing request: " and the error |
| InstantManager.Declined | src/ai_instant/instant_manager.py:271-309 | the answer without a slot is never a success and carries the elapsed time; it is an error with the division-by-zero text exactly when max is 0, and otherwise a fallback carrying its reason, load and the matching fallback message |
| InstantManager.DeclinedLog | src/ai_instant/instant_manager.py:285-295 | the declined request's event: unsuccessful, 0 tokens, fallback under the fingerprint, or error under the prompt hash when max is 0 |
| InstantManager.BatchTooLarge | src/ai_instant/instant_manager.py:435-444 | one identical batch_size_exceeded error per request |
| InstantManager.ProcessBatchRequests | src/ai_instant/instant_manager.py:432-465 | over 50 requests, the identical errors; otherwise one result per request in order, with exceptions turned into error entries carrying their index |
| InstantManager.BeginKeepsConsistent | src/ai_instant/instant_manager.py:196-204 | taking a free slot under a fresh id keeps the tables consistent, including the ceiling |
| InstantManager.FinishKeepsConsistent | src/ai_instant/instant_manager.py:266-269 | settling the future and dropping the id and its fingerprint keeps the tables consistent |
| InstantManager.SuccessEvent | src/ai_instant/instant_manager.py:217-226 | the success event: successful, azure_ai, under the fingerprint, with the reply's tokens and model |
| InstantManager.FailureEvents | src/ai_instant/instant_manager.py:250-259 | a failed dispatch logs two events: azure_ai under the fingerprint, then error under the prompt hash, both with the error and 0 tokens |
| InstantManager.InstantAIManager.constructor | src/ai_instant/instant_manager.py:36-64 | empty tables, zero stats, an empty log |
| InstantManager.InstantAIManager.LogRequest | src/ai_instant/instant_manager.py:286-295 | one event is sent to the stats sink and nothing else changes |
| InstantManager.InstantAIManager.BeginDispatch | src/ai_instant/instant_manager.py:193-204 | the processing id, its fingerprint and an unresolved future are registered; the active count rises by one |
| InstantManager.InstantAIManager.Decline | src/ai_instant/instant_manager.py:271-309 | nothing is added to the tables; one declined event is logged; a failure is counted only when max is 0 |
| InstantManager.InstantAIManager.Admit | src/ai_instant/instant_manager.py:159-164 | dispatched exactly when a slot is free, with the dispatch's registrations; otherwise declined |
| InstantManager.InstantAIManager.Submit | src/ai_instant/instant_manager.py:121-164 | total_requests rises by 1; the request awaits the pending future, is dispatched, or is declined, as ChooseStrategy says |
| InstantManager.InstantAIManager.ResumeWaiter | src/ai_instant/instant_manager.py:132-164 | a resolved future answers from deduplication with the original content and logs a 0-token event; a failed one falls through to admission, with exactly the dispatch state or the declined response, log event and failure count that `Admit` gives |
| InstantManager.InstantAIManager.UpdateResponseTimeStats | src/ai_instant/instant_manager.py:381-387 | the window becomes Push(window, t); nothing else changes |
| InstantManager.InstantAIManager.Settle | src/ai_instant/instant_manager.py:261-269 | the future is settled, and the processing id and its fingerprint are removed |
| InstantManager.InstantAIManager.SucceedDispatch | src/ai_instant/instant_manager.py:207-243 | successful+1, tokens added, elapsed time pushed, success event logged, future resolved, id and fingerprint removed |
| InstantManager.InstantAIManager.FailDispatch | src/ai_instant/instant_manager.py:245-269 | failed rises by 2; both failure events are logged; the future fails; the id and fingerprint are removed; the error response is returned |
| InstantManager.InstantAIManager.FinishDispatch | src/ai_instant/instant_manager.py:191-269 | on every outcome the id and fingerprint are gone and the future is settled. On success: one more success, the tokens added, the elapsed time pushed to the window, one success event and the processed response. On failure: two more failures, the two failure events and the error response |
| AzureService.ParamsFor | src/ai_instant/azure_ai_service.py:59-70 | instant 100 tokens/2 s, fast 250/5 s, any other priority 500/10 s |
| AzureService.ParamsMonotone | src/ai_instant/azure_ai_service.py:33-38 | instant < fast < normal in both tokens and timeout |
| AzureService.SystemPrompt | src/ai_instant/azure_ai_service.py:163-170 | the brief text exactly for instant, the concise text exactly for fast, the comprehensive text otherwise |
| AzureService.Truncated | src/ai_instant/azure_ai_service.py:174-177 | prefix, then the first `cut` characters, then "..." |
| AzureService.OptimizeUserPrompt | src/ai_instant/azure_ai_service.py:172-179 | unchanged for other priorities and for short prompts; instant above 100 and fast above 300 characters are truncated behind their prefix |
| AzureService.Configure | src/ai_instant/azure_ai_service.py:15-23 | a missing or empty endpoint or key raises; the deployment defaults to gpt-35-turbo |
| AzureService.PromptOutcome | src/ai_instant/azure_ai_service.py:104-161 | success exactly for a timely 200 with a readable body (stripped content, tokens, deployment); timeout_exceeded before the status check; azure_api_error with its message for a non-200; counted failures exactly for the exception paths |
| AzureService.Record | src/ai_instant/azure_ai_service.py:55-155 | requests +1 on every call; successful and tokens only on success; failed only on the exception paths; successful + failed ≤ requests is kept |
| AzureService.UncountedReturns | src/ai_instant/azure_ai_service.py:107-123 | a too-slow or non-200 answer changes no counter but requests |
| AzureService.AzureAIService.constructor | src/ai_instant/azure_ai_service.py:40-47 | all counters start at zero |
| AzureService.AzureAIService.ProcessPrompt | src/ai_instant/azure_ai_service.py:49-161 | the request sent carries the priority's system prompt, the optimised user prompt and the priority's parameters; the result is the outcome's classification and the counters are updated by Record |
| InstantRoutes.PromptError | src/ai_instant/routes.py:34-38 | "Prompt cannot be empty" exactly when all whitespace; else "Prompt too long" exactly above 4000; accepted otherwise, so 4000 passes |
| InstantRoutes.BatchError | src/ai_instant/routes.py:61-65 | an empty batch and one above 50 are rejected with their details; 1..50 pass |
| InstantRoutes.BatchIdFor | src/ai_instant/routes.py:68 | a given non-empty id is kept; a missing or empty one becomes batch_<seconds> |
| InstantRoutes.ItemError | src/ai_instant/routes.py:83-91 | the entry for an exception: unsuccessful, source error, the error text, 1 ms |
| InstantRoutes.CountSuccess | src/ai_instant/routes.py:94 | the number of results whose success flag is set |
| InstantRoutes.Optimizations | src/ai_instant/routes.py:103-108 | the four optimisation labels, with the request count and the success ratio written in decimal |
| InstantRoutes.LoadPercent | src/ai_instant/routes.py:162 | active / max · 100 as a real number, for slots ≠ 0 |
| InstantRoutes.Recommendation | src/ai_instant/routes.py:164-175 | the recommendation text that goes with each load band |
| InstantRoutes.CountSuccessful | src/ai_instant/routes.py:94 | the loop counting the successful results gives exactly `CountSuccess` |
| InstantRoutes.CountSuccessBounds | src/ai_instant/routes.py:94 | the success count is at most the number of results, and equals it exactly when all succeed |
| InstantRoutes.ProcessBatch | src/ai_instant/routes.py:52-109 | the size errors; otherwise total_requests is the input length and one result per request in order (an exception becomes an error entry), with the success count in the optimizations list |
| InstantRoutes.BelowIff | src/ai_instant/routes.py:162-170 | for slots ≠ 0, the integer test agrees with active/max·100 < k |
| InstantRoutes.LoadBand | src/ai_instant/routes.py:155-175 | low below 30%, medium below 70%, high below 90%, at capacity otherwise; no slots raises division by zero |

## Left out

- HTTP and FastAPI routing, pydantic validation and serialisation, and the MySQL stats store
  (`persistent_stats.py`). The store is the `log` sequence of events.
- The aiohttp transport: sessions, connectors, `_get_session`, `close`, the request URL and
  headers, JSON parsing, and the transport error wrapping of `_call_azure_openai`. The remote
  call is an outcome parameter: a reply or an error text.
- asyncio concurrency: tasks, `gather`, semaphores, and the infinite worker loop with its
  sleeps. The `Tick`, `Submit`/`ResumeWaiter` and `FinishDispatch` steps are sequential, so
  interleavings other than these step boundaries are not modelled.
- Futures are a map of states. The requests waiting on them are driven by the caller as
  `ResumeWaiter` calls.
- The random processing time and success draw of the queued mode's `_process_request`. They
  are the `WorkOutcome` parameter of `Finish`.
- Floating point: temperatures, `_estimate_cost` and `total_cost`, success-rate and
  load-percentage strings, `avg_time_per_request`, `total_processing_time`, and `timeout_exceeded`
  messages with formatted seconds. Durations are whole seconds or milliseconds.
- `QueueManager.Progress`: mock progress is computed from whole seconds, not from fractional
  ones.
- `health_check` of both AI files, `get_stats` of both AI files, and the queued mode's submit
  route with its broken `except` path.
- The test, analytics and recent-requests routes of the direct mode.
- `AzureAIService.process_batch`: its concurrent `gather` is not modelled.
- The client timeouts of `AzureAIService` are modelled only as values in `ParamsFor`. That the
  transport raises when they pass is captured by the `TimedOut` outcome, not derived from them.
- The flood test's priority string is taken as an already valid `QueuePriority`. An invalid
  string fails pydantic validation, which is not modelled.
- `InstantManager.Declined`: the fallback metadata omits the `load_percentage` text and the
  retry suggestion.
- `AzureService.PromptOutcome`: when a 200 reply has no readable content, the exception result
  reuses the reply's elapsed time. The source measures the time again in its handler
  (`azure_ai_service.py:153-154`), so the two can differ by the parsing time.
