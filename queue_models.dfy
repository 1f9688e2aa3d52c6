/** The value types of the queued admission mode: the request as submitted, the enqueue
    acknowledgement, the status record and the statistics snapshot. Times are integer seconds. */
module QueueModels {
  import opened Wrappers

  /** The scheduler's own priority scale; it is not the direct mode's instant/fast/normal. */
  datatype QueuePriority = High | Normal | Low

  /** The status literal shared by acknowledgements and status records. */
  datatype RequestState = Queued | Processing | Completed | Failed | Timeout

  datatype QueueHealth = Healthy | Busy | Overloaded

  /** An inbound request; `timeout` defaults to 30 seconds and is never read by the scheduler. */
  datatype AIRequest = AIRequest(
    prompt: string,
    priority: QueuePriority,
    userId: Option<string>,
    timeout: Option<int>)

  /** What `add_request` returns: an id, a state and, when queued, a position and an estimate. */
  datatype AIRequestResponse = AIRequestResponse(
    requestId: string,
    status: RequestState,
    message: string,
    queuePosition: Option<int>,
    estimatedWaitTime: Option<int>,
    createdAt: int)

  /** What a status query returns; `processingTime` is in whole seconds. */
  datatype AIRequestStatus = AIRequestStatus(
    requestId: string,
    status: RequestState,
    progress: Option<int>,
    result: Option<string>,
    error: Option<string>,
    processingTime: Option<nat>,
    createdAt: int,
    completedAt: Option<int>)

  /** The on-demand statistics snapshot. */
  datatype QueueStats = QueueStats(
    totalQueued: nat,
    totalProcessing: nat,
    totalCompleted: nat,
    totalFailed: nat,
    avgProcessingTime: real,
    queueHealth: QueueHealth)
}
