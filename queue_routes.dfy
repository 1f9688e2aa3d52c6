/** The small rules of the queued mode's HTTP routes: the flood test's bound and its loop of
    submissions, the reset of every table, the service status derived from queue health and the
    not-found answer of the status route. HTTP transport and serialisation are not modelled. */
module QueueRoutes {
  import opened Wrappers
  import opened QueueModels
  import opened QueueManager
  import Text

  /** The flood test accepts at most this many submissions. */
  const FloodLimit: int := 200

  const FloodLimitDetail := "Maximum 200 requests allowed for testing"
  const NotFoundDetail := "Request not found. It may have expired (requests are kept for 5 minutes after completion)."

  /** An HTTP error answer, by status code. */
  datatype RouteError = BadRequest(detail: string) | NotFound(detail: string)

  /** One line of the flood test's report. */
  datatype FloodResult = FloodResult(
    requestNumber: int,
    requestId: string,
    status: RequestState,
    queuePosition: Option<int>)

  datatype FloodReport = FloodReport(message: string, results: seq<FloodResult>, queueStats: QueueStats)

  /** The answer of the health route. */
  datatype HealthReport = HealthReport(
    status: string,
    queueHealth: QueueHealth,
    activeRequests: nat,
    queuedRequests: nat,
    message: string)

  function FloodPrompt(i: nat): string {
    "Test request #" + Text.NatToString(i + 1) + " - stress testing the queue system"
  }

  function FloodUser(i: nat): string {
    "test_user_" + Text.NatToString(i)
  }

  /** Submission `i` of the flood test. */
  function FloodRequest(i: nat, priority: QueuePriority): AIRequest {
    AIRequest(FloodPrompt(i), priority, Some(FloodUser(i)), Some(30))
  }

  /** The first `k` flood submissions as queue entries, in submission order. */
  function FloodEntries(ids: seq<string>, priority: QueuePriority, now: int, k: nat): (es: seq<QueueEntry>)
    requires k <= |ids|
    ensures |es| == k
    ensures forall j :: 0 <= j < k ==> es[j] == QueueEntry(ids[j], FloodRequest(j, priority), now)
  {
    if k == 0 then [] else FloodEntries(ids, priority, now, k - 1) + [QueueEntry(ids[k - 1], FloodRequest(k - 1, priority), now)]
  }

  /** How many of the first `i` flood submissions find room, starting from `startTotal`
      queued requests in a queue of capacity `maxQueueSize`: submission `j` does exactly when
      `startTotal + j < maxQueueSize`. None does in a full queue; otherwise the first
      `maxQueueSize - startTotal` do. */
  function Accepted(startTotal: nat, maxQueueSize: int, i: nat): (n: nat)
    ensures n <= i
    ensures startTotal >= maxQueueSize ==> n == 0
    ensures startTotal < maxQueueSize ==>
      n == if startTotal + i <= maxQueueSize then i else maxQueueSize - startTotal
  {
    if i == 0 then 0
    else Accepted(startTotal, maxQueueSize, i - 1) + (if startTotal + (i - 1) < maxQueueSize then 1 else 0)
  }

  /** Result `j` of a flood that started with `startTotal` queued: number j + 1, queued with its
      id and the position `base + j` exactly when the lanes still had room, and failed with an
      empty id and no position otherwise. */
  predicate FloodEntry(res: FloodResult, j: nat, startTotal: int, maxQueueSize: int, id: string, base: int) {
    && res.requestNumber == j + 1
    && (res.status == Queued <==> startTotal + j < maxQueueSize)
    && (res.status == Queued ==> res.requestId == id && res.queuePosition == Some(base + j))
    && (res.status != Queued ==> res.status == Failed && res.requestId == "" && res.queuePosition == None)
  }

  /** The lanes after the first `i` flood submissions into lane `priority`, starting from
      `before`: the accepted submissions joined that lane in order, the others are as they were. */
  ghost predicate FloodLanes(lanes: Lanes, before: Lanes, priority: QueuePriority, ids: seq<string>,
                             now: int, accepted: nat)
    requires accepted <= |ids|
  {
    && lanes.Get(priority) == before.Get(priority) + FloodEntries(ids, priority, now, accepted)
    && (forall q: QueuePriority :: q != priority ==> lanes.Get(q) == before.Get(q))
  }

  /** The position reported to the first flood submission that finds room. */
  function FloodBase(before: Lanes, priority: QueuePriority): int {
    1 + before.Ahead(priority) + |before.Get(priority)|
  }

  /** The lanes before flood submission `i` have room exactly when the queue had room for
      `i` more submissions at the start, and the next entry's position is then `FloodBase + i`. */
  lemma FloodRoom(lanes: Lanes, before: Lanes, priority: QueuePriority, ids: seq<string>, now: int,
                  maxQueueSize: int, i: nat)
    requires i < |ids|
    requires lanes.Total() == before.Total() + Accepted(before.Total(), maxQueueSize, i)
    requires FloodLanes(lanes, before, priority, ids, now, Accepted(before.Total(), maxQueueSize, i))
    ensures lanes.Total() < maxQueueSize <==> before.Total() + i < maxQueueSize
    ensures lanes.Total() < maxQueueSize ==>
      1 + lanes.Ahead(priority) + |lanes.Get(priority)| == FloodBase(before, priority) + i
  {
    AheadUnchanged(lanes, before, priority);
  }

  /** One flood submission, on the lanes alone: it joins lane `priority` exactly when the lanes
      have room, which is exactly when the count of earlier accepted submissions leaves room,
      and then at the position `FloodBase + i`. */
  lemma FloodLanesStep(lanes: Lanes, before: Lanes, priority: QueuePriority, ids: seq<string>, now: int,
                       maxQueueSize: int, i: nat)
    requires i < |ids|
    requires lanes.Total() == before.Total() + Accepted(before.Total(), maxQueueSize, i)
    requires FloodLanes(lanes, before, priority, ids, now, Accepted(before.Total(), maxQueueSize, i))
    ensures lanes.Total() < maxQueueSize <==> before.Total() + i < maxQueueSize
    ensures lanes.Total() < maxQueueSize ==>
      1 + lanes.Ahead(priority) + |lanes.Get(priority)| == FloodBase(before, priority) + i
    ensures var after := if lanes.Total() < maxQueueSize
                         then lanes.Append(priority, QueueEntry(ids[i], FloodRequest(i, priority), now))
                         else lanes;
      && after.Total() == before.Total() + Accepted(before.Total(), maxQueueSize, i + 1)
      && FloodLanes(after, before, priority, ids, now, Accepted(before.Total(), maxQueueSize, i + 1))
  {
    FloodRoom(lanes, before, priority, ids, now, maxQueueSize, i);
    var k := Accepted(before.Total(), maxQueueSize, i);
    if lanes.Total() < maxQueueSize {
      var e := QueueEntry(ids[i], FloodRequest(i, priority), now);
      assert k == i && Accepted(before.Total(), maxQueueSize, i + 1) == i + 1;
      var after := lanes.Append(priority, e);
      assert FloodEntries(ids, priority, now, i + 1) == FloodEntries(ids, priority, now, i) + [e];
      assert after.Get(priority) == before.Get(priority) + FloodEntries(ids, priority, now, i + 1);
    } else {
      assert Accepted(before.Total(), maxQueueSize, i + 1) == k;
    }
  }


  /** Submission `i` of a flood: the `add_request` call, its reported result appended to the
      earlier ones. */
  method FloodStep(m: AIQueueManager, i: nat, priority: QueuePriority, ids: seq<string>, now: int,
                   ghost before: Lanes, ghost total0: nat, earlier: seq<FloodResult>)
    returns (results: seq<FloodResult>)
    requires m.Valid() && i < |ids| && ids[i] != ""
    requires |earlier| == i
    requires forall j :: 0 <= j < i ==>
      FloodEntry(earlier[j], j, before.Total(), m.maxQueueSize, ids[j], FloodBase(before, priority))
    requires m.queues.Total() == before.Total() + Accepted(before.Total(), m.maxQueueSize, i)
    requires FloodLanes(m.queues, before, priority, ids, now, Accepted(before.Total(), m.maxQueueSize, i))
    requires m.totalRequests == total0 + Accepted(before.Total(), m.maxQueueSize, i)
    requires forall j :: i <= j < |ids| ==> !m.queues.HasId(ids[j])
    requires forall j :: i < j < |ids| ==> ids[j] != ids[i]
    modifies m
    ensures m.Valid()
    ensures m.queues.Total() == before.Total() + Accepted(before.Total(), m.maxQueueSize, i + 1)
    ensures FloodLanes(m.queues, before, priority, ids, now, Accepted(before.Total(), m.maxQueueSize, i + 1))
    ensures m.totalRequests == total0 + Accepted(before.Total(), m.maxQueueSize, i + 1)
    ensures forall j :: i < j < |ids| ==> !m.queues.HasId(ids[j])
    ensures |results| == i + 1
    ensures forall j :: 0 <= j < i + 1 ==>
      FloodEntry(results[j], j, before.Total(), m.maxQueueSize, ids[j], FloodBase(before, priority))
    ensures m.processing == old(m.processing) && m.completed == old(m.completed)
    ensures m.completedRequests == old(m.completedRequests) && m.failedRequests == old(m.failedRequests)
    ensures m.processingTimes == old(m.processingTimes)
  {
    var request := FloodRequest(i, priority);
    ghost var lanes := m.queues;
    FloodLanesStep(lanes, before, priority, ids, now, m.maxQueueSize, i);
    var response := m.AddRequest(request, ids[i], now);
    forall j | i < j < |ids| ensures !m.queues.HasId(ids[j]) {
      if m.queues != lanes {
        AppendHasId(lanes, priority, QueueEntry(ids[i], request, now), ids[j]);
      }
    }
    results := earlier + [FloodResult(i + 1, response.requestId, response.status, response.queuePosition)];
  }

  /** The loop of `flood_test`: `n` submissions in order, request i (from 0) getting the i-th
      fresh id and reported as number i + 1. */
  method FloodSubmit(m: AIQueueManager, n: nat, priority: QueuePriority, ids: seq<string>, now: int)
    returns (results: seq<FloodResult>)
    requires m.Valid() && n <= |ids|
    requires forall i :: 0 <= i < |ids| ==> ids[i] != "" && !m.queues.HasId(ids[i])
    requires forall i, j :: 0 <= i < j < |ids| ==> ids[i] != ids[j]
    modifies m
    ensures m.Valid()
    ensures |results| == n
    ensures forall i :: 0 <= i < n ==>
      FloodEntry(results[i], i, old(m.queues.Total()), m.maxQueueSize, ids[i], FloodBase(old(m.queues), priority))
    ensures m.queues.Total() == old(m.queues.Total()) + Accepted(old(m.queues.Total()), m.maxQueueSize, n)
    ensures FloodLanes(m.queues, old(m.queues), priority, ids, now, Accepted(old(m.queues.Total()), m.maxQueueSize, n))
    ensures m.totalRequests == old(m.totalRequests) + Accepted(old(m.queues.Total()), m.maxQueueSize, n)
    ensures m.processing == old(m.processing) && m.completed == old(m.completed)
    ensures m.completedRequests == old(m.completedRequests) && m.failedRequests == old(m.failedRequests)
    ensures m.processingTimes == old(m.processingTimes)
  {
    ghost var before := m.queues;
    ghost var total0 := m.totalRequests;
    ghost var startTotal := before.Total();
    ghost var accepted := 0;
    results := [];
    var i := 0;
    while i < n
      invariant 0 <= i <= n
      invariant accepted == Accepted(startTotal, m.maxQueueSize, i)
      invariant m.Valid()
      invariant m.queues.Total() == startTotal + accepted
      invariant FloodLanes(m.queues, before, priority, ids, now, accepted)
      invariant m.totalRequests == total0 + accepted
      invariant forall j :: i <= j < |ids| ==> !m.queues.HasId(ids[j])
      invariant |results| == i
      invariant forall j :: 0 <= j < i ==>
        FloodEntry(results[j], j, startTotal, m.maxQueueSize, ids[j], FloodBase(before, priority))
      invariant m.processing == old(m.processing) && m.completed == old(m.completed)
      invariant m.completedRequests == old(m.completedRequests) && m.failedRequests == old(m.failedRequests)
      invariant m.processingTimes == old(m.processingTimes)
    {
      results := FloodStep(m, i, priority, ids, now, before, total0, results);
      accepted := Accepted(startTotal, m.maxQueueSize, i + 1);
      i := i + 1;
    }
  }

  /** `flood_test`: more than 200 submissions is a bad request and changes nothing; otherwise
      it submits `numRequests` requests of the given priority in order (none when negative),
      request i (from 0) getting the i-th fresh id and reported as number i + 1. A submission is
      queued, at the tail of its lane, exactly when the lanes still have room for it. */
  method FloodTest(m: AIQueueManager, numRequests: int, priority: QueuePriority, ids: seq<string>, now: int)
    returns (r: Result<FloodReport, RouteError>)
    requires m.Valid()
    requires numRequests <= FloodLimit ==> numRequests <= |ids|
    requires forall i :: 0 <= i < |ids| ==> ids[i] != "" && !m.queues.HasId(ids[i])
    requires forall i, j :: 0 <= i < j < |ids| ==> ids[i] != ids[j]
    modifies m
    ensures m.Valid()
    ensures numRequests > FloodLimit ==>
      r == Err(BadRequest(FloodLimitDetail)) && m.queues == old(m.queues)
      && m.totalRequests == old(m.totalRequests)
    ensures numRequests <= FloodLimit ==>
      var n: nat := if numRequests < 0 then 0 else numRequests;
      var accepted := Accepted(old(m.queues.Total()), m.maxQueueSize, n);
      && r.Ok? && |r.value.results| == n
      && (forall i :: 0 <= i < n ==>
            FloodEntry(r.value.results[i], i, old(m.queues.Total()), m.maxQueueSize, ids[i],
                       FloodBase(old(m.queues), priority)))
      && FloodLanes(m.queues, old(m.queues), priority, ids, now, accepted)
      && m.queues.Total() == old(m.queues.Total()) + accepted
      && m.totalRequests == old(m.totalRequests) + accepted
      && r.value.message == "Submitted " + Text.IntToString(numRequests) + " test requests"
      && r.value.queueStats == m.GetQueueStats()
    ensures m.processing == old(m.processing) && m.completed == old(m.completed)
    ensures m.completedRequests == old(m.completedRequests) && m.failedRequests == old(m.failedRequests)
    ensures m.processingTimes == old(m.processingTimes)
  {
    if numRequests > FloodLimit {
      return Err(BadRequest(FloodLimitDetail));
    }
    var n: nat := if numRequests < 0 then 0 else numRequests;
    var results := FloodSubmit(m, n, priority, ids, now);
    var message := "Submitted " + Text.IntToString(numRequests) + " test requests";
    r := Ok(FloodReport(message, results, m.GetQueueStats()));
  }

  /** `clear_queue`: every lane, the processing table and the completed table become empty;
      the cumulative counters and the duration window are left as they were. */
  method ClearQueue(m: AIQueueManager) returns (stats: QueueStats)
    requires m.Valid()
    modifies m
    ensures m.Valid()
    ensures m.queues == EmptyLanes && m.processing == map[] && m.completed == map[]
    ensures m.totalRequests == old(m.totalRequests) && m.completedRequests == old(m.completedRequests)
    ensures m.failedRequests == old(m.failedRequests) && m.processingTimes == old(m.processingTimes)
    ensures stats == m.GetQueueStats()
    ensures stats.totalQueued == 0 && stats.totalProcessing == 0
    ensures m.maxQueueSize >= 0 ==> stats.queueHealth == Healthy
  {
    m.queues := EmptyLanes;
    m.processing := map[];
    m.completed := map[];
    stats := m.GetQueueStats();
  }

  /** The health route's service status: degraded exactly when the queue is overloaded. */
  function ServiceStatus(h: QueueHealth): (s: string)
    ensures s == "degraded" <==> h == Overloaded
    ensures s == "healthy" <==> h != Overloaded
  {
    if h != Overloaded then "healthy" else "degraded"
  }

  function HealthCheck(stats: QueueStats): (r: HealthReport)
    ensures r.status == "degraded" <==> stats.queueHealth == Overloaded
    ensures r.activeRequests == stats.totalProcessing && r.queuedRequests == stats.totalQueued
  {
    HealthReport(ServiceStatus(stats.queueHealth), stats.queueHealth, stats.totalProcessing,
                 stats.totalQueued, "AI queue system is operational")
  }

  /** The status route: an unknown or expired id is answered with not-found. */
  function StatusRoute(lookup: Option<AIRequestStatus>): (r: Result<AIRequestStatus, RouteError>)
    ensures r.Err? <==> lookup.None?
    ensures r.Err? ==> r.error == NotFound(NotFoundDetail)
    ensures r.Ok? ==> r.value == lookup.value
  {
    match lookup
    case None => Err(NotFound(NotFoundDetail))
    case Some(s) => Ok(s)
  }
}
