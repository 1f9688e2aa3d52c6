/** The priority-queue scheduler (queued admission mode): three FIFO lanes, a processing table,
    a time-boxed table of completed records, cumulative counters and a rolling window of the
    latest 100 processing durations. Time is integer seconds. One worker tick (capacity check,
    strict-priority pop, insertion into the processing table, expiry of old records) is one
    atomic step; the end of a request's processing is a separate step. */
module QueueManager {
  import opened Wrappers
  import opened QueueModels
  import Window

  const DefaultMaxQueueSize: int := 100
  const DefaultMaxConcurrent: int := 5
  /** Completed records are kept for five minutes after completion. */
  const RetentionSeconds: int := 300
  /** The average processing time assumed while no duration has been observed. */
  const DefaultAvgSeconds: nat := 10

  const QueueFullMessage := "Queue is full. System is overloaded. Please try again later."
  const QueuedMessage := "Request added to queue successfully"
  const MockErrorMessage := "Mock AI service error occurred"

  /** A queued request: its id, the request and when it was enqueued. */
  datatype QueueEntry = QueueEntry(id: string, request: AIRequest, createdAt: int)

  /** A request being processed, with the time processing started. */
  datatype ProcessingRecord = ProcessingRecord(data: QueueEntry, startedAt: int)

  /** How the processing of one request ended, with its duration in seconds when it was measured. */
  datatype WorkOutcome = Succeeded(duration: nat) | FailedAfter(duration: nat) | Raised(error: string)

  /** Dispatch order: lower rank is served first. */
  function Rank(p: QueuePriority): nat {
    match p
    case High => 0
    case Normal => 1
    case Low => 2
  }

  /** The index of the first entry of `lane` whose id is `id`, or |lane| when there is none. */
  function FirstIndex(lane: seq<QueueEntry>, id: string): (k: nat)
    ensures k <= |lane|
    ensures forall j :: 0 <= j < k ==> lane[j].id != id
    ensures k < |lane| ==> lane[k].id == id
  {
    if lane == [] then 0
    else if lane[0].id == id then 0
    else 1 + FirstIndex(lane[1..], id)
  }

  predicate InLane(lane: seq<QueueEntry>, id: string) {
    exists i | 0 <= i < |lane| :: lane[i].id == id
  }

  /** The first entry of `lane` with id `id`. */
  function FindInLane(lane: seq<QueueEntry>, id: string): (r: Option<QueueEntry>)
    ensures r.Some? <==> InLane(lane, id)
    ensures r.Some? ==> r.value.id == id && r.value == lane[FirstIndex(lane, id)]
  {
    var k := FirstIndex(lane, id);
    if k < |lane| then Some(lane[k]) else None
  }

  /** The three lanes of the scheduler. */
  datatype Lanes = Lanes(high: seq<QueueEntry>, normal: seq<QueueEntry>, low: seq<QueueEntry>) {

    function Get(p: QueuePriority): seq<QueueEntry> {
      match p
      case High => high
      case Normal => normal
      case Low => low
    }

    /** The number of queued requests over all lanes. */
    function Total(): nat {
      |high| + |normal| + |low|
    }

    /** The number of requests in the lanes served before lane `p`. */
    function Ahead(p: QueuePriority): nat {
      match p
      case High => 0
      case Normal => |high|
      case Low => |high| + |normal|
    }

    /** Append `e` at the tail of lane `p`; the other lanes are untouched. */
    function Append(p: QueuePriority, e: QueueEntry): (r: Lanes)
      ensures r.Get(p) == Get(p) + [e]
      ensures forall q: QueuePriority :: q != p ==> r.Get(q) == Get(q)
      ensures r.Total() == Total() + 1
    {
      match p
      case High => this.(high := high + [e])
      case Normal => this.(normal := normal + [e])
      case Low => this.(low := low + [e])
    }

    /** Some lane holds an entry with id `id`. */
    predicate HasId(id: string) {
      InLane(high, id) || InLane(normal, id) || InLane(low, id)
    }

    /** `after` is these lanes with the head `e` of lane `p` removed, and every lane served
        before `p` is empty: the pop respects strict priority. */
    ghost predicate IsStrictPop(p: QueuePriority, e: QueueEntry, after: Lanes) {
      && Get(p) != []
      && e == Get(p)[0]
      && after.Get(p) == Get(p)[1..]
      && (forall q: QueuePriority :: q != p ==> after.Get(q) == Get(q))
      && (forall q: QueuePriority :: Rank(q) < Rank(p) ==> Get(q) == [])
    }

    /** Pop the head of the first non-empty lane in the order high, normal, low. */
    function PopNext(): (r: (Option<QueueEntry>, Lanes))
      ensures r.0.None? <==> Total() == 0
      ensures r.0.None? ==> r.1 == this
      ensures r.0.Some? ==> r.1.Total() == Total() - 1
      ensures r.0.Some? ==> exists p: QueuePriority :: IsStrictPop(p, r.0.value, r.1)
    {
      if high != [] then
        assert IsStrictPop(High, high[0], this.(high := high[1..]));
        (Some(high[0]), this.(high := high[1..]))
      else if normal != [] then
        assert IsStrictPop(Normal, normal[0], this.(normal := normal[1..]));
        (Some(normal[0]), this.(normal := normal[1..]))
      else if low != [] then
        assert IsStrictPop(Low, low[0], this.(low := low[1..]));
        (Some(low[0]), this.(low := low[1..]))
      else (None, this)
    }

    /** The queued entry with id `id`, looking in the lanes high, normal, low in that order. */
    function FindQueued(id: string): (r: Option<QueueEntry>)
      ensures r.Some? <==> HasId(id)
      ensures r.Some? ==> r.value.id == id
    {
      match FindInLane(high, id)
      case Some(e) => Some(e)
      case None =>
        match FindInLane(normal, id)
        case Some(e) => Some(e)
        case None => FindInLane(low, id)
    }
  }

  const EmptyLanes := Lanes([], [], [])

  /** After an append, the ids in the lanes are the earlier ones plus the appended entry's. */
  lemma AppendHasId(lanes: Lanes, p: QueuePriority, e: QueueEntry, id: string)
    ensures lanes.Append(p, e).HasId(id) <==> lanes.HasId(id) || e.id == id
  {
    var l := lanes.Get(p);
    var l' := lanes.Append(p, e).Get(p);
    assert l' == l + [e];
    if InLane(l', id) && e.id != id {
      var i :| 0 <= i < |l'| && l'[i].id == id;
      assert i < |l| && l[i].id == id;
    }
    if InLane(l, id) {
      var i :| 0 <= i < |l| && l[i].id == id;
      assert l'[i].id == id;
    }
    assert l'[|l|] == e;
  }

  /** The order in which the lanes are served and scanned. */
  const ServiceOrder: seq<QueuePriority> := [High, Normal, Low]

  /** When the lanes before `ServiceOrder[k]` have no entry with `id`, looking the id up in all
      lanes is looking it up in that lane. */
  lemma FindQueuedInOrder(lanes: Lanes, id: string, k: nat)
    requires k < |ServiceOrder|
    requires forall j :: 0 <= j < k ==> !InLane(lanes.Get(ServiceOrder[j]), id)
    requires InLane(lanes.Get(ServiceOrder[k]), id)
    ensures lanes.FindQueued(id) == FindInLane(lanes.Get(ServiceOrder[k]), id)
  {
    if k > 0 { assert !InLane(lanes.Get(ServiceOrder[0]), id); }
    if k > 1 { assert !InLane(lanes.Get(ServiceOrder[1]), id); }
  }

  /** `_calculate_queue_position`: one, plus the sizes of the lanes served before `p`, plus the
      entries ahead of the first entry with id `id` in lane `p` (the whole lane if none). */
  function QueuePosition(lanes: Lanes, p: QueuePriority, id: string): int {
    1 + lanes.Ahead(p) + FirstIndex(lanes.Get(p), id)
  }

  /** A request just appended with a fresh id is reported behind everything in the lanes served
      before its own and behind everything already in its own lane. */
  lemma PositionOfAppended(lanes: Lanes, p: QueuePriority, e: QueueEntry)
    requires !InLane(lanes.Get(p), e.id)
    ensures QueuePosition(lanes.Append(p, e), p, e.id) == 1 + lanes.Ahead(p) + |lanes.Get(p)|
    ensures QueuePosition(lanes.Append(p, e), p, e.id)
            == 1 + |lanes.Get(p)| + (if Rank(p) > 0 then |lanes.high| else 0)
                                  + (if Rank(p) > 1 then |lanes.normal| else 0)
  {
    var l := lanes.Get(p);
    var l' := lanes.Append(p, e).Get(p);
    assert l' == l + [e];
    assert l'[|l|] == e;
    assert lanes.Append(p, e).Ahead(p) == lanes.Ahead(p);
  }

  /** The number of requests ahead of lane `p` depends only on the other lanes. */
  lemma AheadUnchanged(a: Lanes, b: Lanes, p: QueuePriority)
    requires forall q: QueuePriority :: q != p ==> a.Get(q) == b.Get(q)
    ensures a.Ahead(p) == b.Ahead(p)
  {
    if p != High {
      assert a.Get(High) == b.Get(High);
    }
    if p == Low {
      assert a.Get(Normal) == b.Get(Normal);
    }
  }

  /** `max(1, max_concurrent)`. */
  function ConcurrencyFactor(maxConcurrent: int): (f: nat)
    ensures f >= 1 && f >= maxConcurrent
    ensures f == 1 || f == maxConcurrent
  {
    if maxConcurrent > 1 then maxConcurrent else 1
  }

  /** The average processing time used by the wait estimate: the window's mean, or 10 seconds. */
  function AvgTime(window: seq<nat>): real {
    if window == [] then DefaultAvgSeconds as real else Window.Mean(window)
  }

  lemma FloorDivReal(num: nat, den: nat)
    requires den > 0
    ensures ((num / den) as real) <= (num as real) / (den as real) < ((num / den + 1) as real)
  {
    var q, r := num / den, num % den;
    assert num == q * den + r && r < den;
    assert (num as real) == (q as real) * (den as real) + (r as real);
    assert (r as real) / (den as real) < 1.0;
    assert (num as real) / (den as real) == (q as real) + (r as real) / (den as real);
  }

  lemma CastMul(a: nat, b: nat)
    ensures ((a * b) as real) == (a as real) * (b as real)
  {
  }

  /** position * (total / count) / factor, as an exact rational, lies in [q, q + 1) for the
      integer quotient q of position * total by count * factor. */
  lemma WaitAsQuotient(position: nat, total: nat, count: nat, f: nat)
    requires count > 0 && f > 0
    ensures var q := (position * total) / (count * f);
      var exact := (position as real) * ((total as real) / (count as real)) / (f as real);
      (q as real) <= exact < ((q + 1) as real)
  {
    var p, s, n, fr := position as real, total as real, count as real, f as real;
    var avg := s / n;
    assert avg * n == s;
    var exact := p * avg / fr;
    assert exact * fr == p * avg;
    assert exact * (n * fr) == p * s;
    CastMul(position, total);
    CastMul(count, f);
    assert exact == ((position * total) as real) / ((count * f) as real);
    FloorDivReal(position * total, count * f);
  }

  /** The duration total and count the estimate divides: those of the window, or one default
      10-second duration. */
  function WaitTotal(window: seq<nat>): nat {
    if window == [] then DefaultAvgSeconds else Window.Sum(window)
  }

  function WaitCount(window: seq<nat>): nat {
    if window == [] then 1 else |window|
  }

  lemma WaitBounds(position: nat, window: seq<nat>, f: nat)
    requires f > 0
    ensures var q := (position * WaitTotal(window)) / (WaitCount(window) * f);
      (q as real) <= (position as real) * AvgTime(window) / (f as real) < ((q + 1) as real)
  {
    assert AvgTime(window) == (WaitTotal(window) as real) / (WaitCount(window) as real);
    WaitAsQuotient(position, WaitTotal(window), WaitCount(window), f);
  }

  /** `_estimate_wait_time`: the integer part of position times the average processing time,
      divided by max(1, max_concurrent). */
  function EstimateWait(position: nat, window: seq<nat>, maxConcurrent: int): (w: nat)
    ensures (w as real) <= (position as real) * AvgTime(window) / (ConcurrencyFactor(maxConcurrent) as real)
    ensures (position as real) * AvgTime(window) / (ConcurrencyFactor(maxConcurrent) as real) < ((w + 1) as real)
  {
    var f := ConcurrencyFactor(maxConcurrent);
    WaitBounds(position, window, f);
    (position * WaitTotal(window)) / (WaitCount(window) * f)
  }

  /** The reported progress of a request that has been processing for `elapsed` seconds:
      ten points per second, capped at 100. */
  function Progress(elapsed: int): (p: int)
    ensures p <= 100
    ensures elapsed >= 0 ==> p >= 0
    ensures elapsed >= 10 ==> p == 100
    ensures elapsed < 10 ==> p == 10 * elapsed
  {
    if elapsed * 10 < 100 then elapsed * 10 else 100
  }

  /** A completed record is expired once its completion time lies before now minus five minutes. */
  predicate Expired(s: AIRequestStatus, now: int) {
    s.completedAt.Some? && s.completedAt.value < now - RetentionSeconds
  }

  /** The completed records that survive an expiry pass at time `now`. */
  function Unexpired(completed: map<string, AIRequestStatus>, now: int): (r: map<string, AIRequestStatus>)
    ensures forall id :: id in r <==> id in completed && !Expired(completed[id], now)
    ensures forall id :: id in r ==> r[id] == completed[id]
  {
    map id | id in completed && !Expired(completed[id], now) :: completed[id]
  }

  /** The status of a request that is being processed. */
  function ProcessingStatus(id: string, rec: ProcessingRecord, now: int): AIRequestStatus {
    AIRequestStatus(id, Processing, Some(Progress(now - rec.startedAt)), None, None, None, rec.data.createdAt, None)
  }

  /** The status of a request that is still queued. */
  function QueuedStatus(e: QueueEntry): AIRequestStatus {
    AIRequestStatus(e.id, Queued, None, None, None, None, e.createdAt, None)
  }

  /** `get_request_status`: completed records first, then the processing table, then the lanes. */
  function LookupStatus(completed: map<string, AIRequestStatus>, processing: map<string, ProcessingRecord>,
                        lanes: Lanes, id: string, now: int): Option<AIRequestStatus>
  {
    if id in completed then Some(completed[id])
    else if id in processing then Some(ProcessingStatus(id, processing[id], now))
    else match lanes.FindQueued(id)
      case Some(e) => Some(QueuedStatus(e))
      case None => None
  }

  /** The lookup precedence: a completed record hides everything else, a processing entry hides
      the lanes, and nothing is reported for an id found nowhere. */
  lemma LookupStatusPrecedence(completed: map<string, AIRequestStatus>, processing: map<string, ProcessingRecord>,
                               lanes: Lanes, id: string, now: int)
    ensures var r := LookupStatus(completed, processing, lanes, id, now);
      && (r.None? <==> id !in completed && id !in processing && !lanes.HasId(id))
      && (id in completed ==> r == Some(completed[id]))
      && (id !in completed && id in processing ==>
            r.Some? && r.value.status == Processing && r.value.progress.Some?
            && r.value.progress.value <= 100 && r.value.requestId == id)
      && (id !in completed && id !in processing && lanes.HasId(id) ==>
            r.Some? && r.value.status == Queued && r.value.requestId == id)
  {
  }

  /** `get_queue_stats` health: overloaded above 80% of the queue capacity, busy above 50%,
      healthy otherwise (strict comparisons, as on the scaled capacity). */
  function Health(totalQueued: nat, maxQueueSize: int): (h: QueueHealth)
    ensures h == Overloaded <==> (totalQueued as real) > (maxQueueSize as real) * 0.8
    ensures h == Busy <==> !((totalQueued as real) > (maxQueueSize as real) * 0.8)
                           && (totalQueued as real) > (maxQueueSize as real) * 0.5
    ensures h == Healthy <==> (totalQueued as real) <= (maxQueueSize as real) * 0.5
  {
    if 5 * totalQueued > 4 * maxQueueSize then Overloaded
    else if 2 * totalQueued > maxQueueSize then Busy
    else Healthy
  }

  function Severity(h: QueueHealth): nat {
    match h
    case Healthy => 0
    case Busy => 1
    case Overloaded => 2
  }

  /** More queued requests never make the reported health better. */
  lemma HealthMonotone(q1: nat, q2: nat, maxQueueSize: int)
    requires q1 <= q2
    ensures Severity(Health(q1, maxQueueSize)) <= Severity(Health(q2, maxQueueSize))
  {
  }

  /** The final record of a request whose processing ended with `outcome` at time `now`. */
  function FinalStatus(e: QueueEntry, outcome: WorkOutcome, now: int): (s: AIRequestStatus)
    ensures s.requestId == e.id && s.createdAt == e.createdAt && s.completedAt == Some(now)
    ensures s.status == Completed <==> outcome.Succeeded?
    ensures s.status == Failed <==> !outcome.Succeeded?
    ensures s.result.Some? <==> outcome.Succeeded?
    ensures s.error.Some? <==> !outcome.Succeeded?
    ensures s.processingTime.Some? <==> !outcome.Raised?
  {
    match outcome
    case Succeeded(d) =>
      AIRequestStatus(e.id, Completed, None, Some(MockResult(e.request.prompt)), None, Some(d), e.createdAt, Some(now))
    case FailedAfter(d) =>
      AIRequestStatus(e.id, Failed, None, None, Some(MockErrorMessage), Some(d), e.createdAt, Some(now))
    case Raised(msg) =>
      AIRequestStatus(e.id, Failed, None, None, Some(msg), None, e.createdAt, Some(now))
  }

  /** The duration window after processing ended with `outcome`: a measured duration joins it,
      a raised error leaves it as it was. */
  function RecordDuration(window: seq<nat>, outcome: WorkOutcome): (r: seq<nat>)
    ensures |window| <= Window.Capacity ==> |r| <= Window.Capacity
    ensures outcome.Raised? ==> r == window
    ensures !outcome.Raised? ==> r == Window.Push(window, outcome.duration) && r[|r| - 1] == outcome.duration
  {
    match outcome
    case Raised(_) => window
    case Succeeded(d) => Window.Push(window, d)
    case FailedAfter(d) => Window.Push(window, d)
  }

  function MockResult(prompt: string): string {
    "AI processed: '" + prompt + "' - Mock result generated successfully!"
  }

  lemma MapRemoveSize<K, V>(m: map<K, V>, k: K)
    ensures |m - {k}| <= |m|
  {
    assert (m - {k}).Keys == m.Keys - {k};
    assert |m.Keys - {k}| <= |m.Keys|;
  }

  /** Every processing record is filed under the id of its request. */
  ghost predicate ProcessingKeyed(processing: map<string, ProcessingRecord>) {
    forall id :: id in processing ==> processing[id].data.id == id
  }

  /** Every completed record is filed under its own id and is a finished one. */
  ghost predicate CompletedKeyed(completed: map<string, AIRequestStatus>) {
    forall id :: id in completed ==>
      completed[id].requestId == id && completed[id].completedAt.Some?
      && completed[id].status in {Completed, Failed}
  }

  /** Filing a final record keeps the completed table well formed. */
  lemma FinalKeepsCompletedKeyed(completed: map<string, AIRequestStatus>, e: QueueEntry,
                                 outcome: WorkOutcome, now: int)
    requires CompletedKeyed(completed)
    ensures CompletedKeyed(completed[e.id := FinalStatus(e, outcome, now)])
  {
  }

  class AIQueueManager {
    const maxQueueSize: int
    const maxConcurrent: int

    var queues: Lanes
    var processing: map<string, ProcessingRecord>
    var completed: map<string, AIRequestStatus>

    var totalRequests: nat
    var completedRequests: nat
    var failedRequests: nat
    /** The latest processing durations, oldest first. */
    var processingTimes: seq<nat>

    /** The window is bounded, every table is keyed by its records' own ids, every completed
        record is terminal and time-stamped, and processing never exceeds the ceiling. */
    ghost predicate Valid()
      reads this
    {
      && |processingTimes| <= Window.Capacity
      && ProcessingKeyed(processing)
      && CompletedKeyed(completed)
      && (|processing| == 0 || |processing| <= maxConcurrent)
    }

    /** Defaults in the source: max_queue_size 100, max_concurrent 5. */
    constructor (maxQueueSize: int, maxConcurrent: int)
      ensures Valid()
      ensures this.maxQueueSize == maxQueueSize && this.maxConcurrent == maxConcurrent
      ensures queues == EmptyLanes && processing == map[] && completed == map[]
      ensures totalRequests == 0 && completedRequests == 0 && failedRequests == 0
      ensures processingTimes == []
    {
      this.maxQueueSize := maxQueueSize;
      this.maxConcurrent := maxConcurrent;
      queues := EmptyLanes;
      processing := map[];
      completed := map[];
      totalRequests, completedRequests, failedRequests := 0, 0, 0;
      processingTimes := [];
    }

    /** `_calculate_queue_position`, with its counting loop over lane `p`. */
    method CalculateQueuePosition(id: string, p: QueuePriority) returns (position: int)
      ensures position == QueuePosition(queues, p, id)
    {
      position := 1;
      if p == Normal || p == Low {
        position := position + |queues.high|;
      }
      if p == Low {
        position := position + |queues.normal|;
      }
      var lane := queues.Get(p);
      var i := 0;
      while i < |lane|
        invariant 0 <= i <= |lane|
        invariant forall j :: 0 <= j < i ==> lane[j].id != id
        invariant position == 1 + queues.Ahead(p) + i
      {
        if lane[i].id == id {
          break;
        }
        position := position + 1;
        i := i + 1;
      }
      assert FirstIndex(lane, id) == i;
    }

    /** `add_request`. A full queue (the lanes hold `maxQueueSize` or more) rejects the request
        and changes nothing; otherwise the request joins the tail of its own lane under the
        fresh id and the acknowledgement carries its position and wait estimate. */
    method AddRequest(request: AIRequest, freshId: string, now: int) returns (resp: AIRequestResponse)
      requires Valid()
      requires freshId != "" && !queues.HasId(freshId)
      modifies this
      ensures Valid()
      ensures old(queues.Total()) >= maxQueueSize ==>
        && resp == AIRequestResponse("", Failed, QueueFullMessage, None, None, now)
        && queues == old(queues) && totalRequests == old(totalRequests)
      ensures old(queues.Total()) < maxQueueSize ==>
        var pos := 1 + old(queues.Ahead(request.priority)) + old(|queues.Get(request.priority)|);
        && queues == old(queues).Append(request.priority, QueueEntry(freshId, request, now))
        && totalRequests == old(totalRequests) + 1
        && resp == AIRequestResponse(freshId, Queued, QueuedMessage, Some(pos),
                                     Some(EstimateWait(pos, processingTimes, maxConcurrent)), now)
      ensures processing == old(processing) && completed == old(completed)
      ensures completedRequests == old(completedRequests) && failedRequests == old(failedRequests)
      ensures processingTimes == old(processingTimes)
    {
      var totalQueued := |queues.high| + |queues.normal| + |queues.low|;
      if totalQueued >= maxQueueSize {
        return AIRequestResponse("", Failed, QueueFullMessage, None, None, now);
      }
      var entry := QueueEntry(freshId, request, now);
      assert !InLane(queues.Get(request.priority), freshId);
      PositionOfAppended(queues, request.priority, entry);
      queues := queues.Append(request.priority, entry);
      totalRequests := totalRequests + 1;
      var position := CalculateQueuePosition(freshId, request.priority);
      var estimatedWait := EstimateWait(position, processingTimes, maxConcurrent);
      resp := AIRequestResponse(freshId, Queued, QueuedMessage, Some(position), Some(estimatedWait), now);
    }

    /** `get_request_status`, with its scan of the lanes in the order high, normal, low. */
    method GetRequestStatus(id: string, now: int) returns (r: Option<AIRequestStatus>)
      ensures r == LookupStatus(completed, processing, queues, id, now)
    {
      if id in completed {
        return Some(completed[id]);
      }
      if id in processing {
        return Some(ProcessingStatus(id, processing[id], now));
      }
      var k := 0;
      while k < |ServiceOrder|
        invariant 0 <= k <= |ServiceOrder|
        invariant forall j :: 0 <= j < k ==> !InLane(queues.Get(ServiceOrder[j]), id)
      {
        var lane := queues.Get(ServiceOrder[k]);
        var i := 0;
        while i < |lane|
          invariant 0 <= i <= |lane|
          invariant forall j :: 0 <= j < i ==> lane[j].id != id
        {
          if lane[i].id == id {
            assert FirstIndex(lane, id) == i;
            FindQueuedInOrder(queues, id, k);
            return Some(QueuedStatus(lane[i]));
          }
          i := i + 1;
        }
        k := k + 1;
      }
      assert !queues.HasId(id) by {
        assert !InLane(queues.Get(ServiceOrder[0]), id);
        assert !InLane(queues.Get(ServiceOrder[1]), id);
        assert !InLane(queues.Get(ServiceOrder[2]), id);
      }
      return None;
    }

    /** `get_queue_stats`: the snapshot reports the lanes' total, the processing count, both
        cumulative counters, the exact mean of the window (0 when empty) and the health band. */
    function GetQueueStats(): (s: QueueStats)
      reads this
      ensures s.totalQueued == queues.Total() && s.totalProcessing == |processing|
      ensures s.totalCompleted == completedRequests && s.totalFailed == failedRequests
      ensures s.avgProcessingTime == Window.Mean(processingTimes)
      ensures s.queueHealth == Overloaded <==> (queues.Total() as real) > (maxQueueSize as real) * 0.8
    {
      var totalQueued := queues.Total();
      QueueStats(totalQueued, |processing|, completedRequests, failedRequests,
                 Window.Mean(processingTimes), Health(totalQueued, maxQueueSize))
    }

    /** `_get_next_request`: pop the head of the first non-empty lane in the order high, normal, low. */
    method GetNextRequest() returns (r: Option<QueueEntry>)
      requires Valid()
      modifies this
      ensures Valid()
      ensures (r, queues) == old(queues.PopNext())
      ensures processing == old(processing) && completed == old(completed)
      ensures totalRequests == old(totalRequests) && completedRequests == old(completedRequests)
      ensures failedRequests == old(failedRequests) && processingTimes == old(processingTimes)
    {
      var k := 0;
      while k < |ServiceOrder|
        invariant 0 <= k <= |ServiceOrder|
        invariant forall j :: 0 <= j < k ==> queues.Get(ServiceOrder[j]) == []
        invariant unchanged(this)
      {
        var lane := queues.Get(ServiceOrder[k]);
        if lane != [] {
          if k > 0 { assert queues.Get(ServiceOrder[0]) == []; }
          if k > 1 { assert queues.Get(ServiceOrder[1]) == []; }
          match ServiceOrder[k] {
            case High => queues := queues.(high := lane[1..]);
            case Normal => queues := queues.(normal := lane[1..]);
            case Low => queues := queues.(low := lane[1..]);
          }
          return Some(lane[0]);
        }
        k := k + 1;
      }
      assert queues.Get(ServiceOrder[0]) == [] && queues.Get(ServiceOrder[1]) == [];
      assert queues.Get(ServiceOrder[2]) == [];
      return None;
    }

    /** `_cleanup_completed`: delete every completed record whose completion time lies before
        now minus five minutes; every other record is kept as it was. */
    method CleanupCompleted(now: int)
      requires Valid()
      modifies this
      ensures Valid()
      ensures completed == Unexpired(old(completed), now)
      ensures queues == old(queues) && processing == old(processing)
      ensures totalRequests == old(totalRequests) && completedRequests == old(completedRequests)
      ensures failedRequests == old(failedRequests) && processingTimes == old(processingTimes)
    {
      var toRemove := set id | id in completed && Expired(completed[id], now);
      var rest := toRemove;
      while rest != {}
        invariant rest <= toRemove
        invariant forall id :: id in completed <==> id in old(completed) && (id !in toRemove || id in rest)
        invariant forall id :: id in completed ==> completed[id] == old(completed)[id]
        invariant queues == old(queues) && processing == old(processing)
        invariant totalRequests == old(totalRequests) && completedRequests == old(completedRequests)
        invariant failedRequests == old(failedRequests) && processingTimes == old(processingTimes)
        decreases |rest|
      {
        var id :| id in rest;
        completed := completed - {id};
        rest := rest - {id};
      }
      assert completed == Unexpired(old(completed), now);
    }

    /** One iteration of the background worker: when fewer than `maxConcurrent` requests are
        processing, pop the next request in strict priority order and enter it in the processing
        table as started now; then expire old completed records. */
    method Tick(now: int) returns (started: Option<QueueEntry>)
      requires Valid()
      modifies this
      ensures Valid()
      ensures old(|processing|) < maxConcurrent ==> (started, queues) == old(queues.PopNext())
      ensures old(|processing|) >= maxConcurrent ==> started == None && queues == old(queues)
      ensures processing == if started.Some?
                            then old(processing)[started.value.id := ProcessingRecord(started.value, now)]
                            else old(processing)
      ensures completed == Unexpired(old(completed), now)
      ensures totalRequests == old(totalRequests) && completedRequests == old(completedRequests)
      ensures failedRequests == old(failedRequests) && processingTimes == old(processingTimes)
    {
      started := None;
      if |processing| < maxConcurrent {
        started := GetNextRequest();
        if started.Some? {
          var e := started.value;
          processing := processing[e.id := ProcessingRecord(e, now)];
        }
      }
      CleanupCompleted(now);
    }

    /** The end of `_process_request` for `entry`: its final record replaces any earlier one,
        exactly one of the completed and failed counters rises, the duration joins the window
        unless processing raised, and the id leaves the processing table on every path. */
    method Finish(entry: QueueEntry, outcome: WorkOutcome, now: int)
      requires Valid()
      modifies this
      ensures Valid()
      ensures processing == old(processing) - {entry.id}
      ensures completed == old(completed)[entry.id := FinalStatus(entry, outcome, now)]
      ensures outcome.Succeeded? ==>
        completedRequests == old(completedRequests) + 1 && failedRequests == old(failedRequests)
      ensures !outcome.Succeeded? ==>
        completedRequests == old(completedRequests) && failedRequests == old(failedRequests) + 1
      ensures processingTimes == RecordDuration(old(processingTimes), outcome)
      ensures queues == old(queues) && totalRequests == old(totalRequests)
    {
      var status := FinalStatus(entry, outcome, now);
      var completedCount, failedCount := completedRequests, failedRequests;
      if outcome.Succeeded? {
        completedCount := completedCount + 1;
      } else {
        failedCount := failedCount + 1;
      }
      var newCompleted := completed[entry.id := status];
      var newTimes := RecordDuration(processingTimes, outcome);
      // The `finally` clause: the id leaves the processing table on every path.
      var newProcessing := processing - {entry.id};
      MapRemoveSize(processing, entry.id);
      FinalKeepsCompletedKeyed(completed, entry, outcome, now);
      completedRequests, failedRequests := completedCount, failedCount;
      completed, processingTimes, processing := newCompleted, newTimes, newProcessing;
    }
  }
}
