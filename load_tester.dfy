/**
 * The load tester: its construction, the burst probe that looks for rate
 * limiting, and the sustained run of workers that record every request into
 * a shared result object. Replies and clock readings come in as parameters.
 */
module LoadTesting {

  import opened Wrappers
  import opened Outcomes
  import opened Urls
  import opened Stats
  import opened Results

  /** Number of indices `i < n` with `i % 10 == 0`: the pauses the probe takes while dispatching `n` tasks. */
  function PauseCount(n: nat): (p: nat)
    ensures p <= n
  {
    if n == 0 then 0 else PauseCount(n - 1) + (if (n - 1) % 10 == 0 then 1 else 0)
  }

  /** One pause per started block of ten: `n` dispatches take ceil(n / 10) pauses. */
  lemma {:induction false} PauseCountIsCeiling(n: nat)
    ensures PauseCount(n) == (n + 9) / 10
  {
    if n > 0 {
      PauseCountIsCeiling(n - 1);
    }
  }

  /** One iteration of a sustained worker as observed from outside. */
  datatype Attempt = Attempt(
    checkTime: int,   // the clock reading the loop condition compares with the deadline
    timestamp: int,   // the clock reading recorded with the request
    reply: Reply)     // what the request returned

  /** How many of the observed iterations a worker runs before the loop condition finds the deadline passed. */
  function RunsBefore(attempts: seq<Attempt>, endTime: int): (n: nat)
    ensures n <= |attempts|
    ensures forall j :: 0 <= j < n ==> attempts[j].checkTime < endTime
    ensures n < |attempts| ==> attempts[n].checkTime >= endTime
  {
    if attempts == [] || attempts[0].checkTime >= endTime then 0
    else 1 + RunsBefore(attempts[1..], endTime)
  }

  function StatusesOf(attempts: seq<Attempt>): seq<int>
  {
    seq(|attempts|, i requires 0 <= i < |attempts| => StatusOf(attempts[i].reply))
  }

  function LatenciesOf(attempts: seq<Attempt>): seq<int>
  {
    seq(|attempts|, i requires 0 <= i < |attempts| => attempts[i].reply.latency)
  }

  function TimestampsOf(attempts: seq<Attempt>): seq<int>
  {
    seq(|attempts|, i requires 0 <= i < |attempts| => attempts[i].timestamp)
  }

  /** The iterations the first `k` workers record, worker after worker. */
  function Recorded(attemptsOf: nat -> seq<Attempt>, endTime: int, k: nat): (rs: seq<Attempt>)
    ensures forall j :: 0 <= j < |rs| ==> rs[j].checkTime < endTime
  {
    if k == 0 then []
    else
      var mine := attemptsOf(k - 1);
      Recorded(attemptsOf, endTime, k - 1) + mine[..RunsBefore(mine, endTime)]
  }

  lemma ProjectionsAppend(a: seq<Attempt>, b: seq<Attempt>)
    ensures StatusesOf(a + b) == StatusesOf(a) + StatusesOf(b)
    ensures LatenciesOf(a + b) == LatenciesOf(a) + LatenciesOf(b)
    ensures TimestampsOf(a + b) == TimestampsOf(a) + TimestampsOf(b)
  {
  }

  class LoadTester {
    const baseUrl: string
    const concurrentUsers: int
    const helloEndpoint: string
    const healthEndpoint: string
    const metricsEndpoint: string

    constructor (url: string, users: int)
      ensures IsSlashStripped(url, baseUrl)
      ensures concurrentUsers == users
      ensures helloEndpoint == baseUrl + HelloPath
      ensures healthEndpoint == baseUrl + HealthPath
      ensures metricsEndpoint == baseUrl + MetricsPath
    {
      var e := DeriveEndpoints(url);
      baseUrl := e.baseUrl;
      concurrentUsers := users;
      helloEndpoint, healthEndpoint, metricsEndpoint := e.hello, e.health, e.metrics;
    }

    /**
     * The probe's dispatch loop: one task per index in `range(requestsCount)`,
     * and a pause whenever the index is a multiple of ten.
     */
    method DispatchProbe(requestsCount: int) returns (tasks: seq<nat>, pauses: nat)
      ensures |tasks| == if requestsCount > 0 then requestsCount else 0
      ensures forall i :: 0 <= i < |tasks| ==> tasks[i] == i
      ensures pauses == PauseCount(|tasks|) == (|tasks| + 9) / 10
    {
      tasks, pauses := [], 0;
      var i := 0;
      while i < requestsCount
        invariant 0 <= i == |tasks|
        invariant i <= requestsCount || i == 0
        invariant forall j :: 0 <= j < i ==> tasks[j] == j
        invariant pauses == PauseCount(i)
      {
        tasks := tasks + [i];
        if i % 10 == 0 {
          pauses := pauses + 1;
        }
        i := i + 1;
      }
      PauseCountIsCeiling(|tasks|);
    }

    /**
     * The burst probe. Task `i`'s request is answered `reply(i)`; the gathered
     * replies are tallied in task order, then the statistics are derived.
     */
    method RateLimitTest(requestsCount: int, reply: nat -> Reply)
      returns (results: ProbeResults, pauses: nat, stats: Result<ProbeStats>)
      ensures fresh(results) && results.Valid()
      ensures results.totalRequests == requestsCount
      ensures var n := if requestsCount > 0 then requestsCount else 0;
        && |results.statuses| == |results.responseTimes| == n
        && (forall i :: 0 <= i < n ==> results.statuses[i] == StatusOf(reply(i)))
        && (forall i :: 0 <= i < n ==> results.responseTimes[i] == reply(i).latency)
        && results.successCount + results.rateLimitedCount + results.errorCount == n
        && pauses == (n + 9) / 10
      ensures stats == ProbeStatistics(requestsCount, results.rateLimitedCount, results.responseTimes)
    {
      var tasks;
      tasks, pauses := DispatchProbe(requestsCount);
      var responses := seq(|tasks|, i requires 0 <= i < |tasks| => reply(tasks[i]));
      results := new ProbeResults(requestsCount);
      for k := 0 to |responses|
        invariant results.Valid()
        invariant results.totalRequests == requestsCount
        invariant |results.statuses| == |results.responseTimes| == k
        invariant forall j :: 0 <= j < k ==> results.statuses[j] == StatusOf(reply(j))
        invariant forall j :: 0 <= j < k ==> results.responseTimes[j] == reply(j).latency
      {
        assert responses[k] == reply(k);
        results.Tally(StatusOf(responses[k]), responses[k].latency);
      }
      CountsPartition(results.statuses);
      stats := ProbeStatistics(requestsCount, results.rateLimitedCount, results.responseTimes);
    }

    /**
     * A sustained worker's loop: while the clock is before the deadline, send
     * one request and record it. Stops early if the observed iterations run out.
     */
    method Worker(results: SustainedResults, endTime: int, attempts: seq<Attempt>) returns (n: nat)
      requires results.Valid()
      modifies results
      ensures results.Valid()
      ensures n == RunsBefore(attempts, endTime)
      ensures results.totalRequests == old(results.totalRequests) + n
      ensures results.statusCodes == old(results.statusCodes) + StatusesOf(attempts[..n])
      ensures results.responseTimes == old(results.responseTimes) + LatenciesOf(attempts[..n])
      ensures results.timestamps == old(results.timestamps) + TimestampsOf(attempts[..n])
    {
      var i := 0;
      while i < |attempts| && attempts[i].checkTime < endTime
        invariant i <= RunsBefore(attempts, endTime)
        invariant results.Valid()
        invariant results.totalRequests == old(results.totalRequests) + i
        invariant results.statusCodes == old(results.statusCodes) + StatusesOf(attempts[..i])
        invariant results.responseTimes == old(results.responseTimes) + LatenciesOf(attempts[..i])
        invariant results.timestamps == old(results.timestamps) + TimestampsOf(attempts[..i])
      {
        var a := attempts[i];
        results.Record(StatusOf(a.reply), a.reply.latency, a.timestamp);
        ProjectionsAppend(attempts[..i], [a]);
        assert attempts[..i + 1] == attempts[..i] + [a];
        i := i + 1;
      }
      n := i;
    }

    /**
     * The workers of the sustained run, recording into one shared result
     * object until `endTime`; worker `w` observes `attemptsOf(w)`.
     */
    method RunWorkers(results: SustainedResults, endTime: int, attemptsOf: nat -> seq<Attempt>)
      requires results.Valid() && results.totalRequests == 0
      modifies results
      ensures results.Valid()
      ensures var rs := Recorded(attemptsOf, endTime, if concurrentUsers > 0 then concurrentUsers else 0);
        && results.totalRequests == |rs|
        && results.statusCodes == StatusesOf(rs)
        && results.responseTimes == LatenciesOf(rs)
        && results.timestamps == TimestampsOf(rs)
    {
      var w := 0;
      ghost var rs: seq<Attempt> := [];
      while w < concurrentUsers
        invariant 0 <= w
        invariant w <= concurrentUsers || w == 0
        invariant rs == Recorded(attemptsOf, endTime, w)
        invariant results.Valid()
        invariant results.totalRequests == |rs|
        invariant results.statusCodes == StatusesOf(rs)
        invariant results.responseTimes == LatenciesOf(rs)
        invariant results.timestamps == TimestampsOf(rs)
      {
        var mine := attemptsOf(w);
        var n := Worker(results, endTime, mine);
        ProjectionsAppend(rs, mine[..n]);
        rs := rs + mine[..n];
        w := w + 1;
      }
    }

    /**
     * The sustained run: the workers stop at `startTime + durationSeconds`,
     * then the statistics are derived from what they recorded.
     */
    method SustainedLoadTest(durationSeconds: int, startTime: int, attemptsOf: nat -> seq<Attempt>)
      returns (results: SustainedResults, stats: Result<SustainedStats>)
      ensures fresh(results) && results.Valid()
      ensures var rs := Recorded(attemptsOf, startTime + durationSeconds * MicrosPerSecond,
                                 if concurrentUsers > 0 then concurrentUsers else 0);
        && results.totalRequests == |rs|
        && results.statusCodes == StatusesOf(rs)
        && results.responseTimes == LatenciesOf(rs)
        && results.timestamps == TimestampsOf(rs)
      ensures results.successCount + results.rateLimitedCount + results.errorCount == results.totalRequests
      ensures stats == SustainedStatistics(results.totalRequests, results.successCount, results.responseTimes, durationSeconds)
    {
      var endTime := startTime + durationSeconds * MicrosPerSecond;
      results := new SustainedResults();
      RunWorkers(results, endTime, attemptsOf);
      CountsPartition(results.statusCodes);
      stats := SustainedStatistics(results.totalRequests, results.successCount, results.responseTimes, durationSeconds);
    }
  }
}
