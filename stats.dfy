/**
 * The statistics both tests derive once their requests have completed:
 * the probe's rate-limit percentage and mean latency, and the sustained
 * run's mean, minimum and maximum latency, success rate and throughput.
 */
module Stats {

  import opened Wrappers
  import opened Outcomes

  function Sum(xs: seq<int>): int
  {
    if xs == [] then 0 else Sum(xs[..|xs| - 1]) + xs[|xs| - 1]
  }

  /** `statistics.mean`, exact (the library averages exact fractions). */
  function Mean(xs: seq<int>): (m: real)
    requires xs != []
    ensures m * |xs| as real == Sum(xs) as real
  {
    Sum(xs) as real / |xs| as real
  }

  /** `min` of a non-empty list. */
  function Min(xs: seq<int>): (m: int)
    requires xs != []
    ensures m in xs
    ensures forall i :: 0 <= i < |xs| ==> m <= xs[i]
  {
    if |xs| == 1 then xs[0]
    else
      var rest := Min(xs[..|xs| - 1]);
      if xs[|xs| - 1] < rest then xs[|xs| - 1] else rest
  }

  /** `max` of a non-empty list. */
  function Max(xs: seq<int>): (m: int)
    requires xs != []
    ensures m in xs
    ensures forall i :: 0 <= i < |xs| ==> xs[i] <= m
  {
    if |xs| == 1 then xs[0]
    else
      var rest := Max(xs[..|xs| - 1]);
      if xs[|xs| - 1] > rest then xs[|xs| - 1] else rest
  }

  lemma {:induction false} SumAtLeast(xs: seq<int>, lo: int)
    requires forall i :: 0 <= i < |xs| ==> lo <= xs[i]
    ensures |xs| * lo <= Sum(xs)
  {
    if xs != [] {
      SumAtLeast(xs[..|xs| - 1], lo);
    }
  }

  lemma {:induction false} SumAtMost(xs: seq<int>, hi: int)
    requires forall i :: 0 <= i < |xs| ==> xs[i] <= hi
    ensures Sum(xs) <= |xs| * hi
  {
    if xs != [] {
      SumAtMost(xs[..|xs| - 1], hi);
    }
  }

  /** The mean of a non-empty list lies between its minimum and its maximum. */
  lemma MeanBetween(xs: seq<int>)
    requires xs != []
    ensures Min(xs) as real <= Mean(xs) <= Max(xs) as real
  {
    var n := |xs|;
    SumAtLeast(xs, Min(xs));
    SumAtMost(xs, Max(xs));
    QuotientBetween(Sum(xs), n, Min(xs), Max(xs));
  }

  lemma QuotientBetween(s: int, n: int, lo: int, hi: int)
    requires n > 0 && n * lo <= s <= n * hi
    ensures lo as real <= s as real / n as real <= hi as real
  {
    var q := s as real / n as real;
    assert q * n as real == s as real;
    assert (n * lo) as real == n as real * lo as real;
    assert (n * hi) as real == n as real * hi as real;
  }

  /** `part / whole * 100`. */
  function Percentage(part: int, whole: int): (p: real)
    requires whole != 0
    ensures p * whole as real == part as real * 100.0
    ensures 0 <= part <= whole ==> 0.0 <= p <= 100.0
  {
    var p := part as real / whole as real * 100.0;
    assert 0 <= part <= whole ==> 0.0 <= p <= 100.0 by {
      if 0 <= part <= whole {
        QuotientBetween(part, whole, 0, 1);
      }
    }
    p
  }

  /** What the probe adds to its results once every response is tallied. */
  datatype ProbeStats = ProbeStats(rateLimitPercentage: real, avgResponseTime: real)

  /**
   * The rate-limit percentage is computed first, so a zero request count raises
   * ZeroDivisionError; a negative count dispatches nothing, and the mean of the
   * empty latency list then raises StatisticsError.
   */
  function ProbeStatistics(requestsCount: int, rateLimitedCount: nat, responseTimes: seq<int>): (r: Result<ProbeStats>)
    ensures r == Raised(ZeroDivisionError) <==> requestsCount == 0
    ensures r == Raised(StatisticsError) <==> requestsCount != 0 && responseTimes == []
    ensures r.Ok? <==> requestsCount != 0 && responseTimes != []
    ensures r.Ok? ==>
      && r.value.rateLimitPercentage * requestsCount as real == rateLimitedCount as real * 100.0
      && (rateLimitedCount <= requestsCount ==> 0.0 <= r.value.rateLimitPercentage <= 100.0)
      && r.value.avgResponseTime == Mean(responseTimes)
      && Min(responseTimes) as real <= r.value.avgResponseTime <= Max(responseTimes) as real
  {
    if requestsCount == 0 then Raised(ZeroDivisionError)
    else if responseTimes == [] then Raised(StatisticsError)
    else
      MeanBetween(responseTimes);
      Ok(ProbeStats(Percentage(rateLimitedCount, requestsCount), Mean(responseTimes)))
  }

  datatype LatencyStats = LatencyStats(avg: real, min: int, max: int)

  /** The latency figures of the sustained run, present exactly when some latency was recorded. */
  function LatencySummary(responseTimes: seq<int>): (r: Option<LatencyStats>)
    ensures r.Some? <==> responseTimes != []
    ensures r.Some? ==>
      && r.value.avg == Mean(responseTimes)
      && r.value.min as real <= r.value.avg <= r.value.max as real
      && r.value.min in responseTimes && r.value.max in responseTimes
      && forall i :: 0 <= i < |responseTimes| ==> r.value.min <= responseTimes[i] <= r.value.max
  {
    if responseTimes == [] then None
    else
      MeanBetween(responseTimes);
      Some(LatencyStats(Mean(responseTimes), Min(responseTimes), Max(responseTimes)))
  }

  /** What the sustained run adds to its results; the latency figures only when there are latencies. */
  datatype SustainedStats = SustainedStats(latency: Option<LatencyStats>, qps: real, successRate: real)

  /**
   * Mean, minimum and maximum only over a non-empty latency list; throughput
   * over the nominal duration (a zero duration raises ZeroDivisionError); the
   * success rate is 0 when nothing was requested.
   */
  function SustainedStatistics(totalRequests: nat, successCount: nat, responseTimes: seq<int>, durationSeconds: int)
    : (r: Result<SustainedStats>)
    ensures r.Raised? <==> durationSeconds == 0
    ensures r.Raised? ==> r.error == ZeroDivisionError
    ensures r.Ok? ==> (r.value.latency.Some? <==> responseTimes != [])
    ensures r.Ok? && r.value.latency.Some? ==>
      var l := r.value.latency.value;
      && l.avg == Mean(responseTimes)
      && l.min as real <= l.avg <= l.max as real
      && l.min in responseTimes && l.max in responseTimes
      && forall i :: 0 <= i < |responseTimes| ==> l.min <= responseTimes[i] <= l.max
    ensures r.Ok? ==> r.value.qps * durationSeconds as real == totalRequests as real
    ensures r.Ok? && totalRequests == 0 ==> r.value.successRate == 0.0
    ensures r.Ok? && totalRequests > 0 ==> r.value.successRate * totalRequests as real == successCount as real * 100.0
    ensures r.Ok? && successCount <= totalRequests ==> 0.0 <= r.value.successRate <= 100.0
  {
    if durationSeconds == 0 then Raised(ZeroDivisionError)
    else
      var qps := totalRequests as real / durationSeconds as real;
      var successRate := if totalRequests > 0 then Percentage(successCount, totalRequests) else 0.0;
      Ok(SustainedStats(LatencySummary(responseTimes), qps, successRate))
  }

  /** 150 probe requests, the first 100 answered 200 and the rest 429. */
  lemma BurstScenario(latency: int)
    ensures var statuses := seq(100, _ => 200) + seq(50, _ => 429);
      && Count(statuses, Success) == 100
      && Count(statuses, RateLimited) == 50
      && Count(statuses, Error) == 0
      && ProbeStatistics(150, 50, seq(150, _ => latency)) == Ok(ProbeStats(100.0 / 3.0, latency as real))
  {
    var ok, limited := seq(100, _ => 200), seq(50, _ => 429);
    CountAppend(ok, limited, Success);
    CountAppend(ok, limited, RateLimited);
    CountAppend(ok, limited, Error);
    CountConstant(100, 200, Success);
    CountConstant(100, 200, RateLimited);
    CountConstant(100, 200, Error);
    CountConstant(50, 429, Success);
    CountConstant(50, 429, RateLimited);
    CountConstant(50, 429, Error);
    SumConstant(150, latency);
  }

  lemma {:induction false} SumConstant(n: nat, x: int)
    ensures Sum(seq(n, _ => x)) == n * x
  {
    if n > 0 {
      assert seq(n, _ => x)[..n - 1] == seq(n - 1, _ => x);
      SumConstant(n - 1, x);
    }
  }
}
