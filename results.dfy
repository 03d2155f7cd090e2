/**
 * The two result dictionaries the tests fill in, as objects whose counters
 * and lists are updated in place, one completed request at a time.
 */
module Results {

  import opened Outcomes

  /** The probe's results: a fixed request count, three counters and the latency list. */
  class ProbeResults {
    const totalRequests: int
    var successCount: nat
    var rateLimitedCount: nat
    var errorCount: nat
    var responseTimes: seq<int>
    /** The statuses tallied so far; the dictionary does not keep them. */
    ghost var statuses: seq<int>

    ghost predicate Valid()
      reads this
    {
      && |responseTimes| == |statuses|
      && successCount == Count(statuses, Success)
      && rateLimitedCount == Count(statuses, RateLimited)
      && errorCount == Count(statuses, Error)
    }

    constructor (requestsCount: int)
      ensures Valid()
      ensures totalRequests == requestsCount
      ensures statuses == [] && responseTimes == []
    {
      totalRequests := requestsCount;
      successCount, rateLimitedCount, errorCount := 0, 0, 0;
      responseTimes, statuses := [], [];
    }

    /** One pass of the probe's result loop: append the latency, bump exactly one counter. */
    method Tally(status: int, latency: int)
      requires Valid()
      modifies this
      ensures Valid()
      ensures statuses == old(statuses) + [status]
      ensures responseTimes == old(responseTimes) + [latency]
      ensures successCount == old(successCount) + (if status == 200 then 1 else 0)
      ensures rateLimitedCount == old(rateLimitedCount) + (if status == 429 then 1 else 0)
      ensures errorCount == old(errorCount) + (if status != 200 && status != 429 then 1 else 0)
      ensures successCount + rateLimitedCount + errorCount == |responseTimes|
    {
      responseTimes := responseTimes + [latency];
      if status == 200 {
        successCount := successCount + 1;
      } else if status == 429 {
        rateLimitedCount := rateLimitedCount + 1;
      } else {
        errorCount := errorCount + 1;
      }
      CountSnoc(statuses, status, Success);
      CountSnoc(statuses, status, RateLimited);
      CountSnoc(statuses, status, Error);
      statuses := statuses + [status];
      CountsPartition(statuses);
    }
  }

  /** The sustained run's results: a request total, three counters and three parallel lists. */
  class SustainedResults {
    var totalRequests: nat
    var successCount: nat
    var errorCount: nat
    var rateLimitedCount: nat
    var responseTimes: seq<int>
    var timestamps: seq<int>
    var statusCodes: seq<int>

    ghost predicate Valid()
      reads this
    {
      && |responseTimes| == totalRequests
      && |timestamps| == totalRequests
      && |statusCodes| == totalRequests
      && successCount == Count(statusCodes, Success)
      && rateLimitedCount == Count(statusCodes, RateLimited)
      && errorCount == Count(statusCodes, Error)
    }

    constructor ()
      ensures Valid()
      ensures totalRequests == 0
      ensures responseTimes == [] && timestamps == [] && statusCodes == []
    {
      totalRequests := 0;
      successCount, errorCount, rateLimitedCount := 0, 0, 0;
      responseTimes, timestamps, statusCodes := [], [], [];
    }

    /**
     * What a worker does with one completed request. There is no suspension
     * point inside it, so concurrent workers never interleave within a record.
     */
    method Record(status: int, latency: int, timestamp: int)
      requires Valid()
      modifies this
      ensures Valid()
      ensures totalRequests == old(totalRequests) + 1
      ensures responseTimes == old(responseTimes) + [latency]
      ensures timestamps == old(timestamps) + [timestamp]
      ensures statusCodes == old(statusCodes) + [status]
      ensures successCount == old(successCount) + (if status == 200 then 1 else 0)
      ensures rateLimitedCount == old(rateLimitedCount) + (if status == 429 then 1 else 0)
      ensures errorCount == old(errorCount) + (if status != 200 && status != 429 then 1 else 0)
      ensures successCount + rateLimitedCount + errorCount == totalRequests
    {
      CountSnoc(statusCodes, status, Success);
      CountSnoc(statusCodes, status, RateLimited);
      CountSnoc(statusCodes, status, Error);
      CountsPartition(statusCodes + [status]);
      totalRequests := totalRequests + 1;
      responseTimes := responseTimes + [latency];
      timestamps := timestamps + [timestamp];
      statusCodes := statusCodes + [status];
      if status == 200 {
        successCount := successCount + 1;
      } else if status == 429 {
        rateLimitedCount := rateLimitedCount + 1;
      } else {
        errorCount := errorCount + 1;
      }
    }
  }
}
