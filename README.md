# Load tester bookkeeping, modelled in Dafny

This project models the deterministic core of `scripts/advanced_load_test.py`, the
asynchronous load generator of the cloud-native demo application. The model covers:

- **Construction.** `LoadTester.__init__` strips trailing slashes from the base address.
  It then builds the hello, health and metrics endpoints by appending fixed paths.
- **The burst probe (`rate_limit_test`).** It dispatches `requests_count` tasks and
  pauses at every index that is a multiple of ten. It then tallies every gathered reply
  into three counters: 200 is a success, 429 is rate limited, and anything else is an
  error. That includes status 0, which stands for a caught exception. Finally it derives
  the rate-limit percentage and the mean latency.
- **The sustained run (`sustained_load_test`).** Each worker sends requests until the
  deadline. It records each completed request into a shared result object: one request
  total, three counters and three parallel lists. Afterwards the run derives the mean,
  minimum and maximum latency, the throughput over the nominal duration, and the
  success rate.
- **Chart data (`plot_results`).** This covers the status-code tally behind the pie
  chart and the requests-per-second samples over five-second windows.

How the model is built:

- Network replies and clock readings are parameters, not calls.
  - Probe task `i` is answered `reply(i)`.
  - Sustained worker `w` observes the loop iterations `attemptsOf(w)`. Each iteration
    carries the clock reading the loop condition compares with the deadline, the
    timestamp recorded with the request, and the reply.
- Latencies and timestamps are integer microseconds. Ratios are `real`.
- The two result dictionaries are classes whose methods update their counters and
  lists in place. Their invariant `Valid()` ties each counter to the number of recorded
  statuses in its category.

Modules:

- `Wrappers`: Option, and the result-or-exception type.
- `Outcomes`: replies, classification and category counts.
- `Urls`: slash stripping and endpoints.
- `Stats`: the derived statistics.
- `Results`: the two result classes.
- `LoadTesting`: the `LoadTester` class, with the probe and the sustained run.
- `Charts`: the status tally and the window sampling.

Error paths the model keeps:

- A probe of zero requests divides by zero at line 90 and raises ZeroDivisionError.
- A negative request count dispatches nothing. `statistics.mean` of the empty latency
  list at line 91 then raises StatisticsError.
- A sustained run of zero seconds divides by zero at line 144 and raises
  ZeroDivisionError.

## Model

| member | source | states |
|---|---|---|
| `Urls.RStripSlash` | scripts/advanced_load_test.py:20 | the base is a prefix of the argument, does not end in '/', and only '/' characters follow it in the argument |
| `Urls.StrippedIsUnique` | scripts/advanced_load_test.py:20 | any string with those three properties is the stripped base, so they define `rstrip('/')` completely |
| `Urls.RStripIdempotent` | scripts/advanced_load_test.py:20 | stripping again changes nothing |
| `Urls.RStripIgnoresExtraSlashes` | scripts/advanced_load_test.py:20 | any number of extra trailing slashes gives the same base |
| `Urls.DeriveEndpoints` | scripts/advanced_load_test.py:20-24 | the base is the argument stripped of its trailing slashes; the hello, health and metrics endpoints are the base followed by "/api/hello", "/api/health" and "/actuator/prometheus" |
| `Urls.EndpointsRecoverBase` | scripts/advanced_load_test.py:22-24 | removing the fixed path from each endpoint gives back the base |
| `Urls.HelloEndpointInjective` | scripts/advanced_load_test.py:20-22 | two addresses give the same hello endpoint if and only if they strip to the same base |
| `Urls.EndpointsDistinct` | scripts/advanced_load_test.py:22-24 | the three endpoints of one tester are pairwise different |
| `Urls.EndpointSeamHasOneSlash` | scripts/advanced_load_test.py:20-22 | a non-empty base joins its path with exactly one '/' |
| `LoadTesting.LoadTester.constructor` | scripts/advanced_load_test.py:19-24 | the tester keeps the stripped base, the user count and the three derived endpoints |
| `Outcomes.StatusOf` | scripts/advanced_load_test.py:43-53 | a reply's status is the HTTP status; a caught exception reports 0, which classifies as an error |
| `Outcomes.Classify` | scripts/advanced_load_test.py:82-87 | the category is success exactly for 200 and rate-limited exactly for 429; every other status is an error |
| `Outcomes.CountSnoc` | scripts/advanced_load_test.py:123-128 | tallying one more status raises its own category's count by one and leaves the other two alone |
| `Outcomes.CountsPartition` | scripts/advanced_load_test.py:79-87 | every status lands in exactly one counter, so the three counts add up to the number of statuses |
| `Outcomes.CountAppend` | scripts/advanced_load_test.py:118-128 | counts are additive over concatenation: tallying two batches one after the other gives the sum of their counts |
| `Outcomes.CountPermutation` | scripts/advanced_load_test.py:118-128 | two status lists that are rearrangements of each other have the same count in every category, so the order in which concurrent workers record does not change the counters |
| `Outcomes.CountConstant` | scripts/advanced_load_test.py:82-87 | a run of n identical statuses adds n to its own category and nothing to the others |
| `Results.ProbeResults.constructor` | scripts/advanced_load_test.py:59-65 | the probe starts with its request count, zero counters and no latencies |
| `Results.ProbeResults.Tally` | scripts/advanced_load_test.py:79-87 | one reply appends its latency and raises exactly one counter (200, 429, otherwise error); the counters keep adding up to the number of latencies |
| `Results.SustainedResults.constructor` | scripts/advanced_load_test.py:102-110 | the sustained run starts with zero totals and three empty lists |
| `Results.SustainedResults.Record` | scripts/advanced_load_test.py:118-128 | one request raises the total by one, appends one entry to each of the three lists and raises exactly one counter; the lists keep the length of the total and the counters keep adding up to it |
| `LoadTesting.PauseCount` | scripts/advanced_load_test.py:69-75 | the number of indices below n that are multiples of ten is at most n |
| `LoadTesting.PauseCountIsCeiling` | scripts/advanced_load_test.py:69-75 | n dispatches take ceil(n/10) pauses |
| `LoadTesting.LoadTester.DispatchProbe` | scripts/advanced_load_test.py:68-75 | exactly `requests_count` tasks are created (none for a negative count), task i for index i, with ceil(N/10) pauses |
| `LoadTesting.LoadTester.RateLimitTest` | scripts/advanced_load_test.py:55-93 | the probe tallies exactly N gathered replies in task order; statuses and latencies are those of the replies, the counters add up to N, the pauses are ceil(N/10), and the statistics are those of the tallied results |
| `LoadTesting.RunsBefore` | scripts/advanced_load_test.py:114 | a worker runs exactly the iterations before the first one whose loop test finds the deadline passed; every run iteration started before the deadline |
| `LoadTesting.Recorded` | scripts/advanced_load_test.py:112-135 | every request the workers record passed the deadline test |
| `LoadTesting.ProjectionsAppend` | scripts/advanced_load_test.py:119-121 | the status, latency and timestamp lists of two batches of requests concatenate |
| `LoadTesting.LoadTester.Worker` | scripts/advanced_load_test.py:112-131 | a worker records exactly its iterations before the deadline, adding one entry per request to the total and to each list, and keeps the result object's invariant |
| `LoadTesting.LoadTester.RunWorkers` | scripts/advanced_load_test.py:133-135 | the `concurrent_users` workers together record every pre-deadline iteration of each worker, and nothing else |
| `LoadTesting.LoadTester.SustainedLoadTest` | scripts/advanced_load_test.py:95-147 | the deadline is start plus duration; the totals, lists and counters describe exactly the recorded requests, the counters add up to the total, and the statistics are those of the results |
| `Stats.Min` | scripts/advanced_load_test.py:140 | the minimum is an element of the list and no element is smaller |
| `Stats.Max` | scripts/advanced_load_test.py:141 | the maximum is an element of the list and no element is larger |
| `Stats.Mean` | scripts/advanced_load_test.py:91 | the mean of a non-empty list times its length is the sum of its elements |
| `Stats.SumAtLeast` | scripts/advanced_load_test.py:139 | n latencies, none below lo, add up to at least n times lo |
| `Stats.SumAtMost` | scripts/advanced_load_test.py:139 | n latencies, none above hi, add up to at most n times hi |
| `Stats.MeanBetween` | scripts/advanced_load_test.py:139-141 | the mean lies between the minimum and the maximum |
| `Stats.Percentage` | scripts/advanced_load_test.py:90 | the percentage times the whole is the part times 100, and it lies in [0, 100] when the part is between 0 and the whole |
| `Stats.ProbeStatistics` | scripts/advanced_load_test.py:89-91 | a zero request count raises ZeroDivisionError; otherwise an empty latency list raises StatisticsError; a non-zero count with latencies always succeeds, and then the percentage is rate-limited·100/N (in [0, 100] when no more than N were rate limited) and the average latency is the mean of the latencies, which lies between the extreme latencies |
| `Stats.LatencySummary` | scripts/advanced_load_test.py:138-141 | the latency figures are present exactly when latencies exist; then the average is their mean, min ≤ mean ≤ max, and min and max bound every latency and occur among them |
| `Stats.SustainedStatistics` | scripts/advanced_load_test.py:138-145 | a zero duration raises ZeroDivisionError; otherwise qps times the duration is the total, the success rate is 0 with no requests and success·100/total otherwise, in [0, 100] when successes do not exceed the total, and the latency figures are as above, with the average the mean of the latencies |
| `Stats.BurstScenario` | scripts/advanced_load_test.py:79-91 | 150 replies, the first 100 with status 200 and the rest 429, give 100 successes, 50 rate-limited, no errors and a rate-limit percentage of 100/3 |
| `Stats.SumConstant` | scripts/advanced_load_test.py:91 | n equal latencies sum to n times that latency |
| `Charts.Occurrences` | scripts/advanced_load_test.py:172-174 | a code occurs a positive number of times if and only if it is in the list, and never more often than the list is long |
| `Charts.FirstOccurrences` | scripts/advanced_load_test.py:172-174 | the codes in order of first occurrence: each code of the list appears exactly once, and nothing else appears |
| `Charts.SumAtElsewhere` | scripts/advanced_load_test.py:174 | changing an entry the keys do not reach leaves their sum alone |
| `Charts.SumAtBump` | scripts/advanced_load_test.py:174 | bumping the entry of one of the distinct keys raises their sum by one |
| `Charts.TallyAgain` | scripts/advanced_load_test.py:173-174 | bumping a code that is already a key keeps the dictionary a correct tally of the longer list |
| `Charts.TallyFirst` | scripts/advanced_load_test.py:173-174 | adding a new code as the last key with count 1 keeps the dictionary a correct tally of the longer list |
| `Charts.StatusCounts` | scripts/advanced_load_test.py:172-174 | the dictionary has one key for each distinct status code, each listed once and in order of first occurrence, whose value is its number of occurrences; the values add up to the number of codes |
| `Charts.OccurrencesAreCounters` | scripts/advanced_load_test.py:123-128 | the pie chart's 200 and 429 slices equal the success and rate-limited counters |
| `Charts.CountInWindow` | scripts/advanced_load_test.py:198 | a window never holds more requests than there are timestamps |
| `Charts.WindowsAdd` | scripts/advanced_load_test.py:198 | the counts of two adjacent windows add up to the count of their union |
| `Charts.WindowHoldsItsStart` | scripts/advanced_load_test.py:195-198 | a window that opens at a recorded timestamp holds at least that request |
| `Charts.WindowRate` | scripts/advanced_load_test.py:195-199 | each sampled rate is positive, and the rate times five seconds is the window's request count |
| `Charts.WindowOffset` | scripts/advanced_load_test.py:195-202 | each window position is non-negative, and the position times the window length is the distance from the earliest timestamp |
| `Charts.Range` | scripts/advanced_load_test.py:194 | `range(lo, n, step)` starts at lo, rises by step, stays below n, and stops only when one more step would reach n |
| `Charts.RangeCovers` | scripts/advanced_load_test.py:194 | the range has at least (n − lo)/step indices: their count times step covers the span |
| `Charts.RangeAtLeast` | scripts/advanced_load_test.py:194 | a range over at least m·step indices yields at least m of them |
| `Charts.SampleWindows` | scripts/advanced_load_test.py:194-202 | for a non-zero step, the window loop produces one rate and one position per index of the range, each computed from the timestamp at that index |
| `Charts.SamplingStep` | scripts/advanced_load_test.py:194 | the step is the count divided by 20 and truncated: 20 times the step is at most the count, and 20 times the next step exceeds it |
| `Charts.SamplingStepVanishes` | scripts/advanced_load_test.py:188-194 | for 11 to 19 timestamps the sampling step is 0 |
| `Charts.QpsSeries` | scripts/advanced_load_test.py:187-202 | with 10 timestamps or fewer there is no panel; with 11 to 19 the `range` call fails and the chart is lost; with 20 or more the panel holds the sampled windows, at least 20 of them |
| `Charts.FixedSamplingStep` | scripts/advanced_load_test.py:194 | the corrected step is never 0 and agrees with the original from 20 timestamps on |
| `Charts.QpsSeriesFixed` | scripts/advanced_load_test.py:187-202 | with the corrected step, every run with more than 10 timestamps gets a panel of at least 11 sampled windows |

## Left out

- HTTP I/O: `check_health` and the aiohttp session calls in `single_request` are not
  modelled. A request's outcome is an input value. A caught exception is `Failed`,
  which reports status 0.
- asyncio concurrency: `asyncio.gather`, the worker tasks and interleaving are not
  modelled. The workers' loops run one after the other into the shared result object.
  The counters do not depend on the order in which requests are recorded
  (`Outcomes.CountPermutation`), and the total is the number of recorded requests either
  way. The order of the three lists does depend on it: the model lists them in worker
  order, not completion order.
- LoadTesting.LoadTester.Worker: the worker stops when the deadline test fails or when
  its observed iterations run out. The model cannot express a loop that is bounded only
  by wall-clock time.
- Sleeps and timing: `asyncio.sleep` in the probe and in the worker, and the 10-second
  pause between the tests, are not modelled. Only the number of probe pauses is.
- Clock and floats: `time.time()` becomes clock readings passed in as integer
  microseconds. Float rounding in latencies, means and ratios is not modelled.
- The 95th percentile at line 142 is not modelled. It is `statistics.quantiles(..., n=20)[18]`,
  a library interpolation whose source is not part of this model. On Python versions
  before 3.13 it also raises StatisticsError for a single latency. The model does not
  capture that failure.
- Results.ProbeResults: the probe's dictionary keeps no status list. The model keeps
  one as a ghost field so that the counters can be stated.
- Progress messages: the `print` calls at lines 57, 97, 212 and 215 only report
  progress and are not modelled.
- Default arguments: `concurrent_users=20` (line 19), `requests_count=150` (line 55) and
  `duration_seconds=60` (line 95) are not modelled as defaults. The model's constructor
  and methods take these values as explicit parameters.
- The unused `self.results` and `self.rate_limit_results` lists are not modelled.
- Plotting and presentation are not modelled:
  - the matplotlib calls, the response-time and histogram panels, and `savefig`;
  - `print_summary`;
  - `main` with argparse;
  - the pip-install fallback.

  Only the data behind the status pie and the requests-per-second panel is modelled. A
  tally of an empty code list is empty, which stands for the `if status_codes` guard.
- The Java service (`HelloController`, `RateLimiterConfig`, `HelloService` and their
  tests) is not modelled. Its only logic is a call to bucket4j's token bucket, which is
  not part of this model.

## Findings

| source | as written | input that shows it | evidently intended | confidence | as-written member | corrected member |
|---|---|---|---|---|---|---|
| scripts/advanced_load_test.py:194 | The sampling step is the timestamp count divided by 20, truncated. For 11 to 19 timestamps it is 0, and `range` with a zero step raises ValueError. The handler at line 214 catches it, so no chart file is saved at all. | a sustained run that records 15 requests | a requests-per-second panel for every run with more than 10 timestamps, as the guard on line 188 says | high; not executed | `Charts.QpsSeries` | `Charts.QpsSeriesFixed` |
