/**
 * The data the result chart is drawn from: how often each status code
 * occurred, and how many requests started in five-second windows sampled
 * along the run.
 */
module Charts {

  import opened Outcomes
  import opened Stats

  /** Number of occurrences of `code` in `codes`. */
  function Occurrences(codes: seq<int>, code: int): (n: nat)
    ensures n <= |codes|
    ensures n > 0 <==> code in codes
  {
    if codes == [] then 0
    else Occurrences(codes[..|codes| - 1], code) + (if codes[|codes| - 1] == code then 1 else 0)
  }

  lemma OccurrencesSnoc(codes: seq<int>, x: int)
    ensures forall c :: Occurrences(codes + [x], c) == Occurrences(codes, c) + (if x == c then 1 else 0)
  {
    assert (codes + [x])[..|codes|] == codes;
  }

  /** The entries of `m` at `keys`, added up. */
  function SumAt(m: map<int, nat>, keys: seq<int>): nat
    requires forall i :: 0 <= i < |keys| ==> keys[i] in m
  {
    if keys == [] then 0 else SumAt(m, keys[..|keys| - 1]) + m[keys[|keys| - 1]]
  }

  /** The distinct codes of `codes`, in the order they first occur: a dict's insertion order. */
  function FirstOccurrences(codes: seq<int>): (keys: seq<int>)
    ensures forall c :: c in keys <==> c in codes
    ensures Distinct(keys)
  {
    if codes == [] then []
    else
      var init, last := codes[..|codes| - 1], codes[|codes| - 1];
      var keys := FirstOccurrences(init);
      assert forall c :: c in codes <==> c in init || c == last by {
        assert codes == init + [last];
      }
      if last in keys then keys else keys + [last]
  }

  ghost predicate Distinct(keys: seq<int>)
  {
    forall i, j :: 0 <= i < j < |keys| ==> keys[i] != keys[j]
  }

  /** Changing an entry the keys do not reach leaves their sum alone. */
  lemma {:induction false} SumAtElsewhere(m: map<int, nat>, keys: seq<int>, code: int, v: nat)
    requires forall i :: 0 <= i < |keys| ==> keys[i] in m
    requires code !in keys
    ensures SumAt(m[code := v], keys) == SumAt(m, keys)
  {
    if keys != [] {
      SumAtElsewhere(m, keys[..|keys| - 1], code, v);
    }
  }

  /** Bumping the entry of one of the (distinct) keys raises their sum by one. */
  lemma {:induction false} SumAtBump(m: map<int, nat>, keys: seq<int>, code: int)
    requires forall i :: 0 <= i < |keys| ==> keys[i] in m
    requires Distinct(keys) && code in keys
    ensures SumAt(m[code := m[code] + 1], keys) == SumAt(m, keys) + 1
  {
    var init, last := keys[..|keys| - 1], keys[|keys| - 1];
    if last == code {
      assert code !in init;
      SumAtElsewhere(m, init, code, m[code] + 1);
    } else {
      assert code in init;
      SumAtBump(m, init, code);
    }
  }

  /** A code seen before keeps the key order; a new code is appended as the last key. */
  lemma FirstOccurrencesSnoc(codes: seq<int>, code: int)
    ensures FirstOccurrences(codes + [code])
      == if code in codes then FirstOccurrences(codes) else FirstOccurrences(codes) + [code]
  {
    assert (codes + [code])[..|codes|] == codes;
  }

  /**
   * `counts` with key order `keys` is the tally of `codes`: one entry per
   * distinct code, keys listed once each in the order the codes first occur,
   * each entry holding its code's number of occurrences; the entries add up
   * to the number of codes.
   */
  ghost predicate IsTally(codes: seq<int>, counts: map<int, nat>, keys: seq<int>)
  {
    && keys == FirstOccurrences(codes)
    && (forall c :: c in counts <==> c in codes)
    && (forall c :: c in counts ==> counts[c] == Occurrences(codes, c))
    && SumAt(counts, keys) == |codes|
  }

  /** Tallying a code that is already a key bumps its entry. */
  lemma TallyAgain(codes: seq<int>, counts: map<int, nat>, keys: seq<int>, code: int)
    requires IsTally(codes, counts, keys) && code in counts
    ensures IsTally(codes + [code], counts[code := counts[code] + 1], keys)
  {
    assert forall i :: 0 <= i < |keys| ==> keys[i] in counts;
    OccurrencesSnoc(codes, code);
    SumAtBump(counts, keys, code);
    FirstOccurrencesSnoc(codes, code);
  }

  /** Tallying a new code adds it as the last key, with one occurrence. */
  lemma TallyFirst(codes: seq<int>, counts: map<int, nat>, keys: seq<int>, code: int)
    requires IsTally(codes, counts, keys) && code !in counts
    ensures IsTally(codes + [code], counts[code := 1], keys + [code])
  {
    assert forall i :: 0 <= i < |keys| ==> keys[i] in counts;
    OccurrencesSnoc(codes, code);
    SumAtElsewhere(counts, keys, code, 1);
    FirstOccurrencesSnoc(codes, code);
    var keys' := keys + [code];
    assert keys'[..|keys|] == keys;
  }

  /** The status-code tally behind the pie chart, as a dictionary with its key order. */
  method StatusCounts(codes: seq<int>) returns (counts: map<int, nat>, keys: seq<int>)
    ensures IsTally(codes, counts, keys)
  {
    counts, keys := map[], [];
    for i := 0 to |codes|
      invariant IsTally(codes[..i], counts, keys)
    {
      var code := codes[i];
      assert codes[..i + 1] == codes[..i] + [code];
      if code in counts {
        TallyAgain(codes[..i], counts, keys, code);
        counts := counts[code := counts[code] + 1];
      } else {
        TallyFirst(codes[..i], counts, keys, code);
        counts := counts[code := 1];
        keys := keys + [code];
      }
    }
    assert codes[..|codes|] == codes;
  }

  /** The pie chart's 200 and 429 slices are the success and rate-limited counters. */
  lemma {:induction false} OccurrencesAreCounters(codes: seq<int>)
    ensures Occurrences(codes, 200) == Count(codes, Success)
    ensures Occurrences(codes, 429) == Count(codes, RateLimited)
  {
    if codes != [] {
      OccurrencesAreCounters(codes[..|codes| - 1]);
    }
  }

  /** A window spans five seconds of microsecond timestamps. */
  const WindowSeconds: nat := 5
  const WindowLength: nat := WindowSeconds * MicrosPerSecond

  /** How many timestamps lie in `[lo, hi)`. */
  function CountInWindow(ts: seq<int>, lo: int, hi: int): (n: nat)
    ensures n <= |ts|
  {
    if ts == [] then 0
    else CountInWindow(ts[..|ts| - 1], lo, hi) + (if lo <= ts[|ts| - 1] < hi then 1 else 0)
  }

  /** Adjacent windows split the count of their union. */
  lemma {:induction false} WindowsAdd(ts: seq<int>, lo: int, mid: int, hi: int)
    requires lo <= mid <= hi
    ensures CountInWindow(ts, lo, hi) == CountInWindow(ts, lo, mid) + CountInWindow(ts, mid, hi)
  {
    if ts != [] {
      WindowsAdd(ts[..|ts| - 1], lo, mid, hi);
    }
  }

  /** A window that starts at a timestamp contains at least that timestamp. */
  lemma {:induction false} WindowHoldsItsStart(ts: seq<int>, i: nat)
    requires i < |ts|
    ensures CountInWindow(ts, ts[i], ts[i] + WindowLength) >= 1
  {
    if i < |ts| - 1 {
      WindowHoldsItsStart(ts[..|ts| - 1], i);
    }
  }

  /** Requests per second in the window that opens at timestamp `i`: never zero, as the window holds its own start. */
  function WindowRate(ts: seq<int>, i: nat): (rate: real)
    requires i < |ts|
    ensures rate > 0.0
    ensures rate * WindowSeconds as real == CountInWindow(ts, ts[i], ts[i] + WindowLength) as real
  {
    WindowHoldsItsStart(ts, i);
    CountInWindow(ts, ts[i], ts[i] + WindowLength) as real / WindowSeconds as real
  }

  /** Offset, in windows, of timestamp `i` from the run's first timestamp: never negative. */
  function WindowOffset(ts: seq<int>, i: nat): (offset: real)
    requires i < |ts|
    ensures offset >= 0.0
    ensures offset * WindowLength as real == (ts[i] - Min(ts)) as real
  {
    (ts[i] - Min(ts)) as real / WindowLength as real
  }

  /**
   * Python's `range(lo, n, step)` for a positive step: starts at `lo`, moves
   * up by `step`, and stops before reaching `n`.
   */
  function Range(lo: nat, n: nat, step: nat): (r: seq<nat>)
    requires step > 0
    ensures lo < n <==> r != []
    ensures r != [] ==> r[0] == lo && r[|r| - 1] + step >= n
    ensures forall k :: 0 <= k < |r| ==> lo <= r[k] < n
    ensures forall k :: 0 <= k < |r| - 1 ==> r[k + 1] == r[k] + step
    decreases n - lo
  {
    if lo >= n then [] else [lo] + Range(lo + step, n, step)
  }

  /** The range covers its span: `|range(lo, n, step)| * step` is at least `n - lo`. */
  lemma {:induction false} RangeCovers(lo: nat, n: nat, step: nat)
    requires step > 0
    ensures |Range(lo, n, step)| * step >= n - lo
    decreases n - lo
  {
    if lo < n {
      var rest := |Range(lo + step, n, step)|;
      RangeCovers(lo + step, n, step);
      assert |Range(lo, n, step)| == rest + 1;
      MulSucc(rest, step);
    }
  }

  /** A range over at least `m * step` indices yields at least `m` of them. */
  lemma RangeAtLeast(n: nat, step: nat, m: nat)
    requires step > 0 && m * step <= n
    ensures |Range(0, n, step)| >= m
  {
    var len := |Range(0, n, step)|;
    RangeCovers(0, n, step);
    if len < m {
      MulMonotone(len, m - 1, step);
    }
  }

  lemma MulSucc(a: nat, c: nat)
    ensures (a + 1) * c == a * c + c
  {
  }

  lemma MulMonotone(a: nat, b: nat, c: nat)
    requires a <= b
    ensures a * c <= b * c
  {
  }

  /** `qps` and `windows` hold one entry per index the window loop visits. */
  ghost predicate IsSampling(ts: seq<int>, step: nat, qps: seq<real>, windows: seq<real>)
    requires ts != [] && step > 0
  {
    var starts := Range(0, |ts|, step);
    && |qps| == |windows| == |starts|
    && (forall k :: 0 <= k < |starts| ==> qps[k] == WindowRate(ts, starts[k]))
    && (forall k :: 0 <= k < |starts| ==> windows[k] == WindowOffset(ts, starts[k]))
  }

  /**
   * The window loop for a given non-zero step: for each sampled timestamp,
   * the requests per second in the window it opens and the window's offset
   * from the run's first timestamp.
   */
  method SampleWindows(ts: seq<int>, step: nat) returns (qps: seq<real>, windows: seq<real>)
    requires ts != [] && step > 0
    ensures IsSampling(ts, step, qps, windows)
  {
    var starts := Range(0, |ts|, step);
    qps, windows := [], [];
    for k := 0 to |starts|
      invariant |qps| == |windows| == k
      invariant forall j :: 0 <= j < k ==> qps[j] == WindowRate(ts, starts[j])
      invariant forall j :: 0 <= j < k ==> windows[j] == WindowOffset(ts, starts[j])
    {
      var i := starts[k];
      qps := qps + [WindowRate(ts, i)];
      windows := windows + [WindowOffset(ts, i)];
    }
  }

  /** The sampling step the script uses: `len(timestamps) / 20`, truncated. */
  function SamplingStep(n: nat): (step: nat)
    ensures 20 * step <= n < 20 * (step + 1)
  {
    n / 20
  }

  /** For 11 to 19 timestamps the step is zero, and `range` rejects a zero step. */
  lemma SamplingStepVanishes(n: nat)
    requires 10 < n < 20
    ensures SamplingStep(n) == 0
  {
  }

  /** What becomes of the requests-per-second panel. */
  datatype QpsPanel =
    | Skipped                                            // 10 timestamps or fewer
    | Aborted                                            // range() raised ValueError; the whole chart is lost
    | Series(step: nat, qps: seq<real>, windows: seq<real>)

  /** The panel as written: more than 10 timestamps are needed, and fewer than 20 abort. */
  method QpsSeries(ts: seq<int>) returns (panel: QpsPanel)
    ensures panel == Skipped <==> |ts| <= 10
    ensures panel == Aborted <==> 10 < |ts| < 20
    ensures panel.Series? ==>
      && |ts| >= 20
      && panel.step == SamplingStep(|ts|) > 0
      && IsSampling(ts, panel.step, panel.qps, panel.windows)
      && |panel.qps| >= 20
  {
    if |ts| <= 10 {
      return Skipped;
    }
    var step := SamplingStep(|ts|);
    if step == 0 {
      return Aborted;
    }
    var qps, windows := SampleWindows(ts, step);
    RangeAtLeast(|ts|, step, 20);
    panel := Series(step, qps, windows);
  }

  /** The step the panel evidently needs: never below one. */
  function FixedSamplingStep(n: nat): (step: nat)
    ensures step > 0
    ensures n >= 20 ==> step == SamplingStep(n)
  {
    if n / 20 == 0 then 1 else n / 20
  }

  /** The corrected panel: every run with more than 10 timestamps gets a series. */
  method QpsSeriesFixed(ts: seq<int>) returns (panel: QpsPanel)
    ensures panel == Skipped <==> |ts| <= 10
    ensures panel != Aborted
    ensures panel.Series? ==>
      && panel.step == FixedSamplingStep(|ts|)
      && IsSampling(ts, panel.step, panel.qps, panel.windows)
      && |panel.qps| >= 11
  {
    if |ts| <= 10 {
      return Skipped;
    }
    var step := FixedSamplingStep(|ts|);
    var qps, windows := SampleWindows(ts, step);
    if step == 1 {
      RangeAtLeast(|ts|, step, |ts|);
    } else {
      RangeAtLeast(|ts|, step, 20);
    }
    panel := Series(step, qps, windows);
  }
}
