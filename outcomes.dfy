/**
 * The outcome of one request and its classification into the three counters
 * that both tests keep: 200 is a success, 429 is rate limited, anything else
 * (including the status 0 that stands for a caught exception) is an error.
 */
module Outcomes {

  /** Clock readings and latencies are integer microseconds. */
  const MicrosPerSecond: nat := 1_000_000

  /**
   * What `single_request` hands back: either an HTTP response with its status,
   * or the exception it caught. Both carry the latency measured up to that point.
   */
  datatype Reply =
    | Response(status: int, latency: int, content: string)
    | Failed(latency: int, detail: string)

  /** The status the callers unpack; a caught exception reports status 0. */
  function StatusOf(r: Reply): (s: int)
    ensures r.Response? ==> s == r.status
    ensures r.Failed? ==> s == 0 && Classify(s) == Error
  {
    match r
    case Response(status, _, _) => status
    case Failed(_, _) => 0
  }

  datatype Category = Success | RateLimited | Error

  /** The if/elif/else chain shared by the probe and the sustained worker. */
  function Classify(status: int): (c: Category)
    ensures c == Success <==> status == 200
    ensures c == RateLimited <==> status == 429
  {
    if status == 200 then Success
    else if status == 429 then RateLimited
    else Error
  }

  /** Number of statuses in `statuses` that fall into category `c`. */
  function Count(statuses: seq<int>, c: Category): (n: nat)
    ensures n <= |statuses|
  {
    if statuses == [] then 0
    else Count(statuses[..|statuses| - 1], c) + (if Classify(statuses[|statuses| - 1]) == c then 1 else 0)
  }

  /** Tallying one more status moves exactly its own category's counter. */
  lemma CountSnoc(statuses: seq<int>, status: int, c: Category)
    ensures Count(statuses + [status], c) == Count(statuses, c) + (if Classify(status) == c then 1 else 0)
  {
    assert (statuses + [status])[..|statuses|] == statuses;
  }

  /** Every status lands in exactly one counter, so the three counters add up to the number of statuses. */
  lemma {:induction false} CountsPartition(statuses: seq<int>)
    ensures Count(statuses, Success) + Count(statuses, RateLimited) + Count(statuses, Error) == |statuses|
  {
    if statuses != [] {
      CountsPartition(statuses[..|statuses| - 1]);
    }
  }

  /** Counting is additive over concatenation: the order in which batches are tallied does not matter. */
  lemma {:induction false} CountAppend(s: seq<int>, t: seq<int>, c: Category)
    ensures Count(s + t, c) == Count(s, c) + Count(t, c)
  {
    if t == [] {
      assert s + t == s;
    } else {
      var init := t[..|t| - 1];
      assert (s + t)[..|s + t| - 1] == s + init;
      CountAppend(s, init, c);
    }
  }

  /** A run of `n` identical statuses counts `n` times in its own category and never elsewhere. */
  lemma {:induction false} CountConstant(n: nat, status: int, c: Category)
    ensures Count(seq(n, _ => status), c) == if Classify(status) == c then n else 0
  {
    if n > 0 {
      assert seq(n, _ => status)[..n - 1] == seq(n - 1, _ => status);
      CountConstant(n - 1, status, c);
    }
  }

  /** Taking one status out of the middle of a record takes it out of its own category's count. */
  lemma CountRemove(t1: seq<int>, x: int, t2: seq<int>, c: Category)
    ensures Count(t1 + [x] + t2, c) == Count(t1 + t2, c) + (if Classify(x) == c then 1 else 0)
  {
    CountAppend(t1, t2, c);
    CountAppend(t1 + [x], t2, c);
    CountSnoc(t1, x, c);
  }

  /** One occurrence of the same status can be struck from both sides of a multiset equation. */
  lemma MultisetCancel(a: multiset<int>, b: multiset<int>, x: int)
    requires a + multiset{x} == b + multiset{x}
    ensures a == b
  {
    forall y ensures a[y] == b[y] {
      assert (a + multiset{x})[y] == (b + multiset{x})[y];
    }
  }

  /** The last status of `s` sits somewhere in any rearrangement `t`; cut `t` around it. */
  lemma Split(s: seq<int>, t: seq<int>) returns (t1: seq<int>, t2: seq<int>)
    requires s != [] && multiset(s) == multiset(t)
    ensures t == t1 + [s[|s| - 1]] + t2
    ensures multiset(s[..|s| - 1]) == multiset(t1 + t2)
  {
    var init, x := s[..|s| - 1], s[|s| - 1];
    assert s == init + [x];
    assert x in multiset(t);
    var k :| 0 <= k < |t| && t[k] == x;
    t1, t2 := t[..k], t[k + 1..];
    assert t == t1 + [x] + t2;
    calc {
      multiset(init) + multiset{x};
      multiset(s);
      multiset(t);
      multiset(t1) + multiset{x} + multiset(t2);
      multiset(t1 + t2) + multiset{x};
    }
    MultisetCancel(multiset(init), multiset(t1 + t2), x);
  }

  /**
   * Counts depend only on which statuses were recorded, not on their order:
   * however concurrent workers interleave their records, the counters agree.
   */
  lemma {:induction false} CountPermutation(s: seq<int>, t: seq<int>, c: Category)
    requires multiset(s) == multiset(t)
    ensures Count(s, c) == Count(t, c)
    decreases |s|
  {
    if s != [] {
      var init, x := s[..|s| - 1], s[|s| - 1];
      var t1, t2 := Split(s, t);
      CountPermutation(init, t1 + t2, c);
      CountRemove(t1, x, t2, c);
      CountSnoc(init, x, c);
      assert s == init + [x];
    }
  }
}
