/**
 * The base address and the three endpoints the load tester derives from it
 * when it is constructed: trailing slashes are stripped, then fixed paths are
 * appended.
 */
module Urls {

  import opened Wrappers

  const HelloPath: string := "/api/hello"
  const HealthPath: string := "/api/health"
  const MetricsPath: string := "/actuator/prometheus"

  /** `s` is `r` followed by nothing but slashes, and `r` does not end in a slash. */
  ghost predicate IsSlashStripped(s: string, r: string)
  {
    && |r| <= |s|
    && r == s[..|r|]
    && (r == [] || r[|r| - 1] != '/')
    && forall i :: |r| <= i < |s| ==> s[i] == '/'
  }

  /** Python's `str.rstrip('/')`: removes every trailing slash. */
  function RStripSlash(s: string): (r: string)
    ensures IsSlashStripped(s, r)
  {
    if |s| > 0 && s[|s| - 1] == '/' then RStripSlash(s[..|s| - 1]) else s
  }

  /** The characterisation above pins the result down: nothing else strips `s`. */
  lemma StrippedIsUnique(s: string, r: string)
    requires IsSlashStripped(s, r)
    ensures r == RStripSlash(s)
  {
  }

  /** Stripping twice is the same as stripping once. */
  lemma RStripIdempotent(s: string)
    ensures RStripSlash(RStripSlash(s)) == RStripSlash(s)
  {
  }

  /** Any number of extra trailing slashes leads to the same base address. */
  lemma {:induction false} RStripIgnoresExtraSlashes(s: string, k: nat)
    ensures RStripSlash(s + seq(k, _ => '/')) == RStripSlash(s)
  {
    if k > 0 {
      var t := s + seq(k, _ => '/');
      assert t[..|t| - 1] == s + seq(k - 1, _ => '/');
      RStripIgnoresExtraSlashes(s, k - 1);
    } else {
      assert s + seq(k, _ => '/') == s;
    }
  }

  /** The base address and the endpoints built from it by `LoadTester.__init__`. */
  datatype Endpoints = Endpoints(baseUrl: string, hello: string, health: string, metrics: string)

  function DeriveEndpoints(url: string): (e: Endpoints)
    ensures IsSlashStripped(url, e.baseUrl)
    ensures e.hello == e.baseUrl + HelloPath
    ensures e.health == e.baseUrl + HealthPath
    ensures e.metrics == e.baseUrl + MetricsPath
  {
    var base := RStripSlash(url);
    Endpoints(base, base + HelloPath, base + HealthPath, base + MetricsPath)
  }

  /** `s` with `suffix` removed, if `s` ends with it. */
  function StripSuffix(s: string, suffix: string): (r: Option<string>)
    ensures r.Some? <==> |suffix| <= |s| && s[|s| - |suffix|..] == suffix
    ensures r.Some? ==> r.value + suffix == s
  {
    if |suffix| <= |s| && s[|s| - |suffix|..] == suffix then Some(s[..|s| - |suffix|]) else None
  }

  /** The base address can be read back from each endpoint, and never ends in a slash. */
  lemma EndpointsRecoverBase(url: string)
    ensures var e := DeriveEndpoints(url);
      && StripSuffix(e.hello, HelloPath) == Some(e.baseUrl)
      && StripSuffix(e.health, HealthPath) == Some(e.baseUrl)
      && StripSuffix(e.metrics, MetricsPath) == Some(e.baseUrl)
  {
    var e := DeriveEndpoints(url);
    assert e.hello[..|e.hello| - |HelloPath|] == e.baseUrl;
    assert e.health[..|e.health| - |HealthPath|] == e.baseUrl;
    assert e.metrics[..|e.metrics| - |MetricsPath|] == e.baseUrl;
  }

  /** Two addresses give the same hello endpoint exactly when they have the same base. */
  lemma HelloEndpointInjective(url1: string, url2: string)
    ensures DeriveEndpoints(url1).hello == DeriveEndpoints(url2).hello
        <==> RStripSlash(url1) == RStripSlash(url2)
  {
    var e1, e2 := DeriveEndpoints(url1), DeriveEndpoints(url2);
    if e1.hello == e2.hello {
      assert e1.baseUrl == e1.hello[..|e1.hello| - |HelloPath|];
      assert e2.baseUrl == e2.hello[..|e2.hello| - |HelloPath|];
    }
  }

  /** The three endpoints of one tester are pairwise different. */
  lemma EndpointsDistinct(url: string)
    ensures var e := DeriveEndpoints(url);
      e.hello != e.health && e.hello != e.metrics && e.health != e.metrics
  {
    var e := DeriveEndpoints(url);
    var n := |e.baseUrl|;
    assert e.hello[n + 5] == 'h' && e.health[n + 5] == 'h';
    assert e.hello[n + 6] == 'e' && e.health[n + 6] == 'e';
    assert e.hello[n + 7] == 'l' && e.health[n + 7] == 'a';
    assert e.metrics[n + 1] == 'a' && e.metrics[n + 2] == 'c';
    assert e.hello[n + 2] == 'p' && e.health[n + 2] == 'p';
  }

  /** Exactly one slash joins a non-empty base and the path: no `//` appears at the seam. */
  lemma EndpointSeamHasOneSlash(url: string)
    ensures var e := DeriveEndpoints(url);
      e.baseUrl != [] ==> e.hello[|e.baseUrl| - 1] != '/' && e.hello[|e.baseUrl|] == '/'
  {
  }
}
