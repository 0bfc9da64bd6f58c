/** The report aggregation of `SEOReportGenerator` (src/report-generator.ts): an append-only
    list of per-page results, and the mochawesome document built from it — one suite per
    result, one mocha test per SEO test, uuids "i" and "i-j", per-suite pass/fail lists and
    the global counters with the rounded pass percentage. */
module ReportGenerator {
  import opened Wrappers
  import opened Text
  import opened SeoTypes

  const DefaultReportDir := "reports"
  const ReportFileName := "seo-report"

  /** The screenshot context of a test entry (serialized as JSON by the source), kept as its
      two fields. */
  datatype ScreenshotContext = ScreenshotContext(title: string, value: string)

  /** The `err` object `{message, estack, diff: null}`; an empty `{}` is `None`. */
  datatype ErrInfo = ErrInfo(message: string, estack: string)

  /** One mochawesome test entry (its constant fields are not modelled). */
  datatype MochaTest = MochaTest(
    uuid: string, title: string, fullTitle: string, duration: nat, state: State,
    speed: Option<string>, pass: bool, fail: bool,
    context: Option<ScreenshotContext>, err: Option<ErrInfo>, parentUuid: string)

  /** One mochawesome suite: a page's tests, split into passes and failures. */
  datatype MochaSuite = MochaSuite(
    uuid: string, title: string, tests: seq<MochaTest>,
    passes: seq<MochaTest>, failures: seq<MochaTest>, duration: nat)

  /** The counters of `stats` (timestamps and the always-zero counters are not modelled). */
  datatype MochaStats = MochaStats(
    suites: nat, tests: nat, passes: nat, failures: nat, testsRegistered: nat,
    passPercent: nat, pendingPercent: nat)

  /** The document handed to the renderer: the stats and the suites under the root suite. */
  datatype MochaReport = MochaReport(stats: MochaStats, suites: seq<MochaSuite>)

  /** What `generateReport` ends in: the rendered HTML path, or the renderer's error rethrown. */
  datatype ReportOutcome =
    | Rendered(data: MochaReport, jsonPath: string, htmlPath: string)
    | RenderFailed(data: MochaReport, jsonPath: string)

  /** A test's uuid: the result's index and the test's index, joined by '-'. */
  function TestUuid(index: nat, testIndex: nat): string {
    NatToString(index) + "-" + NatToString(testIndex)
  }

  /** The mapping of one SEO test of result `index` to a mochawesome test entry. */
  function ToMochaTest(index: nat, url: string, testIndex: nat, t: SeoTest): MochaTest {
    MochaTest(
      uuid := TestUuid(index, testIndex),
      title := t.title,
      fullTitle := url + " " + t.title,
      duration := 100,
      state := t.state,
      speed := if t.state == Passed then Some("fast") else None,
      pass := t.state == Passed,
      fail := t.state == Failed,
      context := if Truthy(t.screenshot) then Some(ScreenshotContext("Screenshot", t.screenshot.value)) else None,
      err := if Truthy(t.error) then Some(ErrInfo(t.error.value, t.error.value)) else None,
      parentUuid := NatToString(index))
  }

  /** The test entries of the result at position `index`, one per SEO test, in order. */
  function MochaTests(index: nat, r: SeoResult): seq<MochaTest> {
    seq(|r.tests|, j requires 0 <= j < |r.tests| => ToMochaTest(index, r.url, j, r.tests[j]))
  }

  /** The passed entries, in order. */
  function Passing(ts: seq<MochaTest>): seq<MochaTest> {
    if ts == [] then [] else (if ts[0].state == Passed then [ts[0]] else []) + Passing(ts[1..])
  }

  /** The failed entries, in order. */
  function Failing(ts: seq<MochaTest>): seq<MochaTest> {
    if ts == [] then [] else (if ts[0].state == Failed then [ts[0]] else []) + Failing(ts[1..])
  }

  /** The suite built from the mapped tests of the result at position `index`. */
  function SuiteOf(index: nat, url: string, tests: seq<MochaTest>): MochaSuite {
    MochaSuite(NatToString(index), url, tests, Passing(tests), Failing(tests), |tests| * 100)
  }

  function ToSuite(index: nat, r: SeoResult): MochaSuite {
    SuiteOf(index, r.url, MochaTests(index, r))
  }

  /** One suite per result, in order: suite `i` is built from result `i`. */
  function Suites(rs: seq<SeoResult>): (ss: seq<MochaSuite>)
    ensures |ss| == |rs|
  {
    if rs == [] then [] else Suites(rs[..|rs| - 1]) + [ToSuite(|rs| - 1, rs[|rs| - 1])]
  }

  /** Running totals that `stats.tests += …`, `stats.passes += …`, `stats.failures += …`
      accumulate over the suites built so far. */
  function SumTests(ss: seq<MochaSuite>): nat {
    if ss == [] then 0 else SumTests(ss[..|ss| - 1]) + |ss[|ss| - 1].tests|
  }

  function SumPasses(ss: seq<MochaSuite>): nat {
    if ss == [] then 0 else SumPasses(ss[..|ss| - 1]) + |ss[|ss| - 1].passes|
  }

  function SumFailures(ss: seq<MochaSuite>): nat {
    if ss == [] then 0 else SumFailures(ss[..|ss| - 1]) + |ss[|ss| - 1].failures|
  }

  /** The number of SEO tests over all results. */
  function TestCount(rs: seq<SeoResult>): nat {
    if rs == [] then 0 else TestCount(rs[..|rs| - 1]) + |rs[|rs| - 1].tests|
  }

  /** The pass percentage rounded to the nearest integer, halves rounded up, computed in exact
      arithmetic; 0 when there are no tests. */
  function PassPercent(passes: nat, tests: nat): (pct: nat)
    ensures tests > 0 ==> 2 * tests * pct <= 200 * passes + tests < 2 * tests * pct + 2 * tests
    ensures tests == 0 ==> pct == 0
  {
    if tests > 0 then (200 * passes + tests) / (2 * tests) else 0
  }

  /** The counters and suites `generateMochawesomeJson` returns for `rs`. */
  function MochawesomeReport(rs: seq<SeoResult>): MochaReport {
    var ss := Suites(rs);
    MochaReport(
      MochaStats(|ss|, SumTests(ss), SumPasses(ss), SumFailures(ss), SumTests(ss),
                 PassPercent(SumPasses(ss), SumTests(ss)), 0),
      ss)
  }

  class SeoReportGenerator {
    var results: seq<SeoResult>
    const reportDir: string

    /** Creating the report directory is a file-system effect and is not modelled. */
    constructor(reportDir: string)
      ensures this.reportDir == reportDir && results == []
    {
      this.reportDir := reportDir;
      results := [];
    }

    /** `addResult`: push onto the end of the list. */
    method AddResult(result: SeoResult)
      modifies this`results
      ensures results == old(results) + [result]
    {
      results := results + [result];
    }

    /** `generateMochawesomeJson`: the `map` over the results, with the counters bumped as
        each suite is built, then the derived `suites`, `testsRegistered` and percentages. */
    method GenerateMochawesomeJson() returns (report: MochaReport)
      ensures report == MochawesomeReport(results)
    {
      var suites: seq<MochaSuite> := [];
      var tests, passes, failures := 0, 0, 0;
      var index: nat := 0;
      while index < |results|
        invariant 0 <= index <= |results|
        invariant suites == Suites(results[..index])
        invariant tests == SumTests(suites) && passes == SumPasses(suites) && failures == SumFailures(suites)
      {
        var result := results[index];
        var mochaTests := MochaTests(index, result);
        tests := tests + |mochaTests|;
        passes := passes + |Passing(mochaTests)|;
        failures := failures + |Failing(mochaTests)|;
        SuitesStep(results, index);
        SumsStep(suites, SuiteOf(index, result.url, mochaTests));
        suites := suites + [SuiteOf(index, result.url, mochaTests)];
        index := index + 1;
      }
      assert results[..index] == results;
      var passPercent := if tests > 0 then PassPercent(passes, tests) else 0;
      report := MochaReport(MochaStats(|suites|, tests, passes, failures, tests, passPercent, 0), suites);
    }

    /** `generateReport`: the JSON is saved, then the renderer runs; its failure is rethrown.
        `renderSucceeds` stands for the outcome of `marge.create`. */
    method GenerateReport(renderSucceeds: bool) returns (outcome: ReportOutcome)
      ensures outcome.data == MochawesomeReport(results)
      ensures outcome.jsonPath == reportDir + "/" + ReportFileName + ".json"
      ensures outcome.Rendered? <==> renderSucceeds
      ensures outcome.Rendered? ==> outcome.htmlPath == reportDir + "/" + ReportFileName + ".html"
    {
      var data := GenerateMochawesomeJson();
      var jsonPath := reportDir + "/" + ReportFileName + ".json";
      if renderSucceeds {
        outcome := Rendered(data, jsonPath, reportDir + "/" + ReportFileName + ".html");
      } else {
        outcome := RenderFailed(data, jsonPath);
      }
    }
  }

  /** Suite `i` is built from result `i`, with `i` as its number. */
  lemma {:induction false} SuiteAt(rs: seq<SeoResult>, i: nat)
    requires i < |rs|
    ensures Suites(rs)[i] == ToSuite(i, rs[i])
  {
    if i < |rs| - 1 {
      SuiteAt(rs[..|rs| - 1], i);
    }
  }

  lemma SuitesStep(rs: seq<SeoResult>, k: nat)
    requires k < |rs|
    ensures Suites(rs[..k + 1]) == Suites(rs[..k]) + [ToSuite(k, rs[k])]
  {
    assert rs[..k + 1][..k] == rs[..k];
  }

  lemma SumsStep(ss: seq<MochaSuite>, s: MochaSuite)
    ensures SumTests(ss + [s]) == SumTests(ss) + |s.tests|
    ensures SumPasses(ss + [s]) == SumPasses(ss) + |s.passes|
    ensures SumFailures(ss + [s]) == SumFailures(ss) + |s.failures|
  {
    assert (ss + [s])[..|ss|] == ss;
  }

  // ----- Properties -----

  /** Adding a result leaves every earlier suite as it was and appends the new one, numbered
      by its position. */
  lemma AddResultExtendsSuites(rs: seq<SeoResult>, r: SeoResult)
    ensures Suites(rs + [r]) == Suites(rs) + [ToSuite(|rs|, r)]
  {
    assert (rs + [r])[..|rs|] == rs;
  }

  /** `stats.suites` is the number of results; suite `i` is titled by result `i`'s url, has
      uuid "i", holds result `i`'s tests mapped in order, and lasts 100 per test. */
  lemma SuiteShape(rs: seq<SeoResult>, i: nat)
    requires i < |rs|
    ensures var report := MochawesomeReport(rs);
      report.stats.suites == |rs| &&
      report.suites[i].title == rs[i].url && report.suites[i].uuid == NatToString(i) &&
      report.suites[i].tests == MochaTests(i, rs[i]) &&
      report.suites[i].duration == 100 * |rs[i].tests|
  {
    SuiteAt(rs, i);
  }

  /** Test `j` of result `i` has uuid "i-j" and parent "i", keeps the SEO test's title and
      state, is titled in full by the page url, and is "fast" exactly when it passed. */
  lemma TestEntryShape(i: nat, r: SeoResult, j: nat)
    requires j < |r.tests|
    ensures var m, t := MochaTests(i, r)[j], r.tests[j];
      |MochaTests(i, r)| == |r.tests| &&
      m.uuid == TestUuid(i, j) && m.parentUuid == NatToString(i) &&
      m.title == t.title && m.fullTitle == r.url + " " + t.title && m.state == t.state &&
      (m.pass <==> t.state == Passed) && (m.fail <==> t.state == Failed) &&
      (m.speed == Some("fast") <==> t.state == Passed)
  {
  }

  /** `err` carries the message exactly when the test has a non-empty error, and `context`
      carries the screenshot exactly when the test has a non-empty screenshot. */
  lemma ErrAndContext(index: nat, url: string, testIndex: nat, t: SeoTest)
    ensures var m := ToMochaTest(index, url, testIndex, t);
      (m.err.Some? <==> Truthy(t.error)) &&
      (m.err.Some? ==> m.err.value.message == t.error.value && m.err.value.estack == t.error.value) &&
      (m.context.Some? <==> Truthy(t.screenshot)) &&
      (m.context.Some? ==> m.context.value == ScreenshotContext("Screenshot", t.screenshot.value))
  {
  }

  /** Distinct positions get distinct test uuids: "i-j" can be read back as (i, j). */
  lemma TestUuidsDistinct(i1: nat, j1: nat, i2: nat, j2: nat)
    requires TestUuid(i1, j1) == TestUuid(i2, j2)
    ensures i1 == i2 && j1 == j2
  {
    var a1, a2 := NatToString(i1), NatToString(i2);
    assert '-' !in a1 && '-' !in a2 by {
      assert !IsDigit('-');
    }
    assert TestUuid(i1, j1) == a1 + ['-'] + NatToString(j1);
    assert TestUuid(i2, j2) == a2 + ['-'] + NatToString(j2);
    BeforeFirstIgnoresRest(a1, '-', NatToString(j1));
    BeforeFirstIgnoresRest(a2, '-', NatToString(j2));
    NatToStringInjective(i1, i2);
    assert NatToString(j1) == TestUuid(i1, j1)[|a1| + 1..];
    assert NatToString(j2) == TestUuid(i2, j2)[|a2| + 1..];
    NatToStringInjective(j1, j2);
  }

  /** The passes and the failures of a suite split its tests: each keeps exactly the tests in
      its state, and together they hold every test once. */
  lemma {:induction false} PartitionsTests(ts: seq<MochaTest>)
    ensures |Passing(ts)| + |Failing(ts)| == |ts|
    ensures multiset(Passing(ts)) + multiset(Failing(ts)) == multiset(ts)
    ensures forall t :: t in Passing(ts) <==> t in ts && t.state == Passed
    ensures forall t :: t in Failing(ts) <==> t in ts && t.state == Failed
  {
    if ts != [] {
      PartitionsTests(ts[1..]);
      assert ts == [ts[0]] + ts[1..];
    }
  }

  /** The filters keep the order: filtering a concatenation concatenates the filtered parts. */
  lemma {:induction false} FiltersKeepOrder(a: seq<MochaTest>, b: seq<MochaTest>)
    ensures Passing(a + b) == Passing(a) + Passing(b)
    ensures Failing(a + b) == Failing(a) + Failing(b)
  {
    if a != [] {
      assert (a + b)[1..] == a[1..] + b;
      FiltersKeepOrder(a[1..], b);
    } else {
      assert a + b == b;
    }
  }

  /** `stats.tests` (and so `testsRegistered`) is the number of SEO tests over all results. */
  lemma {:induction false} TotalIsTestCount(rs: seq<SeoResult>)
    ensures MochawesomeReport(rs).stats.tests == TestCount(rs)
    ensures MochawesomeReport(rs).stats.testsRegistered == TestCount(rs)
  {
    if rs != [] {
      TotalIsTestCount(rs[..|rs| - 1]);
      assert Suites(rs)[..|rs| - 1] == Suites(rs[..|rs| - 1]);
    }
  }

  /** Over any suites built from results, passes and failures add up to the tests. */
  lemma {:induction false} PassesPlusFailures(rs: seq<SeoResult>)
    ensures SumPasses(Suites(rs)) + SumFailures(Suites(rs)) == SumTests(Suites(rs))
  {
    if rs != [] {
      PassesPlusFailures(rs[..|rs| - 1]);
      var ss := Suites(rs);
      assert ss[..|rs| - 1] == Suites(rs[..|rs| - 1]);
      PartitionsTests(ss[|rs| - 1].tests);
    }
  }

  /** The stats agree: passes + failures = tests, the percentage lies in [0, 100], is 100
      when nothing failed, 0 when nothing passed, and is the rounded pass ratio. */
  lemma StatsConsistent(rs: seq<SeoResult>)
    ensures var st := MochawesomeReport(rs).stats;
      st.passes + st.failures == st.tests && st.suites == |rs| &&
      0 <= st.passPercent <= 100 &&
      (st.tests > 0 && st.failures == 0 ==> st.passPercent == 100) &&
      (st.passes == 0 ==> st.passPercent == 0) &&
      (st.tests > 0 ==> 2 * st.tests * st.passPercent <= 200 * st.passes + st.tests < 2 * st.tests * st.passPercent + 2 * st.tests)
  {
    var ss := Suites(rs);
    PassesPlusFailures(rs);
    PassPercentRange(SumPasses(ss), SumTests(ss));
  }

  lemma PassPercentRange(passes: nat, tests: nat)
    requires passes <= tests
    ensures PassPercent(passes, tests) <= 100
    ensures tests > 0 && passes == tests ==> PassPercent(passes, tests) == 100
    ensures passes == 0 ==> PassPercent(passes, tests) == 0
  {
    if tests > 0 {
      var d, pct := 2 * tests, PassPercent(passes, tests);
      assert d * pct < d * 101;
      CancelFactor(d, pct, 101);
      if passes == tests {
        assert d * 100 < d * pct + d == d * (pct + 1);
        CancelFactor(d, 100, pct + 1);
      }
      if passes == 0 {
        assert d * pct < d * 1;
        CancelFactor(d, pct, 1);
      }
    }
  }

  /** A positive common factor can be cancelled from a strict inequality. */
  lemma CancelFactor(d: nat, x: nat, y: nat)
    requires d > 0 && d * x < d * y
    ensures x < y
  {
  }
}
