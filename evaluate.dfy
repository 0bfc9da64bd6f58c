/** The per-page evaluation that the command actually runs (src/evaluate.ts). It applies the
    same checks as the per-rule evaluators but reports one aggregate "Single H1 Tag" and one
    aggregate "Heading Order" test, attaches the full-page screenshot path to every failure,
    and stops after a failed page load. */
module Evaluate {
  import opened Wrappers
  import opened Text
  import opened SeoTypes
  import opened Screenshot
  import opened HeadingOrderTest
  import opened H1TagsTest
  import opened CanonicalLinkTest
  import opened PageLoadTest

  /** What the page exposes once loaded: the heading structure from the live DOM, whether the
      live DOM has a canonical link, and the canonical `href` as parsed from the response body. */
  datatype PageSnapshot = PageSnapshot(headings: seq<Heading>, canonicalInDom: bool, staticCanonicalHref: Option<string>)

  /** One navigation: its response, the evaluation's timestamp, the path the full-page
      screenshot is written to, and the page as seen after loading. */
  datatype PageVisit = PageVisit(response: Option<Response>, timestamp: string, screenshotPath: string, snapshot: PageSnapshot)

  const ManyH1Middle := " H1 tags on the page. There should only be one. H1 tags found: "
  const OutOfOrderListPrefix := "Found out of order headings: "

  /** The H1 texts listed in the error, a missing text becoming the empty string. */
  function H1Texts(h1s: seq<Heading>): seq<string> {
    seq(|h1s|, i requires 0 <= i < |h1s| => TextOrEmpty(h1s[i].text))
  }

  function ManyH1Error(h1s: seq<Heading>): string {
    "Found " + NatToString(|h1s|) + ManyH1Middle +
    Join(H1Texts(h1s), ", ")
  }

  /** The aggregate "Single H1 Tag" test. */
  function InlineH1Test(hs: seq<Heading>, path: string): SeoTest {
    var h1s := H1s(hs);
    if |h1s| > 1 then SeoTest("Single H1 Tag", Failed, Some(ManyH1Error(h1s)), Some(path))
    else PassedTest("Single H1 Tag")
  }

  /** Each flagged heading as its tag name, a colon and its text, a missing text rendering as
      "undefined". */
  function OutOfOrderLabels(flagged: seq<Heading>): seq<string> {
    seq(|flagged|, i requires 0 <= i < |flagged| => TagName(flagged[i]) + ": " + TextInTemplate(flagged[i].text))
  }

  /** The aggregate "Heading Order" test. */
  function InlineHeadingOrderTest(hs: seq<Heading>, path: string): SeoTest {
    var flagged := OutOfOrder(hs);
    if |flagged| > 0 then
      SeoTest("Heading Order", Failed, Some(OutOfOrderListPrefix + Join(OutOfOrderLabels(flagged), ", ")), Some(path))
    else PassedTest("Heading Order")
  }

  /** The canonical "Present" check as evaluate.ts writes it. */
  function InlinePresentTests(linkInDom: bool, path: string): seq<SeoTest> {
    if linkInDom then [PassedTest(PresentTitle)]
    else [SeoTest(PresentTitle, Failed, Some(NoCanonicalError), Some(path))]
  }

  /** The canonical "Absolute" check: emitted only for a non-empty static href. */
  function InlineAbsoluteTests(href: Option<string>, path: string): seq<SeoTest> {
    if Truthy(href) && !IsAbsolute(href.value) then [SeoTest(AbsoluteTitle, Failed, Some(NotAbsoluteError(href.value)), Some(path))]
    else if Truthy(href) then [PassedTest(AbsoluteTitle)]
    else []
  }

  /** The canonical "HTTPS" check: emitted only for a non-empty static href. */
  function InlineHttpsTests(href: Option<string>, path: string): seq<SeoTest> {
    if href.Some? && UsesHttp(href.value) then [SeoTest(HttpsTitle, Failed, Some(HttpError(href.value)), Some(path))]
    else if Truthy(href) then [PassedTest(HttpsTitle)]
    else []
  }

  /** The canonical checks as evaluate.ts writes them, with the screenshot path on failures. */
  function InlineCanonicalTests(linkInDom: bool, href: Option<string>, path: string): seq<SeoTest> {
    InlinePresentTests(linkInDom, path) + InlineAbsoluteTests(href, path) + InlineHttpsTests(href, path)
  }

  /** The tests of a page that loaded, in the order they are pushed. */
  function InlineRuleTests(s: PageSnapshot, path: string): seq<SeoTest> {
    [InlineH1Test(s.headings, path), InlineHeadingOrderTest(s.headings, path)] +
    InlineCanonicalTests(s.canonicalInDom, s.staticCanonicalHref, path)
  }

  /** The result `evaluateUrl` returns for `url` given what the visit observed. */
  function InlineEvaluation(url: string, visit: PageVisit): SeoResult {
    if !Loaded(visit.response) then
      SeoResult(url, [SeoTest("Page Load", Failed, Some(PageLoadError(url)), None)], None, visit.timestamp)
    else
      SeoResult(url, InlineRuleTests(visit.snapshot, visit.screenshotPath), Some(visit.screenshotPath), visit.timestamp)
  }

  /** `evaluateUrl`: one sequential pass that pushes each verdict onto `tests`. */
  method EvaluateUrl(url: string, visit: PageVisit) returns (result: SeoResult)
    ensures result == InlineEvaluation(url, visit)
  {
    var tests: seq<SeoTest> := [];
    var response := visit.response;
    if response.None? || !response.value.ok {
      return SeoResult(url, [SeoTest("Page Load", Failed, Some(PageLoadError(url)), None)], None, visit.timestamp);
    }
    var screenshotPath := visit.screenshotPath;
    var headingStructure := visit.snapshot.headings;

    // Check for multiple H1 tags
    var h1Count := |H1s(headingStructure)|;
    if h1Count > 1 {
      tests := tests + [SeoTest("Single H1 Tag", Failed, Some(ManyH1Error(H1s(headingStructure))), Some(screenshotPath))];
    } else {
      tests := tests + [PassedTest("Single H1 Tag")];
    }
    assert tests == [InlineH1Test(headingStructure, screenshotPath)];

    // Check for out of order headings
    var outOfOrder := FilterOutOfOrder(headingStructure);
    if |outOfOrder| > 0 {
      var error := OutOfOrderListPrefix + Join(OutOfOrderLabels(outOfOrder), ", ");
      tests := tests + [SeoTest("Heading Order", Failed, Some(error), Some(screenshotPath))];
    } else {
      tests := tests + [PassedTest("Heading Order")];
    }
    assert tests == [InlineH1Test(headingStructure, screenshotPath), InlineHeadingOrderTest(headingStructure, screenshotPath)];

    ghost var ruleTests := tests;

    // Check for canonical tag
    if !visit.snapshot.canonicalInDom {
      tests := tests + [SeoTest(PresentTitle, Failed, Some(NoCanonicalError), Some(screenshotPath))];
    } else {
      tests := tests + [PassedTest(PresentTitle)];
    }
    ghost var present := InlinePresentTests(visit.snapshot.canonicalInDom, screenshotPath);
    assert tests == ruleTests + present;

    // Check for absolute canonical
    var canonicalHref := visit.snapshot.staticCanonicalHref;
    ghost var beforeAbsolute := tests;
    if Truthy(canonicalHref) && !IsAbsolute(canonicalHref.value) {
      tests := tests + [SeoTest(AbsoluteTitle, Failed, Some(NotAbsoluteError(canonicalHref.value)), Some(screenshotPath))];
    } else if Truthy(canonicalHref) {
      tests := tests + [PassedTest(AbsoluteTitle)];
    }
    ghost var absolute := InlineAbsoluteTests(canonicalHref, screenshotPath);
    assert tests == beforeAbsolute + absolute;

    // Check for canonical not using https
    ghost var beforeHttps := tests;
    if canonicalHref.Some? && UsesHttp(canonicalHref.value) {
      tests := tests + [SeoTest(HttpsTitle, Failed, Some(HttpError(canonicalHref.value)), Some(screenshotPath))];
    } else if Truthy(canonicalHref) {
      tests := tests + [PassedTest(HttpsTitle)];
    }
    ghost var https := InlineHttpsTests(canonicalHref, screenshotPath);
    assert tests == beforeHttps + https;
    RegroupPushes(ruleTests, present, absolute, https);

    result := SeoResult(url, tests, Some(screenshotPath), visit.timestamp);
  }

  /** Pushing three groups one after the other is appending their concatenation. */
  lemma RegroupPushes<T>(a: seq<T>, b: seq<T>, c: seq<T>, d: seq<T>)
    ensures a + b + c + d == a + (b + c + d)
  {
  }

  /** The per-rule outcomes with the page screenshot attached to every failure. */
  function WithEvidence(tests: seq<SeoTest>, path: string): seq<SeoTest> {
    seq(|tests|, i requires 0 <= i < |tests| =>
      if tests[i].state == Failed then tests[i].(screenshot := Some(path)) else tests[i])
  }

  /** A failed load yields exactly the per-rule "Page Load" failure and no rule tests. */
  lemma LoadFailureShortCircuits(url: string, visit: PageVisit)
    requires !Loaded(visit.response)
    ensures var r := InlineEvaluation(url, visit);
      r.tests == PageLoadTests(url, visit.response) && |r.tests| == 1 &&
      r.url == url && r.screenshot == None && r.timestamp == visit.timestamp
  {
  }

  /** A loaded page yields 3 to 5 tests in the fixed order H1, Heading Order, Present, then
      Absolute and HTTPS exactly when the static href is non-empty; the result echoes the URL
      and carries the screenshot path. */
  lemma LoadedShape(url: string, visit: PageVisit)
    requires Loaded(visit.response)
    ensures var r := InlineEvaluation(url, visit);
      3 <= |r.tests| <= 5 &&
      r.tests[0].title == "Single H1 Tag" && r.tests[1].title == "Heading Order" &&
      r.tests[2].title == PresentTitle &&
      (|r.tests| == 5 <==> Truthy(visit.snapshot.staticCanonicalHref)) &&
      (|r.tests| == 3 <==> !Truthy(visit.snapshot.staticCanonicalHref)) &&
      (|r.tests| == 5 ==> r.tests[3].title == AbsoluteTitle && r.tests[4].title == HttpsTitle) &&
      r.url == url && r.screenshot == Some(visit.screenshotPath)
  {
    var s := visit.snapshot;
    InlineCanonicalShape(s.canonicalInDom, s.staticCanonicalHref, visit.screenshotPath);
  }

  /** The canonical block pushes Present, then Absolute and HTTPS exactly for a non-empty href. */
  lemma InlineCanonicalShape(linkInDom: bool, href: Option<string>, path: string)
    ensures var c := InlineCanonicalTests(linkInDom, href, path);
      (|c| == 3 <==> Truthy(href)) && (|c| == 1 <==> !Truthy(href)) && c[0].title == PresentTitle &&
      (|c| == 3 ==> c[1].title == AbsoluteTitle && c[2].title == HttpsTitle)
  {
    if Truthy(href) {
      assert href.Some? && href.value != "";
    }
  }

  /** The aggregate H1 test fails exactly when there are several H1s, and its error then
      names the text of every H1. */
  lemma InlineH1Verdict(hs: seq<Heading>, path: string)
    ensures InlineH1Test(hs, path).state == Failed <==> |H1s(hs)| > 1
    ensures InlineH1Test(hs, path).state == Failed ==>
      forall i :: 0 <= i < |H1s(hs)| ==> Contains(InlineH1Test(hs, path).error.value, TextOrEmpty(H1s(hs)[i].text))
  {
    var h1s := H1s(hs);
    if |h1s| > 1 {
      var prefix := "Found " + NatToString(|h1s|) + ManyH1Middle;
      forall i | 0 <= i < |h1s|
        ensures Contains(InlineH1Test(hs, path).error.value, TextOrEmpty(h1s[i].text))
      {
        JoinContains(H1Texts(h1s), ", ", i);
        ContainsAfter(prefix, Join(H1Texts(h1s), ", "), H1Texts(h1s)[i]);
      }
    }
  }

  /** The inline and per-rule evaluators agree: the aggregate H1 and Heading Order tests fail
      exactly when the per-rule ones report a failure, whatever the element captures do, and
      the canonical tests are the per-rule ones with the page screenshot on each failure. */
  lemma InlineAgreesWithRules(url: string, visit: PageVisit, capture: ElementRef -> CaptureObservation)
    requires Loaded(visit.response)
    ensures var r, s := InlineEvaluation(url, visit), visit.snapshot;
      (r.tests[0].state == Failed <==> exists t :: t in H1Tests(s.headings, capture) && t.state == Failed) &&
      (r.tests[1].state == Failed <==> exists t :: t in HeadingOrderTests(s.headings, capture) && t.state == Failed) &&
      r.tests[2..] == WithEvidence(CanonicalTests(s.canonicalInDom, s.staticCanonicalHref), visit.screenshotPath)
  {
    var s := visit.snapshot;
    H1FailsIffSeveral(s.headings, capture);
    HeadingOrderFailsIffSkip(s.headings, capture);
    InOrderIffNoSkip(s.headings);
    InlineH1Verdict(s.headings, visit.screenshotPath);
    InlineCanonicalHasEvidence(s.canonicalInDom, s.staticCanonicalHref, visit.screenshotPath);
    var r := InlineEvaluation(url, visit);
    assert r.tests[2..] == InlineCanonicalTests(s.canonicalInDom, s.staticCanonicalHref, visit.screenshotPath);
  }

  /** The inline canonical block is the per-rule one with the screenshot path on each failure. */
  lemma InlineCanonicalHasEvidence(linkInDom: bool, href: Option<string>, path: string)
    ensures InlineCanonicalTests(linkInDom, href, path) == WithEvidence(CanonicalTests(linkInDom, href), path)
  {
    var inline, rules := InlineCanonicalTests(linkInDom, href, path), CanonicalTests(linkInDom, href);
    var evidenced := WithEvidence(rules, path);
    assert |inline| == |rules| == |evidenced|;
    forall i | 0 <= i < |inline|
      ensures inline[i] == evidenced[i]
    {
      assert evidenced[i] == if rules[i].state == Failed then rules[i].(screenshot := Some(path)) else rules[i];
    }
  }

  /** Every failed test carries an error (and, after a load, the screenshot path); every
      passed test carries neither error nor screenshot. */
  lemma EvidenceOnFailuresOnly(url: string, visit: PageVisit)
    ensures var r := InlineEvaluation(url, visit);
      forall t :: t in r.tests ==>
        (t.state == Failed ==> t.error.Some? && (Loaded(visit.response) ==> t.screenshot == Some(visit.screenshotPath))) &&
        (t.state == Passed ==> t.error == None && t.screenshot == None)
  {
    if Loaded(visit.response) {
      RuleTestsEvidenced(visit.snapshot, visit.screenshotPath);
    }
  }

  lemma RuleTestsEvidenced(s: PageSnapshot, path: string)
    ensures AllEvidenced(InlineRuleTests(s, path), path)
  {
    CanonicalEvidenced(s.canonicalInDom, s.staticCanonicalHref, path);
    AggregatesEvidenced(s.headings, path);
    ConcatEvidenced([InlineH1Test(s.headings, path), InlineHeadingOrderTest(s.headings, path)], InlineCanonicalTests(s.canonicalInDom, s.staticCanonicalHref, path), path);
  }

  lemma AggregatesEvidenced(hs: seq<Heading>, path: string)
    ensures AllEvidenced([InlineH1Test(hs, path), InlineHeadingOrderTest(hs, path)], path)
  {
  }

  lemma CanonicalEvidenced(linkInDom: bool, href: Option<string>, path: string)
    ensures AllEvidenced(InlineCanonicalTests(linkInDom, href, path), path)
  {
    var present, absolute, https := InlinePresentTests(linkInDom, path), InlineAbsoluteTests(href, path), InlineHttpsTests(href, path);
    assert AllEvidenced(present, path);
    assert AllEvidenced(absolute, path);
    assert AllEvidenced(https, path);
    ConcatEvidenced(present, absolute, path);
    ConcatEvidenced(present + absolute, https, path);
  }

  /** A failed test carries an error and the screenshot path; a passed one carries neither. */
  predicate Evidenced(t: SeoTest, path: string) {
    (t.state == Failed ==> t.error.Some? && t.screenshot == Some(path)) &&
    (t.state == Passed ==> t.error == None && t.screenshot == None)
  }

  predicate AllEvidenced(tests: seq<SeoTest>, path: string) {
    forall t :: t in tests ==> Evidenced(t, path)
  }

  lemma ConcatEvidenced(a: seq<SeoTest>, b: seq<SeoTest>, path: string)
    requires AllEvidenced(a, path) && AllEvidenced(b, path)
    ensures AllEvidenced(a + b, path)
  {
  }
}
