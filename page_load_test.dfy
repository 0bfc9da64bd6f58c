/** The page-load rule (src/tests/page-load-test.ts): one "Page Load" test from the
    navigation response. */
module PageLoadTest {
  import opened Wrappers
  import opened SeoTypes

  function PageLoadTests(url: string, response: Option<Response>): seq<SeoTest> {
    if Loaded(response) then [PassedTest("Page Load")]
    else [SeoTest("Page Load", Failed, Some(PageLoadError(url)), None)]
  }

  /** `testPageLoad`: one push, failed or passed according to the response. */
  method TestPageLoad(url: string, response: Option<Response>) returns (tests: seq<SeoTest>)
    ensures tests == PageLoadTests(url, response)
  {
    tests := [];
    if response.None? || !response.value.ok {
      tests := tests + [SeoTest("Page Load", Failed, Some(PageLoadError(url)), None)];
    } else {
      tests := tests + [PassedTest("Page Load")];
    }
  }

  /** Exactly one "Page Load" test; it fails iff the response is missing or not ok, with the
      error naming the URL, and a passed test carries no error. */
  lemma PageLoadVerdict(url: string, response: Option<Response>)
    ensures var tests := PageLoadTests(url, response);
      |tests| == 1 && tests[0].title == "Page Load" &&
      (tests[0].state == Failed <==> response.None? || !response.value.ok) &&
      (tests[0].state == Failed ==> tests[0].error == Some("Failed to load page: " + url)) &&
      (tests[0].state == Passed ==> tests[0].error == None)
  {
  }
}
