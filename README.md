# seo-test, modelled in Dafny

`seo-test` is a command-line SEO checker. It takes one URL, or crawls a site from a seed URL. It loads each page in a headless browser and applies a few rules:

- at most one H1;
- headings must not skip a level;
- there must be a canonical link, which is absolute and uses https;
- the page must load.

The verdicts are collected into a mochawesome report. This project models the decision logic of that program. Every browser, parser, HTTP and file-system call becomes an input:

- a page is a snapshot: its headings, whether the live DOM has a canonical link, the canonical `href` from the static HTML, and the response's ok flag;
- an element capture is a record of how each awaited browser step went;
- a crawl is the sequence of queue items the crawling library hands to the handlers;
- an evaluation is either a completed visit or a thrown error.

The modules follow the source files:

- `Screenshot` is `src/utilities/screenshot.ts`: the defaults, the visibility test, the padded clip, and the primary, fallback and null chain.
- `HeadingOrderTest`, `H1TagsTest`, `CanonicalLinkTest` and `PageLoadTest` are the per-rule evaluators in `src/tests/`. Each is an imperative method proved equal to a specification function, with lemmas about that function.
- `Evaluate` is `src/evaluate.ts`. It is the evaluator the command actually runs: one aggregate H1 test, one aggregate heading-order test, the screenshot path on every failure, and a short circuit after a failed load. Lemmas compare it with the per-rule evaluators.
- `ReportGenerator` is `src/report-generator.ts`. `SeoReportGenerator` is a class whose `results` list only grows. The mochawesome document is built in a loop whose counters are proved to be the specified totals.
- `Crawler` is `src/crawler.ts`. `CrawlSession` holds the insertion-ordered URL set, the stop flag and the first value the promise resolved with. Its handlers are methods, and `CrawlSite` drives them.
- `AnalysisCommand` is the command handler of `src/main.ts`, lines 55-102: URL selection, the sequential analysis loop, and rendering.
- `Wrappers`, `Text`, `Sequences` and `SeoTypes` hold the shared types, string helpers and the records passed between modules.

Three facts about the program shape the model:

- `src/main.ts:75-94` analyses the URLs one after another.
- URLs come only from the positional argument or from the crawl.
- A crawl with `--max-urls` of 1 or less can return two URLs (see `Crawler.CrawlBound`).

## Model

| member | source | states |
|---|---|---|
| SeoTypes.TagName | src/evaluate.ts:56 | a heading's tag name is "H" followed by the digit of its level |
| Text.NatToString | src/report-generator.ts:65 | a number renders as a non-empty string of decimal digits |
| Text.ParseNatToString | src/report-generator.ts:65 | reading the digits back gives the number |
| Text.NatToStringInjective | src/report-generator.ts:65 | different numbers render differently |
| Screenshot.WithDefaults | src/utilities/screenshot.ts:22 | each option the caller leaves undefined takes its default; a given one is kept |
| Screenshot.DefaultOptions | src/utilities/screenshot.ts:22 | the defaults are smooth, center, 500 ms and 100 px of padding |
| Screenshot.PaddedClip | src/utilities/screenshot.ts:68-73 | clip x and y are max(0, coordinate - padding), never negative; width and height grow by 2·padding and are not clamped |
| Screenshot.IsVisible | src/utilities/screenshot.ts:43-49 | an element is invisible iff its width or height is not positive, its visibility is "hidden", its display is "none" or its opacity is the string "0" |
| Screenshot.ClipCoversElement | src/utilities/screenshot.ts:68-73 | for an element at non-negative page coordinates, with non-negative padding, the clip contains the element's box |
| Screenshot.PngDataUrl | src/utilities/screenshot.ts:82 | the result starts with the PNG data-URL prefix, followed by the base64 payload |
| Screenshot.TakeElementScreenshot | src/utilities/screenshot.ts:17-115 | the try/catch chain always returns a value, a data URL or null, and never an error; the value is the one the primary/fallback specification gives |
| Screenshot.ElementCaptureIsPng | src/utilities/screenshot.ts:82-109 | every non-null capture, primary or fallback, is a non-empty PNG data URL |
| Screenshot.VisibleElementUsesPaddedClip | src/utilities/screenshot.ts:56-82 | when every primary step succeeds, the result is the capture of the padded clip |
| Screenshot.InvisibleAtFallbackIsNull | src/utilities/screenshot.ts:87-103 | after a failed primary path, an element invisible at the re-check yields null |
| Screenshot.DisplayNoneYieldsNull | src/utilities/screenshot.ts:39-103 | an element with `display: none` at both visibility checks yields null, not an error |
| Screenshot.FullPageScreenshot | src/utilities/screenshot.ts:122-130 | a full-page capture is a PNG data URL of the payload, and a failed capture propagates |
| PageLoadTest.TestPageLoad | src/tests/page-load-test.ts:4-22 | the pushes produce the specified Page Load list |
| PageLoadTest.PageLoadVerdict | src/tests/page-load-test.ts:7-19 | exactly one "Page Load" test; it fails iff the response is missing or not ok, with error "Failed to load page: {url}"; a pass carries no error |
| HeadingOrderTest.FilterOutOfOrder | src/tests/heading-order-test.ts:10-16 | the filter whose callback overwrites `lastLevel` returns the out-of-order headings, in document order |
| HeadingOrderTest.OutOfOrderAmongMembers | src/tests/heading-order-test.ts:11-16 | among the first n headings, the list holds each heading deeper than its predecessor + 1 and nothing else |
| HeadingOrderTest.OutOfOrderMembers | src/tests/heading-order-test.ts:11-16 | a heading is flagged iff its level exceeds the previous heading's level (0 before the first) by more than 1 |
| HeadingOrderTest.InOrderIffNoSkip | src/tests/heading-order-test.ts:11-18 | nothing is flagged iff no heading skips a level below its predecessor |
| HeadingOrderTest.OutOfOrderAmongGrows | src/tests/heading-order-test.ts:11-16 | the list for a longer prefix extends the list for a shorter one |
| HeadingOrderTest.DeepFirstHeadingIsFlagged | src/tests/heading-order-test.ts:10-13 | because `lastLevel` starts at 0, a first heading at H2 or deeper is flagged first |
| HeadingOrderTest.SkippedLevelExamples | src/tests/heading-order-test.ts:11-16 | H1, H3 flags the H3; H1, H2, H3 flags nothing |
| HeadingOrderTest.RunningLevelExamples | src/tests/heading-order-test.ts:13-14 | `lastLevel` follows the previous heading, not the deepest one: H1, H4, H5 flags only H4, and H1, H4, H2, H4 flags both H4s |
| HeadingOrderTest.TestHeadingOrder | src/tests/heading-order-test.ts:6-53 | the filter, the loop of captures and the pushes produce the specified outcome list |
| HeadingOrderTest.HeadingOrderTestAt | src/tests/heading-order-test.ts:20-38 | the i-th test is the failure for the i-th flagged heading, titled "Out of Order Heading {i+1} of {n}: {tag} \"{text}\"", with that heading's own capture |
| HeadingOrderTest.HeadingOrderTestsShape | src/tests/heading-order-test.ts:18-50 | nothing flagged gives exactly one passed "Heading Order" test; otherwise one failed test per flagged heading, in order, and no passed test |
| HeadingOrderTest.HeadingOrderFailsIffSkip | src/tests/heading-order-test.ts:9-50 | the rule reports a failure iff some heading skips a level below its predecessor |
| HeadingOrderTest.ScreenshotOnlyWhenCaptured | src/tests/heading-order-test.ts:26-35 | a screenshot is attached exactly when the capture returned one; the error text does not depend on it |
| H1TagsTest.H1sMembers | src/tests/h1-tags-test.ts:10-12 | the filter keeps exactly the headings whose tag is "H1" |
| H1TagsTest.TestMultipleH1Tags | src/tests/h1-tags-test.ts:6-50 | the loop of captures and the in-place error extension produce the specified outcome list |
| H1TagsTest.H1TestAt | src/tests/h1-tags-test.ts:15-35 | with several H1s, the i-th test is the failure for the i-th H1, titled "H1 Tag {i+1} of {n}: \"{text}\"" and naming "#{i+1}" |
| H1TagsTest.H1TestsShape | src/tests/h1-tags-test.ts:11-47 | at most one H1 gives exactly one passed "Single H1 Tag" test; n > 1 H1s give exactly n failed ordinal-titled tests in order, and no aggregate |
| H1TagsTest.H1FailsIffSeveral | src/tests/h1-tags-test.ts:10-47 | the rule fails iff more than one heading is an H1 |
| H1TagsTest.ScreenshotOrNote | src/tests/h1-tags-test.ts:24-32 | a captured screenshot is attached with the error unchanged; a null one appends " No screenshot available for this H1 tag."; the state stays failed |
| CanonicalLinkTest.TestCanonicalLink | src/tests/canonical-link-test.ts:5-60 | the if/else chain pushes the specified outcome list |
| CanonicalLinkTest.CanonicalShape | src/tests/canonical-link-test.ts:9-55 | 1 to 3 tests in the order Present, Absolute, HTTPS; exactly one (Present) iff the static href is absent or empty |
| CanonicalLinkTest.CanonicalVerdicts | src/tests/canonical-link-test.ts:9-55 | Present fails iff the DOM has no canonical link; Absolute fails iff the href starts with neither scheme; HTTPS fails iff it starts with "http://" |
| CanonicalLinkTest.CanonicalChecksIndependent | src/tests/canonical-link-test.ts:9-27 | Present depends only on the live DOM; Absolute and HTTPS depend only on the static href |
| CanonicalLinkTest.AtMostOneFormFailure | src/tests/canonical-link-test.ts:28-55 | Absolute and HTTPS never both fail |
| CanonicalLinkTest.RelativeHref | src/tests/canonical-link-test.ts:28-55 | the href "/page" gives Present passed, Absolute failed and HTTPS passed |
| Evaluate.EvaluateUrl | src/evaluate.ts:14-172 | the sequence of pushes returns the specified result for the visit |
| Evaluate.LoadFailureShortCircuits | src/evaluate.ts:29-43 | a missing or not-ok response gives exactly the one failed "Page Load" test, no rule tests and no screenshot |
| Evaluate.LoadedShape | src/evaluate.ts:65-171 | a loaded page gives 3 to 5 tests in the order H1, Heading Order, Present, then Absolute and HTTPS exactly for a non-empty href; the result echoes the URL and carries the screenshot path |
| Evaluate.InlineCanonicalShape | src/evaluate.ts:111-160 | the canonical block pushes Present, then Absolute and HTTPS iff the href is non-empty |
| Evaluate.InlineH1Verdict | src/evaluate.ts:66-82 | the aggregate H1 test fails iff there are several H1s, and its error then contains every H1's text |
| Evaluate.InlineAgreesWithRules | src/evaluate.ts:65-160 | the aggregate H1 and heading-order tests fail iff the per-rule evaluators report a failure, whatever the captures do; the canonical tests are the per-rule ones with the screenshot path on each failure |
| Evaluate.InlineCanonicalHasEvidence | src/evaluate.ts:111-160 | the inline canonical tests equal the per-rule canonical tests with the screenshot path added to failures |
| Evaluate.EvidenceOnFailuresOnly | src/evaluate.ts:29-160 | every failed test has an error and, after a load, the screenshot path; every passed test has neither |
| Evaluate.RuleTestsEvidenced | src/evaluate.ts:69-158 | every test pushed after a load is evidenced: a failure has an error and the path, and a pass has neither |
| Evaluate.AggregatesEvidenced | src/evaluate.ts:66-108 | the aggregate H1 and heading-order tests are evidenced |
| Evaluate.CanonicalEvidenced | src/evaluate.ts:111-160 | the canonical tests are evidenced |
| ReportGenerator.SeoReportGenerator.constructor | src/report-generator.ts:29-38 | a new generator has no results and keeps its report directory |
| ReportGenerator.SeoReportGenerator.AddResult | src/report-generator.ts:40-42 | the result is appended at the end and the earlier results are unchanged |
| ReportGenerator.SeoReportGenerator.GenerateMochawesomeJson | src/report-generator.ts:44-122 | the map with its `+=` counters returns the specified suites and stats |
| ReportGenerator.SeoReportGenerator.GenerateReport | src/report-generator.ts:195-237 | the data saved is the document for the current results at {dir}/seo-report.json; the HTML path {dir}/seo-report.html is returned iff rendering succeeds, and otherwise the failure is rethrown |
| ReportGenerator.PassPercent | src/report-generator.ts:121 | the percentage is the nearest integer to 100·passes/tests, with halves rounded up, or 0 when there are no tests |
| ReportGenerator.SuiteAt | src/report-generator.ts:63-117 | suite i is built from result i, with i as its index |
| ReportGenerator.AddResultExtendsSuites | src/report-generator.ts:40-117 | adding a result keeps every earlier suite and appends one for the new result |
| ReportGenerator.SuiteShape | src/report-generator.ts:99-119 | `stats.suites` is the number of results; suite i has uuid "i", is titled by result i's url, holds its tests mapped in order, and lasts 100 × its test count |
| ReportGenerator.TestEntryShape | src/report-generator.ts:64-93 | test j of result i has uuid "i-j" and parent "i", keeps the title and state, has full title "{url} {title}", and pass, fail and "fast" follow the state |
| ReportGenerator.ErrAndContext | src/report-generator.ts:75-88 | `err` carries the message iff the test has a non-empty error; `context` carries the screenshot iff it has a non-empty screenshot |
| ReportGenerator.TestUuidsDistinct | src/report-generator.ts:65 | distinct (result, test) positions get distinct uuids |
| ReportGenerator.PartitionsTests | src/report-generator.ts:108-109 | a suite's passes and failures hold exactly its passed and failed tests; together they hold every test once |
| ReportGenerator.FiltersKeepOrder | src/report-generator.ts:108-109 | the two filters preserve order: filtering a concatenation concatenates the filtered parts |
| ReportGenerator.TotalIsTestCount | src/report-generator.ts:95-120 | `stats.tests` and `testsRegistered` equal the number of SEO tests over all results |
| ReportGenerator.PassesPlusFailures | src/report-generator.ts:95-97 | passes plus failures equals tests |
| ReportGenerator.StatsConsistent | src/report-generator.ts:95-122 | passes + failures = tests; suites = number of results; passPercent lies in [0, 100], is 100 when nothing failed, 0 when nothing passed, and is the rounded pass ratio |
| ReportGenerator.PassPercentRange | src/report-generator.ts:121 | with passes ≤ tests, the percentage is at most 100, exactly 100 when all passed, and 0 when none passed |
| Crawler.ResolveLimit | src/crawler.ts:11 | maxUrls 0 means unlimited; a missing value means 10; any other number is used as given |
| Crawler.CrawlSession.constructor | src/crawler.ts:10-15 | the set starts as exactly the seed, with its query string removed when that option is set; the crawler is not stopped and nothing is resolved yet |
| Crawler.CrawlSession.OnFetchComplete | src/crawler.ts:43-64 | only a text/html content type adds the normalised URL; reaching a finite limit stops the crawler and resolves with the set if nothing was resolved before; the set keeps the seed first and has no duplicates |
| Crawler.CrawlSession.OnFetchError | src/crawler.ts:70-73 | a fetch error changes nothing and rejects nothing |
| Crawler.CrawlSession.OnComplete | src/crawler.ts:65-68 | completion resolves with the current set unless the promise is already resolved |
| Crawler.CrawlSite | src/crawler.ts:8-77 | the array the promise first resolves with is the specified crawl result for the queue items |
| Crawler.AddKeepsDistinct | src/crawler.ts:54 | a set addition keeps the set free of duplicates, contains the URL, and grows by one at the end only when the URL is new |
| Crawler.DiscoveredExtends | src/crawler.ts:43-64 | the set only grows at its end, so the result is in first-insertion order |
| Crawler.DiscoveredDistinct | src/crawler.ts:43-64 | the result holds no URL twice |
| Crawler.DiscoveredSound | src/crawler.ts:43-64 | every URL found was already in the set or is the normalised URL of an allowed, fetched HTML page |
| Crawler.UnlimitedIsComplete | src/crawler.ts:43-64 | without a limit every allowed, fetched HTML page is in the result |
| Crawler.WithinLimit | src/crawler.ts:56-62 | a set below a finite limit never grows past it |
| Crawler.StopsAtFirstPage | src/crawler.ts:56-62 | a set that already fills the limit, or is one short of it, grows by at most one URL |
| Crawler.BelowLimitIsUnlimited | src/crawler.ts:56-68 | a crawl that ends below its limit equals the unlimited crawl |
| Crawler.SeedFirstNoDuplicates | src/crawler.ts:10-15 | the result starts with the normalised seed and has no duplicates |
| Crawler.CrawlBound | src/crawler.ts:56-62 | with a finite limit n the result has at most n URLs when n ≥ 2, and at most 2 otherwise |
| Crawler.LimitOneAdmitsSecondUrl | src/crawler.ts:11-62 | with maxUrls 1, a first HTML page under a URL other than the seed is still added: the result has two URLs |
| Crawler.ResultIsSeedAndHtmlPages | src/crawler.ts:43-68 | every URL in the result is the seed or an allowed, fetched HTML page; with maxUrls 0 every such page is in it |
| Crawler.Normalize | src/crawler.ts:14 | without exclusion the URL is kept; with it, the result is the prefix of the URL up to its first '?', holds no '?', and is followed in the URL by '?' when shorter |
| Crawler.IsHtml | src/crawler.ts:45 | an absent or empty content-type header never marks an HTML page; an HTML header is at least as long as "text/html" |
| Crawler.HtmlContentTypes | src/crawler.ts:45 | a header starting with "text/html", with or without parameters, marks an HTML page; "image/png" and "text/css" do not |
| Crawler.FetchAllowed | src/crawler.ts:22-41 | a URL is fetched iff no listed extension is a suffix of its whole text |
| Crawler.NormalizeIdempotent | src/crawler.ts:49-51 | stripping the query string twice is stripping it once, and the result has no '?' |
| Crawler.QueryVariantsShareEntry | src/crawler.ts:14 | URLs that differ only after the first '?' normalise to one entry |
| Crawler.LastCharAllows | src/crawler.ts:22-41 | a URL whose last character cannot end a listed extension passes the fetch filter |
| Crawler.BlockedExamples | src/crawler.ts:22-41 | URLs ending in .pdf, .png, .css or .js are not fetched |
| Crawler.AllowedExamples | src/crawler.ts:40 | the filter tests the whole URL: "…/doc.pdf?x=1" passes |
| Crawler.ListedExtensionBlocks | src/crawler.ts:40 | a URL ending in any listed extension fails the fetch filter |
| AnalysisCommand.DefaultArguments | src/main.ts:36-53 | the defaults are crawl false, exclude-query-strings false and max-urls 10 |
| AnalysisCommand.AnalyzeUrls | src/main.ts:75-94 | the loop appends exactly one result per URL, in list order, after the generator's earlier results |
| AnalysisCommand.RunCommand | src/main.ts:55-102 | the URLs are the selected ones; the results are one per URL; the report data is built from them; a rendering failure is returned, not rethrown |
| AnalysisCommand.OneResultPerUrl | src/main.ts:75-94 | there is one result per URL, and result i names URL i |
| AnalysisCommand.ThrownIsAnalysisError | src/main.ts:80-92 | a thrown evaluation gives one failed "Analysis Error" test with "Error analyzing URL: {error}" and no screenshot |
| AnalysisCommand.FailuresAreIsolated | src/main.ts:77-93 | the result for URL i depends only on how the i-th evaluation went, so an error never affects another URL |
| AnalysisCommand.UrlSelection | src/main.ts:57-70 | without --crawl the list is exactly [url]; with it, the crawl result, which starts with the URL when query strings are kept |
| AnalysisCommand.CrawlDefaults | src/main.ts:48-69 | with the default max-urls a crawl yields at most 10 URLs; max-urls 0 lifts the limit |

## Left out

- Browser automation is not modelled: launching, navigation, element queries, `page.evaluate`, `scrollIntoView`, and page and element screenshots. These are foreign calls. Their observable results are inputs: `PageSnapshot`, `Response` and `CaptureObservation`.
- HTML parsing of the response body is not modelled. The static canonical `href` is an input.
- The heading record type comes from `src/tests/types.ts`, which is not part of this model. From its uses, a heading is `{tag, text, element}`. The tag is modelled as a level 1..6, and the trimmed text as an optional string.
- The crawling library is not modelled: queueing, link discovery, HTTP fetching and `maxConcurrency`. The handlers are driven by the sequence of queue items the library would produce. An item failing the fetch condition is one the library never fetches, so no handler sees it.
- Console logging is not modelled anywhere, including the warning for `--max-urls 0`.
- Timing is not modelled: the scroll-settle wait and the Date/ISO timestamps.
- The full-page screenshot path built from `encodeURIComponent` and `Date.now` is an opaque string input.
- The scroll behaviour and block options are only passed on to the browser, so they have no modelled effect.
- The file system is not modelled: `mkdir`, `writeFileSync`, the JSON text and `marge.create`. Whether rendering succeeds is a boolean input.
- The mochawesome and marge metadata are not modelled, nor the constant fields of each test and suite entry (`timedOut`, `pending`, `code`, `isRoot` and the like), nor the root-suite wrapper, nor `stats.start`, `end`, `duration`, `pending`, `other` and `skipped`.
- ReportGenerator.ScreenshotContext: the `context` JSON string is kept as its two fields rather than as serialized text.
- ReportGenerator.SeoReportGenerator.GenerateReport: the paths are written as `{dir}/seo-report.json` and `{dir}/seo-report.html`, without the normalisation `path.join` applies.
- ReportGenerator.PassPercent: uses exact integer rounding of 100·passes/tests. The source divides in floating point and applies `Math.round`, which can differ at exact .5 boundaries.
- Screenshot.PaddedClip: geometry is in real numbers, not IEEE doubles.
- Crawler.CrawlBound: bounds the result by n only for a limit n ≥ 2, and by 2 for a limit of 1 or less. This is weaker than the `--max-urls` promise, because the handler checks the limit only after adding an HTML page. `Crawler.LimitOneAdmitsSecondUrl` exhibits the overshoot.
- Crawler.ResolveLimit: `maxUrls` is an integer. NaN and fractional values are not modelled.
- Crawler.CrawlSession.OnComplete: a second resolution of the promise is modelled as keeping the first value. Whether the library still emits `complete` after `stop()` is not modelled, because it cannot change the result.
- Argument parsing with yargs, the help and version options, and the `package.json` read are not modelled.
- The per-rule evaluators are modelled on their own. The command calls only the inline evaluator, and `Evaluate.InlineAgreesWithRules` relates the two.
