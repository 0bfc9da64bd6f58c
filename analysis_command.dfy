/** The command handler of src/main.ts: pick the URLs (the positional URL, or what the crawl
    found), evaluate them one at a time into a fresh report generator — a thrown evaluation
    becomes an "Analysis Error" result and the loop carries on — then render the report,
    logging rather than rethrowing a rendering failure. */
module AnalysisCommand {
  import opened Wrappers
  import opened SeoTypes
  import opened Evaluate
  import opened ReportGenerator
  import opened Crawler

  /** The parsed command line: `<url>`, `--crawl`, `--exclude-query-strings`, `--max-urls`. */
  datatype Arguments = Arguments(url: string, crawl: bool, excludeQueryStrings: bool, maxUrls: int)

  /** The option defaults: no crawl, keep query strings, at most 10 URLs. */
  function DefaultArguments(url: string): (args: Arguments)
    ensures args.url == url && !args.crawl && !args.excludeQueryStrings && args.maxUrls == 10
  {
    Arguments(url, false, false, 10)
  }

  /** How one call of `evaluateUrl` went: it returned after this visit, or it threw an error
      (rendered as `${error}`) at the given time. */
  datatype Attempt = Completed(visit: PageVisit) | Threw(error: string, timestamp: string)

  const AnalysisErrorTitle := "Analysis Error"
  const AnalysisErrorPrefix := "Error analyzing URL: "

  /** The result recorded for one URL. */
  function ResultFor(url: string, a: Attempt): SeoResult {
    match a
    case Completed(visit) => InlineEvaluation(url, visit)
    case Threw(error, timestamp) =>
      SeoResult(url, [SeoTest(AnalysisErrorTitle, Failed, Some(AnalysisErrorPrefix + error), None)], None, timestamp)
  }

  /** The results the loop adds, in list order; `attempt(i)` is how the i-th call went. */
  function Results(urls: seq<string>, attempt: nat -> Attempt): seq<SeoResult> {
    seq(|urls|, i requires 0 <= i < |urls| => ResultFor(urls[i], attempt(i)))
  }

  /** The options handed to `crawlSite`. */
  function CrawlOptionsOf(args: Arguments): CrawlOptions {
    CrawlOptions(Some(args.excludeQueryStrings), Some(args.maxUrls))
  }

  /** The positional URL alone, or the crawl result under `--crawl`. */
  function SelectedUrls(args: Arguments, items: seq<QueueItem>): seq<string> {
    if args.crawl then CrawlResult(args.url, CrawlOptionsOf(args), items) else [args.url]
  }

  /** The `for (const url of urls)` loop: one `addResult` per URL, in order. */
  method AnalyzeUrls(urls: seq<string>, attempt: nat -> Attempt, report: SeoReportGenerator)
    modifies report`results
    ensures report.results == old(report.results) + Results(urls, attempt)
  {
    var i := 0;
    while i < |urls|
      invariant 0 <= i <= |urls|
      invariant report.results == old(report.results) + Results(urls[..i], attempt)
    {
      var url := urls[i];
      match attempt(i) {
        case Completed(visit) =>
          var result := EvaluateUrl(url, visit);
          report.AddResult(result);
        case Threw(error, timestamp) =>
          report.AddResult(SeoResult(url, [SeoTest(AnalysisErrorTitle, Failed, Some(AnalysisErrorPrefix + error), None)], None, timestamp));
      }
      ResultsStep(urls, attempt, i);
      i := i + 1;
    }
    assert urls[..i] == urls;
  }

  /** The handler: select the URLs, analyse them into a new generator, then render. The
      rendering outcome is returned, never rethrown. `items` drives the crawl, `attempt` the
      evaluations and `renderSucceeds` the renderer. */
  method RunCommand(args: Arguments, items: seq<QueueItem>, attempt: nat -> Attempt, renderSucceeds: bool)
    returns (urls: seq<string>, results: seq<SeoResult>, rendering: ReportOutcome)
    ensures urls == SelectedUrls(args, items)
    ensures results == Results(urls, attempt)
    ensures rendering.data == MochawesomeReport(results)
    ensures rendering.Rendered? <==> renderSucceeds
  {
    urls := [args.url];
    if args.crawl {
      urls := CrawlSite(args.url, CrawlOptionsOf(args), items);
    }
    var reportGenerator := new SeoReportGenerator(DefaultReportDir);
    AnalyzeUrls(urls, attempt, reportGenerator);
    results := reportGenerator.results;
    rendering := reportGenerator.GenerateReport(renderSucceeds);
  }

  lemma ResultsStep(urls: seq<string>, attempt: nat -> Attempt, i: nat)
    requires i < |urls|
    ensures Results(urls[..i + 1], attempt) == Results(urls[..i], attempt) + [ResultFor(urls[i], attempt(i))]
  {
  }

  // ----- Properties -----

  /** Exactly one result per URL, in list order, each naming its URL. */
  lemma OneResultPerUrl(urls: seq<string>, attempt: nat -> Attempt)
    ensures |Results(urls, attempt)| == |urls|
    ensures forall i :: 0 <= i < |urls| ==> Results(urls, attempt)[i].url == urls[i]
  {
    forall i | 0 <= i < |urls|
      ensures Results(urls, attempt)[i].url == urls[i]
    {
      match attempt(i)
      case Completed(visit) =>
        if Loaded(visit.response) {
          LoadedShape(urls[i], visit);
        } else {
          LoadFailureShortCircuits(urls[i], visit);
        }
      case Threw(_, _) =>
    }
  }

  /** A thrown evaluation yields a single failed "Analysis Error" test carrying the error. */
  lemma ThrownIsAnalysisError(urls: seq<string>, attempt: nat -> Attempt, i: nat)
    requires i < |urls| && attempt(i).Threw?
    ensures var r := Results(urls, attempt)[i];
      |r.tests| == 1 && r.tests[0].title == AnalysisErrorTitle && r.tests[0].state == Failed &&
      r.tests[0].error == Some(AnalysisErrorPrefix + attempt(i).error) &&
      r.screenshot == None && r.timestamp == attempt(i).timestamp
  {
  }

  /** An error on one URL does not affect any other: the result for URL i depends only on
      how the i-th evaluation went. */
  lemma FailuresAreIsolated(urls: seq<string>, a1: nat -> Attempt, a2: nat -> Attempt, i: nat)
    requires i < |urls| && a1(i) == a2(i)
    ensures Results(urls, a1)[i] == Results(urls, a2)[i]
  {
  }

  /** Without `--crawl` exactly the positional URL is analysed; with it, the crawl result,
      which starts with that URL when query strings are kept. */
  lemma UrlSelection(args: Arguments, items: seq<QueueItem>)
    ensures !args.crawl ==> SelectedUrls(args, items) == [args.url]
    ensures args.crawl && !args.excludeQueryStrings ==>
      |SelectedUrls(args, items)| >= 1 && SelectedUrls(args, items)[0] == args.url
  {
    if args.crawl {
      SeedFirstNoDuplicates(args.url, CrawlOptionsOf(args), items);
    }
  }

  /** With the default `--max-urls` a crawl analyses at most 10 URLs; `--max-urls 0` lifts
      the limit. */
  lemma CrawlDefaults(url: string, items: seq<QueueItem>)
    ensures var args := DefaultArguments(url).(crawl := true);
      ResolveLimit(CrawlOptionsOf(args).maxUrls) == AtMost(10) && |SelectedUrls(args, items)| <= 10
    ensures ResolveLimit(CrawlOptionsOf(DefaultArguments(url).(maxUrls := 0)).maxUrls) == Unlimited
  {
    var args := DefaultArguments(url).(crawl := true);
    CrawlBound(url, CrawlOptionsOf(args), items);
  }
}
