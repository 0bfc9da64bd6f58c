/** Site discovery (src/crawler.ts): the URL set seeded with the start URL, the limit taken
    from `maxUrls`, query-string stripping, the extension fetch filter, and the
    `fetchcomplete` / `fetcherror` / `complete` handlers. The crawling library itself is
    replaced by the sequence of queue items it would hand to those handlers. */
module Crawler {
  import opened Wrappers
  import opened Text
  import opened SeoTypes

  /** The crawl options; each may be left undefined. */
  datatype CrawlOptions = CrawlOptions(excludeQueryStrings: Option<bool>, maxUrls: Option<int>)

  /** The resolved `maxUrls`: `Infinity`, or a finite number. */
  datatype Limit = Unlimited | AtMost(n: int)

  /** How the library's fetch of one queue item ended: a completed fetch with its
      `content-type` header (absent when the header is missing), or a fetch error. */
  datatype FetchOutcome = Fetched(contentType: Option<string>) | FetchFailed

  /** One URL the library queued, and what fetching it produced. */
  datatype QueueItem = QueueItem(url: string, outcome: FetchOutcome)

  const DefaultMaxUrls := 10

  /** The limit the crawl runs under: 0 means no limit, a missing value means 10, and any other
      number (negative ones included) is taken as given. */
  function ResolveLimit(maxUrls: Option<int>): (limit: Limit)
    ensures limit.Unlimited? <==> maxUrls == Some(0)
    ensures maxUrls.None? ==> limit == AtMost(DefaultMaxUrls)
    ensures maxUrls.Some? && maxUrls.value != 0 ==> limit == AtMost(maxUrls.value)
  {
    match maxUrls
    case None => AtMost(DefaultMaxUrls)
    case Some(n) => if n == 0 then Unlimited else AtMost(n)
  }

  /** Query strings are excluded only when the option is given as true. */
  function ExcludesQueryStrings(options: CrawlOptions): bool {
    options.excludeQueryStrings == Some(true)
  }

  /** With query strings excluded, the URL up to its first '?'; otherwise the URL unchanged. */
  function Normalize(url: string, excludeQueryStrings: bool): (normalized: string)
    ensures !excludeQueryStrings ==> normalized == url
    ensures excludeQueryStrings ==>
      StartsWith(url, normalized) && '?' !in normalized &&
      (|normalized| < |url| ==> url[|normalized|] == '?')
  {
    if excludeQueryStrings then BeforeFirstIsCleanPrefix(url, '?'); BeforeFirst(url, '?') else url
  }

  /** The extension list of the fetch condition, in source order (".js" is listed twice). */
  const FilteredExtensions: seq<string> :=
    [".jpg", ".jpeg", ".png", ".gif", ".pdf", ".doc", ".docx", ".xls", ".xlsx", ".js", ".xml", ".css", ".js"]

  /** The fetch condition: the whole URL text must not end with a listed extension. */
  predicate FetchAllowed(url: string)
    ensures FetchAllowed(url) <==> forall ext :: ext in FilteredExtensions ==> !EndsWith(url, ext)
  {
    forall k :: 0 <= k < |FilteredExtensions| ==> !EndsWith(url, FilteredExtensions[k])
  }

  /** The response is an HTML page: its content-type header is present, non-empty and
      mentions "text/html" anywhere. */
  predicate IsHtml(contentType: Option<string>)
    ensures contentType.None? || contentType == Some("") ==> !IsHtml(contentType)
    ensures IsHtml(contentType) ==> contentType.Some? && |contentType.value| >= |"text/html"|
  {
    Truthy(contentType) && Contains(contentType.value, "text/html")
  }

  /** A queue item that passes the fetch condition and completes with an HTML content type. */
  predicate HtmlPage(item: QueueItem) {
    FetchAllowed(item.url) && item.outcome.Fetched? && IsHtml(item.outcome.contentType)
  }

  /** Adding to an insertion-ordered set: a new URL goes at the end, a known one changes nothing. */
  function Add(urls: seq<string>, u: string): seq<string> {
    if u in urls then urls else urls + [u]
  }

  predicate NoDuplicates(urls: seq<string>) {
    forall i, j :: 0 <= i < j < |urls| ==> urls[i] != urls[j]
  }

  /** The limit is finite and the set has reached (or passed) it. */
  predicate LimitReached(limit: Limit, size: nat) {
    limit.AtMost? && size >= limit.n
  }

  /** The set after the handlers have seen `items`, starting from `urls`: every HTML page
      adds its normalised URL, and the crawl ends at the first page after which the limit
      is reached. */
  function Discovered(urls: seq<string>, items: seq<QueueItem>, limit: Limit, exclude: bool): seq<string>
    decreases |items|
  {
    if items == [] then urls
    else if HtmlPage(items[0]) then
      var next := Add(urls, Normalize(items[0].url, exclude));
      if LimitReached(limit, |next|) then next else Discovered(next, items[1..], limit, exclude)
    else Discovered(urls, items[1..], limit, exclude)
  }

  /** The array `crawlSite` resolves with. */
  function CrawlResult(startUrl: string, options: CrawlOptions, items: seq<QueueItem>): seq<string> {
    var exclude := ExcludesQueryStrings(options);
    Discovered([Normalize(startUrl, exclude)], items, ResolveLimit(options.maxUrls), exclude)
  }

  /** The mutable state of one crawl: the URL set, whether the crawler was stopped, and the
      value the promise was first resolved with. */
  class CrawlSession {
    var urls: seq<string>
    var stopped: bool
    var resolution: Option<seq<string>>
    const seed: string
    const limit: Limit
    const excludeQueryStrings: bool

    /** The set holds the seed first and no URL twice. */
    predicate Valid()
      reads this
    {
      |urls| >= 1 && urls[0] == seed && NoDuplicates(urls)
    }

    /** The promise body up to `crawler.start()`: resolve the limit and add the seed. */
    constructor(startUrl: string, options: CrawlOptions)
      ensures Valid()
      ensures excludeQueryStrings == ExcludesQueryStrings(options)
      ensures limit == ResolveLimit(options.maxUrls)
      ensures seed == Normalize(startUrl, excludeQueryStrings)
      ensures urls == [seed] && !stopped && resolution == None
    {
      excludeQueryStrings := ExcludesQueryStrings(options);
      limit := ResolveLimit(options.maxUrls);
      seed := Normalize(startUrl, ExcludesQueryStrings(options));
      urls := [Normalize(startUrl, ExcludesQueryStrings(options))];
      stopped := false;
      resolution := None;
    }

    /** The `fetchcomplete` handler: an HTML page adds its normalised URL; reaching a finite
        limit stops the crawler and resolves the promise (a promise keeps its first value). */
    method OnFetchComplete(url: string, contentType: Option<string>)
      requires Valid()
      modifies this
      ensures Valid()
      ensures urls == if IsHtml(contentType) then Add(old(urls), Normalize(url, excludeQueryStrings)) else old(urls)
      ensures stopped == (old(stopped) || (IsHtml(contentType) && LimitReached(limit, |urls|)))
      ensures resolution ==
        if old(resolution).None? && IsHtml(contentType) && LimitReached(limit, |urls|) then Some(urls)
        else old(resolution)
    {
      if IsHtml(contentType) {
        var urlToAdd := url;
        if excludeQueryStrings {
          urlToAdd := BeforeFirst(urlToAdd, '?');
        }
        AddKeepsDistinct(urls, urlToAdd);
        urls := Add(urls, urlToAdd);
        if limit.AtMost? && |urls| >= limit.n {
          stopped := true;
          if resolution.None? {
            resolution := Some(urls);
          }
        }
      }
    }

    /** The `fetcherror` handler only logs: nothing changes and nothing is rejected. */
    method OnFetchError(url: string)
      ensures unchanged(this)
    {
    }

    /** The `complete` handler resolves with the current set (unless already resolved). */
    method OnComplete()
      modifies this`resolution
      ensures resolution == if old(resolution).None? then Some(urls) else old(resolution)
    {
      if resolution.None? {
        resolution := Some(urls);
      }
    }
  }

  /** `crawlSite`: seed the set, then let the library hand each queued item to the handlers
      until it is stopped or runs out of items, and return what the promise resolved with.
      Items that fail the fetch condition are never fetched, so no handler sees them. */
  method CrawlSite(startUrl: string, options: CrawlOptions, items: seq<QueueItem>) returns (found: seq<string>)
    ensures found == CrawlResult(startUrl, options, items)
  {
    var session := new CrawlSession(startUrl, options);
    ghost var exclude, limit := session.excludeQueryStrings, session.limit;
    var i := 0;
    while i < |items| && !session.stopped
      invariant 0 <= i <= |items|
      invariant session.Valid()
      invariant session.excludeQueryStrings == exclude && session.limit == limit
      invariant session.stopped ==>
        session.resolution == Some(session.urls) && session.urls == CrawlResult(startUrl, options, items)
      invariant !session.stopped ==>
        session.resolution == None &&
        Discovered(session.urls, items[i..], limit, exclude) == CrawlResult(startUrl, options, items)
      decreases |items| - i
    {
      var item := items[i];
      assert items[i..][1..] == items[i + 1..];
      if FetchAllowed(item.url) {
        match item.outcome
        case Fetched(contentType) =>
          session.OnFetchComplete(item.url, contentType);
        case FetchFailed =>
          session.OnFetchError(item.url);
      }
      i := i + 1;
    }
    if !session.stopped {
      session.OnComplete();
    }
    found := session.resolution.value;
  }

  // ----- The URL set -----

  lemma AddKeepsDistinct(urls: seq<string>, u: string)
    requires NoDuplicates(urls)
    ensures NoDuplicates(Add(urls, u)) && u in Add(urls, u)
    ensures |Add(urls, u)| == if u in urls then |urls| else |urls| + 1
    ensures |urls| <= |Add(urls, u)| && Add(urls, u)[..|urls|] == urls
  {
  }

  /** The set only grows at its end: whatever was in it keeps its place, so the seed stays
      first and the array lists URLs in first-insertion order. */
  lemma {:induction false} DiscoveredExtends(urls: seq<string>, items: seq<QueueItem>, limit: Limit, exclude: bool)
    ensures var found := Discovered(urls, items, limit, exclude);
      |urls| <= |found| && found[..|urls|] == urls
    decreases |items|
  {
    if items != [] {
      var next := if HtmlPage(items[0]) then Add(urls, Normalize(items[0].url, exclude)) else urls;
      assert |urls| <= |next| && next[..|urls|] == urls;
      if !(HtmlPage(items[0]) && LimitReached(limit, |next|)) {
        DiscoveredExtends(next, items[1..], limit, exclude);
        var found := Discovered(urls, items, limit, exclude);
        assert found[..|next|][..|urls|] == found[..|urls|];
      }
    }
  }

  lemma {:induction false} DiscoveredDistinct(urls: seq<string>, items: seq<QueueItem>, limit: Limit, exclude: bool)
    requires NoDuplicates(urls)
    ensures NoDuplicates(Discovered(urls, items, limit, exclude))
    decreases |items|
  {
    if items != [] {
      if HtmlPage(items[0]) {
        AddKeepsDistinct(urls, Normalize(items[0].url, exclude));
        var next := Add(urls, Normalize(items[0].url, exclude));
        if !LimitReached(limit, |next|) {
          DiscoveredDistinct(next, items[1..], limit, exclude);
        }
      } else {
        DiscoveredDistinct(urls, items[1..], limit, exclude);
      }
    }
  }

  /** Every URL found was already there or is the normalised URL of an HTML page that passed
      the fetch condition. */
  lemma {:induction false} DiscoveredSound(urls: seq<string>, items: seq<QueueItem>, limit: Limit, exclude: bool, u: string)
    requires u in Discovered(urls, items, limit, exclude)
    ensures u in urls || exists k :: 0 <= k < |items| && HtmlPage(items[k]) && u == Normalize(items[k].url, exclude)
    decreases |items|
  {
    if items != [] {
      var next := if HtmlPage(items[0]) then Add(urls, Normalize(items[0].url, exclude)) else urls;
      if !(HtmlPage(items[0]) && LimitReached(limit, |next|)) {
        DiscoveredSound(next, items[1..], limit, exclude, u);
        if u !in next {
          var k :| 0 <= k < |items[1..]| && HtmlPage(items[1..][k]) && u == Normalize(items[1..][k].url, exclude);
          assert items[k + 1] == items[1..][k];
        }
      }
      if u !in urls {
        assert HtmlPage(items[0]) ==> u == Normalize(items[0].url, exclude) || u !in next;
      }
    }
  }

  /** Without a limit, every HTML page that passes the fetch condition is in the result. */
  lemma {:induction false} UnlimitedIsComplete(urls: seq<string>, items: seq<QueueItem>, exclude: bool, k: nat)
    requires k < |items| && HtmlPage(items[k])
    ensures Normalize(items[k].url, exclude) in Discovered(urls, items, Unlimited, exclude)
    decreases |items|
  {
    var next := if HtmlPage(items[0]) then Add(urls, Normalize(items[0].url, exclude)) else urls;
    if k == 0 {
      DiscoveredExtends(next, items[1..], Unlimited, exclude);
      var found := Discovered(next, items[1..], Unlimited, exclude);
      var i :| 0 <= i < |next| && next[i] == Normalize(items[0].url, exclude);
      assert found[..|next|][i] == found[i];
    } else {
      assert items[1..][k - 1] == items[k];
      UnlimitedIsComplete(next, items[1..], exclude, k - 1);
    }
  }

  /** A finite limit stops the crawl: a set below the limit never grows past it. */
  lemma {:induction false} WithinLimit(urls: seq<string>, items: seq<QueueItem>, n: int, exclude: bool)
    requires |urls| < n
    ensures |Discovered(urls, items, AtMost(n), exclude)| <= n
    decreases |items|
  {
    if items != [] {
      var next := if HtmlPage(items[0]) then Add(urls, Normalize(items[0].url, exclude)) else urls;
      assert |next| <= |urls| + 1;
      if !(HtmlPage(items[0]) && LimitReached(AtMost(n), |next|)) {
        WithinLimit(next, items[1..], n, exclude);
      }
    }
  }

  /** A set that already fills the limit (up to one) stops at the first HTML page, which adds
      at most one URL. */
  lemma {:induction false} StopsAtFirstPage(urls: seq<string>, items: seq<QueueItem>, n: int, exclude: bool)
    requires |urls| + 1 >= n
    ensures |Discovered(urls, items, AtMost(n), exclude)| <= |urls| + 1
    decreases |items|
  {
    if items != [] {
      var next := if HtmlPage(items[0]) then Add(urls, Normalize(items[0].url, exclude)) else urls;
      if !(HtmlPage(items[0]) && LimitReached(AtMost(n), |next|)) {
        assert next == urls;
        StopsAtFirstPage(urls, items[1..], n, exclude);
      }
    }
  }

  /** A crawl that ends below its limit saw every item: it is the unlimited crawl. */
  lemma {:induction false} BelowLimitIsUnlimited(urls: seq<string>, items: seq<QueueItem>, n: int, exclude: bool)
    requires |Discovered(urls, items, AtMost(n), exclude)| < n
    ensures Discovered(urls, items, AtMost(n), exclude) == Discovered(urls, items, Unlimited, exclude)
    decreases |items|
  {
    if items != [] {
      var next := if HtmlPage(items[0]) then Add(urls, Normalize(items[0].url, exclude)) else urls;
      if !(HtmlPage(items[0]) && LimitReached(AtMost(n), |next|)) {
        BelowLimitIsUnlimited(next, items[1..], n, exclude);
      }
    }
  }

  // ----- Properties of crawlSite -----

  /** The result starts with the (normalised) seed and holds no URL twice. */
  lemma SeedFirstNoDuplicates(startUrl: string, options: CrawlOptions, items: seq<QueueItem>)
    ensures var found := CrawlResult(startUrl, options, items);
      |found| >= 1 && found[0] == Normalize(startUrl, ExcludesQueryStrings(options)) && NoDuplicates(found)
  {
    var exclude := ExcludesQueryStrings(options);
    DiscoveredExtends([Normalize(startUrl, exclude)], items, ResolveLimit(options.maxUrls), exclude);
    DiscoveredDistinct([Normalize(startUrl, exclude)], items, ResolveLimit(options.maxUrls), exclude);
  }

  /** With a finite limit n the result has at most n URLs when n >= 2, and at most 2 when
      n <= 1 (the seed, plus the first HTML page when its URL differs from the seed). */
  lemma CrawlBound(startUrl: string, options: CrawlOptions, items: seq<QueueItem>)
    requires ResolveLimit(options.maxUrls).AtMost?
    ensures var n := ResolveLimit(options.maxUrls).n;
      |CrawlResult(startUrl, options, items)| <= if n >= 2 then n else 2
  {
    var exclude, n := ExcludesQueryStrings(options), ResolveLimit(options.maxUrls).n;
    if n >= 2 {
      WithinLimit([Normalize(startUrl, exclude)], items, n, exclude);
    } else {
      StopsAtFirstPage([Normalize(startUrl, exclude)], items, n, exclude);
    }
  }

  /** With `maxUrls` 1 the seed already fills the limit, but the check runs only after an
      HTML page is added: a first page served under another URL still gets in. */
  lemma LimitOneAdmitsSecondUrl()
    ensures var found := CrawlResult("http://example.com", CrawlOptions(None, Some(1)),
                                     [QueueItem("http://example.com/", Fetched(Some("text/html")))]);
      found == ["http://example.com", "http://example.com/"] && |found| > 1
  {
    assert OccursAt("text/html", "text/html", 0);
    assert HtmlPage(QueueItem("http://example.com/", Fetched(Some("text/html"))));
  }

  /** Every URL in the result is the seed or the normalised URL of a fetched HTML page; and
      without a limit every such page is in the result. */
  lemma ResultIsSeedAndHtmlPages(startUrl: string, options: CrawlOptions, items: seq<QueueItem>)
    ensures var found, exclude := CrawlResult(startUrl, options, items), ExcludesQueryStrings(options);
      (forall u :: u in found ==>
         (u == Normalize(startUrl, exclude) ||
          exists k :: 0 <= k < |items| && HtmlPage(items[k]) && u == Normalize(items[k].url, exclude))) &&
      (options.maxUrls == Some(0) ==>
         forall k :: 0 <= k < |items| && HtmlPage(items[k]) ==> Normalize(items[k].url, exclude) in found)
  {
    var exclude, seed := ExcludesQueryStrings(options), [Normalize(startUrl, ExcludesQueryStrings(options))];
    forall u | u in CrawlResult(startUrl, options, items)
      ensures u == Normalize(startUrl, exclude) ||
        exists k :: 0 <= k < |items| && HtmlPage(items[k]) && u == Normalize(items[k].url, exclude)
    {
      DiscoveredSound(seed, items, ResolveLimit(options.maxUrls), exclude, u);
    }
    if options.maxUrls == Some(0) {
      forall k | 0 <= k < |items| && HtmlPage(items[k])
        ensures Normalize(items[k].url, exclude) in CrawlResult(startUrl, options, items)
      {
        UnlimitedIsComplete(seed, items, exclude, k);
      }
    }
  }

  // ----- Normalisation, the content type and the fetch filter -----

  /** A header that starts with "text/html", with or without parameters, marks an HTML page;
      one that names another type does not. */
  lemma HtmlContentTypes(contentType: string)
    requires StartsWith(contentType, "text/html")
    ensures IsHtml(Some(contentType))
    ensures !IsHtml(Some("image/png")) && !IsHtml(Some("text/css"))
  {
    assert OccursAt(contentType, "text/html", 0);
    // "image/png" has the length of "text/html", so it could only match at 0, where it differs.
    forall k: nat | k <= |"image/png"|
      ensures !OccursAt("image/png", "text/html", k)
    {
      if k == 0 {
        assert "image/png"[0..9][0] != "text/html"[0];
      }
    }
  }

  /** Normalising twice is normalising once, and a normalised URL has no query string. */
  lemma NormalizeIdempotent(url: string, exclude: bool)
    ensures Normalize(Normalize(url, exclude), exclude) == Normalize(url, exclude)
    ensures exclude ==> '?' !in Normalize(url, exclude)
  {
    if exclude {
      BeforeFirstIsCleanPrefix(url, '?');
      BeforeFirstWithoutMark(BeforeFirst(url, '?'), '?');
    }
  }

  /** With query strings excluded, URLs that differ only after the first '?' share one entry. */
  lemma QueryVariantsShareEntry(path: string, query1: string, query2: string)
    requires '?' !in path
    ensures Normalize(path + "?" + query1, true) == Normalize(path + "?" + query2, true) == path
  {
    BeforeFirstIgnoresRest(path, '?', query1);
    BeforeFirstIgnoresRest(path, '?', query2);
  }

  /** Each listed extension ends in one of these letters. */
  const ExtensionEndings: set<char> := {'g', 'f', 'c', 'x', 's', 'l'}

  /** A URL whose last character cannot end a listed extension passes the filter. */
  lemma LastCharAllows(url: string)
    requires |url| >= 1 && url[|url| - 1] !in ExtensionEndings
    ensures FetchAllowed(url)
  {
    forall k | 0 <= k < |FilteredExtensions|
      ensures !EndsWith(url, FilteredExtensions[k])
    {
      var ext := FilteredExtensions[k];
      assert ext[|ext| - 1] in ExtensionEndings;
    }
  }

  /** A URL ending in a listed extension is never fetched. */
  lemma BlockedExamples()
    ensures !FetchAllowed("https://a.test/doc.pdf") && !FetchAllowed("https://a.test/i.png")
    ensures !FetchAllowed("https://a.test/s.css") && !FetchAllowed("https://a.test/app.js")
  {
    assert EndsWith("https://a.test/doc.pdf", FilteredExtensions[4]);
    assert EndsWith("https://a.test/i.png", FilteredExtensions[2]);
    assert EndsWith("https://a.test/s.css", FilteredExtensions[11]);
    assert EndsWith("https://a.test/app.js", FilteredExtensions[9]);
  }

  /** The filter looks at the whole URL: a query string after the extension lets it through. */
  lemma AllowedExamples()
    ensures FetchAllowed("https://a.test/doc.pdf?x=1")
    ensures FetchAllowed("https://a.test/page")
  {
    LastCharAllows("https://a.test/doc.pdf?x=1");
    LastCharAllows("https://a.test/page");
  }

  /** A URL is fetched exactly when it ends in none of the listed extensions. */
  lemma ListedExtensionBlocks(url: string, ext: string)
    requires ext in FilteredExtensions && EndsWith(url, ext)
    ensures !FetchAllowed(url)
  {
    var k :| 0 <= k < |FilteredExtensions| && FilteredExtensions[k] == ext;
  }
}
