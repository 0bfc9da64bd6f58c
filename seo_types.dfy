/** The records that flow between the evaluators, the analysis loop and the report:
    the heading structure read from a page, one test outcome, and one page's result. */
module SeoTypes {
  import opened Wrappers
  import opened Text

  /** A heading's numeric level: the digit of its tag name H1..H6. */
  type Level = l: int | 1 <= l <= 6 witness 1

  /** An opaque handle on a live DOM element, valid while its page is open. */
  datatype ElementRef = ElementRef(id: nat)

  /** One entry of the heading structure: `{tag, text, element}`. `text` is the
      element's trimmed text content, which the source types as possibly undefined. */
  datatype Heading = Heading(level: Level, text: Option<string>, element: ElementRef)

  /** The heading's `tagName` as the browser reports it ("H1" ... "H6"). */
  function TagName(h: Heading): (tag: string)
    ensures |tag| == 2 && tag[0] == 'H' && DigitValue(tag[1]) == h.level
  {
    "H" + [DigitChar(h.level)]
  }

  /** A heading's text with a missing value replaced by the empty string. */
  function TextOrEmpty(text: Option<string>): string {
    if text.Some? then text.value else ""
  }

  /** A heading's text as a template literal renders it: a missing text becomes "undefined". */
  function TextInTemplate(text: Option<string>): string {
    if text.Some? then text.value else "undefined"
  }

  /** JavaScript truthiness of an optional string: present and non-empty. */
  predicate Truthy(s: Option<string>) {
    s.Some? && s.value != ""
  }

  datatype State = Passed | Failed

  /** `SEOTest`: one titled verdict with optional error text and optional screenshot. */
  datatype SeoTest = SeoTest(title: string, state: State, error: Option<string>, screenshot: Option<string>)

  /** A passed test carries neither error nor screenshot. */
  function PassedTest(title: string): SeoTest {
    SeoTest(title, Passed, None, None)
  }

  /** `SEOResult`: one analysed URL with its tests in order. */
  datatype SeoResult = SeoResult(url: string, tests: seq<SeoTest>, screenshot: Option<string>, timestamp: string)

  /** The navigation response; `ok` is the `response.ok()` flag (status 200-299). */
  datatype Response = Response(ok: bool)

  /** A response arrived and its status was ok. */
  predicate Loaded(response: Option<Response>) {
    response.Some? && response.value.ok
  }

  const PageLoadErrorPrefix := "Failed to load page: "

  /** The message of a failed page load. */
  function PageLoadError(url: string): string {
    PageLoadErrorPrefix + url
  }
}
