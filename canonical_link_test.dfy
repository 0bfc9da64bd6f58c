/** The canonical-link rule (src/tests/canonical-link-test.ts). "Present" is judged from the
    live DOM; "Absolute" and "HTTPS" from the canonical `href` as written in the static HTML,
    and only when that href is a non-empty string. */
module CanonicalLinkTest {
  import opened Wrappers
  import opened Text
  import opened SeoTypes

  const PresentTitle := "Canonical Link Present"
  const AbsoluteTitle := "Canonical Link Absolute"
  const HttpsTitle := "Canonical Link HTTPS"
  const NoCanonicalError := "No canonical link found on the page"
  const NotAbsolutePrefix := "Canonical link is not absolute: "
  const HttpPrefix := "Canonical link is using http instead of https: "

  predicate IsAbsolute(href: string) {
    StartsWith(href, "http://") || StartsWith(href, "https://")
  }

  predicate UsesHttp(href: string) {
    StartsWith(href, "http://")
  }

  function NotAbsoluteError(href: string): string {
    NotAbsolutePrefix + href
  }

  function HttpError(href: string): string {
    HttpPrefix + href
  }

  /** The "Present" verdict from the live-DOM query. */
  function PresentOutcome(linkInDom: bool): SeoTest {
    if linkInDom then PassedTest(PresentTitle)
    else SeoTest(PresentTitle, Failed, Some(NoCanonicalError), None)
  }

  /** The "Absolute" verdict for a non-empty static href. */
  function AbsoluteOutcome(href: string): SeoTest {
    if IsAbsolute(href) then PassedTest(AbsoluteTitle)
    else SeoTest(AbsoluteTitle, Failed, Some(NotAbsoluteError(href)), None)
  }

  /** The "HTTPS" verdict for a non-empty static href: only an `http://` prefix fails. */
  function HttpsOutcome(href: string): SeoTest {
    if UsesHttp(href) then SeoTest(HttpsTitle, Failed, Some(HttpError(href)), None)
    else PassedTest(HttpsTitle)
  }

  /** The outcome list: Present, then Absolute and HTTPS when the static href is non-empty. */
  function CanonicalTests(linkInDom: bool, href: Option<string>): seq<SeoTest> {
    [PresentOutcome(linkInDom)] +
    (if Truthy(href) then [AbsoluteOutcome(href.value), HttpsOutcome(href.value)] else [])
  }

  /** `testCanonicalLink`: the if/else chain pushing up to three outcomes. `linkInDom` is
      whether `page.$('link[rel="canonical"]')` found an element; `href` is the static
      document's `href` attribute (undefined when absent). */
  method TestCanonicalLink(linkInDom: bool, href: Option<string>) returns (tests: seq<SeoTest>)
    ensures tests == CanonicalTests(linkInDom, href)
  {
    tests := [];
    if !linkInDom {
      tests := tests + [SeoTest(PresentTitle, Failed, Some(NoCanonicalError), None)];
    } else {
      tests := tests + [PassedTest(PresentTitle)];
    }

    if Truthy(href) && !IsAbsolute(href.value) {
      tests := tests + [SeoTest(AbsoluteTitle, Failed, Some(NotAbsoluteError(href.value)), None)];
    } else if Truthy(href) {
      tests := tests + [PassedTest(AbsoluteTitle)];
    }

    // `canonicalHref?.startsWith('http://')`: false for undefined and for "".
    if href.Some? && UsesHttp(href.value) {
      tests := tests + [SeoTest(HttpsTitle, Failed, Some(HttpError(href.value)), None)];
    } else if Truthy(href) {
      tests := tests + [PassedTest(HttpsTitle)];
    }
  }

  /** One to three tests in the fixed order Present, Absolute, HTTPS; exactly one (Present)
      when the href is absent or empty, all three otherwise. */
  lemma CanonicalShape(linkInDom: bool, href: Option<string>)
    ensures var tests := CanonicalTests(linkInDom, href);
      1 <= |tests| <= 3 && tests[0].title == PresentTitle &&
      (|tests| == 1 <==> !Truthy(href)) &&
      (|tests| == 3 ==> tests[1].title == AbsoluteTitle && tests[2].title == HttpsTitle)
  {
  }

  /** Each verdict fails exactly under its own condition. */
  lemma CanonicalVerdicts(linkInDom: bool, href: Option<string>)
    ensures var tests := CanonicalTests(linkInDom, href);
      (tests[0].state == Failed <==> !linkInDom) &&
      (Truthy(href) ==>
        (tests[1].state == Failed <==> !IsAbsolute(href.value)) &&
        (tests[2].state == Failed <==> UsesHttp(href.value)))
  {
  }

  /** Present depends only on the live DOM, Absolute and HTTPS only on the static href. */
  lemma CanonicalChecksIndependent(d1: bool, d2: bool, h1: Option<string>, h2: Option<string>)
    ensures CanonicalTests(d1, h1)[0] == CanonicalTests(d1, h2)[0]
    ensures CanonicalTests(d1, h1)[1..] == CanonicalTests(d2, h1)[1..]
  {
  }

  /** An `http://` href is absolute, so Absolute and HTTPS never both fail. */
  lemma AtMostOneFormFailure(linkInDom: bool, href: Option<string>)
    requires Truthy(href)
    ensures var tests := CanonicalTests(linkInDom, href);
      !(tests[1].state == Failed && tests[2].state == Failed)
  {
  }

  /** A relative href such as "/page" fails Absolute and passes HTTPS. */
  lemma RelativeHref()
    ensures CanonicalTests(true, Some("/page")) ==
      [PassedTest(PresentTitle),
       SeoTest(AbsoluteTitle, Failed, Some(NotAbsoluteError("/page")), None),
       PassedTest(HttpsTitle)]
  {
    // "/page" is shorter than either scheme prefix.
    assert |"/page"| < |"http://"| < |"https://"|;
    assert !UsesHttp("/page");
  }
}
