/** The single-H1 rule (src/tests/h1-tags-test.ts): count the headings whose tag is "H1";
    more than one yields one failed test per H1, each with its own screenshot attempt. */
module H1TagsTest {
  import opened Wrappers
  import opened Text
  import opened SeoTypes
  import opened Screenshot

  /** The headings whose tag name is exactly "H1", in document order. */
  function H1s(hs: seq<Heading>): seq<Heading> {
    if hs == [] then []
    else (if TagName(hs[0]) == "H1" then [hs[0]] else []) + H1s(hs[1..])
  }

  /** The filter keeps exactly the level-1 headings, and only those. */
  lemma {:induction false} H1sMembers(hs: seq<Heading>)
    ensures forall h :: h in H1s(hs) <==> h in hs && h.level == 1
    ensures |H1s(hs)| <= |hs|
  {
    if hs != [] {
      H1sMembers(hs[1..]);
      assert TagName(hs[0]) == "H1" <==> hs[0].level == 1;
      assert hs == [hs[0]] + hs[1..];
    }
  }

  const H1TitlePrefix := "H1 Tag "
  const H1ErrorPrefix := "Multiple H1 tags found. This is H1 #"
  const H1Advice := "\". There should only be one H1 tag per page."

  /** The title of the failure for the `i`-th of `n` H1s: its 1-based ordinal, the count and
      its quoted text. */
  function H1Title(i: nat, n: nat, h: Heading): string {
    H1TitlePrefix + NatToString(i + 1) + " of " + NatToString(n) + ": \"" + TextOrEmpty(h.text) + "\""
  }

  function H1Error(i: nat, h: Heading): string {
    H1ErrorPrefix + NatToString(i + 1) + ": \"" + TextOrEmpty(h.text) + H1Advice
  }

  const NoScreenshotNote := " No screenshot available for this H1 tag."

  /** The failed test for the `i`-th of `n` H1s: the screenshot is attached when the capture
      returned one, otherwise the error is extended with a note. */
  function H1Outcome(i: nat, n: nat, h: Heading, shot: Option<string>): SeoTest {
    if Truthy(shot) then SeoTest(H1Title(i, n, h), Failed, Some(H1Error(i, h)), shot)
    else SeoTest(H1Title(i, n, h), Failed, Some(H1Error(i, h) + NoScreenshotNote), None)
  }

  /** The outcome list of `testMultipleH1Tags`. */
  function H1Tests(hs: seq<Heading>, capture: ElementRef -> CaptureObservation): seq<SeoTest> {
    var h1Tags := H1s(hs);
    if |h1Tags| > 1 then
      seq(|h1Tags|, i requires 0 <= i < |h1Tags| =>
        H1Outcome(i, |h1Tags|, h1Tags[i], ElementCapture(capture(h1Tags[i].element), WithDefaults(NoOverrides))))
    else
      [PassedTest("Single H1 Tag")]
  }

  /** `testMultipleH1Tags`: a loop pushing one failed test per H1, or one passed test. */
  method TestMultipleH1Tags(hs: seq<Heading>, capture: ElementRef -> CaptureObservation) returns (tests: seq<SeoTest>)
    ensures tests == H1Tests(hs, capture)
  {
    tests := [];
    var h1Count := |H1s(hs)|;
    if h1Count > 1 {
      var h1Tags := H1s(hs);
      var i := 0;
      while i < |h1Tags|
        invariant i <= |h1Tags| && |tests| == i
        invariant forall k :: 0 <= k < i ==>
          tests[k] == H1Outcome(k, h1Count, h1Tags[k], ElementCapture(capture(h1Tags[k].element), WithDefaults(NoOverrides)))
      {
        var h1Element := h1Tags[i];
        var elementScreenshotDataUrl := TakeElementScreenshot(capture(h1Element.element), NoOverrides);
        var testResult := SeoTest(H1Title(i, h1Count, h1Element), Failed, Some(H1Error(i, h1Element)), None);
        if Truthy(elementScreenshotDataUrl) {
          testResult := testResult.(screenshot := elementScreenshotDataUrl);
        } else {
          testResult := testResult.(error := Some(testResult.error.value + NoScreenshotNote));
        }
        tests := tests + [testResult];
        i := i + 1;
      }
    } else {
      tests := tests + [PassedTest("Single H1 Tag")];
    }
  }

  /** The `i`-th test of a page with several H1s is the outcome for its `i`-th H1. */
  lemma H1TestAt(hs: seq<Heading>, capture: ElementRef -> CaptureObservation, i: nat)
    requires |H1s(hs)| > 1 && i < |H1s(hs)|
    ensures var h1Tags := H1s(hs);
      |H1Tests(hs, capture)| == |h1Tags| &&
      H1Tests(hs, capture)[i] ==
        H1Outcome(i, |h1Tags|, h1Tags[i], ElementCapture(capture(h1Tags[i].element), WithDefaults(NoOverrides)))
  {
    var h1Tags := H1s(hs);
    assert H1Tests(hs, capture) == seq(|h1Tags|, k requires 0 <= k < |h1Tags| =>
      H1Outcome(k, |h1Tags|, h1Tags[k], ElementCapture(capture(h1Tags[k].element), WithDefaults(NoOverrides))));
  }

  /** At most one H1 gives exactly one passed "Single H1 Tag" test; n > 1 H1s give exactly n
      failed tests titled by ordinal, in document order, and never an aggregate. */
  lemma H1TestsShape(hs: seq<Heading>, capture: ElementRef -> CaptureObservation)
    ensures var tests, n := H1Tests(hs, capture), |H1s(hs)|;
      (n <= 1 ==> tests == [PassedTest("Single H1 Tag")]) &&
      (n > 1 ==>
        |tests| == n &&
        forall i :: 0 <= i < n ==>
          tests[i].state == Failed && tests[i].title == H1Title(i, n, H1s(hs)[i]))
  {
    var tests, n := H1Tests(hs, capture), |H1s(hs)|;
    if n > 1 {
      forall i | 0 <= i < n
        ensures |tests| == n && tests[i].state == Failed && tests[i].title == H1Title(i, n, H1s(hs)[i])
      {
        H1TestAt(hs, capture, i);
      }
    }
  }

  /** The rule fails exactly when more than one heading has level 1. */
  lemma H1FailsIffSeveral(hs: seq<Heading>, capture: ElementRef -> CaptureObservation)
    ensures (exists t :: t in H1Tests(hs, capture) && t.state == Failed) <==> |H1s(hs)| > 1
  {
    if |H1s(hs)| > 1 {
      H1TestAt(hs, capture, 0);
      assert H1Tests(hs, capture)[0] in H1Tests(hs, capture);
    }
  }

  /** Each failure keeps its state and base error text; a missing screenshot only appends the
      note, and a captured one is attached with the error left as it is. */
  lemma ScreenshotOrNote(hs: seq<Heading>, capture: ElementRef -> CaptureObservation, i: nat)
    requires |H1s(hs)| > 1 && i < |H1s(hs)|
    ensures var h := H1s(hs)[i];
      var shot := ElementCapture(capture(h.element), WithDefaults(NoOverrides));
      var t := H1Tests(hs, capture)[i];
      t.state == Failed && t.error.Some? && StartsWith(t.error.value, H1Error(i, h)) &&
      (shot.Some? ==> t.screenshot == shot && t.error.value == H1Error(i, h)) &&
      (shot.None? ==> t.screenshot == None && EndsWith(t.error.value, NoScreenshotNote))
  {
    var h := H1s(hs)[i];
    H1TestAt(hs, capture, i);
    ElementCaptureIsPng(capture(h.element), WithDefaults(NoOverrides));
    var e := H1Tests(hs, capture)[i].error.value;
    assert e[..|H1Error(i, h)|] == H1Error(i, h);
  }
}
