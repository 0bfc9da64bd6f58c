/** The heading-order rule (src/tests/heading-order-test.ts). A running `lastLevel`, starting
    at 0 and overwritten after every heading, flags each heading that is more than one level
    deeper than the one just before it; each flagged heading becomes its own failed test. */
module HeadingOrderTest {
  import opened Wrappers
  import opened Text
  import opened SeoTypes
  import opened Screenshot
  import opened Sequences

  /** The value `lastLevel` holds when heading `i` is examined: the level of the heading
      before it, or 0 at the start. */
  function PreviousLevel(hs: seq<Heading>, i: nat): int
    requires i <= |hs|
  {
    if i == 0 then 0 else hs[i - 1].level
  }

  /** Heading `i` skips at least one level below its predecessor. */
  predicate OutOfOrderAt(hs: seq<Heading>, i: nat)
    requires i < |hs|
  {
    hs[i].level > PreviousLevel(hs, i) + 1
  }

  /** The out-of-order headings among the first `n`, in document order. */
  function OutOfOrderAmong(hs: seq<Heading>, n: nat): seq<Heading>
    requires n <= |hs|
  {
    if n == 0 then []
    else OutOfOrderAmong(hs, n - 1) + (if OutOfOrderAt(hs, n - 1) then [hs[n - 1]] else [])
  }

  /** All out-of-order headings, in document order. */
  function OutOfOrder(hs: seq<Heading>): seq<Heading> {
    OutOfOrderAmong(hs, |hs|)
  }

  /** The `filter` whose callback reads and overwrites `lastLevel`. It selects exactly the
      headings that are more than one level deeper than the heading before them. */
  method FilterOutOfOrder(hs: seq<Heading>) returns (outOfOrder: seq<Heading>)
    ensures outOfOrder == OutOfOrder(hs)
  {
    var lastLevel: int := 0;
    outOfOrder := [];
    var i := 0;
    while i < |hs|
      invariant i <= |hs|
      invariant lastLevel == PreviousLevel(hs, i)
      invariant outOfOrder == OutOfOrderAmong(hs, i)
    {
      var headingLevel := hs[i].level;
      var isOutOfOrder := headingLevel > lastLevel + 1;
      lastLevel := headingLevel;
      if isOutOfOrder {
        outOfOrder := outOfOrder + [hs[i]];
      }
      i := i + 1;
    }
  }

  /** The out-of-order list holds every flagged heading and nothing else. */
  lemma {:induction false} OutOfOrderAmongMembers(hs: seq<Heading>, n: nat)
    requires n <= |hs|
    ensures forall i :: 0 <= i < n && OutOfOrderAt(hs, i) ==> hs[i] in OutOfOrderAmong(hs, n)
    ensures forall h :: h in OutOfOrderAmong(hs, n) ==> exists i :: 0 <= i < n && OutOfOrderAt(hs, i) && hs[i] == h
    ensures |OutOfOrderAmong(hs, n)| <= n
  {
    if n > 0 {
      OutOfOrderAmongMembers(hs, n - 1);
    }
  }

  /** A heading is in the out-of-order list exactly when it stands at a flagged position. */
  lemma OutOfOrderMembers(hs: seq<Heading>)
    ensures forall i :: 0 <= i < |hs| && OutOfOrderAt(hs, i) ==> hs[i] in OutOfOrder(hs)
    ensures forall h :: h in OutOfOrder(hs) ==> exists i :: 0 <= i < |hs| && OutOfOrderAt(hs, i) && hs[i] == h
    ensures |OutOfOrder(hs)| <= |hs|
  {
    OutOfOrderAmongMembers(hs, |hs|);
  }

  /** Nothing is flagged exactly when no heading skips a level below its predecessor. */
  lemma InOrderIffNoSkip(hs: seq<Heading>)
    ensures OutOfOrder(hs) == [] <==> forall i :: 0 <= i < |hs| ==> !OutOfOrderAt(hs, i)
  {
    OutOfOrderMembers(hs);
    if OutOfOrder(hs) != [] {
      assert OutOfOrder(hs)[0] in OutOfOrder(hs);
    }
  }

  /** The list for a longer prefix extends the list for a shorter one. */
  lemma {:induction false} OutOfOrderAmongGrows(hs: seq<Heading>, m: nat, n: nat)
    requires m <= n <= |hs|
    ensures OutOfOrderAmong(hs, m) <= OutOfOrderAmong(hs, n)
  {
    if m < n {
      OutOfOrderAmongGrows(hs, m, n - 1);
    }
  }

  /** Because `lastLevel` starts at 0, a document whose first heading is H2 or deeper has
      that heading flagged first. */
  lemma DeepFirstHeadingIsFlagged(hs: seq<Heading>)
    requires |hs| > 0 && hs[0].level >= 2
    ensures |OutOfOrder(hs)| > 0 && OutOfOrder(hs)[0] == hs[0]
  {
    assert OutOfOrderAmong(hs, 1) == [hs[0]];
    OutOfOrderAmongGrows(hs, 1, |hs|);
  }

  /** H1, H3 flags the H3; H1, H2, H3 flags nothing. */
  lemma SkippedLevelExamples(a: ElementRef, b: ElementRef, c: ElementRef)
    ensures var h1, h3 := Heading(1, None, a), Heading(3, None, b);
      OutOfOrder([h1, h3]) == [h3]
    ensures OutOfOrder([Heading(1, None, a), Heading(2, None, b), Heading(3, None, c)]) == []
  {
    var gap := [Heading(1, None, a), Heading(3, None, b)];
    assert OutOfOrderAmong(gap, 1) == [];
    assert OutOfOrderAmong(gap, 2) == [gap[1]];
    var steps := [Heading(1, None, a), Heading(2, None, b), Heading(3, None, c)];
    assert OutOfOrderAmong(steps, 1) == [];
    assert OutOfOrderAmong(steps, 2) == [];
    assert OutOfOrderAmong(steps, 3) == [];
  }

  /** `lastLevel` follows the headings, not the deepest level reached: after H1, H4 the
      next H5 is not flagged, and after H1, H4, H2 a following H4 is flagged again. */
  lemma RunningLevelExamples(a: ElementRef, b: ElementRef, c: ElementRef, d: ElementRef)
    ensures var h4 := Heading(4, None, b);
      OutOfOrder([Heading(1, None, a), h4, Heading(5, None, c)]) == [h4]
    ensures var h4, h4again := Heading(4, None, b), Heading(4, None, d);
      OutOfOrder([Heading(1, None, a), h4, Heading(2, None, c), h4again]) == [h4, h4again]
  {
    var jump := [Heading(1, None, a), Heading(4, None, b), Heading(5, None, c)];
    assert OutOfOrderAmong(jump, 1) == [];
    assert OutOfOrderAmong(jump, 2) == [jump[1]];
    assert OutOfOrderAmong(jump, 3) == [jump[1]];
    var back := [Heading(1, None, a), Heading(4, None, b), Heading(2, None, c), Heading(4, None, d)];
    assert OutOfOrderAmong(back, 1) == [];
    assert OutOfOrderAmong(back, 2) == [back[1]];
    assert OutOfOrderAmong(back, 3) == [back[1]];
    assert OutOfOrderAmong(back, 4) == [back[1], back[3]];
  }

  const OutOfOrderTitlePrefix := "Out of Order Heading "
  const OutOfOrderErrorPrefix := "Out of order heading found: "
  const OrderAdvice := "\". Headings should follow a logical hierarchy (H1 > H2 > H3, etc.) without skipping levels."

  /** The title of the failure for the `i`-th of `n` flagged headings: its 1-based ordinal, the
      count, the tag name and the quoted text. */
  function OutOfOrderTitle(i: nat, n: nat, h: Heading): string {
    OutOfOrderTitlePrefix + NatToString(i + 1) + " of " + NatToString(n) + ": " +
    TagName(h) + " \"" + TextOrEmpty(h.text) + "\""
  }

  function OutOfOrderError(h: Heading): string {
    OutOfOrderErrorPrefix + TagName(h) + " \"" + TextOrEmpty(h.text) + OrderAdvice
  }

  /** The failed test for the `i`-th of `n` flagged headings; a screenshot is attached only
      when the capture returned one. */
  function OutOfOrderOutcome(i: nat, n: nat, h: Heading, shot: Option<string>): SeoTest {
    SeoTest(OutOfOrderTitle(i, n, h), Failed, Some(OutOfOrderError(h)), if Truthy(shot) then shot else None)
  }

  /** What capturing heading `h` returns, with the default options. */
  function HeadingShot(capture: ElementRef -> CaptureObservation, h: Heading): Option<string> {
    ElementCapture(capture(h.element), WithDefaults(NoOverrides))
  }

  /** The outcome pushed for the `i`-th of `n` flagged headings. */
  function OutcomeFor(n: nat, capture: ElementRef -> CaptureObservation): (nat, Heading) -> SeoTest {
    (i: nat, h: Heading) => OutOfOrderOutcome(i, n, h, HeadingShot(capture, h))
  }

  /** The outcome list of `testHeadingOrder`, where `capture` says how the browser behaves
      when each element is captured. */
  function HeadingOrderTests(hs: seq<Heading>, capture: ElementRef -> CaptureObservation): seq<SeoTest> {
    var flagged := OutOfOrder(hs);
    if |flagged| > 0 then MapIndexed(flagged, OutcomeFor(|flagged|, capture), |flagged|)
    else [PassedTest("Heading Order")]
  }

  /** `testHeadingOrder`: filter, then one failed test per flagged heading with its own
      screenshot attempt, or a single passed "Heading Order" test. */
  method TestHeadingOrder(hs: seq<Heading>, capture: ElementRef -> CaptureObservation) returns (tests: seq<SeoTest>)
    ensures tests == HeadingOrderTests(hs, capture)
  {
    tests := [];
    var outOfOrder := FilterOutOfOrder(hs);
    if |outOfOrder| > 0 {
      var i := 0;
      while i < |outOfOrder|
        invariant i <= |outOfOrder| && tests == MapIndexed(outOfOrder, OutcomeFor(|outOfOrder|, capture), i)
      {
        var heading := outOfOrder[i];
        var elementScreenshotDataUrl := TakeElementScreenshot(capture(heading.element), NoOverrides);
        var testResult := SeoTest(OutOfOrderTitle(i, |outOfOrder|, heading), Failed, Some(OutOfOrderError(heading)), None);
        if Truthy(elementScreenshotDataUrl) {
          testResult := testResult.(screenshot := elementScreenshotDataUrl);
        }
        tests := tests + [testResult];
        i := i + 1;
      }
    } else {
      tests := tests + [PassedTest("Heading Order")];
    }
  }

  /** The `i`-th test of a failing page is the outcome for the `i`-th flagged heading. */
  lemma HeadingOrderTestAt(hs: seq<Heading>, capture: ElementRef -> CaptureObservation, i: nat)
    requires i < |OutOfOrder(hs)|
    ensures var flagged := OutOfOrder(hs);
      |HeadingOrderTests(hs, capture)| == |flagged| &&
      HeadingOrderTests(hs, capture)[i] ==
        OutOfOrderOutcome(i, |flagged|, flagged[i], ElementCapture(capture(flagged[i].element), WithDefaults(NoOverrides)))
  {
    var flagged := OutOfOrder(hs);
    var f := OutcomeFor(|flagged|, capture);
    MapIndexedAt(flagged, f, |flagged|, i);
    assert HeadingOrderTests(hs, capture) == MapIndexed(flagged, f, |flagged|);
    assert f(i, flagged[i]) == OutOfOrderOutcome(i, |flagged|, flagged[i], HeadingShot(capture, flagged[i]));
  }

  /** With nothing flagged the rule emits exactly one passed "Heading Order" test; otherwise
      one failed test per flagged heading, in document order, and no passed test. */
  lemma HeadingOrderTestsShape(hs: seq<Heading>, capture: ElementRef -> CaptureObservation)
    ensures var tests, flagged := HeadingOrderTests(hs, capture), OutOfOrder(hs);
      (flagged == [] ==> tests == [PassedTest("Heading Order")]) &&
      (flagged != [] ==>
        |tests| == |flagged| &&
        forall i :: 0 <= i < |tests| ==>
          tests[i].state == Failed && tests[i].title == OutOfOrderTitle(i, |flagged|, flagged[i]))
  {
    var tests, flagged := HeadingOrderTests(hs, capture), OutOfOrder(hs);
    if flagged != [] {
      forall i | 0 <= i < |tests|
        ensures tests[i].state == Failed && tests[i].title == OutOfOrderTitle(i, |flagged|, flagged[i])
      {
        HeadingOrderTestAt(hs, capture, i);
      }
    }
  }

  /** The rule reports a failure exactly when some heading skips a level below its
      predecessor (with 0 before the first heading). */
  lemma HeadingOrderFailsIffSkip(hs: seq<Heading>, capture: ElementRef -> CaptureObservation)
    ensures (exists t :: t in HeadingOrderTests(hs, capture) && t.state == Failed)
        <==> (exists i :: 0 <= i < |hs| && OutOfOrderAt(hs, i))
  {
    var tests := HeadingOrderTests(hs, capture);
    InOrderIffNoSkip(hs);
    if OutOfOrder(hs) != [] {
      HeadingOrderTestAt(hs, capture, 0);
      assert tests[0] in tests;
    } else {
      assert tests == [PassedTest("Heading Order")];
    }
  }

  /** A screenshot is attached exactly when the capture returned one, and the error text is
      the same either way. */
  lemma ScreenshotOnlyWhenCaptured(hs: seq<Heading>, capture: ElementRef -> CaptureObservation, i: nat)
    requires i < |OutOfOrder(hs)|
    ensures var h := OutOfOrder(hs)[i];
      var shot := ElementCapture(capture(h.element), WithDefaults(NoOverrides));
      HeadingOrderTests(hs, capture)[i].screenshot == shot &&
      HeadingOrderTests(hs, capture)[i].error == Some(OutOfOrderError(h))
  {
    var h := OutOfOrder(hs)[i];
    HeadingOrderTestAt(hs, capture, i);
    ElementCaptureIsPng(capture(h.element), WithDefaults(NoOverrides));
  }
}
