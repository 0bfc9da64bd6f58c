/** Evidence capture (src/utilities/screenshot.ts): scroll an element into view, check it is
    visible, screenshot a padded clip around it, and fall back to a plain element screenshot.
    Every browser call is an observation given as input: a `Step` that produced a value or threw. */
module Screenshot {
  import opened Wrappers
  import opened Text

  datatype ScrollBehavior = Smooth | Auto
  datatype ScrollBlock = Start | Center | End | Nearest

  /** The options after defaults are applied. */
  datatype ScreenshotOptions = ScreenshotOptions(
    scrollBehavior: ScrollBehavior, scrollBlock: ScrollBlock, waitTime: int, padding: real)

  /** The options object as a caller passes it: every field may be left undefined. */
  datatype ScreenshotOverrides = ScreenshotOverrides(
    scrollBehavior: Option<ScrollBehavior>, scrollBlock: Option<ScrollBlock>,
    waitTime: Option<int>, padding: Option<real>)

  /** Destructuring with defaults: an undefined field takes its default, a given one is kept. */
  function WithDefaults(o: ScreenshotOverrides): (r: ScreenshotOptions)
    ensures r.scrollBehavior == (if o.scrollBehavior.Some? then o.scrollBehavior.value else Smooth)
    ensures r.scrollBlock == (if o.scrollBlock.Some? then o.scrollBlock.value else Center)
    ensures r.waitTime == (if o.waitTime.Some? then o.waitTime.value else 500)
    ensures r.padding == (if o.padding.Some? then o.padding.value else 100.0)
  {
    ScreenshotOptions(
      match o.scrollBehavior { case Some(b) => b case None => Smooth },
      match o.scrollBlock { case Some(b) => b case None => Center },
      match o.waitTime { case Some(w) => w case None => 500 },
      match o.padding { case Some(p) => p case None => 100.0 })
  }

  /** What the evaluators pass: an empty options object. */
  const NoOverrides := ScreenshotOverrides(None, None, None, None)

  /** A page-relative rectangle (clip region or element box). */
  datatype Box = Box(x: real, y: real, width: real, height: real)

  /** The bounding-rect size and computed style of an element, as read in the page. */
  datatype ElementView = ElementView(
    width: real, height: real, visibility: string, display: string, opacity: string)

  /** The visibility test: a non-empty box, not hidden, displayed, and opacity not the string "0".
      Any one of the five hiding conditions makes an element invisible; opacity is compared as
      text, so "0.0" does not hide it. */
  predicate IsVisible(v: ElementView)
    ensures !IsVisible(v) <==>
      v.width <= 0.0 || v.height <= 0.0 || v.visibility == "hidden" || v.display == "none" || v.opacity == "0"
  {
    v.width > 0.0 && v.height > 0.0 && v.visibility != "hidden" && v.display != "none" && v.opacity != "0"
  }

  function Max(a: real, b: real): real {
    if a >= b then a else b
  }

  /** The clip region: the element's box grown by `padding` on every side, with the near edges
      clamped at 0 and the far edges left unclamped. */
  function PaddedClip(element: Box, padding: real): (clip: Box)
    ensures clip.x >= 0.0 && clip.y >= 0.0
    ensures clip.x == Max(0.0, element.x - padding) && clip.y == Max(0.0, element.y - padding)
    ensures clip.width == element.width + 2.0 * padding && clip.height == element.height + 2.0 * padding
  {
    Box(Max(0.0, element.x - padding), Max(0.0, element.y - padding),
        element.width + padding * 2.0, element.height + padding * 2.0)
  }

  /** With a non-negative padding, the clip of an element on the page covers the element. */
  lemma ClipCoversElement(element: Box, padding: real)
    requires padding >= 0.0 && element.x >= 0.0 && element.y >= 0.0
    ensures var clip := PaddedClip(element, padding);
      clip.x <= element.x && element.x + element.width <= clip.x + clip.width &&
      clip.y <= element.y && element.y + element.height <= clip.y + clip.height
  {
  }

  const PngDataUrlPrefix := "data:image/png;base64,"

  /** A base64 PNG payload as a data URL. */
  function PngDataUrl(base64: string): (url: string)
    ensures StartsWith(url, PngDataUrlPrefix)
    ensures url[|PngDataUrlPrefix|..] == base64
  {
    PngDataUrlPrefix + base64
  }

  /** What the browser does at each awaited step of one element capture. */
  datatype CaptureObservation = CaptureObservation(
    scrollSucceeds: bool,                 // the scrollIntoView evaluation did not throw
    viewAfterScroll: Step<ElementView>,   // the visibility query after the settle wait
    pageBox: Step<Box>,                   // the element's box plus the page scroll offset
    clipCapture: Box -> Step<string>,     // page.screenshot on a clip: base64 or a rejection
    viewAtFallback: Step<ElementView>,    // the visibility query in the fallback
    elementCapture: Step<string>)         // element.screenshot in the fallback

  /** The `try` block: scroll, check visibility (an invisible element throws), compute the
      clip, capture it. */
  function PrimaryCapture(obs: CaptureObservation, options: ScreenshotOptions): Step<string> {
    if !obs.scrollSucceeds then Threw
    else match obs.viewAfterScroll
      case Threw => Threw
      case Done(view) =>
        if !IsVisible(view) then Threw
        else match obs.pageBox
          case Threw => Threw
          case Done(box) =>
            match obs.clipCapture(PaddedClip(box, options.padding))
            case Threw => Threw
            case Done(base64) => Done(PngDataUrl(base64))
  }

  /** The `catch` block: re-check visibility, then capture the element without padding;
      anything that throws here yields null. */
  function FallbackCapture(obs: CaptureObservation): Option<string> {
    match obs.viewAtFallback
    case Threw => None
    case Done(view) =>
      if !IsVisible(view) then None
      else match obs.elementCapture
        case Threw => None
        case Done(base64) => Some(PngDataUrl(base64))
  }

  /** The value `takeElementScreenshot` resolves to: the primary capture, else the fallback. */
  function ElementCapture(obs: CaptureObservation, options: ScreenshotOptions): Option<string> {
    match PrimaryCapture(obs, options)
    case Done(url) => Some(url)
    case Threw => FallbackCapture(obs)
  }

  /** `takeElementScreenshot`: the try/catch chain step by step. It has no failure exit:
      every path ends in a data URL or null. */
  method TakeElementScreenshot(obs: CaptureObservation, overrides: ScreenshotOverrides)
    returns (dataUrl: Option<string>)
    ensures dataUrl == ElementCapture(obs, WithDefaults(overrides))
  {
    var options := WithDefaults(overrides);
    var primary: Step<string> := Threw;
    if obs.scrollSucceeds && obs.viewAfterScroll.Done? {
      var isVisible := IsVisible(obs.viewAfterScroll.value);
      if isVisible && obs.pageBox.Done? {
        var clip := PaddedClip(obs.pageBox.value, options.padding);
        var screenshot := obs.clipCapture(clip);
        if screenshot.Done? {
          primary := Done(PngDataUrl(screenshot.value));
        }
      }
    }
    if primary.Done? {
      return Some(primary.value);
    }
    // Fallback to an element screenshot without context, only if the element is visible.
    if obs.viewAtFallback.Threw? {
      return None;
    }
    var isVisible := IsVisible(obs.viewAtFallback.value);
    if !isVisible {
      return None;
    }
    if obs.elementCapture.Threw? {
      return None;
    }
    dataUrl := Some(PngDataUrl(obs.elementCapture.value));
  }

  /** `takeFullPageScreenshot`: the full-page capture as a data URL; a capture that throws
      is not caught and propagates. */
  function FullPageScreenshot(capture: Step<string>): (r: Step<string>)
    ensures r.Done? <==> capture.Done?
    ensures r.Done? ==> StartsWith(r.value, PngDataUrlPrefix) && r.value[|PngDataUrlPrefix|..] == capture.value
  {
    match capture
    case Done(base64) => Done(PngDataUrl(base64))
    case Threw => Threw
  }

  /** The defaults are smooth scrolling, centred, a 500 ms wait and 100 px of padding. */
  lemma DefaultOptions()
    ensures WithDefaults(NoOverrides) == ScreenshotOptions(Smooth, Center, 500, 100.0)
  {
  }

  /** Every non-null capture is a PNG data URL, whichever path produced it. */
  lemma ElementCaptureIsPng(obs: CaptureObservation, options: ScreenshotOptions)
    ensures ElementCapture(obs, options).Some? ==>
      StartsWith(ElementCapture(obs, options).value, PngDataUrlPrefix) &&
      ElementCapture(obs, options).value != ""
  {
  }

  /** When every primary step succeeds, the result is the capture of the padded clip. */
  lemma VisibleElementUsesPaddedClip(obs: CaptureObservation, options: ScreenshotOptions, view: ElementView, box: Box, base64: string)
    requires obs.scrollSucceeds && obs.viewAfterScroll == Done(view) && IsVisible(view)
    requires obs.pageBox == Done(box) && obs.clipCapture(PaddedClip(box, options.padding)) == Done(base64)
    ensures ElementCapture(obs, options) == Some(PngDataUrl(base64))
  {
  }

  /** If the primary path failed and the element is invisible at the fallback re-check,
      the result is null, whatever the element screenshot would have given. */
  lemma InvisibleAtFallbackIsNull(obs: CaptureObservation, options: ScreenshotOptions, view: ElementView)
    requires PrimaryCapture(obs, options).Threw?
    requires obs.viewAtFallback == Done(view) && !IsVisible(view)
    ensures ElementCapture(obs, options) == None
  {
  }

  /** An element with `display: none` at both checks yields null and never an error. */
  lemma DisplayNoneYieldsNull(obs: CaptureObservation, options: ScreenshotOptions)
    requires obs.viewAfterScroll.Done? && obs.viewAfterScroll.value.display == "none"
    requires obs.viewAtFallback.Done? && obs.viewAtFallback.value.display == "none"
    ensures ElementCapture(obs, options) == None
  {
  }
}
