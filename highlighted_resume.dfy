/** The highlighted-preview component (`HighlightedResume`): two state fields,
    `isLoading` and `error`, changed by the image's `onload` and `onerror`
    handlers, the visible canvas they draw on, and the choice of what to render. */
module HighlightedResume {
  import opened Wrappers
  import opened Highlight

  const RenderError := "Failed to render highlights"
  const LoadError := "Failed to load image"

  /** The visible `<canvas>` element: its bitmap size and the composited canvas
      copied onto it, if any. Assigning its width or height clears the bitmap. */
  datatype Display = Display(width: nat, height: nat, shows: Option<Canvas>)

  datatype PreviewState = PreviewState(isLoading: bool, error: Option<string>, display: Display)

  /** `useState(true)`, `useState(null)`, and a canvas element never drawn on. */
  function Initial(): PreviewState {
    PreviewState(true, None, Display(DefaultCanvasWidth, DefaultCanvasHeight, None))
  }

  /** What the component renders. */
  datatype View = Spinner | ErrorMessage(message: string) | CanvasWithDownload

  /** Loading wins over an error, an error over the canvas: the canvas and the
      download button appear only when not loading and no error text is set.
      (`if (error)` tests truthiness, so an empty message would count as none.) */
  function ViewOf(s: PreviewState): (v: View)
    ensures v == Spinner <==> s.isLoading
    ensures v.ErrorMessage? <==> !s.isLoading && s.error.Some? && s.error.value != ""
    ensures v.ErrorMessage? ==> v.message == s.error.value
    ensures v == CanvasWithDownload <==> !s.isLoading && (s.error.None? || s.error.value == "")
  {
    if s.isLoading then Spinner
    else if s.error.Some? && s.error.value != "" then ErrorMessage(s.error.value)
    else CanvasWithDownload
  }

  /** The `onload` handler. Nothing happens unless the canvas element is
      mounted (`canvasRef.current`). Otherwise the highlights are composited;
      if that throws, the error is set and loading ends; if not, the visible
      canvas (when it yields a 2D context) is resized to the composite and
      the composite is copied onto it, and loading ends. The error is not reset.
      Copying a canvas with a zero width or height throws `InvalidStateError`
      after the resize, and the `catch` reports it as a render error. */
  function AfterLoad(s: PreviewState, image: SourceImage, hs: seq<HighlightArea>,
                     canvasMounted: bool, compositeContext: bool, visibleContext: bool): PreviewState
  {
    if !canvasMounted then s
    else match Composite(image, hs, compositeContext)
      case Failure(_) => s.(error := Some(RenderError), isLoading := false)
      case Success(c) =>
        if !visibleContext then s.(isLoading := false)
        else if c.width == 0 || c.height == 0 then
          s.(error := Some(RenderError), isLoading := false, display := Display(c.width, c.height, None))
        else s.(isLoading := false, display := Display(c.width, c.height, Some(c)))
  }

  /** The `onerror` handler. */
  function AfterError(s: PreviewState): PreviewState {
    s.(error := Some(LoadError), isLoading := false)
  }

  /** How `handleDownload` ends. */
  datatype DownloadOutcome = Downloaded | DownloadFailed(reason: string)

  class ResumePreview {
    var isLoading: bool
    var error: Option<string>
    var display: Display

    function State(): PreviewState
      reads this
    {
      PreviewState(isLoading, error, display)
    }

    constructor ()
      ensures State() == Initial()
    {
      isLoading := true;
      error := None;
      display := Display(DefaultCanvasWidth, DefaultCanvasHeight, None);
    }

    method OnLoad(image: SourceImage, highlights: seq<HighlightArea>,
                  canvasMounted: bool, compositeContext: bool, visibleContext: bool)
      modifies this
      ensures State() == AfterLoad(old(State()), image, highlights, canvasMounted, compositeContext, visibleContext)
    {
      if canvasMounted {
        var canvas := CreateHighlightedCanvas(image, highlights, compositeContext);
        if canvas.Failure? {
          error := Some(RenderError);
          isLoading := false;
        } else {
          var c := canvas.value;
          if visibleContext {
            display := Display(c.width, display.height, None);
            display := Display(c.width, c.height, None);
            if c.width == 0 || c.height == 0 {
              // `drawImage` throws on an empty source canvas
              error := Some(RenderError);
              isLoading := false;
              return;
            }
            display := display.(shows := Some(c));
          }
          isLoading := false;
        }
      }
    }

    method OnError()
      modifies this
      ensures State() == AfterError(old(State()))
    {
      error := Some(LoadError);
      isLoading := false;
    }

    /** `handleDownload`: `onDownload` runs only once the download has
        resolved, and only if the caller supplied it. A failed download is
        logged, and so is an `onDownload` that throws, since it is called
        inside the same `try`. Neither path touches the component's state. */
    method HandleDownload(outcome: DownloadOutcome, hasOnDownload: bool, onDownloadThrows: bool)
      returns (onDownloadCalled: bool, logged: bool)
      ensures onDownloadCalled <==> outcome == Downloaded && hasOnDownload
      ensures logged <==> outcome.DownloadFailed? || (onDownloadCalled && onDownloadThrows)
    {
      onDownloadCalled := false;
      logged := false;
      match outcome
      case Downloaded =>
        if hasOnDownload {
          onDownloadCalled := true;
          if onDownloadThrows {
            logged := true;
          }
        }
      case DownloadFailed(_) =>
        logged := true;
    }
  }

  // ---------------------------------------------------------------------------
  // Handler properties
  // ---------------------------------------------------------------------------

  /** An image that fails to load shows 'Failed to load image', whatever came before. */
  lemma LoadFailureShowsError(s: PreviewState)
    ensures ViewOf(AfterError(s)) == ErrorMessage(LoadError)
  {
  }

  /** A load while the canvas ref is null changes nothing. */
  lemma UnmountedLoadIsIgnored(s: PreviewState, image: SourceImage, hs: seq<HighlightArea>, cc: bool, vc: bool)
    ensures AfterLoad(s, image, hs, false, cc, vc) == s
  {
  }

  /** A composite that throws shows 'Failed to render highlights'. */
  lemma RenderFailureShowsError(s: PreviewState, image: SourceImage, hs: seq<HighlightArea>, vc: bool)
    ensures ViewOf(AfterLoad(s, image, hs, true, false, vc)) == ErrorMessage(RenderError)
  {
  }

  /** A successful load of a non-empty image with the canvas mounted and no
      earlier error ends loading, leaves the error unset and sizes the visible
      canvas to the image's intrinsic size, showing the full composite. An
      image with a zero width or height is resized to, but fails the copy and
      shows 'Failed to render highlights'. */
  lemma RenderSuccessShowsCanvas(s: PreviewState, image: SourceImage, hs: seq<HighlightArea>)
    requires s.error == None
    ensures image.naturalWidth > 0 && image.naturalHeight > 0 ==>
      && ViewOf(AfterLoad(s, image, hs, true, true, true)) == CanvasWithDownload
      && AfterLoad(s, image, hs, true, true, true).error == None
      && AfterLoad(s, image, hs, true, true, true).display ==
           Display(image.naturalWidth, image.naturalHeight, Some(Composite(image, hs, true).value))
    ensures image.naturalWidth == 0 || image.naturalHeight == 0 ==>
      && ViewOf(AfterLoad(s, image, hs, true, true, true)) == ErrorMessage(RenderError)
      && AfterLoad(s, image, hs, true, true, true).display ==
           Display(image.naturalWidth, image.naturalHeight, None)
  {
  }

  // ---------------------------------------------------------------------------
  // Runs of handler calls for one image and one highlight list
  // ---------------------------------------------------------------------------

  datatype HandlerCall =
    | LoadCall(canvasMounted: bool, compositeContext: bool, visibleContext: bool)
    | ErrorCall

  function Run(s: PreviewState, image: SourceImage, hs: seq<HighlightArea>, calls: seq<HandlerCall>): PreviewState
    decreases |calls|
  {
    if calls == [] then s
    else
      var next := match calls[0]
        case LoadCall(m, cc, vc) => AfterLoad(s, image, hs, m, cc, vc)
        case ErrorCall => AfterError(s);
      Run(next, image, hs, calls[1..])
  }

  /** What every reachable state satisfies: the error is unset or one of the
      two messages, and whatever the visible canvas shows is the composite of
      this image and these highlights, at the image's intrinsic size. */
  ghost predicate Consistent(s: PreviewState, image: SourceImage, hs: seq<HighlightArea>) {
    && (s.error == None || s.error == Some(RenderError) || s.error == Some(LoadError))
    && (s.display.shows.Some? ==>
          && s.display.shows == Some(Composite(image, hs, true).value)
          && s.display.width == image.naturalWidth
          && s.display.height == image.naturalHeight)
  }

  lemma {:induction false} RunStaysConsistent(s: PreviewState, image: SourceImage, hs: seq<HighlightArea>, calls: seq<HandlerCall>)
    requires Consistent(s, image, hs)
    ensures Consistent(Run(s, image, hs, calls), image, hs)
    decreases |calls|
  {
    if calls != [] {
      var next := match calls[0]
        case LoadCall(m, cc, vc) => AfterLoad(s, image, hs, m, cc, vc)
        case ErrorCall => AfterError(s);
      assert Consistent(next, image, hs);
      RunStaysConsistent(next, image, hs, calls[1..]);
    }
  }

  /** In every reachable state the canvas is on screen exactly when loading is
      over and no error is set, and then it shows this image's composite. */
  lemma ReachableView(image: SourceImage, hs: seq<HighlightArea>, calls: seq<HandlerCall>)
    ensures var s := Run(Initial(), image, hs, calls);
      && (ViewOf(s) == CanvasWithDownload <==> !s.isLoading && s.error == None)
      && (s.display.shows.Some? ==> s.display.shows.value == Composite(image, hs, true).value)
  {
    RunStaysConsistent(Initial(), image, hs, calls);
  }

  // ---------------------------------------------------------------------------
  // The component as written: the canvas element is rendered only in the
  // final branch, so `canvasRef.current` is null while the spinner shows.
  // ---------------------------------------------------------------------------

  /** `canvasRef.current` is set only while the canvas branch is rendered. */
  function CanvasMountedAsWritten(s: PreviewState): bool {
    ViewOf(s) == CanvasWithDownload
  }

  /** The outcome the image reports, as the browser delivers it. */
  datatype ImageEvent = ImageLoaded(compositeContext: bool, visibleContext: bool) | ImageFailed

  function ReactAsWritten(s: PreviewState, image: SourceImage, hs: seq<HighlightArea>, e: ImageEvent): PreviewState {
    match e
    case ImageLoaded(cc, vc) => AfterLoad(s, image, hs, CanvasMountedAsWritten(s), cc, vc)
    case ImageFailed => AfterError(s)
  }

  function RunAsWritten(s: PreviewState, image: SourceImage, hs: seq<HighlightArea>, events: seq<ImageEvent>): PreviewState
    decreases |events|
  {
    if events == [] then s else RunAsWritten(ReactAsWritten(s, image, hs, events[0]), image, hs, events[1..])
  }

  /** As written, successful image loads never end the spinner: however many
      arrive, the component stays in its initial state. Only a load failure
      leaves the spinner, and then to the error message. */
  lemma {:induction false} AsWrittenLoadsNeverShowCanvas(image: SourceImage, hs: seq<HighlightArea>, events: seq<ImageEvent>)
    requires forall i :: 0 <= i < |events| ==> events[i].ImageLoaded?
    ensures RunAsWritten(Initial(), image, hs, events) == Initial()
    ensures ViewOf(RunAsWritten(Initial(), image, hs, events)) == Spinner
    decreases |events|
  {
    if events != [] {
      assert ReactAsWritten(Initial(), image, hs, events[0]) == Initial();
      AsWrittenLoadsNeverShowCanvas(image, hs, events[1..]);
    }
  }

  // ---------------------------------------------------------------------------
  // Corrected: the canvas element stays mounted (hidden) while loading, so the
  // handler always finds it.
  // ---------------------------------------------------------------------------

  function ReactCorrected(s: PreviewState, image: SourceImage, hs: seq<HighlightArea>, e: ImageEvent): PreviewState {
    match e
    case ImageLoaded(cc, vc) => AfterLoad(s, image, hs, true, cc, vc)
    case ImageFailed => AfterError(s)
  }

  /** With the canvas kept mounted, a successful load of a non-empty image
      leaves the spinner for the highlighted canvas at the image's intrinsic
      size; an empty image or a composite that throws leaves it for the
      render error. */
  lemma CorrectedLoadShowsCanvas(image: SourceImage, hs: seq<HighlightArea>)
    ensures image.naturalWidth > 0 && image.naturalHeight > 0 ==>
      && ViewOf(ReactCorrected(Initial(), image, hs, ImageLoaded(true, true))) == CanvasWithDownload
      && ReactCorrected(Initial(), image, hs, ImageLoaded(true, true)).display ==
           Display(image.naturalWidth, image.naturalHeight, Some(Composite(image, hs, true).value))
    ensures image.naturalWidth == 0 || image.naturalHeight == 0 ==>
      ViewOf(ReactCorrected(Initial(), image, hs, ImageLoaded(true, true))) == ErrorMessage(RenderError)
    ensures ViewOf(ReactCorrected(Initial(), image, hs, ImageLoaded(false, true))) == ErrorMessage(RenderError)
  {
  }
}
