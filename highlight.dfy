/** Compositing of highlight rectangles over a resume page image
    (`createHighlightedCanvas`). The browser canvas is modelled by its size and
    the log of drawing commands issued on its 2D context, in order; pixels and
    alpha blending stay inside the canvas API and are not modelled. */
module Highlight {
  import opened Wrappers

  /** A highlight's `type`. */
  datatype HighlightType = Good | Improve

  /** `HighlightArea`: a rectangle in image pixels, its fill colour and label. */
  datatype HighlightArea = HighlightArea(
    id: string,
    x: int, y: int, width: int, height: int,
    color: string,
    labelText: string,  // the source's `label`
    kind: HighlightType)

  /** A decoded image; only its intrinsic size matters to the compositing. */
  datatype SourceImage = SourceImage(naturalWidth: nat, naturalHeight: nat)

  /** One command issued on a 2D context. Setting `fillStyle`, `strokeStyle`
      and `lineWidth` is logged too, since it decides how later shapes look. */
  datatype DrawOp =
    | DrawImage(dx: int, dy: int)
    | SetFillStyle(fill: string)
    | FillRect(fx: int, fy: int, fw: int, fh: int)
    | SetStrokeStyle(stroke: string)
    | SetLineWidth(lineWidth: int)
    | StrokeRect(sx: int, sy: int, sw: int, sh: int)

  /** A canvas element: its bitmap size and what has been drawn on it since
      the bitmap was last reset. */
  datatype Canvas = Canvas(width: nat, height: nat, ops: seq<DrawOp>)

  /** The size of a freshly created canvas element (section 4.12.5 of the HTML
      Living Standard), before the compositing resizes it. */
  const DefaultCanvasWidth: nat := 300
  const DefaultCanvasHeight: nat := 150

  const GoodStroke := "#10b981"
  const ImproveStroke := "#f59e0b"
  const HighlightLineWidth := 3
  const NoContextError := "Could not get canvas context"

  /** Stroke colour of a highlight's border. */
  function StrokeColor(kind: HighlightType): (c: string)
    ensures c == GoodStroke <==> kind == Good
    ensures c == ImproveStroke <==> kind == Improve
  {
    assert GoodStroke[1] != ImproveStroke[1];
    match kind
    case Good => GoodStroke
    case Improve => ImproveStroke
  }

  /** The commands one highlight contributes: a fill in its own colour, then a
      3-pixel border over the same rectangle in the colour of its type. */
  function PaintHighlight(h: HighlightArea): seq<DrawOp> {
    [ SetFillStyle(h.color),
      FillRect(h.x, h.y, h.width, h.height),
      SetStrokeStyle(StrokeColor(h.kind)),
      SetLineWidth(HighlightLineWidth),
      StrokeRect(h.x, h.y, h.width, h.height) ]
  }

  /** The commands for a list of highlights, painted in list order. */
  function HighlightOps(hs: seq<HighlightArea>): seq<DrawOp> {
    if hs == [] then [] else HighlightOps(hs[..|hs| - 1]) + PaintHighlight(hs[|hs| - 1])
  }

  /** What `createHighlightedCanvas` returns: without a 2D context it throws;
      otherwise a canvas of the image's intrinsic size holding the image drawn
      at the origin followed by every highlight. */
  function Composite(image: SourceImage, hs: seq<HighlightArea>, contextAvailable: bool): Result<Canvas> {
    if !contextAvailable then Failure(NoContextError)
    else Success(Canvas(image.naturalWidth, image.naturalHeight, [DrawImage(0, 0)] + HighlightOps(hs)))
  }

  /** `createHighlightedCanvas(imageElement, highlights)`. Whether
      `getContext('2d')` yields a context is a property of the browser, passed
      in as `contextAvailable`. The image and the highlights are values, so
      the operation cannot modify them. */
  method CreateHighlightedCanvas(image: SourceImage, highlights: seq<HighlightArea>, contextAvailable: bool)
    returns (r: Result<Canvas>)
    ensures r.Failure? <==> !contextAvailable
    ensures r.Failure? ==> r.error == NoContextError
    ensures r.Success? ==> r.value.width == image.naturalWidth && r.value.height == image.naturalHeight
    ensures r.Success? ==> |r.value.ops| == 1 + 5 * |highlights| && r.value.ops[0] == DrawImage(0, 0)
    ensures r == Composite(image, highlights, contextAvailable)
  {
    var canvas := Canvas(DefaultCanvasWidth, DefaultCanvasHeight, []);
    if !contextAvailable {
      return Failure(NoContextError);
    }
    canvas := canvas.(width := image.naturalWidth);
    canvas := canvas.(height := image.naturalHeight);
    canvas := canvas.(ops := canvas.ops + [DrawImage(0, 0)]);
    var i := 0;
    while i < |highlights|
      invariant 0 <= i <= |highlights|
      invariant canvas.width == image.naturalWidth && canvas.height == image.naturalHeight
      invariant canvas.ops == [DrawImage(0, 0)] + HighlightOps(highlights[..i])
    {
      var h := highlights[i];
      canvas := canvas.(ops := canvas.ops + [SetFillStyle(h.color)]);
      canvas := canvas.(ops := canvas.ops + [FillRect(h.x, h.y, h.width, h.height)]);
      canvas := canvas.(ops := canvas.ops + [SetStrokeStyle(if h.kind == Good then GoodStroke else ImproveStroke)]);
      canvas := canvas.(ops := canvas.ops + [SetLineWidth(3)]);
      canvas := canvas.(ops := canvas.ops + [StrokeRect(h.x, h.y, h.width, h.height)]);
      assert highlights[..i + 1][..i] == highlights[..i];
      i := i + 1;
    }
    assert highlights[..i] == highlights;
    HighlightOpsLength(highlights);
    r := Success(canvas);
  }

  // ---------------------------------------------------------------------------
  // Properties of the drawing-command log
  // ---------------------------------------------------------------------------

  /** Five commands per highlight. */
  lemma {:induction false} HighlightOpsLength(hs: seq<HighlightArea>)
    ensures |HighlightOps(hs)| == 5 * |hs|
  {
    if hs != [] {
      HighlightOpsLength(hs[..|hs| - 1]);
    }
  }

  /** Painting a concatenation paints the first list, then the second. */
  lemma {:induction false} HighlightOpsAppend(a: seq<HighlightArea>, b: seq<HighlightArea>)
    ensures HighlightOps(a + b) == HighlightOps(a) + HighlightOps(b)
  {
    if b != [] {
      var ab := a + b;
      assert ab[..|ab| - 1] == a + b[..|b| - 1];
      assert ab[|ab| - 1] == b[|b| - 1];
      HighlightOpsAppend(a, b[..|b| - 1]);
    } else {
      assert a + b == a;
    }
  }

  /** Input order is painting order: the `i`-th highlight owns commands
      `5*i .. 5*i+4`, and they are exactly its fill and its stroke. */
  lemma {:induction false} HighlightOpsAt(hs: seq<HighlightArea>, i: nat, k: nat)
    requires i < |hs| && k < 5
    ensures |HighlightOps(hs)| == 5 * |hs|
    ensures HighlightOps(hs)[5 * i + k] == PaintHighlight(hs[i])[k]
  {
    HighlightOpsLength(hs);
    var n := |hs| - 1;
    HighlightOpsLength(hs[..n]);
    if i < n {
      HighlightOpsAt(hs[..n], i, k);
      assert hs[..n][i] == hs[i];
    } else {
      assert 5 * i + k == 5 * n + k;
    }
  }

  /** Every highlight contributes a fill in its own colour, then a border over
      the same rectangle, in the stroke colour of its type, 3 pixels wide. */
  lemma HighlightPainted(hs: seq<HighlightArea>, i: nat)
    requires i < |hs|
    ensures |HighlightOps(hs)| == 5 * |hs|
    ensures HighlightOps(hs)[5 * i] == SetFillStyle(hs[i].color)
    ensures HighlightOps(hs)[5 * i + 1] == FillRect(hs[i].x, hs[i].y, hs[i].width, hs[i].height)
    ensures HighlightOps(hs)[5 * i + 2] == SetStrokeStyle(if hs[i].kind == Good then "#10b981" else "#f59e0b")
    ensures HighlightOps(hs)[5 * i + 3] == SetLineWidth(3)
    ensures HighlightOps(hs)[5 * i + 4] == StrokeRect(hs[i].x, hs[i].y, hs[i].width, hs[i].height)
  {
    HighlightOpsAt(hs, i, 0);
    HighlightOpsAt(hs, i, 1);
    HighlightOpsAt(hs, i, 2);
    HighlightOpsAt(hs, i, 3);
    HighlightOpsAt(hs, i, 4);
  }

  /** The image is drawn once only: no highlight command draws an image, the
      only line width ever set is 3, and every stroke colour is one of the two
      type colours. */
  lemma {:induction false} HighlightOpsShape(hs: seq<HighlightArea>)
    ensures forall j :: 0 <= j < |HighlightOps(hs)| ==> !HighlightOps(hs)[j].DrawImage?
    ensures forall j :: 0 <= j < |HighlightOps(hs)| && HighlightOps(hs)[j].SetLineWidth? ==>
      HighlightOps(hs)[j].lineWidth == 3
    ensures forall j :: 0 <= j < |HighlightOps(hs)| && HighlightOps(hs)[j].SetStrokeStyle? ==>
      HighlightOps(hs)[j].stroke in {"#10b981", "#f59e0b"}
  {
    if hs != [] {
      HighlightOpsShape(hs[..|hs| - 1]);
    }
  }

  /** The composited canvas draws the source image exactly once, at the origin,
      before any highlight command. */
  lemma ImageDrawnOnceFirst(image: SourceImage, hs: seq<HighlightArea>)
    ensures Composite(image, hs, true).Success?
    ensures Composite(image, hs, true).value.ops[0] == DrawImage(0, 0)
    ensures forall j :: 0 < j < |Composite(image, hs, true).value.ops| ==>
      !Composite(image, hs, true).value.ops[j].DrawImage?
  {
    HighlightOpsShape(hs);
    var ops := Composite(image, hs, true).value.ops;
    assert forall j :: 0 < j < |ops| ==> ops[j] == HighlightOps(hs)[j - 1];
  }

  /** With no highlights the result is the image alone, at its intrinsic size. */
  lemma EmptyHighlightsCopyImage(image: SourceImage)
    ensures Composite(image, [], true) == Success(Canvas(image.naturalWidth, image.naturalHeight, [DrawImage(0, 0)]))
  {
    assert HighlightOps([]) == [];
    assert [DrawImage(0, 0)] + [] == [DrawImage(0, 0)];
  }

  /** Two highlights that differ at most in colour and label get the same
      border: the stroke depends only on position, size and type. */
  lemma StrokeDependsOnlyOnType(a: HighlightArea, b: HighlightArea)
    requires a.kind == b.kind && a.x == b.x && a.y == b.y && a.width == b.width && a.height == b.height
    ensures PaintHighlight(a)[2..] == PaintHighlight(b)[2..]
  {
  }
}
