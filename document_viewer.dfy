/**
 * The document preview of src/components/DocumentViewer.tsx: the zoom and
 * rotation state the toolbar buttons change, the loading flag, and the choice
 * of preview for a MIME type.
 */
module DocumentViewer {
  import opened Text
  import DocumentService

  /** The zoom percentage and the rotation in degrees. */
  datatype ViewState = ViewState(zoom: int, rotation: nat)

  /** The three toolbar handlers. */
  datatype ViewerOp = ZoomIn | ZoomOut | Rotate

  const MinZoom: int := 50
  const MaxZoom: int := 200
  const ZoomStep: int := 25

  /** Both states start here when the viewer is mounted. */
  const InitialView: ViewState := ViewState(100, 0)

  /** `Math.min(prev + 25, 200)`. */
  function ZoomInStep(z: int): (z': int)
    ensures z' <= MaxZoom && z' <= z + ZoomStep
    ensures z' == z + ZoomStep || z' == MaxZoom
  {
    if z + ZoomStep < MaxZoom then z + ZoomStep else MaxZoom
  }

  /** `Math.max(prev - 25, 50)`. */
  function ZoomOutStep(z: int): (z': int)
    ensures z' >= MinZoom && z' >= z - ZoomStep
    ensures z' == z - ZoomStep || z' == MinZoom
  {
    if z - ZoomStep > MinZoom then z - ZoomStep else MinZoom
  }

  /** `(prev + 90) % 360`; the rotation is never negative, so JavaScript's `%` and Dafny's agree. */
  function RotateStep(r: nat): (r': nat)
    ensures r' < 360
  {
    (r + 90) % 360
  }

  /** One handler: each changes its own field and leaves the other alone. */
  function Step(s: ViewState, op: ViewerOp): ViewState
  {
    match op
    case ZoomIn => s.(zoom := ZoomInStep(s.zoom))
    case ZoomOut => s.(zoom := ZoomOutStep(s.zoom))
    case Rotate => s.(rotation := RotateStep(s.rotation))
  }

  /** The state after a sequence of button presses. */
  function Run(s: ViewState, ops: seq<ViewerOp>): ViewState
    decreases |ops|
  {
    if |ops| == 0 then s else Step(Run(s, ops[..|ops| - 1]), ops[|ops| - 1])
  }

  /** A state the buttons can reach from the initial one. */
  predicate ValidView(s: ViewState) {
    MinZoom <= s.zoom <= MaxZoom && s.zoom % ZoomStep == 0 && s.rotation in {0, 90, 180, 270}
  }

  /** How many of the presses are rotations. */
  function RotateCount(ops: seq<ViewerOp>): nat
    decreases |ops|
  {
    if |ops| == 0 then 0 else RotateCount(ops[..|ops| - 1]) + (if ops[|ops| - 1] == Rotate then 1 else 0)
  }

  /** The presses with the rotations taken out. */
  function ZoomOps(ops: seq<ViewerOp>): seq<ViewerOp>
    decreases |ops|
  {
    if |ops| == 0 then [] else ZoomOps(ops[..|ops| - 1]) + (if ops[|ops| - 1] == Rotate then [] else [ops[|ops| - 1]])
  }

  // ---------------------------------------------------------------------------

  /** Every handler keeps the zoom in [50, 200] on a multiple of 25 and the rotation on a quarter turn. */
  lemma StepKeepsValid(s: ViewState, op: ViewerOp)
    requires ValidView(s)
    ensures ValidView(Step(s, op))
  {
  }

  /** From the initial state, any sequence of presses stays valid. */
  lemma {:induction false} RunKeepsValid(s: ViewState, ops: seq<ViewerOp>)
    requires ValidView(s)
    ensures ValidView(Run(s, ops))
    decreases |ops|
  {
    if |ops| > 0 {
      RunKeepsValid(s, ops[..|ops| - 1]);
      StepKeepsValid(Run(s, ops[..|ops| - 1]), ops[|ops| - 1]);
    }
  }

  lemma ReachableIsValid(ops: seq<ViewerOp>)
    ensures ValidView(Run(InitialView, ops))
  {
    RunKeepsValid(InitialView, ops);
  }

  /** The zoom buttons saturate: zoom-in at 200 and zoom-out at 50 change nothing. */
  lemma ZoomSaturates(s: ViewState)
    ensures s.zoom >= MaxZoom - ZoomStep ==> Step(s, ZoomIn).zoom == MaxZoom
    ensures s.zoom <= MinZoom + ZoomStep ==> Step(s, ZoomOut).zoom == MinZoom
    ensures s.zoom == MaxZoom ==> Step(s, ZoomIn) == s
    ensures s.zoom == MinZoom ==> Step(s, ZoomOut) == s
  {
  }

  /** Below the cap, zooming in and back out returns to the same zoom. */
  lemma ZoomInOutRoundTrip(s: ViewState)
    requires MinZoom <= s.zoom <= MaxZoom - ZoomStep
    ensures Step(Step(s, ZoomIn), ZoomOut) == s
  {
  }

  /** Four rotations return to the start. */
  lemma FourRotationsIdentity(s: ViewState)
    requires s.rotation < 360
    ensures Step(Step(Step(Step(s, Rotate), Rotate), Rotate), Rotate) == s
  {
    var r := s.rotation;
    assert RotateStep(r) == if r < 270 then r + 90 else r - 270;
    assert RotateStep(RotateStep(r)) == if r < 180 then r + 180 else r - 180;
    assert RotateStep(RotateStep(RotateStep(r))) == if r < 90 then r + 270 else r - 90;
  }

  /** The rotation depends only on how many rotations were pressed. */
  lemma {:induction false} RotationCountsQuarterTurns(s: ViewState, ops: seq<ViewerOp>)
    requires s.rotation < 360
    ensures Run(s, ops).rotation == (s.rotation + 90 * RotateCount(ops)) % 360
    decreases |ops|
  {
    if |ops| > 0 {
      var init := ops[..|ops| - 1];
      RotationCountsQuarterTurns(s, init);
      if ops[|ops| - 1] == Rotate {
        QuarterTurnMod(s.rotation + 90 * RotateCount(init));
      }
    }
  }

  /** Reducing modulo 360 before or after a quarter turn gives the same angle. */
  lemma QuarterTurnMod(a: nat)
    ensures (a % 360 + 90) % 360 == (a + 90) % 360
  {
    var q := a / 360;
    assert a == 360 * q + a % 360;
    assert a + 90 == 360 * q + (a % 360 + 90);
  }

  /** The zoom depends only on the zoom presses: rotating never changes it. */
  lemma {:induction false} ZoomIgnoresRotations(s: ViewState, ops: seq<ViewerOp>)
    ensures Run(s, ops).zoom == Run(s, ZoomOps(ops)).zoom
    decreases |ops|
  {
    if |ops| > 0 {
      var init := ops[..|ops| - 1];
      ZoomIgnoresRotations(s, init);
      var op := ops[|ops| - 1];
      var z := ZoomOps(ops);
      if op != Rotate {
        assert z == ZoomOps(init) + [op];
        assert z[..|z| - 1] == ZoomOps(init) && z[|z| - 1] == op;
      } else {
        assert z == ZoomOps(init);
      }
    }
  }

  // ---------------------------------------------------------------------------
  // The preview

  /** What `renderDocumentContent` shows, with the state each kind uses. */
  datatype Preview =
    | Spinner
    | PdfFrame(zoom: int, rotation: nat)
    | ImageView(zoom: int, rotation: nat)
    | TextFrame(fontPercent: int)
    | DownloadPrompt

  /** While loading, a spinner; then the first of pdf, image and text that the MIME type names; else the download prompt. */
  function PreviewFor(loading: bool, s: ViewState, mimeType: string): (p: Preview)
    ensures p.Spinner? <==> loading
    ensures p.PdfFrame? <==> !loading && Contains(mimeType, "pdf")
    ensures p.ImageView? <==> !loading && !Contains(mimeType, "pdf") && Contains(mimeType, "image")
    ensures p.TextFrame? <==>
      !loading && !Contains(mimeType, "pdf") && !Contains(mimeType, "image") && Contains(mimeType, "text")
    ensures p.DownloadPrompt? <==>
      !loading && !Contains(mimeType, "pdf") && !Contains(mimeType, "image") && !Contains(mimeType, "text")
  {
    if loading then Spinner
    else if Contains(mimeType, "pdf") then PdfFrame(s.zoom, s.rotation)
    else if Contains(mimeType, "image") then ImageView(s.zoom, s.rotation)
    else if Contains(mimeType, "text") then TextFrame(s.zoom)
    else DownloadPrompt
  }

  /** The zoom buttons are shown for PDFs and images. */
  predicate ZoomControlsShown(mimeType: string) {
    Contains(mimeType, "pdf") || Contains(mimeType, "image")
  }

  /**
   * The viewer and the upload service classify PDFs alike, and a file the
   * service calls `other` can only be downloaded.
   */
  lemma PreviewAgreesWithDocumentType(s: ViewState, mimeType: string)
    ensures PreviewFor(false, s, mimeType).PdfFrame? <==> DocumentService.GetDocumentType(mimeType) == "pdf"
    ensures DocumentService.GetDocumentType(mimeType) == "other" ==> PreviewFor(false, s, mimeType) == DownloadPrompt
  {
  }

  /** Where the zoom buttons are shown, the loaded preview is one that uses the zoom and the rotation. */
  lemma ZoomControlsMatchPreview(s: ViewState, mimeType: string)
    ensures ZoomControlsShown(mimeType) <==>
      PreviewFor(false, s, mimeType) == PdfFrame(s.zoom, s.rotation) ||
      PreviewFor(false, s, mimeType) == ImageView(s.zoom, s.rotation)
  {
  }

  // ---------------------------------------------------------------------------

  /** The component's state. */
  class Viewer {
    var zoom: int
    var rotation: nat
    var loading: bool

    function State(): ViewState
      reads this
    {
      ViewState(zoom, rotation)
    }

    ghost predicate Valid()
      reads this
    {
      ValidView(State())
    }

    /** `useState(100)`, `useState(0)`, `useState(true)`. */
    constructor()
      ensures State() == InitialView && loading && Valid()
    {
      zoom := 100;
      rotation := 0;
      loading := true;
    }

    /** `handleZoomIn`. */
    method HandleZoomIn()
      requires Valid()
      modifies this
      ensures Valid()
      ensures zoom == ZoomInStep(old(zoom)) && rotation == old(rotation) && loading == old(loading)
      ensures State() == Step(old(State()), ZoomIn)
    {
      zoom := if zoom + 25 < 200 then zoom + 25 else 200;
    }

    /** `handleZoomOut`. */
    method HandleZoomOut()
      requires Valid()
      modifies this
      ensures Valid()
      ensures zoom == ZoomOutStep(old(zoom)) && rotation == old(rotation) && loading == old(loading)
      ensures State() == Step(old(State()), ZoomOut)
    {
      zoom := if zoom - 25 > 50 then zoom - 25 else 50;
    }

    /** `handleRotate`. */
    method HandleRotate()
      requires Valid()
      modifies this
      ensures Valid()
      ensures rotation == RotateStep(old(rotation)) && zoom == old(zoom) && loading == old(loading)
      ensures State() == Step(old(State()), Rotate)
    {
      rotation := (rotation + 90) % 360;
    }

    /** Opening the viewer (the effect on `isOpen`) starts loading again; zoom and rotation stay. */
    method Open()
      modifies this
      ensures loading && State() == old(State())
    {
      loading := true;
    }

    /** The loading timer firing. */
    method FinishLoading()
      modifies this
      ensures !loading && State() == old(State())
    {
      loading := false;
    }

    /** `renderDocumentContent`. */
    function Content(mimeType: string): Preview
      reads this
    {
      PreviewFor(loading, State(), mimeType)
    }
  }
}
