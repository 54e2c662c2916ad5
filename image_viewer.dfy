/**
 * The image viewers: the inline image preview and the full-screen modal share zoom, rotation,
 * drag and reset; they differ in how keys, mouse buttons and clicks are handled.
 *
 * Zoom is a `real`: the clamp to [0.5, 3] is modelled, the binary rounding of `0.2` steps is
 * not. Cursor coordinates and offsets are integers, where the browser's are doubles.
 */
module ImageViewer {
  import opened Wrappers

  const MinZoom: real := 0.5
  const MaxZoom: real := 3.0
  const ZoomStep: real := 0.2

  /** `a % 360` as JavaScript computes it: the remainder takes the sign of `a`. */
  function JsRem360(a: int): (r: int)
    ensures -360 < r < 360
    ensures a >= 0 ==> r >= 0
    ensures a <= 0 ==> r <= 0
    ensures (a - r) % 360 == 0
  {
    if a >= 0 then a % 360 else -((-a) % 360)
  }

  /** What the viewers draw: zoom, rotation in degrees and the image offset. */
  datatype ViewerState = ViewerState(
    zoom: real, rotation: int, x: int, y: int,
    dragging: bool, startX: int, startY: int)

  const InitialView: ViewerState := ViewerState(1.0, 0, 0, 0, false, 0, 0)

  /** The ranges the viewer keeps: zoom in [0.5, 3], rotation a multiple of 90 in (-360). */
  predicate ViewOk(v: ViewerState) {
    MinZoom <= v.zoom <= MaxZoom && v.rotation % 90 == 0 && -360 < v.rotation < 360
  }

  function Min(a: real, b: real): real { if a < b then a else b }
  function Max(a: real, b: real): real { if a < b then b else a }

  function ZoomInView(v: ViewerState): (r: ViewerState)
    ensures r.zoom <= MaxZoom
    ensures v.zoom + ZoomStep <= MaxZoom ==> r.zoom == v.zoom + ZoomStep
    ensures v.zoom + ZoomStep > MaxZoom ==> r.zoom == MaxZoom
    ensures r.(zoom := v.zoom) == v
  {
    v.(zoom := Min(v.zoom + ZoomStep, MaxZoom))
  }

  function ZoomOutView(v: ViewerState): (r: ViewerState)
    ensures r.zoom >= MinZoom
    ensures v.zoom - ZoomStep >= MinZoom ==> r.zoom == v.zoom - ZoomStep
    ensures v.zoom - ZoomStep < MinZoom ==> r.zoom == MinZoom
    ensures r.(zoom := v.zoom) == v
  {
    v.(zoom := Max(v.zoom - ZoomStep, MinZoom))
  }

  function RotateLeftView(v: ViewerState): (r: ViewerState)
    ensures -360 < r.rotation < 360
    ensures (v.rotation - 90 - r.rotation) % 360 == 0
    ensures r.(rotation := v.rotation) == v
  {
    v.(rotation := JsRem360(v.rotation - 90))
  }

  function RotateRightView(v: ViewerState): (r: ViewerState)
    ensures -360 < r.rotation < 360
    ensures (v.rotation + 90 - r.rotation) % 360 == 0
    ensures r.(rotation := v.rotation) == v
  {
    v.(rotation := JsRem360(v.rotation + 90))
  }

  /** `resetView`: zoom 1, rotation 0, offset (0, 0); the drag state is kept. */
  function Reset(v: ViewerState): (r: ViewerState)
    ensures r.zoom == 1.0 && r.rotation == 0 && r.x == 0 && r.y == 0
    ensures r.dragging == v.dragging && r.startX == v.startX && r.startY == v.startY
  {
    v.(zoom := 1.0, rotation := 0, x := 0, y := 0)
  }

  /** A press at (cx, cy) starts a drag anchored so the image keeps its offset. */
  function MouseDown(v: ViewerState, cx: int, cy: int): (r: ViewerState)
    ensures r.dragging && r.x == v.x && r.y == v.y
    ensures cx - r.startX == v.x && cy - r.startY == v.y
  {
    v.(dragging := true, startX := cx - v.x, startY := cy - v.y)
  }

  /** A move to (cx, cy) places the image at the cursor minus the anchor, only while dragging. */
  function MouseMove(v: ViewerState, cx: int, cy: int): (r: ViewerState)
    ensures !v.dragging ==> r == v
    ensures v.dragging ==> r.x == cx - v.startX && r.y == cy - v.startY
    ensures r.(x := v.x, y := v.y) == v
  {
    if v.dragging then v.(x := cx - v.startX, y := cy - v.startY) else v
  }

  function MouseUp(v: ViewerState): (r: ViewerState)
    ensures !r.dragging && r.(dragging := v.dragging) == v
  {
    v.(dragging := false)
  }

  /** A wheel turn away from the user (`deltaY < 0`) zooms in; any other turn zooms out. */
  function Wheel(v: ViewerState, deltaY: real): (r: ViewerState)
    ensures deltaY < 0.0 ==> r == ZoomInView(v)
    ensures deltaY >= 0.0 ==> r == ZoomOutView(v)
  {
    if deltaY < 0.0 then ZoomInView(v) else ZoomOutView(v)
  }

  /** What a key does. */
  datatype Action = DoZoomIn | DoZoomOut | DoReset | DoRotateLeft | DoRotateRight | DoClose | DoNothing

  function Apply(v: ViewerState, a: Action): ViewerState {
    match a
    case DoZoomIn => ZoomInView(v)
    case DoZoomOut => ZoomOutView(v)
    case DoReset => Reset(v)
    case DoRotateLeft => RotateLeftView(v)
    case DoRotateRight => RotateRightView(v)
    case DoClose => v
    case DoNothing => v
  }

  /** The keys both viewers share; only the modal resets on `'R'` as well as `'r'`. */
  function KeyAction(key: string, upperR: bool): Action {
    if key == "+" || key == "=" then DoZoomIn
    else if key == "-" || key == "_" then DoZoomOut
    else if key == "r" || (upperR && key == "R") then DoReset
    else if key == "ArrowLeft" then DoRotateLeft
    else if key == "ArrowRight" then DoRotateRight
    else DoNothing
  }

  /** The inline viewer listens only while its controls are shown (the cursor is over it). */
  function InlineKeyAction(key: string, showControls: bool): (r: Action)
    ensures !showControls ==> r == DoNothing
    ensures r != DoClose
  {
    if !showControls then DoNothing else KeyAction(key, false)
  }

  /** The modal closes on Escape and otherwise maps keys like the inline viewer. */
  function ModalKeyAction(key: string): (r: Action)
    ensures r == DoClose <==> key == "Escape"
  {
    if key == "Escape" then DoClose else KeyAction(key, true)
  }

  /** The modal's click handler closes only for a click on the overlay element itself. */
  predicate OverlayClickCloses(target: nat, overlay: Option<nat>) {
    overlay.Some? && target == overlay.value
  }

  // ---------------------------------------------------------------------------------------
  // The viewers

  /** The preview shown inside the document panel. The copy declared inside the document
   *  preview component behaves the same, except that it has no modal to open on click. */
  class InlineImageViewer {
    var zoomLevel: real
    var rotation: int
    var positionX: int
    var positionY: int
    var isDragging: bool
    var dragStartX: int
    var dragStartY: int
    var showControls: bool
    var showModal: bool

    ghost function State(): ViewerState
      reads this
    {
      ViewerState(zoomLevel, rotation, positionX, positionY, isDragging, dragStartX, dragStartY)
    }

    constructor ()
      ensures State() == InitialView && !showControls && !showModal
    {
      zoomLevel := 1.0;
      rotation := 0;
      positionX := 0;
      positionY := 0;
      isDragging := false;
      dragStartX := 0;
      dragStartY := 0;
      showControls := false;
      showModal := false;
    }

    method ZoomIn()
      modifies this
      ensures State() == ZoomInView(old(State()))
      ensures showControls == old(showControls) && showModal == old(showModal)
    {
      zoomLevel := Min(zoomLevel + ZoomStep, MaxZoom);
    }

    method ZoomOut()
      modifies this
      ensures State() == ZoomOutView(old(State()))
      ensures showControls == old(showControls) && showModal == old(showModal)
    {
      zoomLevel := Max(zoomLevel - ZoomStep, MinZoom);
    }

    method RotateLeft()
      modifies this
      ensures State() == RotateLeftView(old(State()))
      ensures showControls == old(showControls) && showModal == old(showModal)
    {
      rotation := JsRem360(rotation - 90);
    }

    method RotateRight()
      modifies this
      ensures State() == RotateRightView(old(State()))
      ensures showControls == old(showControls) && showModal == old(showModal)
    {
      rotation := JsRem360(rotation + 90);
    }

    method ResetView()
      modifies this
      ensures State() == Reset(old(State()))
      ensures showControls == old(showControls) && showModal == old(showModal)
    {
      zoomLevel := 1.0;
      rotation := 0;
      positionX := 0;
      positionY := 0;
    }

    method HandleMouseDown(clientX: int, clientY: int)
      modifies this
      ensures State() == MouseDown(old(State()), clientX, clientY)
      ensures showControls == old(showControls) && showModal == old(showModal)
    {
      isDragging := true;
      dragStartX := clientX - positionX;
      dragStartY := clientY - positionY;
    }

    method HandleMouseMove(clientX: int, clientY: int)
      modifies this
      ensures State() == MouseMove(old(State()), clientX, clientY)
      ensures showControls == old(showControls) && showModal == old(showModal)
    {
      if isDragging {
        positionX := clientX - dragStartX;
        positionY := clientY - dragStartY;
      }
    }

    method HandleMouseUp()
      modifies this
      ensures State() == MouseUp(old(State()))
      ensures showControls == old(showControls) && showModal == old(showModal)
    {
      isDragging := false;
    }

    method HandleWheel(deltaY: real)
      modifies this
      ensures State() == Wheel(old(State()), deltaY)
      ensures showControls == old(showControls) && showModal == old(showModal)
    {
      if deltaY < 0.0 {
        ZoomIn();
      } else {
        ZoomOut();
      }
    }

    method HandleKeyDown(key: string)
      modifies this
      ensures State() == Apply(old(State()), InlineKeyAction(key, old(showControls)))
      ensures showControls == old(showControls) && showModal == old(showModal)
    {
      if !showControls {
        return;
      }
      if key == "+" || key == "=" {
        ZoomIn();
      } else if key == "-" || key == "_" {
        ZoomOut();
      } else if key == "r" {
        ResetView();
      } else if key == "ArrowLeft" {
        RotateLeft();
      } else if key == "ArrowRight" {
        RotateRight();
      }
    }

    method HandleMouseEnter()
      modifies this
      ensures showControls && State() == old(State()) && showModal == old(showModal)
    {
      showControls := true;
    }

    method HandleMouseLeave()
      modifies this
      ensures !showControls && State() == old(State()) && showModal == old(showModal)
    {
      showControls := false;
    }

    /** A click on the preview opens the modal. */
    method HandleClick()
      modifies this
      ensures showModal && State() == old(State()) && showControls == old(showControls)
    {
      showModal := true;
    }
  }

  /** The full-screen viewer; `onClose` is reported through the returned flag. */
  class ModalImageViewer {
    var zoomLevel: real
    var rotation: int
    var positionX: int
    var positionY: int
    var isDragging: bool
    var dragStartX: int
    var dragStartY: int

    ghost function State(): ViewerState
      reads this
    {
      ViewerState(zoomLevel, rotation, positionX, positionY, isDragging, dragStartX, dragStartY)
    }

    constructor ()
      ensures State() == InitialView
    {
      zoomLevel := 1.0;
      rotation := 0;
      positionX := 0;
      positionY := 0;
      isDragging := false;
      dragStartX := 0;
      dragStartY := 0;
    }

    method ApplyAction(a: Action)
      modifies this
      ensures State() == Apply(old(State()), a)
    {
      match a {
        case DoZoomIn => zoomLevel := Min(zoomLevel + ZoomStep, MaxZoom);
        case DoZoomOut => zoomLevel := Max(zoomLevel - ZoomStep, MinZoom);
        case DoReset =>
          zoomLevel := 1.0;
          rotation := 0;
          positionX := 0;
          positionY := 0;
        case DoRotateLeft => rotation := JsRem360(rotation - 90);
        case DoRotateRight => rotation := JsRem360(rotation + 90);
        case DoClose =>
        case DoNothing =>
      }
    }

    /** Only the main (left) button, number 0, starts a drag. */
    method HandleMouseDown(button: int, clientX: int, clientY: int)
      modifies this
      ensures button != 0 ==> State() == old(State())
      ensures button == 0 ==> State() == MouseDown(old(State()), clientX, clientY)
    {
      if button != 0 {
        return;
      }
      isDragging := true;
      dragStartX := clientX - positionX;
      dragStartY := clientY - positionY;
    }

    method HandleMouseMove(clientX: int, clientY: int)
      modifies this
      ensures State() == MouseMove(old(State()), clientX, clientY)
    {
      if isDragging {
        positionX := clientX - dragStartX;
        positionY := clientY - dragStartY;
      }
    }

    method HandleMouseUp()
      modifies this
      ensures State() == MouseUp(old(State()))
    {
      isDragging := false;
    }

    method HandleWheel(deltaY: real)
      modifies this
      ensures State() == Wheel(old(State()), deltaY)
    {
      if deltaY < 0.0 {
        ApplyAction(DoZoomIn);
      } else {
        ApplyAction(DoZoomOut);
      }
    }

    /** Escape asks to close and does nothing else; other keys act on the view. */
    method HandleKeyDown(key: string) returns (close: bool)
      modifies this
      ensures close <==> key == "Escape"
      ensures State() == Apply(old(State()), ModalKeyAction(key))
    {
      if key == "Escape" {
        return true;
      }
      ApplyAction(KeyAction(key, true));
      return false;
    }

    /** A click asks to close only when it lands on the overlay itself. */
    method HandleClick(target: nat, overlay: Option<nat>) returns (close: bool)
      ensures close <==> OverlayClickCloses(target, overlay)
    {
      close := overlay.Some? && target == overlay.value;
    }
  }

  // ---------------------------------------------------------------------------------------
  // Properties

  /** Every button, key and wheel turn keeps zoom and rotation in range. */
  lemma ApplyKeepsRanges(v: ViewerState, a: Action)
    requires ViewOk(v)
    ensures ViewOk(Apply(v, a))
  {
    match a {
      case DoRotateLeft => RotationStaysRightAngle(v.rotation - 90);
      case DoRotateRight => RotationStaysRightAngle(v.rotation + 90);
      case _ =>
    }
  }

  /** The JavaScript remainder by 360 of a multiple of 90 is a multiple of 90. */
  lemma RotationStaysRightAngle(a: int)
    requires a % 90 == 0
    ensures JsRem360(a) % 90 == 0
  {
    var r := JsRem360(a);
    var k := a / 90;
    assert a == 90 * k;
    var q := (a - r) / 360;
    assert a - r == 360 * q;
    var m := k - 4 * q;
    assert r == 90 * m;
  }

  /** Drags and wheel turns keep zoom and rotation in range too. */
  lemma CursorKeepsRanges(v: ViewerState, cx: int, cy: int, deltaY: real)
    requires ViewOk(v)
    ensures ViewOk(MouseDown(v, cx, cy)) && ViewOk(MouseMove(v, cx, cy)) && ViewOk(MouseUp(v))
    ensures ViewOk(Wheel(v, deltaY))
  {
  }

  /** Rotating right then left gives back the rotation up to a whole turn. */
  lemma RotateRightThenLeft(v: ViewerState)
    ensures (RotateLeftView(RotateRightView(v)).rotation - v.rotation) % 360 == 0
    ensures RotateLeftView(RotateRightView(v)).(rotation := v.rotation) == v
  {
    var r1 := RotateRightView(v).rotation;
    var r2 := RotateLeftView(RotateRightView(v)).rotation;
    var p := (v.rotation + 90 - r1) / 360;
    var q := (r1 - 90 - r2) / 360;
    assert v.rotation + 90 - r1 == 360 * p;
    assert r1 - 90 - r2 == 360 * q;
    assert r2 - v.rotation == 360 * (-p - q);
  }

  /** Up to a whole turn is all one gets back: 270 turns right to 0 and back left to -90. */
  lemma RotateRightThenLeftNotExact(v: ViewerState)
    requires v.rotation == 270
    ensures RotateLeftView(RotateRightView(v)).rotation == -90
  {
  }

  /** The inline viewer ignores every key while its controls are hidden, and never closes. */
  lemma HiddenControlsIgnoreKeys(v: ViewerState, key: string)
    ensures Apply(v, InlineKeyAction(key, false)) == v
  {
  }

  /** Both `'r'` and `'R'` reset the modal view; only `'r'` resets the inline one. */
  lemma ResetKeys(v: ViewerState)
    ensures Apply(v, ModalKeyAction("r")) == Reset(v) && Apply(v, ModalKeyAction("R")) == Reset(v)
    ensures Apply(v, InlineKeyAction("r", true)) == Reset(v)
    ensures InlineKeyAction("R", true) == DoNothing
  {
  }

  /** Apart from Escape and the upper-case R, the two viewers map keys alike. */
  lemma KeyMapsAgree(key: string)
    requires key != "Escape" && key != "R"
    ensures ModalKeyAction(key) == InlineKeyAction(key, true)
  {
  }

  /** Escape leaves the modal view as it was. */
  lemma EscapeOnlyCloses(v: ViewerState)
    ensures ModalKeyAction("Escape") == DoClose && Apply(v, DoClose) == v
  {
  }

  /** Pressing at one point and moving to another shifts the image by the cursor's travel. */
  lemma DragMovesByCursorTravel(v: ViewerState, x0: int, y0: int, x1: int, y1: int)
    ensures var w := MouseMove(MouseDown(v, x0, y0), x1, y1);
            w.x == v.x + (x1 - x0) && w.y == v.y + (y1 - y0)
  {
  }

  /** Once released, moving the cursor moves nothing. */
  lemma ReleasedCursorMovesNothing(v: ViewerState, cx: int, cy: int)
    ensures MouseMove(MouseUp(v), cx, cy) == MouseUp(v)
  {
  }

  /** The initial view is in range, and a reset brings any view back to it apart from the drag. */
  lemma ResetRestoresInitial(v: ViewerState)
    ensures ViewOk(InitialView)
    ensures Reset(v).(dragging := false, startX := 0, startY := 0) == InitialView
  {
  }
}
