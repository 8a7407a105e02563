/** The manual-crop overlay of main.js (`getPointerPosition`, `initManualCrop`, `setupCropDrag`,
    `executeCrop`): a rectangle in display pixels that the pointer moves or resizes, and its
    conversion to source-image pixels. */
module CropOverlay {
  import opened Numeric
  import opened Wrappers
  import opened Geometry

  datatype Point = Point(x: real, y: real)

  /** A pointer event as far as its position goes: a mouse event's client position, or a touch
      event's lists of active and changed touch points. */
  datatype PointerEvent =
    | MouseEvent(client: Point)
    | TouchEvent(touches: seq<Point>, changedTouches: seq<Point>)

  /** `getPointerPosition`: the first active touch, else the first changed touch, else the mouse
      position; a touch event with no point at all has no position (`undefined` coordinates). */
  function PointerPosition(e: PointerEvent): (p: Option<Point>)
    ensures e.MouseEvent? ==> p == Some(e.client)
    ensures e.TouchEvent? ==> (p.Some? <==> |e.touches| > 0 || |e.changedTouches| > 0)
    ensures e.TouchEvent? && |e.touches| > 0 ==> p == Some(e.touches[0])
    ensures e.TouchEvent? && |e.touches| == 0 && |e.changedTouches| > 0 ==> p == Some(e.changedTouches[0])
  {
    match e
    case MouseEvent(c) => Some(c)
    case TouchEvent(ts, cs) => if |ts| > 0 then Some(ts[0]) else if |cs| > 0 then Some(cs[0]) else None
  }

  /** The smallest side, in display pixels, a resize may leave. */
  const MinSide: real := 50.0

  /** The share of the limiting side the initial overlay takes. */
  const InitialFraction: real := 0.8

  /** `initManualCrop`: 80 % of the limiting side of the displayed image, at exactly the target
      ratio, centred. */
  function InitialOverlay(imageWidth: real, imageHeight: real, t: real): (r: Rect)
    requires t > 0.0
    ensures Size(r.width, r.height) == Reconcile(InitialFraction * imageWidth, InitialFraction * imageHeight, t)
    ensures r.width == t * r.height
    ensures r.width == InitialFraction * imageWidth || r.height == InitialFraction * imageHeight
    ensures 2.0 * r.x + r.width == imageWidth && 2.0 * r.y + r.height == imageHeight
    ensures 0.0 <= imageWidth && 0.0 <= imageHeight ==>
      0.0 <= r.x && 0.0 <= r.y && r.x + r.width <= imageWidth && r.y + r.height <= imageHeight
  {
    QuotientScale(imageWidth, imageHeight, t, InitialFraction);
    var size :=
      if QuotientAbove(imageWidth, imageHeight, t) then
        var height := imageHeight * InitialFraction;
        Size(height * t, height)
      else
        var width := imageWidth * InitialFraction;
        Size(width, width / t);
    assert size == Reconcile(InitialFraction * imageWidth, InitialFraction * imageHeight, t);
    Rect((imageWidth - size.w) / 2.0, (imageHeight - size.h) / 2.0, size.w, size.h)
  }

  /** Scaling both sides by the same positive factor does not change the quotient test. */
  lemma QuotientScale(a: real, b: real, t: real, k: real)
    requires k > 0.0
    ensures QuotientAbove(k * a, k * b, t) == QuotientAbove(a, b, t)
  {
    if b != 0.0 {
      assert k * b != 0.0;
      assert (k * a) / (k * b) == a / b;
    }
  }

  /** The clamp of a drag: `Math.max(0, Math.min(hi, v))`. Within `[0, hi]` the value is kept,
      outside it the nearer end is taken, and an empty range gives 0. */
  function ClampMove(v: real, hi: real): (r: real)
    ensures hi >= 0.0 ==> 0.0 <= r <= hi
    ensures hi < 0.0 ==> r == 0.0
    ensures 0.0 <= v <= hi ==> r == v
    ensures v < 0.0 ==> r == 0.0
    ensures v > hi ==> r == Max(0.0, hi)
  {
    Max(0.0, Min(hi, v))
  }

  /** The edge step of a resize: each letter of the handle's direction moves one edge to the
      pointer; `w` and `n` set left/top to the pointer while keeping the opposite edge. The
      starting width and height are the overlay's integer `offsetWidth`/`offsetHeight`. */
  function EdgeAdjust(left: real, top: real, offW: int, offH: int, dir: string, cur: Point): (r: Rect)
    ensures 'w' in dir ==> r.x == cur.x
    ensures 'w' !in dir ==> r.x == left
    ensures 'e' in dir && 'w' !in dir ==> r.x + r.width == cur.x
    ensures 'e' !in dir && 'w' in dir ==> r.x + r.width == left + offW as real
    ensures 'e' in dir && 'w' in dir ==> r.width == 0.0
    ensures 'e' !in dir && 'w' !in dir ==> r.width == offW as real
    ensures 'n' in dir ==> r.y == cur.y
    ensures 'n' !in dir ==> r.y == top
    ensures 's' in dir && 'n' !in dir ==> r.y + r.height == cur.y
    ensures 's' !in dir && 'n' in dir ==> r.y + r.height == top + offH as real
    ensures 's' in dir && 'n' in dir ==> r.height == 0.0
    ensures 's' !in dir && 'n' !in dir ==> r.height == offH as real
  {
    var w1 := if 'e' in dir then cur.x - left else offW as real;
    var w2 := if 'w' in dir then left + w1 - cur.x else w1;
    var x := if 'w' in dir then cur.x else left;
    var h1 := if 's' in dir then cur.y - top else offH as real;
    var h2 := if 'n' in dir then top + h1 - cur.y else h1;
    var y := if 'n' in dir then cur.y else top;
    Rect(x, y, w2, h2)
  }

  /** A resize proposal from the edge step `e`: the ratio reconcile, which only ever shrinks one
      side and leaves left/top where the edge step put them. */
  function Propose(e: Rect, t: real): (p: Rect)
    requires t > 0.0
    ensures p.width == t * p.height
    ensures p.x == e.x && p.y == e.y
    ensures p.width == e.width || p.height == e.height
    ensures 0.0 <= e.height ==> p.width <= e.width && p.height <= e.height
  {
    var s := Reconcile(e.width, e.height, t);
    Rect(e.x, e.y, s.w, s.h)
  }

  /** The all-or-nothing test of a resize: inside the displayed image, both sides at least 50. */
  predicate Accepts(p: Rect, imageWidth: real, imageHeight: real)
    ensures Accepts(p, imageWidth, imageHeight) ==>
      MinSide <= p.width <= imageWidth && MinSide <= p.height <= imageHeight
  {
    && p.x >= 0.0 && p.y >= 0.0
    && p.x + p.width <= imageWidth && p.y + p.height <= imageHeight
    && p.width >= MinSide && p.height >= MinSide
  }

  /** Dragging the `w` handle outwards, when the widened box is too wide for the ratio, moves the
      box to the pointer at its old height instead of widening it: the east edge moves too. */
  lemma WestHandleOutwardTranslates()
    ensures Propose(EdgeAdjust(100.0, 100.0, 160, 90, "w", Point(50.0, 0.0)), 16.0 / 9.0)
      == Rect(50.0, 100.0, 160.0, 90.0)
  {
  }

  /** The resize step of `handleMove` for a pointer at `currentX`/`currentY`, relative to the
      container: each direction letter moves its edge, then the ratio is reconciled. */
  method ResizeBox(left: real, top: real, offW: int, offH: int, dir: string,
                   currentX: real, currentY: real, t: real)
    returns (newLeft: real, newTop: real, newWidth: real, newHeight: real)
    requires t > 0.0
    ensures Rect(newLeft, newTop, newWidth, newHeight)
      == Propose(EdgeAdjust(left, top, offW, offH, dir, Point(currentX, currentY)), t)
  {
    ghost var edges := EdgeAdjust(left, top, offW, offH, dir, Point(currentX, currentY));
    newWidth := offW as real;
    newHeight := offH as real;
    newLeft := left;
    newTop := top;
    if 'e' in dir {
      newWidth := currentX - newLeft;
    }
    if 'w' in dir {
      newWidth := newLeft + newWidth - currentX;
      newLeft := currentX;
    }
    assert newLeft == edges.x && newWidth == edges.width;
    if 's' in dir {
      newHeight := currentY - newTop;
    }
    if 'n' in dir {
      newHeight := newTop + newHeight - currentY;
      newTop := currentY;
    }
    assert newTop == edges.y && newHeight == edges.height;
    var reconciled := Reconcile(newWidth, newHeight, t);
    newWidth, newHeight := reconciled.w, reconciled.h;
  }

  /** The overlay and the pointer-interaction state of `setupCropDrag`; `isDragging` and
      `dragStart` are page globals, `isResizing` and `resizeDirection` its closure variables.
      Positions are `style.left`/`style.top` in display pixels relative to the displayed image. */
  class Controller {
    var left: real
    var top: real
    var width: real
    var height: real
    var isDragging: bool
    var isResizing: bool
    var resizeDirection: string
    var dragStart: Point

    function Overlay(): Rect
      reads this
    {
      Rect(left, top, width, height)
    }

    /** The rendered integer width (`offsetWidth`), taken as the style width rounded. */
    function OffsetWidth(): (w: int)
      reads this
      ensures w as real - 0.5 <= width < w as real + 0.5
    {
      Round(width)
    }

    function OffsetHeight(): (h: int)
      reads this
      ensures h as real - 0.5 <= height < h as real + 0.5
    {
      Round(height)
    }

    /** Page load followed by the first `initManualCrop` on a displayed image of the given size. */
    constructor (imageWidth: real, imageHeight: real, t: real)
      requires t > 0.0
      ensures Overlay() == InitialOverlay(imageWidth, imageHeight, t)
      ensures !isDragging && !isResizing && resizeDirection == "" && dragStart == Point(0.0, 0.0)
    {
      var r := InitialOverlay(imageWidth, imageHeight, t);
      left, top, width, height := r.x, r.y, r.width, r.height;
      isDragging, isResizing, resizeDirection := false, false, "";
      dragStart := Point(0.0, 0.0);
    }

    /** A later `initManualCrop`: the overlay is placed again and a fresh closure starts with no
        resize; the page globals `isDragging` and `dragStart` keep their values. */
    method InitManualCrop(imageWidth: real, imageHeight: real, t: real)
      requires t > 0.0
      modifies this
      ensures Overlay() == InitialOverlay(imageWidth, imageHeight, t)
      ensures !isResizing && resizeDirection == ""
      ensures isDragging == old(isDragging) && dragStart == old(dragStart)
    {
      var r := InitialOverlay(imageWidth, imageHeight, t);
      left := r.x;
      top := r.y;
      width := r.width;
      height := r.height;
      isResizing := false;
      resizeDirection := "";
    }

    /** `startDrag`: ignored on a resize handle; otherwise dragging starts and the pointer's offset
        inside the overlay box (whose client position is `overlayOrigin`) is kept. */
    method StartDrag(p: Point, onHandle: bool, overlayOrigin: Point)
      modifies this
      ensures onHandle ==> isDragging == old(isDragging) && dragStart == old(dragStart)
      ensures !onHandle ==> isDragging && dragStart == Point(p.x - overlayOrigin.x, p.y - overlayOrigin.y)
      ensures Overlay() == old(Overlay())
      ensures isResizing == old(isResizing) && resizeDirection == old(resizeDirection)
    {
      if onHandle {
        return;
      }
      isDragging := true;
      dragStart := Point(p.x - overlayOrigin.x, p.y - overlayOrigin.y);
    }

    /** `startResize` on the handle with the given direction (`n`, `se`, ...); the container's
        client position is `container`. */
    method StartResize(p: Point, direction: string, container: Point)
      modifies this
      ensures isResizing && resizeDirection == direction
      ensures dragStart == Point(p.x - container.x, p.y - container.y)
      ensures Overlay() == old(Overlay()) && isDragging == old(isDragging)
    {
      isResizing := true;
      resizeDirection := direction;
      dragStart := Point(p.x - container.x, p.y - container.y);
    }

    /** `handleMove` for a pointer at client position `p`. A drag sets left/top to the clamped
        position and nothing else; a resize writes its proposal only when `Accepts` holds, so the
        overlay either keeps all four values or takes an exact-ratio box inside the image. */
    method HandleMove(p: Point, container: Point, imageWidth: real, imageHeight: real, t: real)
      requires t > 0.0
      modifies this
      ensures isDragging == old(isDragging) && isResizing == old(isResizing)
      ensures resizeDirection == old(resizeDirection) && dragStart == old(dragStart)
      ensures old(isDragging) ==>
        && left == ClampMove(p.x - container.x - dragStart.x, imageWidth - old(OffsetWidth()) as real)
        && top == ClampMove(p.y - container.y - dragStart.y, imageHeight - old(OffsetHeight()) as real)
        && width == old(width) && height == old(height)
      ensures !old(isDragging) && old(isResizing) ==>
        var edges := EdgeAdjust(old(left), old(top), old(OffsetWidth()), old(OffsetHeight()),
                                resizeDirection, Point(p.x - container.x, p.y - container.y));
        var proposal := Propose(edges, t);
        Overlay() == (if Accepts(proposal, imageWidth, imageHeight) then proposal else old(Overlay()))
      ensures !old(isDragging) && !old(isResizing) ==> Overlay() == old(Overlay())
    {
      if isDragging {
        var newLeft := p.x - container.x - dragStart.x;
        var newTop := p.y - container.y - dragStart.y;
        var maxLeft := imageWidth - OffsetWidth() as real;
        var maxTop := imageHeight - OffsetHeight() as real;
        left := Max(0.0, Min(maxLeft, newLeft));
        top := Max(0.0, Min(maxTop, newTop));
      } else if isResizing {
        var currentX := p.x - container.x;
        var currentY := p.y - container.y;
        ghost var proposal := Propose(EdgeAdjust(left, top, OffsetWidth(), OffsetHeight(), resizeDirection,
                                                 Point(currentX, currentY)), t);
        var newLeft, newTop, newWidth, newHeight :=
          ResizeBox(left, top, OffsetWidth(), OffsetHeight(), resizeDirection, currentX, currentY, t);
        ghost var before := Overlay();
        if newLeft >= 0.0 && newTop >= 0.0
          && newLeft + newWidth <= imageWidth && newTop + newHeight <= imageHeight
          && newWidth >= MinSide && newHeight >= MinSide
        {
          left, top, width, height := newLeft, newTop, newWidth, newHeight;
        }
        assert Overlay() == (if Accepts(proposal, imageWidth, imageHeight) then proposal else before);
      }
    }

    /** `endInteraction`: no drag, no resize, no direction; the overlay stays. */
    method EndInteraction()
      modifies this
      ensures !isDragging && !isResizing && resizeDirection == ""
      ensures Overlay() == old(Overlay()) && dragStart == old(dragStart)
    {
      isDragging := false;
      isResizing := false;
      resizeDirection := "";
    }

    /** `executeCrop`: the overlay in source-image pixels, each axis scaled by natural / displayed
        size; left/top go through `parseInt` (truncated), width/height are the integer offset sizes.
        An overlay lying inside the displayed image gives a crop inside the source image. */
    function SourceCrop(naturalW: nat, naturalH: nat, displayW: real, displayH: real): (r: Rect)
      reads this
      requires displayW > 0.0 && displayH > 0.0
      ensures CropScaled(r, left, top, OffsetWidth(), OffsetHeight(), naturalW, naturalH, displayW, displayH)
    {
      ScaledCrop(left, top, OffsetWidth(), OffsetHeight(), naturalW, naturalH, displayW, displayH)
    }
  }

  /** `r` is the overlay at `left`/`top` with integer sizes `offW`/`offH` in source pixels: on each
      axis, the truncated start and the size are scaled by natural / displayed size, and an overlay
      inside the displayed image gives a crop inside the source image. */
  predicate CropScaled(r: Rect, left: real, top: real, offW: int, offH: int,
                       naturalW: nat, naturalH: nat, displayW: real, displayH: real)
  {
    && AxisScaled(r.x, r.width, left, offW, displayW, naturalW)
    && AxisScaled(r.y, r.height, top, offH, displayH, naturalH)
  }

  /** One axis of a crop: `pos` and `size` are the truncated `start` and the `extent` times
      natural / displayed size, and a span inside the display gives one inside the source. */
  predicate AxisScaled(pos: real, size: real, start: real, extent: int, display: real, natural: nat)
  {
    && pos * display == Trunc(start) as real * natural as real
    && size * display == extent as real * natural as real
    && (0.0 <= start && start + extent as real <= display ==>
          0.0 <= pos && pos + size <= natural as real)
  }

  /** The arithmetic of `executeCrop` for an overlay at `left`/`top` with integer sizes
      `offW`/`offH`: left/top truncated, then every value scaled per axis. */
  function ScaledCrop(left: real, top: real, offW: int, offH: int,
                      naturalW: nat, naturalH: nat, displayW: real, displayH: real): (r: Rect)
    requires displayW > 0.0 && displayH > 0.0
    ensures CropScaled(r, left, top, offW, offH, naturalW, naturalH, displayW, displayH)
  {
    var scaleX := naturalW as real / displayW;
    var scaleY := naturalH as real / displayH;
    AxisInside(left, offW, displayW, naturalW);
    AxisInside(top, offH, displayH, naturalH);
    Rect(Trunc(left) as real * scaleX, Trunc(top) as real * scaleY,
         offW as real * scaleX, offH as real * scaleY)
  }

  /** One axis of `executeCrop`: truncating the start and scaling keeps an inside span inside. */
  lemma AxisInside(start: real, extent: int, display: real, natural: nat)
    requires display > 0.0
    ensures var scale := natural as real / display;
      AxisScaled(Trunc(start) as real * scale, extent as real * scale, start, extent, display, natural)
  {
    var scale := natural as real / display;
    var a := Trunc(start) as real;
    assert scale * display == natural as real;
    assert extent as real * scale * display == extent as real * (scale * display);
    assert a * scale * display == a * (scale * display);
    if 0.0 <= start && start + extent as real <= display {
      MulNonNegative(a, scale);
      ScaleMonotone(a + extent as real, display, scale);
      assert a * scale + extent as real * scale == (a + extent as real) * scale;
    }
  }
}
