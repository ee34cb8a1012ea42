/**
 Where the remote picture sits in the window, and what a pointer on it means: the layout
 functions of the view window over the real numbers, in CSS and device pixels.
 */
module ViewGeometry {
  import opened Arithmetic
  import opened Options

  datatype Mode = Fit | Actual | Scaled
  datatype Layout = Layout(mode: Mode, scale: real, offsetX: real, offsetY: real)
  datatype Size = Size(width: real, height: real)
  datatype Box = Box(left: real, top: real, width: real, height: real)
  datatype Point = Point(x: int, y: int)

  const MIN_SCALE: real := 0.25
  const MAX_SCALE: real := 4.0
  const POINTER_RANGE: int := 65535

  function Clamp(v: real, low: real, high: real): real { Max(low, Min(high, v)) }

  function EffectiveScale(layout: Layout, frame: Size, viewport: Size, ratio: real): real {
    if frame.width <= 0.0 || frame.height <= 0.0 then 1.0
    else match layout.mode
      case Actual => 1.0
      case Scaled => Clamp(layout.scale, MIN_SCALE, MAX_SCALE)
      case Fit =>
        var scale := Min(viewport.width * ratio / frame.width, viewport.height * ratio / frame.height);
        if scale > 0.0 then scale else 1.0
  }

  function DisplaySize(layout: Layout, frame: Size, viewport: Size, ratio: real): Size
    requires ratio != 0.0
  {
    Shown(frame, EffectiveScale(layout, frame, viewport, ratio), ratio)
  }

  /** A frame at `scale` device pixels per frame pixel, in CSS pixels. */
  function Shown(frame: Size, scale: real, ratio: real): Size
    requires ratio != 0.0
  {
    Size(frame.width * scale / ratio, frame.height * scale / ratio)
  }

  function PictureBox(layout: Layout, frame: Size, viewport: Box, ratio: real): Box
    requires ratio != 0.0
  {
    var size := DisplaySize(layout, frame, Size(viewport.width, viewport.height), ratio);
    Box(viewport.left + (viewport.width - size.width) / 2.0 + layout.offsetX,
        viewport.top + (viewport.height - size.height) / 2.0 + layout.offsetY,
        size.width, size.height)
  }

  function ClampPan(layout: Layout, frame: Size, viewport: Size, ratio: real): Layout
    requires ratio != 0.0
  {
    var size := DisplaySize(layout, frame, viewport, ratio);
    var limitX := Max(0.0, (size.width - viewport.width) / 2.0);
    var limitY := Max(0.0, (size.height - viewport.height) / 2.0);
    layout.(offsetX := Clamp(layout.offsetX, -limitX, limitX),
            offsetY := Clamp(layout.offsetY, -limitY, limitY))
  }

  /** `Math.round`: to the nearest integer, halves upwards. */
  function Round(v: real): int { (v + 0.5).Floor }

  function ClampCoordinate(v: real): int {
    var r := Round(v);
    var low := if r > POINTER_RANGE then POINTER_RANGE else r;
    if low < 0 then 0 else low
  }

  function RemotePointer(clientX: real, clientY: real, picture: Box): Option<Point> {
    if picture.width <= 0.0 || picture.height <= 0.0 then None
    else
      var x := (clientX - picture.left) / picture.width * (POINTER_RANGE as real);
      var y := (clientY - picture.top) / picture.height * (POINTER_RANGE as real);
      if x < 0.0 || y < 0.0 || x > POINTER_RANGE as real || y > POINTER_RANGE as real then None
      else Some(Point(ClampCoordinate(x), ClampCoordinate(y)))
  }

  // ----- Arithmetic --------------------------------------------------------

  /** What one axis measures once scaled: at most `room` just when the scale is at most its share. */
  lemma AxisFits(frame: real, scale: real, ratio: real, room: real)
    requires frame > 0.0 && ratio > 0.0
    ensures frame * scale / ratio <= room <==> scale <= room * ratio / frame
    ensures scale == room * ratio / frame ==> frame * scale / ratio == room
  {
    var shown, share := frame * scale / ratio, room * ratio / frame;
    QuotientTimes(frame * scale, ratio);
    QuotientTimes(room * ratio, frame);
    assert shown * ratio == scale * frame && room * ratio == share * frame;
    OrderByFactor(shown, room, ratio);
    OrderByFactor(scale, share, frame);
    if scale == share {
      CancelFactor(shown, room, ratio);
    }
  }

  lemma PositiveShare(room: real, ratio: real, frame: real)
    requires room > 0.0 && ratio > 0.0 && frame > 0.0
    ensures room * ratio / frame > 0.0
  {
    var share := room * ratio / frame;
    QuotientTimes(room * ratio, frame);
    assert room * ratio > 0.0;
    OrderByFactor(share, 0.0, frame);
  }

  // ----- Fit, pan and pointer ----------------------------------------------

  predicate Positive(s: Size) { s.width > 0.0 && s.height > 0.0 }

  predicate SameAspect(a: Size, b: Size) { a.width * b.height == a.height * b.width }

  predicate FillsOneAxis(a: Size, room: Size) {
    a.width <= room.width && a.height <= room.height && (a.width == room.width || a.height == room.height)
  }

  /** A fitted picture keeps its aspect ratio, stays inside the window and touches it on one axis. */
  lemma FitFillsOneAxis(layout: Layout, frame: Size, viewport: Size, ratio: real)
    requires layout.mode == Fit && Positive(frame) && Positive(viewport) && ratio > 0.0
    ensures var shown := DisplaySize(layout, frame, viewport, ratio);
            SameAspect(shown, frame) && FillsOneAxis(shown, viewport)
  {
    FitScale(layout, frame, viewport, ratio);
    hide EffectiveScale, SameAspect, FillsOneAxis, Shown;
    var scale := EffectiveScale(layout, frame, viewport, ratio);
    AspectKept(frame, scale, ratio);
    BothAxesFit(frame, viewport, scale, ratio);
  }

  lemma BothAxesFit(frame: Size, viewport: Size, scale: real, ratio: real)
    requires Positive(frame) && ratio > 0.0
    requires scale == Min(viewport.width * ratio / frame.width, viewport.height * ratio / frame.height)
    ensures FillsOneAxis(Shown(frame, scale, ratio), viewport)
  {
    AxisFits(frame.width, scale, ratio, viewport.width);
    AxisFits(frame.height, scale, ratio, viewport.height);
  }

  lemma FitScale(layout: Layout, frame: Size, viewport: Size, ratio: real)
    requires layout.mode == Fit && Positive(frame) && Positive(viewport) && ratio > 0.0
    ensures EffectiveScale(layout, frame, viewport, ratio)
         == Min(viewport.width * ratio / frame.width, viewport.height * ratio / frame.height)
  {
    PositiveShare(viewport.width, ratio, frame.width);
    PositiveShare(viewport.height, ratio, frame.height);
  }

  lemma AspectKept(frame: Size, scale: real, ratio: real)
    requires ratio > 0.0
    ensures SameAspect(Shown(frame, scale, ratio), frame)
  {
    var w, h := frame.width * scale / ratio, frame.height * scale / ratio;
    QuotientTimes(frame.width * scale, ratio);
    QuotientTimes(frame.height * scale, ratio);
    assert (w * frame.height) * ratio == (w * ratio) * frame.height;
    assert (h * frame.width) * ratio == (h * ratio) * frame.width;
    assert (frame.width * scale) * frame.height == (frame.height * scale) * frame.width;
    CancelFactor(w * frame.height, h * frame.width, ratio);
  }

  /** The zoom in effect: the scale asked for, kept within its limits. */
  predicate KeptScale(asked: real, kept: real) {
    && 0.25 <= kept <= 4.0
    && (0.25 <= asked <= 4.0 ==> kept == asked) && (asked < 0.25 ==> kept == 0.25) && (asked > 4.0 ==> kept == 4.0)
  }

  lemma ShownCovers(frame: Size, scale: real, ratio: real)
    requires ratio > 0.0
    ensures var shown := Shown(frame, scale, ratio);
            shown.width * ratio == frame.width * scale && shown.height * ratio == frame.height * scale
  {
    QuotientTimes(frame.width * scale, ratio);
    QuotientTimes(frame.height * scale, ratio);
  }

  /** At actual size the picture covers as many device pixels as the frame has; zoomed, that times the zoom. */
  lemma ScaledSizes(layout: Layout, frame: Size, viewport: Size, ratio: real) returns (zoom: real)
    requires Positive(frame) && ratio > 0.0 && layout.mode != Fit
    ensures layout.mode == Actual ==> zoom == 1.0
    ensures layout.mode == Scaled ==> KeptScale(layout.scale, zoom)
    ensures var shown := DisplaySize(layout, frame, viewport, ratio);
            shown.width * ratio == frame.width * zoom && shown.height * ratio == frame.height * zoom
  {
    zoom := EffectiveScale(layout, frame, viewport, ratio);
    ShownCovers(frame, zoom, ratio);
  }

  /** With no pan the picture is in the middle of the window, and panning moves it by the pan. */
  lemma PanMovesPicture(layout: Layout, frame: Size, viewport: Box, ratio: real)
    requires ratio != 0.0
    ensures var middle := PictureBox(layout.(offsetX := 0.0, offsetY := 0.0), frame, viewport, ratio);
            var box := PictureBox(layout, frame, viewport, ratio);
            && middle.left - viewport.left == (viewport.left + viewport.width) - (middle.left + middle.width)
            && middle.top - viewport.top == (viewport.top + viewport.height) - (middle.top + middle.height)
            && box.left == middle.left + layout.offsetX && box.top == middle.top + layout.offsetY
            && box.width == middle.width && box.height == middle.height
            && Size(box.width, box.height)
               == DisplaySize(layout, frame, Size(viewport.width, viewport.height), ratio)
  {
    assert DisplaySize(layout.(offsetX := 0.0, offsetY := 0.0), frame, Size(viewport.width, viewport.height), ratio)
        == DisplaySize(layout, frame, Size(viewport.width, viewport.height), ratio);
    hide DisplaySize;
  }

  /** On one axis: exactly in the middle of the window, or over all of it. */
  predicate CentredOrCovering(left: real, width: real, start: real, room: real) {
    left - start == (start + room) - (left + width) || (left <= start && start + room <= left + width)
  }

  /** After the pan is clamped the picture is never dragged off the window, on either axis. */
  lemma ClampedPanKeepsPicture(layout: Layout, frame: Size, viewport: Box, ratio: real)
    requires ratio != 0.0
    ensures var size := Size(viewport.width, viewport.height);
            var box := PictureBox(ClampPan(layout, frame, size, ratio), frame, viewport, ratio);
            && CentredOrCovering(box.left, box.width, viewport.left, viewport.width)
            && CentredOrCovering(box.top, box.height, viewport.top, viewport.height)
  {
    PanKeepsSize(layout, frame, Size(viewport.width, viewport.height), ratio);
    hide DisplaySize;
  }

  /** And the clamp moves the pan no further than any other pan would that keeps the picture so. */
  lemma ClampPanMovesLeast(layout: Layout, other: Layout, frame: Size, viewport: Box, ratio: real)
    requires ratio != 0.0 && other.mode == layout.mode && other.scale == layout.scale
    ensures var clamped := ClampPan(layout, frame, Size(viewport.width, viewport.height), ratio);
            var box := PictureBox(other, frame, viewport, ratio);
            && clamped.mode == layout.mode && clamped.scale == layout.scale
            && (CentredOrCovering(box.left, box.width, viewport.left, viewport.width) ==>
                  Abs(clamped.offsetX - layout.offsetX) <= Abs(other.offsetX - layout.offsetX))
            && (CentredOrCovering(box.top, box.height, viewport.top, viewport.height) ==>
                  Abs(clamped.offsetY - layout.offsetY) <= Abs(other.offsetY - layout.offsetY))
  {
    var room := Size(viewport.width, viewport.height);
    assert DisplaySize(other, frame, room, ratio) == DisplaySize(layout, frame, room, ratio);
    hide DisplaySize;
  }

  lemma PanKeepsSize(layout: Layout, frame: Size, viewport: Size, ratio: real)
    requires ratio != 0.0
    ensures DisplaySize(ClampPan(layout, frame, viewport, ratio), frame, viewport, ratio)
         == DisplaySize(layout, frame, viewport, ratio)
  {
  }

  lemma ClampPanIdempotent(layout: Layout, frame: Size, viewport: Size, ratio: real)
    requires ratio != 0.0
    ensures var once := ClampPan(layout, frame, viewport, ratio);
            ClampPan(once, frame, viewport, ratio) == once
  {
    PanKeepsSize(layout, frame, viewport, ratio);
    hide DisplaySize;
  }

  predicate OnPicture(clientX: real, clientY: real, picture: Box) {
    && picture.width > 0.0 && picture.height > 0.0
    && picture.left <= clientX <= picture.left + picture.width
    && picture.top <= clientY <= picture.top + picture.height
  }

  /** The protocol coordinate of an offset into an axis, before rounding. */
  function Normalized(offset: real, extent: real): real
    requires extent != 0.0
  {
    offset / extent * (POINTER_RANGE as real)
  }

  lemma NormalizedInRange(offset: real, extent: real)
    requires extent > 0.0
    ensures 0.0 <= Normalized(offset, extent) <==> 0.0 <= offset
    ensures Normalized(offset, extent) <= POINTER_RANGE as real <==> offset <= extent
  {
    var q := offset / extent;
    QuotientTimes(offset, extent);
    OrderByFactor(0.0, q, extent);
    OrderByFactor(q, 1.0, extent);
    assert 0.0 <= q <==> 0.0 <= offset;
    assert q <= 1.0 <==> offset <= extent;
    assert Normalized(offset, extent) == q * 65535.0;
  }

  /** There is a remote position under exactly the points of the picture. */
  lemma DefinedOnPicture(clientX: real, clientY: real, picture: Box)
    ensures RemotePointer(clientX, clientY, picture).Some? <==> OnPicture(clientX, clientY, picture)
  {
    if picture.width > 0.0 && picture.height > 0.0 {
      NormalizedInRange(clientX - picture.left, picture.width);
      NormalizedInRange(clientY - picture.top, picture.height);
    }
  }

  /** Going right or down on the picture never goes left or up at the host. */
  lemma PointerMonotone(x: real, y: real, x': real, y': real, picture: Box)
    requires OnPicture(x, y, picture) && OnPicture(x', y', picture) && x <= x' && y <= y'
    ensures RemotePointer(x, y, picture).Some? && RemotePointer(x', y', picture).Some?
    ensures RemotePointer(x, y, picture).value.x <= RemotePointer(x', y', picture).value.x
    ensures RemotePointer(x, y, picture).value.y <= RemotePointer(x', y', picture).value.y
  {
    DefinedOnPicture(x, y, picture);
    DefinedOnPicture(x', y', picture);
    NormalizedMonotone(x - picture.left, x' - picture.left, picture.width);
    NormalizedMonotone(y - picture.top, y' - picture.top, picture.height);
  }

  lemma NormalizedMonotone(a: real, b: real, extent: real)
    requires extent > 0.0 && a <= b
    ensures Normalized(a, extent) <= Normalized(b, extent)
  {
    QuotientTimes(a, extent);
    QuotientTimes(b, extent);
    OrderByFactor(a / extent, b / extent, extent);
  }

  lemma RoundedIsNear(v: real)
    requires 0.0 <= v <= POINTER_RANGE as real
    ensures -0.5 <= ClampCoordinate(v) as real - v <= 0.5
    ensures 0 <= ClampCoordinate(v) <= POINTER_RANGE
  {
    assert Round(v) as real <= v + 0.5 < Round(v) as real + 1.0;
  }

  /** Where the host puts a coordinate it is sent, back in the window. */
  function Back(coordinate: int, start: real, extent: real): real {
    start + coordinate as real / (POINTER_RANGE as real) * extent
  }

  lemma HalfEitherWay(e: real, extent: real)
    requires extent > 0.0 && -0.5 <= e <= 0.5
    ensures -extent / 2.0 <= e * extent <= extent / 2.0
  {
    assert (e + 0.5) * extent >= 0.0 && (0.5 - e) * extent >= 0.0;
  }

  lemma BackError(client: real, start: real, extent: real, c: int, e: real)
    requires extent > 0.0 && e == c as real - Normalized(client - start, extent)
    ensures (Back(c, start, extent) - client) * (POINTER_RANGE as real) == e * extent
  {
    var offset, range := client - start, POINTER_RANGE as real;
    var q, r := offset / extent, c as real / range;
    QuotientTimes(offset, extent);
    QuotientTimes(c as real, range);
    assert (start + r * extent - client) * range == (r * range) * extent - offset * range;
    assert (c as real - q * range) * extent == c as real * extent - (q * extent) * range;
  }

  lemma BackIsNear(client: real, start: real, extent: real, c: int)
    requires extent > 0.0
    requires -0.5 <= c as real - Normalized(client - start, extent) <= 0.5
    ensures -extent / 2.0 <= (Back(c, start, extent) - client) * (POINTER_RANGE as real) <= extent / 2.0
  {
    hide Back, Normalized;
    var e := c as real - Normalized(client - start, extent);
    BackError(client, start, extent, c, e);
    HalfEitherWay(e, extent);
  }

  /** Mapping the pointer over and back is off by at most half a step of 1/65535 of the picture. */
  lemma PointerRoundTrip(clientX: real, clientY: real, picture: Box)
    requires OnPicture(clientX, clientY, picture)
    ensures RemotePointer(clientX, clientY, picture).Some?
    ensures var p := RemotePointer(clientX, clientY, picture).value;
            && 0 <= p.x <= POINTER_RANGE && 0 <= p.y <= POINTER_RANGE
            && -picture.width / 2.0 <= (Back(p.x, picture.left, picture.width) - clientX) * (POINTER_RANGE as real)
            && (Back(p.x, picture.left, picture.width) - clientX) * (POINTER_RANGE as real) <= picture.width / 2.0
            && -picture.height / 2.0 <= (Back(p.y, picture.top, picture.height) - clientY) * (POINTER_RANGE as real)
            && (Back(p.y, picture.top, picture.height) - clientY) * (POINTER_RANGE as real) <= picture.height / 2.0
  {
    DefinedOnPicture(clientX, clientY, picture);
    NormalizedInRange(clientX - picture.left, picture.width);
    NormalizedInRange(clientY - picture.top, picture.height);
    var x, y := Normalized(clientX - picture.left, picture.width), Normalized(clientY - picture.top, picture.height);
    RoundedIsNear(x);
    RoundedIsNear(y);
    BackIsNear(clientX, picture.left, picture.width, ClampCoordinate(x));
    BackIsNear(clientY, picture.top, picture.height, ClampCoordinate(y));
  }
}
