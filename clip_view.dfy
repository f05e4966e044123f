/** The clip range selector: two draggable thumbs and a cursor over a track
    of known width, with the selected band between the thumbs and the
    linear time <-> pixel mapping reported to the scroll listener. */
module ClipView {
  import opened JavaNumbers

  const DefaultMinMilliSecond: int := 5 * 1000
  const DefaultMaxMilliSecond: int := 120 * 1000

  /** The horizontal extent of an Android `RectF`; top and bottom only matter
      for drawing. */
  datatype Rect = Rect(left: real, right: real)

  datatype ScrollState = ScrollNone | ScrollLeftThumb | ScrollRightThumb | ScrollCursor

  /** What the scroll listener receives: a time in milliseconds and a pixel
      position. */
  datatype ScrollEvent =
    | ThumbScrolled(isLeft: bool, time: int, position: real)
    | CursorScrolled(time: int, position: real)

  datatype MotionAction = ActionDown | ActionMove | ActionUp | ActionCancel | ActionOther

  /** Durations the setters accept. */
  predicate InDurationRange(ms: int) { DefaultMinMilliSecond <= ms <= DefaultMaxMilliSecond }

  // ---------------------------------------------------------------------
  // Time <-> pixel mapping.
  // ---------------------------------------------------------------------

  /** Milliseconds reported for pixel `px`:
      `(int) ((px - origin) * maxMs / maxIntervalPx)`. */
  function PxToTime(px: real, origin: real, maxMs: int, maxIntervalPx: real): int
  {
    CastQuotient((px - origin) * maxMs as real, maxIntervalPx)
  }

  /** Pixel of time `time`: `time * maxIntervalPx / maxMs + origin`. */
  function TimeToPx(time: real, origin: real, maxMs: int, maxIntervalPx: real): real
    requires maxMs != 0
  {
    time * maxIntervalPx / maxMs as real + origin
  }

  lemma MulDivCancel(a: real, b: real, c: real)
    requires b != 0.0 && c != 0.0
    ensures (a * b / c) * c / b == a
  {
    assert a * b / c * c == a * b;
  }

  lemma MulMonotone(a: real, b: real, m: real)
    requires a <= b && m >= 0.0
    ensures a * m <= b * m
  {
  }

  lemma DivMonotone(a: real, b: real, c: real)
    requires a <= b && c > 0.0
    ensures a / c <= b / c
  {
    var q1, q2 := a / c, b / c;
    assert q1 * c == a && q2 * c == b;
    if q1 > q2 {
      MulMonotone(q2, q1, c);
    }
  }

  /** A time placed on the track and read back gives the time again, up to
      the `(int)` cast of the report. */
  lemma TimePxRoundTrip(time: real, origin: real, maxMs: int, maxIntervalPx: real)
    requires maxMs > 0 && maxIntervalPx != 0.0
    ensures PxToTime(TimeToPx(time, origin, maxMs, maxIntervalPx), origin, maxMs, maxIntervalPx) == JavaIntCast(time)
  {
    var m := maxMs as real;
    var px := TimeToPx(time, origin, maxMs, maxIntervalPx);
    assert px - origin == time * maxIntervalPx / m;
    MulDivCancel(time, maxIntervalPx, m);
    PxToTimeQuotient(px, origin, maxMs, maxIntervalPx, time);
  }

  /** With a non-zero gap, `PxToTime` is the cast of the exact quotient `q`. */
  lemma PxToTimeQuotient(px: real, origin: real, maxMs: int, maxIntervalPx: real, q: real)
    requires maxIntervalPx != 0.0 && (px - origin) * maxMs as real / maxIntervalPx == q
    ensures PxToTime(px, origin, maxMs, maxIntervalPx) == JavaIntCast(q)
  {
  }

  /** Pixel -> exact time -> pixel is the identity. */
  lemma PxTimeRoundTrip(px: real, origin: real, maxMs: int, maxIntervalPx: real)
    requires maxMs > 0 && maxIntervalPx != 0.0
    ensures TimeToPx((px - origin) * maxMs as real / maxIntervalPx, origin, maxMs, maxIntervalPx) == px
  {
    MulDivCancel(px - origin, maxMs as real, maxIntervalPx);
  }

  /** A position further right never reports an earlier time. */
  lemma PxToTimeMonotone(p1: real, p2: real, origin: real, maxMs: int, maxIntervalPx: real)
    requires maxMs > 0 && maxIntervalPx > 0.0 && p1 <= p2
    ensures PxToTime(p1, origin, maxMs, maxIntervalPx) <= PxToTime(p2, origin, maxMs, maxIntervalPx)
  {
    var n1, n2 := (p1 - origin) * maxMs as real, (p2 - origin) * maxMs as real;
    assert PxToTime(p1, origin, maxMs, maxIntervalPx) == CastQuotient(n1, maxIntervalPx);
    assert PxToTime(p2, origin, maxMs, maxIntervalPx) == CastQuotient(n2, maxIntervalPx);
    MulMonotone(p1 - origin, p2 - origin, maxMs as real);
    CastQuotientMonotone(n1, n2, maxIntervalPx);
  }

  lemma CastQuotientMonotone(a: real, b: real, c: real)
    requires a <= b && c > 0.0
    ensures CastQuotient(a, c) <= CastQuotient(b, c)
  {
    DivMonotone(a, b, c);
    JavaIntCastMonotone(a / c, b / c);
  }

  /** The start of the track reports 0 ms and a gap of `maxIntervalPx`
      reports `maxMs`. */
  lemma PxToTimeEnds(origin: real, maxMs: int, maxIntervalPx: real)
    requires 0 < maxMs <= IntMax && maxIntervalPx > 0.0
    ensures PxToTime(origin, origin, maxMs, maxIntervalPx) == 0
    ensures PxToTime(origin + maxIntervalPx, origin, maxMs, maxIntervalPx) == maxMs
  {
    assert (origin + maxIntervalPx - origin) * maxMs as real / maxIntervalPx == maxMs as real;
    JavaIntCastOfInt(maxMs);
  }

  /** The minimum gap in pixels: the maximum gap scaled by minMs / maxMs. */
  function MinIntervalPx(maxIntervalPx: real, minMs: int, maxMs: int): (r: real)
    requires maxMs > 0
    ensures r * maxMs as real == maxIntervalPx * minMs as real
    ensures 0 <= minMs <= maxMs && maxIntervalPx >= 0.0 ==> 0.0 <= r <= maxIntervalPx
  {
    var r := maxIntervalPx * minMs as real / maxMs as real;
    assert r * maxMs as real == maxIntervalPx * minMs as real;
    assert 0 <= minMs <= maxMs && maxIntervalPx >= 0.0 ==> maxIntervalPx * minMs as real <= maxIntervalPx * maxMs as real;
    r
  }

  // ---------------------------------------------------------------------
  // Thumb drags and cursor clamping.
  // ---------------------------------------------------------------------

  /** Width of the selected band: from the right edge of the left thumb
      image to the left edge of the right thumb image. */
  function BandWidth(left: Rect, right: Rect, leftW: real, rightW: real): real
  {
    right.right - rightW - left.left - leftW
  }

  /** A thumb's new rectangle and whether the drag was accepted. */
  datatype ThumbMove = ThumbMove(rect: Rect, accepted: bool)

  /** Drag of the left thumb by `dx`. The proposed left edge is
      `max(left + dx, 0)`. It is accepted when the band would stay wider than
      `minPx`; otherwise only the left edge moves, to where the band is
      exactly `minPx` wide, or, when the proposal would reach the right
      thumb, to `right.right - 2 * rightW`. */
  function LeftThumbDrag(left: Rect, right: Rect, dx: real, leftW: real, rightW: real, minPx: real): (m: ThumbMove)
    ensures m.accepted ==> m.rect.left == Max(left.left + dx, 0.0) && m.rect.left >= 0.0
    ensures m.accepted ==> m.rect.right == m.rect.left + rightW
    ensures m.accepted ==> BandWidth(m.rect, right, leftW, rightW) > minPx
    ensures minPx >= 0.0 ==> (m.accepted <==> BandWidth(Rect(Max(left.left + dx, 0.0), 0.0), right, leftW, rightW) > minPx)
    ensures !m.accepted ==> m.rect.right == left.right
    ensures !m.accepted && Max(left.left + dx, 0.0) + leftW < right.right - rightW
            ==> BandWidth(m.rect, right, leftW, rightW) == minPx
    ensures Max(left.left + dx, 0.0) + leftW >= right.right - rightW
            ==> !m.accepted && m.rect.left == right.right - 2.0 * rightW
  {
    var newPadding := Max(left.left + dx, 0.0);
    if newPadding + leftW < right.right - rightW then
      if right.right - rightW - newPadding - leftW > minPx then
        ThumbMove(Rect(newPadding, newPadding + rightW), true)
      else
        ThumbMove(left.(left := right.right - rightW - minPx - leftW), false)
    else
      ThumbMove(left.(left := right.right - 2.0 * rightW), false)
  }

  /** Drag of the right thumb by `dx`, the mirror image: the proposed right
      edge is `min(right + dx, width)`; a rejected drag moves only the right
      edge, to where the band is exactly `minPx` wide or, when the proposal
      would reach the left thumb, to `left.left + 2 * leftW`. */
  function RightThumbDrag(left: Rect, right: Rect, dx: real, width: real, leftW: real, rightW: real, minPx: real): (m: ThumbMove)
    ensures m.accepted ==> m.rect.right == Min(right.right + dx, width) && m.rect.right <= width
    ensures m.accepted ==> m.rect.left == m.rect.right - rightW
    ensures m.accepted ==> BandWidth(left, m.rect, leftW, rightW) > minPx
    ensures minPx >= 0.0 ==> (m.accepted <==> BandWidth(left, Rect(0.0, Min(right.right + dx, width)), leftW, rightW) > minPx)
    ensures !m.accepted ==> m.rect.left == right.left
    ensures !m.accepted && Min(right.right + dx, width) - rightW > left.left + leftW
            ==> BandWidth(left, m.rect, leftW, rightW) == minPx
    ensures Min(right.right + dx, width) - rightW <= left.left + leftW
            ==> !m.accepted && m.rect.right == left.left + 2.0 * leftW
  {
    var newPadding := Min(right.right + dx, width);
    if newPadding - rightW > left.left + leftW then
      if newPadding - rightW - left.left - leftW > minPx then
        ThumbMove(Rect(newPadding - rightW, newPadding), true)
      else
        ThumbMove(right.(right := rightW + left.left + leftW + minPx), false)
    else
      ThumbMove(right.(right := left.left + 2.0 * leftW), false)
  }

  /** With equal thumb images and a non-negative minimum gap, an accepted
      left drag keeps the left thumb's right edge before the right thumb. */
  lemma AcceptedLeftDragKeepsThumbsApart(left: Rect, right: Rect, dx: real, w: real, minPx: real)
    requires minPx >= 0.0 && right.left == right.right - w
    requires LeftThumbDrag(left, right, dx, w, w, minPx).accepted
    ensures LeftThumbDrag(left, right, dx, w, w, minPx).rect.right < right.left
  {
  }

  /** A rejected left drag that overshoots the right thumb collapses the
      band: with 50 px thumbs on a 1000 px track and a 37.5 px minimum gap,
      dragging by +2000 px puts the left edge at 900 and the band to width 0,
      below the minimum gap. */
  lemma LeftOvershootCollapsesBand()
    ensures var m := LeftThumbDrag(Rect(0.0, 50.0), Rect(950.0, 1000.0), 2000.0, 50.0, 50.0, 37.5);
            && m == ThumbMove(Rect(900.0, 50.0), false)
            && BandWidth(m.rect, Rect(950.0, 1000.0), 50.0, 50.0) == 0.0
  {
  }

  /** The two-step cursor clamp: first up to `lo`, then down to `hi`. */
  function ClampCentre(c: real, lo: real, hi: real): (r: real)
    ensures r <= hi
    ensures lo <= hi ==> lo <= r
    ensures lo <= c <= hi ==> r == c
    ensures c > hi ==> r == hi
    ensures c < lo && lo <= hi ==> r == lo
  {
    var c1 := if c < lo then lo else c;
    if c1 > hi then hi else c1
  }

  // ---------------------------------------------------------------------
  // The view's state.
  // ---------------------------------------------------------------------

  class AudioClipView {
    /** Widths of the left and right thumb images and of the cursor, in pixels. */
    const leftW: real
    const rightW: real
    const cursorWidth: real

    /** The view width in pixels; 0 until laid out. */
    var width: int
    var enabled: bool
    var scrollState: ScrollState
    /** The selected band. */
    var band: Rect
    var leftRect: Rect
    var rightRect: Rect
    var cursorRect: Rect
    var lastX: real
    var minIntervalPx: real
    var maxIntervalPx: real
    var minMs: int
    var maxMs: int
    /** Posted and not yet run: the width-dependent setup (after 100 ms) and
        the cursor's return to the start (after 20 ms). */
    var postedInitPx: nat
    var postedSnapBack: nat
    /** Everything sent to the scroll listener, oldest first. */
    ghost var events: seq<ScrollEvent>

    ghost predicate Valid()
      reads this
    {
      && leftW >= 0.0 && rightW >= 0.0 && cursorWidth >= 0.0
      && 0 <= width <= IntMax
      && InDurationRange(minMs) && InDurationRange(maxMs)
      && cursorRect.right == cursorRect.left + cursorWidth
    }

    function CursorCentre(): real
      reads this`cursorRect
    {
      cursorRect.left + cursorWidth / 2.0
    }

    /** The report of `updateCursorCallback`. */
    function CursorEvent(): ScrollEvent
      reads this`cursorRect, this`maxMs, this`maxIntervalPx
    {
      CursorScrolled(PxToTime(CursorCentre(), leftW, maxMs, maxIntervalPx), CursorCentre())
    }

    /** The report of `updateThumbCallback`. */
    function ThumbEvent(isLeft: bool): ScrollEvent
      reads this`leftRect, this`rightRect, this`maxMs, this`maxIntervalPx
    {
      if isLeft then ThumbScrolled(true, PxToTime(leftRect.right, leftW, maxMs, maxIntervalPx), leftRect.right)
      else ThumbScrolled(false, PxToTime(rightRect.left, rightW, maxMs, maxIntervalPx), rightRect.left)
    }

    constructor (leftBitmapWidth: nat, rightBitmapWidth: nat, cursorWidth: nat)
      ensures Valid()
      ensures leftW == leftBitmapWidth as real && rightW == rightBitmapWidth as real
      ensures this.cursorWidth == cursorWidth as real
      ensures width == 0 && enabled && scrollState == ScrollNone && lastX == 0.0
      ensures leftRect == Rect(0.0, leftW) && rightRect == Rect(0.0, 0.0) && band == Rect(leftW, 0.0)
      ensures CursorCentre() == leftRect.right
      ensures minIntervalPx == 200.0 && maxIntervalPx == 200.0
      ensures minMs == DefaultMinMilliSecond && maxMs == DefaultMaxMilliSecond
      ensures postedInitPx == 1 && postedSnapBack == 0 && events == []
    {
      leftW, rightW := leftBitmapWidth as real, rightBitmapWidth as real;
      this.cursorWidth := cursorWidth as real;
      width, enabled, scrollState, lastX := 0, true, ScrollNone, 0.0;
      minIntervalPx, maxIntervalPx := 200.0, 200.0;
      minMs, maxMs := DefaultMinMilliSecond, DefaultMaxMilliSecond;
      leftRect := Rect(0.0, leftBitmapWidth as real);
      rightRect := Rect(0.0, 0.0);
      band := Rect(leftBitmapWidth as real, 0.0);
      cursorRect := Rect(leftBitmapWidth as real - cursorWidth as real / 2.0,
                         leftBitmapWidth as real - cursorWidth as real / 2.0 + cursorWidth as real);
      postedInitPx, postedSnapBack := 1, 0;
      events := [];
    }

    /** Layout: the right thumb sits at the right end of the new width. */
    method OnSizeChanged(w: int)
      requires Valid() && 0 <= w <= IntMax
      modifies this`width, this`rightRect, this`band
      ensures Valid()
      ensures width == w && rightRect == Rect(w as real - rightW, w as real)
      ensures band == Rect(old(band).left, rightRect.left)
    {
      width := w;
      rightRect := Rect(rightRect.left, w as real);
      rightRect := rightRect.(left := rightRect.right - rightW);
      band := band.(right := rightRect.left);
    }

    /** Android's `View.setEnabled`, which the activity never calls: it sets the
        flag `onTouchEvent` tests first. */
    method SetEnabled(e: bool)
      requires Valid()
      modifies this`enabled
      ensures Valid()
      ensures enabled == e
    {
      enabled := e;
    }

    /** Stores the minimum duration if it lies in [5000, 120000] ms (an
        out-of-range value is ignored, not clamped) and posts `InitPx`. */
    method SetMinInterval(minMilliSec: int)
      requires Valid()
      modifies this`minMs, this`postedInitPx
      ensures Valid()
      ensures minMs == if InDurationRange(minMilliSec) then minMilliSec else old(minMs)
      ensures postedInitPx == old(postedInitPx) + 1
    {
      if minMilliSec >= DefaultMinMilliSecond && minMilliSec <= DefaultMaxMilliSecond {
        minMs := minMilliSec;
      }
      postedInitPx := postedInitPx + 1;
    }

    /** Stores the maximum duration if it lies in [5000, 120000] ms and posts
        `InitPx`. */
    method SetMaxInterval(maxMilliSec: int)
      requires Valid()
      modifies this`maxMs, this`postedInitPx
      ensures Valid()
      ensures maxMs == if InDurationRange(maxMilliSec) then maxMilliSec else old(maxMs)
      ensures postedInitPx == old(postedInitPx) + 1
    {
      if maxMilliSec >= DefaultMinMilliSecond && maxMilliSec <= DefaultMaxMilliSecond {
        maxMs := maxMilliSec;
      }
      postedInitPx := postedInitPx + 1;
    }

    /** The posted width-dependent setup: once the view has a width, the
        maximum gap is the track minus both thumbs and the minimum gap its
        minMs / maxMs share; with no width yet nothing changes. */
    method InitPx()
      requires Valid() && postedInitPx > 0
      modifies this`maxIntervalPx, this`minIntervalPx, this`postedInitPx
      ensures Valid()
      ensures postedInitPx == old(postedInitPx) - 1
      ensures width > 0 ==> maxIntervalPx == width as real - leftW - rightW
                            && minIntervalPx == MinIntervalPx(maxIntervalPx, minMs, maxMs)
      ensures width > 0 && minMs <= maxMs && maxIntervalPx >= 0.0 ==> 0.0 <= minIntervalPx <= maxIntervalPx
      ensures width == 0 ==> maxIntervalPx == old(maxIntervalPx) && minIntervalPx == old(minIntervalPx)
    {
      if width > 0 {
        maxIntervalPx := width as real - leftW - rightW;
        minIntervalPx := maxIntervalPx * minMs as real / maxMs as real;
      }
      postedInitPx := postedInitPx - 1;
    }

    /** Puts the cursor centre on the left thumb's right edge, once laid out. */
    method MoveCursorToStart()
      requires Valid()
      modifies this`cursorRect
      ensures Valid()
      ensures width == 0 ==> cursorRect == old(cursorRect)
      ensures width != 0 ==> CursorCentre() == leftRect.right
    {
      if width == 0 {
        return;
      }
      cursorRect := cursorRect.(left := leftRect.right - cursorWidth / 2.0);
      cursorRect := cursorRect.(right := cursorRect.left + cursorWidth);
    }

    method UpdateCursorCallback()
      modifies this`events
      ensures events == old(events) + [CursorEvent()]
    {
      events := events + [CursorEvent()];
    }

    method UpdateThumbCallback(isLeft: bool)
      modifies this`events
      ensures events == old(events) + [ThumbEvent(isLeft)]
    {
      events := events + [ThumbEvent(isLeft)];
    }

    /** Places the cursor at time `indexTime`, capped at the right thumb; a
        cursor that reaches the right thumb posts its return to the start
        (`snapBack`). Does nothing before layout. */
    method UpdateCursor(indexTime: real) returns (snapBack: bool)
      requires Valid()
      modifies this`cursorRect, this`events, this`postedSnapBack
      ensures Valid()
      ensures width == 0 ==> !snapBack && cursorRect == old(cursorRect) && events == old(events)
                             && postedSnapBack == old(postedSnapBack)
      ensures width != 0 ==>
                var index := TimeToPx(indexTime, leftW, maxMs, maxIntervalPx);
                && CursorCentre() == (if index > rightRect.left then rightRect.left else index)
                && events == old(events) + [CursorEvent()]
                && snapBack == (CursorCentre() == rightRect.left)
                && postedSnapBack == old(postedSnapBack) + (if snapBack then 1 else 0)
      ensures width != 0 && maxIntervalPx != 0.0 && TimeToPx(indexTime, leftW, maxMs, maxIntervalPx) <= rightRect.left
              ==> CursorEvent().time == JavaIntCast(indexTime)
    {
      snapBack := false;
      if width == 0 {
        return;
      }
      var index := TimeToPx(indexTime, leftW, maxMs, maxIntervalPx);
      cursorRect := cursorRect.(left := index - cursorWidth / 2.0);
      cursorRect := cursorRect.(right := cursorRect.left + cursorWidth);
      if index > rightRect.left {
        index := rightRect.left;
        cursorRect := cursorRect.(right := index + cursorWidth / 2.0);
        cursorRect := cursorRect.(left := index - cursorWidth / 2.0);
      }
      UpdateCursorCallback();
      if index == rightRect.left {
        snapBack := true;
        postedSnapBack := postedSnapBack + 1;
      }
      if maxIntervalPx != 0.0 {
        TimePxRoundTrip(indexTime, leftW, maxMs, maxIntervalPx);
      }
    }

    /** The posted return of the cursor to the start, reported to the listener. */
    method SnapBack()
      requires Valid() && postedSnapBack > 0
      modifies this`cursorRect, this`events, this`postedSnapBack
      ensures Valid()
      ensures width == 0 ==> cursorRect == old(cursorRect)
      ensures width != 0 ==> CursorCentre() == leftRect.right
      ensures events == old(events) + [CursorEvent()]
      ensures postedSnapBack == old(postedSnapBack) - 1
    {
      MoveCursorToStart();
      UpdateCursorCallback();
      postedSnapBack := postedSnapBack - 1;
    }

    /** Geometry and reports are as they were. */
    twostate predicate GeometryUnchanged()
      reads this
    {
      && leftRect == old(leftRect) && rightRect == old(rightRect)
      && cursorRect == old(cursorRect) && band == old(band) && events == old(events)
    }

    /** Outcome of a pointer-down at `downX`: three strict open intervals are
        tested in order (left thumb, right thumb, the band between them);
        `lastX` is set in every case. */
    twostate predicate DownHandled(downX: real, consumed: bool)
      reads this
    {
      var inLeft := old(leftRect).left < downX < old(leftRect).left + leftW;
      var inRight := old(rightRect).right - rightW < downX < old(rightRect).right;
      var inBand := old(leftRect).left + rightW < downX < old(rightRect).right - rightW;
      && lastX == downX
      && scrollState == (if inLeft then ScrollLeftThumb
                         else if inRight then ScrollRightThumb
                         else if inBand then ScrollCursor
                         else ScrollNone)
      && consumed == (scrollState != ScrollNone)
      && GeometryUnchanged()
    }

    /** The left thumb's drag for a pointer now at `moveX`. */
    function LeftMove(moveX: real): ThumbMove
      reads this`leftRect, this`rightRect, this`lastX, this`minIntervalPx
    {
      LeftThumbDrag(leftRect, rightRect, moveX - lastX, leftW, rightW, minIntervalPx)
    }

    /** The right thumb's drag for a pointer now at `moveX`. */
    function RightMove(moveX: real): ThumbMove
      reads this`leftRect, this`rightRect, this`lastX, this`minIntervalPx, this`width
    {
      RightThumbDrag(leftRect, rightRect, moveX - lastX, width as real, leftW, rightW, minIntervalPx)
    }

    /** Where a move to `moveX` puts the cursor centre before it is clamped
        between the thumbs: under the pointer when the cursor is dragged, on
        the left thumb's (new) right edge after an accepted thumb drag of a
        laid-out view, and where it was otherwise. */
    function DraggedCentre(moveX: real): real
      reads this
    {
      match scrollState
      case ScrollCursor => moveX
      case ScrollLeftThumb =>
        if LeftMove(moveX).accepted && width != 0 then LeftMove(moveX).rect.right else CursorCentre()
      case ScrollRightThumb =>
        if RightMove(moveX).accepted && width != 0 then leftRect.right else CursorCentre()
      case ScrollNone => CursorCentre()
    }

    /** The thumb reports of a move: one for an accepted thumb drag. */
    twostate function ThumbReports(moveX: real): seq<ScrollEvent>
      reads this
    {
      if old(scrollState) == ScrollLeftThumb && old(LeftMove(moveX)).accepted then [ThumbEvent(true)]
      else if old(scrollState) == ScrollRightThumb && old(RightMove(moveX)).accepted then [ThumbEvent(false)]
      else []
    }

    /** Outcome of a pointer-move to `moveX`. With no drag in progress
        nothing happens and the move is not consumed. Otherwise the dragged
        part moves (a thumb by the pointer's travel since `lastX`; an
        accepted thumb drag puts the cursor on the left thumb and reports the
        thumb), the band spans the thumbs' images, the cursor centre is
        clamped between the thumbs and reported, and `lastX` becomes `moveX`. */
    twostate predicate MoveHandled(moveX: real, consumed: bool)
      reads this
    {
      && scrollState == old(scrollState)
      && consumed == (old(scrollState) != ScrollNone)
      && (!consumed ==> lastX == old(lastX) && GeometryUnchanged())
      && (consumed ==>
            && lastX == moveX
            && leftRect == (if old(scrollState) == ScrollLeftThumb then old(LeftMove(moveX)).rect else old(leftRect))
            && rightRect == (if old(scrollState) == ScrollRightThumb then old(RightMove(moveX)).rect else old(rightRect))
            && band == Rect(leftRect.left + leftW, rightRect.right - rightW)
            && CursorCentre() == ClampCentre(old(DraggedCentre(moveX)), leftRect.right, rightRect.left)
            && events == old(events) + ThumbReports(moveX) + [CursorEvent()])
    }

    method OnDown(downX: real) returns (consumed: bool)
      requires Valid()
      modifies this`lastX, this`scrollState
      ensures Valid()
      ensures DownHandled(downX, consumed)
    {
      lastX := downX;
      if downX > leftRect.left && downX < leftRect.left + leftW {
        scrollState := ScrollLeftThumb;
        lastX := downX;
        consumed := true;
      } else if downX > rightRect.right - rightW && downX < rightRect.right {
        scrollState := ScrollRightThumb;
        lastX := downX;
        consumed := true;
      } else if downX > leftRect.left + rightW && downX < rightRect.right - rightW {
        scrollState := ScrollCursor;
        lastX := downX;
        consumed := true;
      } else {
        scrollState := ScrollNone;
        consumed := false;
      }
    }

    /** A left-thumb drag by `dx`; an accepted one puts the cursor on the
        left thumb and reports the thumb. */
    method DragLeftThumb(dx: real)
      requires Valid()
      modifies this`leftRect, this`cursorRect, this`events
      ensures Valid()
      ensures var m := LeftThumbDrag(old(leftRect), rightRect, dx, leftW, rightW, minIntervalPx);
              && leftRect == m.rect
              && (m.accepted && width != 0 ==> CursorCentre() == leftRect.right)
              && (!m.accepted || width == 0 ==> cursorRect == old(cursorRect))
              && events == old(events) + (if m.accepted then [ThumbEvent(true)] else [])
    {
      var m := LeftThumbDrag(leftRect, rightRect, dx, leftW, rightW, minIntervalPx);
      leftRect := m.rect;
      if m.accepted {
        MoveCursorToStart();
        UpdateThumbCallback(true);
      }
    }

    /** A right-thumb drag by `dx`, the mirror image of `DragLeftThumb`. */
    method DragRightThumb(dx: real)
      requires Valid()
      modifies this`rightRect, this`cursorRect, this`events
      ensures Valid()
      ensures var m := RightThumbDrag(leftRect, old(rightRect), dx, width as real, leftW, rightW, minIntervalPx);
              && rightRect == m.rect
              && (m.accepted && width != 0 ==> CursorCentre() == leftRect.right)
              && (!m.accepted || width == 0 ==> cursorRect == old(cursorRect))
              && events == old(events) + (if m.accepted then [ThumbEvent(false)] else [])
    {
      var m := RightThumbDrag(leftRect, rightRect, dx, width as real, leftW, rightW, minIntervalPx);
      rightRect := m.rect;
      if m.accepted {
        MoveCursorToStart();
        UpdateThumbCallback(false);
      }
    }

    /** Keeps the cursor centre between the thumbs: first no further left
        than the left thumb's right edge, then no further right than the
        right thumb's left edge. */
    method ClampCursor()
      requires Valid()
      modifies this`cursorRect
      ensures Valid()
      ensures CursorCentre() == ClampCentre(old(CursorCentre()), leftRect.right, rightRect.left)
    {
      if cursorRect.left + cursorWidth / 2.0 < leftRect.right {
        cursorRect := cursorRect.(left := leftRect.right - cursorWidth / 2.0);
        cursorRect := cursorRect.(right := cursorRect.left + cursorWidth);
      }
      if cursorRect.right - cursorWidth / 2.0 > rightRect.left {
        cursorRect := cursorRect.(right := rightRect.left + cursorWidth / 2.0);
        cursorRect := cursorRect.(left := cursorRect.right - cursorWidth);
      }
    }

    /** The first half of a move: the part being dragged moves. */
    method MoveDraggedPart(moveX: real) returns (consumed: bool)
      requires Valid()
      modifies this`leftRect, this`rightRect, this`cursorRect, this`events
      ensures Valid()
      ensures consumed == (scrollState != ScrollNone)
      ensures leftRect == if scrollState == ScrollLeftThumb then old(LeftMove(moveX)).rect else old(leftRect)
      ensures rightRect == if scrollState == ScrollRightThumb then old(RightMove(moveX)).rect else old(rightRect)
      ensures consumed ==> CursorCentre() == old(DraggedCentre(moveX))
      ensures !consumed ==> cursorRect == old(cursorRect)
      ensures events == old(events) + ThumbReports(moveX)
    {
      var dx := moveX - lastX;
      match scrollState {
        case ScrollLeftThumb =>
          DragLeftThumb(dx);
          consumed := true;
        case ScrollRightThumb =>
          DragRightThumb(dx);
          consumed := true;
        case ScrollCursor =>
          cursorRect := cursorRect.(left := moveX - cursorWidth / 2.0);
          cursorRect := cursorRect.(right := moveX + cursorWidth / 2.0);
          consumed := true;
        case ScrollNone =>
          consumed := false;
      }
    }

    /** The second half of a move: the pointer position is kept, the band
        follows the thumbs and the cursor is clamped and reported. */
    method FinishMove(moveX: real)
      requires Valid()
      modifies this`lastX, this`band, this`cursorRect, this`events
      ensures Valid()
      ensures lastX == moveX
      ensures band == Rect(leftRect.left + leftW, rightRect.right - rightW)
      ensures CursorCentre() == ClampCentre(old(CursorCentre()), leftRect.right, rightRect.left)
      ensures events == old(events) + [CursorEvent()]
    {
      lastX := moveX;
      band := band.(left := leftRect.left + leftW);
      band := band.(right := rightRect.right - rightW);
      ClampCursor();
      UpdateCursorCallback();
    }

    method OnMove(moveX: real) returns (consumed: bool)
      requires Valid()
      modifies this`leftRect, this`rightRect, this`cursorRect, this`band, this`lastX, this`events
      ensures Valid()
      ensures MoveHandled(moveX, consumed)
      ensures consumed ==> CursorCentre() <= rightRect.left
      ensures consumed && leftRect.right <= rightRect.left ==> leftRect.right <= CursorCentre() <= rightRect.left
    {
      consumed := MoveDraggedPart(moveX);
      if consumed {
        FinishMove(moveX);
      }
    }

    /** A touch event. A disabled view consumes nothing and changes nothing;
        up and cancel always end the gesture and are consumed; other actions
        are ignored. */
    method OnTouchEvent(action: MotionAction, x: real) returns (consumed: bool)
      requires Valid()
      modifies this`lastX, this`scrollState, this`leftRect, this`rightRect, this`cursorRect, this`band, this`events
      ensures Valid()
      ensures !enabled ==> !consumed && lastX == old(lastX) && scrollState == old(scrollState) && GeometryUnchanged()
      ensures enabled && action == ActionDown ==> DownHandled(x, consumed)
      ensures enabled && action == ActionMove ==> MoveHandled(x, consumed)
      ensures enabled && (action == ActionUp || action == ActionCancel)
              ==> consumed && scrollState == ScrollNone && lastX == old(lastX) && GeometryUnchanged()
      ensures enabled && action == ActionOther
              ==> !consumed && lastX == old(lastX) && scrollState == old(scrollState) && GeometryUnchanged()
    {
      consumed := false;
      if !enabled {
        return false;
      }
      match action {
        case ActionDown =>
          consumed := OnDown(x);
        case ActionMove =>
          consumed := OnMove(x);
        case ActionUp =>
          consumed := true;
          scrollState := ScrollNone;
        case ActionCancel =>
          consumed := true;
          scrollState := ScrollNone;
        case ActionOther =>
      }
    }
  }
}
