/**
 * Rectangles and the geometry translation between a Win32 window rectangle
 * and the rectangle of its X "whole" window: shrinking or growing by the
 * non-client frame extents, and the sparse change-set sent to the X server
 * when a rectangle moves.
 */
module Geometry {
  import opened Win32
  import opened Xlib

  /** A Win32 RECT: left and top inclusive, right and bottom exclusive. */
  datatype Rect = Rect(left: int, top: int, right: int, bottom: int) {
    function Width(): int { right - left }
    function Height(): int { bottom - top }
  }

  /** IsRectEmpty: no positive extent on one of the axes. */
  predicate IsEmpty(r: Rect) {
    r.left >= r.right || r.top >= r.bottom
  }

  /** OffsetRect: moves a rectangle without changing its size. */
  function Offset(r: Rect, dx: int, dy: int): (o: Rect)
    ensures o.left == r.left + dx && o.top == r.top + dy
    ensures o.Width() == r.Width() && o.Height() == r.Height()
    ensures IsEmpty(o) <==> IsEmpty(r)
  {
    Rect(r.left + dx, r.top + dy, r.right + dx, r.bottom + dy)
  }

  /**
   * The non-client frame a window's style gives it: how far AdjustWindowRectEx
   * pushes each edge of a client rectangle outwards.
   */
  datatype Extents = Extents(left: nat, top: nat, right: nat, bottom: nat)

  /** What the host's AdjustWindowRectEx answers for a (style, extended style) pair. */
  type FrameMetrics = (Style, Style) -> Extents

  /** AdjustWindowRectEx applied to a rectangle. */
  function Adjust(r: Rect, e: Extents): (a: Rect)
    ensures a.left <= r.left && a.top <= r.top && a.right >= r.right && a.bottom >= r.bottom
  {
    Rect(r.left - e.left, r.top - e.top, r.right + e.right, r.bottom + e.bottom)
  }

  /** The frame used by both conversions: scroll bars never count as frame. */
  function FrameOf(metrics: FrameMetrics, style: Style, exStyle: Style): Extents {
    metrics(style - {WS_HSCROLL, WS_VSCROLL}, exStyle)
  }

  /** Scroll bars never change the frame: adding or removing them leaves it as it was. */
  lemma FrameIgnoresScrollBars(metrics: FrameMetrics, style: Style, exStyle: Style)
    ensures FrameOf(metrics, style + {WS_HSCROLL, WS_VSCROLL}, exStyle) == FrameOf(metrics, style, exStyle)
    ensures FrameOf(metrics, style - {WS_HSCROLL, WS_VSCROLL}, exStyle) == FrameOf(metrics, style, exStyle)
  {
    assert style + {WS_HSCROLL, WS_VSCROLL} - {WS_HSCROLL, WS_VSCROLL} == style - {WS_HSCROLL, WS_VSCROLL};
    assert style - {WS_HSCROLL, WS_VSCROLL} - {WS_HSCROLL, WS_VSCROLL} == style - {WS_HSCROLL, WS_VSCROLL};
  }

  /** The fix-up both conversions end with: at least one unit of extent on each axis. */
  function AtLeastOneUnit(r: Rect): (c: Rect)
    ensures !IsEmpty(c)
    ensures c.left == r.left && c.top == r.top
    ensures c.right == (if r.left >= r.right then r.left + 1 else r.right)
    ensures c.bottom == (if r.top >= r.bottom then r.top + 1 else r.bottom)
  {
    var r1 := if r.top >= r.bottom then r.(bottom := r.top + 1) else r;
    if r1.left >= r1.right then r1.(right := r1.left + 1) else r1
  }

  /** The whole-window rectangle X sees for a window rectangle (window_to_X_rect). */
  function ToXRect(managed: bool, e: Extents, r: Rect): (x: Rect)
    ensures !managed || IsEmpty(r) ==> x == r
    ensures managed && !IsEmpty(r) ==> !IsEmpty(x)
    ensures managed && !IsEmpty(r) ==> x.left == r.left + e.left && x.top == r.top + e.top
    ensures managed && !IsEmpty(r) && r.Width() > e.left + e.right ==> x.right == r.right - e.right
    ensures managed && !IsEmpty(r) && r.Height() > e.top + e.bottom ==> x.bottom == r.bottom - e.bottom
    ensures managed && !IsEmpty(r) && r.Width() <= e.left + e.right ==> x.Width() == 1
    ensures managed && !IsEmpty(r) && r.Height() <= e.top + e.bottom ==> x.Height() == 1
  {
    if !managed || IsEmpty(r) then r
    else
      var rc := Adjust(Rect(0, 0, 0, 0), e);
      AtLeastOneUnit(Rect(r.left - rc.left, r.top - rc.top, r.right - rc.right, r.bottom - rc.bottom))
  }

  /** The window rectangle for an X whole-window rectangle (X_to_window_rect). */
  function FromXRect(managed: bool, e: Extents, r: Rect): (w: Rect)
    ensures !managed || IsEmpty(r) ==> w == r
    ensures managed && !IsEmpty(r) ==> w == Adjust(r, e)
  {
    if !managed || IsEmpty(r) then r
    else AtLeastOneUnit(Adjust(r, e))
  }

  /** Going to X and back is the identity when the X rectangle needed no clamping. */
  lemma ToXThenBack(managed: bool, e: Extents, r: Rect)
    requires managed && !IsEmpty(r) ==> r.Width() > e.left + e.right && r.Height() > e.top + e.bottom
    ensures FromXRect(managed, e, ToXRect(managed, e, r)) == r
  {
    if managed && !IsEmpty(r) {
      var x := ToXRect(managed, e, r);
      assert x == Rect(r.left + e.left, r.top + e.top, r.right - e.right, r.bottom - e.bottom);
    }
  }

  /** Coming from X and going back is always the identity. */
  lemma FromXThenBack(managed: bool, e: Extents, r: Rect)
    ensures ToXRect(managed, e, FromXRect(managed, e, r)) == r
  {
    if managed && !IsEmpty(r) {
      var w := FromXRect(managed, e, r);
      assert w == Adjust(r, e);
      assert w.Width() > e.left + e.right && w.Height() > e.top + e.bottom;
    }
  }

  /**
   * The round trip through X is the identity exactly when the window is not
   * managed, is empty, or is larger than its frame in both directions.
   */
  lemma RoundTripIdentityIff(managed: bool, e: Extents, r: Rect)
    ensures FromXRect(managed, e, ToXRect(managed, e, r)) == r
        <==> !managed || IsEmpty(r) || (r.Width() > e.left + e.right && r.Height() > e.top + e.bottom)
  {
    if !managed || IsEmpty(r) || (r.Width() > e.left + e.right && r.Height() > e.top + e.bottom) {
      ToXThenBack(managed, e, r);
    }
  }

  /**
   * Without the no-clamping condition the round trip is not the identity: a
   * 4 by 4 window with a frame of 4 on every side becomes a 1 by 1 X window,
   * which converts back to a 9 by 9 window.
   */
  lemma ClampedRoundTripDiffers()
    ensures ToXRect(true, Extents(4, 4, 4, 4), Rect(0, 0, 4, 4)) == Rect(4, 4, 5, 5)
    ensures FromXRect(true, Extents(4, 4, 4, 4), Rect(4, 4, 5, 5)) == Rect(0, 0, 9, 9)
  {
  }

  /**
   * X11DRV_window_to_X_rect: shrinks the rectangle in place by the frame of a
   * window that the window manager decorates.
   */
  method WindowToXRect(metrics: FrameMetrics, style: Style, exStyle: Style, rect: Rect)
    returns (r: Rect)
    ensures r == ToXRect(Has(exStyle, WS_EX_MANAGED), FrameOf(metrics, style, exStyle), rect)
  {
    r := rect;
    if !Has(exStyle, WS_EX_MANAGED) { return; }
    if IsEmpty(r) { return; }
    var rc := Adjust(Rect(0, 0, 0, 0), metrics(style - {WS_HSCROLL, WS_VSCROLL}, exStyle));
    r := r.(left := r.left - rc.left);
    r := r.(right := r.right - rc.right);
    r := r.(top := r.top - rc.top);
    r := r.(bottom := r.bottom - rc.bottom);
    if r.top >= r.bottom { r := r.(bottom := r.top + 1); }
    if r.left >= r.right { r := r.(right := r.left + 1); }
  }

  /** X11DRV_X_to_window_rect: grows the rectangle in place by the frame. */
  method XToWindowRect(metrics: FrameMetrics, style: Style, exStyle: Style, rect: Rect)
    returns (r: Rect)
    ensures r == FromXRect(Has(exStyle, WS_EX_MANAGED), FrameOf(metrics, style, exStyle), rect)
  {
    r := rect;
    if !Has(exStyle, WS_EX_MANAGED) { return; }
    if IsEmpty(r) { return; }
    r := Adjust(r, metrics(style - {WS_HSCROLL, WS_VSCROLL}, exStyle));
    if r.top >= r.bottom { r := r.(bottom := r.top + 1); }
    if r.left >= r.right { r := r.(right := r.left + 1); }
  }

  /** A width or height as sent to X: zero is not a valid extent and becomes 1. */
  function NonZero(n: int): (m: int)
    ensures m != 0
    ensures n != 0 ==> m == n
  {
    if n == 0 then 1 else n
  }

  /** Which of x, y, width and height differ between two rectangles. */
  function ChangeMask(before: Rect, after: Rect): (mask: set<ConfigureField>)
    ensures CWWidth in mask <==> before.Width() != after.Width()
    ensures CWHeight in mask <==> before.Height() != after.Height()
    ensures CWX in mask <==> before.left != after.left
    ensures CWY in mask <==> before.top != after.top
    ensures mask <= {CWX, CWY, CWWidth, CWHeight}
    ensures mask == {} <==> before == after
  {
    (if before.Width() != after.Width() then {CWWidth} else {})
    + (if before.Height() != after.Height() then {CWHeight} else {})
    + (if before.left != after.left then {CWX} else {})
    + (if before.top != after.top then {CWY} else {})
  }

  /**
   * The XWindowChanges get_window_changes leaves: each of x, y, width and
   * height that differs between the two rectangles takes the new value (a
   * zero width or height becomes 1), every other field keeps what it held.
   */
  function ChangesFor(changes0: WindowChanges, before: Rect, after: Rect): (changes: WindowChanges)
    ensures changes.width == (if before.Width() != after.Width() then NonZero(after.Width()) else changes0.width)
    ensures changes.height == (if before.Height() != after.Height() then NonZero(after.Height()) else changes0.height)
    ensures changes.x == (if before.left != after.left then after.left else changes0.x)
    ensures changes.y == (if before.top != after.top then after.top else changes0.y)
    ensures changes.sibling == changes0.sibling && changes.stackMode == changes0.stackMode
  {
    changes0.(width := if before.Width() != after.Width() then NonZero(after.Width()) else changes0.width,
              height := if before.Height() != after.Height() then NonZero(after.Height()) else changes0.height,
              x := if before.left != after.left then after.left else changes0.x,
              y := if before.top != after.top then after.top else changes0.y)
  }

  /**
   * get_window_changes: fills the fields of an XWindowChanges that differ
   * between the old and the new rectangle and returns the mask naming them.
   */
  method GetWindowChanges(changes0: WindowChanges, before: Rect, after: Rect)
    returns (changes: WindowChanges, mask: set<ConfigureField>)
    ensures mask == ChangeMask(before, after)
    ensures changes == ChangesFor(changes0, before, after)
  {
    changes, mask := changes0, {};
    if before.right - before.left != after.right - after.left {
      changes := changes.(width := after.right - after.left);
      if changes.width == 0 { changes := changes.(width := 1); }
      mask := mask + {CWWidth};
    }
    if before.bottom - before.top != after.bottom - after.top {
      changes := changes.(height := after.bottom - after.top);
      if changes.height == 0 { changes := changes.(height := 1); }
      mask := mask + {CWHeight};
    }
    if before.left != after.left {
      changes := changes.(x := after.left);
      mask := mask + {CWX};
    }
    if before.top != after.top {
      changes := changes.(y := after.top);
      mask := mask + {CWY};
    }
  }

  /**
   * How the X server applies a configure request to a window occupying `r`:
   * each field named by the mask replaces the current one, the others stay.
   */
  function Configure(r: Rect, mask: set<ConfigureField>, c: WindowChanges): Rect {
    var left := if CWX in mask then c.x else r.left;
    var top := if CWY in mask then c.y else r.top;
    var width := if CWWidth in mask then c.width else r.Width();
    var height := if CWHeight in mask then c.height else r.Height();
    Rect(left, top, left + width, top + height)
  }

  /**
   * The change-set get_window_changes computes moves a window from the old
   * rectangle to the new one, whatever the structure held before, as long
   * as the new rectangle has a width and a height (a zero extent is sent
   * as 1).
   */
  lemma ChangesReachTarget(changes0: WindowChanges, before: Rect, after: Rect)
    requires after.Width() != 0 && after.Height() != 0
    ensures Configure(before, ChangeMask(before, after), ChangesFor(changes0, before, after)) == after
  {
  }
}
