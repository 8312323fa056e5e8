/**
 * Keeping the X windows of a window in step with the host's window record:
 * the attributes after a style change, the position and stacking of the
 * whole window, and the position and map state of the client window.
 */
module Sync {
  import opened Win32
  import opened Xlib
  import opened Geometry
  import opened Policy
  import opened Wrappers
  import opened DriverState
  import opened Hints

  /**
   * sync_window_style: recomputes the attributes of the whole window from
   * the current style, records the managed decision in the extended style,
   * and releases the cursor that the attributes refer to.  `cursor` is
   * what the cursor lookup answers.
   */
  method SyncWindowStyle(d: Display, win: Wnd, data: WinData, cursor: XID)
    requires win.data == data
    modifies win`exStyle, d`effects
    ensures var r := GetWindowAttributes(IsTopLevel(d, win), d.managedMode, win.style, old(win.exStyle),
                                         win.clsStyle, d.colormap, cursor);
            && win.exStyle == r.exStyle
            && d.effects == old(d.effects) + [ChangeWindowAttributes(data.wholeWindow, r.mask, r.attrs)]
                            + (if r.attrs.cursor != 0 then [FreeCursor(r.attrs.cursor)] else [])
  {
    var r := GetWindowAttributes(IsTopLevel(d, win), d.managedMode, win.style, win.exStyle,
                                 win.clsStyle, d.colormap, cursor);
    win.exStyle := r.exStyle;
    d.effects := d.effects + [ChangeWindowAttributes(data.wholeWindow, r.mask, r.attrs)];
    if r.attrs.cursor != 0 {
      d.effects := d.effects + [FreeCursor(r.attrs.cursor)];
    }
  }

  /**
   * A sibling above a window in the host's Z order, as the stacking code
   * sees it: its style and the whole X window the driver gave it.
   */
  datatype Sibling = Sibling(style: Style, wholeWindow: XWindow)

  predicate Visible(s: Sibling) {
    Has(s.style, WS_VISIBLE)
  }

  /** The position of the nearest visible sibling in `above` (nearest first), if any. */
  function FirstVisible(above: seq<Sibling>): (r: Option<nat>)
    ensures r.Some? ==> r.value < |above| && Visible(above[r.value])
    ensures r.Some? ==> forall j :: 0 <= j < r.value ==> !Visible(above[j])
    ensures r.None? <==> forall j :: 0 <= j < |above| ==> !Visible(above[j])
  {
    if |above| == 0 then None
    else if Visible(above[0]) then Some(0)
    else
      match FirstVisible(above[1..])
      case None => None
      case Some(i) => Some(i + 1)
  }

  /**
   * The walk of X11DRV_sync_whole_window_position over the previous
   * siblings: from the nearest one, skip those that are not visible.
   */
  method FindPrevVisible(above: seq<Sibling>) returns (r: Option<nat>)
    ensures r == FirstVisible(above)
  {
    var i := 0;
    while i < |above| && !Visible(above[i])
      invariant 0 <= i <= |above|
      invariant forall j :: 0 <= j < i ==> !Visible(above[j])
    {
      i := i + 1;
    }
    if i < |above| {
      r := Some(i);
    } else {
      r := None;
    }
  }

  /**
   * The stacking part of a whole-window change-set: with `zorder`, the
   * window goes directly below the nearest visible sibling above it, or to
   * the top when there is none; without it, stacking is not touched.
   */
  function Restack(changes: WindowChanges, mask: set<ConfigureField>, zorder: bool, above: seq<Sibling>)
    : (r: (WindowChanges, set<ConfigureField>))
    ensures r.1 - {CWStackMode, CWSibling} == mask - {CWStackMode, CWSibling}
    ensures !zorder ==> r == (changes, mask)
    ensures zorder ==> CWStackMode in r.1
    ensures zorder ==> (CWSibling in r.1 <==> FirstVisible(above).Some? || CWSibling in mask)
    ensures zorder && FirstVisible(above).None? ==> r.0 == changes.(stackMode := Above)
    ensures zorder && FirstVisible(above).Some? ==>
              r.0 == changes.(stackMode := Below, sibling := above[FirstVisible(above).value].wholeWindow)
  {
    if !zorder then (changes, mask)
    else
      match FirstVisible(above)
      case None => (changes.(stackMode := Above), mask + {CWStackMode})
      case Some(i) => (changes.(stackMode := Below, sibling := above[i].wholeWindow), mask + {CWStackMode, CWSibling})
  }

  /**
   * The stacking step of X11DRV_sync_whole_window_position: finds the
   * window this one must be after and asks to be stacked below it, or on
   * top when there is none.
   */
  method StackBelowPrevVisible(changes0: WindowChanges, mask0: set<ConfigureField>, above: seq<Sibling>)
    returns (changes: WindowChanges, mask: set<ConfigureField>)
    ensures (changes, mask) == Restack(changes0, mask0, true, above)
  {
    var prev := FindPrevVisible(above);
    if prev.None? {  // top child
      changes := changes0.(stackMode := Above);
      mask := mask0 + {CWStackMode};
    } else {
      changes := changes0.(stackMode := Below, sibling := above[prev.value].wholeWindow);
      mask := mask0 + {CWStackMode, CWSibling};
    }
  }

  /** The window-manager size hints resent when a top-level window changes size. */
  function SizeHintsUpdate(topLevel: bool, mask: set<ConfigureField>, whole: XWindow, hints: SizeHints)
    : (e: seq<Effect>)
    ensures e == [] || e == [SetWMNormalHints(whole, hints)]
    ensures e != [] <==> topLevel && (CWWidth in mask || CWHeight in mask)
  {
    if topLevel && (CWWidth in mask || CWHeight in mask) then [SetWMNormalHints(whole, hints)] else []
  }

  /**
   * X11DRV_sync_whole_window_position: sends the whole window the changes
   * between the rectangle X last saw and the window rectangle (shrunk by
   * the frame for a managed window) and, with `zorder`, restacks it below
   * the nearest visible sibling in `above`.  The new rectangle is recorded
   * before anything is sent, so the size hints describe it.  Returns the
   * change mask; nothing is sent when it is empty.
   */
  method SyncWholeWindowPosition(d: Display, win: Wnd, data: WinData, zorder: bool, above: seq<Sibling>)
    returns (mask: set<ConfigureField>)
    requires win.data == data
    modifies data`wholeRect, d`effects
    ensures data.wholeRect == ToXRect(Has(old(win.exStyle), WS_EX_MANAGED),
                                      FrameOf(d.adjust, old(win.style), old(win.exStyle)), old(win.rectWindow))
    ensures var c := Restack(ChangesFor(BlankChanges, old(data.wholeRect), data.wholeRect),
                             ChangeMask(old(data.wholeRect), data.wholeRect), zorder, above);
            && mask == c.1
            && (mask == {} ==> d.effects == old(d.effects))
            && (mask != {} && old(IsTopLevel(d, win)) ==>
                  d.effects == old(d.effects) + [Sync]
                               + SizeHintsUpdate(true, mask, old(data.wholeWindow),
                                                 SizeHintsFor(old(win.style), old(win.exStyle), data.wholeRect))
                               + [ReconfigureWMWindow(old(data.wholeWindow), mask, c.0)])
            && (mask != {} && !old(IsTopLevel(d, win)) ==>
                  d.effects == old(d.effects) + [Sync, ConfigureWindow(old(data.wholeWindow), mask, c.0)])
  {
    var wholeRect := WindowToXRect(d.adjust, win.style, win.exStyle, win.rectWindow);
    var changes;
    changes, mask := GetWindowChanges(BlankChanges, data.wholeRect, wholeRect);
    if zorder {
      changes, mask := StackBelowPrevVisible(changes, mask, above);
    }

    data.wholeRect := wholeRect;

    if mask != {} {
      d.effects := d.effects + [Sync];
      if IsTopLevel(d, win) {
        if CWWidth in mask || CWHeight in mask {
          SetSizeHints(d, win);
        }
        d.effects := d.effects + [ReconfigureWMWindow(data.wholeWindow, mask, changes)];
      } else {
        d.effects := d.effects + [ConfigureWindow(data.wholeWindow, mask, changes)];
      }
    }
  }

  /**
   * The client-window calls of a position sync: the client window is
   * unmapped before it is moved when it stops being shown, and mapped after
   * when it starts.
   */
  function ClientMoveEffects(client: XWindow, wasMapped: bool, nowMapped: bool,
                             mask: set<ConfigureField>, changes: WindowChanges): (e: seq<Effect>)
    ensures wasMapped == nowMapped ==> e == [ConfigureWindow(client, mask, changes)]
    ensures wasMapped && !nowMapped ==> |e| == 2 && e[0] == UnmapWindow(client) && e[1] == ConfigureWindow(client, mask, changes)
    ensures !wasMapped && nowMapped ==> |e| == 2 && e[0] == ConfigureWindow(client, mask, changes) && e[1] == MapWindow(client)
  {
    (if wasMapped && !nowMapped then [UnmapWindow(client)] else [])
    + [ConfigureWindow(client, mask, changes)]
    + (if !wasMapped && nowMapped then [MapWindow(client)] else [])
  }

  /**
   * X11DRV_sync_client_window_position: moves the client window to the
   * client rectangle, taken relative to the whole window, and maps or
   * unmaps it when that changes whether it should show.  Returns the
   * change mask; nothing is recorded or sent when it is empty.
   */
  method SyncClientWindowPosition(d: Display, win: Wnd, data: WinData) returns (mask: set<ConfigureField>)
    requires win.data == data
    modifies data`clientRect, d`effects
    ensures var target := Offset(win.rectClient, -data.wholeRect.left, -data.wholeRect.top);
            && mask == ChangeMask(old(data.clientRect), target)
            && data.clientRect == target
            && (mask == {} ==> d.effects == old(d.effects))
            && (mask != {} ==>
                  d.effects == old(d.effects) + [Sync]
                               + ClientMoveEffects(data.clientWindow,
                                                   IsClientWindowMapped(win.style, old(data.clientRect)),
                                                   IsClientWindowMapped(win.style, target), mask,
                                                   ChangesFor(BlankChanges, old(data.clientRect), target)))
  {
    var clientRect := Offset(win.rectClient, -data.wholeRect.left, -data.wholeRect.top);
    var changes;
    changes, mask := GetWindowChanges(BlankChanges, data.clientRect, clientRect);
    if mask != {} {
      var wasMapped := IsClientWindowMapped(win.style, data.clientRect);
      data.clientRect := clientRect;
      d.effects := d.effects + [Sync];
      if wasMapped && !IsClientWindowMapped(win.style, data.clientRect) {
        d.effects := d.effects + [UnmapWindow(data.clientWindow)];
      }
      d.effects := d.effects + [ConfigureWindow(data.clientWindow, mask, changes)];
      if !wasMapped && IsClientWindowMapped(win.style, data.clientRect) {
        d.effects := d.effects + [MapWindow(data.clientWindow)];
      }
    }
  }
}
