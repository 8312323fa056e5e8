/**
 * The state the window code of the X11 driver works on: the process-wide
 * display (its configuration, the X context that maps X windows back to
 * window handles, and the calls made so far to the X server and the other
 * collaborators), the host's window record, and the driver's per-window data.
 */
module DriverState {
  import opened Win32
  import opened Xlib
  import opened Geometry
  import opened Policy

  /** The atoms create_desktop interns once per process; 0 where none is known. */
  datatype Atoms = Atoms(wmProtocols: Atom, wmDeleteWindow: Atom, wmTakeFocus: Atom,
                         dndProtocol: Atom, dndSelection: Atom, wmChangeState: Atom,
                         mwmHints: Atom, kwmDockWindow: Atom, kdeSystemTrayWindowFor: Atom)

  const NoAtoms := Atoms(0, 0, 0, 0, 0, 0, 0, 0, 0)

  // names of the host window properties that record the X windows of a window
  const WholeWindowProp := "__wine_x11_whole_window"
  const ClientWindowProp := "__wine_x11_client_window"
  const IconWindowProp := "__wine_x11_icon_window"
  const VisualIdProp := "__wine_x11_visual_id"

  /**
   * A call the driver makes to a collaborator: an X request, a GDI object
   * release, or a host window property update.  Only the order and the
   * arguments are recorded; what the collaborator does is not modelled.
   */
  datatype Effect =
    | CreateWindow(window: XWindow, parent: XWindow, x: int, y: int, width: int, height: int,
                   attrMask: set<AttributeField>, attrs: WindowAttributes)
    | DestroyWindow(window: XWindow)
    | ChangeWindowAttributes(window: XWindow, attrMask: set<AttributeField>, attrs: WindowAttributes)
    | ConfigureWindow(window: XWindow, changeMask: set<ConfigureField>, changes: WindowChanges)
    | ReconfigureWMWindow(window: XWindow, changeMask: set<ConfigureField>, changes: WindowChanges)
    | MapWindow(window: XWindow)
    | UnmapWindow(window: XWindow)
    | IconifyWindow(window: XWindow)
    | FreeCursor(cursor: XID)
    | SetWMProtocols(window: XWindow, protocols: seq<Atom>)
    | SetClassHint(window: XWindow, resName: string, resClass: string)
    | SetTransientForHint(window: XWindow, transientFor: XWindow)
    | SetWMNormalHints(window: XWindow, sizeHints: SizeHints)
    | SetWMHints(window: XWindow, wmHints: WMHints)
    | SetMwmHints(window: XWindow, property: Atom, mwm: MwmHints)
    | ChangeProperty32(window: XWindow, property: Atom, propType: Atom, value: int)
    | Sync                                        // flush pending drawing on the shared connection
    | DeleteObject(handle: Handle)                // GDI
    | SetProp(hwnd: HWND, name: string, propValue: nat)
    | RemoveProp(hwnd: HWND, name: string)

  /**
   * The display and the process-wide state of the driver.  `adjust` is the
   * host's AdjustWindowRectEx, `rootIsDefault` says whether the driver's
   * root window is the screen's root (no desktop window of its own).
   */
  class Display {
    const managedMode: bool
    const rootIsDefault: bool
    const rootWindow: XWindow
    const desktop: HWND
    const adjust: FrameMetrics
    const colormap: XID
    const iconWidth: int
    const iconHeight: int

    /** The atoms, interned when the desktop window is created. */
    var atoms: Atoms
    /** The X context: which window handle an X window belongs to. */
    var context: map<XWindow, HWND>
    /** The next identifier the X server hands out; every one below it is taken. */
    var nextXid: XWindow
    /** Everything sent to the collaborators so far, oldest first. */
    var effects: seq<Effect>

    ghost predicate Valid()
      reads this`nextXid, this`context
    {
      && rootWindow < nextXid
      && 0 !in context
      && forall w :: w in context ==> w < nextXid
    }

    constructor (managedMode: bool, rootIsDefault: bool, rootWindow: XWindow, desktop: HWND,
                 adjust: FrameMetrics, colormap: XID, iconWidth: int, iconHeight: int)
      ensures Valid()
      ensures this.managedMode == managedMode && this.rootIsDefault == rootIsDefault
      ensures this.rootWindow == rootWindow && this.desktop == desktop && this.adjust == adjust
      ensures this.colormap == colormap && this.iconWidth == iconWidth && this.iconHeight == iconHeight
      ensures atoms == NoAtoms && context == map[] && effects == []
    {
      this.managedMode, this.rootIsDefault := managedMode, rootIsDefault;
      this.rootWindow, this.desktop, this.adjust := rootWindow, desktop, adjust;
      this.colormap, this.iconWidth, this.iconHeight := colormap, iconWidth, iconHeight;
      atoms, context, nextXid, effects := NoAtoms, map[], rootWindow + 1, [];
    }

    /**
     * The identifier of a window the X server creates: a fresh one, or 0
     * when the server refuses (`granted` is false).
     */
    method NewXid(granted: bool) returns (w: XWindow)
      requires Valid()
      modifies this`nextXid
      ensures Valid()
      ensures granted ==> w == old(nextXid) && nextXid == w + 1
      ensures !granted ==> w == 0 && nextXid == old(nextXid)
      ensures granted ==> w != 0 && w != rootWindow && w !in context
    {
      if granted {
        w := nextXid;
        nextXid := nextXid + 1;
      } else {
        w := 0;
      }
    }
  }

  /**
   * The host's record of a window (WND): the parts the driver reads, and
   * `data`, the driver's own per-window data hanging off it.
   */
  class Wnd {
    const hwnd: HWND
    var parent: HWND
    var owner: HWND
    var style: Style
    var exStyle: Style
    var clsStyle: Style
    var classIcon: Handle
    var rectWindow: Rect
    var rectClient: Rect
    var data: WinData?

    constructor (hwnd: HWND, parent: HWND, owner: HWND, style: Style, exStyle: Style, clsStyle: Style)
      ensures this.hwnd == hwnd && this.parent == parent && this.owner == owner
      ensures this.style == style && this.exStyle == exStyle && this.clsStyle == clsStyle
      ensures classIcon == 0 && data == null
      ensures rectWindow == Rect(0, 0, 0, 0) && rectClient == Rect(0, 0, 0, 0)
    {
      this.hwnd, this.parent, this.owner := hwnd, parent, owner;
      this.style, this.exStyle, this.clsStyle := style, exStyle, clsStyle;
      classIcon := 0;
      rectWindow, rectClient := Rect(0, 0, 0, 0), Rect(0, 0, 0, 0);
      data := null;
    }
  }

  /**
   * The driver's data for one window: its whole (frame) X window, the client
   * X window inside it, the optional icon window, the last rectangles sent to
   * X, and the bitmap and mask behind the current icon pixmap.
   */
  class WinData {
    var wholeWindow: XWindow
    var clientWindow: XWindow
    var iconWindow: XWindow
    var wholeRect: Rect
    var clientRect: Rect
    var iconBitmap: Handle
    var iconMask: Handle

    constructor ()
      ensures wholeWindow == 0 && clientWindow == 0 && iconWindow == 0
      ensures iconBitmap == 0 && iconMask == 0
      ensures wholeRect == Rect(0, 0, 0, 0) && clientRect == Rect(0, 0, 0, 0)
    {
      wholeWindow, clientWindow, iconWindow := 0, 0, 0;
      iconBitmap, iconMask := 0, 0;
      wholeRect, clientRect := Rect(0, 0, 0, 0), Rect(0, 0, 0, 0);
    }
  }

  /** is_window_top_level: a child of the desktop, on a display without a desktop window of its own. */
  predicate IsTopLevel(d: Display, win: Wnd)
    reads win`parent
  {
    d.rootIsDefault && win.parent == d.desktop
  }

  /** is_client_window_mapped: the client window shows when not minimized and not empty. */
  predicate IsClientWindowMapped(style: Style, clientRect: Rect)
    ensures IsClientWindowMapped(style, clientRect)
        <==> !Has(style, WS_MINIMIZE) && clientRect.Width() > 0 && clientRect.Height() > 0
  {
    !Has(style, WS_MINIMIZE) && !IsEmpty(clientRect)
  }

  /** The X identifiers of a window's data were all handed out by the display. */
  ghost predicate Issued(d: Display, data: WinData)
    reads d`nextXid, data`wholeWindow, data`clientWindow, data`iconWindow
  {
    data.wholeWindow < d.nextXid && data.clientWindow < d.nextXid && data.iconWindow < d.nextXid
  }

  /** The icon window, when there is one, is registered to its window in the X context. */
  ghost predicate IconRegistered(d: Display, win: Wnd, data: WinData)
    reads d`context, data`iconWindow
  {
    data.iconWindow != 0 ==> data.iconWindow in d.context && d.context[data.iconWindow] == win.hwnd
  }

  /** The GDI releases for an icon bitmap and mask pair: each handle that is set is deleted. */
  function ReleaseIcon(bitmap: Handle, mask: Handle): (e: seq<Effect>)
    ensures |e| == (if bitmap != 0 then 1 else 0) + (if mask != 0 then 1 else 0)
    ensures bitmap != 0 ==> e[0] == DeleteObject(bitmap)
    ensures mask != 0 ==> e[|e| - 1] == DeleteObject(mask)
  {
    (if bitmap != 0 then [DeleteObject(bitmap)] else []) + (if mask != 0 then [DeleteObject(mask)] else [])
  }
}
