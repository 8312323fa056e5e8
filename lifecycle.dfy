/**
 * The life of the driver's per-window data: the desktop window, the whole
 * and client X windows of every other window, their registration in the X
 * context, and their destruction.
 */
module Lifecycle {
  import opened Win32
  import opened Xlib
  import opened Geometry
  import opened Policy
  import opened DriverState
  import opened Hints

  /** The context with a window's whole and client X windows registered to `hwnd`. */
  function Registered(ctx: map<XWindow, HWND>, whole: XWindow, client: XWindow, hwnd: HWND)
    : (c: map<XWindow, HWND>)
    ensures whole in c && c[whole] == hwnd && client in c && c[client] == hwnd
    ensures c.Keys == ctx.Keys + {whole, client}
    ensures forall w :: w in ctx && w != whole && w != client ==> c[w] == ctx[w]
  {
    ctx[whole := hwnd][client := hwnd]
  }

  /**
   * The context once a window's X windows are forgotten: the whole and
   * client windows always, the icon window when there is one.
   */
  function Unregistered(ctx: map<XWindow, HWND>, whole: XWindow, client: XWindow, icon: XWindow)
    : (c: map<XWindow, HWND>)
    ensures whole !in c && client !in c && (icon != 0 ==> icon !in c)
    ensures c.Keys == ctx.Keys - {whole, client} - (if icon != 0 then {icon} else {})
    ensures forall w :: w in c ==> w in ctx && c[w] == ctx[w]
  {
    var c := ctx - {whole, client};
    if icon == 0 then c else c - {icon}
  }

  /**
   * Forgetting the X windows of a window undoes their registration, and the
   * registration of its icon window before them: the context is back to what
   * it was before the window had X windows.  A window whose client window
   * was never created (0) is covered as long as 0 is never a key.
   */
  lemma {:induction false} UnregisterUndoesRegister(ctx: map<XWindow, HWND>, whole: XWindow, client: XWindow,
                                                    icon: XWindow, hwnd: HWND)
    requires whole !in ctx && client !in ctx && icon !in ctx
    ensures Unregistered(Registered(if icon != 0 then ctx[icon := hwnd] else ctx, whole, client, hwnd),
                         whole, client, icon) == ctx
  {
    var withIcon := if icon != 0 then ctx[icon := hwnd] else ctx;
    var c := Unregistered(Registered(withIcon, whole, client, hwnd), whole, client, icon);
    assert c.Keys == ctx.Keys;
    forall w | w in c
      ensures c[w] == ctx[w]
    {
      assert w != whole && w != client && (icon != 0 ==> w != icon);
    }
  }

  /**
   * The failure path of X11DRV_CreateWindow: when the client window cannot
   * be created or a hook vetoes the window, the whole and client windows
   * were never registered; only the icon window that set_wm_hints may have
   * created (`next`, fresh data having none) was.  Destroying the window
   * forgets it, and the context is back to what it was.
   */
  lemma {:induction false} FailedCreateRestoresContext(ctx: map<XWindow, HWND>, hwnd: HWND, managed: bool,
                                                       hasIcon: bool, next: XWindow, whole: XWindow, client: XWindow)
    requires next != 0 && next !in ctx && whole !in ctx && client !in ctx
    ensures Unregistered(IconContext(ctx, hwnd, 0, managed, hasIcon, next), whole, client,
                         IconWindowAfter(0, managed, hasIcon, next)) == ctx
  {
    var icon := IconWindowAfter(0, managed, hasIcon, next);
    var c := Unregistered(IconContext(ctx, hwnd, 0, managed, hasIcon, next), whole, client, icon);
    assert c.Keys == ctx.Keys;
    forall w | w in c
      ensures c[w] == ctx[w]
    {
      assert w != next;
    }
  }

  /**
   * X11DRV_register_window: records in the X context that the whole and the
   * client X window of `data` belong to `hwnd`.
   */
  method RegisterWindow(d: Display, hwnd: HWND, data: WinData)
    requires d.Valid() && Issued(d, data)
    requires data.wholeWindow != 0 && data.clientWindow != 0
    modifies d`context
    ensures d.Valid()
    ensures d.context == Registered(old(d.context), data.wholeWindow, data.clientWindow, hwnd)
  {
    d.context := Registered(d.context, data.wholeWindow, data.clientWindow, hwnd);
  }

  /**
   * create_desktop: the desktop window has no X windows of its own; both of
   * its windows are the root window.  It starts a fresh X context and takes
   * the atoms interned for the process (`interned`), except that take-focus
   * is not used.  `visualId` is the identifier of the visual in use.
   */
  method CreateDesktop(d: Display, win: Wnd, data: WinData, interned: Atoms, visualId: nat)
    requires d.Valid() && win.data == data
    modifies d`context, d`atoms, d`effects, data`wholeWindow, data`clientWindow, data`wholeRect, data`clientRect
    ensures d.Valid()
    ensures d.context == map[]
    ensures d.atoms == interned.(wmTakeFocus := 0)
    ensures data.wholeWindow == d.rootWindow && data.clientWindow == d.rootWindow
    ensures data.wholeRect == win.rectWindow && data.clientRect == win.rectWindow
    ensures d.effects == old(d.effects) + [SetProp(win.hwnd, WholeWindowProp, d.rootWindow),
                                           SetProp(win.hwnd, ClientWindowProp, d.rootWindow),
                                           SetProp(win.hwnd, VisualIdProp, visualId)]
  {
    d.context := map[];
    d.atoms := interned.(wmTakeFocus := 0);  // not yet
    data.wholeWindow, data.clientWindow := d.rootWindow, d.rootWindow;
    data.wholeRect, data.clientRect := win.rectWindow, win.rectWindow;
    d.effects := d.effects + [SetProp(win.hwnd, WholeWindowProp, d.rootWindow),
                              SetProp(win.hwnd, ClientWindowProp, d.rootWindow),
                              SetProp(win.hwnd, VisualIdProp, visualId)];
  }

  /** A child window that is not maximized lives at the bottom of the Z order. */
  predicate StaysAtBottom(style: Style) {
    Has(style, WS_CHILD) && !Has(style, WS_MAXIMIZE)
  }

  /** The attribute fields a whole window is created with. */
  const WholeWindowMask: set<AttributeField> := AttributeMask + {CWBitGravity, CWWinGravity, CWBackingStore}

  /**
   * The attributes a whole window is created with: those of
   * get_window_attributes, and contents that are thrown away on resize,
   * anchored at the top left, with no backing store.
   */
  function WholeWindowAttributes(r: AttributeSetup): (a: WindowAttributes)
    ensures a.overrideRedirect == r.attrs.overrideRedirect && a.saveUnder == r.attrs.saveUnder
    ensures a.eventMask == r.attrs.eventMask && a.colormap == r.attrs.colormap && a.cursor == r.attrs.cursor
    ensures a.bitGravity == ForgetGravity && a.winGravity == NorthWestGravity && a.backingStore == NotUseful
  {
    r.attrs.(bitGravity := ForgetGravity, winGravity := NorthWestGravity, backingStore := NotUseful)
  }

  /**
   * The calls of create_whole_window up to the window-manager hints: the
   * window itself, the release of its cursor, and, for a child that stays at
   * the bottom, the restacking below its siblings.
   */
  function WholeWindowEffects(w: XWindow, parent: XWindow, rect: Rect, r: AttributeSetup, style: Style)
    : (e: seq<Effect>)
    ensures |e| == 1 + (if r.attrs.cursor != 0 then 1 else 0) + (if w != 0 && StaysAtBottom(style) then 1 else 0)
    ensures e[0] == CreateWindow(w, parent, rect.left, rect.top, NonZero(rect.Width()), NonZero(rect.Height()),
                                 WholeWindowMask, WholeWindowAttributes(r))
    ensures r.attrs.cursor != 0 ==> e[1] == FreeCursor(r.attrs.cursor)
    ensures w != 0 && StaysAtBottom(style) ==> e[|e| - 1] == ConfigureWindow(w, {CWStackMode}, BlankChanges.(stackMode := Below))
  {
    [CreateWindow(w, parent, rect.left, rect.top, NonZero(rect.Width()), NonZero(rect.Height()),
                  WholeWindowMask, WholeWindowAttributes(r))]
    + (if r.attrs.cursor != 0 then [FreeCursor(r.attrs.cursor)] else [])
    + (if w != 0 && StaysAtBottom(style) then [ConfigureWindow(w, {CWStackMode}, BlankChanges.(stackMode := Below))] else [])
  }

  /**
   * The X part of create_whole_window: creates the whole X window of a
   * window inside `parentClient` (the client window of its parent) at the
   * window rectangle shrunk by the frame, and records the managed decision
   * in the extended style.  The rectangle is converted with the extended
   * style from before that decision.  `granted` says whether the X server
   * creates the window and `cursor` is the answer of the cursor lookup.
   */
  method CreateWholeXWindow(d: Display, win: Wnd, data: WinData, granted: bool, cursor: XID,
                            parentClient: XWindow) returns (w: XWindow)
    requires d.Valid() && win.data == data
    modifies win`exStyle, d`nextXid, d`effects, data`wholeWindow, data`wholeRect
    ensures d.Valid()
    ensures w == data.wholeWindow
    ensures granted ==> w == old(d.nextXid) && w != 0 && w !in d.context && d.nextXid == w + 1
    ensures !granted ==> w == 0 && d.nextXid == old(d.nextXid)
    ensures data.wholeRect == ToXRect(Has(old(win.exStyle), WS_EX_MANAGED),
                                      FrameOf(d.adjust, win.style, old(win.exStyle)), win.rectWindow)
    ensures var r := GetWindowAttributes(IsTopLevel(d, win), d.managedMode, win.style, old(win.exStyle),
                                         win.clsStyle, d.colormap, cursor);
            && win.exStyle == r.exStyle
            && d.effects == old(d.effects) + WholeWindowEffects(w, parentClient, data.wholeRect, r, win.style)
  {
    var rect := WindowToXRect(d.adjust, win.style, win.exStyle, win.rectWindow);
    var r := GetWindowAttributes(IsTopLevel(d, win), d.managedMode, win.style, win.exStyle, win.clsStyle,
                                 d.colormap, cursor);
    win.exStyle := r.exStyle;
    data.wholeRect := rect;
    w := d.NewXid(granted);
    data.wholeWindow := w;
    d.effects := d.effects + WholeWindowEffects(w, parentClient, rect, r, win.style);
  }

  /**
   * The last step of create_whole_window: a top-level window whose whole
   * window was created gets its window-manager hints (`ownerWindow` and
   * `ii` are what set_wm_hints needs); any other window gets nothing.
   */
  method HintTopLevel(d: Display, win: Wnd, data: WinData, ownerWindow: XWindow, ii: IconInfo)
    requires d.Valid() && win.data == data && IconRegistered(d, win, data)
    modifies d`nextXid, d`context, d`effects, data`iconWindow, data`iconBitmap, data`iconMask
    ensures d.Valid() && IconRegistered(d, win, data)
    ensures data.wholeWindow == 0 || !IsTopLevel(d, win) ==>
              && d.effects == old(d.effects) && d.context == old(d.context) && d.nextXid == old(d.nextXid)
              && data.iconWindow == old(data.iconWindow)
              && data.iconBitmap == old(data.iconBitmap) && data.iconMask == old(data.iconMask)
    ensures data.wholeWindow != 0 && IsTopLevel(d, win) ==>
              && old(d.effects) <= d.effects
              && IconExclusive(data)
              && (data.iconWindow != 0 <==> Has(win.exStyle, WS_EX_MANAGED) && win.classIcon == 0)
              && data.iconWindow == IconWindowAfter(old(data.iconWindow), Has(win.exStyle, WS_EX_MANAGED),
                                                    win.classIcon != 0, old(d.nextXid))
              && d.context == IconContext(old(d.context), win.hwnd, old(data.iconWindow),
                                          Has(win.exStyle, WS_EX_MANAGED), win.classIcon != 0, old(d.nextXid))
              && d.nextXid == (if Has(win.exStyle, WS_EX_MANAGED) && win.classIcon == 0 && old(data.iconWindow) == 0
                               then old(d.nextXid) + 1 else old(d.nextXid))
              && (data.iconBitmap, data.iconMask)
                 == (if Has(win.exStyle, WS_EX_MANAGED) && win.classIcon != 0 then (ii.color, ii.mask) else (0, 0))
  {
    if data.wholeWindow != 0 && IsTopLevel(d, win) {
      SetWmHints(d, win, data, ownerWindow, ii);
    }
  }

  /**
   * create_whole_window: creates the whole X window and, for a top-level
   * window, sends the window-manager hints.  Returns the new window, or 0.
   */
  method CreateWholeWindow(d: Display, win: Wnd, data: WinData, granted: bool, cursor: XID,
                           parentClient: XWindow, ownerWindow: XWindow, ii: IconInfo) returns (w: XWindow)
    requires d.Valid() && win.data == data && IconRegistered(d, win, data)
    modifies win`exStyle, d`nextXid, d`context, d`effects, data`wholeWindow, data`wholeRect,
             data`iconWindow, data`iconBitmap, data`iconMask
    ensures d.Valid() && IconRegistered(d, win, data)
    ensures w == data.wholeWindow
    ensures granted ==> w == old(d.nextXid) && w != 0 && w !in old(d.context)
    ensures !granted ==> w == 0
    ensures data.wholeRect == ToXRect(Has(old(win.exStyle), WS_EX_MANAGED),
                                      FrameOf(d.adjust, win.style, old(win.exStyle)), win.rectWindow)
    ensures var r := GetWindowAttributes(IsTopLevel(d, win), d.managedMode, win.style, old(win.exStyle),
                                         win.clsStyle, d.colormap, cursor);
            && win.exStyle == r.exStyle
            && var created := old(d.effects) + WholeWindowEffects(w, parentClient, data.wholeRect, r, win.style);
            && (w == 0 || !IsTopLevel(d, win) ==> d.effects == created)
            && (w != 0 && IsTopLevel(d, win) ==> created <= d.effects)
    ensures w == 0 || !IsTopLevel(d, win) ==>
              && d.context == old(d.context) && d.nextXid == old(d.nextXid) + (if granted then 1 else 0)
              && data.iconWindow == old(data.iconWindow)
              && data.iconBitmap == old(data.iconBitmap) && data.iconMask == old(data.iconMask)
    ensures w != 0 && IsTopLevel(d, win) ==>
              && IconExclusive(data)
              && (data.iconWindow != 0 <==> Has(win.exStyle, WS_EX_MANAGED) && win.classIcon == 0)
              && data.iconWindow == IconWindowAfter(old(data.iconWindow), Has(win.exStyle, WS_EX_MANAGED),
                                                    win.classIcon != 0, w + 1)
              && d.context == IconContext(old(d.context), win.hwnd, old(data.iconWindow),
                                          Has(win.exStyle, WS_EX_MANAGED), win.classIcon != 0, w + 1)
              && d.nextXid == (if Has(win.exStyle, WS_EX_MANAGED) && win.classIcon == 0 && old(data.iconWindow) == 0
                               then w + 2 else w + 1)
              && (data.iconBitmap, data.iconMask)
                 == (if Has(win.exStyle, WS_EX_MANAGED) && win.classIcon != 0 then (ii.color, ii.mask) else (0, 0))
  {
    w := CreateWholeXWindow(d, win, data, granted, cursor, parentClient);
    HintTopLevel(d, win, data, ownerWindow, ii);
  }

  /** The attribute fields a client window is created with. */
  const ClientWindowMask: set<AttributeField> := {CWEventMask, CWBitGravity, CWBackingStore}

  /**
   * The attributes of a client window: the base events, and contents thrown
   * away on resize exactly when the class asks to be redrawn when resized.
   */
  function ClientWindowAttributes(clsStyle: Style): (a: WindowAttributes)
    ensures a.eventMask == BaseEventMask && a.backingStore == NotUseful
    ensures a.bitGravity == ForgetGravity <==> Has(clsStyle, CS_VREDRAW) || Has(clsStyle, CS_HREDRAW)
    ensures a.bitGravity != ForgetGravity ==> a.bitGravity == NorthWestGravity
  {
    BlankAttributes.(eventMask := BaseEventMask,
                     bitGravity := if Has(clsStyle, CS_VREDRAW) || Has(clsStyle, CS_HREDRAW)
                                   then ForgetGravity else NorthWestGravity,
                     backingStore := NotUseful)
  }

  /** An extent as create_client_window sends it: at least 1. */
  function AtLeastOne(n: int): (m: int)
    ensures m >= 1 && m >= n
    ensures n >= 1 ==> m == n
    ensures n < 1 ==> m == 1
  {
    if n < 1 then 1 else n
  }

  /**
   * create_client_window: creates the client X window inside the whole
   * window, covering it from its top left corner, and maps it when it
   * should show.  `granted` says whether the X server creates it.
   */
  method CreateClientWindow(d: Display, win: Wnd, data: WinData, granted: bool) returns (w: XWindow)
    requires d.Valid() && win.data == data
    modifies d`nextXid, d`effects, data`clientRect, data`clientWindow
    ensures d.Valid()
    ensures data.clientRect.left == 0 && data.clientRect.top == 0
    ensures data.clientRect.Width() == data.wholeRect.Width() && data.clientRect.Height() == data.wholeRect.Height()
    ensures w == data.clientWindow
    ensures granted ==> w == old(d.nextXid) && w !in d.context && d.nextXid == w + 1
    ensures !granted ==> w == 0 && d.nextXid == old(d.nextXid)
    ensures d.effects == old(d.effects)
              + [CreateWindow(w, data.wholeWindow, 0, 0, AtLeastOne(data.clientRect.Width()),
                              AtLeastOne(data.clientRect.Height()), ClientWindowMask, ClientWindowAttributes(win.clsStyle))]
              + (if w != 0 && IsClientWindowMapped(win.style, data.clientRect) then [MapWindow(w)] else [])
  {
    var rect := Offset(data.wholeRect, -data.wholeRect.left, -data.wholeRect.top);
    data.clientRect := rect;
    w := d.NewXid(granted);
    data.clientWindow := w;
    d.effects := d.effects + [CreateWindow(w, data.wholeWindow, 0, 0, AtLeastOne(rect.Width()), AtLeastOne(rect.Height()),
                                           ClientWindowMask, ClientWindowAttributes(win.clsStyle))];
    if w != 0 && IsClientWindowMapped(win.style, data.clientRect) {
      d.effects := d.effects + [MapWindow(w)];
    }
  }

  /**
   * X11DRV_DestroyWindow: forgets the X windows of a window in the X context
   * and destroys them (the client window goes with the whole window), then
   * releases the icon bitmaps and drops the driver data.  A window without
   * driver data is left alone.
   */
  method DestroyWindow(d: Display, win: Wnd)
    modifies win`data, d`context, d`effects, win.data
    ensures win.data == null
    ensures old(win.data) == null ==> d.context == old(d.context) && d.effects == old(d.effects)
    ensures var data := old(win.data);
            data != null && old(data.wholeWindow) != 0 ==>
              && data.iconWindow == 0
              && d.context == Unregistered(old(d.context), old(data.wholeWindow), old(data.clientWindow),
                                           old(data.iconWindow))
              && d.effects == old(d.effects) + [Sync, Effect.DestroyWindow(old(data.wholeWindow))]
                              + DestroyIconEffects(win.hwnd, old(data.iconWindow))
                              + ReleaseIcon(old(data.iconBitmap), old(data.iconMask))
    ensures var data := old(win.data);
            data != null && old(data.wholeWindow) == 0 ==>
              && data.iconWindow == old(data.iconWindow)
              && d.context == old(d.context)
              && d.effects == old(d.effects) + ReleaseIcon(old(data.iconBitmap), old(data.iconMask))
  {
    var data := win.data;
    if data == null {
      return;
    }
    if data.wholeWindow != 0 {
      d.effects := d.effects + [Sync];
      d.context := d.context - {data.wholeWindow, data.clientWindow};
      d.effects := d.effects + [Effect.DestroyWindow(data.wholeWindow)];  // the client window goes with it
      DestroyIconWindow(d, win);
    }
    d.effects := d.effects + ReleaseIcon(data.iconBitmap, data.iconMask);
    win.data := null;
  }

  /**
   * The width or height X11DRV_CreateWindow gives a new window: the request
   * is capped at 65535 and, when the window takes minimum and maximum
   * tracking sizes, then bounded by them, the minimum winning over the
   * maximum, and never negative.
   */
  function CreateExtent(requested: int, tracked: bool, maxSize: int, minTrack: int): (n: int)
    ensures !tracked ==> n == CapRequested(requested)
    ensures tracked ==> n == TrackSize(CapRequested(requested), maxSize, minTrack)
    ensures !tracked ==> n <= MAX_CREATE_EXTENT && (requested <= MAX_CREATE_EXTENT ==> n == requested)
    ensures !tracked && requested > MAX_CREATE_EXTENT ==> n == MAX_CREATE_EXTENT
    ensures tracked ==> n >= 0 && n >= minTrack
    ensures tracked && minTrack <= maxSize && 0 <= maxSize ==> n <= maxSize
    ensures tracked && minTrack <= MAX_CREATE_EXTENT ==> n <= MAX_CREATE_EXTENT
    ensures tracked && 0 <= requested <= MAX_CREATE_EXTENT && minTrack <= requested <= maxSize ==> n == requested
  {
    var capped := CapRequested(requested);
    if tracked then TrackSize(capped, maxSize, minTrack) else capped
  }

  /**
   * The size checks of X11DRV_CreateWindow, on the requested width and
   * height in place: the cap first, then, for a window with a thick frame or
   * a top-level window that is neither a child nor a pop-up, the tracking
   * sizes `info` its window procedure answers.
   */
  method ClampCreateSize(cx0: int, cy0: int, style: Style, info: MinMaxInfo) returns (cx: int, cy: int)
    ensures cx == CreateExtent(cx0, WantsMinMaxInfo(style), info.maxSizeX, info.minTrackX)
    ensures cy == CreateExtent(cy0, WantsMinMaxInfo(style), info.maxSizeY, info.minTrackY)
  {
    cx, cy := cx0, cy0;
    if cx > MAX_CREATE_EXTENT { cx := MAX_CREATE_EXTENT; }
    if cy > MAX_CREATE_EXTENT { cy := MAX_CREATE_EXTENT; }
    if WantsMinMaxInfo(style) {
      if info.maxSizeX < cx { cx := info.maxSizeX; }
      if info.maxSizeY < cy { cy := info.maxSizeY; }
      if cx < info.minTrackX { cx := info.minTrackX; }
      if cy < info.minTrackY { cy := info.minTrackY; }
      if cx < 0 { cx := 0; }
      if cy < 0 { cy := 0; }
    }
  }
}
