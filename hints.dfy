/**
 * The window-manager hints of a top-level window: the icon window, the icon
 * part of WM_HINTS, WM_NORMAL_HINTS, the hints sent once when the whole
 * window is created, and the iconic state.
 */
module Hints {
  import opened Win32
  import opened Xlib
  import opened Geometry
  import opened Policy
  import opened Wrappers
  import opened DriverState

  /** What GetIconInfo answers for the class icon, with the X pixmaps behind its two bitmaps. */
  datatype IconInfo = IconInfo(color: Handle, mask: Handle, colorPixmap: XID, maskPixmap: XID)

  const IconWindowMask: set<AttributeField> := {CWEventMask, CWBitGravity, CWBackingStore, CWColormap}

  /** The attributes of an icon window: it draws itself and takes input; nothing else is set. */
  function IconWindowAttributes(colormap: XID): (a: WindowAttributes)
    ensures a.eventMask == BaseEventMask
    ensures a.bitGravity == NorthWestGravity && a.backingStore == NotUseful && a.colormap == colormap
    ensures !a.overrideRedirect && a.cursor == 0
  {
    BlankAttributes.(eventMask := {ExposureMask, KeyPressMask, KeyReleaseMask, PointerMotionMask,
                                   ButtonPressMask, ButtonReleaseMask},
                     bitGravity := NorthWestGravity, backingStore := NotUseful, colormap := colormap)
  }

  /** The calls that create icon window `w` of window `hwnd`: an icon-sized window at the root, recorded as a property. */
  function CreateIconEffects(d: Display, hwnd: HWND, w: XWindow): (e: seq<Effect>)
    ensures |e| == 2
    ensures e[0] == CreateWindow(w, d.rootWindow, 0, 0, d.iconWidth, d.iconHeight,
                                 IconWindowMask, IconWindowAttributes(d.colormap))
    ensures e[1] == SetProp(hwnd, IconWindowProp, w)
  {
    [CreateWindow(w, d.rootWindow, 0, 0, d.iconWidth, d.iconHeight, IconWindowMask, IconWindowAttributes(d.colormap)),
     SetProp(hwnd, IconWindowProp, w)]
  }

  /** The calls that destroy icon window `w` of window `hwnd`: none when there is none. */
  function DestroyIconEffects(hwnd: HWND, w: XWindow): (e: seq<Effect>)
    ensures w == 0 <==> e == []
    ensures w != 0 ==> e == [DestroyWindow(w), RemoveProp(hwnd, IconWindowProp)]
  {
    if w == 0 then [] else [DestroyWindow(w), RemoveProp(hwnd, IconWindowProp)]
  }

  /**
   * The icon-window calls of set_icon_hints: an unmanaged window loses its
   * icon window, a managed one without a class icon gets one (`newWindow`)
   * if it has none and keeps the one it has, and a managed one with a class
   * icon loses it.
   */
  function IconWindowEffects(d: Display, hwnd: HWND, iconWindow: XWindow,
                             managed: bool, hasIcon: bool, newWindow: XWindow): (e: seq<Effect>)
    ensures managed && !hasIcon && iconWindow != 0 ==> e == []
    ensures managed && !hasIcon && iconWindow == 0 ==> e == CreateIconEffects(d, hwnd, newWindow)
    ensures !(managed && !hasIcon) ==> e == DestroyIconEffects(hwnd, iconWindow)
  {
    if managed && !hasIcon then (if iconWindow == 0 then CreateIconEffects(d, hwnd, newWindow) else [])
    else DestroyIconEffects(hwnd, iconWindow)
  }

  /**
   * create_icon_window: creates the icon window of a window, records it in
   * the X context and as a property of the window.
   */
  method CreateIconWindow(d: Display, win: Wnd) returns (w: XWindow)
    requires d.Valid() && win.data != null
    modifies d`nextXid, d`context, d`effects, win.data`iconWindow
    ensures d.Valid()
    ensures w == win.data.iconWindow && w == old(d.nextXid) && w != 0 && w !in old(d.context)
    ensures d.nextXid == w + 1
    ensures d.context == old(d.context)[w := win.hwnd]
    ensures d.effects == old(d.effects) + CreateIconEffects(d, win.hwnd, w)
  {
    var data := win.data;
    w := d.NewXid(true);
    data.iconWindow := w;
    d.context := d.context[w := win.hwnd];
    d.effects := d.effects + CreateIconEffects(d, win.hwnd, w);
  }

  /** destroy_icon_window: undoes create_icon_window; nothing happens when there is no icon window. */
  method DestroyIconWindow(d: Display, win: Wnd)
    requires win.data != null
    modifies d`context, d`effects, win.data`iconWindow
    ensures win.data.iconWindow == 0
    ensures d.context == (if old(win.data.iconWindow) == 0 then old(d.context)
                          else old(d.context) - {old(win.data.iconWindow)})
    ensures d.effects == old(d.effects) + DestroyIconEffects(win.hwnd, old(win.data.iconWindow))
  {
    var data := win.data;
    if data.iconWindow == 0 { return; }
    d.context := d.context - {data.iconWindow};
    d.effects := d.effects + [DestroyWindow(data.iconWindow)];
    data.iconWindow := 0;
    d.effects := d.effects + [RemoveProp(win.hwnd, IconWindowProp)];
  }

  /**
   * The icon of a window is shown in exactly one way: through its icon window
   * or through the bitmaps behind the icon pixmap, never both.
   */
  ghost predicate IconExclusive(data: WinData)
    reads data`iconWindow, data`iconBitmap, data`iconMask
  {
    data.iconWindow != 0 ==> data.iconBitmap == 0 && data.iconMask == 0
  }

  /**
   * The icon window set_icon_hints leaves: a managed window without a class
   * icon keeps the one it has or gets `newWindow`; any other window has none.
   */
  function IconWindowAfter(iconWindow: XWindow, managed: bool, hasIcon: bool, newWindow: XWindow): (w: XWindow)
    ensures newWindow != 0 ==> (w != 0 <==> managed && !hasIcon)
    ensures w != 0 && iconWindow != 0 ==> w == iconWindow
    ensures w != 0 && iconWindow == 0 ==> w == newWindow
  {
    if managed && !hasIcon then (if iconWindow != 0 then iconWindow else newWindow) else 0
  }

  /**
   * The X context after set_icon_hints: a created icon window is registered
   * to `hwnd`, a destroyed one is forgotten, and every other entry is kept.
   */
  function IconContext(ctx: map<XWindow, HWND>, hwnd: HWND, iconWindow: XWindow, managed: bool, hasIcon: bool,
                       newWindow: XWindow): (c: map<XWindow, HWND>)
    ensures var created := managed && !hasIcon && iconWindow == 0;
            forall x :: x != iconWindow && (x != newWindow || !created) ==> (x in c <==> x in ctx)
    ensures var created := managed && !hasIcon && iconWindow == 0;
            forall x :: x in c && x != iconWindow && (x != newWindow || !created) ==> c[x] == ctx[x]
    ensures iconWindow != 0 && !(managed && !hasIcon) ==> iconWindow !in c
    ensures managed && !hasIcon && iconWindow == 0 ==> newWindow in c && c[newWindow] == hwnd
    ensures managed && !hasIcon && iconWindow != 0 ==> c == ctx
    ensures 0 !in ctx && newWindow != 0 ==> 0 !in c
  {
    if managed && !hasIcon then (if iconWindow == 0 then ctx[newWindow := hwnd] else ctx)
    else if iconWindow == 0 then ctx
    else ctx - {iconWindow}
  }

  /**
   * set_icon_hints: fills the icon part of `hints` for the window's managed
   * state and class icon, keeping the icon window and the icon bitmaps of the
   * window in step with it.
   */
  method SetIconHints(d: Display, win: Wnd, data: WinData, hints: WMHints, ii: IconInfo) returns (h: WMHints)
    requires d.Valid() && win.data == data
    requires IconRegistered(d, win, data)
    modifies d`nextXid, d`context, d`effects, data`iconWindow, data`iconBitmap, data`iconMask
    ensures d.Valid() && IconRegistered(d, win, data) && IconExclusive(data)
    ensures h == IconHints(hints, Has(win.exStyle, WS_EX_MANAGED), win.classIcon != 0,
                           data.iconWindow, ii.colorPixmap, ii.maskPixmap)
    ensures data.iconWindow != 0 <==> Has(win.exStyle, WS_EX_MANAGED) && win.classIcon == 0
    ensures data.iconWindow == IconWindowAfter(old(data.iconWindow), Has(win.exStyle, WS_EX_MANAGED),
                                               win.classIcon != 0, old(d.nextXid))
    ensures d.context == IconContext(old(d.context), win.hwnd, old(data.iconWindow), Has(win.exStyle, WS_EX_MANAGED),
                                     win.classIcon != 0, old(d.nextXid))
    ensures d.nextXid == if Has(win.exStyle, WS_EX_MANAGED) && win.classIcon == 0 && old(data.iconWindow) == 0
                         then old(d.nextXid) + 1 else old(d.nextXid)
    ensures (data.iconBitmap, data.iconMask)
         == (if Has(win.exStyle, WS_EX_MANAGED) && win.classIcon != 0 then (ii.color, ii.mask) else (0, 0))
    ensures d.effects == old(d.effects) + ReleaseIcon(old(data.iconBitmap), old(data.iconMask))
                         + IconWindowEffects(d, win.hwnd, old(data.iconWindow), Has(win.exStyle, WS_EX_MANAGED),
                                             win.classIcon != 0, old(d.nextXid))
  {
    var managed := Has(win.exStyle, WS_EX_MANAGED);
    var hasIcon := win.classIcon != 0;
    

    ghost var iconWindow0, next0 := data.iconWindow, d.nextXid;
    d.effects := d.effects + ReleaseIcon(data.iconBitmap, data.iconMask);
    data.iconBitmap, data.iconMask := 0, 0;
    ghost var e1 := d.effects;

    if !managed {
      DestroyIconWindow(d, win);
      h := hints;
    } else if !hasIcon {
      if data.iconWindow == 0 {
        var _ := CreateIconWindow(d, win);
      }
      h := hints.(iconWindow := data.iconWindow);
    } else {
      data.iconBitmap, data.iconMask := ii.color, ii.mask;
      h := hints.(iconPixmap := ii.colorPixmap, iconMask := ii.maskPixmap);
      DestroyIconWindow(d, win);
    }
    assert d.effects == e1 + IconWindowEffects(d, win.hwnd, iconWindow0, managed, hasIcon, next0);
    // each branch drops the icon flags that no longer apply and adds its own
    h := h.(flags := IconFlagUpdate(hints.flags, managed, hasIcon));
  }

  /** set_size_hints: sends WM_NORMAL_HINTS computed from the whole-window rectangle. */
  method SetSizeHints(d: Display, win: Wnd)
    requires win.data != null
    modifies d`effects
    ensures d.effects == old(d.effects) +
              [SetWMNormalHints(win.data.wholeWindow, SizeHintsFor(win.style, win.exStyle, win.data.wholeRect))]
  {
    var data := win.data;
    var sizeHints := BlankSizeHints.(winGravity := StaticGravity, x := data.wholeRect.left,
                                     y := data.wholeRect.top, flags := {PWinGravity, PPosition});
    if HasDlgFrame(win.style, win.exStyle) {
      sizeHints := sizeHints.(maxWidth := data.wholeRect.right - data.wholeRect.left,
                              maxHeight := data.wholeRect.bottom - data.wholeRect.top);
      sizeHints := sizeHints.(minWidth := sizeHints.maxWidth, minHeight := sizeHints.maxHeight);
      sizeHints := sizeHints.(flags := sizeHints.flags + {PMinSize, PMaxSize});
    }
    d.effects := d.effects + [SetWMNormalHints(data.wholeWindow, sizeHints)];
  }

  /** The properties that mark a system tray window for the KDE panel, for each atom that is known. */
  function TrayEffects(atoms: Atoms, whole: XWindow, exStyle: Style): (e: seq<Effect>)
    ensures |e| == if Has(exStyle, WS_EX_TRAYWINDOW)
                   then (if atoms.kwmDockWindow != 0 then 1 else 0) + (if atoms.kdeSystemTrayWindowFor != 0 then 1 else 0)
                   else 0
    ensures Has(exStyle, WS_EX_TRAYWINDOW) && atoms.kwmDockWindow != 0 ==>
              e[0] == ChangeProperty32(whole, atoms.kwmDockWindow, atoms.kwmDockWindow, 1)
    ensures Has(exStyle, WS_EX_TRAYWINDOW) && atoms.kdeSystemTrayWindowFor != 0 ==>
              e[|e| - 1] == ChangeProperty32(whole, atoms.kdeSystemTrayWindowFor, XA_WINDOW, whole)
  {
    if !Has(exStyle, WS_EX_TRAYWINDOW) then []
    else
      (if atoms.kwmDockWindow != 0 then [ChangeProperty32(whole, atoms.kwmDockWindow, atoms.kwmDockWindow, 1)] else [])
      + (if atoms.kdeSystemTrayWindowFor != 0
         then [ChangeProperty32(whole, atoms.kdeSystemTrayWindowFor, XA_WINDOW, whole)] else [])
  }

  /**
   * The calls set_wm_hints starts with: WM_PROTOCOLS, the class hint, and
   * for an owned window the transient-for hint naming the owner's whole window.
   */
  function IdentityEffects(atoms: Atoms, owner: HWND, whole: XWindow, ownerWindow: XWindow): (e: seq<Effect>)
    ensures |e| == (if owner != 0 then 3 else 2)
    ensures e[0] == SetWMProtocols(whole, Protocols(atoms.wmDeleteWindow, atoms.wmTakeFocus))
    ensures e[1] == SetClassHint(whole, "wine", "Wine")
    ensures owner != 0 ==> e[2] == SetTransientForHint(whole, ownerWindow)
  {
    [SetWMProtocols(whole, Protocols(atoms.wmDeleteWindow, atoms.wmTakeFocus)), SetClassHint(whole, "wine", "Wine")]
    + (if owner != 0 then [SetTransientForHint(whole, ownerWindow)] else [])
  }

  /**
   * The calls set_wm_hints makes after WM_NORMAL_HINTS: the tray properties,
   * then the Motif hints when the window manager understands them.
   */
  function DecorationEffects(atoms: Atoms, style: Style, exStyle: Style, whole: XWindow): (e: seq<Effect>)
    ensures atoms.mwmHints == 0 ==> e == TrayEffects(atoms, whole, exStyle)
    ensures atoms.mwmHints != 0 ==> e == TrayEffects(atoms, whole, exStyle) + [SetMwmHints(whole, atoms.mwmHints, MwmHintsFor(style, exStyle))]
  {
    TrayEffects(atoms, whole, exStyle)
    + (if atoms.mwmHints != 0 then [SetMwmHints(whole, atoms.mwmHints, MwmHintsFor(style, exStyle))] else [])
  }

  /** The WM_HINTS of a newly created window: base hints, icon part, initial state and group. */
  function WMHintsFor(takeFocus: Atom, style: Style, managed: bool, hasIcon: bool, group: XWindow,
                      iconWindow: XWindow, pixmap: XID, mask: XID): WMHints
  {
    IconHints(BaseWMHints(takeFocus), managed, hasIcon, iconWindow, pixmap, mask)
      .(initialState := InitialState(style), windowGroup := group)
  }

  /**
   * What the window manager learns from WM_HINTS: input, state and group are
   * always given; the window takes input itself unless WM_TAKE_FOCUS is
   * offered; it starts iconic exactly when minimized; and an icon window is
   * offered exactly when a managed window has no class icon, a pixmap exactly
   * when it has one.
   */
  lemma WMHintsForMeaning(takeFocus: Atom, style: Style, managed: bool, hasIcon: bool, group: XWindow,
                          iconWindow: XWindow, pixmap: XID, mask: XID)
    ensures var h := WMHintsFor(takeFocus, style, managed, hasIcon, group, iconWindow, pixmap, mask);
            && {InputHint, StateHint, WindowGroupHint} <= h.flags
            && (h.input <==> takeFocus == 0)
            && (h.initialState == IconicState <==> Has(style, WS_MINIMIZE))
            && h.windowGroup == group
            && !(IconWindowHint in h.flags && IconPixmapHint in h.flags)
            && (IconWindowHint in h.flags <==> managed && !hasIcon)
            && (IconPixmapHint in h.flags <==> managed && hasIcon)
            && (managed && !hasIcon ==> h.iconWindow == iconWindow)
            && (managed && hasIcon ==> h.iconPixmap == pixmap && h.iconMask == mask)
  {
  }

  /**
   * The first part of set_wm_hints, done under the X lock: protocols,
   * class, transient-for hint, WM_NORMAL_HINTS, tray properties and Motif
   * hints.  Returns the group leader: the owner's whole window for an owned
   * window, the window itself otherwise.
   */
  method SetManagerProperties(d: Display, win: Wnd, data: WinData, ownerWindow: XWindow) returns (groupLeader: XWindow)
    requires win.data == data
    modifies d`effects
    ensures groupLeader == GroupLeader(win.owner, ownerWindow, data.wholeWindow)
    ensures d.effects == old(d.effects) + IdentityEffects(d.atoms, win.owner, data.wholeWindow, ownerWindow)
              + [SetWMNormalHints(data.wholeWindow, SizeHintsFor(win.style, win.exStyle, data.wholeRect))]
              + DecorationEffects(d.atoms, win.style, win.exStyle, data.wholeWindow)
  {
    var whole := data.wholeWindow;
    d.effects := d.effects + IdentityEffects(d.atoms, win.owner, whole, ownerWindow);
    groupLeader := if win.owner != 0 then ownerWindow else whole;
    SetSizeHints(d, win);
    d.effects := d.effects + DecorationEffects(d.atoms, win.style, win.exStyle, whole);
  }

  /**
   * The log after set_wm_hints, from the log `before` it: the identity
   * hints, WM_NORMAL_HINTS, the decoration hints, the release of the old
   * icon bitmaps, the icon window calls and WM_HINTS last.  Nothing already
   * logged is changed.
   */
  function AfterWmHints(before: seq<Effect>, d: Display, atoms: Atoms, hwnd: HWND, owner: HWND, ownerWindow: XWindow,
                        style: Style, exStyle: Style, hasIcon: bool, whole: XWindow, wholeRect: Rect,
                        bitmap: Handle, mask: Handle, iconWindow: XWindow, nextXid: XWindow,
                        newIconWindow: XWindow, ii: IconInfo): (e: seq<Effect>)
    ensures before <= e && |e| > |before|
    ensures e[|e| - 1] == SetWMHints(whole, WMHintsFor(atoms.wmTakeFocus, style, Has(exStyle, WS_EX_MANAGED), hasIcon,
                                                       GroupLeader(owner, ownerWindow, whole),
                                                       newIconWindow, ii.colorPixmap, ii.maskPixmap))
  {
    before
    + IdentityEffects(atoms, owner, whole, ownerWindow)
    + [SetWMNormalHints(whole, SizeHintsFor(style, exStyle, wholeRect))]
    + DecorationEffects(atoms, style, exStyle, whole)
    + ReleaseIcon(bitmap, mask)
    + IconWindowEffects(d, hwnd, iconWindow, Has(exStyle, WS_EX_MANAGED), hasIcon, nextXid)
    + [SetWMHints(whole, WMHintsFor(atoms.wmTakeFocus, style, Has(exStyle, WS_EX_MANAGED), hasIcon,
                                    GroupLeader(owner, ownerWindow, whole), newIconWindow, ii.colorPixmap, ii.maskPixmap))]
  }

  /**
   * set_wm_hints: sends every window-manager hint of a newly created
   * top-level window, WM_HINTS last.  `ownerWindow` is the whole window of
   * its owner.
   */
  method SetWmHints(d: Display, win: Wnd, data: WinData, ownerWindow: XWindow, ii: IconInfo)
    requires d.Valid() && win.data == data
    requires IconRegistered(d, win, data)
    modifies d`nextXid, d`context, d`effects, data`iconWindow, data`iconBitmap, data`iconMask
    ensures d.Valid() && IconRegistered(d, win, data) && IconExclusive(data)
    ensures data.iconWindow != 0 <==> Has(win.exStyle, WS_EX_MANAGED) && win.classIcon == 0
    ensures data.iconWindow == IconWindowAfter(old(data.iconWindow), Has(win.exStyle, WS_EX_MANAGED),
                                               win.classIcon != 0, old(d.nextXid))
    ensures d.context == IconContext(old(d.context), win.hwnd, old(data.iconWindow), Has(win.exStyle, WS_EX_MANAGED),
                                     win.classIcon != 0, old(d.nextXid))
    ensures d.nextXid == if Has(win.exStyle, WS_EX_MANAGED) && win.classIcon == 0 && old(data.iconWindow) == 0
                         then old(d.nextXid) + 1 else old(d.nextXid)
    ensures (data.iconBitmap, data.iconMask)
         == (if Has(win.exStyle, WS_EX_MANAGED) && win.classIcon != 0 then (ii.color, ii.mask) else (0, 0))
    ensures d.effects == AfterWmHints(old(d.effects), d, old(d.atoms), win.hwnd, old(win.owner), ownerWindow,
                                      old(win.style), old(win.exStyle), old(win.classIcon) != 0, old(data.wholeWindow),
                                      old(data.wholeRect), old(data.iconBitmap), old(data.iconMask),
                                      old(data.iconWindow), old(d.nextXid), data.iconWindow, ii)
  {
    var groupLeader := SetManagerProperties(d, win, data, ownerWindow);
    var hints := BaseWMHints(d.atoms.wmTakeFocus);
    hints := SetIconHints(d, win, data, hints, ii);
    hints := hints.(initialState := InitialState(win.style), windowGroup := groupLeader);
    d.effects := d.effects + [SetWMHints(data.wholeWindow, hints)];
  }

  /**
   * X11DRV_set_iconic_state: shows or hides the client window, merges the
   * iconic state into the window's current WM_HINTS (`current`, or fresh
   * hints when the window has none), and iconifies or maps a visible window.
   */
  method SetIconicState(d: Display, win: Wnd, current: Option<WMHints>)
    requires win.data != null
    modifies d`effects
    ensures var iconic := Has(win.style, WS_MINIMIZE);
            var base := if current.Some? then current.value else BlankWMHints;
            d.effects == old(d.effects)
              + (if iconic then [UnmapWindow(win.data.clientWindow)]
                 else if IsClientWindowMapped(win.style, win.data.clientRect) then [MapWindow(win.data.clientWindow)]
                 else [])
              + [SetWMHints(win.data.wholeWindow, MergeIconicState(base, iconic, win.rectWindow))]
              + (if !Has(win.style, WS_VISIBLE) then []
                 else if iconic then [IconifyWindow(win.data.wholeWindow)]
                 else if !IsEmpty(win.rectWindow) then [MapWindow(win.data.wholeWindow)]
                 else [])
  {
    var data := win.data;
    var iconic := Has(win.style, WS_MINIMIZE);
    ghost var e0 := d.effects;

    if iconic {
      d.effects := d.effects + [UnmapWindow(data.clientWindow)];
    } else if IsClientWindowMapped(win.style, data.clientRect) {
      d.effects := d.effects + [MapWindow(data.clientWindow)];
    }

    var hints := if current.Some? then current.value else BlankWMHints;
    hints := hints.(flags := hints.flags + {StateHint, IconPositionHint});
    hints := hints.(initialState := if iconic then IconicState else NormalState);
    hints := hints.(iconX := win.rectWindow.left, iconY := win.rectWindow.top);
    d.effects := d.effects + [SetWMHints(data.wholeWindow, hints)];

    if Has(win.style, WS_VISIBLE) {
      if iconic {
        d.effects := d.effects + [IconifyWindow(data.wholeWindow)];
      } else if !IsEmpty(win.rectWindow) {
        d.effects := d.effects + [MapWindow(data.wholeWindow)];
      }
    }
  }
}
