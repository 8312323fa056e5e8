/**
 * The window-manager policy of the X11 driver as pure functions of style
 * words and rectangles: which windows the window manager decorates, the
 * attributes an X window is created with, and the contents of the
 * WM_NORMAL_HINTS, WM_HINTS and _MOTIF_WM_HINTS properties.
 */
module Policy {
  import opened Win32
  import opened Xlib
  import opened Geometry

  /** A full caption: both WS_BORDER and WS_DLGFRAME. */
  predicate HasCaption(style: Style) {
    WS_CAPTION <= style
  }

  /** HAS_DLGFRAME: a frame the user cannot resize. */
  predicate HasDlgFrame(style: Style, exStyle: Style) {
    Has(exStyle, WS_EX_DLGMODALFRAME) || (Has(style, WS_DLGFRAME) && !Has(style, WS_THICKFRAME))
  }

  /**
   * is_window_managed: whether the window manager should decorate the window.
   * The decisions are taken in order; the ensures clause states the same
   * decision as one formula.
   */
  function IsWindowManaged(managedMode: bool, style: Style, exStyle: Style): (managed: bool)
    ensures managed <==>
      managedMode &&
      (Has(exStyle, WS_EX_TRAYWINDOW) ||
       (!Has(style, WS_CHILD) && !Has(exStyle, WS_EX_TOOLWINDOW) &&
        (HasCaption(style) || Has(style, WS_THICKFRAME))))
  {
    if !managedMode then false
    else if Has(exStyle, WS_EX_TRAYWINDOW) then true    // tray windows are always managed
    else if Has(style, WS_CHILD) then false             // child windows are not
    else if Has(exStyle, WS_EX_TOOLWINDOW) then false   // nor are tool windows
    else if HasCaption(style) then true
    else if Has(style, WS_THICKFRAME) then true
    else false
  }

  /** The WS_EX_MANAGED bit that the driver itself keeps never influences the decision. */
  lemma ManagedIgnoresManagedBit(managedMode: bool, style: Style, a: Style, b: Style)
    requires a - {WS_EX_MANAGED} == b - {WS_EX_MANAGED}
    ensures IsWindowManaged(managedMode, style, a) == IsWindowManaged(managedMode, style, b)
  {
    assert WS_EX_TRAYWINDOW in a <==> WS_EX_TRAYWINDOW in a - {WS_EX_MANAGED};
    assert WS_EX_TOOLWINDOW in a <==> WS_EX_TOOLWINDOW in a - {WS_EX_MANAGED};
  }

  /** Events every X window of the driver selects. */
  const BaseEventMask: set<EventKind> :=
    {ExposureMask, KeyPressMask, KeyReleaseMask, PointerMotionMask, ButtonPressMask, ButtonReleaseMask}

  /** Events selected in addition on top-level windows. */
  const TopLevelEventMask: set<EventKind> := {StructureNotifyMask, FocusChangeMask, KeymapStateMask}

  /** The attribute fields get_window_attributes fills in. */
  const AttributeMask: set<AttributeField> := {CWOverrideRedirect, CWSaveUnder, CWEventMask, CWColormap, CWCursor}

  /** What get_window_attributes produces: the attributes, their mask and the new extended style. */
  datatype AttributeSetup = AttributeSetup(attrs: WindowAttributes, mask: set<AttributeField>, exStyle: Style)

  /**
   * get_window_attributes: only a top-level window can be managed; the
   * WS_EX_MANAGED bit is set or cleared to record the decision, and a
   * window that is not managed bypasses the window manager (override-redirect).
   * `cursor` is what the cursor lookup answers for the window's cursor.
   */
  function GetWindowAttributes(topLevel: bool, managedMode: bool, style: Style, exStyle: Style,
                               clsStyle: Style, colormap: XID, cursor: XID): (r: AttributeSetup)
    ensures Has(r.exStyle, WS_EX_MANAGED) <==> topLevel && IsWindowManaged(managedMode, style, exStyle)
    ensures r.exStyle - {WS_EX_MANAGED} == exStyle - {WS_EX_MANAGED}
    ensures r.attrs.overrideRedirect <==> !Has(r.exStyle, WS_EX_MANAGED)
    ensures r.attrs.saveUnder <==> Has(clsStyle, CS_SAVEBITS)
    ensures BaseEventMask <= r.attrs.eventMask <= BaseEventMask + TopLevelEventMask
    ensures TopLevelEventMask <= r.attrs.eventMask <==> topLevel
    ensures r.attrs.eventMask * TopLevelEventMask == {} <==> !topLevel
    ensures r.attrs.colormap == colormap
    ensures r.attrs.cursor == (if topLevel then cursor else 0)
    ensures r.mask == AttributeMask
  {
    var managed := topLevel && IsWindowManaged(managedMode, style, exStyle);
    var attrs := BlankAttributes.(
      overrideRedirect := !managed,
      colormap := colormap,
      saveUnder := Has(clsStyle, CS_SAVEBITS),
      cursor := if topLevel then cursor else 0,
      eventMask := if topLevel then BaseEventMask + TopLevelEventMask else BaseEventMask);
    AttributeSetup(attrs, AttributeMask, WithManagedBit(exStyle, managed))
  }

  /** The extended style with the WS_EX_MANAGED bit set to `managed`. */
  function WithManagedBit(exStyle: Style, managed: bool): (ex: Style)
    ensures Has(ex, WS_EX_MANAGED) == managed
    ensures ex - {WS_EX_MANAGED} == exStyle - {WS_EX_MANAGED}
  {
    if managed then exStyle + {WS_EX_MANAGED} else exStyle - {WS_EX_MANAGED}
  }

  /** Setting the bit to what it already is changes nothing. */
  lemma WithManagedBitIdempotent(exStyle: Style, managed: bool)
    ensures WithManagedBit(WithManagedBit(exStyle, managed), managed) == WithManagedBit(exStyle, managed)
  {
  }

  /**
   * Recomputing the attributes from the extended style they produced gives
   * the same result: a second style synchronisation changes nothing.
   */
  lemma {:induction false} GetWindowAttributesStable(topLevel: bool, managedMode: bool, style: Style,
                                                     exStyle: Style, clsStyle: Style, colormap: XID, cursor: XID)
    ensures var r := GetWindowAttributes(topLevel, managedMode, style, exStyle, clsStyle, colormap, cursor);
            GetWindowAttributes(topLevel, managedMode, style, r.exStyle, clsStyle, colormap, cursor) == r
  {
    var managed := topLevel && IsWindowManaged(managedMode, style, exStyle);
    var ex := WithManagedBit(exStyle, managed);
    ManagedIgnoresManagedBit(managedMode, style, exStyle, ex);
    WithManagedBitIdempotent(exStyle, managed);
  }

  /**
   * The Motif functions the window manager may offer for a style: a window
   * can be moved when it has a caption or a thick frame, resized when it has
   * a thick frame, and minimized, maximized or closed when its style says so.
   */
  function MwmFunctions(style: Style): (f: set<MwmFunction>)
    ensures MwmFuncMove in f <==> HasCaption(style) || Has(style, WS_THICKFRAME)
    ensures MwmFuncResize in f <==> Has(style, WS_THICKFRAME)
    ensures MwmFuncMinimize in f <==> Has(style, WS_MINIMIZE)
    ensures MwmFuncMaximize in f <==> Has(style, WS_MAXIMIZE)
    ensures MwmFuncClose in f <==> Has(style, WS_SYSMENU)
  {
    (if HasCaption(style) then {MwmFuncMove} else {})
    + (if Has(style, WS_THICKFRAME) then {MwmFuncMove, MwmFuncResize} else {})
    + (if Has(style, WS_MINIMIZE) then {MwmFuncMinimize} else {})
    + (if Has(style, WS_MAXIMIZE) then {MwmFuncMaximize} else {})
    + (if Has(style, WS_SYSMENU) then {MwmFuncClose} else {})
  }

  /**
   * The border decoration, from the first matching case of a chain of tests.
   * The chain collapses to: a border for a modal frame, any frame or border
   * bit, or an overlapped window; a resize handle only for a thick frame
   * without a modal frame.
   */
  function MwmBorder(style: Style, exStyle: Style): (b: set<MwmDecoration>)
    ensures MwmDecorBorder in b <==>
              Has(exStyle, WS_EX_DLGMODALFRAME) || Has(style, WS_THICKFRAME) || Has(style, WS_DLGFRAME) ||
              Has(style, WS_BORDER) || !(Has(style, WS_CHILD) || Has(style, WS_POPUP))
    ensures MwmDecorResizeH in b <==> !Has(exStyle, WS_EX_DLGMODALFRAME) && Has(style, WS_THICKFRAME)
    ensures b <= {MwmDecorBorder, MwmDecorResizeH}
  {
    if Has(exStyle, WS_EX_DLGMODALFRAME) then {MwmDecorBorder}
    else if Has(style, WS_THICKFRAME) then {MwmDecorBorder, MwmDecorResizeH}
    else if Has(style, WS_DLGFRAME) && !Has(style, WS_BORDER) then {MwmDecorBorder}
    else if Has(style, WS_BORDER) then {MwmDecorBorder}
    else if !(Has(style, WS_CHILD) || Has(style, WS_POPUP)) then {MwmDecorBorder}
    else {}
  }

  /**
   * The Motif decorations for a style: a title exactly for a caption, border
   * and resize handle as MwmBorder says, and a window menu, minimize and
   * maximize boxes exactly when the style has them.
   */
  function MwmDecorations(style: Style, exStyle: Style): (d: set<MwmDecoration>)
    ensures MwmDecorTitle in d <==> HasCaption(style)
    ensures MwmDecorBorder in d <==> MwmDecorBorder in MwmBorder(style, exStyle)
    ensures MwmDecorResizeH in d <==> MwmDecorResizeH in MwmBorder(style, exStyle)
    ensures MwmDecorMenu in d <==> Has(style, WS_SYSMENU)
    ensures MwmDecorMinimize in d <==> Has(style, WS_MINIMIZE)
    ensures MwmDecorMaximize in d <==> Has(style, WS_MAXIMIZE)
  {
    (if HasCaption(style) then {MwmDecorTitle} else {})
    + MwmBorder(style, exStyle)
    + (if Has(style, WS_SYSMENU) then {MwmDecorMenu} else {})
    + (if Has(style, WS_MINIMIZE) then {MwmDecorMinimize} else {})
    + (if Has(style, WS_MAXIMIZE) then {MwmDecorMaximize} else {})
  }

  /** The _MOTIF_WM_HINTS property: both the functions and the decorations fields are given. */
  function MwmHintsFor(style: Style, exStyle: Style): (m: MwmHints)
    ensures m.flags == {MwmHintsFunctions, MwmHintsDecorations}
    ensures m.functions == MwmFunctions(style) && m.decorations == MwmDecorations(style, exStyle)
  {
    MwmHints({MwmHintsFunctions, MwmHintsDecorations}, MwmFunctions(style), MwmDecorations(style, exStyle))
  }

  /**
   * set_size_hints: WM_NORMAL_HINTS for a whole window.  The position is
   * always the whole rectangle's origin with static gravity; a dialog frame
   * pins the minimum and maximum size to the current size, and without one
   * no size limit is given.
   */
  function SizeHintsFor(style: Style, exStyle: Style, whole: Rect): (h: SizeHints)
    ensures h.winGravity == StaticGravity
    ensures h.x == whole.left && h.y == whole.top
    ensures h.flags == {PWinGravity, PPosition} + (if HasDlgFrame(style, exStyle) then {PMinSize, PMaxSize} else {})
    ensures HasDlgFrame(style, exStyle) ==>
              h.minWidth == h.maxWidth == whole.Width() && h.minHeight == h.maxHeight == whole.Height()
    ensures !HasDlgFrame(style, exStyle) ==> h.minWidth == h.maxWidth == h.minHeight == h.maxHeight == 0
  {
    var h := BlankSizeHints.(winGravity := StaticGravity, x := whole.left, y := whole.top,
                             flags := {PWinGravity, PPosition});
    if HasDlgFrame(style, exStyle) then
      h.(maxWidth := whole.Width(), maxHeight := whole.Height(),
         minWidth := whole.Width(), minHeight := whole.Height(),
         flags := h.flags + {PMinSize, PMaxSize})
    else h
  }

  /**
   * The WM_PROTOCOLS list: WM_DELETE_WINDOW always, WM_TAKE_FOCUS when the
   * driver supports it (section 4.1.2.7 of the ICCCM).
   */
  function Protocols(deleteWindow: Atom, takeFocus: Atom): (p: seq<Atom>)
    ensures |p| >= 1 && p[0] == deleteWindow
    ensures |p| == 2 <==> takeFocus != 0
    ensures |p| <= 2 && (|p| == 2 ==> p[1] == takeFocus)
  {
    [deleteWindow] + (if takeFocus != 0 then [takeFocus] else [])
  }

  /**
   * The window group (and transient-for target) of a top-level window: the
   * owner's whole window if it has an owner, else the window itself
   * (section 4.1.2.6 of the ICCCM).
   */
  function GroupLeader(owner: HWND, ownerWindow: XWindow, whole: XWindow): (g: XWindow)
    ensures owner != 0 ==> g == ownerWindow
    ensures owner == 0 ==> g == whole
  {
    if owner != 0 then ownerWindow else whole
  }

  /**
   * The WM_HINTS set_wm_hints starts from: input, state and group are given;
   * with WM_TAKE_FOCUS the input field is False (globally active input),
   * without it True (passive input), section 4.1.7 of the ICCCM.
   */
  function BaseWMHints(takeFocus: Atom): (h: WMHints)
    ensures h.flags == {InputHint, StateHint, WindowGroupHint}
    ensures h.input <==> takeFocus == 0
    ensures h.(flags := {}, input := false) == BlankWMHints
  {
    BlankWMHints.(flags := {InputHint, StateHint, WindowGroupHint}, input := takeFocus == 0)
  }

  /** The initial state of a window: iconic when minimized. */
  function InitialState(style: Style): (s: int)
    ensures s == IconicState <==> Has(style, WS_MINIMIZE)
    ensures s == NormalState || s == IconicState
  {
    if Has(style, WS_MINIMIZE) then IconicState else NormalState
  }

  /** Two hints agree on every field set_icon_hints does not touch (flags aside). */
  predicate SameButIcon(h: WMHints, k: WMHints) {
    h.input == k.input && h.initialState == k.initialState &&
    h.iconX == k.iconX && h.iconY == k.iconY && h.windowGroup == k.windowGroup
  }

  /**
   * The icon flags set_icon_hints leaves: none for an unmanaged window, the
   * icon window for a managed one without a class icon, pixmap and mask for
   * one with; the other flags are kept.
   */
  function IconFlagUpdate(flags: set<WMHintFlag>, managed: bool, hasIcon: bool): (f: set<WMHintFlag>)
    ensures f - IconFlags == flags - IconFlags
    ensures !managed ==> f * IconFlags == {}
    ensures managed && !hasIcon ==> f * IconFlags == {IconWindowHint}
    ensures managed && hasIcon ==> f * IconFlags == {IconPixmapHint, IconMaskHint}
    ensures !(IconWindowHint in f && IconPixmapHint in f)
  {
    if !managed then flags - {IconPixmapHint, IconMaskHint, IconWindowHint}
    else if !hasIcon then flags - {IconPixmapHint, IconMaskHint} + {IconWindowHint}
    else flags - {IconWindowHint} + {IconPixmapHint, IconMaskHint}
  }

  /**
   * The icon part of set_icon_hints.  An unmanaged window gets no icon
   * flags; a managed window without a class icon shows `iconWindow`; a
   * managed window with one shows the pixmap and its mask.  The display
   * through an icon window and through a pixmap exclude each other, and
   * nothing else in the hints changes.
   */
  function IconHints(hints: WMHints, managed: bool, hasIcon: bool,
                     iconWindow: XWindow, pixmap: XID, mask: XID): (h: WMHints)
    ensures h.flags == IconFlagUpdate(hints.flags, managed, hasIcon)
    ensures SameButIcon(h, hints)
    ensures managed && !hasIcon ==> h.iconWindow == iconWindow
    ensures managed && hasIcon ==> h.iconPixmap == pixmap && h.iconMask == mask
    ensures !(managed && !hasIcon) ==> h.iconWindow == hints.iconWindow
    ensures !(managed && hasIcon) ==> h.iconPixmap == hints.iconPixmap && h.iconMask == hints.iconMask
  {
    var flags := IconFlagUpdate(hints.flags, managed, hasIcon);
    if !managed then hints.(flags := flags)
    else if !hasIcon then hints.(iconWindow := iconWindow, flags := flags)
    else hints.(iconPixmap := pixmap, iconMask := mask, flags := flags)
  }

  /**
   * Setting an icon and then removing it: the first update shows the pixmap
   * and mask, the second the icon window; neither shows both.
   */
  lemma {:induction false} IconThenNoIcon(hints: WMHints, iconWindow: XWindow, pixmap: XID, mask: XID)
    ensures var first := IconHints(hints, true, true, 0, pixmap, mask);
            var second := IconHints(first, true, false, iconWindow, 0, 0);
            && first.flags * IconFlags == {IconPixmapHint, IconMaskHint}
            && second.flags * IconFlags == {IconWindowHint}
            && second.iconWindow == iconWindow
            && second.flags - IconFlags == hints.flags - IconFlags
            && SameButIcon(second, hints)
  {
    var first := IconHints(hints, true, true, 0, pixmap, mask);
    var second := IconHints(first, true, false, iconWindow, 0, 0);
    assert SameButIcon(first, hints) && SameButIcon(second, first);
  }

  /**
   * The hint merge of X11DRV_set_iconic_state: state and icon position are
   * given, the state follows the iconic flag, the icon sits at the window's
   * origin, and every other field of the existing hints is kept.
   */
  function MergeIconicState(current: WMHints, iconic: bool, window: Rect): (h: WMHints)
    ensures h.flags == current.flags + {StateHint, IconPositionHint}
    ensures h.initialState == (if iconic then IconicState else NormalState)
    ensures h.iconX == window.left && h.iconY == window.top
    ensures h.(flags := current.flags, initialState := current.initialState,
               iconX := current.iconX, iconY := current.iconY) == current
  {
    current.(flags := current.flags + {StateHint, IconPositionHint},
             initialState := if iconic then IconicState else NormalState,
             iconX := window.left, iconY := window.top)
  }

  /** Merging the same state twice is the same as merging it once. */
  lemma {:induction false} MergeIconicStateIdempotent(current: WMHints, iconic: bool, window: Rect)
    ensures MergeIconicState(MergeIconicState(current, iconic, window), iconic, window)
         == MergeIconicState(current, iconic, window)
  {
    var once := MergeIconicState(current, iconic, window);
    assert once.flags + {StateHint, IconPositionHint} == once.flags;
  }

  /** What the host's minimum/maximum tracking query answers (WM_GETMINMAXINFO). */
  datatype MinMaxInfo = MinMaxInfo(maxSizeX: int, maxSizeY: int, minTrackX: int, minTrackY: int)

  /** Whether window creation asks for the minimum/maximum tracking sizes. */
  predicate WantsMinMaxInfo(style: Style) {
    Has(style, WS_THICKFRAME) || !(Has(style, WS_POPUP) || Has(style, WS_CHILD))
  }

  /** The first clamp of a requested width or height: at most 65535. */
  function CapRequested(n: int): (r: int)
    ensures r <= MAX_CREATE_EXTENT
    ensures n <= MAX_CREATE_EXTENT ==> r == n
    ensures n > MAX_CREATE_EXTENT ==> r == MAX_CREATE_EXTENT
  {
    if n > MAX_CREATE_EXTENT then MAX_CREATE_EXTENT else n
  }

  /**
   * The second clamp, with the tracking sizes: capped at the maximized size,
   * then raised to the minimum tracking size, then floored at 0.  When the
   * two bounds conflict, the minimum wins.
   */
  function TrackSize(n: int, maxSize: int, minTrack: int): (r: int)
    ensures r >= 0 && r >= minTrack
    ensures minTrack <= maxSize && 0 <= maxSize ==> r <= maxSize
    ensures minTrack <= n <= maxSize ==> r == (if n < 0 then 0 else n)
    ensures n < minTrack ==> r == (if minTrack < 0 then 0 else minTrack)
    ensures minTrack <= maxSize < n ==> r == (if maxSize < 0 then 0 else maxSize)
    ensures minTrack > maxSize ==> r == (if minTrack < 0 then 0 else minTrack)
  {
    var a := if maxSize < n then maxSize else n;
    var b := if a < minTrack then minTrack else a;
    if b < 0 then 0 else b
  }
}
