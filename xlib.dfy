/**
 * The X11 side: identifiers, the request structures the driver fills in and
 * the named bits of their masks (Xlib, the ICCCM and the Motif window
 * manager conventions).  A mask is modelled as the set of the bits it has;
 * `Bit()` gives each bit's value on the wire.
 */
module Xlib {

  /** An X window identifier; 0 is None. */
  type XWindow = nat
  /** An interned atom; 0 is None. */
  type Atom = nat
  /** A pixmap, cursor or colormap identifier; 0 is None. */
  type XID = nat

  /** The value-mask bits of XConfigureWindow (XWindowChanges). */
  datatype ConfigureField = CWX | CWY | CWWidth | CWHeight | CWSibling | CWStackMode {
    function Bit(): nat {
      match this
      case CWX => 0x01
      case CWY => 0x02
      case CWWidth => 0x04
      case CWHeight => 0x08
      case CWSibling => 0x20
      case CWStackMode => 0x40
    }
  }

  /** The value-mask bits of XCreateWindow and XChangeWindowAttributes (XSetWindowAttributes). */
  datatype AttributeField = CWBitGravity | CWWinGravity | CWBackingStore | CWOverrideRedirect
                          | CWSaveUnder | CWEventMask | CWColormap | CWCursor {
    function Bit(): nat {
      match this
      case CWBitGravity => 0x0010
      case CWWinGravity => 0x0020
      case CWBackingStore => 0x0040
      case CWOverrideRedirect => 0x0200
      case CWSaveUnder => 0x0400
      case CWEventMask => 0x0800
      case CWColormap => 0x2000
      case CWCursor => 0x4000
    }
  }

  /** The event-mask bits the driver selects. */
  datatype EventKind = KeyPressMask | KeyReleaseMask | ButtonPressMask | ButtonReleaseMask
                     | PointerMotionMask | KeymapStateMask | ExposureMask | StructureNotifyMask
                     | FocusChangeMask {
    function Bit(): nat {
      match this
      case KeyPressMask => 0x0000_0001
      case KeyReleaseMask => 0x0000_0002
      case ButtonPressMask => 0x0000_0004
      case ButtonReleaseMask => 0x0000_0008
      case PointerMotionMask => 0x0000_0040
      case KeymapStateMask => 0x0000_4000
      case ExposureMask => 0x0000_8000
      case StructureNotifyMask => 0x0002_0000
      case FocusChangeMask => 0x0020_0000
    }
  }

  /** The XSizeHints flags the driver uses (WM_NORMAL_HINTS, section 4.1.2.3 of the ICCCM). */
  datatype SizeHintFlag = PPosition | PMinSize | PMaxSize | PWinGravity {
    function Bit(): nat {
      match this
      case PPosition => 0x004
      case PMinSize => 0x010
      case PMaxSize => 0x020
      case PWinGravity => 0x200
    }
  }

  /** The XWMHints flags (WM_HINTS, section 4.1.2.4 of the ICCCM). */
  datatype WMHintFlag = InputHint | StateHint | IconPixmapHint | IconWindowHint
                      | IconPositionHint | IconMaskHint | WindowGroupHint | UrgencyHint {
    function Bit(): nat {
      match this
      case InputHint => 0x01
      case StateHint => 0x02
      case IconPixmapHint => 0x04
      case IconWindowHint => 0x08
      case IconPositionHint => 0x10
      case IconMaskHint => 0x20
      case WindowGroupHint => 0x40
      case UrgencyHint => 0x100
    }
  }

  /**
   * Different named bits of one mask have different values on the wire, so
   * a mask is determined by the set of its named bits.
   */
  lemma MaskBitsDistinct()
    ensures forall a: ConfigureField, b: ConfigureField :: a.Bit() == b.Bit() ==> a == b
    ensures forall a: AttributeField, b: AttributeField :: a.Bit() == b.Bit() ==> a == b
    ensures forall a: EventKind, b: EventKind :: a.Bit() == b.Bit() ==> a == b
    ensures forall a: SizeHintFlag, b: SizeHintFlag :: a.Bit() == b.Bit() ==> a == b
    ensures forall a: WMHintFlag, b: WMHintFlag :: a.Bit() == b.Bit() ==> a == b
    ensures forall a: MwmField, b: MwmField :: a.Bit() == b.Bit() ==> a == b
    ensures forall a: MwmFunction, b: MwmFunction :: a.Bit() == b.Bit() ==> a == b
    ensures forall a: MwmDecoration, b: MwmDecoration :: a.Bit() == b.Bit() ==> a == b
  {
  }

  /** The three icon flags of WM_HINTS. */
  const IconFlags: set<WMHintFlag> := {IconPixmapHint, IconWindowHint, IconMaskHint}

  // stacking modes
  const Above: int := 0
  const Below: int := 1

  // gravities and backing store
  const ForgetGravity: int    := 0
  const NorthWestGravity: int := 1
  const StaticGravity: int    := 10
  const NotUseful: int        := 0

  // initial states (section 4.1.3.1 of the ICCCM)
  const NormalState: int := 1
  const IconicState: int := 3

  /** Which fields of _MOTIF_WM_HINTS are given. */
  datatype MwmField = MwmHintsFunctions | MwmHintsDecorations {
    function Bit(): nat {
      match this
      case MwmHintsFunctions => 0x01
      case MwmHintsDecorations => 0x02
    }
  }

  /** The Motif window manager functions (what the user may do to the window). */
  datatype MwmFunction = MwmFuncResize | MwmFuncMove | MwmFuncMinimize | MwmFuncMaximize | MwmFuncClose {
    function Bit(): nat {
      match this
      case MwmFuncResize => 0x02
      case MwmFuncMove => 0x04
      case MwmFuncMinimize => 0x08
      case MwmFuncMaximize => 0x10
      case MwmFuncClose => 0x20
    }
  }

  /** The Motif window manager decorations. */
  datatype MwmDecoration = MwmDecorBorder | MwmDecorResizeH | MwmDecorTitle | MwmDecorMenu
                         | MwmDecorMinimize | MwmDecorMaximize {
    function Bit(): nat {
      match this
      case MwmDecorBorder => 0x02
      case MwmDecorResizeH => 0x04
      case MwmDecorTitle => 0x08
      case MwmDecorMenu => 0x10
      case MwmDecorMinimize => 0x20
      case MwmDecorMaximize => 0x40
    }
  }

  /** The predefined atom WINDOW. */
  const XA_WINDOW: Atom := 33

  /** XWindowChanges: only the fields named by the accompanying mask are meaningful. */
  datatype WindowChanges = WindowChanges(x: int, y: int, width: int, height: int,
                                         sibling: XWindow, stackMode: int)

  /** An XWindowChanges structure on the stack before anything is written to it. */
  const BlankChanges := WindowChanges(0, 0, 0, 0, 0, 0)

  /** XSetWindowAttributes, restricted to the fields the driver writes. */
  datatype WindowAttributes = WindowAttributes(
    overrideRedirect: bool, saveUnder: bool, eventMask: set<EventKind>,
    colormap: XID, cursor: XID,
    bitGravity: int, winGravity: int, backingStore: int)

  const BlankAttributes := WindowAttributes(false, false, {}, 0, 0, 0, 0, 0)

  /** XSizeHints, restricted to the fields the driver writes. */
  datatype SizeHints = SizeHints(flags: set<SizeHintFlag>, x: int, y: int,
                                 minWidth: int, minHeight: int, maxWidth: int, maxHeight: int,
                                 winGravity: int)

  /** What XAllocSizeHints returns: every field zero. */
  const BlankSizeHints := SizeHints({}, 0, 0, 0, 0, 0, 0, 0)

  /** XWMHints. */
  datatype WMHints = WMHints(flags: set<WMHintFlag>, input: bool, initialState: int,
                             iconPixmap: XID, iconWindow: XWindow, iconX: int, iconY: int,
                             iconMask: XID, windowGroup: XWindow)

  /** What XAllocWMHints returns: every field zero. */
  const BlankWMHints := WMHints({}, false, 0, 0, 0, 0, 0, 0, 0)

  /** The _MOTIF_WM_HINTS property as the driver fills it. */
  datatype MwmHints = MwmHints(flags: set<MwmField>, functions: set<MwmFunction>, decorations: set<MwmDecoration>)
}
