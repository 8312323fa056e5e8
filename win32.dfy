/**
 * The Win32 side of the driver: handles, style words and the bits of them
 * that the X11 window policy looks at.  A style, extended-style or
 * class-style word is modelled as the set of its bits that the window code
 * tests; `Bit()` gives each bit's value in the Win32 headers.  WS_EX_MANAGED
 * and WS_EX_TRAYWINDOW are Wine's own extended-style bits, kept in the high
 * word that Win32 leaves unused.
 */
module Win32 {

  /** A window handle; 0 is NULL. */
  type HWND = nat
  /** A GDI object handle (bitmap, icon); 0 is NULL. */
  type Handle = nat

  datatype StyleBit =
    // window styles
    | WS_POPUP | WS_CHILD | WS_MINIMIZE | WS_VISIBLE | WS_MAXIMIZE | WS_BORDER | WS_DLGFRAME
    | WS_VSCROLL | WS_HSCROLL | WS_SYSMENU | WS_THICKFRAME
    // extended window styles
    | WS_EX_DLGMODALFRAME | WS_EX_TOOLWINDOW | WS_EX_MANAGED | WS_EX_TRAYWINDOW
    // class styles
    | CS_VREDRAW | CS_HREDRAW | CS_SAVEBITS
  {
    function Bit(): nat {
      match this
      case WS_POPUP => 0x8000_0000
      case WS_CHILD => 0x4000_0000
      case WS_MINIMIZE => 0x2000_0000
      case WS_VISIBLE => 0x1000_0000
      case WS_MAXIMIZE => 0x0100_0000
      case WS_BORDER => 0x0080_0000
      case WS_DLGFRAME => 0x0040_0000
      case WS_VSCROLL => 0x0020_0000
      case WS_HSCROLL => 0x0010_0000
      case WS_SYSMENU => 0x0008_0000
      case WS_THICKFRAME => 0x0004_0000
      case WS_EX_DLGMODALFRAME => 0x0000_0001
      case WS_EX_TOOLWINDOW => 0x0000_0080
      case WS_EX_MANAGED => 0x4000_0000
      case WS_EX_TRAYWINDOW => 0x8000_0000
      case CS_VREDRAW => 0x0001
      case CS_HREDRAW => 0x0002
      case CS_SAVEBITS => 0x0800
    }
  }

  /** The word a style bit belongs to. */
  datatype StyleWord = WindowStyle | ExtendedStyle | ClassStyle

  /** Which word each bit is tested in. */
  function WordOf(b: StyleBit): StyleWord {
    match b
    case WS_EX_DLGMODALFRAME | WS_EX_TOOLWINDOW | WS_EX_MANAGED | WS_EX_TRAYWINDOW => ExtendedStyle
    case CS_VREDRAW | CS_HREDRAW | CS_SAVEBITS => ClassStyle
    case _ => WindowStyle
  }

  /**
   * Two different bits of the same word have different values, so a word
   * is determined by the set of its bits that are set: modelling a word as
   * that set loses nothing the window code tests.
   */
  lemma StyleBitsDistinct()
    ensures forall a: StyleBit, b: StyleBit :: WordOf(a) == WordOf(b) && a.Bit() == b.Bit() ==> a == b
  {
  }

  /** A style, extended-style or class-style word. */
  type Style = set<StyleBit>

  /** WS_CAPTION is two bits: a border and a dialog frame. */
  const WS_CAPTION: Style := {WS_BORDER, WS_DLGFRAME}

  /** The largest width or height a window may be created with. */
  const MAX_CREATE_EXTENT: int := 65535

  /** `word & bit` is non-zero. */
  predicate Has(word: Style, bit: StyleBit) { bit in word }
}
