# Window-manager policy of Wine's X11 driver (window.c), in Dafny

This project models the part of Wine's X11 driver (`dlls/x11drv/window.c`) that turns the state of a Win32
window into X11 window-manager state:

- which windows the window manager decorates (the `WS_EX_MANAGED` decision);
- the attributes an X window is created with;
- how window rectangles map to X rectangles;
- the change-sets and stacking requests sent when a window moves;
- the WM_NORMAL_HINTS, WM_HINTS, WM_PROTOCOLS, transient-for and `_MOTIF_WM_HINTS` properties (ICCCM sections
  4.1.2.3, 4.1.2.4, 4.1.2.6, 4.1.2.7 and 4.1.7);
- the icon-window / icon-pixmap state machine;
- the life of the driver's per-window data with the X context, the table that maps X windows back to window
  handles.

The model is organised in modules:

| file | module | contents |
|---|---|---|
| `win32.dfy` | `Win32` | window handles and the style bits the driver tests; a style word is the set of its bits |
| `xlib.dfy` | `Xlib` | X identifiers, the request structures, and the named bits of their masks (a mask is a set) |
| `wrappers.dfy` | `Wrappers` | `Option` |
| `geometry.dfy` | `Geometry` | rectangles, the frame conversions, and the change-set of a move |
| `policy.dfy` | `Policy` | pure policy: managed decision, attributes, Motif, size and WM hints, create-size clamps |
| `driver_state.dfy` | `DriverState` | the display with its X context and call log, the host window record, the driver data |
| `hints.dfy` | `Hints` | icon window, `set_icon_hints`, `set_size_hints`, `set_wm_hints`, `X11DRV_set_iconic_state` |
| `sync.dfy` | `Sync` | `sync_window_style` and the whole/client window position sync |
| `lifecycle.dfy` | `Lifecycle` | register, desktop, whole and client window creation, `X11DRV_DestroyWindow`, size clamps |

The code that works on values is modelled with functions. The code that changes state is modelled with
methods on three classes:

- `Display` holds the X context, the interned atoms, the next free X identifier and the log of calls made.
- `Wnd` is the host's window record.
- `WinData` is the driver's per-window data.

The calls that send requests into Xlib, GDI and the host's property table are appended to
`Display.effects` as `Effect` values. Only the order and the arguments of those calls are recorded; what
they do is not modelled. The other calls are not logged:

- `XSaveContext` and `XDeleteContext` update `Display.context`, and `XUniqueContext` resets it to the
  empty map.
- The query calls become parameters: `XInternAtom` the `interned` atoms of `CreateDesktop`,
  `XVisualIDFromVisual` its `visualId`, `XGetWMHints` the `current` hints of `SetIconicState`.
- `XFree` is not logged, and the GDI calls that rasterise the icon mask are not modelled at all.

X window creation is a fresh-identifier oracle, `Display.NewXid(granted)`. When `granted` is false it
returns 0, standing for a failed `XCreateWindow`.

The frame extents that `AdjustWindowRectEx` would compute are the display's `adjust` function, and they
are non-negative. Answers from code outside this file are parameters, namely:

- the cursor;
- the interned atoms and the identifier of the visual;
- the owner's and the parent's X windows;
- `GetIconInfo` and the pixmaps behind it;
- the hints `XGetWMHints` returns;
- the minimum/maximum tracking sizes.

Three points of the code are worth stating:

- **Input model in WM_HINTS.** The code sets the `input` field to `!wmTakeFocus`
  (`dlls/x11drv/window.c:421-423`). Its comment calls this the globally active model of the ICCCM when
  take-focus is supported, and the passive model otherwise. Take-focus is never enabled in this version:
  `create_desktop` sets the atom to 0.
- **Frame-conversion round trip.** `X11DRV_X_to_window_rect` is commented as the opposite of
  `X11DRV_window_to_X_rect`. The two conversions are not inverse for every non-empty rectangle: converting
  to X and back is the identity only when the X rectangle needed no clamping to 1×1.
  `Geometry.ToXThenBack` proves the identity under that condition, `Geometry.RoundTripIdentityIff` proves
  that it holds in no other case, and `Geometry.ClampedRoundTripDiffers` gives a rectangle for which it
  fails.
- **Conversion before the managed bit is updated.** `create_whole_window` converts the window rectangle
  before `get_window_attributes` updates `WS_EX_MANAGED`, so the conversion uses the previous value of that
  bit. The model does the same: `Lifecycle.CreateWholeXWindow` converts with the old extended style.

## Model

| member | source | states |
|---|---|---|
| `Policy.IsWindowManaged` | dlls/x11drv/window.c:74-88 | managed exactly when managed mode is on and the window is a tray window, or is neither a child nor a tool window and has a full caption or a thick frame (the ordered decision as one formula) |
| `DriverState.IsTopLevel` | dlls/x11drv/window.c:96-99 | top-level exactly when the driver's root is the screen's root and the parent is the desktop window |
| `DriverState.IsClientWindowMapped` | dlls/x11drv/window.c:107-111 | the client window shows exactly when the window is not minimized and its client rectangle has positive width and height |
| `Policy.ManagedIgnoresManagedBit` | dlls/x11drv/window.c:74-88 | the decision does not depend on the driver's own `WS_EX_MANAGED` bit |
| `Policy.GetWindowAttributes` | dlls/x11drv/window.c:120-140 | `WS_EX_MANAGED` is set iff top-level and managed, other extended bits kept; override-redirect iff not managed; save-under iff `CS_SAVEBITS`; the base events always, the top-level events iff top-level; cursor only for top-level; the five-field mask |
| `Policy.WithManagedBit` | dlls/x11drv/window.c:125-126 | the bit is set to the decision and no other bit changes |
| `Policy.WithManagedBitIdempotent` | dlls/x11drv/window.c:125-126 | setting the bit twice is setting it once |
| `Policy.GetWindowAttributesStable` | dlls/x11drv/window.c:120-140 | recomputing from the extended style it produced gives the same attributes and style |
| `Sync.SyncWindowStyle` | dlls/x11drv/window.c:148-158 | extended style updated as `GetWindowAttributes` says; the attributes change request and, when a cursor was used, its release are logged |
| `Geometry.ChangeMask` | dlls/x11drv/window.c:166-191 | each of width, height, x, y is in the mask exactly when that field differs; the mask is empty exactly when the rectangles are equal |
| `Geometry.ChangesFor` | dlls/x11drv/window.c:166-191 | a flagged width or height is the new extent with 0 replaced by 1, a flagged x or y the new origin; other fields untouched |
| `Geometry.NonZero` | dlls/x11drv/window.c:171-177 | never 0, and equal to its argument otherwise |
| `Geometry.GetWindowChanges` | dlls/x11drv/window.c:166-191 | the field-by-field update returns `ChangeMask` and `ChangesFor` of the two rectangles |
| `Geometry.ChangesReachTarget` | dlls/x11drv/window.c:166-191 | applying the returned change-set to the old rectangle yields the new one whenever the new one has non-zero extents |
| `Geometry.Offset` | dlls/x11drv/window.c:586 | moves the origin and keeps width, height and emptiness |
| `Geometry.Adjust` | dlls/x11drv/window.c:480-514 | growing by the frame never shrinks any side |
| `Geometry.FrameOf` | dlls/x11drv/window.c:489 | the frame of `AdjustWindowRectEx` for the style with the scroll-bar bits removed and the extended style |
| `Geometry.FrameIgnoresScrollBars` | dlls/x11drv/window.c:489 | adding or removing the scroll-bar bits never changes the frame |
| `Geometry.AtLeastOneUnit` | dlls/x11drv/window.c:495-496 | the result is never empty; only a collapsed right or bottom edge moves, to one past left or top |
| `Geometry.ToXRect` | dlls/x11drv/window.c:480-497 | unchanged when not managed or empty; otherwise never empty, origin moved in by the frame, far edges moved in unless that would collapse them to 1 |
| `Geometry.FromXRect` | dlls/x11drv/window.c:505-514 | unchanged when not managed or empty; otherwise the rectangle grown by the frame |
| `Geometry.ToXThenBack` | dlls/x11drv/window.c:480-514 | converting to X and back is the identity for every rectangle that is not managed or is empty, and for every other one whose X rectangle needs no clamping |
| `Geometry.FromXThenBack` | dlls/x11drv/window.c:480-514 | converting from X and back is always the identity |
| `Geometry.RoundTripIdentityIff` | dlls/x11drv/window.c:480-514 | converting to X and back is the identity exactly when the window is not managed, is empty, or is larger than its frame in both directions |
| `Geometry.ClampedRoundTripDiffers` | dlls/x11drv/window.c:495-496 | a 4×4 window with a frame of 4 becomes a 1×1 X window that converts back to 9×9 |
| `Geometry.WindowToXRect` | dlls/x11drv/window.c:480-497 | the in-place conversion computes `ToXRect` with the style's frame without scroll bars |
| `Geometry.XToWindowRect` | dlls/x11drv/window.c:505-514 | the in-place conversion computes `FromXRect` |
| `Sync.FirstVisible` | dlls/x11drv/window.c:535-537 | the index of the nearest visible sibling: it is visible and every nearer one is not; none exactly when no sibling is visible |
| `Sync.FindPrevVisible` | dlls/x11drv/window.c:535-537 | the sibling walk finds `FirstVisible` |
| `Sync.Restack` | dlls/x11drv/window.c:532-549 | without z-order nothing changes; with it the stack mode is always flagged, the window goes below the nearest visible sibling (sibling flagged) or to the top when there is none; the geometry fields are untouched |
| `Sync.StackBelowPrevVisible` | dlls/x11drv/window.c:532-549 | the stacking step computes `Restack` |
| `Sync.SizeHintsUpdate` | dlls/x11drv/window.c:561-563 | size hints are resent exactly for a top-level window whose width or height changes |
| `Sync.SyncWholeWindowPosition` | dlls/x11drv/window.c:522-571 | the cached whole rectangle becomes the converted window rectangle; the returned mask is the change mask plus stacking; nothing is logged for an empty mask; otherwise a sync, then for a top-level window the size hints (on a size change) and a window-manager reconfigure, else a plain configure |
| `Sync.ClientMoveEffects` | dlls/x11drv/window.c:601-606 | the client window is unmapped before the move when it stops showing and mapped after it when it starts |
| `Sync.SyncClientWindowPosition` | dlls/x11drv/window.c:579-610 | the target is the client rectangle relative to the whole window; the mask is its change mask; the cached rectangle is the target; nothing is logged for an empty mask |
| `Policy.HasDlgFrame` | dlls/x11drv/window.c:48-50 | a modal frame, or a dialog frame without a thick frame (used by `SizeHintsFor`) |
| `Policy.SizeHintsFor` | dlls/x11drv/window.c:309-332 | static gravity at the whole rectangle's origin, flags `PWinGravity` and `PPosition`, plus `PMinSize` and `PMaxSize` with min = max = the current size exactly for a dialog frame |
| `Hints.SetSizeHints` | dlls/x11drv/window.c:309-332 | logs WM_NORMAL_HINTS equal to `SizeHintsFor` of the whole rectangle |
| `Policy.MwmFunctions` | dlls/x11drv/window.c:394-399 | move iff caption or thick frame, resize iff thick frame, minimize, maximize and close iff the style has them |
| `Policy.MwmBorder` | dlls/x11drv/window.c:402-406 | the else-if chain collapsed: border for a modal frame, any frame or border bit, or an overlapped window; resize handle only for a thick frame without a modal frame |
| `Policy.MwmDecorations` | dlls/x11drv/window.c:400-409 | title iff caption, border and resize handle as `MwmBorder`, menu, minimize and maximize iff the style has them |
| `Policy.MwmHintsFor` | dlls/x11drv/window.c:392-409 | both fields flagged, with `MwmFunctions` and `MwmDecorations` |
| `Policy.Protocols` | dlls/x11drv/window.c:352-355 | `WM_DELETE_WINDOW` first, `WM_TAKE_FOCUS` second exactly when it is known |
| `Policy.GroupLeader` | dlls/x11drv/window.c:367-373 | the owner's whole window for an owned window, the window itself otherwise |
| `Policy.BaseWMHints` | dlls/x11drv/window.c:420-423 | input, state and group flagged; input true exactly without take-focus; all else zero |
| `Policy.InitialState` | dlls/x11drv/window.c:427 | iconic exactly when minimized, normal otherwise |
| `Policy.IconFlagUpdate` | dlls/x11drv/window.c:257-300 | non-icon flags kept; no icon flag when unmanaged, only the icon-window flag without a class icon, pixmap and mask flags with one; never window and pixmap together |
| `Policy.IconHints` | dlls/x11drv/window.c:247-301 | flags as `IconFlagUpdate`; the icon window or the pixmap and mask set in their branch, the other icon fields and every non-icon field kept |
| `Policy.IconThenNoIcon` | dlls/x11drv/window.c:257-300 | giving a window an icon and taking it away again leaves only the icon window shown and every other flag and field as before |
| `Hints.WMHintsForMeaning` | dlls/x11drv/window.c:418-434 | the WM_HINTS sent: input, state and group always given; input iff no take-focus; iconic iff minimized; icon window iff managed without class icon; pixmap iff managed with one |
| `Hints.IconWindowAttributes` | dlls/x11drv/window.c:202-206 | base events, north-west gravity, no backing store, the display colormap |
| `Hints.CreateIconEffects` | dlls/x11drv/window.c:209-219 | an icon-sized window at the root's origin with `IconWindowMask` and `IconWindowAttributes` of the display colormap, then the icon-window property |
| `Hints.DestroyIconEffects` | dlls/x11drv/window.c:228-239 | nothing without an icon window; otherwise its destruction and the removal of the property |
| `Hints.IconWindowEffects` | dlls/x11drv/window.c:257-300 | which icon-window calls each branch of `set_icon_hints` makes |
| `Hints.CreateIconWindow` | dlls/x11drv/window.c:197-221 | a fresh window becomes the icon window and is registered to the window handle |
| `Hints.DestroyIconWindow` | dlls/x11drv/window.c:228-239 | the icon window is 0 afterwards and its context entry is gone; with no icon window nothing changes |
| `Hints.IconWindowAfter` | dlls/x11drv/window.c:257-300 | the icon window left by set_icon_hints: non-zero exactly for a managed window without a class icon, the existing one when there was one, the new one otherwise |
| `Hints.IconContext` | dlls/x11drv/window.c:257-300 | the X context left by set_icon_hints: a created icon window registered to the window, a destroyed one forgotten, every other entry kept (including `newWindow` when no icon window is created); window 0 stays out of a context that did not hold it |
| `Hints.SetIconHints` | dlls/x11drv/window.c:247-301 | the old bitmaps are released first; the result is `IconHints`; the icon window is `IconWindowAfter` and the context `IconContext` (a new icon window takes the next identifier); the icon bitmaps are kept only with a class icon; window and bitmaps never both |
| `DriverState.ReleaseIcon` | dlls/x11drv/window.c:252-253 | one deletion per handle that is set, bitmap first |
| `Hints.IdentityEffects` | dlls/x11drv/window.c:351-373 | protocols, then the `wine`/`Wine` class hint, then transient-for the owner's window exactly for an owned window |
| `Hints.TrayEffects` | dlls/x11drv/window.c:378-388 | nothing for a window that is not a tray window; otherwise the KDE dock property and the system-tray property for each atom that is known |
| `Hints.DecorationEffects` | dlls/x11drv/window.c:378-413 | the tray properties, then `_MOTIF_WM_HINTS` from `MwmHintsFor` when that atom is known |
| `Hints.SetManagerProperties` | dlls/x11drv/window.c:349-415 | logs the identity hints, the size hints, the tray and Motif properties, and returns `GroupLeader` |
| `Hints.AfterWmHints` | dlls/x11drv/window.c:340-435 | the calls set_wm_hints appends keep what was logged before and end with WM_HINTS |
| `Hints.WMHintsFor` | dlls/x11drv/window.c:418-428 | the WM_HINTS of a new window: base hints, icon part, initial state and group (its meaning is `WMHintsForMeaning`) |
| `Hints.SetWmHints` | dlls/x11drv/window.c:340-435 | the whole call sequence of set_wm_hints; the icon window, X context, next identifier and icon bitmaps as set_icon_hints leaves them; WM_HINTS built from that icon state |
| `Policy.MergeIconicState` | dlls/x11drv/window.c:455-459 | state and icon position flagged in addition to the existing flags, state iconic iff iconic, icon at the window origin, all other fields kept |
| `Policy.MergeIconicStateIdempotent` | dlls/x11drv/window.c:455-459 | merging the same state twice is merging it once |
| `Hints.SetIconicState` | dlls/x11drv/window.c:443-472 | client window unmapped when iconic or mapped when it should show; the merged hints (into fresh ones when there are none); a visible window iconified or, when not empty, mapped |
| `DriverState.Display.NewXid` | dlls/x11drv/window.c:697-699 | a granted identifier is fresh (not 0, not the root, not in the context); a refused one is 0 |
| `DriverState.WinData.constructor` | dlls/x11drv/window.c:883-888 | new driver data has no whole, client or icon window and no icon bitmaps |
| `Win32.StyleBitsDistinct` | dlls/x11drv/window.c:74-88 | different bits of one style word have different header values, so a word is the set of its bits |
| `Xlib.MaskBitsDistinct` | dlls/x11drv/window.c:120-140 | different named bits of one X mask have different wire values, so a mask is the set of its bits |
| `Lifecycle.Registered` | dlls/x11drv/window.c:618-624 | both windows map to the handle; the other entries are kept |
| `Lifecycle.RegisterWindow` | dlls/x11drv/window.c:618-624 | the context becomes `Registered` and stays valid |
| `Lifecycle.Unregistered` | dlls/x11drv/window.c:843-846 | the whole, client and (when set) icon windows have no entry; every other entry is kept |
| `Lifecycle.UnregisterUndoesRegister` | dlls/x11drv/window.c:618-624 | forgetting a window's X windows after registering them (and its icon window before them) gives back the context as it was |
| `Lifecycle.FailedCreateRestoresContext` | dlls/x11drv/window.c:904-905 | after a failed creation, where only an icon window may have been registered, destroying the window gives back the context as it was |
| `Lifecycle.CreateDesktop` | dlls/x11drv/window.c:630-661 | empty context, atoms with take-focus 0, both windows the root, both rectangles the window rectangle, three properties set |
| `Lifecycle.WholeWindowAttributes` | dlls/x11drv/window.c:688-694 | the attributes of `get_window_attributes` with forget bit gravity, north-west window gravity and no backing store |
| `Lifecycle.WholeWindowEffects` | dlls/x11drv/window.c:697-714 | the creation request at the converted rectangle (zero extents as 1), the cursor release when a cursor was used, and a restack below for a child that is not maximized |
| `Lifecycle.StaysAtBottom` | dlls/x11drv/window.c:709 | a child window that is not maximized is stacked at the bottom |
| `Lifecycle.CreateWholeXWindow` | dlls/x11drv/window.c:669-716 | rectangle converted with the old extended style; extended style updated by the managed decision; the window fresh or 0; the calls as `WholeWindowEffects` |
| `Lifecycle.HintTopLevel` | dlls/x11drv/window.c:718 | nothing for a window that is not top-level or has no whole window; otherwise the hints are appended, the icon window and X context are `IconWindowAfter` and `IconContext`, and the next identifier and icon bitmaps are as `SetWmHints` leaves them; for a window without hints nothing changes |
| `Lifecycle.CreateWholeWindow` | dlls/x11drv/window.c:669-721 | the X part as `CreateWholeXWindow`, exact for windows that are not top-level; for a top-level one the window-manager hints after it, with icon window, X context, next identifier and icon bitmaps as set_icon_hints leaves them (a new icon window takes the identifier after the whole window's); otherwise the icon state is unchanged and only the whole window may take an identifier |
| `Lifecycle.ClientWindowAttributes` | dlls/x11drv/window.c:738-742 | base events, no backing store, forget gravity exactly for a class that redraws on resize, north-west otherwise |
| `Lifecycle.AtLeastOne` | dlls/x11drv/window.c:746-747 | at least 1 and at least the argument, equal to it from 1 up and exactly 1 below |
| `Lifecycle.CreateClientWindow` | dlls/x11drv/window.c:729-755 | the client rectangle is the whole rectangle moved to the origin; a fresh window (taking the next identifier) or 0 inside the whole window; mapped only when created and it should show |
| `Lifecycle.DestroyWindow` | dlls/x11drv/window.c:830-857 | without data nothing happens; otherwise with a whole window the context becomes `Unregistered`, the icon window is 0 and the windows are destroyed; the icon bitmaps are released and the data dropped |
| `Policy.CapRequested` | dlls/x11drv/window.c:872-881 | at most 65535, the request itself when it is not above |
| `Policy.WantsMinMaxInfo` | dlls/x11drv/window.c:937 | the tracking sizes are asked for a window with a thick frame or one that is neither a pop-up nor a child |
| `Policy.TrackSize` | dlls/x11drv/window.c:943-948 | never negative and at least the minimum tracking size; the request (floored at 0) when within the bounds, the minimum (floored at 0) when below it, the maximum (floored at 0) when above it and the bounds agree, the minimum when they conflict |
| `Lifecycle.CreateExtent` | dlls/x11drv/window.c:872-948 | the cap then, for a window that takes tracking sizes, `TrackSize`; untracked requests above 65535 become 65535, others are kept; tracked results are bounded as `TrackSize` says |
| `Lifecycle.ClampCreateSize` | dlls/x11drv/window.c:872-948 | the in-place clamps compute `CreateExtent` for width and height, using the tracking sizes only for a thick frame or an overlapped window |

## Left out

- Xlib, GDI and the host window manager are not modelled as behaviour. Their requests are recorded in the
  call log, their queries are parameters, and the `wine_tsx11_lock`/`unlock` pairs are not modelled.
- `XAllocSizeHints`, `XAllocClassHint` and `XAllocWMHints` are modelled as always succeeding. If one failed
  in `set_size_hints` or `set_wm_hints`, the source would skip the corresponding property. In
  `X11DRV_set_iconic_state` it would not: the result of `XAllocWMHints` is used without a NULL check
  (`dlls/x11drv/window.c:455-456`), so a failed allocation there dereferences a null pointer.
- Icon rasterisation in `set_icon_hints` is not modelled: `GetIconInfo`, the bitmap conversion and the mask
  inversion. Its outcome is the `IconInfo` parameter.
- `AdjustWindowRectEx` and `GetSystemMetrics` are not modelled; they are given values of the display.
- Rectangle coordinates and sizes are unbounded integers. The 32-bit wrap-around of C `int` is not modelled.
- A style word holds only the bits the driver tests. Other bits cannot influence the decisions modelled here.
- Uninitialised stack structures are modelled as all-zero values. Only the fields named by their masks are
  meaningful. The same holds for the two rectangles of new driver data, which `X11DRV_CreateWindow` leaves
  unset until the windows are created.
- Lifecycle.CreateWholeWindow: for a top-level window it states only that the hints are appended after the
  X part, not which hints. The exact calls are the contract of `Hints.SetWmHints`, which this step calls.
  The icon window, the X context, the next identifier and the icon bitmaps are stated in full.
- Lifecycle.HintTopLevel: for the same reason it states only that the calls logged before stay in place;
  the icon window, the X context, the next identifier and the icon bitmaps are stated in full.
- Hints.CreateIconWindow: the X server always grants the icon window. `create_icon_window` does not check
  the result of `XCreateWindow`. On a refusal the source would register window 0 in the X context and
  advertise icon window 0 in WM_HINTS. The model keeps 0 out of the context, so it does not capture that
  case.
- `X11DRV_CreateWindow` is modelled by its steps, not as one method:
  - its size clamps (`Lifecycle.ClampCreateSize`);
  - the desktop, whole-window and client-window creation;
  - the position syncs and registration;
  - the destruction on its failure path.
  
  The re-entrant message and hook sequence around those steps (the CBT hook, `WM_NCCREATE`,
  `WM_NCCALCSIZE`, `WM_CREATE`, `WM_SIZE`/`WM_MOVE`, linking in the Z order, minimizing or maximizing) is not
  modelled. It consists of calls into the host window manager.
- On the failure path of `X11DRV_CreateWindow`, the whole and client windows are never registered, since
  `X11DRV_register_window` comes after every failure jump. Only the icon window from set_wm_hints may be
  registered. `Lifecycle.FailedCreateRestoresContext` proves that destroying the window then gives back the
  X context as it was. `Lifecycle.UnregisterUndoesRegister` proves the same for a window that was created
  and registered. Both are stated on the context table, not for a composed create-then-destroy run.
- `X11DRV_SetWindowText`, `X11DRV_SetFocus`, `X11DRV_SetParent`, `X11DRV_SetWindowIcon`,
  `X11DRV_get_client_window` and `X11DRV_get_whole_window` are not modelled. They are registry and code-page
  conversion, server-side focus and colormap handling, or lookups through the host's window table. Their
  answers appear as parameters where the modelled code uses them.
- Creating the desktop thread in `create_desktop` and its `WM_NCCREATE` message are not modelled.
