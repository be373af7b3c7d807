# BetterTk core, modelled in Dafny

BetterTk is a tkinter add-on that draws its own title bar, so it has to do
much of what a window manager normally does. It strips the native
decorations through the platform's window system, lets the user move and
resize the window by hand, and keeps fullscreen and maximised state. The
repository also ships:

- a notebook with draggable tab notches;
- a scrollable frame;
- the byte protocol a terminal widget speaks over a pipe;
- an image diff and mirror used by the terminal's sprite tests.

The model keeps the logic of these pieces:

- **Settings** (`settings.dfy`): the shared `BetterTkSettings` object. Its
  `config` is refused while a window uses it; otherwise it overlays the
  given fields.
- **Resize** (`resize.dfy`): `ResizableWindow`.
  - The quadrant string of borders under the pointer.
  - The four per-border geometry functions, with their minimum sizes.
  - `update_resizing_params` on an array.
  - The press / motion / release state machine.
- **Drag** (`drag.dfy`): `DraggableWindow`.
  - The `check_parent_titlebar` walk up the widget tree.
  - `snap_to_side`.
  - The press / motion / release of a title-bar drag.
- **Chrome** (`chrome.dfy`): `BetterTk`'s protocol table and the title bar's
  `FullScreenButton`.
- **Attributes** (`attributes.dfy`): how the three `NoTitlebarTk` variants
  route an `attributes` call and read a `"-fullscreen"` value.
- **FallbackTk, X11Tk, WinTk** (`notitlebar_fallback.dfy`,
  `notitlebar_x11.dfy`, `notitlebar_win.dfy`): the three `NoTitlebarTk`
  classes, one per platform.
  - Their fullscreen and maximised flags.
  - The re-entrancy lock and the `<Map>` binding.
  - The style bit masks.
  - The error-sentinel checks.
  - The `_default_root` bookkeeping of the X11 variant.

  Calls into Tk, Xlib and user32 are appended to a `log` field. Their return
  values arrive as a `replies` parameter.
- **TabStrip** (`tabnotches.dfy`): `TabNotches`.
  - `calculate_idx` as a loop against a specification of midpoints.
  - `_reshiffle` as a move within the notch list.
  - The placeholder swapped in and out while a notch is dragged.
- **NotebookTabs** (`notebook.dfy`): `Notebook`'s pages.
  - Cyclic switching.
  - `tab_destroy`, which keeps the current page valid.
- **Viewport** (`betterframe.dfy`): `BetterFrame`'s wheel steps, scroll region
  and `resize` / `fit`.
- **PipeProtocol** (`terminal.dfy`): the encoders `encode_run`,
  `encode_check_stdout` and `encode_print`, and the `XTermTerminal.resize`
  frame. Each encoder comes with a reference decoder and a round-trip lemma.
- **SpriteDiff** (`diff.dfy`): `compute_diff` and `flip_img`, as nested loops
  over 2-D arrays. Each is specified by a function on the pixel grid.
- **Errors** (`errors.dfy`): `Option`, `Result`, `Outcome` and the Python
  exceptions the code raises.

A raised Python exception is an `Err` / `Fail` value naming the exception.
Tk's measurements (`winfo_*`, `bbox`, pointer positions, notch widths) are
parameters.

## Model

| member | source | states |
|---|---|---|
| Settings.ParseTheme | src/bettertk/win.py:31-48 | "dark" and "light" select their theme and are the only names accepted; any other name is a `ValueError` |
| Settings.Initial | src/bettertk/win.py:22-51 | a new settings object holds the given snap threshold, border width, separator size, shadow and unicode flags, with grey separator and highlight colours |
| Settings.BetterTkSettings.constructor | src/bettertk/win.py:22-51 | the fields are `Initial` for the theme and nobody uses the object yet |
| Settings.BetterTkSettings.StartedUsing | src/bettertk/win.py:53-54 | the user count goes up by one and no setting changes |
| Settings.BetterTkSettings.StopedUsing | src/bettertk/win.py:56-57 | the user count goes down by one and no setting changes |
| Settings.BetterTkSettings.Config | src/bettertk/win.py:91-117 | while any window uses the settings, the call fails and no field changes; otherwise exactly the given arguments overwrite their fields (`Overlay`) |
| Settings.OverlayNoArgs | src/bettertk/win.py:94-117 | a `config` with no arguments changes nothing |
| Settings.OverlayIdempotent | src/bettertk/win.py:94-117 | repeating a `config` call changes nothing more |
| Settings.OverlayThen | src/bettertk/win.py:94-117 | two `config` calls equal one call with merged arguments, the later call winning |
| Settings.SharedSettingsScenario | src/bettertk/win.py:53-117 | with two windows attached, `config` is refused; once both detach, it succeeds |
| Resize.Borders | src/bettertk/win.py:742-761 | the string contains each of s, n, e and w exactly when that border is selected |
| Resize.BordersInOrder | src/bettertk/win.py:742-761 | the letters come in the order s, n, e, w, each at most once |
| Resize.Quadrant | src/bettertk/win.py:742-761 | `s` iff vertical resizing is on and the pointer is within `sensitivity` of the bottom; `e` likewise for the right; `n` and `w` likewise for the top and left, and never when north-west resizing is disabled |
| Resize.QuadrantInOrder | src/bettertk/win.py:742-761 | the quadrant string lists its borders in the order s, n, e, w |
| Resize.NoOppositeBorders | src/bettertk/win.py:742-761 | in a window at least twice the sensitivity in each direction, the string never has both s and n, nor both e and w |
| Resize.ResizeEast | src/bettertk/win.py:763-768 | only the width is set; it is at least `MIN_WIDTH` and puts the right border at the pointer whenever that is wide enough |
| Resize.ResizeWest | src/bettertk/win.py:770-776 | width and x are set; the width is at least `MIN_WIDTH`; the right edge `x + width` stays where it was; x follows the pointer whenever that is wide enough, and otherwise the width is exactly `MIN_WIDTH` |
| Resize.ResizeSouth | src/bettertk/win.py:778-783 | only the height is set; it is at least `MIN_HEIGHT` and puts the bottom border at the pointer whenever that is tall enough |
| Resize.ResizeNorth | src/bettertk/win.py:785-791 | height and y are set; the height is at least `MIN_HEIGHT`; the bottom edge stays where it was; y follows the pointer whenever that is tall enough, and otherwise the height is exactly `MIN_HEIGHT` |
| Resize.UpdateResizingParams | src/bettertk/win.py:793-801 | in place on the array: exactly the slots whose tuple entry is not `None` take that entry (`Merge`) |
| Resize.MergeFour | src/bettertk/win.py:683-698 | merging a per-border result into the four-slot list overwrites slot by slot only the values that border sets |
| Resize.MotionAxesIndependent | src/bettertk/win.py:683-698 | the new width and x depend on the pointer's x only; the new height and y on its y only |
| Resize.MotionKeepsUnmovedAxis | src/bettertk/win.py:683-698 | a session without e or w keeps the snapshot's width and x; one without s or n keeps its height and y |
| Resize.MotionKeepsOppositeEdge | src/bettertk/win.py:683-698 | dragging the west (north) border keeps the snapshot's right (bottom) edge fixed |
| Resize.BordersCursor | src/bettertk/win.py:720-740 | every set of borders without opposite pairs has a cursor, and it is the arrow exactly for no border |
| Resize.CursorAlwaysSet | src/bettertk/win.py:720-761 | in a window at least twice the sensitivity in each direction, the quadrant always has a cursor |
| Resize.ResizableWindow.constructor | src/bettertk/win.py:659-681 | sensitivity 10, both directions resizable, north-west enabled, no session |
| Resize.ResizableWindow.MousePress | src/bettertk/win.py:703-717 | ignored in fullscreen or off the frame; otherwise it snapshots the window's geometry, and starts a session with the pointer's quadrant when that is not empty |
| Resize.ResizableWindow.MouseRelease | src/bettertk/win.py:700-701 | the session always ends |
| Resize.ResizableWindow.ChangeCursorResizing | src/bettertk/win.py:720-740 | the arrow in fullscreen; unchanged during a session; otherwise the cursor for the pointer's quadrant |
| Resize.ResizableWindow.MouseMotion | src/bettertk/win.py:683-698 | nothing outside a session; inside one, the geometry merged from the per-border results applied to the press-time snapshot |
| Drag.CheckParentTitlebar | src/bettertk/win.py:510-530 | true exactly when the walk up the masters meets the title bar before the buttons frame, the root or the top |
| Drag.NotOnTitlebar | src/bettertk/win.py:510-530 | a walk that first stops anywhere but the title bar means the press is not on it |
| Drag.TitlebarIsOnTitlebar | src/bettertk/win.py:510-530 | a press on the title bar itself counts as on the title bar |
| Drag.ButtonsNeverOnTitlebar | src/bettertk/win.py:510-530 | a press on a button in the buttons frame never counts |
| Drag.SnapAxis | src/bettertk/win.py:452-470 | the far edge snaps to the screen edge when its gap is under the threshold; otherwise the near edge snaps to 0 when its gap is under it; otherwise the position is kept |
| Drag.SnapAxisIdempotent | src/bettertk/win.py:452-470 | snapping twice is snapping once, for a window that starts on screen |
| Drag.SnapToSide | src/bettertk/win.py:448-470 | skipped for an event off the title bar; otherwise each axis is snapped on its own |
| Drag.DraggableWindow.constructor | src/bettertk/win.py:805-816 | not dragging, offsets zero |
| Drag.DraggableWindow.StopDragWin | src/bettertk/win.py:818-819 | the drag always ends |
| Drag.DraggableWindow.DragWin | src/bettertk/win.py:821-825 | while dragging, the window goes to the pointer minus the grip offset; otherwise nothing |
| Drag.DraggableWindow.ClickWin | src/bettertk/win.py:827-836 | ignored in fullscreen and off the title bar; otherwise a drag starts, with the offset of the pointer inside the window |
| Drag.DragKeepsGrip | src/bettertk/win.py:821-836 | after a title-bar press, the pointer keeps the same offset inside the window wherever it moves |
| Attributes.LowerChar | src/bettertk/notitlebartk.py:78-87 | ASCII lower-casing of one character: A-Z map to their lower-case letter, everything else is kept; it decides `in ("1", "true")` as `str.lower` does |
| Attributes.Lower | src/bettertk/notitlebartk.py:78-87 | ASCII lower-casing of a string, character by character and of the same length |
| Attributes.FullscreenOnString | src/bettertk/notitlebartk.py:78-87 | a string switches fullscreen on exactly when it is "1" or "true" in any mix of case |
| Attributes.FullscreenOnNonString | src/bettertk/notitlebartk_x11.py:150-162 | a non-string switches it on exactly when truthy; "false" and "0" switch it off, "TRUE" on |
| Attributes.Route | src/bettertk/notitlebartk_win.py:68-77 | a two-argument "-fullscreen" call goes to `fullscreen` or `notfullscreen` by its value; every other call passes through; none is refused |
| Attributes.X11Route | src/bettertk/notitlebartk_x11.py:150-162 | a two-argument "-type" call is refused; "-fullscreen" as in `Route`; everything else passes through |
| Attributes.RoutesAgree | src/bettertk/notitlebartk_x11.py:150-162 | the X11 routing is the others' routing except for refusing "-type" |
| FallbackTk.ErrcheckNotZero | src/bettertk/notitlebartk.py:11-14 | fails with an `OSError` exactly when the Python value equals 0 (an int 0 or `False`; `None` does not), and otherwise returns `args`; the X11 file's `errcheck_not_zero` (notitlebartk_x11.py:33-37) is the same check |
| FallbackTk.Pointer | src/bettertk/notitlebartk.py:16-19 | a pointer result (`HWND`, `c_void_p`) reaches Python as `None` exactly when it is NULL, and as its address otherwise |
| FallbackTk.PointerPassesCheck | src/bettertk/notitlebartk.py:11-19 | the zero check passes every pointer result, NULL included |
| FallbackTk.NullParentReadsStyle | src/bettertk/notitlebartk.py:63-64 | a NULL `GetParent` does not stop the strip: the next call reads the style through the NULL handle |
| FallbackTk.NewExStyle | src/bettertk/notitlebartk.py:31-33 | the written style has the tool-window bit clear and the app-window bit set; every other bit is unchanged |
| FallbackTk.NewExStyleIdempotent | src/bettertk/notitlebartk.py:64-66 | writing the new style a second time changes nothing |
| FallbackTk.StripCallsWriteStyle | src/bettertk/notitlebartk.py:54-72 | a successful strip writes the new extended style and, second to last, schedules the window to be shown again; a failing one never withdraws the window |
| FallbackTk.NoTitlebarTk.constructor | src/bettertk/notitlebartk.py:37-52 | a Tk window with `<Map>` bound, unlocked, not fullscreen |
| FallbackTk.NoTitlebarTk.BindMap | src/bettertk/notitlebartk.py:52 | binds `<Map>` and keeps the new binding id |
| FallbackTk.NoTitlebarTk.ApplyOverrideredirect | src/bettertk/notitlebartk.py:54-72 | does nothing while locked; otherwise locks, drops the `<Map>` binding, makes the calls in `StripCalls`, sets `hwnd` to the parent as Python sees it (`None` for NULL), and unlocks only on success, which depends only on the two style words |
| FallbackTk.NoTitlebarTk.SetExStyle | src/bettertk/notitlebartk.py:64-66 | succeeds exactly when the style read and the previous style written are both non-zero; the calls are `StyleCalls` |
| FallbackTk.NoTitlebarTk.MapEvent | src/bettertk/notitlebartk.py:52-72 | a `<Map>` with no binding, or while locked, changes nothing; otherwise it runs `_overrideredirect` |
| FallbackTk.NoTitlebarTk.Overrideredirect | src/bettertk/notitlebartk.py:74-76 | always a `RuntimeError` |
| FallbackTk.NoTitlebarTk.Iconify | src/bettertk/notitlebartk.py:89-93 | restores the decorations, iconifies, and binds `<Map>` again, so the strip runs again on restore |
| FallbackTk.NoTitlebarTk.Fullscreen | src/bettertk/notitlebartk.py:95-100 | ends fullscreen-on; a no-op when already fullscreen |
| FallbackTk.NoTitlebarTk.Notfullscreen | src/bettertk/notitlebartk.py:102-108 | a no-op when not fullscreen; otherwise it ends in `LeftFullscreen`: fullscreen off; a locked window skips the strip and still rebinds `<Map>`; an unlocked one runs the strip and, exactly when the strip succeeds, unlocks and rebinds `<Map>`, or else stays locked with `<Map>` unbound; the result, lock, binding, next binding id and calls made (`LeaveCalls`) are stated in each case |
| FallbackTk.NoTitlebarTk.ToggleFullscreen | src/bettertk/notitlebartk.py:110-114 | the fullscreen flag flips; entering ends in `EnteredFullscreen` (result `Pass`, `EnterCalls` logged, lock and binding unchanged); leaving ends in `LeftFullscreen`, as for `notfullscreen` |
| FallbackTk.NoTitlebarTk.Attributes | src/bettertk/notitlebartk.py:78-87 | "-fullscreen" on is `fullscreen` (a no-op when fullscreen, otherwise `EnteredFullscreen`), off is `notfullscreen` (a no-op when not fullscreen, otherwise `LeftFullscreen` with its result); other calls are passed through to Tk and change no flag, lock or binding |
| FallbackTk.Create | src/bettertk/notitlebartk.py:37-39 | any master but `None` is a `NotImplementedError`; otherwise a fresh window with `<Map>` bound |
| FallbackTk.MapFiresOnce | src/bettertk/notitlebartk.py:52-72 | after one successful `<Map>` strip, later `<Map>` events do nothing |
| FallbackTk.FailureLocksForever | src/bettertk/notitlebartk.py:54-72 | after a failed strip the lock stays set, so a later `<Map>` no longer strips even when the calls would succeed |
| Chrome.BetterTk.constructor | src/bettertk/win.py:354-361 | the protocol table holds only "WM_DELETE_WINDOW", bound to the window's `destroy` |
| Chrome.BetterTk.Protocol | src/bettertk/win.py:564-572 | no name gives the registered names; a name only gives its handler, a `KeyError` when none is registered; a name and a handler registers it, replacing any earlier one, and a new name is added at the end of the names |
| Chrome.BetterTk.ProtocolGenerate | src/bettertk/win.py:501-508 | the handler registered for the protocol; an unknown protocol is a `TclError` |
| Chrome.RegisteredHandlerRuns | src/bettertk/win.py:501-572 | a handler registered with `protocol` is the one generated for it, and "WM_DELETE_WINDOW" keeps `destroy` unless replaced |
| Chrome.FullScreenButton.constructor | src/bettertk/win.py:188-196 | the button's command is the toggle |
| Chrome.FullScreenButton.Fullscreen | src/bettertk/win.py:209-219 | "error" when already fullscreen and "can't" unless resizable both ways, both leaving the window untouched; otherwise the command becomes `notfullscreen` and the window ends in `EnteredFullscreen` (exactly `EnterCalls` logged, lock and binding kept) |
| Chrome.FullScreenButton.NotfullscreenAsWritten | src/bettertk/win.py:221-229 | as written, the method always raises `AttributeError` |
| Chrome.FullScreenButton.Notfullscreen | src/bettertk/win.py:221-229 | corrected: "error" when not fullscreen, the window untouched; otherwise the command becomes `fullscreen` and the window ends in `LeftFullscreen` with the window's result carried over (`Ok(None)` for success, the raised error otherwise) |
| Chrome.FullScreenButton.ToggleFullscreen | src/bettertk/win.py:198-207 | a double click off the title bar returns `Pass` and leaves the window untouched; otherwise the flag flips, entering ends in `EnteredFullscreen` and leaving in `LeftFullscreen`, with the window's result |
| Chrome.ButtonRoundTripAsWritten | src/bettertk/win.py:209-229 | as written, after `fullscreen()` has switched the button's command to `notfullscreen`, a press of the button raises `AttributeError` and the window stays fullscreen |
| Chrome.ButtonRoundTrip | src/bettertk/win.py:209-229 | with the correction, `fullscreen()` then a press of the button restore the window and the button's command |
| X11Tk.ErrcheckZero | src/bettertk/notitlebartk_x11.py:39-43 | fails with `OSError(value)` exactly when the value is not 0, and otherwise returns `args` |
| X11Tk.MotifHints | src/bettertk/notitlebartk_x11.py:20-25 | five words: flags 2 (decorations only) and decorations 0 |
| X11Tk.QueryTreeAlwaysRuns | src/bettertk/notitlebartk_x11.py:127-133 | `XQueryTree` is always called with what `XOpenDisplay` returned, NULL included |
| X11Tk.DisplayClosedOnlyAfterFullRun | src/bettertk/notitlebartk_x11.py:120-144 | `XCloseDisplay` is called exactly when every call after `XOpenDisplay` succeeded, and then it is the last call |
| X11Tk.HintsGoToParent | src/bettertk/notitlebartk_x11.py:120-144 | a successful run writes the Motif hints on the parent `XQueryTree` reported |
| X11Tk.StepKeepsExclusive | src/bettertk/notitlebartk_x11.py:164-200 | no flag operation makes the window both fullscreen and maximised |
| X11Tk.StepIdempotent | src/bettertk/notitlebartk_x11.py:164-194 | each non-toggling operation is idempotent and reaches its target state |
| X11Tk.ToggleTwice | src/bettertk/notitlebartk_x11.py:177-200 | a toggle flips exactly its own flag; toggling twice restores it and leaves the other flag cleared |
| X11Tk.NoTitlebarTk.constructor | src/bettertk/notitlebartk_x11.py:90-105 | a Tk (or Toplevel for a widget master), neither fullscreen nor maximised |
| X11Tk.NoTitlebarTk.OverrideRedirect | src/bettertk/notitlebartk_x11.py:120-144 | succeeds exactly when every Xlib call after `XOpenDisplay` succeeds (a NULL display passes its check); the calls made are `X11Calls` |
| X11Tk.NoTitlebarTk.WriteHints | src/bettertk/notitlebartk_x11.py:129-144 | whatever display `XOpenDisplay` returned: succeeds exactly when every later call succeeds; the calls are `DisplayCalls` |
| X11Tk.NoTitlebarTk.Overrideredirect | src/bettertk/notitlebartk_x11.py:146-148 | always a `RuntimeError` |
| X11Tk.NoTitlebarTk.Notmaximised | src/bettertk/notitlebartk_x11.py:190-194 | the flags take one `NotmaximisedOp` step; Tk is told only when the window was maximised |
| X11Tk.NoTitlebarTk.Notfullscreen | src/bettertk/notitlebartk_x11.py:171-175 | the flags take one `NotfullscreenOp` step; Tk is told only when the window was fullscreen |
| X11Tk.NoTitlebarTk.Fullscreen | src/bettertk/notitlebartk_x11.py:164-169 | a no-op when fullscreen; otherwise it leaves the maximised state first and then enters fullscreen |
| X11Tk.NoTitlebarTk.Maximised | src/bettertk/notitlebartk_x11.py:183-188 | a no-op when maximised; otherwise it leaves fullscreen first and then zooms |
| X11Tk.NoTitlebarTk.ToggleFullscreen | src/bettertk/notitlebartk_x11.py:177-181 | the flags take one `ToggleFullscreenOp` step; the calls are `-fullscreen false` when leaving, otherwise the zoom is left (if maximised) and then `-fullscreen true` |
| X11Tk.NoTitlebarTk.ToggleMaximised | src/bettertk/notitlebartk_x11.py:196-200 | the flags take one `ToggleMaximisedOp` step; the calls are `-zoomed false` when leaving, otherwise fullscreen is left (if fullscreen) and then `-zoomed true` |
| X11Tk.NoTitlebarTk.Attributes | src/bettertk/notitlebartk_x11.py:150-162 | "-type" is a `RuntimeError` changing nothing; "-fullscreen" steps the flags on or off and makes exactly the calls `fullscreen` / `notfullscreen` make; other calls pass through to Tk |
| X11Tk.NoTitlebarTk.Destroy | src/bettertk/notitlebartk_x11.py:202-206 | clears the default root exactly when it is this window, and destroys the Tk window |
| X11Tk.DefaultRoot.constructor | src/bettertk/notitlebartk_x11.py:90-105 | `_default_root` starts as `None` |
| X11Tk.Create | src/bettertk/notitlebartk_x11.py:90-118 | a master that is neither `None` nor a widget is a `ValueError`; the default root is set only by a master-less window when none is set, and it is set even when the strip then fails; success exactly when the Xlib calls after `XOpenDisplay` succeed |
| X11Tk.FailedWindowStaysDefaultRoot | src/bettertk/notitlebartk_x11.py:90-118 | a first window whose strip failed remains the default root, so a second master-less window does not take its place |
| WinTk.StripStyle | src/bettertk/notitlebartk_win.py:33-36 | the caption and thick-frame bits are cleared and every other bit is kept |
| WinTk.StripStyleIdempotent | src/bettertk/notitlebartk_win.py:58-62 | stripping twice is stripping once |
| WinTk.WinCallsWriteStyle | src/bettertk/notitlebartk_win.py:58-62 | the style is written exactly when the handle and the style read are non-zero, and then it is the stripped style, written to the parent |
| WinTk.NoTitlebarTk.constructor | src/bettertk/notitlebartk_win.py:40-50 | a Tk (or Toplevel for a widget master), not fullscreen |
| WinTk.NoTitlebarTk.GetHandle | src/bettertk/notitlebartk_win.py:26-29 | the parent handle, read after `update_idletasks`; zero is an `OSError` |
| WinTk.NoTitlebarTk.OverrideRedirect | src/bettertk/notitlebartk_win.py:58-62 | succeeds exactly when every user32 call succeeds; the calls are `WinCalls` |
| WinTk.NoTitlebarTk.WriteStyle | src/bettertk/notitlebartk_win.py:59-62 | succeeds exactly when the style read and the previous style are both non-zero |
| WinTk.NoTitlebarTk.CheckWord | src/bettertk/notitlebartk_win.py:10-13 | `_errcheck_not_zero`: passes exactly for a non-zero word, otherwise `OSError` |
| WinTk.NoTitlebarTk.Overrideredirect | src/bettertk/notitlebartk_win.py:64-66 | always a `RuntimeError` |
| WinTk.NoTitlebarTk.Fullscreen | src/bettertk/notitlebartk_win.py:79-83 | ends fullscreen-on; Tk is told only when the window was not fullscreen |
| WinTk.NoTitlebarTk.Notfullscreen | src/bettertk/notitlebartk_win.py:85-90 | a no-op unless fullscreen; otherwise it leaves fullscreen and strips the style again |
| WinTk.NoTitlebarTk.ToggleFullscreen | src/bettertk/notitlebartk_win.py:92-96 | the flag flips; entering returns `Pass` and logs `-fullscreen true`; leaving logs `-fullscreen false` and the strip's calls, and fails, with an `OSError`, exactly when the strip fails |
| WinTk.NoTitlebarTk.Attributes | src/bettertk/notitlebartk_win.py:68-77 | "-fullscreen" on sets the flag (logging `-fullscreen true` unless already set); off is `notfullscreen`: `Pass` and nothing logged when not fullscreen, otherwise `-fullscreen false` and the strip, failing exactly when the strip fails; other calls pass through |
| WinTk.Create | src/bettertk/notitlebartk_win.py:40-56 | a master that is neither `None` nor a widget is a `ValueError`; success exactly when the strip succeeds |
| WinTk.FullscreenRoundTrip | src/bettertk/notitlebartk_win.py:40-96 | entering and leaving fullscreen strips the style again, with the same calls as construction |
| TabStrip.IndexOf | src/notebook.py:152 | `list.index`: the first position holding the element |
| TabStrip.Move | src/notebook.py:177-178 | `pop` then `insert`: same length, and the moved element is at its new slot |
| TabStrip.Remove | src/notebook.py:286 | one element fewer |
| TabStrip.MoveAt | src/notebook.py:173-181 | where every element of the moved list comes from |
| TabStrip.MovePermutes | src/notebook.py:173-181 | a move is a permutation |
| TabStrip.MoveKeepsOthers | src/notebook.py:173-181 | the other elements keep their relative order |
| TabStrip.MoveBack | src/notebook.py:173-181 | moving back undoes a move |
| TabStrip.MoveInPlace | src/notebook.py:174-175 | a move to the same slot changes nothing, as the early return assumes |
| TabStrip.MoveDistinct | src/notebook.py:173-181 | a move keeps the elements distinct and the same set |
| TabStrip.MoveReplace | src/notebook.py:130-162 | writing the notch back into the placeholder's slot after the move equals moving the notch itself |
| TabStrip.MovePlaceholder | src/notebook.py:130-181 | moving the placeholder that stands in for a notch, then putting the notch back in its slot, is moving the notch itself |
| TabStrip.SlotFromFacts | src/notebook.py:164-171 | the loop's result from notch i on: a slot at or after i; every notch before it has its midpoint at or before x |
| TabStrip.SlotAtFacts | src/notebook.py:164-171 | `calculate_idx` is -1 for no notches, else a slot of the strip; every earlier midpoint is at or before x; x is before the slot's midpoint when any midpoint exceeds x, and the slot is the last one when none does |
| TabStrip.SlotFromMonotone | src/notebook.py:164-171 | the loop from notch i is non-decreasing in x |
| TabStrip.SlotFromAtLeast | src/notebook.py:164-171 | the loop from notch i never returns an earlier slot |
| TabStrip.SlotAtMonotone | src/notebook.py:164-171 | dragging further right never gives an earlier slot |
| TabStrip.MidpointsIncrease | src/notebook.py:164-171 | the running total `>> 1` then `(w >> 1) + (w & 1)` gives non-decreasing midpoints |
| TabStrip.TabNotches.constructor | src/notebook.py:82-102 | an empty strip with the "+" notch in column 1 |
| TabStrip.TabNotches.Add | src/notebook.py:104-109 | a new notch appended, in the column after the last, with the "+" notch one column further |
| TabStrip.TabNotches.StartDragging | src/notebook.py:121-128 | a press on a notch, never the "+" notch, records it and the press's x; anything else changes nothing |
| TabStrip.TabNotches.EndDraggingAsWritten | src/notebook.py:130-137 | as written: a pressed notch is written into the slot `tmp_notch.idx` last held, a stale slot after a click without a drag, and `AttributeError` before the first drag |
| TabStrip.TabNotches.EndDragging | src/notebook.py:130-137 | corrected: the notch list becomes the held strip (the placeholder replaced by the dragged notch) and the drag state is reset |
| TabStrip.TabNotches.CalculateIdx | src/notebook.py:164-171 | the loop computes `SlotAt` of the widths and x |
| TabStrip.TabNotches.Reshiffle | src/notebook.py:173-181 | the list is the old one with the placeholder moved to `idx`; every notch sits in the column of its slot; widgets outside the list keep their columns |
| TabStrip.TabNotches.Regrid | src/notebook.py:179-180 | the re-grid loop leaves every notch in the column of its slot |
| TabStrip.TabNotches.BeginDrag | src/notebook.py:147-156 | the placeholder takes the dragged notch's slot, and the held strip equals the old list |
| TabStrip.TabNotches.Drag | src/notebook.py:139-162 | corrected (its release branch runs the corrected `EndDragging`, see Findings): no pressed notch: nothing; button released: the drag ends; a motion under `NOT_DRAG_DIST` before a drag: nothing; otherwise the drag begins or continues and the notch follows the pointer |
| TabStrip.TabNotches.FollowPointer | src/notebook.py:158-162 | the placeholder moves to `SlotAt` of the pointer offset and the notch is placed at that offset |
| TabStrip.DraggedInPlace | src/notebook.py:121-162 | a notch dragged and dropped in its own slot leaves `tmp_notch.idx` at that slot |
| TabStrip.PressedFirst | src/notebook.py:104-128 | two notches added and the first pressed |
| TabStrip.ClickAfterDragAsWritten | src/notebook.py:130-137 | as written: after a drag ending in slot 0, a click on the second notch duplicates it and loses the first |
| TabStrip.FirstClickAsWritten | src/notebook.py:130-137 | as written: a click before any drag raises `AttributeError` |
| TabStrip.ClickAfterDrag | src/notebook.py:130-137 | corrected: the same click leaves the strip unchanged |
| TabStrip.DragCycle | src/notebook.py:121-162 | corrected (built on the corrected `EndDragging`, see Findings): a whole press, motions and release leave the notches a permutation of the original; as written this fails (`TabStrip.ClickAfterDragAsWritten`) |
| NotebookTabs.PyIndex | src/notebook.py:271 | `pages[i]` for negative or positive `i`, an `IndexError` out of range |
| NotebookTabs.NextPrev | src/notebook.py:267-274 | with no current page: `pages[default]`, or `None` when empty; otherwise a page of the list, a `ValueError` for a current page not in it |
| NotebookTabs.IndexOfDistinct | src/notebook.py:273 | in distinct pages, the index of the page at k is k |
| NotebookTabs.ModStep | src/notebook.py:274 | one step modulo the page count wraps around |
| NotebookTabs.NextAt | src/notebook.py:267-274 | from the page at i, next/previous is i ± 1 wrapped, independent of `default` |
| NotebookTabs.NextThenPrev | src/notebook.py:255-274 | next then previous comes back |
| NotebookTabs.NextPrevWrap | src/notebook.py:267-274 | the last page's next is the first, the first page's previous the last |
| NotebookTabs.NextPrevStart | src/notebook.py:255-271 | with no current page, next picks the first page and previous the last |
| NotebookTabs.SwitchTargetFacts | src/notebook.py:255-265 | a lone selected page is deselected by switching; with more pages another page is selected |
| NotebookTabs.RemoveDistinct | src/notebook.py:286 | removing a page keeps the rest distinct, and exactly that page leaves |
| NotebookTabs.Notebook.constructor | src/notebook.py:219-228 | no pages, nothing selected |
| NotebookTabs.Notebook.TabCreate | src/notebook.py:230-237 | a new notch in the strip and a new page appended, not selected |
| NotebookTabs.Notebook.TabSwitchTo | src/notebook.py:243-253 | the current page is a no-op; otherwise it becomes current and one `<<Tab-Switched>>` fires |
| NotebookTabs.Notebook.Switch | src/notebook.py:255-265 | the current page becomes the neighbour, or none when the neighbour is the page itself; the switch counter rises exactly when the selection changes |
| NotebookTabs.Notebook.TabDestroy | src/notebook.py:276-286 | vetoed: nothing changes; a page not in the list: `ValueError`; otherwise the page leaves the list, is not current, and a current page closed moves the selection to the previous page |
| NotebookTabs.CloseCurrent | src/notebook.py:276-286 | closing the selected second of two pages selects the first |
| NotebookTabs.CloseOnly | src/notebook.py:276-286 | closing the only, selected page leaves nothing selected |
| Viewport.Max | src/betterframe.py:96-97 | Python's `max` of two ints |
| Viewport.ScrollRegion | src/betterframe.py:94-98 | x1, y1 from the bounding box; x2 and y2 at least the canvas size and the content's edge, and one of them; the box itself when the content is larger |
| Viewport.ScrollRegionLeast | src/betterframe.py:94-98 | the region is the smallest box at the content's corner holding the content and the canvas size |
| Viewport.ScrollRegionStable | src/betterframe.py:94-98 | recomputing with the same canvas size changes nothing |
| Viewport.Sign | src/betterframe.py:85 | `delta / abs(delta)`: 1, -1, or 0 |
| Viewport.WindowsSteps | src/betterframe.py:83-86 | a zero delta is an `AssertionError`; otherwise ±`scroll_speed`, negative exactly for a positive delta |
| Viewport.WindowsStepsOpposite | src/betterframe.py:83-86 | the opposite wheel turn scrolls the opposite amount |
| Viewport.LinuxSteps | src/betterframe.py:88-92 | button 4 scrolls `-scroll_speed`, any other `+scroll_speed` |
| Viewport.WheelsAgree | src/betterframe.py:83-92 | a positive delta scrolls like button 4, a negative one like button 5 |
| Viewport.ScrollSpeed | src/betterframe.py:38 | an int, or a bool, is accepted as the speed; anything else is an `AssertionError` |
| Viewport.BetterFrame.constructor | src/betterframe.py:34-81 | keeps the speed and the canvas's width and height options; nothing scrolled |
| Viewport.BetterFrame.ScrollingWindows | src/betterframe.py:83-86 | a zero delta fails and scrolls nothing; otherwise one `WindowsSteps` scroll |
| Viewport.BetterFrame.ScrollingLinux | src/betterframe.py:88-92 | one `LinuxSteps` scroll |
| Viewport.BetterFrame.ScrollbarScrolling | src/betterframe.py:94-98 | the scroll region becomes `ScrollRegion` of the bounding box and the canvas size |
| Viewport.BetterFrame.Resize | src/betterframe.py:100-133 | no `fit`: each given dimension set on its own; `FIT_WIDTH` / `FIT_HEIGHT`: the inner frame's width / height copied, the other unchanged; any other `fit`: `ValueError`, nothing changed |
| Viewport.Create | src/betterframe.py:34-38 | a non-int speed fails the assertion before anything is built |
| Viewport.ScrollUpThenDown | src/betterframe.py:83-92 | a notch up and a notch down cancel out on both platforms |
| PipeProtocol.Ascii | src/terminaltk/terminal.py:158-166 | the bytes of an ASCII tag, one per character |
| PipeProtocol.AssertNoNull | src/terminaltk/terminal.py:147-149 | passes exactly for a `str` without NUL; otherwise an `AssertionError` |
| PipeProtocol.Texts | src/terminaltk/terminal.py:155 | the bytes of each argument, in order |
| PipeProtocol.EncodeArgs | src/terminaltk/terminal.py:151-155 | succeeds exactly when every argument is a NUL-free `str`; the region is never empty and ends with NUL |
| PipeProtocol.ToBytes2 | src/terminaltk/terminal.py:158-163 | `to_bytes(2, "big")`: two bytes reading back as `n` for 0 ≤ n < 65536, otherwise an `OverflowError` |
| PipeProtocol.EncodeRun | src/terminaltk/terminal.py:157-159 | succeeds exactly for an id and argument count under 65536, valid arguments and a `str` text; otherwise the first failing check's exception, in evaluation order |
| PipeProtocol.EncodeCheckStdout | src/terminaltk/terminal.py:161-163 | succeeds exactly for an id and argument count under 65536 and valid arguments; the errors as in `EncodeRun` |
| PipeProtocol.EncodePrint | src/terminaltk/terminal.py:165-167 | succeeds exactly for a NUL-free `str`; otherwise an `AssertionError` |
| PipeProtocol.FirstNul | src/terminaltk/terminal.py:151-167 | the first NUL of the bytes, none exactly for NUL-free bytes |
| PipeProtocol.FirstNulAfter | src/terminaltk/terminal.py:151-155 | the first NUL after a NUL-free part is its terminator |
| PipeProtocol.JoinTerminated | src/terminaltk/terminal.py:155 | NUL-joining and one closing NUL equals terminating each part, for at least one part |
| PipeProtocol.SplitTerminatedStep | src/terminaltk/terminal.py:155 | splitting off one NUL-terminated part |
| PipeProtocol.SplitTerminatedCons | src/terminaltk/terminal.py:155 | when the parts after the first split back, so do all the parts |
| PipeProtocol.SplitTerminatedRoundTrip | src/terminaltk/terminal.py:155 | NUL-terminated NUL-free parts split back into the parts and what follows |
| PipeProtocol.SplitArgsRoundTrip | src/terminaltk/terminal.py:151-155 | with the count known, the arguments region splits back into the arguments |
| PipeProtocol.EmptyArgsAmbiguous | src/terminaltk/terminal.py:151-163 | `[]` and `[""]` give the same region, told apart only by the argument count |
| PipeProtocol.HeaderRoundTrip | src/terminaltk/terminal.py:157-163 | the tag, id, count and arguments read back from any frame that starts with them |
| PipeProtocol.RunRoundTrip | src/terminaltk/terminal.py:157-159 | a `RUN` frame reads back as its id, arguments and text |
| PipeProtocol.CheckStdoutRoundTrip | src/terminaltk/terminal.py:161-163 | a `CHECK_STDOUT` frame reads back as its id and arguments |
| PipeProtocol.PrintRoundTrip | src/terminaltk/terminal.py:165-167 | a `PRINTSTR` frame reads back as its text, and its only NUL is the last byte |
| PipeProtocol.Digits | src/terminaltk/terminal.py:123 | the decimal digits of a natural number: non-empty, all digits |
| PipeProtocol.Decimal | src/terminaltk/terminal.py:123 | Python's `str` of an int: digits, after a minus sign when negative |
| PipeProtocol.DigitsRoundTrip | src/terminaltk/terminal.py:123 | the digits read back as the number |
| PipeProtocol.DecimalRoundTrip | src/terminaltk/terminal.py:123 | `str` of an int reads back as the int |
| PipeProtocol.ResizeSequence | src/terminaltk/terminal.py:123 | the escape sequence `ESC [ 4 ; height ; width t` is ASCII without NUL, so it passes the NUL check |
| PipeProtocol.ResizeFrame | src/terminaltk/terminal.py:120-123 | `XTermTerminal.resize` writes a `PRINTSTR` frame whose text is the resize sequence |
| PipeProtocol.ResizeFrameSizes | src/terminaltk/terminal.py:120-123 | height and width read back from the sequence in that order |
| SpriteDiff.Grid | src/terminaltk/sprites/diff.py:17-44 | an image's pixels as a grid, indexed `[x][y]` |
| SpriteDiff.SquareEq | src/terminaltk/sprites/diff.py:17-44 | two square grids equal pixel for pixel are equal |
| SpriteDiff.Diff | src/terminaltk/sprites/diff.py:21-28 | each pixel: the new pixel where the images differ, `DIFF_BG` where they agree |
| SpriteDiff.FlipX | src/terminaltk/sprites/diff.py:40-43 | the grid mirrored left to right |
| SpriteDiff.FlipY | src/terminaltk/sprites/diff.py:40-43 | the grid mirrored top to bottom |
| SpriteDiff.Uniform | src/terminaltk/sprites/diff.py:21 | a grid of one colour |
| SpriteDiff.FlipTwice | src/terminaltk/sprites/diff.py:40-43 | each mirror is an involution |
| SpriteDiff.DiffSelf | src/terminaltk/sprites/diff.py:25-28 | an image's diff with itself is all background |
| SpriteDiff.DiffUniform | src/terminaltk/sprites/diff.py:25-28 | a diff is all background exactly when, at every pixel, the images agree or the new pixel is the background colour |
| SpriteDiff.Patch | src/terminaltk/sprites/diff.py:25-28 | laying a diff on the old image: the diff's pixel where it is not background |
| SpriteDiff.PatchDiff | src/terminaltk/sprites/diff.py:25-28 | the diff rebuilds the new image from the old one unless a changed pixel took the background colour |
| SpriteDiff.SymmetricDiff | src/terminaltk/sprites/diff.py:25-43 | an image that is its own mirror has an all-background diff with its mirror |
| SpriteDiff.ComputeDiff | src/terminaltk/sprites/diff.py:17-29 | an `AssertionError` exactly when the sizes differ or the image is not square; otherwise a new image of the same size holding `Diff` |
| SpriteDiff.FlipImg | src/terminaltk/sprites/diff.py:31-44 | an `AssertionError` exactly for a non-square image; otherwise two new, distinct images of its size holding `FlipX` and `FlipY` |
| SpriteDiff.FlipColumn | src/terminaltk/sprites/diff.py:40-43 | the inner loop for one column: it lands in the mirrored column of the x-mirror and upside down in the same column of the y-mirror; every other column is left alone |
| SpriteDiff.FlipBack | src/terminaltk/sprites/diff.py:31-44 | flipping the x-mirror again gives back the original pixels |

The contracts above are stated through these specification functions.
They have no rows of their own because each one is a definition, and
the rows' members prove its properties:

- `Settings.Overlay` (src/bettertk/win.py:94-117): the settings after a
  `config`, where every given argument overwrites its field.
- `Resize.Merge` (src/bettertk/win.py:793-801): the parameter list after
  `update_resizing_params`, where every non-`None` entry overwrites its slot.
- `FallbackTk.StripCalls` (src/bettertk/notitlebartk.py:54-72): the calls
  the decoration strip makes, given the replies of the Windows calls.
- `FallbackTk.EnterCalls`, `FallbackTk.LeaveCalls`,
  `FallbackTk.NoTitlebarTk.EnteredFullscreen` and
  `FallbackTk.NoTitlebarTk.LeftFullscreen`
  (src/bettertk/notitlebartk.py:95-108): the calls and the final state of
  `fullscreen` on a window that was not fullscreen, and of `notfullscreen`
  on one that was.
- `X11Tk.Step` (src/bettertk/notitlebartk_x11.py:164-200): how each of the
  six flag operations changes the fullscreen and maximised flags.
- `TabStrip.Midpoint`, `TabStrip.SlotFrom` and `TabStrip.SlotAt`
  (src/notebook.py:164-171): the midpoint of each notch, and the first slot
  whose midpoint lies past the pointer (the last slot when there is none).
- `TabStrip.MoveSource` (src/notebook.py:173-181): where each element of
  the list after `pop` and `insert` comes from.
- `TabStrip.TabNotches.Held` (src/notebook.py:130-137): the notch list as it
  would be if the dragged notch were dropped now.

## Left out

- Widget construction, layout, colours and theming, the title bar buttons' `show` / `hide`, focus colours, tab notch drawing and renaming, `iconbitmap`, `messagebox.py` and `test.py`. These are UI glue with no logic to state.
- Calls into Tk, Xlib and user32 are not executed. Each call becomes an entry in a `log`; its return value becomes a parameter (`Replies`, `XReplies`, `WinReplies`).
- Reflection that copies the Tk window's methods onto the object (`dir()` / `setattr`) is left out. The object's own methods are modelled directly.
- The `after(10, …)` / `after(20, …)` callbacks in notitlebartk.py are logged as calls, with no timing.
- `winfo_*` queries, pointer positions, `bbox`, notch widths and inner-frame sizes are parameters.
- `bbox("all")` returning `None` for an empty canvas is not modelled. Every model frame has a window item.
- `is_full_screen` (win.py:361) is a parameter of the handlers that read it. In the source it is always `False`.
- Viewport.WindowsSteps (and so Viewport.BetterFrame.ScrollingWindows): the float arithmetic of `scrolling_windows` is left out. The step is the integer `-sign(delta) * scroll_speed`. It matches the source's `int(...)` only while `abs(scroll_speed) <= 2**53`. Beyond that the float product rounds, and beyond about 1.8e308 the float conversion raises `OverflowError`; the model captures neither.
- Strings passed to the pipe protocol are modelled as their UTF-8 bytes, without the encoding itself. `str` arguments are `Text(bytes)`; anything else is `NonText`.
- `_encode_args`' check that `args` is a tuple or list is left out: arguments are always a sequence.
- `BaseTerminal` / `XTermTerminal` process handling is left out: `start`, `run`, pipes, signals and the debug thread.
- XTermTerminal.resize's `isinstance(..., int)` assertions are left out. Width and height are ints in the model, so a `bool`, which Python would print as "True", cannot be passed.
- diff.py's module-level script is left out: the `creator` imports, timing and display. So are the labels `img_label` and `text_label`.
- `TabNotches.clicked` / `close` and `NotebookPage` are left out: they only forward to the page.
- Resize.UpdateResizingParams: requires the tuple to be no longer than the list. The source's tuples always have four entries; a longer one would raise `IndexError`, which the model does not capture.
- What Xlib and user32 do when handed the NULL display or NULL window handle that `XOpenDisplay` or `GetParent` may return is not modelled. The result of each later call is a reply parameter like any other.
- X11Tk: the module-level `_default_root` of notitlebartk_x11.py is an explicit `DefaultRoot` object passed in, rather than a module global. notitlebartk_win.py has no such global.
- Attributes.LowerChar: lowers A-Z only, not the non-ASCII letters Python's `str.lower` also lowers. The `"-fullscreen"` test is unaffected, because no other character lowers to '1', 't', 'r', 'u' or 'e'.
- Attributes.Lower: ASCII lower-casing, which keeps the length; `str.lower` can change it (a dotted capital I lowers to two code points). As for `LowerChar`, the `"-fullscreen"` test is unaffected.
- WinTk: notitlebartk_win.py declares `LONG_PTR` as `ctypes.c_long`, which is 32 bits on Windows. The style words are therefore the whole word, as `bv32`. A word with its top bit set is a negative int in Python; the model keeps its bit pattern, which is what user32 receives. (notitlebartk.py declares `LONG_PTR` as the unsigned `ctypes.c_uint`, also `bv32`.)

## Findings

| source | as written | input that shows it | evidently intended | confidence | as-written member | corrected member |
|---|---|---|---|---|---|---|
| src/bettertk/win.py:221-229 | `notfullscreen` tests `self.betterroot._fullscreen`, an attribute `BetterTk` never has | call `fullscreen_button.fullscreen()` on a resizable window, then press the button (its command is now `notfullscreen`) | test the window's fullscreen flag, leave fullscreen, and set the command back to `fullscreen` | high; not executed | Chrome.FullScreenButton.NotfullscreenAsWritten, Chrome.ButtonRoundTripAsWritten | Chrome.FullScreenButton.Notfullscreen, Chrome.ButtonRoundTrip |
| src/notebook.py:130-137 | `end_dragging` writes the pressed notch into slot `tmp_notch.idx` even when no drag began, so the slot is stale from the last drag or was never set | drag notch 0 back into slot 0, then click notch 1 without moving: the list becomes `[notch 1, notch 1]`; a click before any drag raises `AttributeError` | write the notch back only when a drag is under way | high; not executed | TabStrip.TabNotches.EndDraggingAsWritten, TabStrip.ClickAfterDragAsWritten, TabStrip.FirstClickAsWritten | TabStrip.TabNotches.EndDragging, TabStrip.ClickAfterDrag, TabStrip.TabNotches.Drag, TabStrip.DragCycle |

The following follow from the code and are faithful to it. They are recorded
rather than corrected:

- notitlebartk.py leaves `locked` set when a user32 call fails, so the
  window is never stripped again (`FallbackTk.FailureLocksForever`).
- The X11 constructor sets `_default_root` before the strip, and leaves it
  set when the strip fails (`X11Tk.FailedWindowStaysDefaultRoot`).
- The display is not closed when an Xlib call fails
  (`X11Tk.DisplayClosedOnlyAfterFullRun`).
- The zero checks on `XOpenDisplay` and `GetParent` can never fire. Both
  return pointers, which ctypes hands back as `None` when NULL, and
  `None == 0` is false. A NULL display is passed on to `XQueryTree`
  (`X11Tk.QueryTreeAlwaysRuns`), and a NULL parent becomes `self.hwnd = None`
  and is passed on to `GetWindowLongPtrW` (`FallbackTk.NullParentReadsStyle`).
  What Xlib and user32 do with a NULL argument is their reply, a parameter
  of the model.
- `SetWindowLongPtrW` returning 0 counts as a failure even when the previous
  style really was 0.
- `tab_destroy` leaves the closed page's notch in the strip's list.
- Switching tabs follows creation order (`pages`), not the order of the
  notches after a drag.
- With a single page selected, switching deselects it.
- `encode_run` does not NUL-check the text it appends.
- `[]` and `[""]` encode to the same argument region.
- A `bool` is accepted as `scroll_speed`.
- `DIFF_BG` is assigned three times in diff.py; the last value, indigo
  (75, 0, 130, 255), is the one used.
