/** The `NoTitlebarTk` of notitlebartk_x11.py: a Tk window whose decorations
    are removed once, at construction, by writing `_MOTIF_WM_HINTS` on its
    parent window through Xlib; it also keeps fullscreen and maximised apart.
    The Xlib and Tk calls are recorded in `log`; their return values come in
    as `XReplies`. */
module X11Tk {
  import opened Errors
  import opened Attributes
  import FallbackTk

  const PropModeReplace := 0
  const XA_ATOM := 4

  /** `errcheck_zero` (used for `XCloseDisplay`): any value but zero raises;
      zero hands the call's arguments back. `errcheck_not_zero` is the same
      check as `FallbackTk.ErrcheckNotZero`. */
  function ErrcheckZero<T>(value: int, args: T): (r: Result<T>)
    ensures r.Err? <==> value != 0
    ensures r.Ok? ==> r.value == args
    ensures r.Err? ==> r.error == OSError(value)
  {
    if value != 0 then Err(OSError(value)) else Ok(args)
  }

  /** The five words of the `HINTS` structure `_overrideredirect` writes:
      flags, functions, decorations, input mode, status. */
  function MotifHints(): (h: seq<int>)
    ensures |h| == 5
    ensures h[0] == 2     // only the decorations field is meant
    ensures h[2] == 0     // no decorations
  {
    [2, 0, 0, 0, 0]
  }

  /** A call the window makes into Tk or Xlib. */
  datatype Effect =
    | TkCreate
    | ToplevelCreate(master: nat)
    | UpdateIdletasks
    | WinfoId
    | XOpenDisplay
    | XQueryTree(display: int, window: int)
    | XInternAtom(display: int, name: string)
    | XChangeProperty(display: int, window: int, property: int, propertyType: int,
                      format: int, mode: int, data: seq<int>, nelements: int)
    | XFlush(display: int)
    | XCloseDisplay(display: int)
    | TkAttributes(args: seq<PyValue>)
    | TkDestroy

  /** What `winfo_id` and the Xlib calls return; `display` is the raw
      pointer `XOpenDisplay` returns (0 for NULL) and `parent` is what
      `XQueryTree` stores through its parent pointer. */
  datatype XReplies = XReplies(handle: int, display: int, queryTree: int, parent: int,
                               atom: int, change: int, flush: int, close: int)

  /** The strip succeeds exactly when every Xlib call after `XOpenDisplay`
      does: the zero check on the display pointer never fires
      (`FallbackTk.PointerPassesCheck`). */
  predicate Succeeds(x: XReplies) {
    x.queryTree != 0 && x.atom != 0 && x.change != 0 && x.flush != 0 && x.close == 0
  }

  /** The calls `_overrideredirect` makes after `XOpenDisplay`, up to and
      including the first failing one. */
  function DisplayCalls(x: XReplies): seq<Effect> {
    [XQueryTree(x.display, x.handle)] +
    if x.queryTree == 0 then [] else
    [XInternAtom(x.display, "_MOTIF_WM_HINTS")] +
    if x.atom == 0 then [] else
    [XChangeProperty(x.display, x.parent, x.atom, XA_ATOM, 32, PropModeReplace, MotifHints(), 5)] +
    if x.change == 0 then [] else
    [XFlush(x.display)] +
    if x.flush == 0 then [] else
    [XCloseDisplay(x.display)]
  }

  /** The calls `_overrideredirect` makes, up to and including the first
      failing one. */
  function X11Calls(x: XReplies): seq<Effect> {
    [UpdateIdletasks, WinfoId, XOpenDisplay] + DisplayCalls(x)
  }

  /** A NULL display does not stop the run: `XQueryTree` is always called
      with whatever `XOpenDisplay` returned. */
  lemma QueryTreeAlwaysRuns(x: XReplies)
    ensures |X11Calls(x)| >= 4 && X11Calls(x)[3] == XQueryTree(x.display, x.handle)
  {
  }

  /** The display `_overrideredirect` opens is closed only when every call
      before `XCloseDisplay` succeeded: an earlier failure leaves it open. */
  lemma DisplayClosedOnlyAfterFullRun(x: XReplies)
    ensures XCloseDisplay(x.display) in X11Calls(x) <==>
      x.queryTree != 0 && x.atom != 0 && x.change != 0 && x.flush != 0
    ensures Succeeds(x) ==> X11Calls(x)[|X11Calls(x)| - 1] == XCloseDisplay(x.display)
  {
    if x.queryTree != 0 && x.atom != 0 && x.change != 0 && x.flush != 0 {
      assert X11Calls(x)[|X11Calls(x)| - 1] == XCloseDisplay(x.display);
    }
  }

  /** A successful run writes the hints on the window's parent, which is
      where the window manager draws the decorations. */
  lemma HintsGoToParent(x: XReplies)
    ensures Succeeds(x) ==>
      X11Calls(x)[5] == XChangeProperty(x.display, x.parent, x.atom, XA_ATOM, 32, PropModeReplace, MotifHints(), 5)
  {
  }

  /** The flags the window keeps. */
  datatype Flags = Flags(fullscreen: bool, maximised: bool)

  /** The six flag operations. */
  datatype Op = FullscreenOp | NotfullscreenOp | ToggleFullscreenOp
              | MaximisedOp | NotmaximisedOp | ToggleMaximisedOp

  /** How each operation changes the flags: entering one state leaves the
      other; leaving a state only clears its own flag. */
  function Step(f: Flags, op: Op): Flags {
    match op
    case FullscreenOp => if f.fullscreen then f else Flags(true, false)
    case NotfullscreenOp => f.(fullscreen := false)
    case ToggleFullscreenOp => if f.fullscreen then f.(fullscreen := false) else Flags(true, false)
    case MaximisedOp => if f.maximised then f else Flags(false, true)
    case NotmaximisedOp => f.(maximised := false)
    case ToggleMaximisedOp => if f.maximised then f.(maximised := false) else Flags(false, true)
  }

  /** The window is never both fullscreen and maximised. */
  predicate Exclusive(f: Flags) {
    !(f.fullscreen && f.maximised)
  }

  lemma StepKeepsExclusive(f: Flags, op: Op)
    requires Exclusive(f)
    ensures Exclusive(Step(f, op))
  {
  }

  /** The non-toggling operations are idempotent, and each reaches its
      target state. */
  lemma StepIdempotent(f: Flags, op: Op)
    requires op != ToggleFullscreenOp && op != ToggleMaximisedOp
    ensures Step(Step(f, op), op) == Step(f, op)
    ensures op == FullscreenOp ==> Step(f, op).fullscreen
    ensures op == NotfullscreenOp ==> !Step(f, op).fullscreen
    ensures op == MaximisedOp ==> Step(f, op).maximised
    ensures op == NotmaximisedOp ==> !Step(f, op).maximised
  {
  }

  /** A toggle flips its own flag; toggling fullscreen twice brings back the
      fullscreen flag but not a maximised state it left. */
  lemma ToggleTwice(f: Flags)
    requires Exclusive(f)
    ensures Step(f, ToggleFullscreenOp).fullscreen == !f.fullscreen
    ensures Step(f, ToggleMaximisedOp).maximised == !f.maximised
    ensures Step(Step(f, ToggleFullscreenOp), ToggleFullscreenOp) == f.(maximised := false)
    ensures Step(Step(f, ToggleMaximisedOp), ToggleMaximisedOp) == f.(fullscreen := false)
  {
  }

  const EnterFullscreen := TkAttributes([Str("-fullscreen"), Bool(true)])
  const LeaveFullscreen := TkAttributes([Str("-fullscreen"), Bool(false)])
  const EnterZoomed := TkAttributes([Str("-zoomed"), Bool(true)])
  const LeaveZoomed := TkAttributes([Str("-zoomed"), Bool(false)])

  class NoTitlebarTk {
    var fullscreen: bool
    var maximised: bool
    var log: seq<Effect>

    function State(): Flags
      reads this
    {
      Flags(fullscreen, maximised)
    }

    /** The Tk window under the object: a `tk.Tk` without a master, a
        `tk.Toplevel` otherwise. */
    constructor (master: Master)
      requires !master.NotAWidget?
      ensures !fullscreen && !maximised
      ensures log == (if master.NoMaster? then [TkCreate] else [ToplevelCreate(master.id)])
    {
      fullscreen, maximised := false, false;
      log := if master.NoMaster? then [TkCreate] else [ToplevelCreate(master.id)];
    }

    /** `_overrideredirect`: asks Xlib for the window's parent and writes
        `_MOTIF_WM_HINTS` with no decorations on it. A failing Xlib call
        raises `OSError`; a NULL display passes the check and is handed to
        the later calls. */
    method OverrideRedirect(x: XReplies) returns (r: Outcome)
      modifies this`log
      ensures r == Pass <==> Succeeds(x)
      ensures r.Fail? ==> r.error.OSError?
      ensures log == old(log) + X11Calls(x)
    {
      log := log + [UpdateIdletasks, WinfoId, XOpenDisplay];
      var display := FallbackTk.ErrcheckNotZero(FallbackTk.Pointer(x.display), ());
      FallbackTk.PointerPassesCheck(x.display, ());
      r := WriteHints(x);
    }

    /** The part of `_overrideredirect` that runs once `XOpenDisplay` has
        returned. */
    method WriteHints(x: XReplies) returns (r: Outcome)
      modifies this`log
      ensures r == Pass <==> Succeeds(x)
      ensures r.Fail? ==> r.error.OSError?
      ensures log == old(log) + DisplayCalls(x)
    {
      log := log + [XQueryTree(x.display, x.handle)];
      var tree := FallbackTk.ErrcheckNotZero(Int(x.queryTree), ());
      if tree.Err? {
        return Fail(tree.error);
      }
      log := log + [XInternAtom(x.display, "_MOTIF_WM_HINTS")];
      var atom := FallbackTk.ErrcheckNotZero(Int(x.atom), ());
      if atom.Err? {
        return Fail(atom.error);
      }
      log := log + [XChangeProperty(x.display, x.parent, x.atom, XA_ATOM, 32, PropModeReplace, MotifHints(), 5)];
      var change := FallbackTk.ErrcheckNotZero(Int(x.change), ());
      if change.Err? {
        return Fail(change.error);
      }
      log := log + [XFlush(x.display)];
      var flush := FallbackTk.ErrcheckNotZero(Int(x.flush), ());
      if flush.Err? {
        return Fail(flush.error);
      }
      log := log + [XCloseDisplay(x.display)];
      var close := ErrcheckZero(x.close, ());
      if close.Err? {
        return Fail(close.error);
      }
      r := Pass;
    }

    /** `overrideredirect` / `wm_overrideredirect`: always refused. */
    method Overrideredirect(boolean: Option<bool>) returns (r: Outcome)
      ensures r == Fail(RuntimeError)
    {
      r := Fail(RuntimeError);
    }

    /** `notmaximised`: a no-op unless maximised. */
    method Notmaximised()
      modifies this
      ensures State() == Step(old(State()), NotmaximisedOp)
      ensures log == old(log) + (if old(maximised) then [LeaveZoomed] else [])
    {
      if !maximised {
        return;
      }
      maximised := false;
      log := log + [LeaveZoomed];
    }

    /** `notfullscreen`: a no-op unless fullscreen. */
    method Notfullscreen()
      modifies this
      ensures State() == Step(old(State()), NotfullscreenOp)
      ensures log == old(log) + (if old(fullscreen) then [LeaveFullscreen] else [])
    {
      if !fullscreen {
        return;
      }
      fullscreen := false;
      log := log + [LeaveFullscreen];
    }

    /** `fullscreen`: a no-op when already fullscreen; otherwise it leaves
        the maximised state first. */
    method Fullscreen()
      modifies this
      ensures State() == Step(old(State()), FullscreenOp)
      ensures old(fullscreen) ==> log == old(log)
      ensures !old(fullscreen) ==> log == old(log) + (if old(maximised) then [LeaveZoomed] else []) + [EnterFullscreen]
    {
      if fullscreen {
        return;
      }
      fullscreen := true;
      Notmaximised();
      log := log + [EnterFullscreen];
    }

    /** `maximised`: a no-op when already maximised; otherwise it leaves
        fullscreen first. */
    method Maximised()
      modifies this
      ensures State() == Step(old(State()), MaximisedOp)
      ensures old(maximised) ==> log == old(log)
      ensures !old(maximised) ==> log == old(log) + (if old(fullscreen) then [LeaveFullscreen] else []) + [EnterZoomed]
    {
      if maximised {
        return;
      }
      maximised := true;
      Notfullscreen();
      log := log + [EnterZoomed];
    }

    /** `toggle_fullscreen`: `fullscreen` or `notfullscreen`, whichever
        changes the flag. */
    method ToggleFullscreen()
      modifies this
      ensures State() == Step(old(State()), ToggleFullscreenOp)
      ensures log == old(log) + (if old(fullscreen) then [LeaveFullscreen]
                                 else (if old(maximised) then [LeaveZoomed] else []) + [EnterFullscreen])
    {
      if fullscreen {
        Notfullscreen();
      } else {
        Fullscreen();
      }
    }

    /** `toggle_maximised`: `maximised` or `notmaximised`, whichever
        changes the flag. */
    method ToggleMaximised()
      modifies this
      ensures State() == Step(old(State()), ToggleMaximisedOp)
      ensures log == old(log) + (if old(maximised) then [LeaveZoomed]
                                 else (if old(fullscreen) then [LeaveFullscreen] else []) + [EnterZoomed])
    {
      if maximised {
        Notmaximised();
      } else {
        Maximised();
      }
    }

    /** `attributes`: "-type" is refused, "-fullscreen" goes to `fullscreen`
        or `notfullscreen`, everything else is handed to Tk. */
    method Attributes(args: seq<PyValue>) returns (r: Outcome)
      modifies this
      ensures X11Route(args) == Refused ==> r == Fail(RuntimeError) && State() == old(State()) && log == old(log)
      ensures X11Route(args) == On ==>
        r == Pass && State() == Step(old(State()), FullscreenOp) &&
        log == old(log) + (if old(fullscreen) then []
                           else (if old(maximised) then [LeaveZoomed] else []) + [EnterFullscreen])
      ensures X11Route(args) == Off ==>
        r == Pass && State() == Step(old(State()), NotfullscreenOp) &&
        log == old(log) + (if old(fullscreen) then [LeaveFullscreen] else [])
      ensures X11Route(args) == PassThrough ==>
        r == Pass && State() == old(State()) && log == old(log) + [TkAttributes(args)]
    {
      match X11Route(args)
      case Refused =>
        r := Fail(RuntimeError);
      case On =>
        Fullscreen();
        r := Pass;
      case Off =>
        Notfullscreen();
        r := Pass;
      case PassThrough =>
        log := log + [TkAttributes(args)];
        r := Pass;
    }

    /** `destroy`: forgets the window as the default root when it is one, and
        destroys the Tk window. */
    method Destroy(reg: DefaultRoot)
      modifies reg, this`log
      ensures reg.root == (if old(reg.root) == this then null else old(reg.root))
      ensures log == old(log) + [TkDestroy]
    {
      if reg.root == this {
        reg.root := null;
      }
      log := log + [TkDestroy];
    }
  }

  /** The module-level `_default_root`. */
  class DefaultRoot {
    var root: NoTitlebarTk?

    constructor ()
      ensures root == null
    {
      root := null;
    }
  }

  /** The constructor: a master that is neither `None` nor a widget raises
      `ValueError`. Without a master the window becomes the default root when
      there is none yet; the decorations are then removed, and a failing Xlib
      call raises. */
  method Create(master: Master, reg: DefaultRoot, x: XReplies) returns (r: Result<NoTitlebarTk>)
    modifies reg
    ensures master.NotAWidget? ==> r == Err(ValueError) && reg.root == old(reg.root)
    ensures !master.NotAWidget? ==> (r.Ok? <==> Succeeds(x))
    ensures r.Err? && !master.NotAWidget? ==> r.error.OSError?
    ensures r.Ok? ==>
      fresh(r.value) && !r.value.fullscreen && !r.value.maximised &&
      r.value.log == (if master.NoMaster? then [TkCreate] else [ToplevelCreate(master.id)]) + X11Calls(x)
    ensures master.NoMaster? && old(reg.root) == null ==>
      reg.root != null && fresh(reg.root) && (r.Ok? ==> reg.root == r.value)
    ensures !(master.NoMaster? && old(reg.root) == null) ==> reg.root == old(reg.root)
  {
    if master.NotAWidget? {
      return Err(ValueError);
    }
    var w := new NoTitlebarTk(master);
    if master.NoMaster? && reg.root == null {
      reg.root := w;
    }
    var o := w.OverrideRedirect(x);
    if o.Fail? {
      return Err(o.error);
    }
    r := Ok(w);
  }

  /** A first window whose decorations could not be removed stays the
      default root, so a second window created without a master is not. */
  method FailedWindowStaysDefaultRoot(bad: XReplies, good: XReplies)
    returns (first: Result<NoTitlebarTk>, second: Result<NoTitlebarTk>, reg: DefaultRoot)
    requires !Succeeds(bad) && Succeeds(good)
    ensures first.Err? && second.Ok?
    ensures reg.root != null && reg.root != second.value
  {
    reg := new DefaultRoot();
    first := Create(NoMaster, reg, bad);
    second := Create(NoMaster, reg, good);
  }
}
