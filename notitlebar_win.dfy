/** The `NoTitlebarTk` of notitlebartk_win.py: a Tk window whose caption and
    resizing frame are cleared from its window style through user32, at
    construction and again whenever it leaves fullscreen. The user32 and Tk
    calls are recorded in `log`; their return values come in as
    `WinReplies`. */
module WinTk {
  import opened Errors
  import opened Attributes
  import FallbackTk

  const GWL_STYLE := -16
  const GWLP_HWNDPARENT := -8
  const WS_CAPTION: bv32 := 0x00C0_0000
  const WS_THICKFRAME: bv32 := 0x0004_0000

  /** The style `_overrideredirect` writes back: the old style without the
      title bar (`WS_CAPTION`) and the resizing border (`WS_THICKFRAME`). */
  function StripStyle(style: bv32): (r: bv32)
    ensures r & WS_CAPTION == 0 && r & WS_THICKFRAME == 0
    ensures r & !(WS_CAPTION | WS_THICKFRAME) == style & !(WS_CAPTION | WS_THICKFRAME)
  {
    style & !(WS_CAPTION | WS_THICKFRAME)
  }

  /** Stripping an already stripped style writes it back unchanged. */
  lemma StripStyleIdempotent(style: bv32)
    ensures StripStyle(StripStyle(style)) == StripStyle(style)
  {
  }

  /** A call the window makes into Tk or user32. */
  datatype Effect =
    | TkCreate
    | ToplevelCreate(master: nat)
    | UpdateIdletasks
    | WinfoId
    | GetWindowLongPtr(hwnd: int, index: int)
    | SetWindowLongPtr(hwnd: int, index: int, style: bv32)
    | TkAttributes(args: seq<PyValue>)

  /** What `winfo_id`, the two `GetWindowLongPtrW` calls (the parent window,
      then its style) and `SetWindowLongPtrW` (the previous style) return. */
  datatype WinReplies = WinReplies(id: int, hwnd: int, style: bv32, previous: bv32)

  predicate Succeeds(x: WinReplies) {
    x.hwnd != 0 && x.style != 0 && x.previous != 0
  }

  /** The calls `_overrideredirect` makes once it has the parent window. */
  function StyleCalls(x: WinReplies): seq<Effect> {
    [GetWindowLongPtr(x.hwnd, GWL_STYLE)] +
    if x.style == 0 then [] else [SetWindowLongPtr(x.hwnd, GWL_STYLE, StripStyle(x.style))]
  }

  /** The calls `_overrideredirect` makes, up to and including the first
      failing one. */
  function WinCalls(x: WinReplies): seq<Effect> {
    [UpdateIdletasks, WinfoId, GetWindowLongPtr(x.id, GWLP_HWNDPARENT)] +
    if x.hwnd == 0 then [] else StyleCalls(x)
  }

  /** The style is written, to the parent window, exactly when both reads
      succeeded; the write is the last call. */
  lemma WinCallsWriteStyle(x: WinReplies)
    ensures (exists e :: e in WinCalls(x) && e.SetWindowLongPtr?) <==> x.hwnd != 0 && x.style != 0
    ensures x.hwnd != 0 && x.style != 0 ==>
      WinCalls(x)[|WinCalls(x)| - 1] == SetWindowLongPtr(x.hwnd, GWL_STYLE, StripStyle(x.style))
  {
    if x.hwnd != 0 && x.style != 0 {
      assert WinCalls(x)[4].SetWindowLongPtr?;
    }
  }

  const EnterFullscreen := TkAttributes([Str("-fullscreen"), Bool(true)])
  const LeaveFullscreen := TkAttributes([Str("-fullscreen"), Bool(false)])

  class NoTitlebarTk {
    var fullscreen: bool
    var log: seq<Effect>

    /** The Tk window under the object: a `tk.Tk` without a master, a
        `tk.Toplevel` otherwise. */
    constructor (master: Master)
      requires !master.NotAWidget?
      ensures !fullscreen
      ensures log == (if master.NoMaster? then [TkCreate] else [ToplevelCreate(master.id)])
    {
      fullscreen := false;
      log := if master.NoMaster? then [TkCreate] else [ToplevelCreate(master.id)];
    }

    /** `get_handle`: the window's parent, read with `GWLP_HWNDPARENT`; zero
        raises. */
    method GetHandle(x: WinReplies) returns (r: Result<int>)
      modifies this`log
      ensures r.Ok? <==> x.hwnd != 0
      ensures r.Ok? ==> r.value == x.hwnd
      ensures r.Err? ==> r.error.OSError?
      ensures log == old(log) + [UpdateIdletasks, WinfoId, GetWindowLongPtr(x.id, GWLP_HWNDPARENT)]
    {
      log := log + [UpdateIdletasks, WinfoId, GetWindowLongPtr(x.id, GWLP_HWNDPARENT)];
      var checked := FallbackTk.ErrcheckNotZero(Int(x.hwnd), ());
      if checked.Err? {
        return Err(checked.error);
      }
      r := Ok(x.hwnd);
    }

    /** `_overrideredirect`: reads the parent's style and writes it back
        without caption and frame. A zero return value raises. */
    method OverrideRedirect(x: WinReplies) returns (r: Outcome)
      modifies this`log
      ensures r == Pass <==> Succeeds(x)
      ensures r.Fail? ==> r.error.OSError?
      ensures log == old(log) + WinCalls(x)
    {
      var hwnd := GetHandle(x);
      if hwnd.Err? {
        return Fail(hwnd.error);
      }
      r := WriteStyle(x);
    }

    /** The part of `_overrideredirect` that runs once the handle is known. */
    method WriteStyle(x: WinReplies) returns (r: Outcome)
      requires x.hwnd != 0
      modifies this`log
      ensures r == Pass <==> x.style != 0 && x.previous != 0
      ensures r.Fail? ==> r.error.OSError?
      ensures log == old(log) + StyleCalls(x)
    {
      log := log + [GetWindowLongPtr(x.hwnd, GWL_STYLE)];
      r := CheckWord(x.style);
      if r.Fail? {
        return;
      }
      log := log + [SetWindowLongPtr(x.hwnd, GWL_STYLE, StripStyle(x.style))];
      r := CheckWord(x.previous);
    }

    /** `_errcheck_not_zero` on a `LONG_PTR` result. */
    static method CheckWord(value: bv32) returns (r: Outcome)
      ensures r == Pass <==> value != 0
      ensures r.Fail? ==> r.error.OSError?
    {
      var checked := FallbackTk.ErrcheckNotZero(Int(value as int), ());
      if checked.Err? {
        assert value == 0;
        return Fail(checked.error);
      }
      assert value != 0;
      r := Pass;
    }

    /** `overrideredirect` / `wm_overrideredirect`: always refused. */
    method Overrideredirect(boolean: Option<bool>) returns (r: Outcome)
      ensures r == Fail(RuntimeError)
    {
      r := Fail(RuntimeError);
    }

    /** `fullscreen`: a no-op when already fullscreen. */
    method Fullscreen()
      modifies this
      ensures fullscreen
      ensures log == old(log) + (if old(fullscreen) then [] else [EnterFullscreen])
    {
      if fullscreen {
        return;
      }
      fullscreen := true;
      log := log + [EnterFullscreen];
    }

    /** `notfullscreen`: a no-op unless fullscreen; otherwise it leaves
        fullscreen and strips the style again. */
    method Notfullscreen(x: WinReplies) returns (r: Outcome)
      modifies this
      ensures !fullscreen
      ensures !old(fullscreen) ==> r == Pass && log == old(log)
      ensures old(fullscreen) ==>
        (r == Pass <==> Succeeds(x)) && log == old(log) + [LeaveFullscreen] + WinCalls(x)
      ensures r.Fail? ==> r.error.OSError?
    {
      if !fullscreen {
        return Pass;
      }
      fullscreen := false;
      log := log + [LeaveFullscreen];
      r := OverrideRedirect(x);
    }

    /** `toggle_fullscreen`: `fullscreen` or `notfullscreen`, whichever
        changes the flag. */
    method ToggleFullscreen(x: WinReplies) returns (r: Outcome)
      modifies this
      ensures fullscreen == !old(fullscreen)
      ensures !old(fullscreen) ==> r == Pass && log == old(log) + [EnterFullscreen]
      ensures old(fullscreen) ==>
        (r == Pass <==> Succeeds(x)) && (r.Fail? ==> r.error.OSError?) &&
        log == old(log) + [LeaveFullscreen] + WinCalls(x)
    {
      if fullscreen {
        r := Notfullscreen(x);
      } else {
        Fullscreen();
        r := Pass;
      }
    }

    /** `attributes`: "-fullscreen" calls go to `fullscreen` or
        `notfullscreen`; everything else is handed to Tk. */
    method Attributes(args: seq<PyValue>, x: WinReplies) returns (r: Outcome)
      modifies this
      ensures Route(args) == On ==>
        r == Pass && fullscreen && log == old(log) + (if old(fullscreen) then [] else [EnterFullscreen])
      ensures Route(args) == Off ==> !fullscreen
      ensures Route(args) == Off && !old(fullscreen) ==> r == Pass && log == old(log)
      ensures Route(args) == Off && old(fullscreen) ==>
        (r == Pass <==> Succeeds(x)) && (r.Fail? ==> r.error.OSError?) &&
        log == old(log) + [LeaveFullscreen] + WinCalls(x)
      ensures Route(args) == PassThrough ==>
        r == Pass && fullscreen == old(fullscreen) && log == old(log) + [TkAttributes(args)]
    {
      match Route(args)
      case On =>
        Fullscreen();
        r := Pass;
      case Off =>
        r := Notfullscreen(x);
      case PassThrough =>
        log := log + [TkAttributes(args)];
        r := Pass;
    }
  }

  /** The constructor: a master that is neither `None` nor a widget raises
      `ValueError`; otherwise the window is created and its style stripped,
      and a failing user32 call raises. */
  method Create(master: Master, x: WinReplies) returns (r: Result<NoTitlebarTk>)
    ensures master.NotAWidget? ==> r == Err(ValueError)
    ensures !master.NotAWidget? ==> (r.Ok? <==> Succeeds(x))
    ensures r.Err? && !master.NotAWidget? ==> r.error.OSError?
    ensures r.Ok? ==>
      fresh(r.value) && !r.value.fullscreen &&
      r.value.log == (if master.NoMaster? then [TkCreate] else [ToplevelCreate(master.id)]) + WinCalls(x)
  {
    if master.NotAWidget? {
      return Err(ValueError);
    }
    var w := new NoTitlebarTk(master);
    var o := w.OverrideRedirect(x);
    if o.Fail? {
      return Err(o.error);
    }
    r := Ok(w);
  }

  /** Leaving fullscreen writes the same stripped style the constructor
      wrote, when the window reports the same style both times. */
  method FullscreenRoundTrip(x: WinReplies) returns (w: Result<NoTitlebarTk>, back: Outcome)
    requires Succeeds(x)
    ensures w.Ok? && back == Pass
    ensures !w.value.fullscreen
    ensures w.value.log == [TkCreate] + WinCalls(x) + [EnterFullscreen, LeaveFullscreen] + WinCalls(x)
  {
    w := Create(NoMaster, x);
    w.value.Fullscreen();
    back := w.value.Notfullscreen(x);
  }
}
