/** The `NoTitlebarTk` of notitlebartk.py, the one `BetterTk` builds on: a Tk
    window whose decorations are stripped by a `<Map>` handler that sets the
    window's extended style through user32. The foreign calls are recorded in
    `log`; their return values come in as `Replies`. */
module FallbackTk {
  import opened Errors
  import opened Attributes

  const GWL_EXSTYLE := -20
  const WS_EX_APPWINDOW: bv32 := 0x0004_0000
  const WS_EX_TOOLWINDOW: bv32 := 0x0000_0080

  /** `_errcheck_not_zero`: a result equal to 0 (an int 0, or `False`) is the
      failure sentinel and raises; any other value hands the call's arguments
      back. */
  function ErrcheckNotZero<T>(value: PyValue, args: T): (r: Result<T>)
    ensures r.Err? <==> value == Int(0) || value == Bool(false)
    ensures r.Ok? ==> r.value == args
    ensures r.Err? ==> r.error == OSError(0)
  {
    if value == Int(0) || value == Bool(false) then Err(OSError(0)) else Ok(args)
  }

  /** The Python value ctypes makes of a pointer result (`c_void_p`, `HWND`):
      `None` for the NULL pointer, the address as an int otherwise. */
  function Pointer(raw: int): (v: PyValue)
    ensures v == NoneValue <==> raw == 0
    ensures raw != 0 ==> v == Int(raw)
  {
    if raw == 0 then NoneValue else Int(raw)
  }

  /** The zero check cannot reject a pointer result: NULL arrives as `None`,
      which is not equal to 0, and no other address is 0. */
  lemma PointerPassesCheck<T>(raw: int, args: T)
    ensures ErrcheckNotZero(Pointer(raw), args) == Ok(args)
  {
  }

  /** The extended style `_overrideredirect` writes back: a taskbar window
      (`WS_EX_APPWINDOW`) that is not a tool window (`WS_EX_TOOLWINDOW`). */
  function NewExStyle(style: bv32): (r: bv32)
    ensures r & WS_EX_TOOLWINDOW == 0
    ensures r & WS_EX_APPWINDOW == WS_EX_APPWINDOW
    ensures r & !(WS_EX_TOOLWINDOW | WS_EX_APPWINDOW) == style & !(WS_EX_TOOLWINDOW | WS_EX_APPWINDOW)
  {
    (style & !WS_EX_TOOLWINDOW) | WS_EX_APPWINDOW
  }

  /** Writing the new style again changes nothing more. */
  lemma NewExStyleIdempotent(style: bv32)
    ensures NewExStyle(NewExStyle(style)) == NewExStyle(style)
  {
  }

  /** A call the window makes into Tk or user32. */
  datatype Effect =
    | CreateTk
    | MapBound(id: nat)
    | MapUnbound(id: nat)
    | SetOverrideredirect(on: bool)
    | UpdateIdletasks
    | GetParent
    | GetWindowLong(hwnd: int, index: int)
    | SetWindowLong(hwnd: int, index: int, style: bv32)
    | Withdraw
    | After(ms: int, callback: string)
    | TkIconify
    | TkUpdate
    | TkAttributes(args: seq<PyValue>)

  /** What `GetParent` (the raw pointer, 0 for NULL), `GetWindowLongPtrW`
      and `SetWindowLongPtrW` return. */
  datatype Replies = Replies(parent: int, style: bv32, previous: bv32)

  /** The strip succeeds exactly when both style words are non-zero: the
      check on `GetParent` never fires (`PointerPassesCheck`). */
  predicate Succeeds(replies: Replies) {
    replies.style != 0 && replies.previous != 0
  }

  /** The calls `_overrideredirect` makes once it has the window's handle,
      up to and including the first failing one. */
  function StyleCalls(replies: Replies): seq<Effect> {
    [GetWindowLong(replies.parent, GWL_EXSTYLE)] +
    if replies.style == 0 then [] else
    [SetWindowLong(replies.parent, GWL_EXSTYLE, NewExStyle(replies.style))] +
    if replies.previous == 0 then [] else
    [Withdraw, After(10, "deiconify"), After(20, "focus_force")]
  }

  /** The calls `_overrideredirect` makes after dropping the `<Map>` binding,
      up to and including the first failing one. */
  function StripCalls(replies: Replies): seq<Effect> {
    [SetOverrideredirect(true), UpdateIdletasks, GetParent] + StyleCalls(replies)
  }

  /** A NULL parent does not stop the strip at `GetParent`: the style is then
      read through the NULL handle, and the strip fails only if that read
      returns 0. */
  lemma NullParentReadsStyle(replies: Replies)
    requires replies.parent == 0
    ensures StripCalls(replies)[3] == GetWindowLong(0, GWL_EXSTYLE)
  {
  }

  /** A successful strip ends by writing the new extended style and asking
      Tk to show the window again. */
  lemma StripCallsWriteStyle(replies: Replies)
    ensures Succeeds(replies) ==>
      SetWindowLong(replies.parent, GWL_EXSTYLE, NewExStyle(replies.style)) in StripCalls(replies) &&
      StripCalls(replies)[|StripCalls(replies)| - 2] == After(10, "deiconify")
    ensures !Succeeds(replies) ==> Withdraw !in StripCalls(replies)
  {
  }

  /** The `unbind` of a `<Map>` binding, when there is one. */
  function Unbound(binding: Option<nat>): seq<Effect> {
    if binding.Some? then [MapUnbound(binding.value)] else []
  }

  const LeaveFullscreen := TkAttributes([Str("-fullscreen"), Bool(false)])

  /** The calls `fullscreen` makes on a window that is not fullscreen. */
  const EnterCalls := [SetOverrideredirect(false), TkAttributes([Str("-fullscreen"), Bool(true)])]

  /** The calls `notfullscreen` makes on a fullscreen window whose lock was
      `wasLocked`, whose `<Map>` binding was `binding` and whose next binding
      id was `next`: leave fullscreen, then (unless locked) the strip, then
      the re-binding unless the strip raised. */
  function LeaveCalls(wasLocked: bool, binding: Option<nat>, next: nat, replies: Replies): seq<Effect> {
    [LeaveFullscreen] +
    if wasLocked then [MapBound(next)]
    else Unbound(binding) + StripCalls(replies) + (if Succeeds(replies) then [MapBound(next)] else [])
  }

  class NoTitlebarTk {
    var locked: bool
    var fullscreen: bool
    /** `map_binding`: the id of the `<Map>` binding, `None` when unbound. */
    var mapBinding: Option<nat>
    /** The next binding id Tk hands out. */
    var nextBinding: nat
    /** `self.hwnd`: the Python value `GetParent` gave, `None` for a NULL
        parent (and before the first strip). */
    var hwnd: PyValue
    var log: seq<Effect>

    /** What `fullscreen` leaves behind on a window that was not fullscreen,
        whose log was `before`, whose lock was `wasLocked`, and whose
        `<Map>` binding and next binding id were `binding` and `next`:
        fullscreen, with `EnterCalls` logged and nothing else changed. */
    predicate EnteredFullscreen(before: seq<Effect>, wasLocked: bool, binding: Option<nat>, next: nat)
      reads this
    {
      fullscreen && log == before + EnterCalls &&
      locked == wasLocked && mapBinding == binding && nextBinding == next
    }

    /** What `notfullscreen` leaves behind on a fullscreen window, with the
        same parameters and its result `r`: not fullscreen; on a locked
        window the strip is skipped and `<Map>` re-bound; otherwise the strip
        runs, and on success the window is unlocked and `<Map>` re-bound,
        while on failure it stays locked and unbound. */
    predicate LeftFullscreen(r: Outcome, before: seq<Effect>, wasLocked: bool, binding: Option<nat>, next: nat,
                             replies: Replies)
      reads this
    {
      !fullscreen &&
      (r == Pass <==> wasLocked || Succeeds(replies)) && (r.Fail? ==> r.error.OSError?) &&
      (locked <==> wasLocked || r.Fail?) &&
      mapBinding == (if r == Pass then Some(next) else None) &&
      nextBinding == (if r == Pass then next + 1 else next) &&
      log == before + LeaveCalls(wasLocked, binding, next, replies)
    }

    /** The constructor with `master=None`: a Tk window with `<Map>` bound. */
    constructor ()
      ensures !locked && !fullscreen && mapBinding == Some(0) && nextBinding == 1
      ensures log == [CreateTk, MapBound(0)]
    {
      locked, fullscreen, hwnd := false, false, NoneValue;
      mapBinding, nextBinding := Some(0), 1;
      log := [CreateTk, MapBound(0)];
    }

    /** `bind("<Map>", self._overrideredirect)`, keeping the new id. */
    method BindMap()
      modifies this`mapBinding, this`nextBinding, this`log
      ensures mapBinding == Some(old(nextBinding)) && nextBinding == old(nextBinding) + 1
      ensures log == old(log) + [MapBound(old(nextBinding))]
    {
      log := log + [MapBound(nextBinding)];
      mapBinding := Some(nextBinding);
      nextBinding := nextBinding + 1;
    }

    /** `_overrideredirect`: does nothing while `locked`. Otherwise it locks,
        drops the `<Map>` binding, makes the window a taskbar window without
        decorations and unlocks. A failing user32 call raises and leaves the
        window locked. */
    method ApplyOverrideredirect(replies: Replies) returns (r: Outcome)
      modifies this`locked, this`mapBinding, this`hwnd, this`log
      ensures old(locked) ==> r == Pass && locked && mapBinding == old(mapBinding) &&
                              log == old(log) && hwnd == old(hwnd)
      ensures !old(locked) ==>
        mapBinding.None? &&
        (r == Pass <==> Succeeds(replies)) && (r.Fail? ==> r.error.OSError?) &&
        (locked <==> r.Fail?) &&
        log == old(log) + Unbound(old(mapBinding)) + StripCalls(replies)
      ensures !old(locked) ==> hwnd == Pointer(replies.parent)
    {
      if locked {
        return Pass;
      }
      locked := true;
      if mapBinding.Some? {
        log := log + [MapUnbound(mapBinding.value)];
        mapBinding := None;
      }
      log := log + [SetOverrideredirect(true), UpdateIdletasks, GetParent];
      var parent := ErrcheckNotZero(Pointer(replies.parent), ());
      PointerPassesCheck(replies.parent, ());
      hwnd := Pointer(replies.parent);
      r := SetExStyle(replies);
      if r.Fail? {
        return;
      }
      locked := false;
    }

    /** The second half of `_overrideredirect`: read the extended style,
        write the new one, and have Tk show the window again. */
    method SetExStyle(replies: Replies) returns (r: Outcome)
      modifies this`log
      ensures (r == Pass <==> replies.style != 0 && replies.previous != 0) && (r.Fail? ==> r.error.OSError?)
      ensures log == old(log) + StyleCalls(replies)
    {
      log := log + [GetWindowLong(replies.parent, GWL_EXSTYLE)];
      var style := ErrcheckNotZero(Int(replies.style as int), ());
      if style.Err? {
        assert replies.style == 0;
        return Fail(style.error);
      }
      assert replies.style != 0;
      var newStyle := NewExStyle(replies.style);
      log := log + [SetWindowLong(replies.parent, GWL_EXSTYLE, newStyle)];
      var res := ErrcheckNotZero(Int(replies.previous as int), ());
      if res.Err? {
        assert replies.previous == 0;
        return Fail(res.error);
      }
      assert replies.previous != 0;
      log := log + [Withdraw, After(10, "deiconify"), After(20, "focus_force")];
      r := Pass;
    }

    /** The `<Map>` event: it runs `_overrideredirect` while the binding is in
        place. */
    method MapEvent(replies: Replies) returns (r: Outcome)
      modifies this`locked, this`mapBinding, this`hwnd, this`log
      ensures old(mapBinding).None? || old(locked) ==> r == Pass && unchanged(this)
      ensures old(mapBinding).Some? && !old(locked) ==>
        mapBinding.None? && (r == Pass <==> Succeeds(replies)) && (locked <==> r.Fail?)
    {
      if mapBinding.None? {
        return Pass;
      }
      r := ApplyOverrideredirect(replies);
    }

    /** `overrideredirect` / `wm_overrideredirect`: always refused. */
    method Overrideredirect(boolean: Option<bool>) returns (r: Outcome)
      ensures r == Fail(RuntimeError)
    {
      r := Fail(RuntimeError);
    }

    /** `iconify`: restores the decorations, iconifies, and binds `<Map>`
        again so that they are stripped when the window is restored. */
    method Iconify()
      modifies this`mapBinding, this`nextBinding, this`log
      ensures mapBinding == Some(old(nextBinding)) && nextBinding == old(nextBinding) + 1
      ensures log == old(log) + [SetOverrideredirect(false), TkIconify, TkUpdate, MapBound(old(nextBinding))]
    {
      log := log + [SetOverrideredirect(false), TkIconify, TkUpdate];
      BindMap();
    }

    /** `fullscreen`: a no-op when already fullscreen. */
    method Fullscreen()
      modifies this`fullscreen, this`log
      ensures fullscreen
      ensures old(fullscreen) ==> log == old(log)
      ensures !old(fullscreen) ==> log == old(log) + EnterCalls
    {
      if fullscreen {
        return;
      }
      fullscreen := true;
      log := log + EnterCalls;
    }

    /** `notfullscreen`: a no-op when not fullscreen; otherwise it leaves
        fullscreen, strips the decorations again and re-binds `<Map>`. While
        locked the strip is skipped, and `<Map>` is still re-bound; a failed
        strip raises before the re-binding. */
    method Notfullscreen(replies: Replies) returns (r: Outcome)
      modifies this
      ensures !fullscreen
      ensures !old(fullscreen) ==> r == Pass && unchanged(this)
      ensures old(fullscreen) ==>
        LeftFullscreen(r, old(log), old(locked), old(mapBinding), old(nextBinding), replies)
    {
      if !fullscreen {
        return Pass;
      }
      fullscreen := false;
      log := log + [LeaveFullscreen];
      r := ApplyOverrideredirect(replies);
      if r.Fail? {
        return;
      }
      BindMap();
    }

    /** `toggle_fullscreen`: `fullscreen` or `notfullscreen`, whichever
        changes the flag. */
    method ToggleFullscreen(replies: Replies) returns (r: Outcome)
      modifies this
      ensures fullscreen == !old(fullscreen)
      ensures !old(fullscreen) ==>
        r == Pass && EnteredFullscreen(old(log), old(locked), old(mapBinding), old(nextBinding))
      ensures old(fullscreen) ==>
        LeftFullscreen(r, old(log), old(locked), old(mapBinding), old(nextBinding), replies)
    {
      if fullscreen {
        r := Notfullscreen(replies);
      } else {
        Fullscreen();
        r := Pass;
      }
    }

    /** `attributes`: "-fullscreen" calls go to `fullscreen` or
        `notfullscreen`; everything else is handed to Tk. */
    method Attributes(args: seq<PyValue>, replies: Replies) returns (r: Outcome)
      modifies this
      ensures Route(args) == On ==> r == Pass && fullscreen
      ensures Route(args) == On && !old(fullscreen) ==>
        EnteredFullscreen(old(log), old(locked), old(mapBinding), old(nextBinding))
      ensures Route(args) == On && old(fullscreen) ==> unchanged(this)
      ensures Route(args) == Off ==> !fullscreen
      ensures Route(args) == Off && !old(fullscreen) ==> r == Pass && unchanged(this)
      ensures Route(args) == Off && old(fullscreen) ==>
        LeftFullscreen(r, old(log), old(locked), old(mapBinding), old(nextBinding), replies)
      ensures Route(args) == PassThrough ==>
        r == Pass && log == old(log) + [TkAttributes(args)] && fullscreen == old(fullscreen) &&
        locked == old(locked) && mapBinding == old(mapBinding)
    {
      match Route(args)
      case On =>
        Fullscreen();
        r := Pass;
      case Off =>
        r := Notfullscreen(replies);
      case PassThrough =>
        log := log + [TkAttributes(args)];
        r := Pass;
    }
  }

  /** The constructor: any `master` but `None` raises `NotImplementedError`. */
  method Create(master: Option<nat>) returns (r: Result<NoTitlebarTk>)
    ensures master.Some? <==> r.Err?
    ensures r.Err? ==> r.error == NotImplementedError
    ensures r.Ok? ==> fresh(r.value) && !r.value.fullscreen && r.value.mapBinding.Some?
  {
    if master.Some? {
      return Err(NotImplementedError);
    }
    var w := new NoTitlebarTk();
    r := Ok(w);
  }

  /** The `<Map>` handler strips the decorations once: a second `<Map>`
      event finds no binding and does nothing, until `iconify` binds again. */
  method MapFiresOnce(replies: Replies) returns (first: Outcome, second: Outcome, third: Outcome)
    requires Succeeds(replies)
    ensures first == Pass && second == Pass && third == Pass
  {
    var w := new NoTitlebarTk();
    first := w.MapEvent(replies);
    assert w.mapBinding.None?;
    var before := w.log;
    second := w.MapEvent(replies);
    assert w.log == before;
    w.Iconify();
    third := w.MapEvent(replies);
    assert w.mapBinding.None?;
  }

  /** A failing user32 call leaves the window locked: every later
      `_overrideredirect` does nothing, even when the calls would succeed. */
  method FailureLocksForever(bad: Replies, good: Replies) returns (r1: Outcome, r2: Outcome, stripped: bool)
    requires !Succeeds(bad) && Succeeds(good)
    ensures r1.Fail? && r2 == Pass
    ensures !stripped
  {
    var w := new NoTitlebarTk();
    r1 := w.ApplyOverrideredirect(bad);
    var before := w.log;
    r2 := w.ApplyOverrideredirect(good);
    stripped := w.log != before;
  }
}
