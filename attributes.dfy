/** The `attributes` call of the three `NoTitlebarTk` variants
    (notitlebartk.py, notitlebartk_win.py, notitlebartk_x11.py): which calls
    they intercept and how they read the value given for "-fullscreen". */
module Attributes {

  /** A Python value passed as an argument of `attributes`. */
  datatype PyValue = Str(s: string) | Int(i: int) | Bool(b: bool) | NoneValue

  /** The `master` argument of a `NoTitlebarTk` constructor: `None`, a Tk
      widget, or something else. */
  datatype Master = NoMaster | Widget(id: nat) | NotAWidget

  /** Python's `bool(v)`. */
  predicate Truthy(v: PyValue) {
    match v
    case Str(s) => |s| > 0
    case Int(i) => i != 0
    case Bool(b) => b
    case NoneValue => false
  }

  /** ASCII lower-casing of one character: A-Z are lowered, every other
      character is kept. `str.lower` also lowers non-ASCII letters, but none
      of them lowers to '1', 't', 'r', 'u' or 'e', so the test
      `value.lower() in ("1", "true")` comes out the same. */
  function LowerChar(c: char): (d: char)
    ensures 'A' <= c <= 'Z' ==> d as int == c as int + 32
    ensures !('A' <= c <= 'Z') ==> d == c
  {
    if 'A' <= c <= 'Z' then (c as int + 32) as char else c
  }

  /** ASCII lower-casing of a string, character by character (see
      `LowerChar`). */
  function Lower(s: string): (r: string)
    ensures |r| == |s| && forall i :: 0 <= i < |s| ==> r[i] == LowerChar(s[i])
  {
    seq(|s|, i requires 0 <= i < |s| => LowerChar(s[i]))
  }

  /** The value of `("-fullscreen", value)`: a string is on when its lower
      case form is "1" or "true"; any other value is on when it is truthy. */
  predicate FullscreenOn(v: PyValue) {
    if v.Str? then Lower(v.s) == "1" || Lower(v.s) == "true" else Truthy(v)
  }

  /** `c` is the letter `lower` in either case. */
  predicate EitherCase(c: char, lower: char, upper: char) {
    c == lower || c == upper
  }

  /** A string value is on exactly when it is "1" or "true" in any mix of
      upper and lower case. */
  lemma FullscreenOnString(s: string)
    ensures FullscreenOn(Str(s)) <==>
      s == "1" ||
      (|s| == 4 && EitherCase(s[0], 't', 'T') && EitherCase(s[1], 'r', 'R') &&
       EitherCase(s[2], 'u', 'U') && EitherCase(s[3], 'e', 'E'))
  {
    if |s| == 4 && EitherCase(s[0], 't', 'T') && EitherCase(s[1], 'r', 'R') &&
       EitherCase(s[2], 'u', 'U') && EitherCase(s[3], 'e', 'E') {
      assert Lower(s) == "true";
    }
    if Lower(s) == "true" {
      assert LowerChar(s[0]) == 't' && LowerChar(s[1]) == 'r';
      assert LowerChar(s[2]) == 'u' && LowerChar(s[3]) == 'e';
    }
    if Lower(s) == "1" {
      assert LowerChar(s[0]) == '1';
    }
  }

  /** Strings such as "false" or "0" switch fullscreen off although they are
      truthy; non-string values are read by truthiness alone. */
  lemma FullscreenOnNonString(v: PyValue)
    ensures !v.Str? ==> (FullscreenOn(v) <==> Truthy(v))
    ensures !FullscreenOn(Str("false")) && Truthy(Str("false"))
    ensures !FullscreenOn(Str("0")) && FullscreenOn(Str("TRUE"))
  {
    FullscreenOnString("false");
    FullscreenOnString("0");
    FullscreenOnString("TRUE");
  }

  /** What an `attributes` call turns into. */
  datatype Target =
    | On            // `self.fullscreen()`
    | Off           // `self.notfullscreen()`
    | Refused       // `RuntimeError`
    | PassThrough   // forwarded unchanged to Tk's own `attributes`

  /** `attributes` in notitlebartk.py and notitlebartk_win.py. */
  function Route(args: seq<PyValue>): (r: Target)
    ensures r == On <==> |args| == 2 && args[0] == Str("-fullscreen") && FullscreenOn(args[1])
    ensures r == Off <==> |args| == 2 && args[0] == Str("-fullscreen") && !FullscreenOn(args[1])
    ensures r == PassThrough <==> !(|args| == 2 && args[0] == Str("-fullscreen"))
    ensures r != Refused
  {
    if |args| == 2 && args[0] == Str("-fullscreen") then
      if FullscreenOn(args[1]) then On else Off
    else PassThrough
  }

  /** `attributes` in notitlebartk_x11.py, which also refuses to set "-type". */
  function X11Route(args: seq<PyValue>): (r: Target)
    ensures r == Refused <==> |args| == 2 && args[0] == Str("-type")
    ensures r == On <==> |args| == 2 && args[0] == Str("-fullscreen") && FullscreenOn(args[1])
    ensures r == Off <==> |args| == 2 && args[0] == Str("-fullscreen") && !FullscreenOn(args[1])
    ensures r == PassThrough <==>
      !(|args| == 2 && (args[0] == Str("-fullscreen") || args[0] == Str("-type")))
  {
    if |args| == 2 then
      if args[0] == Str("-type") then Refused
      else if args[0] == Str("-fullscreen") then
        if FullscreenOn(args[1]) then On else Off
      else PassThrough
    else PassThrough
  }

  /** The X11 variant routes every call as the others do, except that it
      refuses two-argument "-type" calls. */
  lemma RoutesAgree(args: seq<PyValue>)
    ensures X11Route(args) == (if |args| == 2 && args[0] == Str("-type") then Refused else Route(args))
  {
  }
}
