/** The shared look-and-feel settings of BetterTk windows (win.py,
    `BetterTkSettings`). The object counts the windows that use it and refuses
    to be reconfigured while that count is not zero. */
module Settings {
  import opened Errors

  datatype Theme = Dark | Light

  /** The `theme` constructor argument: only "dark" and "light" are accepted;
      anything else is the constructor's `ValueError`. */
  function ParseTheme(name: string): (r: Result<Theme>)
    ensures r == Ok(Dark) <==> name == "dark"
    ensures r == Ok(Light) <==> name == "light"
    ensures r.Err? <==> name != "dark" && name != "light"
    ensures r.Err? ==> r.error == ValueError
  {
    if name == "dark" then Ok(Dark)
    else if name == "light" then Ok(Light)
    else Err(ValueError)
  }

  /** A snapshot of every setting field of a settings object. */
  datatype Values = Values(
    bg: string,
    sepColour: string,
    highlight: string,
    activeTitlebarBg: string,
    activeTitlebarFg: string,
    inactiveTitlebarBg: string,
    inactiveTitlebarFg: string,
    borderWidth: int,
    useShadow: bool,
    useUnicode: bool,
    snapThreshold: int,
    separatorSize: int)

  /** The keyword arguments of `config`; `None` leaves a field alone. */
  datatype ConfigArgs = ConfigArgs(
    bg: Option<string>,
    separatorColour: Option<string>,
    hightlightColour: Option<string>,
    activeTitlebarBg: Option<string>,
    activeTitlebarFg: Option<string>,
    inactiveTitlebarBg: Option<string>,
    inactiveTitlebarFg: Option<string>,
    bd: Option<int>,
    useUnicode: Option<bool>,
    snapThreshold: Option<int>,
    separatorSize: Option<int>,
    useShadow: Option<bool>)

  const NoArgs := ConfigArgs(None, None, None, None, None, None, None, None, None, None, None, None)

  function Pick<T>(given: Option<T>, current: T): T {
    if given.Some? then given.value else current
  }

  /** What a successful `config` call makes of the fields: each argument that
      is not `None` overwrites its field. */
  function Overlay(v: Values, a: ConfigArgs): Values {
    Values(
      Pick(a.bg, v.bg),
      Pick(a.separatorColour, v.sepColour),
      Pick(a.hightlightColour, v.highlight),
      Pick(a.activeTitlebarBg, v.activeTitlebarBg),
      Pick(a.activeTitlebarFg, v.activeTitlebarFg),
      Pick(a.inactiveTitlebarBg, v.inactiveTitlebarBg),
      Pick(a.inactiveTitlebarFg, v.inactiveTitlebarFg),
      Pick(a.bd, v.borderWidth),
      Pick(a.useShadow, v.useShadow),
      Pick(a.useUnicode, v.useUnicode),
      Pick(a.snapThreshold, v.snapThreshold),
      Pick(a.separatorSize, v.separatorSize))
  }

  /** Two `config` calls in a row, as one: the later call's arguments win. */
  function Then(first: ConfigArgs, second: ConfigArgs): ConfigArgs {
    ConfigArgs(
      if second.bg.Some? then second.bg else first.bg,
      if second.separatorColour.Some? then second.separatorColour else first.separatorColour,
      if second.hightlightColour.Some? then second.hightlightColour else first.hightlightColour,
      if second.activeTitlebarBg.Some? then second.activeTitlebarBg else first.activeTitlebarBg,
      if second.activeTitlebarFg.Some? then second.activeTitlebarFg else first.activeTitlebarFg,
      if second.inactiveTitlebarBg.Some? then second.inactiveTitlebarBg else first.inactiveTitlebarBg,
      if second.inactiveTitlebarFg.Some? then second.inactiveTitlebarFg else first.inactiveTitlebarFg,
      if second.bd.Some? then second.bd else first.bd,
      if second.useUnicode.Some? then second.useUnicode else first.useUnicode,
      if second.snapThreshold.Some? then second.snapThreshold else first.snapThreshold,
      if second.separatorSize.Some? then second.separatorSize else first.separatorSize,
      if second.useShadow.Some? then second.useShadow else first.useShadow)
  }

  /** A call with no arguments changes nothing. */
  lemma OverlayNoArgs(v: Values)
    ensures Overlay(v, NoArgs) == v
  {
  }

  /** Repeating a `config` call changes nothing more. */
  lemma OverlayIdempotent(v: Values, a: ConfigArgs)
    ensures Overlay(Overlay(v, a), a) == Overlay(v, a)
  {
  }

  /** Two successive calls amount to one call with the merged arguments. */
  lemma OverlayThen(v: Values, a: ConfigArgs, b: ConfigArgs)
    ensures Overlay(Overlay(v, a), b) == Overlay(v, Then(a, b))
  {
  }

  /** The fields a new settings object starts with, for each theme. */
  function Initial(theme: Theme, useUnicode: bool, snapThreshold: int,
                   separatorSize: int, bd: int, useShadow: bool): (v: Values)
    ensures v.snapThreshold == snapThreshold && v.borderWidth == bd
    ensures v.separatorSize == separatorSize && v.useShadow == useShadow
    ensures v.useUnicode == useUnicode && v.sepColour == "grey" && v.highlight == "grey"
  {
    match theme
    case Dark =>
      Values("black", "grey", "grey", "black", "white", "grey17", "white",
             bd, useShadow, useUnicode, snapThreshold, separatorSize)
    case Light =>
      Values("#f0f0ed", "grey", "grey", "white", "black", "grey80", "black",
             bd, useShadow, useUnicode, snapThreshold, separatorSize)
  }

  class BetterTkSettings {
    var bg: string
    var sepColour: string
    var highlight: string
    var activeTitlebarBg: string
    var activeTitlebarFg: string
    var inactiveTitlebarBg: string
    var inactiveTitlebarFg: string
    var borderWidth: int
    var useShadow: bool
    var useUnicode: bool
    var snapThreshold: int
    var separatorSize: int
    /** `bettertk_users`: the number of windows attached to these settings. */
    var users: int

    function Current(): Values
      reads this
    {
      Values(bg, sepColour, highlight, activeTitlebarBg, activeTitlebarFg,
             inactiveTitlebarBg, inactiveTitlebarFg, borderWidth, useShadow,
             useUnicode, snapThreshold, separatorSize)
    }

    constructor (theme: Theme, unicode: bool, threshold: int,
                 sepSize: int, bd: int, shadow: bool)
      ensures Current() == Initial(theme, unicode, threshold, sepSize, bd, shadow)
      ensures users == 0
    {
      var v := Initial(theme, unicode, threshold, sepSize, bd, shadow);
      bg, sepColour, highlight := v.bg, v.sepColour, v.highlight;
      activeTitlebarBg, activeTitlebarFg := v.activeTitlebarBg, v.activeTitlebarFg;
      inactiveTitlebarBg, inactiveTitlebarFg := v.inactiveTitlebarBg, v.inactiveTitlebarFg;
      borderWidth, useShadow, useUnicode := bd, shadow, unicode;
      snapThreshold, separatorSize := threshold, sepSize;
      users := 0;
    }

    method StartedUsing()
      modifies this`users
      ensures users == old(users) + 1
      ensures Current() == old(Current())
    {
      users := users + 1;
    }

    method StopedUsing()
      modifies this`users
      ensures users == old(users) - 1
      ensures Current() == old(Current())
    {
      users := users - 1;
    }

    /** Writes the colour fields. */
    method StoreColours(v: Values)
      modifies this`bg, this`sepColour, this`highlight, this`activeTitlebarBg,
               this`activeTitlebarFg, this`inactiveTitlebarBg, this`inactiveTitlebarFg
      ensures bg == v.bg && sepColour == v.sepColour && highlight == v.highlight
      ensures activeTitlebarBg == v.activeTitlebarBg && activeTitlebarFg == v.activeTitlebarFg
      ensures inactiveTitlebarBg == v.inactiveTitlebarBg && inactiveTitlebarFg == v.inactiveTitlebarFg
    {
      bg, sepColour, highlight := v.bg, v.sepColour, v.highlight;
      activeTitlebarBg, activeTitlebarFg := v.activeTitlebarBg, v.activeTitlebarFg;
      inactiveTitlebarBg, inactiveTitlebarFg := v.inactiveTitlebarBg, v.inactiveTitlebarFg;
    }

    /** Writes every setting field; the user count is left alone. */
    method Store(v: Values)
      modifies this
      ensures users == old(users)
      ensures Current() == v
    {
      StoreColours(v);
      borderWidth, useShadow, useUnicode := v.borderWidth, v.useShadow, v.useUnicode;
      snapThreshold, separatorSize := v.snapThreshold, v.separatorSize;
    }

    /** `config`: refused, before any field is touched, while a window uses
        the settings; otherwise exactly the given arguments overwrite their
        fields. */
    method Config(a: ConfigArgs) returns (r: Outcome)
      modifies this
      ensures users == old(users)
      ensures old(users) != 0 ==> r == Fail(InUse) && Current() == old(Current())
      ensures old(users) == 0 ==> r == Pass && Current() == Overlay(old(Current()), a)
    {
      if users != 0 {
        return Fail(InUse);
      }
      // Each field is overwritten exactly when its argument is not None.
      Store(Overlay(Current(), a));
      r := Pass;
    }
  }

  /** Two windows attached to one settings object: `config` is refused and
      changes nothing; once both windows are destroyed it succeeds. */
  method SharedSettingsScenario(a: ConfigArgs) returns (whileUsed: Outcome, afterwards: Outcome)
    ensures whileUsed == Fail(InUse)
    ensures afterwards == Pass
  {
    var s := new BetterTkSettings(Dark, false, 200, 1, 3, false);
    s.StartedUsing();
    s.StartedUsing();
    var before := s.Current();
    whileUsed := s.Config(a);
    assert s.Current() == before;
    s.StopedUsing();
    s.StopedUsing();
    afterwards := s.Config(a);
  }
}
