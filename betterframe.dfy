/** The `BetterFrame` of betterframe.py: a frame placed inside a canvas,
    scrolled by moving the canvas view. The model keeps the canvas state the
    frame changes: its configured size, its scroll region and the scroll
    steps asked of `yview_scroll`. Sizes Tk measures (`winfo_width`,
    `bbox`) come in as parameters. */
module Viewport {
  import opened Errors
  import opened Attributes

  const FIT_WIDTH := "fit_width"
  const FIT_HEIGHT := "fit_height"

  /** A rectangle `(x1, y1, x2, y2)` as Tk's `bbox` and `scrollregion` give
      it. */
  datatype Box = Box(x1: int, y1: int, x2: int, y2: int)

  /** Python's `max` of two ints. */
  function Max(a: int, b: int): (m: int)
    ensures m >= a && m >= b && (m == a || m == b)
  {
    if a >= b then a else b
  }

  /** The scroll region `scrollbar_scrolling` configures: the bounding box of
      the content, widened and heightened to at least the canvas size. */
  function ScrollRegion(bbox: Box, width: int, height: int): (r: Box)
    ensures r.x1 == bbox.x1 && r.y1 == bbox.y1
    ensures r.x2 >= width && r.x2 >= bbox.x2 && r.y2 >= height && r.y2 >= bbox.y2
    ensures r.x2 == width || r.x2 == bbox.x2
    ensures r.y2 == height || r.y2 == bbox.y2
    ensures bbox.x2 >= width && bbox.y2 >= height ==> r == bbox
  {
    Box(bbox.x1, bbox.y1, Max(width, bbox.x2), Max(height, bbox.y2))
  }

  /** `r` contains `inner`. */
  predicate Contains(r: Box, inner: Box) {
    r.x1 <= inner.x1 && r.y1 <= inner.y1 && inner.x2 <= r.x2 && inner.y2 <= r.y2
  }

  /** The scroll region is the smallest box with the content's top-left
      corner that holds both the content and a canvas-sized box at that
      corner's right and bottom edges. */
  lemma ScrollRegionLeast(bbox: Box, width: int, height: int, other: Box)
    requires other.x1 == bbox.x1 && other.y1 == bbox.y1
    requires Contains(other, bbox) && other.x2 >= width && other.y2 >= height
    ensures Contains(ScrollRegion(bbox, width, height), bbox)
    ensures Contains(other, ScrollRegion(bbox, width, height))
  {
  }

  /** A second `<Configure>` with the same canvas size leaves the region as
      it is. */
  lemma ScrollRegionStable(bbox: Box, width: int, height: int)
    ensures ScrollRegion(ScrollRegion(bbox, width, height), width, height) == ScrollRegion(bbox, width, height)
  {
  }

  /** The sign of an int, as `delta / abs(delta)` gives it for `delta != 0`. */
  function Sign(d: int): (s: int)
    ensures d > 0 ==> s == 1
    ensures d < 0 ==> s == -1
    ensures d == 0 ==> s == 0
  {
    if d > 0 then 1 else if d < 0 then -1 else 0
  }

  /** `scrolling_windows`'s step count: `-sign(delta) * scroll_speed`; a zero
      `delta` fails the assertion. */
  function WindowsSteps(delta: int, speed: int): (r: Result<int>)
    ensures r.Err? <==> delta == 0
    ensures r.Err? ==> r.error == AssertionError
    ensures r.Ok? ==> (r.value == speed || r.value == -speed)
    ensures r.Ok? && speed > 0 ==> (r.value < 0 <==> delta > 0)
  {
    if delta == 0 then Err(AssertionError) else Ok(-Sign(delta) * speed)
  }

  /** Turning the wheel the other way scrolls the same number of units the
      other way. */
  lemma WindowsStepsOpposite(delta: int, speed: int)
    requires delta != 0
    ensures WindowsSteps(-delta, speed).Ok? && WindowsSteps(delta, speed).Ok?
    ensures WindowsSteps(-delta, speed).value == -WindowsSteps(delta, speed).value
  {
  }

  /** `scrolling_linux`'s step count: button 4 scrolls up, any other button
      down. */
  function LinuxSteps(num: int, speed: int): (r: int)
    ensures num == 4 ==> r == -speed
    ensures num != 4 ==> r == speed
  {
    if num == 4 then -speed else speed
  }

  /** One notch up on X11 (button 4) matches a wheel turn away from the user
      on Windows (positive `delta`), and one notch down (button 5) a turn
      towards the user. */
  lemma WheelsAgree(delta: int, speed: int)
    requires delta != 0
    ensures WindowsSteps(delta, speed).Ok?
    ensures WindowsSteps(delta, speed).value == LinuxSteps(if delta > 0 then 4 else 5, speed)
  {
  }

  /** The scroll speed the constructor accepts: any `int`, and so also a
      `bool`, which Python counts as one. */
  function ScrollSpeed(v: PyValue): (r: Result<int>)
    ensures r.Ok? <==> v.Int? || v.Bool?
    ensures v.Int? ==> r == Ok(v.i)
    ensures v.Bool? ==> r == Ok(if v.b then 1 else 0)
    ensures r.Err? ==> r.error == AssertionError
  {
    match v
    case Int(i) => Ok(i)
    case Bool(b) => Ok(if b then 1 else 0)
    case _ => Err(AssertionError)
  }

  class BetterFrame {
    const scrollSpeed: int
    /** The canvas's configured `width` and `height` (`None` until set). */
    var width: Option<int>
    var height: Option<int>
    var scrollregion: Option<Box>
    /** The unit counts passed to `yview_scroll`, oldest first. */
    var scrolled: seq<int>

    /** `__init__` once `scroll_speed` is known to be an int; `width` and
        `height` are the canvas options among `**kwargs`. */
    constructor (scrollSpeed: int, width: Option<int>, height: Option<int>)
      ensures this.scrollSpeed == scrollSpeed && this.width == width && this.height == height
      ensures scrollregion.None? && scrolled == []
    {
      this.scrollSpeed := scrollSpeed;
      this.width, this.height := width, height;
      scrollregion, scrolled := None, [];
    }

    /** `scrolling_windows` for a `<MouseWheel>` event. */
    method ScrollingWindows(delta: int) returns (r: Outcome)
      modifies this`scrolled
      ensures delta == 0 ==> r == Fail(AssertionError) && scrolled == old(scrolled)
      ensures delta != 0 ==> r == Pass && scrolled == old(scrolled) + [WindowsSteps(delta, scrollSpeed).value]
    {
      if delta == 0 {
        return Fail(AssertionError);
      }
      var steps := -(delta / Abs(delta)) * scrollSpeed;
      scrolled := scrolled + [steps];
      r := Pass;
    }

    static function Abs(d: int): (a: int)
      ensures a >= 0 && (a == d || a == -d)
    {
      if d < 0 then -d else d
    }

    /** `scrolling_linux` for a `<Button-4>` or `<Button-5>` event. */
    method ScrollingLinux(num: int)
      modifies this`scrolled
      ensures scrolled == old(scrolled) + [LinuxSteps(num, scrollSpeed)]
    {
      var steps := scrollSpeed;
      if num == 4 {
        steps := steps * -1;
      }
      scrolled := scrolled + [steps];
    }

    /** `scrollbar_scrolling` for a `<Configure>` of the inner frame: the
        canvas's bounding box is copied into a list whose right and bottom
        edges are then widened to the canvas's measured size. */
    method ScrollbarScrolling(bbox: Box, canvasWidth: int, canvasHeight: int)
      modifies this`scrollregion
      ensures scrollregion == Some(ScrollRegion(bbox, canvasWidth, canvasHeight))
    {
      var region := [bbox.x1, bbox.y1, bbox.x2, bbox.y2];
      region := region[2 := Max(canvasWidth, region[2])];
      region := region[3 := Max(canvasHeight, region[3])];
      scrollregion := Some(Box(region[0], region[1], region[2], region[3]));
    }

    /** `resize` (and its alias `fit`). Without `fit` the given height and
        width are set, each on its own; `FIT_WIDTH` and `FIT_HEIGHT` copy the
        inner frame's measured width or height and ignore the other
        arguments; any other `fit` raises `ValueError`. */
    method Resize(fit: Option<string>, height: Option<int>, width: Option<int>,
                  innerWidth: int, innerHeight: int) returns (r: Outcome)
      modifies this`width, this`height
      ensures fit.None? ==>
        r == Pass &&
        this.height == (if height.Some? then height else old(this.height)) &&
        this.width == (if width.Some? then width else old(this.width))
      ensures fit == Some(FIT_WIDTH) ==>
        r == Pass && this.width == Some(innerWidth) && this.height == old(this.height)
      ensures fit == Some(FIT_HEIGHT) ==>
        r == Pass && this.height == Some(innerHeight) && this.width == old(this.width)
      ensures fit.Some? && fit.value != FIT_WIDTH && fit.value != FIT_HEIGHT ==>
        r == Fail(ValueError) && this.width == old(this.width) && this.height == old(this.height)
    {
      if fit.None? {
        if height.Some? {
          this.height := height;
        }
        if width.Some? {
          this.width := width;
        }
      } else if fit.value == FIT_WIDTH {
        this.width := Some(innerWidth);
      } else if fit.value == FIT_HEIGHT {
        this.height := Some(innerHeight);
      } else {
        return Fail(ValueError);
      }
      r := Pass;
    }
  }

  /** The constructor: a `scroll_speed` that is not an int fails the
      assertion before anything is built. */
  method Create(scrollSpeed: PyValue, width: Option<int>, height: Option<int>) returns (r: Result<BetterFrame>)
    ensures r.Err? <==> ScrollSpeed(scrollSpeed).Err?
    ensures r.Err? ==> r.error == AssertionError
    ensures r.Ok? ==>
      fresh(r.value) && r.value.scrollSpeed == ScrollSpeed(scrollSpeed).value &&
      r.value.width == width && r.value.height == height && r.value.scrolled == []
  {
    var speed :- ScrollSpeed(scrollSpeed);
    var f := new BetterFrame(speed, width, height);
    r := Ok(f);
  }

  /** Scrolling a notch up and then a notch down, on either platform, asks
      for opposite steps that cancel out. */
  method ScrollUpThenDown(delta: int) returns (f: BetterFrame)
    requires delta != 0
    ensures |f.scrolled| == 4
    ensures f.scrolled[0] + f.scrolled[1] == 0 && f.scrolled[2] + f.scrolled[3] == 0
    ensures f.scrolled[0] == -2 && f.scrolled[2] == -2
  {
    f := new BetterFrame(2, None, None);
    var a := f.ScrollingWindows(if delta > 0 then delta else -delta);
    var b := f.ScrollingWindows(if delta > 0 then -delta else delta);
    f.ScrollingLinux(4);
    f.ScrollingLinux(5);
  }
}
