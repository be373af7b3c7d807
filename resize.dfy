/** Resizing an undecorated window by dragging its borders (win.py,
    `ResizableWindow`). A press near a border records which borders move (the
    "quadrant" string) and a snapshot of the window; every pointer motion then
    recomputes the geometry from that snapshot and the pointer position. */
module Resize {
  import opened Errors

  const MIN_WIDTH := 240
  const MIN_HEIGHT := 80

  /** What `winfo_width`, `winfo_height`, `winfo_rootx` and `winfo_rooty`
      report for the root window. */
  datatype Window = Window(width: int, height: int, x: int, y: int)

  /** A window geometry `WIDTHxHEIGHT+X+Y`. */
  datatype Geometry = Geometry(width: int, height: int, x: int, y: int)

  /** What one `resize_*` method returns: a value per geometry slot, `None`
      for the slots it leaves alone. */
  datatype Partial = Partial(width: Option<int>, height: Option<int>, x: Option<int>, y: Option<int>)
  {
    function Slots(): seq<Option<int>> { [width, height, x, y] }
  }

  /** Position of a border letter in the order the quadrant string is built. */
  function Rank(c: char): nat {
    if c == 's' then 0 else if c == 'n' then 1 else if c == 'e' then 2 else if c == 'w' then 3 else 4
  }

  /** Only border letters, each at most once, in the order s, n, e, w. */
  predicate InBorderOrder(q: string) {
    forall i, j :: 0 <= i < j < |q| ==> Rank(q[i]) < Rank(q[j]) < 4
  }

  /** Every letter of `a` ranks below `k`. */
  predicate RankedBelow(a: string, k: nat) {
    forall i :: 0 <= i < |a| ==> Rank(a[i]) < k
  }

  /** The letter `c` when `present`, nothing otherwise. */
  function Letter(present: bool, c: char): string {
    if present then [c] else []
  }

  /** The quadrant string for the given set of borders, built as
      `get_quadrant_resizing` builds it. */
  function Borders(s: bool, n: bool, e: bool, w: bool): (q: string)
    ensures ('s' in q <==> s) && ('n' in q <==> n) && ('e' in q <==> e) && ('w' in q <==> w)
  {
    Letter(s, 's') + Letter(n, 'n') + Letter(e, 'e') + Letter(w, 'w')
  }

  lemma AppendLetter(a: string, present: bool, c: char)
    requires InBorderOrder(a) && RankedBelow(a, Rank(c)) && Rank(c) < 4
    ensures InBorderOrder(a + Letter(present, c)) && RankedBelow(a + Letter(present, c), Rank(c) + 1)
  {
  }

  /** The letters always come in the order s, n, e, w, each at most once. */
  lemma BordersInOrder(s: bool, n: bool, e: bool, w: bool)
    ensures InBorderOrder(Borders(s, n, e, w))
  {
    AppendLetter([], s, 's');
    AppendLetter(Letter(s, 's'), n, 'n');
    AppendLetter(Letter(s, 's') + Letter(n, 'n'), e, 'e');
    AppendLetter(Letter(s, 's') + Letter(n, 'n') + Letter(e, 'e'), w, 'w');
  }

  /** `get_quadrant_resizing`: the borders within `sensitivity` pixels of the
      pointer, among those resizing is enabled for. */
  function Quadrant(pointerX: int, pointerY: int, w: Window, sensitivity: int,
                    vertical: bool, horizontal: bool, disableNorthWest: bool): (q: string)
    ensures 's' in q <==> vertical && pointerY - w.y + sensitivity > w.height
    ensures 'n' in q <==> vertical && !disableNorthWest && pointerY - w.y < sensitivity
    ensures 'e' in q <==> horizontal && pointerX - w.x + sensitivity > w.width
    ensures 'w' in q <==> horizontal && !disableNorthWest && pointerX - w.x < sensitivity
  {
    var x := pointerX - w.x;
    var y := pointerY - w.y;
    Borders(vertical && y + sensitivity > w.height,
            vertical && !disableNorthWest && y < sensitivity,
            horizontal && x + sensitivity > w.width,
            horizontal && !disableNorthWest && x < sensitivity)
  }

  /** The quadrant string lists its borders in the order s, n, e, w. */
  lemma QuadrantInOrder(pointerX: int, pointerY: int, w: Window, sensitivity: int,
                        vertical: bool, horizontal: bool, disableNorthWest: bool)
    ensures InBorderOrder(Quadrant(pointerX, pointerY, w, sensitivity, vertical, horizontal, disableNorthWest))
  {
    var x := pointerX - w.x;
    var y := pointerY - w.y;
    BordersInOrder(vertical && y + sensitivity > w.height,
                   vertical && !disableNorthWest && y < sensitivity,
                   horizontal && x + sensitivity > w.width,
                   horizontal && !disableNorthWest && x < sensitivity);
  }

  /** A window at least twice the sensitivity high and wide can never be
      resized from two opposite borders at once. */
  lemma NoOppositeBorders(pointerX: int, pointerY: int, w: Window, sensitivity: int,
                          vertical: bool, horizontal: bool, disableNorthWest: bool)
    requires w.height >= 2 * sensitivity && w.width >= 2 * sensitivity
    ensures var q := Quadrant(pointerX, pointerY, w, sensitivity, vertical, horizontal, disableNorthWest);
            !('s' in q && 'n' in q) && !('e' in q && 'w' in q)
  {
  }

  /** `resize_east`: the right border follows the pointer, but the width never
      drops below `MIN_WIDTH`. */
  function ResizeEast(pointerX: int, currentX: int): (r: Partial)
    ensures r.height.None? && r.x.None? && r.y.None? && r.width.Some?
    ensures r.width.value >= MIN_WIDTH
    ensures pointerX - currentX >= MIN_WIDTH ==> currentX + r.width.value == pointerX
    ensures pointerX - currentX < MIN_WIDTH ==> r.width.value == MIN_WIDTH
  {
    var newWidth := pointerX - currentX;
    Partial(Some(if newWidth < MIN_WIDTH then MIN_WIDTH else newWidth), None, None, None)
  }

  /** `resize_west`: the left border follows the pointer, the right border
      stays where it was, and the width never drops below `MIN_WIDTH`. */
  function ResizeWest(pointerX: int, currentX: int, currentWidth: int): (r: Partial)
    ensures r.height.None? && r.y.None? && r.width.Some? && r.x.Some?
    ensures r.width.value >= MIN_WIDTH
    ensures r.x.value + r.width.value == currentX + currentWidth
    ensures currentX + currentWidth - pointerX >= MIN_WIDTH ==> r.x.value == pointerX
    ensures currentX + currentWidth - pointerX < MIN_WIDTH ==> r.width.value == MIN_WIDTH
  {
    var dx := currentX - pointerX;
    var dx' := if dx < MIN_WIDTH - currentWidth then MIN_WIDTH - currentWidth else dx;
    Partial(Some(currentWidth + dx'), None, Some(currentX - dx'), None)
  }

  /** `resize_south`: the bottom border follows the pointer, but the height
      never drops below `MIN_HEIGHT`. */
  function ResizeSouth(pointerY: int, currentY: int): (r: Partial)
    ensures r.width.None? && r.x.None? && r.y.None? && r.height.Some?
    ensures r.height.value >= MIN_HEIGHT
    ensures pointerY - currentY >= MIN_HEIGHT ==> currentY + r.height.value == pointerY
    ensures pointerY - currentY < MIN_HEIGHT ==> r.height.value == MIN_HEIGHT
  {
    var newHeight := pointerY - currentY;
    Partial(None, Some(if newHeight < MIN_HEIGHT then MIN_HEIGHT else newHeight), None, None)
  }

  /** `resize_north`: the top border follows the pointer, the bottom border
      stays where it was, and the height never drops below `MIN_HEIGHT`. */
  function ResizeNorth(pointerY: int, currentY: int, currentHeight: int): (r: Partial)
    ensures r.width.None? && r.x.None? && r.height.Some? && r.y.Some?
    ensures r.height.value >= MIN_HEIGHT
    ensures r.y.value + r.height.value == currentY + currentHeight
    ensures currentY + currentHeight - pointerY >= MIN_HEIGHT ==> r.y.value == pointerY
    ensures currentY + currentHeight - pointerY < MIN_HEIGHT ==> r.height.value == MIN_HEIGHT
  {
    var dy := currentY - pointerY;
    var dy' := if dy < MIN_HEIGHT - currentHeight then MIN_HEIGHT - currentHeight else dy;
    Partial(None, Some(currentHeight + dy'), None, Some(currentY - dy'))
  }

  /** The list `update_resizing_params` leaves: slot `i` takes the tuple's
      entry when there is one that is not `None`, and keeps its value otherwise. */
  function Merge(list: seq<int>, t: seq<Option<int>>): seq<int> {
    seq(|list|, i requires 0 <= i < |list| => if i < |t| && t[i].Some? then t[i].value else list[i])
  }

  /** `update_resizing_params`, in place on the list. */
  method UpdateResizingParams(list: array<int>, t: seq<Option<int>>)
    requires |t| <= list.Length
    modifies list
    ensures list[..] == Merge(old(list[..]), t)
  {
    for i := 0 to |t|
      invariant list[..] == Merge(old(list[..]), t[..i])
    {
      if t[i].Some? {
        list[i] := t[i].value;
      }
    }
    assert t[..|t|] == t;
  }

  /** Merging a per-border result into a four-slot list, slot by slot. */
  lemma MergeFour(list: seq<int>, p: Partial)
    requires |list| == 4
    ensures Merge(list, p.Slots()) ==
      [if p.width.Some? then p.width.value else list[0],
       if p.height.Some? then p.height.value else list[1],
       if p.x.Some? then p.x.value else list[2],
       if p.y.Some? then p.y.value else list[3]]
  {
  }

  /** The geometry a motion event sets, written slot by slot: `w` wins the
      width over `e` and decides x; `s` wins the height over `n`; `n` decides y. */
  function MotionGeometry(q: string, pointerX: int, pointerY: int, snapshot: Geometry): (g: Geometry)
  {
    var g0 := snapshot;
    Geometry(
      if 'w' in q then ResizeWest(pointerX, g0.x, g0.width).width.value
      else if 'e' in q then ResizeEast(pointerX, g0.x).width.value
      else g0.width,
      if 's' in q then ResizeSouth(pointerY, g0.y).height.value
      else if 'n' in q then ResizeNorth(pointerY, g0.y, g0.height).height.value
      else g0.height,
      if 'w' in q then ResizeWest(pointerX, g0.x, g0.width).x.value else g0.x,
      if 'n' in q then ResizeNorth(pointerY, g0.y, g0.height).y.value else g0.y)
  }

  /** The horizontal part of the new geometry depends on the pointer's x only,
      the vertical part on its y only. */
  lemma MotionAxesIndependent(q: string, px1: int, py1: int, px2: int, py2: int, snapshot: Geometry)
    ensures MotionGeometry(q, px1, py1, snapshot).width == MotionGeometry(q, px1, py2, snapshot).width
    ensures MotionGeometry(q, px1, py1, snapshot).x == MotionGeometry(q, px1, py2, snapshot).x
    ensures MotionGeometry(q, px1, py1, snapshot).height == MotionGeometry(q, px2, py1, snapshot).height
    ensures MotionGeometry(q, px1, py1, snapshot).y == MotionGeometry(q, px2, py1, snapshot).y
  {
  }

  /** A session that only moves horizontal borders ("n" and "s") never changes
      the width or x, and one that only moves vertical borders never changes
      the height or y. */
  lemma MotionKeepsUnmovedAxis(q: string, pointerX: int, pointerY: int, snapshot: Geometry)
    ensures 'e' !in q && 'w' !in q ==>
      MotionGeometry(q, pointerX, pointerY, snapshot).width == snapshot.width &&
      MotionGeometry(q, pointerX, pointerY, snapshot).x == snapshot.x
    ensures 's' !in q && 'n' !in q ==>
      MotionGeometry(q, pointerX, pointerY, snapshot).height == snapshot.height &&
      MotionGeometry(q, pointerX, pointerY, snapshot).y == snapshot.y
  {
  }

  /** Dragging the west (north) border keeps the east (south) border fixed,
      unless the opposite border is being dragged as well; a moved border
      never makes the window smaller than the minimum. */
  lemma MotionKeepsOppositeEdge(q: string, pointerX: int, pointerY: int, snapshot: Geometry)
    ensures var g := MotionGeometry(q, pointerX, pointerY, snapshot);
            'w' in q ==> g.x + g.width == snapshot.x + snapshot.width && g.width >= MIN_WIDTH
    ensures var g := MotionGeometry(q, pointerX, pointerY, snapshot);
            'n' in q && 's' !in q ==> g.y + g.height == snapshot.y + snapshot.height && g.height >= MIN_HEIGHT
    ensures var g := MotionGeometry(q, pointerX, pointerY, snapshot);
            'e' in q && 'w' !in q ==> g.x == snapshot.x && g.width >= MIN_WIDTH
    ensures var g := MotionGeometry(q, pointerX, pointerY, snapshot);
            's' in q ==> g.y == snapshot.y || 'n' in q
  {
  }

  /** The cursor `change_cursor_resizing` shows for a quadrant string; `None`
      when it leaves the cursor as it was. */
  function CursorFor(q: string): (c: Option<string>)
  {
    if q == "" then Some("arrow")
    else if q == "ne" || q == "sw" then Some("size_ne_sw")
    else if q == "nw" || q == "se" then Some("size_nw_se")
    else if q == "n" || q == "s" then Some("sb_v_double_arrow")
    else if q == "e" || q == "w" then Some("sb_h_double_arrow")
    else None
  }

  /** Without two opposite borders, every set of borders has a cursor, and
      only the empty set has the arrow. */
  lemma BordersCursor(s: bool, n: bool, e: bool, w: bool)
    requires !(s && n) && !(e && w)
    ensures CursorFor(Borders(s, n, e, w)).Some?
    ensures CursorFor(Borders(s, n, e, w)) == Some("arrow") <==> !s && !n && !e && !w
  {
    if e {
      assert Borders(s, n, e, w) == Letter(s, 's') + Letter(n, 'n') + "e";
    } else if w {
      assert Borders(s, n, e, w) == Letter(s, 's') + Letter(n, 'n') + "w";
    } else {
      assert Borders(s, n, e, w) == Letter(s, 's') + Letter(n, 'n');
    }
  }

  /** In a window at least twice the sensitivity in both directions (always
      the case above the minimum size), every quadrant gets a cursor, and the
      arrow means that no border is near. */
  lemma CursorAlwaysSet(pointerX: int, pointerY: int, w: Window, sensitivity: int,
                        vertical: bool, horizontal: bool, disableNorthWest: bool)
    requires w.height >= 2 * sensitivity && w.width >= 2 * sensitivity
    ensures var q := Quadrant(pointerX, pointerY, w, sensitivity, vertical, horizontal, disableNorthWest);
            CursorFor(q).Some? && (CursorFor(q) == Some("arrow") <==> q == "")
  {
    var x := pointerX - w.x;
    var y := pointerY - w.y;
    BordersCursor(vertical && y + sensitivity > w.height,
                  vertical && !disableNorthWest && y < sensitivity,
                  horizontal && x + sensitivity > w.width,
                  horizontal && !disableNorthWest && x < sensitivity);
  }

  class ResizableWindow {
    const sensitivity: int
    var startedResizing: bool
    var quadrantResizing: string
    var disableNorthWestResizing: bool
    var resizableHorizontal: bool
    var resizableVertical: bool
    /** The snapshot taken by the last press on the frame. */
    var currentWidth: int
    var currentHeight: int
    var currentX: int
    var currentY: int
    /** The frame's `cursor` option. */
    var cursor: string

    constructor ()
      ensures sensitivity == 10 && !startedResizing
      ensures !disableNorthWestResizing && resizableHorizontal && resizableVertical
    {
      sensitivity := 10;
      startedResizing := false;
      quadrantResizing := "";
      disableNorthWestResizing := false;
      resizableHorizontal := true;
      resizableVertical := true;
      currentWidth, currentHeight, currentX, currentY := 0, 0, 0, 0;
      cursor := "arrow";
    }

    function QuadrantAt(pointerX: int, pointerY: int, w: Window): string
      reads this
    {
      Quadrant(pointerX, pointerY, w, sensitivity, resizableVertical, resizableHorizontal,
               disableNorthWestResizing)
    }

    function Snapshot(): Geometry
      reads this
    {
      Geometry(currentWidth, currentHeight, currentX, currentY)
    }

    /** `mouse_press`: ignored in fullscreen; a press on the frame takes a
        snapshot of the window and starts a session when a border is near. */
    method MousePress(isFullScreen: bool, onFrame: bool, pointerX: int, pointerY: int, w: Window)
      modifies this`currentWidth, this`currentHeight, this`currentX, this`currentY,
               this`startedResizing, this`quadrantResizing
      ensures isFullScreen || !onFrame ==>
        startedResizing == old(startedResizing) && quadrantResizing == old(quadrantResizing) &&
        Snapshot() == old(Snapshot())
      ensures !isFullScreen && onFrame ==>
        Snapshot() == Geometry(w.width, w.height, w.x, w.y) &&
        var q := QuadrantAt(pointerX, pointerY, w);
        if q != "" then startedResizing && quadrantResizing == q
        else startedResizing == old(startedResizing) && quadrantResizing == old(quadrantResizing)
    {
      if isFullScreen {
        return;
      }
      if onFrame {
        currentWidth, currentHeight := w.width, w.height;
        currentX, currentY := w.x, w.y;
        var q := QuadrantAt(pointerX, pointerY, w);
        if |q| > 0 {
          startedResizing := true;
          quadrantResizing := q;
        }
      }
    }

    /** `mouse_release`: always ends the session. */
    method MouseRelease()
      modifies this`startedResizing
      ensures !startedResizing
    {
      startedResizing := false;
    }

    /** `change_cursor_resizing`: the arrow in fullscreen; nothing during a
        session; otherwise the cursor for the borders near the pointer. */
    method ChangeCursorResizing(isFullScreen: bool, pointerX: int, pointerY: int, w: Window)
      modifies this`cursor
      ensures isFullScreen ==> cursor == "arrow"
      ensures !isFullScreen && startedResizing ==> cursor == old(cursor)
      ensures !isFullScreen && !startedResizing ==>
        var c := CursorFor(QuadrantAt(pointerX, pointerY, w));
        cursor == if c.Some? then c.value else old(cursor)
    {
      if isFullScreen {
        cursor := "arrow";
        return;
      }
      if startedResizing {
        return;
      }
      var c := CursorFor(QuadrantAt(pointerX, pointerY, w));
      if c.Some? {
        cursor := c.value;
      }
    }

    /** `mouse_motion`: outside a session nothing happens (`None`); inside it
        the per-border results are merged, in the order e, n, s, w, into the
        snapshot, giving the geometry the window is set to. */
    method MouseMotion(pointerX: int, pointerY: int) returns (r: Option<Geometry>)
      ensures !startedResizing ==> r.None?
      ensures startedResizing ==>
        r == Some(MotionGeometry(quadrantResizing, pointerX, pointerY, Snapshot()))
    {
      if !startedResizing {
        return None;
      }
      var q := quadrantResizing;
      var params := new int[4] [currentWidth, currentHeight, currentX, currentY];
      var east, north := ResizeEast(pointerX, currentX), ResizeNorth(pointerY, currentY, currentHeight);
      var south, west := ResizeSouth(pointerY, currentY), ResizeWest(pointerX, currentX, currentWidth);
      if 'e' in q {
        MergeFour(params[..], east);
        UpdateResizingParams(params, east.Slots());
      }
      ghost var width := if 'e' in q then east.width.value else currentWidth;
      assert params[..] == [width, currentHeight, currentX, currentY];
      if 'n' in q {
        MergeFour(params[..], north);
        UpdateResizingParams(params, north.Slots());
      }
      ghost var y := if 'n' in q then north.y.value else currentY;
      ghost var height := if 'n' in q then north.height.value else currentHeight;
      assert params[..] == [width, height, currentX, y];
      if 's' in q {
        MergeFour(params[..], south);
        UpdateResizingParams(params, south.Slots());
      }
      height := if 's' in q then south.height.value else height;
      assert params[..] == [width, height, currentX, y];
      if 'w' in q {
        MergeFour(params[..], west);
        UpdateResizingParams(params, west.Slots());
      }
      r := Some(Geometry(params[0], params[1], params[2], params[3]));
    }
  }
}
