/** Moving an undecorated window by its title bar (win.py, `DraggableWindow`,
    `BetterTk.check_parent_titlebar` and `BetterTk.snap_to_side`). Widgets are
    identified by integers; the widget tree is the map from each widget to its
    `master` (`None` above the top-level window). */
module Drag {
  import opened Errors

  /** The widgets `check_parent_titlebar` compares against, and the tree. */
  datatype Chrome = Chrome(root: int, buttonsFrame: int, titleBar: int, master: map<int, Option<int>>)
  {
    /** Every master named in the tree is itself in the tree. */
    predicate Closed() {
      forall w :: w in master && master[w].Some? ==> master[w].value in master
    }

    /** The master of a widget in the tree. */
    function Up(w: int): (m: Option<int>)
      requires Closed() && w in master
      ensures m.Some? ==> m.value in master
    {
      master[w]
    }
  }

  /** `rank` witnesses that the tree has no cycle: a master always ranks
      below its child. Tk widget trees always have such a ranking. */
  ghost predicate Ranked(c: Chrome, rank: map<int, nat>) {
    c.Closed() &&
    (forall w :: w in c.master ==> w in rank) &&
    (forall w :: w in c.master && c.master[w].Some? ==> rank[c.master[w].value] < rank[w])
  }

  predicate InTree(c: Chrome, w: Option<int>) {
    w.None? || w.value in c.master
  }

  /** The widget `k` steps up the chain of masters from `w`. */
  function Ancestor(c: Chrome, w: Option<int>, k: nat): (a: Option<int>)
    requires c.Closed() && InTree(c, w)
    ensures InTree(c, a)
  {
    if k == 0 then w
    else
      var a := Ancestor(c, w, k - 1);
      if a.None? then None else c.Up(a.value)
  }

  /** A widget at which the walk of `check_parent_titlebar` ends. */
  predicate Stops(c: Chrome, w: Option<int>) {
    w.None? || w == Some(c.root) || w == Some(c.buttonsFrame) || w == Some(c.titleBar)
  }

  /** The title bar is met on the way up from `w` before the buttons frame,
      the root window or the end of the chain. */
  ghost predicate OnTitlebar(c: Chrome, w: Option<int>)
    requires c.Closed() && InTree(c, w)
  {
    c.titleBar != c.root && c.titleBar != c.buttonsFrame &&
    exists k: nat :: Ancestor(c, w, k) == Some(c.titleBar) &&
      forall j: nat :: j < k ==> !Stops(c, Ancestor(c, w, j))
  }

  /** `check_parent_titlebar`: walks up from the pressed widget. */
  method CheckParentTitlebar(c: Chrome, widget: Option<int>, ghost rank: map<int, nat>) returns (r: bool)
    requires Ranked(c, rank) && InTree(c, widget)
    ensures r <==> OnTitlebar(c, widget)
  {
    var w := widget;
    ghost var k: nat := 0;
    assert forall v :: v in c.master ==> v in rank;
    while w != Some(c.root)
      invariant InTree(c, w) && w == Ancestor(c, widget, k)
      invariant forall j: nat :: j < k ==> !Stops(c, Ancestor(c, widget, j))
      decreases if w.None? then 0 else rank[w.value] + 1
    {
      if w == Some(c.buttonsFrame) {
        NotOnTitlebar(c, widget, k);
        return false;
      }
      if w == Some(c.titleBar) {
        return true;
      }
      if w.None? {
        NotOnTitlebar(c, widget, k);
        return false;
      }
      w := c.Up(w.value);
      k := k + 1;
    }
    NotOnTitlebar(c, widget, k);
    return false;
  }

  /** A walk that stops at `k` on anything but the title bar never meets it. */
  lemma NotOnTitlebar(c: Chrome, widget: Option<int>, k: nat)
    requires c.Closed() && InTree(c, widget)
    requires forall j: nat :: j < k ==> !Stops(c, Ancestor(c, widget, j))
    requires Stops(c, Ancestor(c, widget, k))
    requires Ancestor(c, widget, k) != Some(c.titleBar) || c.titleBar == c.root || c.titleBar == c.buttonsFrame
    ensures !OnTitlebar(c, widget)
  {
    if c.titleBar != c.root && c.titleBar != c.buttonsFrame {
      forall k': nat | Ancestor(c, widget, k') == Some(c.titleBar)
        ensures exists j: nat :: j < k' && Stops(c, Ancestor(c, widget, j))
      {
        assert k < k';
      }
    }
  }

  /** Pressing the title bar itself is always a press on the title bar. */
  lemma TitlebarIsOnTitlebar(c: Chrome)
    requires c.Closed() && c.titleBar in c.master
    requires c.titleBar != c.root && c.titleBar != c.buttonsFrame
    ensures OnTitlebar(c, Some(c.titleBar))
  {
    assert Ancestor(c, Some(c.titleBar), 0) == Some(c.titleBar);
  }

  /** A press on a button (a direct child of the buttons frame) is never a
      press on the title bar, although the buttons frame sits inside it. */
  lemma ButtonsNeverOnTitlebar(c: Chrome, b: int)
    requires c.Closed() && b in c.master && c.master[b] == Some(c.buttonsFrame)
    requires b != c.root && b != c.titleBar && b != c.buttonsFrame
    ensures !OnTitlebar(c, Some(b))
  {
    assert Ancestor(c, Some(b), 1) == Some(c.buttonsFrame);
    NotOnTitlebar(c, Some(b), 1);
  }

  /** One axis of `snap_to_side`: snap to 0 when the near gap is under the
      threshold, then to `screen - size` when the far gap is. */
  function SnapAxis(pos: int, size: int, screen: int, threshold: int): (p: int)
    ensures screen - (pos + size) < threshold ==> p == screen - size
    ensures screen - (pos + size) >= threshold && pos < threshold ==> p == 0
    ensures screen - (pos + size) >= threshold && pos >= threshold ==> p == pos
  {
    var p := if pos < threshold then 0 else pos;
    if screen - (pos + size) < threshold then screen - size else p
  }

  /** Snapping a window that starts on screen twice is the same as once. */
  lemma SnapAxisIdempotent(pos: int, size: int, screen: int, threshold: int)
    requires 0 <= pos && 0 < threshold
    ensures SnapAxis(SnapAxis(pos, size, screen, threshold), size, screen, threshold)
         == SnapAxis(pos, size, screen, threshold)
  {
  }

  /** A window origin. */
  datatype Position = Position(x: int, y: int)

  /** What `snap_to_side` reads from Tk. */
  datatype Screen = Screen(rootX: int, rootY: int, width: int, height: int,
                           screenWidth: int, screenHeight: int)

  function Snap(s: Screen, threshold: int): Position {
    Position(SnapAxis(s.rootX, s.width, s.screenWidth, threshold),
             SnapAxis(s.rootY, s.height, s.screenHeight, threshold))
  }

  /** `snap_to_side`: skipped (`None`) when called for an event that is not
      on the title bar; otherwise the window moves to the snapped origin, each
      axis on its own. */
  method SnapToSide(c: Chrome, event: Option<Option<int>>, ghost rank: map<int, nat>,
                    s: Screen, threshold: int) returns (r: Option<Position>)
    requires Ranked(c, rank) && (event.Some? ==> InTree(c, event.value))
    ensures event.Some? && !OnTitlebar(c, event.value) ==> r.None?
    ensures event.None? || OnTitlebar(c, event.value) ==> r == Some(Snap(s, threshold))
  {
    if event.Some? {
      var onTitlebar := CheckParentTitlebar(c, event.value, rank);
      if !onTitlebar {
        return None;
      }
    }
    return Some(Snap(s, threshold));
  }

  /** The press that `clickwin` reacts to: the pressed widget, its root
      coordinates, the window's root coordinates and the press offset. */
  datatype Press = Press(widget: Option<int>, widgetRootX: int, widgetRootY: int,
                         windowRootX: int, windowRootY: int, x: int, y: int)

  class DraggableWindow {
    var dragging: bool
    var offsetX: int
    var offsetY: int

    constructor ()
      ensures !dragging && offsetX == 0 && offsetY == 0
    {
      dragging, offsetX, offsetY := false, 0, 0;
    }

    /** `stopdragwin`: always ends the drag. */
    method StopDragWin()
      modifies this`dragging
      ensures !dragging
    {
      dragging := false;
    }

    /** `dragwin`: while dragging, the window moves to the pointer minus the
        offset recorded at the press; otherwise nothing happens (`None`). */
    method DragWin(pointerX: int, pointerY: int) returns (r: Option<Position>)
      ensures dragging ==> r == Some(Position(pointerX - offsetX, pointerY - offsetY))
      ensures !dragging ==> r.None?
    {
      if dragging {
        r := Some(Position(pointerX - offsetX, pointerY - offsetY));
      } else {
        r := None;
      }
    }

    /** `clickwin`: ignored in fullscreen and for presses off the title bar;
        otherwise starts a drag, recording where in the window the pointer is. */
    method ClickWin(isFullScreen: bool, c: Chrome, ghost rank: map<int, nat>, e: Press)
      requires Ranked(c, rank) && InTree(c, e.widget)
      modifies this
      ensures isFullScreen || !OnTitlebar(c, e.widget) ==>
        dragging == old(dragging) && offsetX == old(offsetX) && offsetY == old(offsetY)
      ensures !isFullScreen && OnTitlebar(c, e.widget) ==>
        dragging && offsetX == e.widgetRootX - e.windowRootX + e.x &&
        offsetY == e.widgetRootY - e.windowRootY + e.y
    {
      if isFullScreen {
        return;
      }
      var onTitlebar := CheckParentTitlebar(c, e.widget, rank);
      if !onTitlebar {
        return;
      }
      dragging := true;
      offsetX := e.widgetRootX - e.windowRootX + e.x;
      offsetY := e.widgetRootY - e.windowRootY + e.y;
    }
  }

  /** A press on the title bar followed by a motion: the window's origin
      moves with the pointer, so the pressed point stays under it. */
  method DragKeepsGrip(c: Chrome, ghost rank: map<int, nat>, e: Press, pointerX: int, pointerY: int)
    returns (r: Option<Position>)
    requires Ranked(c, rank) && InTree(c, e.widget) && OnTitlebar(c, e.widget)
    ensures r.Some?
    ensures r.value.x + (e.widgetRootX - e.windowRootX + e.x) == pointerX
    ensures r.value.y + (e.widgetRootY - e.windowRootY + e.y) == pointerY
  {
    var d := new DraggableWindow();
    d.ClickWin(false, c, rank, e);
    r := d.DragWin(pointerX, pointerY);
  }
}
