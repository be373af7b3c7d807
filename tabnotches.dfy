/** The tab strip of notebook.py (`TabNotches`): the list of notches, the
    grid column each one sits in, and reordering a notch by dragging it.
    Notches are identified by number; `Tmp` is the placeholder frame that
    holds a dragged notch's slot and `Plus` the "+" notch after the last. */
module TabStrip {
  import opened Errors

  const NOT_DRAG_DIST := 10
  const BUTTON1_TK_STATE := 256

  datatype Slot = Notch(id: nat) | Tmp | Plus

  /** The widget an event happened on. */
  datatype Widget = NotchWidget(id: nat) | PlusWidget | OtherWidget

  function Abs(x: int): nat {
    if x < 0 then -x else x
  }

  /** Bit 8 of Tk's event state: mouse button 1 is down. */
  predicate Button1Held(state: nat) {
    (state / BUTTON1_TK_STATE) % 2 == 1
  }

  predicate Distinct<T(==)>(s: seq<T>) {
    forall i, j :: 0 <= i < j < |s| ==> s[i] != s[j]
  }

  /** `list.index`: the first position of `x`. */
  function IndexOf<T(==)>(s: seq<T>, x: T): (i: nat)
    requires x in s
    ensures i < |s| && s[i] == x
    ensures forall j :: 0 <= j < i ==> s[j] != x
  {
    if s[0] == x then 0 else 1 + IndexOf(s[1..], x)
  }

  // ---------------------------------------------------------------------
  // Moving one element (`pop` then `insert`)

  /** `s.pop(i)` followed by inserting the popped element at `j`. */
  function Move<T>(s: seq<T>, i: nat, j: nat): (r: seq<T>)
    requires i < |s| && j < |s|
    ensures |r| == |s| && r[j] == s[i]
  {
    var rest := s[..i] + s[i + 1..];
    rest[..j] + [s[i]] + rest[j..]
  }

  /** `s` without its element at `k`. */
  function Remove<T>(s: seq<T>, k: nat): (r: seq<T>)
    requires k < |s|
    ensures |r| == |s| - 1
  {
    s[..k] + s[k + 1..]
  }

  /** Where the element at position `k` of `Move(s, i, j)` comes from. */
  function MoveSource(i: nat, j: nat, k: nat): nat {
    if k == j then i
    else if i < j && i <= k < j then k + 1
    else if j < i && j < k <= i then k - 1
    else k
  }

  lemma {:induction false} MoveAt<T>(s: seq<T>, i: nat, j: nat)
    requires i < |s| && j < |s|
    ensures forall k :: 0 <= k < |s| ==> MoveSource(i, j, k) < |s| && Move(s, i, j)[k] == s[MoveSource(i, j, k)]
  {
    var rest := s[..i] + s[i + 1..];
    assert forall k :: 0 <= k < |rest| ==> rest[k] == (if k < i then s[k] else s[k + 1]);
    var m := Move(s, i, j);
    assert m == rest[..j] + [s[i]] + rest[j..];
    forall k | 0 <= k < |s|
      ensures Move(s, i, j)[k] == s[MoveSource(i, j, k)]
    {
      if k < j {
        assert m[k] == rest[k];
      } else if k > j {
        assert m[k] == rest[k - 1];
      }
    }
  }

  /** Moving keeps every element, as many times as before. */
  lemma {:induction false} MovePermutes<T>(s: seq<T>, i: nat, j: nat)
    requires i < |s| && j < |s|
    ensures multiset(Move(s, i, j)) == multiset(s)
  {
    var rest := s[..i] + s[i + 1..];
    assert s == s[..i] + [s[i]] + s[i + 1..];
    assert rest == rest[..j] + rest[j..];
    calc {
      multiset(Move(s, i, j));
      multiset(rest[..j]) + multiset([s[i]]) + multiset(rest[j..]);
      multiset(rest) + multiset([s[i]]);
      multiset(s[..i]) + multiset(s[i + 1..]) + multiset([s[i]]);
      multiset(s);
    }
  }

  /** The other elements keep their relative order. */
  lemma {:induction false} MoveKeepsOthers<T>(s: seq<T>, i: nat, j: nat)
    requires i < |s| && j < |s|
    ensures Remove(Move(s, i, j), j) == Remove(s, i)
  {
    var rest := s[..i] + s[i + 1..];
    var m := Move(s, i, j);
    assert m[..j] == rest[..j];
    assert m[j + 1..] == rest[j..];
    assert rest == rest[..j] + rest[j..];
  }

  /** Moving back undoes a move. */
  lemma {:induction false} MoveBack<T>(s: seq<T>, i: nat, j: nat)
    requires i < |s| && j < |s|
    ensures Move(Move(s, i, j), j, i) == s
  {
    var m := Move(s, i, j);
    MoveKeepsOthers(s, i, j);
    assert Remove(m, j) == s[..i] + s[i + 1..];
    assert Move(m, j, i) == Remove(m, j)[..i] + [m[j]] + Remove(m, j)[i..];
    assert Remove(m, j)[..i] == s[..i];
    assert Remove(m, j)[i..] == s[i + 1..];
    assert s == s[..i] + [s[i]] + s[i + 1..];
  }

  lemma {:induction false} MoveInPlace<T>(s: seq<T>, i: nat)
    requires i < |s|
    ensures Move(s, i, i) == s
  {
    assert (s[..i] + s[i + 1..])[..i] == s[..i];
    assert (s[..i] + s[i + 1..])[i..] == s[i + 1..];
    assert s == s[..i] + [s[i]] + s[i + 1..];
  }

  /** Moving keeps the elements distinct. */
  lemma MoveDistinct<T>(s: seq<T>, i: nat, j: nat)
    requires i < |s| && j < |s| && Distinct(s)
    ensures Distinct(Move(s, i, j))
    ensures forall x :: x in Move(s, i, j) <==> x in s
  {
    MoveAt(s, i, j);
    MovePermutes(s, i, j);
    assert forall x :: x in Move(s, i, j) <==> x in multiset(Move(s, i, j));
  }

  /** Moving an element and then overwriting it in its new slot is the same
      as overwriting it first. */
  lemma {:induction false} MoveReplace<T>(s: seq<T>, i: nat, j: nat, a: T)
    requires i < |s| && j < |s|
    ensures Move(s[i := a], i, j) == Move(s, i, j)[j := a]
  {
    assert s[i := a][..i] == s[..i];
    assert s[i := a][i + 1..] == s[i + 1..];
    var rest := s[..i] + s[i + 1..];
    assert Move(s, i, j)[j := a] == rest[..j] + [a] + rest[j..];
  }

  /** Moving the placeholder that stands in for `s[i]` and then putting
      `s[i]` back in its place is moving `s[i]` itself. */
  lemma MovePlaceholder<T>(s: seq<T>, i: nat, j: nat, placeholder: T)
    requires i < |s| && j < |s|
    ensures Move(s[i := placeholder], i, j)[j := s[i]] == Move(s, i, j)
  {
    MoveReplace(s, i, j, placeholder);
    assert Move(s, i, j)[j] == s[i];
  }

  // ---------------------------------------------------------------------
  // The slot under a pixel offset (`calculate_idx`)

  function Sum(w: seq<nat>): nat {
    if |w| == 0 then 0 else Sum(w[..|w| - 1]) + w[|w| - 1]
  }

  /** The x offset of the middle of notch `i`. */
  function Midpoint(w: seq<nat>, i: nat): nat
    requires i < |w|
  {
    Sum(w[..i]) + w[i] / 2
  }

  function SlotFrom(w: seq<nat>, x: int, i: nat): int
    decreases |w| - i
  {
    if i >= |w| then |w| - 1
    else if x < Midpoint(w, i) then i
    else SlotFrom(w, x, i + 1)
  }

  /** The first notch whose middle lies beyond `x`, or the last notch. */
  function SlotAt(w: seq<nat>, x: int): int {
    SlotFrom(w, x, 0)
  }

  lemma {:induction false} SlotFromFacts(w: seq<nat>, x: int, i: nat)
    requires i <= |w|
    requires forall j :: 0 <= j < i ==> Midpoint(w, j) <= x
    ensures |w| > 0 ==> i <= SlotFrom(w, x, i) < |w| || (i == |w| && SlotFrom(w, x, i) == |w| - 1)
    ensures |w| == 0 ==> SlotFrom(w, x, i) == -1
    ensures forall j :: 0 <= j < SlotFrom(w, x, i) ==> Midpoint(w, j) <= x
    ensures (exists j :: 0 <= j < |w| && x < Midpoint(w, j)) ==> x < Midpoint(w, SlotFrom(w, x, i))
    ensures (forall j :: i <= j < |w| ==> Midpoint(w, j) <= x) ==> SlotFrom(w, x, i) == |w| - 1
    decreases |w| - i
  {
    if i < |w| && x >= Midpoint(w, i) {
      SlotFromFacts(w, x, i + 1);
    }
  }

  /** `calculate_idx` returns a slot of the strip; every notch before it has
      its middle at or before `x`, and it has its middle beyond `x` whenever
      some notch does; when none does, it is the last slot. */
  lemma SlotAtFacts(w: seq<nat>, x: int)
    ensures |w| == 0 ==> SlotAt(w, x) == -1
    ensures |w| > 0 ==> 0 <= SlotAt(w, x) < |w|
    ensures forall j :: 0 <= j < SlotAt(w, x) ==> Midpoint(w, j) <= x
    ensures (exists j :: 0 <= j < |w| && x < Midpoint(w, j)) ==> x < Midpoint(w, SlotAt(w, x))
    ensures (forall j :: 0 <= j < |w| ==> Midpoint(w, j) <= x) ==> SlotAt(w, x) == |w| - 1
  {
    SlotFromFacts(w, x, 0);
  }

  /** A non-empty strip always gives one of its slots. */
  lemma SlotAtInStrip(w: seq<nat>, x: int)
    requires |w| > 0
    ensures 0 <= SlotAt(w, x) < |w|
  {
    SlotFromFacts(w, x, 0);
  }

  lemma {:induction false} SlotFromMonotone(w: seq<nat>, x: int, y: int, i: nat)
    requires x <= y
    ensures SlotFrom(w, x, i) <= SlotFrom(w, y, i)
    decreases |w| - i
  {
    if i < |w| {
      if x < Midpoint(w, i) {
        SlotFromAtLeast(w, y, i);
      } else {
        SlotFromMonotone(w, x, y, i + 1);
      }
    }
  }

  lemma {:induction false} SlotFromAtLeast(w: seq<nat>, x: int, i: nat)
    requires i < |w|
    ensures i <= SlotFrom(w, x, i)
    decreases |w| - i
  {
    if x >= Midpoint(w, i) && i + 1 < |w| {
      SlotFromAtLeast(w, x, i + 1);
    }
  }

  /** Dragging further right never gives an earlier slot. */
  lemma SlotAtMonotone(w: seq<nat>, x: int, y: int)
    requires x <= y
    ensures SlotAt(w, x) <= SlotAt(w, y)
  {
    SlotFromMonotone(w, x, y, 0);
  }

  /** Each notch's right half and the next notch's left half are one step:
      the middles do not decrease. */
  lemma {:induction false} MidpointsIncrease(w: seq<nat>, i: nat)
    requires i + 1 < |w|
    ensures Midpoint(w, i) <= Midpoint(w, i + 1)
  {
    assert w[..i + 1][..i] == w[..i];
  }

  class TabNotches {
    var notches: seq<Slot>
    /** The grid column of each gridded widget. */
    var column: map<Slot, int>
    /** The number the next notch gets. */
    var nextId: nat
    var notchDragging: Option<nat>
    var dragging: bool
    var dragx: int
    /** `tmp_notch.idx`: unset until the first drag starts. */
    var tmpIdx: Option<nat>

    /** Every notch in the list sits in the column of its position. */
    ghost predicate LaidOut()
      reads this
    {
      forall k :: 0 <= k < |notches| ==> notches[k] in column && column[notches[k]] == k
    }

    ghost predicate Valid()
      reads this
    {
      Distinct(notches) && Plus !in notches && LaidOut() &&
      Plus in column && column[Plus] == (if |notches| == 0 then 1 else |notches|) &&
      (forall s :: s in notches && s.Notch? ==> s.id < nextId) &&
      (dragging ==>
        notchDragging.Some? && tmpIdx.Some? && tmpIdx.value < |notches| && notches[tmpIdx.value] == Tmp &&
        Notch(notchDragging.value) !in notches && notchDragging.value < nextId) &&
      (!dragging ==>
        Tmp !in notches && (notchDragging.Some? ==> Notch(notchDragging.value) in notches))
    }

    /** The strip as it would be if the dragged notch were dropped now. */
    function Held(): seq<Slot>
      reads this
    {
      if dragging && notchDragging.Some? && tmpIdx.Some? && tmpIdx.value < |notches|
      then notches[tmpIdx.value := Notch(notchDragging.value)]
      else notches
    }

    /** An empty strip with the "+" notch in column 1. */
    constructor ()
      ensures Valid() && notches == [] && nextId == 0
      ensures notchDragging.None? && !dragging && tmpIdx.None?
    {
      notches, column, nextId := [], map[Plus := 1], 0;
      notchDragging, dragging, dragx, tmpIdx := None, false, 0, None;
    }

    /** `add`: a new notch in the column after the last, and the "+" notch
        one column further. */
    method Add() returns (n: nat)
      requires Valid()
      modifies this`notches, this`column, this`nextId
      ensures Valid()
      ensures n == old(nextId) && nextId == n + 1
      ensures notches == old(notches) + [Notch(n)]
      ensures column == old(column)[Notch(n) := |old(notches)|][Plus := |old(notches)| + 1]
    {
      n := nextId;
      column := column[Notch(n) := |notches|][Plus := |notches| + 1];
      notches := notches + [Notch(n)];
      nextId := nextId + 1;
    }

    /** `start_dragging`: a press on a notch (not the "+" notch) records it
        and the press offset, and stops the event ("break"). */
    method StartDragging(w: Widget, x: int) returns (stop: bool)
      modifies this`notchDragging, this`dragx
      ensures !w.NotchWidget? ==> !stop && notchDragging == old(notchDragging) && dragx == old(dragx)
      ensures w.NotchWidget? ==> stop && notchDragging == Some(w.id) && dragx == x
      ensures old(Valid()) && !dragging && (w.NotchWidget? ==> Notch(w.id) in notches) ==> Valid()
    {
      if !w.NotchWidget? {
        return false;
      }
      notchDragging := Some(w.id);
      dragx := x;
      stop := true;
    }

    /** `end_dragging` as written: whenever a notch was pressed it is written
        back at `tmp_notch.idx`, even when no drag started, so the slot the
        last drag ended in is overwritten; before any drag `tmp_notch.idx`
        does not exist and the handler raises. */
    method EndDraggingAsWritten() returns (r: Outcome)
      modifies this`notches, this`column, this`notchDragging, this`dragging
      ensures old(notchDragging).Some? && tmpIdx.None? ==>
        r == Fail(AttributeError) && notchDragging == old(notchDragging) && notches == old(notches)
      ensures old(notchDragging).Some? && tmpIdx.Some? && tmpIdx.value >= |old(notches)| ==>
        r == Fail(IndexError) && notchDragging == old(notchDragging) && notches == old(notches)
      ensures old(notchDragging).Some? && tmpIdx.Some? && tmpIdx.value < |old(notches)| ==>
        r == Pass && notches == old(notches)[tmpIdx.value := Notch(old(notchDragging).value)]
      ensures old(notchDragging).None? ==> r == Pass && notches == old(notches)
      ensures r == Pass ==> notchDragging.None? && !dragging
    {
      if notchDragging.Some? {
        if tmpIdx.None? {
          return Fail(AttributeError);
        }
        var t := tmpIdx.value;
        column := (column - {Tmp})[Notch(notchDragging.value) := t];
        if t >= |notches| {
          return Fail(IndexError);
        }
        notches := notches[t := Notch(notchDragging.value)];
      }
      notchDragging, dragging := None, false;
      r := Pass;
    }

    /** `end_dragging` writing the dragged notch back only when a drag
        started: the placeholder gives its slot back to the notch, and the
        strip is what `Held` showed. */
    method EndDragging() returns (stop: bool)
      requires Valid()
      modifies this`notches, this`column, this`notchDragging, this`dragging
      ensures Valid()
      ensures notches == old(Held()) && notchDragging.None? && !dragging && stop
    {
      if dragging {
        var t := tmpIdx.value;
        var d := Notch(notchDragging.value);
        column := (column - {Tmp})[d := t];
        notches := notches[t := d];
        assert forall k :: 0 <= k < |notches| && k != t ==> notches[k] != Tmp;
      }
      notchDragging, dragging := None, false;
      stop := true;
    }

    /** `calculate_idx`: walks the notches adding half widths (`>> 1`) until
        the running middle passes `x`; the rest of each width (its other
        half and the odd pixel, `& 1`) is added after the test. */
    static method CalculateIdx(widths: seq<nat>, x: int) returns (idx: int)
      ensures idx == SlotAt(widths, x)
    {
      var total := 0;
      for i := 0 to |widths|
        invariant total == Sum(widths[..i])
        invariant SlotFrom(widths, x, i) == SlotAt(widths, x)
      {
        total := total + widths[i] / 2;
        if x < total {
          return i;
        }
        total := total + widths[i] / 2 + widths[i] % 2;
        assert widths[..i + 1][..i] == widths[..i];
      }
      idx := |widths| - 1;
    }

    /** `_reshiffle`: moves the placeholder to `idx` and re-grids the
        notches between its old and new slot (the source lists the two
        ranges `idx..tmp` and `tmp..idx`, one of which is empty). */
    method Reshiffle(idx: nat)
      requires tmpIdx.Some? && tmpIdx.value < |notches| && notches[tmpIdx.value] == Tmp && idx < |notches|
      requires Distinct(notches) && LaidOut()
      modifies this`notches, this`column, this`tmpIdx
      ensures notches == Move(old(notches), old(tmpIdx.value), idx)
      ensures tmpIdx == Some(idx) && Distinct(notches) && LaidOut()
      ensures column.Keys == old(column.Keys)
      ensures forall s :: s in column && s !in notches ==> column[s] == old(column[s])
    {
      var t := tmpIdx.value;
      if idx == t {
        MoveInPlace(notches, t);
        return;
      }
      ghost var s := notches;
      var rest := notches[..t] + notches[t + 1..];
      notches := rest[..idx] + [Tmp] + rest[idx..];
      assert notches == Move(s, t, idx);
      MoveAt(s, t, idx);
      MoveDistinct(s, t, idx);
      var lo, hi := if idx < t then idx else t, if idx < t then t else idx;
      assert forall k :: 0 <= k < |notches| && (k < lo || k > hi) ==> notches[k] == s[k];
      Regrid(lo, hi);
      tmpIdx := Some(idx);
    }

    /** The loop of `_reshiffle`: every widget from slot `lo` to slot `hi`
        is put in the column of its slot. */
    method Regrid(lo: nat, hi: nat)
      requires lo <= hi < |notches| && Distinct(notches)
      requires forall k :: 0 <= k < |notches| ==> notches[k] in column
      requires forall k :: 0 <= k < |notches| && (k < lo || k > hi) ==> column[notches[k]] == k
      modifies this`column
      ensures LaidOut() && column.Keys == old(column.Keys)
      ensures forall s :: s in column && s !in notches ==> column[s] == old(column[s])
    {
      for i := lo to hi + 1
        invariant column.Keys == old(column.Keys)
        invariant forall k :: 0 <= k < |notches| && (k < lo || k > hi || k < i) ==> column[notches[k]] == k
        invariant forall s :: s in column && s !in notches ==> column[s] == old(column[s])
      {
        column := column[notches[i] := i];
      }
    }

    /** The first motion far enough from the press: the placeholder takes
        the pressed notch's slot. */
    method BeginDrag()
      requires Valid() && !dragging && notchDragging.Some?
      modifies this`dragging, this`column, this`tmpIdx, this`notches
      ensures Valid() && dragging
      ensures tmpIdx == Some(IndexOf(old(notches), Notch(notchDragging.value)))
      ensures notches == old(notches)[tmpIdx.value := Tmp]
      ensures Held() == old(notches)
    {
      dragging := true;
      var idx := IndexOf(notches, Notch(notchDragging.value));
      column := column[Tmp := idx];
      tmpIdx := Some(idx);
      notches := notches[idx := Tmp];
    }

    /** `drag` (every pointer motion): nothing unless a notch was pressed;
        a release of button 1 ends the drag; a drag starts only once the
        pointer moved `NOT_DRAG_DIST` from the press; then the placeholder
        moves to the slot under the dragged notch's left edge, and the notch
        is placed there (the `x` returned). `widths` are the widths of the
        notches in the strip. The release runs the corrected `EndDragging`;
        the source's `end_dragging` is `EndDraggingAsWritten`. */
    method Drag(state: nat, eventX: int, xRoot: int, rootX: int, widths: seq<nat>) returns (r: Option<int>)
      requires Valid() && |widths| == |notches|
      modifies this
      ensures Valid()
      ensures old(notchDragging).None? ==> r.None? && notches == old(notches) && !dragging
      ensures old(notchDragging).Some? && !Button1Held(state) ==>
        r.None? && notches == old(Held()) && notchDragging.None? && !dragging
      ensures old(notchDragging).Some? && Button1Held(state) && !old(dragging) &&
              Abs(eventX - old(dragx)) < NOT_DRAG_DIST ==>
        r.None? && notches == old(notches) && notchDragging == old(notchDragging) && !dragging
      ensures old(notchDragging).Some? && Button1Held(state) &&
              (old(dragging) || Abs(eventX - old(dragx)) >= NOT_DRAG_DIST) ==>
        var from := if old(dragging) then old(tmpIdx).value
                    else IndexOf(old(notches), Notch(old(notchDragging).value));
        var to := SlotAt(widths, xRoot - rootX - old(dragx));
        |notches| == |old(notches)| && 0 <= to < |notches| && from < |notches| &&
        dragging && notchDragging == old(notchDragging) && r == Some(xRoot - rootX - old(dragx)) &&
        tmpIdx == Some(to) && Held() == Move(old(Held()), from, to)
    {
      if notchDragging.None? {
        return None;
      }
      if !Button1Held(state) {
        var _ := EndDragging();
        return None;
      }
      if !dragging {
        if Abs(eventX - dragx) < NOT_DRAG_DIST {
          return None;
        }
        BeginDrag();
      }
      r := FollowPointer(xRoot - rootX, widths);
    }

    /** The end of `drag` once a drag is under way: the placeholder moves to
        the slot under the notch's left edge (`x - dragx`), which is where
        the notch is placed. */
    method FollowPointer(x: int, widths: seq<nat>) returns (r: Option<int>)
      requires Valid() && dragging && |widths| == |notches|
      modifies this`notches, this`column, this`tmpIdx
      ensures Valid() && |notches| == |old(notches)|
      ensures r == Some(x - dragx)
      ensures var to := SlotAt(widths, x - dragx);
        0 <= to < |notches| && tmpIdx == Some(to) && Held() == Move(old(Held()), old(tmpIdx).value, to)
    {
      ghost var h := Held();
      ghost var from := tmpIdx.value;
      assert notches == h[from := Tmp];
      var idx := CalculateIdx(widths, x - dragx);
      SlotAtInStrip(widths, x - dragx);
      Reshiffle(idx);
      MoveDistinct(old(notches), from, idx);
      MovePlaceholder(h, from, idx, Tmp);
      r := Some(x - dragx);
    }
  }

  /** A strip of two notches after the first was dragged and dropped back
      in slot 0. */
  method DraggedInPlace() returns (t: TabNotches)
    ensures fresh(t) && t.Valid()
    ensures t.notches == [Notch(0), Notch(1)] && t.tmpIdx == Some(0)
    ensures t.notchDragging.None? && !t.dragging
  {
    t := PressedFirst();
    DragFirstInPlace(t);
    var _ := t.EndDragging();
  }

  /** The pressed first notch moves far enough to start a drag, and the
      pointer stays over slot 0. */
  method DragFirstInPlace(t: TabNotches)
    requires t.Valid() && t.notches == [Notch(0), Notch(1)] && t.notchDragging == Some(0)
    requires t.dragx == 0 && !t.dragging
    modifies t
    ensures t.Valid() && t.dragging && t.tmpIdx == Some(0)
    ensures t.Held() == [Notch(0), Notch(1)]
  {
    assert SlotAt([4, 4], 0) == 0 && IndexOf([Notch(0), Notch(1)], Notch(0)) == 0;
    assert Button1Held(BUTTON1_TK_STATE);
    MoveInPlace([Notch(0), Notch(1)], 0);
    var _ := t.Drag(BUTTON1_TK_STATE, NOT_DRAG_DIST, 0, 0, [4, 4]);
  }

  /** Two notches, the first one pressed at x offset 0. */
  method PressedFirst() returns (t: TabNotches)
    ensures fresh(t) && t.Valid()
    ensures t.notches == [Notch(0), Notch(1)] && t.notchDragging == Some(0)
    ensures t.dragx == 0 && !t.dragging
  {
    t := new TabNotches();
    var _ := t.Add();
    var _ := t.Add();
    assert t.notches == [Notch(0), Notch(1)];
    var _ := t.StartDragging(NotchWidget(0), 0);
  }

  /** As written: after a drag that ended in slot 0, a click on the second
      notch (a press and a release with no motion in between) writes it
      into slot 0 as well, so the strip holds it twice and loses the
      first notch. */
  method ClickAfterDragAsWritten() returns (before: seq<Slot>, after: seq<Slot>, r: Outcome)
    ensures before == [Notch(0), Notch(1)]
    ensures r == Pass && after == [Notch(1), Notch(1)]
  {
    var t := DraggedInPlace();
    before := t.notches;
    var _ := t.StartDragging(NotchWidget(1), 0);
    r := t.EndDraggingAsWritten();
    after := t.notches;
  }

  /** As written: a click on a notch before any drag raises from the
      release handler, which then leaves the notch marked as pressed. */
  method FirstClickAsWritten() returns (r: Outcome, pressed: Option<nat>)
    ensures r == Fail(AttributeError) && pressed == Some(0)
  {
    var t := new TabNotches();
    var _ := t.Add();
    var _ := t.StartDragging(NotchWidget(0), 0);
    r := t.EndDraggingAsWritten();
    pressed := t.notchDragging;
  }

  /** With the corrected release handler, the same press and release leave
      the strip as it was. */
  method ClickAfterDrag() returns (before: seq<Slot>, after: seq<Slot>)
    ensures before == [Notch(0), Notch(1)] && after == before
  {
    var t := DraggedInPlace();
    before := t.notches;
    var _ := t.StartDragging(NotchWidget(1), 0);
    var _ := t.EndDragging();
    after := t.notches;
  }

  /** A whole drag, from press to release through any number of motions,
      leaves the strip a permutation of what it was. This holds with the
      corrected `EndDragging`; as written it does not
      (`ClickAfterDragAsWritten`). */
  method DragCycle(t: TabNotches, w: Widget, x: int, motions: seq<(nat, int, int, int)>, widths: seq<nat>)
    requires t.Valid() && !t.dragging && t.notchDragging.None?
    requires w.NotchWidget? ==> Notch(w.id) in t.notches
    requires |widths| == |t.notches|
    modifies t
    ensures t.Valid() && !t.dragging && t.notchDragging.None?
    ensures multiset(t.notches) == multiset(old(t.notches))
  {
    var _ := t.StartDragging(w, x);
    for m := 0 to |motions|
      invariant t.Valid() && |widths| == |t.notches|
      invariant multiset(t.Held()) == multiset(old(t.notches))
    {
      var (state, eventX, xRoot, rootX) := motions[m];
      ghost var h := t.Held();
      ghost var from := if t.dragging then t.tmpIdx.value
                        else if t.notchDragging.Some? && Notch(t.notchDragging.value) in t.notches
                        then IndexOf(t.notches, Notch(t.notchDragging.value)) else 0;
      var _ := t.Drag(state, eventX, xRoot, rootX, widths);
      if t.dragging {
        // Only a motion that starts or continues a drag moves a notch.
        MovePermutes(h, from, t.tmpIdx.value);
      }
    }
    var _ := t.EndDragging();
  }
}
