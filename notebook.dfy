/** The pages of notebook.py's `Notebook`: creating a page adds a notch to the
    tab strip, switching cycles through the pages in creation order, and
    closing a page (which a callback may veto) first moves the selection
    away from it. Pages are identified by the number of their notch. */
module NotebookTabs {
  import opened Errors
  import opened TabStrip

  /** Python's `pages[i]` for a possibly negative `i`. */
  function PyIndex(pages: seq<nat>, i: int): (r: Result<nat>)
    ensures r.Ok? <==> -|pages| <= i < |pages|
    ensures r.Ok? ==> r.value in pages && r.value == pages[if i < 0 then |pages| + i else i]
    ensures r.Err? ==> r.error == IndexError
  {
    if i < -|pages| || i >= |pages| then Err(IndexError)
    else if i < 0 then Ok(pages[|pages| + i])
    else Ok(pages[i])
  }

  /** `_switch_next_prev_tab`: with no current page, `pages[default]` (or
      `None` when there are no pages); otherwise the page `strides` after the
      current one, wrapping around. A current page missing from `pages` is a
      `ValueError` (`list.index`). */
  function NextPrev(pages: seq<nat>, curr: Option<nat>, strides: int, default: int): (r: Result<Option<nat>>)
    ensures r.Ok? && r.value.Some? ==> r.value.value in pages
    ensures r.Ok? && r.value.None? <==> curr.None? && |pages| == 0
    ensures curr.Some? ==> (r.Ok? <==> curr.value in pages)
    ensures curr.None? && |pages| > 0 ==> (r.Ok? <==> -|pages| <= default < |pages|)
  {
    if curr.None? then
      if |pages| == 0 then Ok(None)
      else
        var p :- PyIndex(pages, default);
        Ok(Some(p))
    else if curr.value !in pages then Err(ValueError)
    else
      var idx := IndexOf(pages, curr.value) + strides;
      // Python's `%` with a positive modulus, like Dafny's, is never negative.
      Ok(Some(pages[idx % |pages|]))
  }

  lemma IndexOfDistinct(pages: seq<nat>, k: nat)
    requires Distinct(pages) && k < |pages|
    ensures IndexOf(pages, pages[k]) == k
  {
  }

  /** One step forwards or backwards, modulo the page count. */
  lemma ModStep(x: int, n: int)
    requires 0 < n && -1 <= x <= n
    ensures x % n == (if x < 0 then x + n else if x == n then 0 else x)
  {
  }

  /** The page after the one at `i`. */
  lemma NextAt(pages: seq<nat>, i: nat, strides: int)
    requires Distinct(pages) && i < |pages| && (strides == 1 || strides == -1)
    ensures NextPrev(pages, Some(pages[i]), strides, 0) == NextPrev(pages, Some(pages[i]), strides, -1)
    ensures NextPrev(pages, Some(pages[i]), strides, 0) ==
      Ok(Some(pages[if i + strides < 0 then |pages| - 1 else if i + strides == |pages| then 0 else i + strides]))
  {
    IndexOfDistinct(pages, i);
    ModStep(i + strides, |pages|);
  }

  /** Going to the next page and then to the previous one comes back. */
  lemma NextThenPrev(pages: seq<nat>, c: nat)
    requires Distinct(pages) && c in pages
    ensures NextPrev(pages, Some(c), 1, 0).Ok?
    ensures NextPrev(pages, NextPrev(pages, Some(c), 1, 0).value, -1, -1) == Ok(Some(c))
  {
    var n := |pages|;
    var i := IndexOf(pages, c);
    NextAt(pages, i, 1);
    var j := if i + 1 == n then 0 else i + 1;
    NextAt(pages, j, -1);
  }

  /** The last page's next is the first, and the first page's previous is
      the last. */
  lemma NextPrevWrap(pages: seq<nat>)
    requires Distinct(pages) && |pages| > 0
    ensures NextPrev(pages, Some(pages[|pages| - 1]), 1, 0) == Ok(Some(pages[0]))
    ensures NextPrev(pages, Some(pages[0]), -1, -1) == Ok(Some(pages[|pages| - 1]))
  {
    NextAt(pages, |pages| - 1, 1);
    NextAt(pages, 0, -1);
  }

  /** Without a current page, "next" picks the first page and "previous"
      the last. */
  lemma NextPrevStart(pages: seq<nat>)
    requires |pages| > 0
    ensures NextPrev(pages, None, 1, 0) == Ok(Some(pages[0]))
    ensures NextPrev(pages, None, -1, -1) == Ok(Some(pages[|pages| - 1]))
  {
  }

  /** What `switch_next_tab` / `switch_prev_tab` switch to: the neighbour,
      or nothing when the neighbour is the current page itself. */
  function SwitchTarget(pages: seq<nat>, curr: Option<nat>, strides: int, default: int): Option<nat>
    requires NextPrev(pages, curr, strides, default).Ok?
  {
    var p := NextPrev(pages, curr, strides, default).value;
    if p == curr then None else p
  }

  /** With a single page selected, switching deselects it: its neighbour is
      itself. With two or more distinct pages it selects another page. */
  lemma SwitchTargetFacts(pages: seq<nat>, c: nat)
    requires Distinct(pages) && c in pages
    ensures |pages| == 1 ==> SwitchTarget(pages, Some(c), 1, 0).None? && SwitchTarget(pages, Some(c), -1, -1).None?
    ensures |pages| > 1 ==>
      SwitchTarget(pages, Some(c), 1, 0).Some? && SwitchTarget(pages, Some(c), 1, 0).value != c &&
      SwitchTarget(pages, Some(c), -1, -1).Some? && SwitchTarget(pages, Some(c), -1, -1).value != c
  {
    var i := IndexOf(pages, c);
    NextAt(pages, i, 1);
    NextAt(pages, i, -1);
  }

  /** Removing the element at `i` from distinct elements. */
  lemma RemoveDistinct(s: seq<nat>, i: nat)
    requires Distinct(s) && i < |s|
    ensures Distinct(Remove(s, i))
    ensures forall x :: x in Remove(s, i) <==> x in s && x != s[i]
  {
    var r := Remove(s, i);
    assert forall k :: 0 <= k < |r| ==> r[k] == s[if k < i then k else k + 1];
    forall x | x in s && x != s[i]
      ensures x in r
    {
      var k :| 0 <= k < |s| && s[k] == x;
      assert r[if k < i then k else k - 1] == x;
    }
  }

  class Notebook {
    const strip: TabNotches
    var pages: seq<nat>
    var currPage: Option<nat>
    /** How many `<<Tab-Switched>>` events were generated. */
    var switches: nat

    ghost predicate Valid()
      reads this, strip
    {
      Distinct(pages) && (currPage.Some? ==> currPage.value in pages) &&
      (forall p :: p in pages ==> p < strip.nextId)
    }

    constructor (strip: TabNotches)
      ensures this.strip == strip && pages == [] && currPage.None? && switches == 0
      ensures Valid()
    {
      this.strip := strip;
      pages, currPage, switches := [], None, 0;
    }

    /** `tab_create`: a new notch in the strip and a new page for it, not
        selected. */
    method TabCreate() returns (page: nat)
      requires Valid() && strip.Valid()
      modifies this`pages, strip`notches, strip`column, strip`nextId
      ensures Valid() && strip.Valid()
      ensures page == old(strip.nextId) && strip.nextId == page + 1 && pages == old(pages) + [page]
      ensures strip.notches == old(strip.notches) + [Notch(page)]
    {
      page := strip.Add();
      assert page !in pages;
      pages := pages + [page];
    }

    /** `_tab_switch_to`: a no-op for the current page; otherwise the page
        becomes current (`None` deselects) and `<<Tab-Switched>>` fires. */
    method TabSwitchTo(page: Option<nat>)
      modifies this`currPage, this`switches
      ensures page == old(currPage) ==> currPage == old(currPage) && switches == old(switches)
      ensures page != old(currPage) ==> currPage == page && switches == old(switches) + 1
    {
      if page == currPage {
        return;
      }
      currPage := page;
      switches := switches + 1;
    }

    /** `switch_next_tab` (`strides` 1, `default` 0) and `switch_prev_tab`
        (`strides` -1, `default` -1). */
    method Switch(strides: int, default: int) returns (r: Outcome)
      requires Valid() && (default == 0 || default == -1)
      modifies this`currPage, this`switches
      ensures Valid() && r == Pass
      ensures currPage == SwitchTarget(old(pages), old(currPage), strides, default)
      ensures switches == old(switches) + (if currPage == old(currPage) then 0 else 1)
    {
      var next := NextPrev(pages, currPage, strides, default);
      var page := next.value;
      if page == currPage {
        page := None;
      }
      TabSwitchTo(page);
      r := Pass;
    }

    /** `tab_destroy`: vetoed when `on_try_close` answers true; otherwise the
        selection moves to the previous page when the page is the current
        one, the two sanity checks hold, and the page leaves `pages` (a page
        not in `pages` is a `ValueError`). Its notch stays in the strip's
        list. */
    method TabDestroy(page: nat, veto: Option<bool>) returns (r: Outcome)
      requires Valid()
      modifies this`pages, this`currPage, this`switches
      ensures Valid()
      ensures veto == Some(true) ==> r == Pass && pages == old(pages) && currPage == old(currPage)
      ensures veto != Some(true) && page !in old(pages) ==>
        r == Fail(ValueError) && pages == old(pages) && currPage == old(currPage)
      ensures veto != Some(true) && page in old(pages) ==>
        r == Pass && pages == Remove(old(pages), IndexOf(old(pages), page)) &&
        page !in pages && currPage != Some(page) &&
        (old(currPage) != Some(page) ==> currPage == old(currPage)) &&
        (old(currPage) == Some(page) ==> currPage == SwitchTarget(old(pages), old(currPage), -1, -1))
    {
      if veto == Some(true) {
        return Pass;
      }
      if currPage == Some(page) {
        var _ := Switch(-1, -1);
        SwitchTargetFacts(pages, page);
      }
      if currPage == Some(page) {
        return Fail(AssertionError);
      }
      if currPage.Some? && currPage.value !in pages {
        return Fail(AssertionError);
      }
      if page !in pages {
        return Fail(ValueError);
      }
      RemoveDistinct(pages, IndexOf(pages, page));
      pages := Remove(pages, IndexOf(pages, page));
      r := Pass;
    }
  }

  /** Closing the selected second page of two selects the first. */
  method CloseCurrent() returns (selected: Option<nat>, left: seq<nat>)
    ensures selected == Some(0) && left == [0]
  {
    var book := SecondOfTwo();
    NextAt([0, 1], 1, -1);
    assert SwitchTarget([0, 1], Some(1), -1, -1) == Some(0);
    assert Remove([0, 1], IndexOf([0, 1], 1)) == [0];
    var _ := book.TabDestroy(1, None);
    selected, left := book.currPage, book.pages;
  }

  /** A notebook with two pages, the second one selected. */
  method SecondOfTwo() returns (book: Notebook)
    ensures fresh(book) && book.Valid() && book.pages == [0, 1] && book.currPage == Some(1)
  {
    var strip := new TabNotches();
    book := new Notebook(strip);
    var a := book.TabCreate();
    assert a == 0 && book.pages == [0];
    var b := book.TabCreate();
    assert b == 1 && book.pages == [0, 1];
    book.TabSwitchTo(Some(b));
  }

  /** Closing the only page, while it is selected, leaves nothing selected. */
  method CloseOnly() returns (selected: Option<nat>, left: seq<nat>)
    ensures selected.None? && left == []
  {
    var strip := new TabNotches();
    var book := new Notebook(strip);
    var only := book.TabCreate();
    book.TabSwitchTo(Some(only));
    SwitchTargetFacts([only], only);
    var _ := book.TabDestroy(only, None);
    selected, left := book.currPage, book.pages;
  }
}
