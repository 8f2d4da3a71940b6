/**
 * The product-template page's state in the browser: the page being shown,
 * the page count of the last load, the templates loaded, and the set of
 * templates ticked for bulk actions.
 */
module ProductTemplates {
  import opened Pagination

  /** Templates shown per page. */
  const PageSize: nat := 12

  /** The page changePage moves to: the requested one, unless it is out of range or already shown. */
  function PageAfter(currentPage: int, totalPages: int, page: int): (next: int)
    ensures next == currentPage || next == page
    ensures next == page <==> (1 <= page <= totalPages) || page == currentPage
  {
    if page < 1 || page > totalPages || page == currentPage then currentPage else page
  }

  /** Moving stays among the real pages. */
  lemma PageAfterInRange(currentPage: int, totalPages: int, page: int)
    requires 1 <= currentPage <= totalPages
    ensures 1 <= PageAfter(currentPage, totalPages, page) <= totalPages
  {
  }

  /** The selection after ticking or unticking one template. */
  function Toggled(selected: set<int>, id: int): (after: set<int>)
    ensures id in after <==> id !in selected
    ensures forall x | x != id :: x in after <==> x in selected
  {
    if id in selected then selected - {id} else selected + {id}
  }

  /** Ticking a template twice leaves the selection as it was. */
  lemma ToggleTwice(selected: set<int>, id: int)
    ensures Toggled(Toggled(selected, id), id) == selected
  {
  }

  /** The ids of a list of templates, as a set. */
  function IdSet(ids: seq<int>): (s: set<int>)
    ensures forall x :: x in s <==> x in ids
  {
    set x | x in ids
  }

  /**
   * The bar: a Previous button (disabled on the first page), page 1 and an
   * ellipsis before the window when it does not reach them, the window, an
   * ellipsis and the last page after it likewise, and a Next button
   * (disabled on the last page); nothing when there is a single page.
   */
  function Nav(totalPages: int, page: int): (nav: seq<NavItem>)
    ensures totalPages <= 1 <==> nav == []
  {
    if totalPages <= 1 then []
    else
      var start := WindowStart(page);
      var end := WindowEnd(totalPages, page);
      [PrevLink(page - 1, page == 1)] + Leading(start) + PageLinks(start, end, page) + Trailing(end, totalPages)
      + [NextLink(page + 1, page == totalPages)]
  }

  /** Previous and Next are always drawn, once each, disabled exactly on the first and last page. */
  lemma NavButtons(totalPages: int, page: int)
    requires totalPages > 1
    ensures var nav := Nav(totalPages, page);
      nav[0] == PrevLink(page - 1, page == 1) && nav[|nav| - 1] == NextLink(page + 1, page == totalPages) &&
      (forall it | it in nav && it.PrevLink? :: it == nav[0]) &&
      (forall it | it in nav && it.NextLink? :: it == nav[|nav| - 1])
  {
    var start := WindowStart(page);
    var end := WindowEnd(totalPages, page);
    var middle := Leading(start) + PageLinks(start, end, page) + Trailing(end, totalPages);
    PageLinksActive(start, end, page);
    ButtonsAround(PrevLink(page - 1, page == 1), middle, NextLink(page + 1, page == totalPages));
  }

  /** A bar framed by one button at each end, with none in between. */
  lemma ButtonsAround(prev: NavItem, middle: seq<NavItem>, next: NavItem)
    requires prev.PrevLink? && next.NextLink?
    requires forall it | it in middle :: !it.PrevLink? && !it.NextLink?
    ensures var nav := [prev] + middle + [next];
      nav[0] == prev && nav[|nav| - 1] == next &&
      (forall it | it in nav && it.PrevLink? :: it == prev) &&
      (forall it | it in nav && it.NextLink? :: it == next)
  {
    var nav := [prev] + middle + [next];
    forall it | it in nav
      ensures it == prev || it in middle || it == next
    {
    }
  }

  /**
   * Every page link leads to a real page, and pressing a disabled button
   * changes nothing: changePage turns the request down.
   */
  lemma NavTargets(totalPages: int, page: int)
    requires 1 <= page <= totalPages && totalPages > 1
    ensures forall it | it in Nav(totalPages, page) && it.PageLink? :: 1 <= it.page <= totalPages
    ensures forall it | it in Nav(totalPages, page) && (it.PrevLink? || it.NextLink?) ::
      (it.disabled <==> PageAfter(page, totalPages, it.target) == page)
  {
    var start := WindowStart(page);
    var end := WindowEnd(totalPages, page);
    var lead, links, trail := Leading(start), PageLinks(start, end, page), Trailing(end, totalPages);
    assert Nav(totalPages, page) == [PrevLink(page - 1, page == 1)] + lead + links + trail + [NextLink(page + 1, page == totalPages)];
    PageLinksActive(start, end, page);
    WindowShape(totalPages, page);
  }

  /** The page's state: the module-level variables of the script. */
  class TemplatesPage {
    /** The ids of the templates of the current page, in order. */
    var productIds: seq<int>
    var currentPage: int
    var totalPages: int
    var selectedTemplates: set<int>

    /** The state the script starts with. */
    constructor ()
      ensures productIds == [] && currentPage == 1 && totalPages == 1 && selectedTemplates == {}
    {
      productIds := [];
      currentPage := 1;
      totalPages := 1;
      selectedTemplates := {};
    }

    /** A successful load: the page's templates, and the page count for the total found. */
    method Loaded(ids: seq<int>, total: nat)
      modifies this
      ensures productIds == ids && totalPages == CeilDiv(total, PageSize)
      ensures currentPage == old(currentPage) && selectedTemplates == old(selectedTemplates)
    {
      productIds := ids;
      totalPages := CeilDiv(total, PageSize);
    }

    /** changePage: move to a page, answering whether the templates must be loaded again. */
    method ChangePage(page: int) returns (reload: bool)
      modifies this
      ensures currentPage == PageAfter(old(currentPage), old(totalPages), page)
      ensures reload <==> 1 <= page <= old(totalPages) && page != old(currentPage)
      ensures productIds == old(productIds) && totalPages == old(totalPages)
      ensures selectedTemplates == old(selectedTemplates)
    {
      if page < 1 || page > totalPages || page == currentPage {
        return false;
      }
      currentPage := page;
      reload := true;
    }

    /** toggleSelection: tick a template if it is not ticked, untick it if it is. */
    method ToggleSelection(id: int)
      modifies this
      ensures selectedTemplates == Toggled(old(selectedTemplates), id)
      ensures productIds == old(productIds) && currentPage == old(currentPage) && totalPages == old(totalPages)
    {
      if id in selectedTemplates {
        selectedTemplates := selectedTemplates - {id};
      } else {
        selectedTemplates := selectedTemplates + {id};
      }
    }

    /** toggleSelectAll: ticking adds every template of the page, one by one; unticking clears the selection. */
    method ToggleSelectAll(checked: bool)
      modifies this
      ensures selectedTemplates == if checked then old(selectedTemplates) + IdSet(productIds) else {}
      ensures productIds == old(productIds) && currentPage == old(currentPage) && totalPages == old(totalPages)
    {
      if checked {
        var i := 0;
        while i < |productIds|
          invariant i <= |productIds|
          invariant selectedTemplates == old(selectedTemplates) + IdSet(productIds[..i])
          invariant productIds == old(productIds) && currentPage == old(currentPage) && totalPages == old(totalPages)
        {
          selectedTemplates := selectedTemplates + {productIds[i]};
          assert productIds[..i + 1] == productIds[..i] + [productIds[i]];
          i := i + 1;
        }
        assert productIds[..i] == productIds;
      } else {
        selectedTemplates := {};
      }
    }

    /** clearSelection: nothing stays ticked. */
    method ClearSelection()
      modifies this
      ensures selectedTemplates == {}
      ensures productIds == old(productIds) && currentPage == old(currentPage) && totalPages == old(totalPages)
    {
      selectedTemplates := {};
    }

    /** The bar renderPagination draws for the current state. */
    function NavBar(): (nav: seq<NavItem>)
      reads this
      ensures nav == [] <==> totalPages <= 1
    {
      Nav(totalPages, currentPage)
    }
  }
}
