/**
 * Page arithmetic shared by the two pagination bars of the front end:
 * the number of pages for a total, and the window of at most five page
 * numbers centred on the current page.
 */
module Pagination {

  /** Math.ceil(total / limit) for a positive page size. */
  function CeilDiv(total: nat, limit: nat): (pages: nat)
    requires limit > 0
    ensures (pages - 1) * limit < total <= pages * limit || (total == 0 && pages == 0)
  {
    (total + limit - 1) / limit
  }

  /** No smaller page count holds every record. */
  lemma CeilDivLeast(total: nat, limit: nat, n: nat)
    requires limit > 0 && total <= n * limit
    ensures CeilDiv(total, limit) <= n
  {
  }

  /** The first page number shown: Math.max(1, page - 2). */
  function WindowStart(page: int): (start: int)
    ensures start >= 1 && start >= page - 2
  {
    if page - 2 > 1 then page - 2 else 1
  }

  /** The last page number shown: Math.min(totalPages, page + 2). */
  function WindowEnd(totalPages: int, page: int): (end: int)
    ensures end <= totalPages && end <= page + 2
  {
    if page + 2 < totalPages then page + 2 else totalPages
  }

  /** The window holds at most five pages, all real ones, and the current page when it is in range. */
  lemma WindowShape(totalPages: int, page: int)
    ensures WindowEnd(totalPages, page) - WindowStart(page) + 1 <= 5
    ensures 1 <= page <= totalPages ==> WindowStart(page) <= page <= WindowEnd(totalPages, page)
    ensures 1 <= WindowStart(page) && WindowEnd(totalPages, page) <= totalPages
  {
  }

  /**
   * One entry of a pagination bar. Links to the first and last page drawn
   * outside the window are kept apart from the window's own page links.
   */
  datatype NavItem =
    | PrevLink(target: int, disabled: bool)
    | FirstLink
    | Ellipsis
    | PageLink(page: int, active: bool)
    | LastLink(page: int)
    | NextLink(target: int, disabled: bool)

  /** The link to page q, active when q is the current page. */
  function LinkTo(q: int, current: int): NavItem {
    PageLink(q, q == current)
  }

  /** The window's page links, start to end, the current page marked active. */
  function PageLinks(start: int, end: int, current: int): (links: seq<NavItem>)
    ensures |links| == if start <= end then end - start + 1 else 0
    ensures forall k | 0 <= k < |links| :: links[k].PageLink? && links[k].page == start + k
    ensures forall k | 0 <= k < |links| :: links[k].active <==> start + k == current
    decreases end - start
  {
    if start > end then [] else [LinkTo(start, current)] + PageLinks(start + 1, end, current)
  }

  /** Only the current page is marked active, and it is marked when it lies in the window. */
  lemma PageLinksActive(start: int, end: int, current: int)
    ensures forall it | it in PageLinks(start, end, current) :: it.PageLink? && start <= it.page <= end
    ensures forall it | it in PageLinks(start, end, current) && it.active :: it.page == current
    ensures start <= current <= end <==> PageLink(current, true) in PageLinks(start, end, current)
  {
    var links := PageLinks(start, end, current);
    if start <= current <= end {
      assert links[current - start] == PageLink(current, true);
    }
  }

  /** The page links before the window: page 1, and an ellipsis when pages are skipped. */
  function Leading(start: int): (items: seq<NavItem>)
    ensures FirstLink in items <==> start > 1
    ensures Ellipsis in items <==> start > 2
    ensures forall it | it in items :: it == FirstLink || it == Ellipsis
  {
    if start > 1 then [FirstLink] + (if start > 2 then [Ellipsis] else []) else []
  }

  /** The page links after the window: an ellipsis when pages are skipped, and the last page. */
  function Trailing(end: int, totalPages: int): (items: seq<NavItem>)
    ensures LastLink(totalPages) in items <==> end < totalPages
    ensures Ellipsis in items <==> end < totalPages - 1
    ensures forall it | it in items :: it == LastLink(totalPages) || it == Ellipsis
  {
    if end < totalPages then (if end < totalPages - 1 then [Ellipsis] else []) + [LastLink(totalPages)] else []
  }
}
