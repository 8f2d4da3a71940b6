/**
 * The gold-management page's own logic: its pagination bar, the labels of
 * attribute field types, and the collection of gold-attribute values from
 * the product-template form before it is sent to the server.
 */
module GoldManagement {
  import opened Wrappers
  import opened Text
  import opened Dicts
  import opened Pagination
  import MainApp

  // ---------------------------------------------------------------------
  // Pagination
  // ---------------------------------------------------------------------

  /** What the pagination line reports: the page count and the records shown. */
  datatype PageInfo = PageInfo(totalPages: nat, startRecord: int, endRecord: int)

  /** The record range of a page: records (page-1)*limit+1 to min(page*limit, total). */
  function Info(total: nat, page: int, limit: nat): (info: PageInfo)
    requires limit > 0
    ensures info.totalPages == CeilDiv(total, limit)
    ensures info.endRecord <= total && info.endRecord <= page * limit
  {
    PageInfo(CeilDiv(total, limit), (page - 1) * limit + 1, if page * limit < total then page * limit else total)
  }

  /**
   * On a real page the range is non-empty and at most one page long; every
   * page but the last is full, and the last ends at the final record.
   */
  lemma RecordRange(total: nat, page: int, limit: nat)
    requires limit > 0 && 1 <= page <= CeilDiv(total, limit)
    ensures var info := Info(total, page, limit);
      1 <= info.startRecord <= info.endRecord <= total &&
      info.endRecord - info.startRecord + 1 <= limit &&
      (page < info.totalPages ==> info.endRecord - info.startRecord + 1 == limit) &&
      (page == info.totalPages ==> info.endRecord == total)
  {
    var pages := CeilDiv(total, limit);
    assert (pages - 1) * limit < total;
    assert (page - 1) * limit <= (pages - 1) * limit;
    if page < pages {
      assert page * limit <= (pages - 1) * limit;
    }
  }

  /** Previous, drawn when not on the first page. */
  function PrevPart(page: int): (items: seq<NavItem>)
    ensures PrevLink(page - 1, false) in items <==> page > 1
    ensures forall it | it in items :: it.PrevLink?
  {
    if page > 1 then [PrevLink(page - 1, false)] else []
  }

  /** Next, drawn when not on the last page. */
  function NextPart(totalPages: int, page: int): (items: seq<NavItem>)
    ensures NextLink(page + 1, false) in items <==> page < totalPages
    ensures forall it | it in items :: it.NextLink?
  {
    if page < totalPages then [NextLink(page + 1, false)] else []
  }

  /**
   * The bar: Previous when not on the first page, page 1 and an ellipsis
   * before the window when it does not reach them, the window, an ellipsis
   * and the last page after it likewise, and Next when not on the last
   * page; nothing at all when there is a single page.
   */
  function Nav(totalPages: int, page: int): (nav: seq<NavItem>)
    ensures totalPages <= 1 <==> nav == []
  {
    if totalPages <= 1 then []
    else
      var start := WindowStart(page);
      var end := WindowEnd(totalPages, page);
      var links := PageLinks(start, end, page);
      assert FirstLink in Leading(start) || |links| > 0 || LastLink(totalPages) in Trailing(end, totalPages);
      PrevPart(page) + Leading(start) + links + Trailing(end, totalPages) + NextPart(totalPages, page)
  }

  /** renderPagination: the info line and the bar, the bar built up entry by entry. */
  method RenderPagination(total: nat, page: int, limit: nat) returns (info: PageInfo, nav: seq<NavItem>)
    requires limit > 0
    ensures info == Info(total, page, limit)
    ensures nav == Nav(info.totalPages, page)
  {
    var totalPages := CeilDiv(total, limit);
    info := PageInfo(totalPages, (page - 1) * limit + 1, if page * limit < total then page * limit else total);
    nav := [];
    if totalPages > 1 {
      if page > 1 {
        nav := nav + [PrevLink(page - 1, false)];
      }
      assert nav == PrevPart(page);
      var start := WindowStart(page);
      var end := WindowEnd(totalPages, page);
      nav := AppendLeading(nav, start);
      var links := WindowLinks(start, end, page);
      nav := nav + links;
      nav := AppendTrailing(nav, end, totalPages);
      if page < totalPages {
        nav := nav + [NextLink(page + 1, false)];
      }
      assert nav == PrevPart(page) + Leading(start) + links + Trailing(end, totalPages) + NextPart(totalPages, page);
    }
  }

  /** Page 1 and the ellipsis before the window. */
  method AppendLeading(before: seq<NavItem>, start: int) returns (nav: seq<NavItem>)
    ensures nav == before + Leading(start)
  {
    nav := before;
    if start > 1 {
      nav := nav + [FirstLink];
      if start > 2 {
        nav := nav + [Ellipsis];
      }
    }
  }

  /** The ellipsis and the last page after the window. */
  method AppendTrailing(before: seq<NavItem>, end: int, totalPages: int) returns (nav: seq<NavItem>)
    ensures nav == before + Trailing(end, totalPages)
  {
    nav := before;
    if end < totalPages {
      if end < totalPages - 1 {
        nav := nav + [Ellipsis];
      }
      nav := nav + [LastLink(totalPages)];
    }
  }

  /** The loop over the window's pages. */
  method WindowLinks(start: int, end: int, page: int) returns (links: seq<NavItem>)
    ensures links == PageLinks(start, end, page)
  {
    links := [];
    var i := start;
    while i <= end
      invariant start <= i <= if start <= end then end + 1 else start
      invariant |links| == i - start
      invariant forall k | 0 <= k < |links| :: links[k] == PageLink(start + k, start + k == page)
    {
      links := links + [PageLink(i, i == page)];
      i := i + 1;
    }
    var expected := PageLinks(start, end, page);
    assert |links| == |expected|;
    forall k | 0 <= k < |links|
      ensures links[k] == expected[k]
    {
    }
  }

  /** Each window page is linked exactly once in PageLinks. */
  lemma {:induction false} PageLinksOnce(start: int, end: int, current: int, q: int)
    requires start <= q <= end
    ensures multiset(PageLinks(start, end, current))[LinkTo(q, current)] == 1
    decreases end - start
  {
    var rest := PageLinks(start + 1, end, current);
    assert PageLinks(start, end, current) == [LinkTo(start, current)] + rest;
    if q == start {
      assert LinkTo(q, current) !in rest;
    } else {
      PageLinksOnce(start + 1, end, current, q);
    }
  }

  /** Previous and Next, and the links to the first and last page, appear exactly when the source draws them. */
  lemma NavLinks(totalPages: int, page: int)
    requires totalPages > 1
    ensures var nav := Nav(totalPages, page);
      (PrevLink(page - 1, false) in nav <==> page > 1) &&
      (NextLink(page + 1, false) in nav <==> page < totalPages) &&
      (FirstLink in nav <==> WindowStart(page) > 1) &&
      (LastLink(totalPages) in nav <==> WindowEnd(totalPages, page) < totalPages)
  {
    var start := WindowStart(page);
    var end := WindowEnd(totalPages, page);
    var pre, lead, links, trail, post := PrevPart(page), Leading(start), PageLinks(start, end, page), Trailing(end, totalPages), NextPart(totalPages, page);
    PageLinksActive(start, end, page);
    assert Nav(totalPages, page) == pre + lead + links + trail + post;
  }

  /** One ellipsis for the pages skipped before the window, one for those skipped after it. */
  lemma NavEllipses(totalPages: int, page: int)
    requires totalPages > 1
    ensures multiset(Nav(totalPages, page))[Ellipsis] ==
      (if WindowStart(page) > 2 then 1 else 0) + (if WindowEnd(totalPages, page) < totalPages - 1 then 1 else 0)
  {
    var start := WindowStart(page);
    var end := WindowEnd(totalPages, page);
    var pre, lead, links, trail, post := PrevPart(page), Leading(start), PageLinks(start, end, page), Trailing(end, totalPages), NextPart(totalPages, page);
    var nav := Nav(totalPages, page);
    assert nav == pre + lead + links + trail + post;
    assert multiset(nav) == multiset(pre) + multiset(lead) + multiset(links) + multiset(trail) + multiset(post);
    PageLinksActive(start, end, page);
    assert Ellipsis !in pre && Ellipsis !in links && Ellipsis !in post;
    assert multiset(lead)[Ellipsis] == if start > 2 then 1 else 0;
    assert multiset(trail)[Ellipsis] == if end < totalPages - 1 then 1 else 0;
  }

  /** The bar links each window page exactly once. */
  lemma NavPagesOnce(totalPages: int, page: int)
    requires totalPages > 1
    ensures forall q | WindowStart(page) <= q <= WindowEnd(totalPages, page) :: multiset(Nav(totalPages, page))[LinkTo(q, page)] == 1
  {
    var start := WindowStart(page);
    var end := WindowEnd(totalPages, page);
    var pre, lead, links, trail, post := PrevPart(page), Leading(start), PageLinks(start, end, page), Trailing(end, totalPages), NextPart(totalPages, page);
    var nav := Nav(totalPages, page);
    assert nav == pre + lead + links + trail + post;
    forall q | start <= q <= end
      ensures multiset(nav)[LinkTo(q, page)] == 1
    {
      PageLinksOnce(start, end, page, q);
      var it := LinkTo(q, page);
      assert it !in pre && it !in lead && it !in trail && it !in post;
      assert multiset(nav) == multiset(pre) + multiset(lead) + multiset(links) + multiset(trail) + multiset(post);
    }
  }

  /**
   * The bar links no page outside the window, and marks only the current
   * page active — which it does mark when it exists.
   */
  lemma NavActivePage(totalPages: int, page: int)
    requires totalPages > 1
    ensures var nav := Nav(totalPages, page);
      (forall it | it in nav && it.PageLink? :: WindowStart(page) <= it.page <= WindowEnd(totalPages, page)) &&
      (forall it | it in nav && it.PageLink? && it.active :: it.page == page) &&
      (1 <= page <= totalPages ==> PageLink(page, true) in nav)
  {
    var start := WindowStart(page);
    var end := WindowEnd(totalPages, page);
    var pre, lead, links, trail, post := PrevPart(page), Leading(start), PageLinks(start, end, page), Trailing(end, totalPages), NextPart(totalPages, page);
    assert Nav(totalPages, page) == pre + lead + links + trail + post;
    PageLinksActive(start, end, page);
    WindowShape(totalPages, page);
  }

  // ---------------------------------------------------------------------
  // Field type labels
  // ---------------------------------------------------------------------

  /** The Vietnamese label of each field type. */
  const FieldTypeLabels: map<string, string> := map[
    "char" := "Văn bản",
    "float" := "Số thập phân",
    "integer" := "Số nguyên",
    "boolean" := "Đúng/Sai",
    "date" := "Ngày",
    "selection" := "Lựa chọn"]

  /** getFieldTypeLabel: the label of a known type, any other type unchanged. */
  function FieldTypeLabel(fieldType: string): (shown: string)
    ensures fieldType !in FieldTypeLabels ==> shown == fieldType
    ensures fieldType in FieldTypeLabels ==> shown != fieldType && shown !in FieldTypeLabels
  {
    if fieldType in FieldTypeLabels then FieldTypeLabels[fieldType] else fieldType
  }

  /** Every type the server accepts has its own label, and no two share one. */
  lemma LabelsCoverServerTypes()
    ensures forall t | t in MainApp.ValidFieldTypes :: t in FieldTypeLabels
    ensures forall t, u | t in FieldTypeLabels && u in FieldTypeLabels && t != u :: FieldTypeLabel(t) != FieldTypeLabel(u)
  {
  }

  // ---------------------------------------------------------------------
  // Gold attribute values
  // ---------------------------------------------------------------------

  /** Every form input whose id starts with this prefix holds a gold attribute. */
  const GoldAttrPrefix := "goldAttr_"

  /** A gold-attribute input of the form: a checkbox or a text-like field. */
  datatype GoldField = Checkbox(id: string, checked: bool) | TextField(id: string, text: string)

  /** A collected value: the checkbox state, or the trimmed text. */
  datatype FieldValue = Checked(b: bool) | Entered(s: string)

  /** The attribute id: the input id with the prefix removed; inputs without it are not selected. */
  function AttrIdOf(f: GoldField): (attrId: Option<string>)
    ensures attrId.Some? ==> GoldAttrPrefix + attrId.value == f.id
  {
    var p := GoldAttrPrefix;
    if |f.id| >= |p| && f.id[..|p|] == p then Some(f.id[|p|..]) else None
  }

  /** A checkbox always gives its state; a text field gives its trimmed text unless that is empty. */
  function ValueOf(f: GoldField): (v: Option<FieldValue>)
    ensures f.Checkbox? ==> v == Some(Checked(f.checked))
    ensures f.TextField? ==> (v.Some? <==> JsTrim(f.text) != "")
    ensures v.Some? && v.value.Entered? ==> v.value.s == JsTrim(f.text) && v.value.s != ""
  {
    match f
    case Checkbox(_, checked) => Some(Checked(checked))
    case TextField(_, text) => if JsTrim(text) != "" then Some(Entered(JsTrim(text))) else None
  }

  /** The key an input is stored under, when it is stored at all. */
  function StoredKey(f: GoldField): Option<string> {
    if AttrIdOf(f).Some? && ValueOf(f).Some? then AttrIdOf(f) else None
  }

  function StoredValue(f: GoldField): FieldValue {
    match ValueOf(f)
    case Some(v) => v
    case None => Entered("")
  }

  /** The gold_attributes object sent with the template: a later input with the same id wins. */
  function GoldAttributes(fields: seq<GoldField>): map<string, FieldValue> {
    Assigned(fields, StoredKey, StoredValue)
  }

  /** The forEach over the selected inputs, writing into goldAttributes. */
  method CollectGoldAttributes(fields: seq<GoldField>) returns (values: map<string, FieldValue>)
    ensures values == GoldAttributes(fields)
  {
    values := map[];
    var i := 0;
    while i < |fields|
      invariant i <= |fields|
      invariant values == Assigned(fields[..i], StoredKey, StoredValue)
    {
      var f := fields[i];
      assert fields[..i + 1][..i] == fields[..i];
      var attrId := AttrIdOf(f);
      if attrId.Some? {
        var value := ValueOf(f);
        if value.Some? {
          values := values[attrId.value := value.value];
        }
      }
      i := i + 1;
    }
    assert fields[..i] == fields;
  }

  /** A checkbox's state, or a text field's non-empty trimmed text. */
  predicate CollectedFrom(f: GoldField, v: FieldValue) {
    match f
    case Checkbox(_, checked) => v == Checked(checked)
    case TextField(_, text) => v == Entered(JsTrim(text)) && JsTrim(text) != ""
  }

  /**
   * Every collected value comes from a selected input with that id: a
   * checkbox's state, true or false, or a text field's non-empty trimmed text.
   */
  lemma CollectedValues(fields: seq<GoldField>)
    ensures var m := GoldAttributes(fields);
      forall k | k in m :: exists i | 0 <= i < |fields| :: AttrIdOf(fields[i]) == Some(k) && CollectedFrom(fields[i], m[k])
  {
    AssignedFrom(fields, StoredKey, StoredValue);
  }

  /** A checkbox is sent as it stands, unchecked included, unless a later input has its id. */
  lemma CheckboxKept(fields: seq<GoldField>, i: nat, attrId: string)
    requires i < |fields| && fields[i].Checkbox? && AttrIdOf(fields[i]) == Some(attrId)
    requires forall j | i < j < |fields| :: StoredKey(fields[j]) != Some(attrId)
    ensures attrId in GoldAttributes(fields) && GoldAttributes(fields)[attrId] == Checked(fields[i].checked)
  {
    LastAssignedWins(fields, StoredKey, StoredValue, i, attrId);
  }

  /** A text field is sent trimmed exactly when something is left after trimming. */
  lemma TextKeptIffNonBlank(fields: seq<GoldField>, i: nat, attrId: string)
    requires i < |fields| && fields[i].TextField? && AttrIdOf(fields[i]) == Some(attrId)
    requires forall j | 0 <= j < |fields| && j != i :: AttrIdOf(fields[j]) != Some(attrId)
    ensures attrId in GoldAttributes(fields) <==> JsTrim(fields[i].text) != ""
    ensures attrId in GoldAttributes(fields) ==> GoldAttributes(fields)[attrId] == Entered(JsTrim(fields[i].text))
  {
    if JsTrim(fields[i].text) != "" {
      LastAssignedWins(fields, StoredKey, StoredValue, i, attrId);
    } else {
      AssignedFrom(fields, StoredKey, StoredValue);
    }
  }
}
