/**
 * The gold-management application's own logic: the AND filter over gold
 * attributes, the short gold-attribute summary of a product row, and the
 * cleaning of an update payload with the message that reports the update.
 *
 * Every Odoo lookup is a given outcome: what the chain of searches for one
 * filter ends in, whether a bulk write succeeded.
 */
module AppPy {
  import opened Wrappers
  import opened Text
  import opened Dicts

  // ---------------------------------------------------------------------------
  // _filter_products_by_gold_attributes

  /**
   * Where the Odoo lookups for one filter end: the attribute, product
   * attribute or value was not found; the value exists but no attribute line
   * carries it; the templates whose lines carry it; or a call raised.
   */
  datatype Lookup = NotFound | NoLines | Matches(ids: set<nat>) | Raises

  /** One entry of the filter dictionary, with the outcome its lookups would have. */
  datatype GoldFilter = GoldFilter(attributeId: nat, expected: string, lookup: Lookup)

  /** An empty or whitespace-only expected value: every character is a space. */
  predicate IsBlank(v: string)
    decreases |v|
  {
    v == [] || (IsPySpace(v[0]) && IsBlank(v[1..]))
  }

  /** The route's test `not v or v.strip() == ""`: stripping leaves nothing exactly when the value is blank. */
  lemma {:induction false} BlankIffStripsEmpty(v: string)
    ensures IsBlank(v) <==> PyStrip(v) == ""
    decreases |v|
  {
    var t := TrimStart(v, IsPySpace);
    if v != [] {
      BlankIffStripsEmpty(v[1..]);
      if IsPySpace(v[0]) {
        assert TrimStart(v, IsPySpace) == TrimStart(v[1..], IsPySpace);
      } else {
        assert t == v;
        assert TrimEnd(t, IsPySpace) != [];
      }
    }
  }

  /** A filter whose lookups end the whole search with an empty result. */
  predicate Stops(f: GoldFilter) {
    !IsBlank(f.expected) && (f.lookup.NoLines? || f.lookup.Raises?)
  }

  /** Some element of s satisfies p (written over prefixes, as the loops walk). */
  predicate Any<T>(s: seq<T>, p: T -> bool)
    decreases |s|
  {
    s != [] && (Any(s[..|s| - 1], p) || p(s[|s| - 1]))
  }

  /** Any holds exactly when some element satisfies p. */
  lemma {:induction false} AnySome<T>(s: seq<T>, p: T -> bool)
    ensures Any(s, p) <==> exists i | 0 <= i < |s| :: p(s[i])
    decreases |s|
  {
    if s != [] {
      var init := s[..|s| - 1];
      AnySome(init, p);
      if exists i | 0 <= i < |init| :: p(init[i]) {
        var i :| 0 <= i < |init| && p(init[i]);
        assert p(s[i]);
      }
      if exists i | 0 <= i < |s| :: p(s[i]) {
        var i :| 0 <= i < |s| && p(s[i]);
        if i < |init| {
          assert p(init[i]);
        }
      }
    }
  }

  /** Some filter ends the search. */
  predicate Aborts(filters: seq<GoldFilter>) {
    Any(filters, Stops)
  }

  /** The matched template sets of the filters that take part, in order. */
  function Contributing(filters: seq<GoldFilter>): (sets: seq<set<nat>>)
    ensures |sets| <= |filters|
    decreases |filters|
  {
    if filters == [] then []
    else
      var f := filters[|filters| - 1];
      Contributing(filters[..|filters| - 1]) + (if !IsBlank(f.expected) && f.lookup.Matches? then [f.lookup.ids] else [])
  }

  /** The intersection of every set of the sequence; empty when there is none. */
  function IntersectAll(sets: seq<set<nat>>): set<nat>
    decreases |sets|
  {
    if sets == [] then {}
    else if |sets| == 1 then sets[0]
    else IntersectAll(sets[..|sets| - 1]) * sets[|sets| - 1]
  }

  /** An id is in the intersection exactly when there is a set and every set holds it. */
  lemma {:induction false} IntersectAllMembers(sets: seq<set<nat>>, x: nat)
    ensures x in IntersectAll(sets) <==> |sets| > 0 && forall i | 0 <= i < |sets| :: x in sets[i]
    decreases |sets|
  {
    if |sets| > 1 {
      var init := sets[..|sets| - 1];
      IntersectAllMembers(init, x);
      assert forall i | 0 <= i < |init| :: init[i] == sets[i];
    }
  }

  /** What the filter answers: nothing when a filter stops it, else the intersection of the matched sets. */
  function FilteredIds(filters: seq<GoldFilter>): set<nat> {
    if Aborts(filters) then {} else IntersectAll(Contributing(filters))
  }

  /** AND semantics: a template is in the answer exactly when no filter stops the search, some filter matched, and every matching filter lists it. */
  lemma FilteredIdsMembers(filters: seq<GoldFilter>, x: nat)
    ensures x in FilteredIds(filters) <==>
      !Aborts(filters) && |Contributing(filters)| > 0 && forall i | 0 <= i < |Contributing(filters)| :: x in Contributing(filters)[i]
  {
    IntersectAllMembers(Contributing(filters), x);
  }

  /** A blank filter, or one whose lookups find nothing, is skipped: adding it changes nothing. */
  lemma SkippedFilterChangesNothing(filters: seq<GoldFilter>, f: GoldFilter)
    requires IsBlank(f.expected) || f.lookup.NotFound?
    ensures FilteredIds(filters + [f]) == FilteredIds(filters)
  {
    var all := filters + [f];
    assert all[..|filters|] == filters;
    assert Contributing(all) == Contributing(filters);
    assert !Stops(f);
    assert Aborts(all) == Aborts(filters);
  }

  /** A non-blank filter whose value no attribute line carries empties the answer, whatever the other filters say. */
  lemma NoLinesEmptiesResult(filters: seq<GoldFilter>, i: nat)
    requires i < |filters| && !IsBlank(filters[i].expected) && filters[i].lookup.NoLines?
    ensures FilteredIds(filters) == {}
  {
    assert Stops(filters[i]);
    AnySome(filters, Stops);
  }

  /** The filters that take part among the first i + 1: those among the first i, and filter i when it matched. */
  lemma ContributingStep(filters: seq<GoldFilter>, i: nat)
    requires i < |filters|
    ensures IsBlank(filters[i].expected) || !filters[i].lookup.Matches? ==>
      Contributing(filters[..i + 1]) == Contributing(filters[..i])
    ensures !IsBlank(filters[i].expected) && filters[i].lookup.Matches? ==>
      Contributing(filters[..i + 1]) == Contributing(filters[..i]) + [filters[i].lookup.ids]
  {
    assert filters[..i + 1][..i] == filters[..i];
    assert Contributing(filters[..i]) + [] == Contributing(filters[..i]);
  }

  /** The first i + 1 filters stop the search when the first i do or filter i does. */
  lemma AbortsStep(filters: seq<GoldFilter>, i: nat)
    requires i < |filters|
    ensures Aborts(filters[..i + 1]) <==> Aborts(filters[..i]) || Stops(filters[i])
  {
    assert filters[..i + 1][..i] == filters[..i];
  }

  /** Intersecting one more set. */
  lemma IntersectSnoc(sets: seq<set<nat>>, s: set<nat>)
    ensures IntersectAll(sets + [s]) == if sets == [] then s else IntersectAll(sets) * s
  {
    assert (sets + [s])[..|sets|] == sets;
  }

  /** Prefixes of a prefix. */
  lemma PrefixOfPrefix<T>(s: seq<T>, i: nat)
    requires i < |s|
    ensures s[..i + 1][..i] == s[..i] && s[..i + 1][i] == s[i]
  {
  }

  /**
   * _filter_products_by_gold_attributes: walks the filters in order, skipping
   * blank values and failed lookups; the first matching filter seeds the set,
   * each later one intersects it; a value without lines or an exception gives
   * the empty answer at once.
   */
  method FilterProductsByGoldAttributes(filters: seq<GoldFilter>) returns (ids: set<nat>)
    ensures ids == FilteredIds(filters)
  {
    var matching: set<nat> := {};
    var first := true;
    var i := 0;
    while i < |filters|
      invariant 0 <= i <= |filters|
      invariant !Aborts(filters[..i])
      invariant first <==> Contributing(filters[..i]) == []
      invariant matching == IntersectAll(Contributing(filters[..i]))
    {
      var f := filters[i];
      ContributingStep(filters, i);
      AbortsStep(filters, i);
      ghost var before := Contributing(filters[..i]);
      if IsBlank(f.expected) || f.lookup.NotFound? {
      } else if f.lookup.NoLines? || f.lookup.Raises? {
        assert Stops(filters[i]);
        AnySome(filters, Stops);
        return {};
      } else {
        var current := f.lookup.ids;
        IntersectSnoc(before, current);
        if first {
          matching := current;
          first := false;
        } else {
          matching := matching * current;
        }
      }
      i := i + 1;
    }
    assert filters[..i] == filters;
    ids := matching;
  }

  // ---------------------------------------------------------------------------
  // Gold-attribute summary of a product row

  /** A field of an attribute dictionary: missing, None, or a string. */
  datatype FieldValue = Missing | Null | Str(s: string)

  /** One gold attribute of a product as the service returns it. */
  datatype GoldAttributeRow = GoldAttributeRow(shortName: FieldValue, name: FieldValue, value: FieldValue)

  /** Python truthiness of a field. */
  predicate Truthy(v: FieldValue) {
    v.Str? && v.s != ""
  }

  /** attr.get('attribute_short_name', attr.get('attribute_name', '')): the full name only when the short one is missing. */
  function ShortName(a: GoldAttributeRow): (v: FieldValue)
    ensures !a.shortName.Missing? ==> v == a.shortName
    ensures a.shortName.Missing? && !a.name.Missing? ==> v == a.name
  {
    if !a.shortName.Missing? then a.shortName
    else if a.name.Missing? then Str("")
    else a.name
  }

  /** The summary part of one attribute: "short: value" when both are non-empty. */
  function Part(a: GoldAttributeRow): (p: Option<string>)
    ensures p.Some? <==> Truthy(ShortName(a)) && Truthy(a.value)
  {
    if Truthy(ShortName(a)) && Truthy(a.value) then Some(ShortName(a).s + ": " + a.value.s) else None
  }

  /** The parts of the given attributes, in order. */
  function SummaryParts(attrs: seq<GoldAttributeRow>): (parts: seq<string>)
    ensures |parts| <= |attrs|
    ensures forall k | 0 <= k < |parts| :: exists i | 0 <= i < |attrs| :: Part(attrs[i]) == Some(parts[k])
    ensures parts == [] <==> forall i | 0 <= i < |attrs| :: Part(attrs[i]).None?
    decreases |attrs|
  {
    if attrs == [] then []
    else
      var init := attrs[..|attrs| - 1];
      var p := Part(attrs[|attrs| - 1]);
      assert forall i | 0 <= i < |init| :: init[i] == attrs[i];
      SummaryParts(init) + (if p.Some? then [p.value] else [])
  }

  /** The first three attributes, or all of them when there are fewer. */
  function FirstThree(attrs: seq<GoldAttributeRow>): (first: seq<GoldAttributeRow>)
    ensures |first| == if |attrs| < 3 then |attrs| else 3
    ensures first == attrs[..|first|]
  {
    if |attrs| < 3 then attrs else attrs[..3]
  }

  /** " (+N more)" for the attributes beyond the third. */
  function MoreSuffix(n: nat): string {
    if n > 3 then " (+" + NatToString(n - 3) + " more)" else ""
  }

  /** gold_attributes_summary: the parts of the first three attributes joined by "; ", then the count of the rest. */
  function Summary(attrs: seq<GoldAttributeRow>): string {
    if attrs == [] then "" else Join(SummaryParts(FirstThree(attrs)), "; ") + MoreSuffix(|attrs|)
  }

  /**
   * The summary shows at most three parts, taken from the first three
   * attributes, and the suffix reports exactly how many attributes it
   * leaves out.
   */
  lemma SummaryShape(attrs: seq<GoldAttributeRow>)
    requires attrs != []
    ensures |SummaryParts(FirstThree(attrs))| <= 3
    ensures |attrs| <= 3 ==> Summary(attrs) == Join(SummaryParts(attrs), "; ")
    ensures |attrs| > 3 ==> Summary(attrs) == Join(SummaryParts(attrs[..3]), "; ") + " (+" + NatToString(|attrs| - 3) + " more)"
  {
    var first := FirstThree(attrs);
    assert |SummaryParts(first)| <= |first| <= 3;
    if |attrs| <= 3 {
      assert first == attrs;
    }
  }

  /** Three complete attributes give their three parts in order. */
  lemma CompleteRowsAllShow(a: GoldAttributeRow, b: GoldAttributeRow, c: GoldAttributeRow)
    requires Part(a).Some? && Part(b).Some? && Part(c).Some?
    ensures SummaryParts([a, b, c]) == [Part(a).value, Part(b).value, Part(c).value]
  {
    assert [a][..0] == [];
    assert SummaryParts([a]) == [Part(a).value];
    assert [a, b][..1] == [a];
    assert SummaryParts([a, b]) == [Part(a).value, Part(b).value];
    assert [a, b, c][..2] == [a, b];
  }

  /** The summary of one attribute whose short name is set but empty: the full name is not used, so there is nothing to show. */
  lemma EmptyShortNameHidesRow(name: string, value: string)
    requires name != "" && value != ""
    ensures Summary([GoldAttributeRow(Str(""), Str(name), Str(value))]) == ""
    ensures Summary([GoldAttributeRow(Missing, Str(name), Str(value))]) == name + ": " + value
  {
    var hidden := [GoldAttributeRow(Str(""), Str(name), Str(value))];
    assert hidden[..0] == [];
    var shown := [GoldAttributeRow(Missing, Str(name), Str(value))];
    assert shown[..0] == [];
  }

  /** The summary: the parts of the first three attributes, joined, then the suffix. */
  method BuildSummary(attrs: seq<GoldAttributeRow>) returns (summary: string)
    ensures summary == Summary(attrs)
  {
    if attrs == [] {
      return "";
    }
    var parts := SummaryLoop(FirstThree(attrs));
    summary := Join(parts, "; ");
    if |attrs| > 3 {
      summary := summary + " (+" + NatToString(|attrs| - 3) + " more)";
    }
  }

  /** The loop over the attributes shown, keeping the parts that exist. */
  method SummaryLoop(first: seq<GoldAttributeRow>) returns (parts: seq<string>)
    ensures parts == SummaryParts(first)
  {
    parts := [];
    var i := 0;
    while i < |first|
      invariant 0 <= i <= |first|
      invariant parts == SummaryParts(first[..i])
    {
      var part := Part(first[i]);
      PrefixOfPrefix(first, i);
      if part.Some? {
        parts := parts + [part.value];
      }
      i := i + 1;
    }
    assert first[..i] == first;
  }

  // ---------------------------------------------------------------------------
  // update_product_template: payload cleaning and the response message

  /** A value of the update payload, by its Python type. */
  datatype RawValue = RNone | RList | RDict | RSet | RTuple | RDecimal(d: real) | RBool(b: bool) | RStr(s: string) | RInt(i: int) | RFloat(f: real)

  /** The cleaned form of one value: None and containers are dropped, Decimal becomes float, strings are stripped. */
  function CleanValue(v: RawValue): (c: Option<RawValue>)
    ensures c.None? <==> v.RNone? || v.RList? || v.RDict? || v.RSet? || v.RTuple?
    ensures c.Some? ==> !c.value.RDecimal?
    ensures v.RStr? ==> c == Some(RStr(PyStrip(v.s)))
    ensures v.RDecimal? ==> c == Some(RFloat(v.d))
    ensures v.RBool? || v.RInt? || v.RFloat? ==> c == Some(v)
  {
    match v
    case RNone => None
    case RList => None
    case RDict => None
    case RSet => None
    case RTuple => None
    case RDecimal(d) => Some(RFloat(d))
    case RBool(_) => Some(v)
    case RStr(s) => Some(RStr(PyStrip(s)))
    case RInt(_) => Some(v)
    case RFloat(_) => Some(v)
  }

  /** The key popped from the payload before cleaning. */
  const GoldAttributesKey: string := "gold_attributes"

  /** Keys of a dictionary's items are distinct. */
  predicate DistinctKeys(raw: seq<(string, RawValue)>) {
    forall i, j | 0 <= i < j < |raw| :: raw[i].0 != raw[j].0
  }

  /** The key an item is kept under: none for gold_attributes or a value cleaned away. */
  function CleanKey(item: (string, RawValue)): (key: Option<string>)
    ensures key.Some? ==> key.value == item.0
  {
    if item.0 == GoldAttributesKey || CleanValue(item.1).None? then None else Some(item.0)
  }

  function CleanedValue(item: (string, RawValue)): RawValue {
    match CleanValue(item.1)
    case Some(c) => c
    case None => item.1
  }

  /** product_data: the cleaned values of every key except gold_attributes. */
  function CleanedData(raw: seq<(string, RawValue)>): (data: map<string, RawValue>)
    ensures forall k | k in data :: k != GoldAttributesKey && exists i | 0 <= i < |raw| :: raw[i].0 == k && CleanValue(raw[i].1) == Some(data[k])
  {
    AssignedFrom(raw, CleanKey, CleanedValue);
    Assigned(raw, CleanKey, CleanedValue)
  }

  /** Every kept value is the cleaned form of the payload's value for that key, and every cleanable key is kept. */
  lemma CleanedDataKeeps(raw: seq<(string, RawValue)>, i: nat)
    requires DistinctKeys(raw) && i < |raw|
    ensures raw[i].0 in CleanedData(raw) <==> raw[i].0 != GoldAttributesKey && CleanValue(raw[i].1).Some?
    ensures raw[i].0 in CleanedData(raw) ==> CleanedData(raw)[raw[i].0] == CleanValue(raw[i].1).value
  {
    var k := raw[i].0;
    if CleanKey(raw[i]).Some? {
      LastAssignedWins(raw, CleanKey, CleanedValue, i, k);
    }
  }

  /** The cleaning loop of update_product_template, after gold_attributes has been popped. */
  method CleanUpdate(raw: seq<(string, RawValue)>) returns (data: map<string, RawValue>, gold: Option<RawValue>)
    ensures data == CleanedData(raw)
    ensures gold.Some? <==> exists i | 0 <= i < |raw| :: raw[i].0 == GoldAttributesKey
    ensures gold.Some? ==> exists i | 0 <= i < |raw| :: raw[i] == (GoldAttributesKey, gold.value)
  {
    data := map[];
    gold := None;
    var i := 0;
    while i < |raw|
      invariant 0 <= i <= |raw|
      invariant data == CleanedData(raw[..i])
      invariant gold.Some? <==> exists j | 0 <= j < i :: raw[j].0 == GoldAttributesKey
      invariant gold.Some? ==> exists j | 0 <= j < i :: raw[j] == (GoldAttributesKey, gold.value)
    {
      var (k, v) := raw[i];
      PrefixOfPrefix(raw, i);
      if k == GoldAttributesKey {
        gold := Some(v);
      } else {
        var c := CleanValue(v);
        if c.Some? {
          data := data[k := c.value];
        }
      }
      i := i + 1;
    }
    assert raw[..i] == raw;
  }

  /** The gold_attributes field of the payload: absent or None, a dictionary of the given size, or some other value. */
  datatype GoldPayload = NoGold | GoldDict(size: nat) | GoldOther(truthy: bool)

  predicate GoldTruthy(g: GoldPayload) {
    match g
    case NoGold => false
    case GoldDict(n) => n > 0
    case GoldOther(t) => t
  }

  const ProductUpdatedMessage: string := "Cập nhật thông tin sản phẩm thành công"
  const GoldFailedMessage: string := "Có lỗi khi cập nhật gold attributes"
  const DefaultUpdateMessage: string := "Cập nhật thành công"

  /** The message for n gold attributes written. */
  function GoldUpdatedMessage(n: nat): string {
    "Cập nhật " + NatToString(n) + " gold attributes thành công"
  }

  /**
   * The parts of the response message: one for the product fields when the
   * cleaned dictionary is non-empty, one for the gold attributes when there
   * were any (success when the bulk write, made only for a non-empty
   * dictionary, succeeded).
   */
  function UpdateMessages(productData: map<string, RawValue>, gold: GoldPayload, bulkOk: bool): (msgs: seq<string>)
    ensures |msgs| == (if productData != map[] then 1 else 0) + (if GoldTruthy(gold) then 1 else 0)
    ensures productData != map[] ==> msgs[0] == ProductUpdatedMessage
    ensures GoldTruthy(gold) ==>
      msgs[|msgs| - 1] == (if gold.GoldDict? && bulkOk then GoldUpdatedMessage(gold.size) else GoldFailedMessage)
  {
    var written := gold.GoldDict? && gold.size > 0 && bulkOk;
    (if productData != map[] then [ProductUpdatedMessage] else [])
      + (if written then [GoldUpdatedMessage(gold.size)] else if GoldTruthy(gold) then [GoldFailedMessage] else [])
  }

  /** final_message: the parts joined by "; ", or the plain success message when there are none. */
  function UpdateMessage(productData: map<string, RawValue>, gold: GoldPayload, bulkOk: bool): (m: string)
    ensures m == DefaultUpdateMessage <==> productData == map[] && !GoldTruthy(gold)
    ensures productData != map[] && !GoldTruthy(gold) ==> m == ProductUpdatedMessage
  {
    var msgs := UpdateMessages(productData, gold, bulkOk);
    if msgs == [] then DefaultUpdateMessage
    else
      assert msgs[0] != DefaultUpdateMessage by {
        assert msgs[0][..9] == "Cập nhật " || msgs[0] == GoldFailedMessage;
      }
      Join(msgs, "; ")
  }

  /** With both parts the message is the product part, "; ", then the gold part. */
  lemma BothPartsJoined(productData: map<string, RawValue>, gold: GoldPayload, bulkOk: bool)
    requires productData != map[] && GoldTruthy(gold)
    ensures UpdateMessage(productData, gold, bulkOk) == ProductUpdatedMessage + "; " + UpdateMessages(map[], gold, bulkOk)[0]
  {
    var msgs := UpdateMessages(productData, gold, bulkOk);
    var second := UpdateMessages(map[], gold, bulkOk)[0];
    assert msgs == [ProductUpdatedMessage, second];
    assert msgs[1..] == [second];
    assert Join(msgs[1..], "; ") == second;
  }
}
