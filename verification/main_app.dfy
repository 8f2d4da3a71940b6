/**
 * The pure helpers of the back-office API (main_app.py): date formatting,
 * parsing of selection options, the attr_<id> query filters, field-type
 * validation, boolean filter values, the gold_ attribute naming scheme, the
 * list of filterable attributes and the conversion of a template's gold
 * values into product attribute lines.
 *
 * Odoo reads are replaced by their results, passed in as values.
 */
module MainApp {
  import opened Wrappers
  import opened Text
  import opened Dicts

  // ---------------------------------------------------------------------------
  // format_datetime

  datatype DateTime = DateTime(year: nat, month: nat, day: nat, hour: nat, minute: nat)

  /** The ranges a Python datetime guarantees for its fields. */
  predicate ValidDateTime(d: DateTime) {
    1 <= d.year <= 9999 && 1 <= d.month <= 12 && 1 <= d.day <= 31 && d.hour < 24 && d.minute < 60
  }

  /** The values an Odoo date field can carry into format_datetime. */
  datatype DateValue =
    | NoDate                      // None
    | DateText(text: string)      // already a string
    | Stamp(dt: DateTime)         // a datetime object
    | OtherValue(repr: string)    // anything else, by its str()

  /** Two-digit zero-padded rendering, as strftime's %d, %m, %H and %M. */
  function Pad2(n: nat): (s: string)
    requires n < 100
    ensures |s| == 2 && All(s, IsDigit) && DigitsValue(s) == n
  {
    var s := [(48 + n / 10) as char, (48 + n % 10) as char];
    assert s[..1] == [s[0]];
    assert DigitsValue(s[..1]) == n / 10;
    s
  }

  /** strftime('%d/%m/%Y %H:%M'); %Y is the year's decimal rendering. */
  function FormatStamp(d: DateTime): string
    requires ValidDateTime(d)
  {
    Pad2(d.day) + "/" + Pad2(d.month) + "/" + NatToString(d.year) + " " + Pad2(d.hour) + ":" + Pad2(d.minute)
  }

  /** format_datetime with its default format. */
  function FormatDatetime(v: DateValue): (r: Option<string>)
    requires v.Stamp? ==> ValidDateTime(v.dt)
    ensures r.None? <==> v.NoDate?
    ensures v.DateText? ==> r == Some(v.text)
    ensures v.Stamp? ==> r == Some(FormatStamp(v.dt))
  {
    match v
    case NoDate => None
    case DateText(t) => Some(t)
    case Stamp(d) => Some(FormatStamp(d))
    case OtherValue(repr) => Some(repr)
  }

  /** Reads back a "dd/mm/yyyy HH:MM" string with a four-digit year. */
  function ParseStamp(s: string): (r: Option<DateTime>)
    ensures r.Some? ==> |s| == 16
  {
    if |s| == 16 && s[2] == '/' && s[5] == '/' && s[10] == ' ' && s[13] == ':'
       && All(s[..2], IsDigit) && All(s[3..5], IsDigit) && All(s[6..10], IsDigit)
       && All(s[11..13], IsDigit) && All(s[14..], IsDigit)
    then
      Some(DateTime(DigitsValue(s[6..10]), DigitsValue(s[3..5]), DigitsValue(s[..2]),
                    DigitsValue(s[11..13]), DigitsValue(s[14..])))
    else None
  }

  lemma FourDigitYear(y: nat)
    requires 1000 <= y <= 9999
    ensures |NatToString(y)| == 4
  {
    assert NatToString(y) == NatToString(y / 10) + [(48 + y % 10) as char];
    assert NatToString(y / 10) == NatToString(y / 100) + [(48 + (y / 10) % 10) as char];
    assert NatToString(y / 100) == NatToString(y / 1000) + [(48 + (y / 100) % 10) as char];
  }

  /** The formatted timestamp reads back as the same date and time for years 1000 to 9999. */
  lemma FormatStampRoundTrip(d: DateTime)
    requires ValidDateTime(d) && d.year >= 1000
    ensures ParseStamp(FormatStamp(d)) == Some(d)
  {
    var year := NatToString(d.year);
    FourDigitYear(d.year);
    DigitsOfNat(d.year);
    var s := FormatStamp(d);
    assert s == Pad2(d.day) + "/" + Pad2(d.month) + "/" + year + " " + Pad2(d.hour) + ":" + Pad2(d.minute);
    assert s[..2] == Pad2(d.day);
    assert s[3..5] == Pad2(d.month);
    assert s[6..10] == year;
    assert s[11..13] == Pad2(d.hour);
    assert s[14..] == Pad2(d.minute);
  }

  // ---------------------------------------------------------------------------
  // Selection options

  /** A non-empty option with no whitespace at either end. */
  predicate IsCleanOption(o: string) {
    o != [] && !IsPySpace(o[0]) && !IsPySpace(o[|o| - 1])
  }

  /** The stripped lines that are not blank, in order. */
  function NonBlankLines(lines: seq<string>): (opts: seq<string>)
    ensures |opts| <= |lines|
    ensures forall i | 0 <= i < |opts| :: IsCleanOption(opts[i])
    decreases |lines|
  {
    if lines == [] then []
    else
      var o := PyStrip(lines[0]);
      var rest := NonBlankLines(lines[1..]);
      TrimShape(lines[0], IsPySpace);
      if o == [] then rest
      else
        assert IsCleanOption(o);
        [o] + rest
  }

  /** selection_options_list: the options of a selection attribute, one per non-blank line. */
  function SelectionOptionsList(fieldType: string, options: Option<string>): (opts: seq<string>)
    ensures opts != [] ==> fieldType == "selection" && options.Some?
  {
    if options.Some? && options.value != [] && fieldType == "selection" then
      NonBlankLines(SplitOnChar(options.value, '\n'))
    else []
  }

  lemma {:induction false} NonBlankLinesKeeps(opts: seq<string>)
    requires forall i | 0 <= i < |opts| :: IsCleanOption(opts[i])
    ensures NonBlankLines(opts) == opts
    decreases |opts|
  {
    if opts != [] {
      TrimKeeps(opts[0], IsPySpace);
      NonBlankLinesKeeps(opts[1..]);
    }
  }

  /**
   * Options stored one per line come back as the same list, provided each
   * is non-empty, holds no newline and has no surrounding whitespace.
   */
  lemma SelectionOptionsRoundTrip(opts: seq<string>)
    requires |opts| >= 1
    requires forall i | 0 <= i < |opts| :: IsCleanOption(opts[i]) && '\n' !in opts[i]
    ensures SelectionOptionsList("selection", Some(Join(opts, "\n"))) == opts
  {
    var text := Join(opts, "\n");
    if |opts| > 1 {
      assert text == opts[0] + "\n" + Join(opts[1..], "\n");
    }
    assert |text| >= |opts[0]| > 0;
    JoinSplit(opts, '\n');
    NonBlankLinesKeeps(opts);
  }

  /** Only selection attributes with stored options have an option list. */
  lemma OtherTypesHaveNoOptions(fieldType: string, options: Option<string>)
    requires fieldType != "selection" || options.None? || options.value == []
    ensures SelectionOptionsList(fieldType, options) == []
  {
  }

  // ---------------------------------------------------------------------------
  // attr_<id> query filters

  const AttrPrefix: string := "attr_"

  predicate StartsWith(s: string, prefix: string) {
    |prefix| <= |s| && s[..|prefix|] == prefix
  }

  /** Python's str.replace(pat, rep): every non-overlapping occurrence, left to right. */
  function ReplaceAll(s: string, pat: string, rep: string): string
    requires pat != []
    decreases |s|
  {
    if |s| < |pat| then s
    else if s[..|pat|] == pat then rep + ReplaceAll(s[|pat|..], pat, rep)
    else [s[0]] + ReplaceAll(s[1..], pat, rep)
  }

  /** A string of digits contains no "attr_", so replacing leaves it unchanged. */
  lemma {:induction false} ReplaceSkipsDigits(s: string)
    requires All(s, IsDigit)
    ensures ReplaceAll(s, AttrPrefix, "") == s
    decreases |s|
  {
    if |s| >= |AttrPrefix| {
      assert s[..|AttrPrefix|][0] == s[0] != 'a';
      ReplaceSkipsDigits(s[1..]);
      assert [s[0]] + s[1..] == s;
    }
  }

  /** Python's int(s) on text: surrounding whitespace, an optional sign, ASCII digits. */
  function PyInt(s: string): Option<int> {
    ParseInt(PyStrip(s))
  }

  /** The attribute id a query parameter (name, value) filters on, if it is one. */
  function ParamFilterId(param: (string, string)): Option<int> {
    var (name, value) := param;
    if StartsWith(name, AttrPrefix) && value != [] then PyInt(ReplaceAll(name, AttrPrefix, "")) else None
  }

  function ParamValue(param: (string, string)): string {
    param.1
  }

  /**
   * The attribute_filters dictionary built from the query parameters, given
   * as the sequence the request's items() yields. A later parameter naming
   * the same id overwrites an earlier one.
   */
  function AttributeFilters(params: seq<(string, string)>): map<int, string> {
    Assigned(params, ParamFilterId, ParamValue)
  }

  /** The filter loop over the query parameters. */
  method ExtractAttributeFilters(params: seq<(string, string)>) returns (filters: map<int, string>)
    ensures filters == AttributeFilters(params)
  {
    filters := map[];
    var i := 0;
    while i < |params|
      invariant 0 <= i <= |params|
      invariant filters == AttributeFilters(params[..i])
    {
      assert params[..i + 1][..i] == params[..i];
      var (name, value) := params[i];
      if StartsWith(name, AttrPrefix) && value != [] {
        var id := PyInt(ReplaceAll(name, AttrPrefix, ""));
        if id.Some? {
          filters := filters[id.value := value];
        }
      }
      i := i + 1;
    }
    assert params[..i] == params;
  }

  /** Every filter comes from a parameter attr_<id> with a non-empty value, and carries its value. */
  lemma FiltersComeFromParams(params: seq<(string, string)>)
    ensures forall id | id in AttributeFilters(params) :: exists i | 0 <= i < |params| ::
      StartsWith(params[i].0, AttrPrefix) && params[i].1 != []
      && PyInt(ReplaceAll(params[i].0, AttrPrefix, "")) == Some(id)
      && AttributeFilters(params)[id] == params[i].1
  {
    AssignedFrom(params, ParamFilterId, ParamValue);
  }

  /** A parameter attr_<n> with a value filters attribute n. */
  lemma AttrParamRoundTrip(n: nat, value: string)
    requires value != []
    ensures ParamFilterId((AttrPrefix + NatToString(n), value)) == Some(n)
  {
    var digits := NatToString(n);
    var name := AttrPrefix + digits;
    assert name[..|AttrPrefix|] == AttrPrefix;
    assert name[|AttrPrefix|..] == digits;
    ReplaceSkipsDigits(digits);
    assert ReplaceAll(name, AttrPrefix, "") == digits;
    TrimKeeps(digits, IsPySpace);
    ParseIntOfNat(n);
  }

  /** The last parameter that names an id decides that id's filter value. */
  lemma LastParamWins(params: seq<(string, string)>, i: nat, id: int)
    requires i < |params| && ParamFilterId(params[i]) == Some(id)
    requires forall j | i < j < |params| :: ParamFilterId(params[j]) != Some(id)
    ensures id in AttributeFilters(params) && AttributeFilters(params)[id] == params[i].1
  {
    LastAssignedWins(params, ParamFilterId, ParamValue, i, id);
  }

  // ---------------------------------------------------------------------------
  // Field types

  const ValidFieldTypes: seq<string> := ["char", "float", "integer", "boolean", "date", "selection"]

  datatype HttpError = HttpError(status: nat, detail: string)

  const InvalidFieldTypeDetail: string :=
    "Kiểu dữ liệu không hợp lệ. Các kiểu hợp lệ: " + Join(ValidFieldTypes, ", ")

  /** The check create_gold_attribute applies to the requested field type. */
  function CheckCreateFieldType(fieldType: string): (e: Option<HttpError>)
    ensures e.None? <==> fieldType in ValidFieldTypes
    ensures e.Some? ==> e.value == HttpError(400, InvalidFieldTypeDetail)
  {
    if fieldType in ValidFieldTypes then None else Some(HttpError(400, InvalidFieldTypeDetail))
  }

  /** The check update_gold_attribute applies: only a non-empty field type is checked. */
  function CheckUpdateFieldType(fieldType: Option<string>): (e: Option<HttpError>)
    ensures e.Some? <==> fieldType.Some? && fieldType.value != [] && fieldType.value !in ValidFieldTypes
  {
    if fieldType.Some? && fieldType.value != [] then CheckCreateFieldType(fieldType.value) else None
  }

  /** Create and update reject a given, non-empty field type with the same error. */
  lemma UpdateAgreesWithCreate(fieldType: string)
    requires fieldType != []
    ensures CheckUpdateFieldType(Some(fieldType)) == CheckCreateFieldType(fieldType)
  {
  }

  // ---------------------------------------------------------------------------
  // Boolean filter values

  const TrueWords: seq<string> := ["true", "1", "yes", "co"]

  /** The sale_ok value a boolean attribute filter asks for. */
  function BoolFilterValue(value: string): bool {
    Lower(value) in TrueWords
  }

  lemma LowerTwice(s: string)
    ensures Lower(Lower(s)) == Lower(s)
  {
  }

  /** The filter ignores ASCII case, and only the four words count as true. */
  lemma BoolFilterIgnoresCase(value: string)
    ensures BoolFilterValue(value) == BoolFilterValue(Lower(value))
    ensures BoolFilterValue(value) ==> |value| <= 4
  {
    LowerTwice(value);
  }

  lemma LowerIs(s: string, t: string)
    requires |s| == |t| && forall i | 0 <= i < |s| :: LowerChar(s[i]) == t[i]
    ensures Lower(s) == t
  {
  }

  /** "Có" with its accent is not one of the true words, so it filters for false. */
  lemma BoolFilterExamples()
    ensures BoolFilterValue("TRUE") && BoolFilterValue("Yes") && BoolFilterValue("1") && BoolFilterValue("Co")
    ensures !BoolFilterValue("Có") && !BoolFilterValue("false") && !BoolFilterValue("0") && !BoolFilterValue("")
  {
    LowerIs("TRUE", "true");
    LowerIs("Yes", "yes");
    LowerIs("1", "1");
    LowerIs("Co", "co");
    LowerIs("Có", "có");
    LowerIs("false", "false");
    LowerIs("0", "0");
    LowerIs("", "");
  }

  // ---------------------------------------------------------------------------
  // gold_ product attributes

  const GoldPrefix: string := "gold_"

  /** Name of the product.attribute that carries a gold attribute. */
  function ProductAttributeName(goldName: string): string {
    GoldPrefix + goldName
  }

  predicate IsGoldAttributeName(name: string) {
    StartsWith(name, GoldPrefix)
  }

  /** The gold attribute a product.attribute stands for: its name without the first five characters. */
  function GoldNameOf(name: string): (goldName: string)
    requires IsGoldAttributeName(name)
    ensures |goldName| == |name| - 5
  {
    name[5..]
  }

  lemma GoldNameRoundTrip(goldName: string)
    ensures IsGoldAttributeName(ProductAttributeName(goldName))
    ensures GoldNameOf(ProductAttributeName(goldName)) == goldName
  {
    assert ProductAttributeName(goldName)[..5] == GoldPrefix;
  }

  lemma ProductAttributeNameRoundTrip(name: string)
    requires IsGoldAttributeName(name)
    ensures ProductAttributeName(GoldNameOf(name)) == name
  {
    assert name == name[..5] + name[5..];
  }

  // ---------------------------------------------------------------------------
  // Filterable attributes

  datatype AttributeRecord = AttributeRecord(id: nat, name: string, fieldType: string, selectionOptions: Option<string>)

  /** One option of a filter: the value sent and its label (the dictionaries' `label` key; `label` is a Dafny keyword). */
  datatype FilterOption = FilterOption(value: string, labelText: string)

  datatype FilterableAttribute = FilterableAttribute(id: nat, name: string, fieldType: string, values: seq<FilterOption>)

  const FilterableTypes: seq<string> := ["selection", "char", "float", "integer", "boolean"]

  /** Each option offered with itself as both value and label. */
  function OptionValues(opts: seq<string>): (vs: seq<FilterOption>)
    ensures |vs| == |opts|
  {
    seq(|opts|, i requires 0 <= i < |opts| => FilterOption(opts[i], opts[i]))
  }

  /** The values a filterable attribute offers. */
  function FilterValues(a: AttributeRecord): seq<FilterOption> {
    if a.fieldType == "selection" then OptionValues(SelectionOptionsList(a.fieldType, a.selectionOptions))
    else if a.fieldType == "boolean" then [FilterOption("true", "Có"), FilterOption("false", "Không")]
    else []
  }

  /** The entry an attribute contributes to the filterable list, if any. */
  function FilterEntry(a: AttributeRecord): (e: Option<FilterableAttribute>)
    ensures e.Some? <==> a.fieldType in FilterableTypes
    ensures e.Some? ==> e.value.id == a.id && e.value.name == a.name && e.value.fieldType == a.fieldType
    ensures e.Some? && a.fieldType == "boolean" ==> |e.value.values| == 2
    ensures e.Some? && a.fieldType == "selection" ==>
      |e.value.values| == |SelectionOptionsList(a.fieldType, a.selectionOptions)|
      && forall i | 0 <= i < |e.value.values| ::
        e.value.values[i].value == e.value.values[i].labelText == SelectionOptionsList(a.fieldType, a.selectionOptions)[i]
    ensures e.Some? && a.fieldType in ["char", "float", "integer"] ==> e.value.values == []
  {
    if a.fieldType in FilterableTypes then Some(FilterableAttribute(a.id, a.name, a.fieldType, FilterValues(a)))
    else None
  }

  /** The attributes offered as product filters, in the order read. */
  function FilterableAttributes(attrs: seq<AttributeRecord>): (r: seq<FilterableAttribute>)
    ensures |r| <= |attrs|
    ensures forall i | 0 <= i < |r| :: r[i].fieldType in FilterableTypes
    decreases |attrs|
  {
    if attrs == [] then []
    else
      var rest := FilterableAttributes(attrs[1..]);
      match FilterEntry(attrs[0])
      case Some(e) => [e] + rest
      case None => rest
  }

  /** Every filterable attribute is listed, and every listed entry comes from an attribute. */
  lemma {:induction false} FilterableAttributesComplete(attrs: seq<AttributeRecord>)
    ensures forall j | 0 <= j < |attrs| && FilterEntry(attrs[j]).Some? ::
      FilterEntry(attrs[j]).value in FilterableAttributes(attrs)
    ensures forall e | e in FilterableAttributes(attrs) :: exists j | 0 <= j < |attrs| :: FilterEntry(attrs[j]) == Some(e)
    decreases |attrs|
  {
    if attrs != [] {
      FilterableAttributesComplete(attrs[1..]);
      forall j | 0 < j < |attrs| ensures attrs[1..][j - 1] == attrs[j] { }
      forall e | e in FilterableAttributes(attrs)
        ensures exists j | 0 <= j < |attrs| :: FilterEntry(attrs[j]) == Some(e)
      {
        if e !in FilterableAttributes(attrs[1..]) {
          assert FilterEntry(attrs[0]) == Some(e);
        } else {
          var k :| 0 <= k < |attrs[1..]| && FilterEntry(attrs[1..][k]) == Some(e);
          assert FilterEntry(attrs[k + 1]) == Some(e);
        }
      }
    }
  }

  /** A date attribute is never offered as a filter. */
  lemma DateAttributesExcluded(attrs: seq<AttributeRecord>)
    ensures forall e | e in FilterableAttributes(attrs) :: e.fieldType != "date"
  {
  }

  /** The loop of get_product_template_attributes. */
  method GetProductTemplateAttributes(attrs: seq<AttributeRecord>) returns (result: seq<FilterableAttribute>)
    ensures result == FilterableAttributes(attrs)
  {
    result := [];
    var i := 0;
    while i < |attrs|
      invariant 0 <= i <= |attrs|
      invariant result + FilterableAttributes(attrs[i..]) == FilterableAttributes(attrs)
    {
      assert attrs[i..][1..] == attrs[i + 1..];
      var entry := FilterEntryOf(attrs[i]);
      if entry.Some? {
        assert result + [entry.value] + FilterableAttributes(attrs[i + 1..])
          == result + ([entry.value] + FilterableAttributes(attrs[i + 1..]));
        result := result + [entry.value];
      }
      i := i + 1;
    }
    assert result + [] == result;
  }

  /** One attribute's entry, its values built as the loop body builds them. */
  method FilterEntryOf(a: AttributeRecord) returns (entry: Option<FilterableAttribute>)
    ensures entry == FilterEntry(a)
  {
    if a.fieldType !in FilterableTypes {
      return None;
    }
    var values := [];
    if a.fieldType == "selection" {
      values := OptionValues(SelectionOptionsList(a.fieldType, a.selectionOptions));
    } else if a.fieldType == "boolean" {
      values := [FilterOption("true", "Có"), FilterOption("false", "Không")];
    }
    entry := Some(FilterableAttribute(a.id, a.name, a.fieldType, values));
  }

  // ---------------------------------------------------------------------------
  // Gold values of a template

  /** A value the front end sends for a gold attribute. */
  datatype GoldValue = BoolValue(b: bool) | TextValue(s: string) | IntValue(i: int) | NullValue

  /** Python truthiness. */
  predicate IsTruthy(v: GoldValue) {
    match v
    case BoolValue(b) => b
    case TextValue(s) => s != []
    case IntValue(i) => i != 0
    case NullValue => false
  }

  function IntToString(i: int): string {
    if i < 0 then "-" + NatToString(-i) else NatToString(i)
  }

  /** Python's str() of the value. */
  function PyStr(v: GoldValue): string {
    match v
    case BoolValue(b) => if b then "True" else "False"
    case TextValue(s) => s
    case IntValue(i) => IntToString(i)
    case NullValue => "None"
  }

  /** The gold.attribute.line a value is for, as read from Odoo. */
  datatype GoldAttributeInfo = GoldAttributeInfo(name: string, fieldType: string)

  /**
   * One entry of the gold_attributes dictionary: its key, its value, and the
   * result of reading the attribute the key names (None when not found).
   */
  datatype GoldInput = GoldInput(key: string, value: GoldValue, info: Option<GoldAttributeInfo>)

  /** A product.template.attribute.line: the product attribute and its one value. */
  datatype AttributeLine = AttributeLine(attribute: string, value: string)

  /** The value name stored for a value of an attribute of the given type. */
  function StoredValue(v: GoldValue, fieldType: string): (s: string)
    ensures fieldType == "boolean" ==> s == (if IsTruthy(v) then "True" else "False")
  {
    if fieldType != "boolean" then PyStr(v) else if IsTruthy(v) then "True" else "False"
  }

  function LineFor(info: GoldAttributeInfo, v: GoldValue): AttributeLine {
    AttributeLine(ProductAttributeName(info.name), StoredValue(v, info.fieldType))
  }

  /** Whether int() accepts the dictionary key. */
  predicate KeyAccepted(key: string) {
    PyInt(key).Some?
  }

  /**
   * The lines the processing loop creates when it skips the values `skip`
   * selects: a key that int() rejects ends the processing (the exception is
   * caught around the whole loop) and an unknown attribute is skipped.
   */
  function LinesBy(items: seq<GoldInput>, skip: GoldValue -> bool, keyOk: string -> bool): seq<AttributeLine>
    decreases |items|
  {
    if items == [] then []
    else
      var it := items[0];
      if skip(it.value) then LinesBy(items[1..], skip, keyOk)
      else if !keyOk(it.key) then []
      else if it.info.None? then LinesBy(items[1..], skip, keyOk)
      else [LineFor(it.info.value, it.value)] + LinesBy(items[1..], skip, keyOk)
  }

  /** The values `if not value: continue` skips: every falsy value, False included. */
  predicate IsFalsy(v: GoldValue) {
    !IsTruthy(v)
  }

  /** The values worth skipping: the empty ones, but not the boolean False. */
  predicate Skipped(v: GoldValue) {
    !IsTruthy(v) && !v.BoolValue?
  }

  /** The lines _process_gold_attributes creates, as written. */
  function GoldLinesAsWritten(items: seq<GoldInput>): seq<AttributeLine> {
    LinesBy(items, IsFalsy, KeyAccepted)
  }

  /** The lines with an unchecked boolean kept as "False". */
  function GoldLines(items: seq<GoldInput>): seq<AttributeLine> {
    LinesBy(items, Skipped, KeyAccepted)
  }

  lemma DecimalKeyAccepted(key: string, n: nat)
    requires key == NatToString(n)
    ensures PyInt(key) == Some(n)
  {
    TrimKeeps(key, IsPySpace);
    ParseIntOfNat(n);
  }

  /**
   * As written, an unchecked box is dropped: the template's previous lines
   * were already removed, so the attribute loses its value instead of
   * becoming "False".
   */
  lemma UncheckedBoxDropped(key: string, info: GoldAttributeInfo)
    requires KeyAccepted(key)
    ensures GoldLinesAsWritten([GoldInput(key, BoolValue(false), Some(info))]) == []
    ensures GoldLines([GoldInput(key, BoolValue(false), Some(info))]) == [AttributeLine(ProductAttributeName(info.name), "False")]
  {
    var items := [GoldInput(key, BoolValue(false), Some(info))];
    assert items[1..] == [];
    assert IsFalsy(BoolValue(false)) && !Skipped(BoolValue(false));
    assert LineFor(info, BoolValue(false)) == AttributeLine(ProductAttributeName(info.name), "False");
    assert GoldLines(items) == [LineFor(info, BoolValue(false))] + LinesBy([], Skipped, KeyAccepted);
    assert GoldLinesAsWritten(items) == LinesBy([], IsFalsy, KeyAccepted);
  }

  /** The key "7" of the example is one int() accepts. */
  lemma SevenIsAccepted()
    ensures KeyAccepted("7")
  {
    DecimalKeyAccepted("7", 7);
  }

  lemma {:induction false} SkippedContributesNothing(items: seq<GoldInput>, skip: GoldValue -> bool, keyOk: string -> bool, i: nat)
    requires i < |items| && skip(items[i].value)
    ensures LinesBy(items, skip, keyOk) == LinesBy(items[..i] + items[i + 1..], skip, keyOk)
    decreases i
  {
    var rest := items[..i] + items[i + 1..];
    if i == 0 {
      assert rest == items[1..];
    } else {
      assert rest[0] == items[0];
      assert rest[1..] == items[1..][..i - 1] + items[1..][i..];
      SkippedContributesNothing(items[1..], skip, keyOk, i - 1);
    }
  }

  /** As written, a value False contributes nothing: removing it leaves the same lines. */
  lemma FalseContributesNothing(items: seq<GoldInput>, i: nat)
    requires i < |items| && items[i].value == BoolValue(false)
    ensures GoldLinesAsWritten(items) == GoldLinesAsWritten(items[..i] + items[i + 1..])
  {
    SkippedContributesNothing(items, IsFalsy, KeyAccepted, i);
  }

  lemma {:induction false} KeptIsStored(items: seq<GoldInput>, skip: GoldValue -> bool, keyOk: string -> bool, i: nat)
    requires i < |items| && !skip(items[i].value) && items[i].info.Some?
    requires forall j | 0 <= j <= i :: keyOk(items[j].key)
    ensures LineFor(items[i].info.value, items[i].value) in LinesBy(items, skip, keyOk)
    decreases i
  {
    if i > 0 {
      var tail := items[1..];
      assert keyOk(items[0].key);
      assert tail[i - 1] == items[i];
      forall j | 0 <= j <= i - 1
        ensures keyOk(tail[j].key)
      {
        assert tail[j] == items[j + 1];
      }
      KeptIsStored(tail, skip, keyOk, i - 1);
    }
  }

  /**
   * With the correction, every boolean sent for a found boolean attribute is
   * stored as "True" or "False", provided int() accepts its key and every
   * earlier one.
   */
  lemma BooleansStored(items: seq<GoldInput>, i: nat)
    requires i < |items| && items[i].value.BoolValue?
    requires items[i].info.Some? && items[i].info.value.fieldType == "boolean"
    requires forall j | 0 <= j <= i :: KeyAccepted(items[j].key)
    ensures LineFor(items[i].info.value, items[i].value) in GoldLines(items)
    ensures LineFor(items[i].info.value, items[i].value).value == PyStr(items[i].value)
  {
    KeptIsStored(items, Skipped, KeyAccepted, i);
  }

  /** The processing loop of _process_gold_attributes, with booleans kept. */
  method ProcessGoldAttributes(items: seq<GoldInput>) returns (lines: seq<AttributeLine>)
    ensures lines == GoldLines(items)
  {
    lines := [];
    var i := 0;
    while i < |items|
      invariant 0 <= i <= |items|
      invariant lines + GoldLines(items[i..]) == GoldLines(items)
    {
      var it := items[i];
      assert items[i..][1..] == items[i + 1..];
      if !Skipped(it.value) {
        var id := PyInt(it.key);
        if id.None? {
          assert lines + [] == lines;
          return;
        }
        if it.info.Some? {
          var info := it.info.value;
          var line := AttributeLine(GoldPrefix + info.name, StoredValue(it.value, info.fieldType));
          assert lines + [line] + GoldLines(items[i + 1..]) == lines + ([line] + GoldLines(items[i + 1..]));
          lines := lines + [line];
        }
      }
      i := i + 1;
    }
    assert lines + [] == lines;
  }
}
