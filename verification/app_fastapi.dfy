/**
 * The FastAPI application's own logic: the attribute-code generator, the
 * automatic product code of create_product, the validation of a rate entered
 * in the UI, and the module-level pricing callback and pricing route (the
 * same rules as the standalone gateway, over the application's own globals).
 *
 * Odoo lookups and the Kafka producer are parameters: the names the value
 * lookups found (None when a lookup returned nothing) and whether publishing
 * succeeded.
 */
module AppFastapi {
  import opened Wrappers
  import opened Text
  import opened PricingModels
  import opened PricingService
  import opened PricingConsumer
  import opened PricingGateway

  // ---------------------------------------------------------------------------
  // generate_attribute_code

  /** s with every occurrence of the character a replaced by b (str.replace for one-character strings). */
  function ReplaceChar(s: string, a: char, b: char): (r: string)
    ensures |r| == |s|
    ensures forall k | 0 <= k < |s| :: r[k] == if s[k] == a then b else s[k]
  {
    seq(|s|, k requires 0 <= k < |s| => if s[k] == a then b else s[k])
  }

  /** Every Vietnamese capital of the table replaced by its base letter. */
  function StripCapitals(s: string): (r: string)
    ensures |r| == |s|
    ensures forall k | 0 <= k < |s| :: r[k] == BaseOfCapital(s[k])
  {
    seq(|s|, k requires 0 <= k < |s| => BaseOfCapital(s[k]))
  }

  /** The first ten characters of s (s[:10]). */
  function Take10(s: string): (r: string)
    ensures |r| == if |s| <= 10 then |s| else 10
    ensures r == s[..|r|]
  {
    if |s| <= 10 then s else s[..10]
  }

  /** What generate_attribute_code computes: strip, upper-case, drop the marks, keep A-Z0-9, cut to ten. */
  function AttributeCode(name: string): string {
    Take10(Filter(StripCapitals(Upper(PyStrip(name))), IsUpperOrDigit))
  }

  /** A character after the first i replacements of the table: its base letter once its own entry has been applied. */
  function ReplacedUpTo(c: char, i: nat): char {
    if CapitalIndex(c) < i then BaseOfCapital(c) else c
  }

  /** Replacement i turns exactly the capital of entry i into its base letter and leaves the rest alone. */
  lemma ReplaceStep(c: char, i: nat)
    requires i < CapitalCount
    ensures var e := CapitalEntry(i);
      (if ReplacedUpTo(c, i) == e.0 then e.1 else ReplacedUpTo(c, i)) == ReplacedUpTo(c, i + 1)
  {
    var e := CapitalEntry(i);
    CapitalIndexOfEntry();
    CapitalEntryShape();
    if CapitalIndex(c) < i {
      assert ReplacedUpTo(c, i) == CapitalEntry(CapitalIndex(c)).1;
    } else if CapitalIndex(c) == i {
      EntryOfCapitalIndex(c);
    } else {
      assert c != e.0;
    }
  }

  /** After the whole table, every character is its base letter. */
  lemma ReplacedAll(c: char)
    ensures ReplacedUpTo(c, CapitalCount) == BaseOfCapital(c)
  {
  }

  /** The replacement loop of generate_attribute_code: the 67 table entries applied in order with str.replace. */
  method ReplaceCapitals(upper: string) returns (s: string)
    ensures s == StripCapitals(upper)
  {
    s := upper;
    var i := 0;
    while i < CapitalCount
      invariant 0 <= i <= CapitalCount
      invariant |s| == |upper|
      invariant forall k | 0 <= k < |upper| :: s[k] == ReplacedUpTo(upper[k], i)
    {
      var entry := CapitalEntry(i);
      var next := ReplaceChar(s, entry.0, entry.1);
      forall k | 0 <= k < |upper|
        ensures next[k] == ReplacedUpTo(upper[k], i + 1)
      {
        ReplaceStep(upper[k], i);
      }
      s := next;
      i := i + 1;
    }
    forall k | 0 <= k < |upper|
      ensures s[k] == BaseOfCapital(upper[k])
    {
      ReplacedAll(upper[k]);
    }
  }

  /**
   * generate_attribute_code: strip and upper-case the name, replace the
   * Vietnamese capitals, keep A-Z and 0-9, and cut to ten characters.
   */
  method GenerateAttributeCode(name: string) returns (code: string)
    ensures code == AttributeCode(name)
    ensures |code| <= 10 && All(code, IsUpperOrDigit)
  {
    var s := ReplaceCapitals(Upper(PyStrip(name)));
    code := Take10(Filter(s, IsUpperOrDigit));
  }

  /** A-Z and 0-9 are not in the table, so stripping capitals leaves them alone. */
  lemma StripCapitalsKeeps(s: string)
    requires All(s, IsUpperOrDigit)
    ensures StripCapitals(s) == s
  {
    forall k | 0 <= k < |s|
      ensures BaseOfCapital(s[k]) == s[k]
    {
      if CapitalIndex(s[k]) < CapitalCount {
        EntryOfCapitalIndex(s[k]);
        CapitalEntryShape();
      }
    }
  }

  /** A generated code has at most ten characters, each A-Z or 0-9. */
  lemma AttributeCodeShape(name: string)
    ensures |AttributeCode(name)| <= 10 && All(AttributeCode(name), IsUpperOrDigit)
  {
    var f := Filter(StripCapitals(Upper(PyStrip(name))), IsUpperOrDigit);
    assert All(f, IsUpperOrDigit);
  }

  /** A string of at most ten characters from A-Z and 0-9 is its own code. */
  lemma CodeShapedIsFixed(c: string)
    requires |c| <= 10 && All(c, IsUpperOrDigit)
    ensures AttributeCode(c) == c
  {
    TrimKeeps(c, IsPySpace);
    UpperKeeps(c);
    StripCapitalsKeeps(c);
    FilterKeepsAll(c, IsUpperOrDigit);
  }

  /** Generating a code from a generated code gives the same code. */
  lemma AttributeCodeIdempotent(name: string)
    ensures AttributeCode(AttributeCode(name)) == AttributeCode(name)
  {
    AttributeCodeShape(name);
    CodeShapedIsFixed(AttributeCode(name));
  }

  /**
   * No Vietnamese capital is lost to the A-Z0-9 filter: a string made of
   * table capitals, ASCII capitals and digits keeps every character, each
   * capital as its base letter.
   */
  lemma CapitalsSurviveFilter(s: string)
    requires forall k | 0 <= k < |s| :: CapitalIndex(s[k]) < CapitalCount || IsUpperOrDigit(s[k])
    ensures Filter(StripCapitals(s), IsUpperOrDigit) == StripCapitals(s)
    ensures |Filter(StripCapitals(s), IsUpperOrDigit)| == |s|
  {
    var t := StripCapitals(s);
    forall k | 0 <= k < |s|
      ensures IsUpperOrDigit(t[k])
    {
      if CapitalIndex(s[k]) < CapitalCount {
        CapitalEntryShape();
        assert t[k] == CapitalEntry(CapitalIndex(s[k])).1;
      }
    }
    FilterKeepsAll(t, IsUpperOrDigit);
  }

  /** The stroked capital D becomes a plain D. */
  lemma StrokedDBecomesD()
    ensures CapitalIndex('\U{0110}') < CapitalCount && BaseOfCapital('\U{0110}') == 'D'
  {
  }

  // ---------------------------------------------------------------------------
  // Product code of create_product

  /** A char field read from Odoo: a string, or False when it is not set. */
  datatype OdooText = Text(s: string) | NotSet

  /** Python truthiness of an Odoo char value. */
  predicate IsSet(v: OdooText) {
    v.Text? && v.s != ""
  }

  /** The code of one looked-up value; None where the lookup found nothing. */
  function CodeOf(name: Option<string>): (code: Option<string>)
    ensures code.Some? <==> name.Some?
  {
    if name.Some? then Some(AttributeCode(name.value)) else None
  }

  /** The code of each looked-up value, in order. */
  function ValueCodes(names: seq<Option<string>>): (codes: seq<Option<string>>)
    ensures |codes| == |names|
    ensures forall j | 0 <= j < |names| :: codes[j] == CodeOf(names[j])
  {
    seq(|names|, j requires 0 <= j < |names| => CodeOf(names[j]))
  }

  /** generate_attribute_code applied to a looked-up value, when there is one. */
  method GenerateValueCode(name: Option<string>) returns (code: Option<string>)
    ensures code == CodeOf(name)
  {
    code := None;
    if name.Some? {
      var c := GenerateAttributeCode(name.value);
      code := Some(c);
    }
  }

  /** The codes that are present, in order. */
  function Found(codes: seq<Option<string>>): (found: seq<string>)
    ensures |found| <= |codes|
    decreases |codes|
  {
    if codes == [] then []
    else Found(codes[..|codes| - 1]) + (if codes[|codes| - 1].Some? then [codes[|codes| - 1].value] else [])
  }

  /** The suffix create_product appends: "-" and each present code, in order. */
  function Suffix(codes: seq<Option<string>>): string
    decreases |codes|
  {
    if codes == [] then []
    else Suffix(codes[..|codes| - 1]) + (if codes[|codes| - 1].Some? then "-" + codes[|codes| - 1].value else "")
  }

  /** Appending a "-" segment to a code built as base + suffix keeps that shape. */
  lemma AppendSegment(base: string, suffix: string, segment: string)
    ensures (base + suffix) + "-" + segment == base + (suffix + ("-" + segment))
  {
  }

  /** The suffix of one more code is the old suffix followed by that code's segment. */
  lemma SuffixSnoc(codes: seq<Option<string>>, x: Option<string>)
    ensures Suffix(codes + [x]) == Suffix(codes) + (if x.Some? then "-" + x.value else "")
    ensures Found(codes + [x]) == Found(codes) + (if x.Some? then [x.value] else [])
  {
    assert (codes + [x])[..|codes|] == codes;
  }

  /** Extending the prefix of length i by element i gives the prefix of length i + 1. */
  lemma PrefixSnoc<T>(s: seq<T>, i: nat, x: T)
    requires i < |s| && s[i] == x
    ensures s[..i] + [x] == s[..i + 1]
  {
  }

  /** A code present in a prefix keeps the found list of the whole non-empty. */
  lemma {:induction false} FoundPrefix(codes: seq<Option<string>>, n: nat)
    requires n <= |codes|
    ensures |Found(codes[..n])| <= |Found(codes)|
    decreases |codes| - n
  {
    if n < |codes| {
      FoundPrefix(codes, n + 1);
      assert codes[..n + 1][..n] == codes[..n];
    } else {
      assert codes[..n] == codes;
    }
  }

  /** A character that no present code contains is in no found code. */
  lemma {:induction false} FoundAvoids(codes: seq<Option<string>>, c: char)
    requires forall j | 0 <= j < |codes| :: codes[j].Some? ==> c !in codes[j].value
    ensures forall i | 0 <= i < |Found(codes)| :: c !in Found(codes)[i]
    decreases |codes|
  {
    if codes != [] {
      FoundAvoids(codes[..|codes| - 1], c);
    }
  }

  /** Generated codes hold only A-Z and 0-9, so never a "-". */
  lemma ValueCodesHaveNoDash(names: seq<Option<string>>)
    ensures forall j | 0 <= j < |names| :: ValueCodes(names)[j].Some? ==> '-' !in ValueCodes(names)[j].value
  {
    forall j | 0 <= j < |names| && names[j].Some?
      ensures '-' !in CodeOf(names[j]).value
    {
      var code := AttributeCode(names[j].value);
      assert All(code, IsUpperOrDigit);
      assert forall k | 0 <= k < |code| :: code[k] != '-';
    }
  }

  /** The suffix is the present codes, each preceded by "-". */
  lemma {:induction false} SuffixIsJoin(base: string, codes: seq<Option<string>>)
    ensures base + Suffix(codes) == Join([base] + Found(codes), "-")
    decreases |codes|
  {
    if codes != [] {
      var init := codes[..|codes| - 1];
      var last := codes[|codes| - 1];
      assert codes == init + [last];
      SuffixSnoc(init, last);
      SuffixIsJoin(base, init);
      var parts := [base] + Found(init);
      if last.Some? {
        assert base + Suffix(codes) == (base + Suffix(init)) + "-" + last.value;
        JoinSnoc(parts, last.value, "-");
        assert [base] + Found(codes) == parts + [last.value];
      } else {
        assert [base] + Found(codes) == parts;
      }
    }
  }

  /** Appending a part to a join appends the separator and the part. */
  lemma {:induction false} JoinSnoc(parts: seq<string>, x: string, sep: string)
    requires |parts| >= 1
    ensures Join(parts + [x], sep) == Join(parts, sep) + sep + x
    decreases |parts|
  {
    if |parts| == 1 {
      assert parts + [x] == [parts[0], x];
    } else {
      assert (parts + [x])[1..] == parts[1..] + [x];
      JoinSnoc(parts[1..], x, sep);
    }
  }

  /**
   * A generated product code splits at "-" into the template code and one
   * code per found attribute value, in order (when the template code has no
   * "-" of its own).
   */
  lemma ProductCodeSplits(base: string, names: seq<Option<string>>)
    requires '-' !in base
    ensures SplitOnChar(base + Suffix(ValueCodes(names)), '-') == [base] + Found(ValueCodes(names))
  {
    var codes := ValueCodes(names);
    SuffixIsJoin(base, codes);
    ValueCodesHaveNoDash(names);
    FoundAvoids(codes, '-');
    JoinSplit([base] + Found(codes), '-');
  }

  /**
   * create_product's code assembly as written: the template's default_code
   * field is read with a fallback that never applies (Odoo always returns the
   * field, as False when unset), and `code += ...` on False raises, which the
   * route reports as status 500. Failure carries that status.
   */
  method AssembleCodeAsWritten(provided: OdooText, templateCode: OdooText, names: seq<Option<string>>) returns (r: Result<OdooText, nat>)
    ensures IsSet(provided) ==> r == Success(provided)
    ensures !IsSet(provided) && templateCode.Text? ==> r == Success(Text(templateCode.s + Suffix(ValueCodes(names))))
    ensures !IsSet(provided) && templateCode.NotSet? ==>
      r == if Found(ValueCodes(names)) == [] then Success(NotSet) else Failure(500)
  {
    if IsSet(provided) {
      return Success(provided);
    }
    var code := templateCode;
    ghost var codes: seq<Option<string>> := [];
    var i := 0;
    while i < |names|
      invariant 0 <= i <= |names|
      invariant codes == ValueCodes(names)[..i]
      invariant templateCode.Text? ==> code == Text(templateCode.s + Suffix(codes))
      invariant templateCode.NotSet? ==> code == NotSet && Found(codes) == []
    {
      var x := GenerateValueCode(names[i]);
      if x.Some? {
        if code.NotSet? {
          SuffixSnoc(codes, x);
          PrefixSnoc(ValueCodes(names), i, x);
          FoundPrefix(ValueCodes(names), i + 1);
          return Failure(500);
        }
        AppendSegment(templateCode.s, Suffix(codes), x.value);
        code := Text(code.s + "-" + x.value);
      }
      SuffixSnoc(codes, x);
      PrefixSnoc(ValueCodes(names), i, x);
      codes := codes + [x];
      i := i + 1;
    }
    assert codes == ValueCodes(names);
    r := Success(code);
  }

  /** The template code create_product evidently means: default_code, else the name, else "PRODUCT". */
  function TemplateBase(templateCode: OdooText, templateName: OdooText): (base: string)
    ensures IsSet(templateCode) ==> base == templateCode.s
    ensures !IsSet(templateCode) && IsSet(templateName) ==> base == templateName.s
    ensures !IsSet(templateCode) && !IsSet(templateName) ==> base == "PRODUCT"
  {
    if IsSet(templateCode) then templateCode.s
    else if IsSet(templateName) then templateName.s
    else "PRODUCT"
  }

  /** create_product's code assembly with the fallback applied to unset fields: it never fails. */
  method AssembleCode(provided: OdooText, templateCode: OdooText, templateName: OdooText, names: seq<Option<string>>) returns (code: string)
    ensures IsSet(provided) ==> code == provided.s
    ensures !IsSet(provided) ==> code == TemplateBase(templateCode, templateName) + Suffix(ValueCodes(names))
  {
    if IsSet(provided) {
      return provided.s;
    }
    var base := TemplateBase(templateCode, templateName);
    code := base;
    ghost var codes: seq<Option<string>> := [];
    var i := 0;
    while i < |names|
      invariant 0 <= i <= |names|
      invariant codes == ValueCodes(names)[..i]
      invariant code == base + Suffix(codes)
    {
      var x := GenerateValueCode(names[i]);
      if x.Some? {
        AppendSegment(base, Suffix(codes), x.value);
        code := code + "-" + x.value;
      }
      SuffixSnoc(codes, x);
      PrefixSnoc(ValueCodes(names), i, x);
      codes := codes + [x];
      i := i + 1;
    }
    assert codes == ValueCodes(names);
  }

  /**
   * An unset default_code with one found value (such as "Vàng" on a template
   * named "Nhẫn"): as written the route fails, the fallback gives a code.
   */
  lemma UnsetTemplateCodeFails(templateName: string, valueName: string)
    requires templateName != ""
    ensures Found(ValueCodes([Some(valueName)])) != []
    ensures TemplateBase(NotSet, Text(templateName)) + Suffix(ValueCodes([Some(valueName)])) ==
      templateName + "-" + AttributeCode(valueName)
  {
    var code := AttributeCode(valueName);
    var codes := ValueCodes([Some(valueName)]);
    assert codes == [] + [Some(code)];
    SuffixSnoc([], Some(code));
  }

  // ---------------------------------------------------------------------------
  // update_rate_from_ui

  /** Python truthiness of a decoded JSON value. */
  predicate Truthy(j: Json) {
    match j
    case JNull => false
    case JBool(b) => b
    case JInt(i) => i != 0
    case JReal(x) => x != 0.0
    case JStr(s) => s != ""
    case JList(items) => items != []
    case JObject(fields) => fields != map[]
  }

  /** float(x): a number, or the exception it raises. */
  datatype FloatOutcome = FloatValue(value: real) | RaisesValueError | RaisesTypeError(typeName: string)

  /** float(x) on a decoded JSON value; parseFloat stands for float() on a string. A TypeError names the Python type, worded as Python 3.10 and later word it. */
  function FloatOf(j: Json, parseFloat: string -> Option<real>): (r: FloatOutcome)
    ensures j.JInt? ==> r == FloatValue(j.i as real)
    ensures j.JReal? ==> r == FloatValue(j.r)
    ensures j.JNull? ==> r == RaisesTypeError("NoneType")
    ensures j.JList? ==> r == RaisesTypeError("list")
    ensures j.JObject? ==> r == RaisesTypeError("dict")
  {
    match j
    case JBool(b) => FloatValue(if b then 1.0 else 0.0)
    case JInt(i) => FloatValue(i as real)
    case JReal(x) => FloatValue(x)
    case JStr(s) => if parseFloat(s).Some? then FloatValue(parseFloat(s).value) else RaisesValueError
    case JNull => RaisesTypeError("NoneType")
    case JList(_) => RaisesTypeError("list")
    case JObject(_) => RaisesTypeError("dict")
  }

  const MissingValueDetail: string := "Material và rate phải có giá trị hợp lệ"
  const BadMaterialDetail: string := "Material phải là 'gold' hoặc 'silver'"
  const PublishFailedDetail: string := "Không thể gửi dữ liệu qua Kafka"
  const NotANumberDetail: string := "Rate phải là số"

  /** The route's outcome: the accepted material and rate, or an HTTP error; publishCalled says whether the producer was asked. */
  datatype RateUiOutcome =
    | Accepted(material: Material, rate: real)
    | Rejected(status: nat, detail: string, publishCalled: bool)

  /** The request passes validation: a truthy material, a positive rate, and a known material. */
  function ValidateRateRequest(request: map<string, Json>, parseFloat: string -> Option<real>): (r: Result<(Material, real), (nat, string)>)
    ensures r.Success? <==>
      && "material" in request && request["material"].JStr? && ParseMaterial(request["material"].s).Some?
      && "rate" in request && FloatOf(request["rate"], parseFloat).FloatValue? && FloatOf(request["rate"], parseFloat).value > 0.0
    ensures r.Success? ==> r.value.1 > 0.0 && request["material"] == JStr(r.value.0.Value())
  {
    var material := MaterialArg(request);
    var rateJson := RateArg(request);
    match FloatOf(rateJson, parseFloat)
    case RaisesValueError => Failure((400, NotANumberDetail))
    case RaisesTypeError(typeName) => Failure((500, "Lỗi: float() argument must be a string or a real number, not '" + typeName + "'"))
    case FloatValue(rate) =>
      if !Truthy(material) || rate <= 0.0 then Failure((400, MissingValueDetail))
      else if !(material.JStr? && ParseMaterial(material.s).Some?) then Failure((400, BadMaterialDetail))
      else Success((ParseMaterial(material.s).value, rate))
  }

  /** str() of an HTTP exception: "<status>: <detail>". */
  function HttpExceptionText(status: nat, detail: string): string {
    NatToString(status) + ": " + detail
  }

  /**
   * update_rate_from_ui as written: the 400 errors raised inside the try are
   * caught by the generic handler and re-raised as 500 (only float()'s
   * ValueError keeps 400).
   */
  function UpdateRateFromUiAsWritten(request: map<string, Json>, parseFloat: string -> Option<real>, published: bool): (r: RateUiOutcome)
    ensures r.Rejected? && r.status == 400 ==> r.detail == NotANumberDetail
    ensures r.Rejected? && r.publishCalled ==> r.status == 500
  {
    match ValidateRateRequest(request, parseFloat)
    case Failure((status, detail)) =>
      if status == 400 && detail != NotANumberDetail then
        Rejected(500, "Lỗi: " + HttpExceptionText(status, detail), false)
      else
        Rejected(status, detail, false)
    case Success((material, rate)) =>
      if published then Accepted(material, rate)
      else Rejected(500, "Lỗi: " + HttpExceptionText(500, PublishFailedDetail), true)
  }

  /** update_rate_from_ui as evidently intended: validation errors keep their 400 status. */
  function UpdateRateFromUi(request: map<string, Json>, parseFloat: string -> Option<real>, published: bool): (r: RateUiOutcome)
    ensures r.Accepted? <==> ValidateRateRequest(request, parseFloat).Success? && published
    ensures r.Accepted? ==> r.rate > 0.0 && request["material"] == JStr(r.material.Value())
    ensures r.Rejected? && r.publishCalled ==> ValidateRateRequest(request, parseFloat).Success?
    ensures ValidateRateRequest(request, parseFloat).Failure? ==>
      r == Rejected(ValidateRateRequest(request, parseFloat).error.0, ValidateRateRequest(request, parseFloat).error.1, false)
  {
    match ValidateRateRequest(request, parseFloat)
    case Failure((status, detail)) => Rejected(status, detail, false)
    case Success((material, rate)) =>
      if published then Accepted(material, rate)
      else Rejected(500, PublishFailedDetail, true)
  }

  /** request.get("material") and request.get("rate", 0). */
  function MaterialArg(request: map<string, Json>): Json {
    if "material" in request then request["material"] else JNull
  }

  function RateArg(request: map<string, Json>): Json {
    if "rate" in request then request["rate"] else JInt(0)
  }

  /**
   * With a rate that float() accepts: a missing or empty material, a rate
   * that is not positive (0 when absent), or a material other than gold and
   * silver is rejected with 400 before anything is published.
   */
  lemma InvalidRateRequestRejected(request: map<string, Json>, parseFloat: string -> Option<real>, published: bool)
    requires FloatOf(RateArg(request), parseFloat).FloatValue?
    requires || !Truthy(MaterialArg(request))
             || FloatOf(RateArg(request), parseFloat).value <= 0.0
             || !(MaterialArg(request).JStr? && ParseMaterial(MaterialArg(request).s).Some?)
    ensures UpdateRateFromUi(request, parseFloat, published).Rejected?
    ensures UpdateRateFromUi(request, parseFloat, published).status == 400
    ensures UpdateRateFromUi(request, parseFloat, published).detail in {MissingValueDetail, BadMaterialDetail}
    ensures !UpdateRateFromUi(request, parseFloat, published).publishCalled
  {
  }

  /** The empty request: the corrected route answers 400, the route as written answers 500. */
  lemma EmptyRateRequestStatus(parseFloat: string -> Option<real>, published: bool)
    ensures UpdateRateFromUi(map[], parseFloat, published) == Rejected(400, MissingValueDetail, false)
    ensures UpdateRateFromUiAsWritten(map[], parseFloat, published).Rejected?
    ensures UpdateRateFromUiAsWritten(map[], parseFloat, published).status == 500
  {
  }

  // ---------------------------------------------------------------------------
  // The application's pricing callback and pricing route

  /** The application's globals: its Kafka consumer and its SSE subscribers. */
  class AppState {
    const kafkaConsumer: KafkaPricingConsumer
    var sseConnections: set<nat>
    var queues: map<nat, seq<Event>>

    ghost predicate Valid()
      reads this, kafkaConsumer, kafkaConsumer.calculator
    {
      kafkaConsumer.Valid() && sseConnections <= queues.Keys
    }

    constructor (kafkaConsumer: KafkaPricingConsumer)
      requires kafkaConsumer.Valid()
      ensures Valid()
      ensures this.kafkaConsumer == kafkaConsumer && sseConnections == {} && queues == map[]
    {
      this.kafkaConsumer := kafkaConsumer;
      sseConnections := {};
      queues := map[];
    }

    /**
     * on_pricing_update: the event is offered to every subscriber and the
     * failed ones are removed afterwards; the source subtracts the failed set
     * twice, and the second subtraction changes nothing.
     */
    method OnPricingUpdate(sku: string, snapshot: PricingSnapshot, now: real, canEnqueue: nat -> bool)
      requires Valid()
      modifies this`sseConnections, this`queues
      ensures Valid()
      ensures sseConnections == old(sseConnections) - Failed(old(sseConnections), canEnqueue)
      ensures queues == Delivered(old(queues), old(sseConnections), PricingUpdate(sku, snapshot, now), canEnqueue)
      ensures forall q | q in sseConnections :: queues[q] == old(queues)[q] + [PricingUpdate(sku, snapshot, now)]
    {
      var ev := PricingUpdate(sku, snapshot, now);
      var disconnected: set<nat> := {};
      var todo := sseConnections;
      ghost var done: set<nat> := {};
      while todo != {}
        invariant sseConnections == old(sseConnections) && queues.Keys == old(queues).Keys
        invariant todo + done == sseConnections && todo !! done
        invariant disconnected == Failed(done, canEnqueue)
        invariant queues == Delivered(old(queues), done, ev, canEnqueue)
        decreases todo
      {
        var q :| q in todo;
        DeliveredStep(old(queues), done, q, ev, canEnqueue);
        FailedStep(done, q, canEnqueue);
        if canEnqueue(q) {
          queues := queues[q := queues[q] + [ev]];
        } else {
          disconnected := disconnected + {q};
        }
        todo := todo - {q};
        done := done + {q};
      }
      sseConnections := sseConnections - disconnected;
      sseConnections := sseConnections - disconnected;
    }

    /** get_pricing: the same strategy rules as the gateway, including the in-place surcharge. */
    method GetPricing(sku: string, strategy: OfflineStrategy, now: real) returns (resp: PricingResponse)
      requires Valid()
      modifies kafkaConsumer.calculator`pricingCache
      ensures Valid()
      ensures resp == QueryPricing(old(kafkaConsumer.calculator.GetPricing(sku)), sku, strategy, now)
      ensures kafkaConsumer.calculator.pricingCache == CacheAfterQuery(old(kafkaConsumer.calculator.pricingCache), sku, strategy, now)
    {
      var calculator := kafkaConsumer.calculator;
      var snapshot := calculator.GetPricing(sku);
      if snapshot.None? {
        return NewResponse(false).(error := Some(NoDataError(sku)));
      }
      var s := snapshot.value;
      var isExpired := IsExpired(s, now);
      var strategyApplied: Option<OfflineStrategy> := None;
      if isExpired {
        if strategy == Deny {
          return NewResponse(false).(error := Some(ExpiredError(sku)), isExpired := true);
        } else if strategy == Surcharge {
          s := Surcharged(s);
          calculator.pricingCache := calculator.pricingCache[sku := s];
          strategyApplied := Some(Surcharge);
        } else {
          strategyApplied := Some(Freeze);
        }
      }
      resp := PricingResponse(true, Some(s), None, true, isExpired, strategyApplied);
    }
  }
}
