/**
 * The update ingestion side of the pricing system: messages from the `rates`,
 * `weights` and `pricing.snapshot` topics are decoded into records and
 * applied to a PricingCalculator, and the pricing-update callback is fired
 * for every SKU whose price may have changed.
 *
 * The callback is modelled as an append-only log of notifications; whether a
 * callback is installed at all is a flag. Decoding failures, which the
 * handlers catch and log, leave every piece of state as it was.
 */
module PricingConsumer {
  import opened Wrappers
  import opened PricingModels
  import opened PricingService

  /** A decoded JSON value, as the consumer's value deserializer produces it. */
  datatype Json =
    | JNull
    | JBool(b: bool)
    | JInt(i: int)
    | JReal(r: real)
    | JStr(s: string)
    | JList(items: seq<Json>)
    | JObject(fields: map<string, Json>)

  /** One consumed record: its topic, its (optional) key and its decoded value. */
  datatype Message = Message(topic: string, key: Option<string>, value: Json)

  /** One invocation of the pricing-update callback. */
  datatype Notification = Notification(sku: string, snapshot: PricingSnapshot)

  /**
   * What the handlers read from outside the message: the server clock (as
   * seconds and as the millisecond stamp), the readings the calculator's
   * per-SKU recalculations take during a rate update, datetime.fromisoformat
   * applied after replacing 'Z' by '+00:00', and the datetime coercion of the
   * record library (used for a snapshot's as_of).
   */
  datatype Env = Env(
    now: real,
    clockMs: int,
    repricingClock: string -> Reading,
    parseIso: string -> Option<real>,
    coerceDatetime: Json -> Option<real>)

  /** data[name] on a decoded object; None when the value is not an object or lacks the key. */
  function Get(data: Json, name: string): (r: Option<Json>)
    ensures r.Some? <==> data.JObject? && name in data.fields
  {
    if data.JObject? && name in data.fields then Some(data.fields[name]) else None
  }

  /** data.get(name, default) on a decoded object. */
  function GetOr(data: Json, name: string, default: Json): (r: Option<Json>)
    ensures r.Some? <==> data.JObject?
    ensures data.JObject? && name !in data.fields ==> r == Some(default)
  {
    if !data.JObject? then None
    else if name in data.fields then Some(data.fields[name])
    else Some(default)
  }

  /** A float field accepts JSON numbers. */
  function AsReal(j: Json): (r: Option<real>)
    ensures r.Some? <==> j.JInt? || j.JReal?
  {
    match j
    case JInt(i) => Some(i as real)
    case JReal(x) => Some(x)
    case _ => None
  }

  /** An int field accepts JSON integers. */
  function AsInt(j: Json): (r: Option<int>)
    ensures r.Some? <==> j.JInt?
  {
    match j
    case JInt(i) => Some(i)
    case _ => None
  }

  /** An Optional[float] field also accepts null, as None. */
  function AsOptReal(j: Json): (r: Option<Option<real>>)
    ensures r.Some? <==> j.JNull? || j.JInt? || j.JReal?
    ensures j.JNull? ==> r == Some(None)
  {
    if j.JNull? then Some(None)
    else match AsReal(j)
      case Some(x) => Some(Some(x))
      case None => None
  }

  /** A MaterialType field accepts the material's string value. */
  function AsMaterial(j: Json): (r: Option<Material>)
    ensures r.Some? ==> j == JStr(r.value.Value())
  {
    match j
    case JStr(s) => ParseMaterial(s)
    case _ => None
  }

  /** The timestamp of a rate or weights payload: an ISO text read by fromisoformat. */
  function AsTimestamp(j: Json, env: Env): (r: Option<real>)
    ensures r.Some? ==> j.JStr? && env.parseIso(j.s) == r
  {
    match j
    case JStr(s) => env.parseIso(s)
    case _ => None
  }

  /**
   * _handle_rate_update's Rate(...): the material comes from the message key,
   * rate, rate_version and timestamp from the payload; the currency is always
   * the default, whatever the payload says.
   */
  function DecodeRate(key: Option<string>, data: Json, env: Env): (r: Option<Rate>)
    ensures r.Some? ==> key == Some(r.value.material.Value()) && r.value.currency == "VND"
    ensures r.Some? ==> Get(data, "rate").Some? && Get(data, "rate_version").Some? && Get(data, "timestamp").Some?
  {
    var material := if key.Some? then ParseMaterial(key.value) else None;
    var jr, jv, jt := Get(data, "rate"), Get(data, "rate_version"), Get(data, "timestamp");
    if material.None? || jr.None? || jv.None? || jt.None? then None
    else
      var rate, version, ts := AsReal(jr.value), AsInt(jv.value), AsTimestamp(jt.value, env);
      if rate.None? || version.None? || ts.None? then None
      else Some(NewRate(material.value, rate.value, version.value, ts.value))
  }

  /**
   * _handle_weights_update's ProductWeights(...): the SKU is the message key;
   * material, weight_gram, weights_version and timestamp are required, while
   * stone_weight, labor_cost and markup_percent default to 0 when absent.
   */
  function DecodeWeights(key: Option<string>, data: Json, env: Env): (r: Option<ProductWeights>)
    ensures r.Some? ==> key == Some(r.value.sku) && r.value.formula == DefaultFormula
    ensures r.Some? ==>
      && Get(data, "material").Some? && Get(data, "weight_gram").Some?
      && Get(data, "weights_version").Some? && Get(data, "timestamp").Some?
    ensures r.Some? ==>
      && Get(data, "material") == Some(JStr(r.value.material.Value()))
      && AsReal(Get(data, "weight_gram").value) == Some(r.value.weightGram)
      && AsInt(Get(data, "weights_version").value) == Some(r.value.weightsVersion)
      && AsTimestamp(Get(data, "timestamp").value, env) == Some(r.value.timestamp)
      && AsOptReal(GetOr(data, "stone_weight", JInt(0)).value) == Some(r.value.stoneWeight)
      && AsReal(GetOr(data, "labor_cost", JInt(0)).value) == Some(r.value.laborCost)
      && AsReal(GetOr(data, "markup_percent", JInt(0)).value) == Some(r.value.markupPercent)
  {
    var jm, jw, jv, jt := Get(data, "material"), Get(data, "weight_gram"), Get(data, "weights_version"), Get(data, "timestamp");
    var js, jl, jk := GetOr(data, "stone_weight", JInt(0)), GetOr(data, "labor_cost", JInt(0)), GetOr(data, "markup_percent", JInt(0));
    if key.None? || jm.None? || jw.None? || jv.None? || jt.None? || js.None? || jl.None? || jk.None? then None
    else
      var m, wg, sw, lc := AsMaterial(jm.value), AsReal(jw.value), AsOptReal(js.value), AsReal(jl.value);
      var mk, v, ts := AsReal(jk.value), AsInt(jv.value), AsTimestamp(jt.value, env);
      if m.None? || wg.None? || sw.None? || lc.None? || mk.None? || v.None? || ts.None? then None
      else Some(ProductWeights(key.value, m.value, wg.value, sw.value, lc.value, mk.value, DefaultFormula, v.value, ts.value))
  }

  /** A field of PricingSnapshot(**data) that has a default when the payload omits it. */
  function FieldOr(data: Json, name: string, default: Json): Json
    requires data.JObject?
  {
    if name in data.fields then data.fields[name] else default
  }

  /**
   * PricingSnapshot(**data): the payload must be an object; sku, base_price,
   * final_price, rate_used, weight_gram, material and snapshot_version are
   * required; stone_weight, labor_cost and markup_percent default to 0,
   * ttl_sec to 300 and as_of to the current time.
   */
  function DecodeSnapshot(data: Json, env: Env): (r: Option<PricingSnapshot>)
    ensures r.Some? ==> data.JObject?
    ensures r.Some? ==>
      forall name | name in ["sku", "base_price", "final_price", "rate_used", "weight_gram", "material", "snapshot_version"]
        :: name in data.fields
    ensures r.Some? && "ttl_sec" !in data.fields ==> r.value.ttlSec == DefaultTtlSec
    ensures r.Some? && "as_of" !in data.fields ==> r.value.asOf == env.now
    ensures r.Some? ==>
      && data.fields["sku"] == JStr(r.value.sku)
      && AsReal(data.fields["base_price"]) == Some(r.value.basePrice)
      && AsReal(data.fields["final_price"]) == Some(r.value.finalPrice)
      && AsReal(data.fields["rate_used"]) == Some(r.value.rateUsed)
      && AsReal(data.fields["weight_gram"]) == Some(r.value.weightGram)
      && data.fields["material"] == JStr(r.value.material.Value())
      && AsInt(data.fields["snapshot_version"]) == Some(r.value.snapshotVersion)
      && AsOptReal(FieldOr(data, "stone_weight", JInt(0))) == Some(r.value.stoneWeight)
      && AsReal(FieldOr(data, "labor_cost", JInt(0))) == Some(r.value.laborCost)
      && AsReal(FieldOr(data, "markup_percent", JInt(0))) == Some(r.value.markupPercent)
      && AsInt(FieldOr(data, "ttl_sec", JInt(DefaultTtlSec))) == Some(r.value.ttlSec)
      && ("as_of" in data.fields ==> env.coerceDatetime(data.fields["as_of"]) == Some(r.value.asOf))
  {
    if !data.JObject? then None
    else
      var f := data.fields;
      if !("sku" in f && "base_price" in f && "final_price" in f && "rate_used" in f
        && "weight_gram" in f && "material" in f && "snapshot_version" in f) then None
      else if !f["sku"].JStr? then None
      else
        var bp, fp, ru, wg := AsReal(f["base_price"]), AsReal(f["final_price"]), AsReal(f["rate_used"]), AsReal(f["weight_gram"]);
        var sw := AsOptReal(FieldOr(data, "stone_weight", JInt(0)));
        var lc, mk := AsReal(FieldOr(data, "labor_cost", JInt(0))), AsReal(FieldOr(data, "markup_percent", JInt(0)));
        var m, v := AsMaterial(f["material"]), AsInt(f["snapshot_version"]);
        var ttl := AsInt(FieldOr(data, "ttl_sec", JInt(DefaultTtlSec)));
        var asOf := if "as_of" in f then env.coerceDatetime(f["as_of"]) else Some(env.now);
        if bp.None? || fp.None? || ru.None? || wg.None? || sw.None? || lc.None? || mk.None?
          || m.None? || v.None? || ttl.None? || asOf.None? then None
        else
          Some(PricingSnapshot(f["sku"].s, bp.value, fp.value, ru.value, wg.value, sw.value, lc.value, mk.value,
                               m.value, v.value, ttl.value, asOf.value))
  }

  /** The payload a producer sends for a rate, with its timestamp written as iso. */
  function RatePayload(r: Rate, iso: string): Json {
    JObject(map["rate" := JReal(r.rate), "rate_version" := JInt(r.rateVersion), "timestamp" := JStr(iso)])
  }

  /** Decoding a producer's rate payload under the rate's own material key gives the rate back. */
  lemma RateRoundTrip(r: Rate, iso: string, env: Env)
    requires r.currency == "VND" && env.parseIso(iso) == Some(r.timestamp)
    ensures DecodeRate(Some(r.material.Value()), RatePayload(r, iso), env) == Some(r)
  {
    MaterialRoundTrip(r.material);
  }

  /** An Optional[float] value as JSON: null for None. */
  function OptRealJson(x: Option<real>): Json {
    match x
    case None => JNull
    case Some(v) => JReal(v)
  }

  /** The payload a producer sends for weights, every optional field written out. */
  function WeightsPayload(w: ProductWeights, iso: string): Json {
    JObject(map["material" := JStr(w.material.Value()), "weight_gram" := JReal(w.weightGram),
                "stone_weight" := OptRealJson(w.stoneWeight), "labor_cost" := JReal(w.laborCost),
                "markup_percent" := JReal(w.markupPercent), "weights_version" := JInt(w.weightsVersion),
                "timestamp" := JStr(iso)])
  }

  /**
   * Decoding a full weights payload under the weights' own SKU gives them back:
   * explicit stone_weight, labor_cost and markup_percent values are kept.
   */
  lemma WeightsRoundTrip(w: ProductWeights, iso: string, env: Env)
    requires w.formula == DefaultFormula && env.parseIso(iso) == Some(w.timestamp)
    ensures DecodeWeights(Some(w.sku), WeightsPayload(w, iso), env) == Some(w)
  {
    MaterialRoundTrip(w.material);
  }

  /** The payload of a snapshot with all twelve fields, as_of given as its JSON form. */
  function SnapshotPayload(s: PricingSnapshot, asOf: Json): Json {
    JObject(map["sku" := JStr(s.sku), "base_price" := JReal(s.basePrice), "final_price" := JReal(s.finalPrice),
                "rate_used" := JReal(s.rateUsed), "weight_gram" := JReal(s.weightGram),
                "stone_weight" := OptRealJson(s.stoneWeight), "labor_cost" := JReal(s.laborCost),
                "markup_percent" := JReal(s.markupPercent), "material" := JStr(s.material.Value()),
                "snapshot_version" := JInt(s.snapshotVersion), "ttl_sec" := JInt(s.ttlSec), "as_of" := asOf])
  }

  /** PricingSnapshot(**data) on a snapshot's own payload gives that snapshot back, so it is installed as received. */
  lemma SnapshotRoundTrip(s: PricingSnapshot, asOf: Json, env: Env)
    requires env.coerceDatetime(asOf) == Some(s.asOf)
    ensures DecodeSnapshot(SnapshotPayload(s, asOf), env) == Some(s)
  {
    MaterialRoundTrip(s.material);
  }

  /** A rate payload lacking rate, rate_version or timestamp is rejected. */
  lemma RateNeedsFields(key: Option<string>, data: Json, env: Env)
    requires Get(data, "rate").None? || Get(data, "rate_version").None? || Get(data, "timestamp").None?
    ensures DecodeRate(key, data, env).None?
  {
  }

  /**
   * A weights payload that carries only the required fields decodes to
   * weights whose stone weight, labour cost and markup are all 0.
   */
  lemma WeightsDefaultToZero(sku: string, m: Material, wg: real, v: int, iso: string, env: Env)
    requires env.parseIso(iso).Some?
    ensures var data := JObject(map["material" := JStr(m.Value()), "weight_gram" := JReal(wg),
                                    "weights_version" := JInt(v), "timestamp" := JStr(iso)]);
      var r := DecodeWeights(Some(sku), data, env);
      && r.Some?
      && r.value == NewWeights(sku, m, wg, v, env.parseIso(iso).value)
  {
    MaterialRoundTrip(m);
  }

  /** The SKUs _notify_affected_products reports for material m: made of m and with a snapshot. */
  function NotifyTargets(weights: map<string, ProductWeights>, cache: map<string, PricingSnapshot>, m: Material): (skus: set<string>)
    ensures skus <= AffectedSkus(weights, m)
    ensures forall s | s in AffectedSkus(weights, m) :: s in skus <==> s in cache
  {
    set s | s in weights && weights[s].material == m && s in cache
  }

  /** ns holds exactly one notification per SKU of skus, each carrying that SKU's cached snapshot. */
  ghost predicate NotifiesEach(ns: seq<Notification>, skus: set<string>, cache: map<string, PricingSnapshot>) {
    && (forall i, j | 0 <= i < j < |ns| :: ns[i].sku != ns[j].sku)
    && (forall i | 0 <= i < |ns| :: ns[i].sku in skus && ns[i].sku in cache && ns[i].snapshot == cache[ns[i].sku])
    && (forall s | s in skus :: exists i | 0 <= i < |ns| :: ns[i].sku == s)
  }

  /** One notification per SKU: the log grows by exactly as many entries as there are SKUs. */
  lemma {:induction false} NotifiesEachCount(ns: seq<Notification>, skus: set<string>, cache: map<string, PricingSnapshot>)
    requires NotifiesEach(ns, skus, cache)
    ensures |ns| == |skus|
    decreases |ns|
  {
    if ns == [] {
      assert forall s :: s !in skus;
      assert skus == {};
    } else {
      var last := ns[|ns| - 1];
      var rest := ns[..|ns| - 1];
      var restSkus := skus - {last.sku};
      forall s | s in restSkus
        ensures exists i | 0 <= i < |rest| :: rest[i].sku == s
      {
        var i :| 0 <= i < |ns| && ns[i].sku == s;
        assert i != |ns| - 1;
        assert rest[i].sku == s;
      }
      NotifiesEachCount(rest, restSkus, cache);
      assert last.sku in skus;
    }
  }

  /** After an accepted rate, every SKU made of that material has a snapshot, so each is notified. */
  lemma AcceptedRateTargets(
    cache: map<string, PricingSnapshot>, weights: map<string, ProductWeights>, rate: Rate, clock: string -> Reading)
    ensures var affected := AffectedSkus(weights, rate.material);
      NotifyTargets(weights, Repriced(cache, weights, rate, affected, clock), rate.material) == affected
  {
    RepricedEntries(cache, weights, rate, AffectedSkus(weights, rate.material), clock);
  }

  class KafkaPricingConsumer {
    const calculator: PricingCalculator
    /** Whether on_pricing_update is set. */
    var hasCallback: bool
    /** Every callback invocation so far, oldest first. */
    var notifications: seq<Notification>

    ghost predicate Valid()
      reads this, calculator
    {
      calculator.Valid()
    }

    constructor (hasCallback: bool)
      ensures Valid() && fresh(calculator)
      ensures this.hasCallback == hasCallback && notifications == []
      ensures calculator.rates == map[] && calculator.weights == map[] && calculator.pricingCache == map[]
    {
      calculator := new PricingCalculator();
      this.hasCallback := hasCallback;
      notifications := [];
    }

    /**
     * _notify_affected_products: without a callback nothing happens; with one,
     * exactly one notification is appended per SKU made of m that has a
     * snapshot, carrying that snapshot.
     */
    method NotifyAffectedProducts(m: Material)
      modifies this`notifications
      ensures !hasCallback ==> notifications == old(notifications)
      ensures hasCallback ==>
        && |notifications| >= |old(notifications)|
        && notifications[..|old(notifications)|] == old(notifications)
        && NotifiesEach(notifications[|old(notifications)|..],
             NotifyTargets(calculator.weights, calculator.pricingCache, m), calculator.pricingCache)
    {
      if !hasCallback {
        return;
      }
      var targets := NotifyTargets(calculator.weights, calculator.pricingCache, m);
      var cache := calculator.pricingCache;
      var added: seq<Notification> := [];
      var todo := targets;
      while todo != {}
        invariant todo <= targets
        invariant notifications == old(notifications) + added
        invariant NotifiesEach(added, targets - todo, cache)
        decreases todo
      {
        var sku :| sku in todo;
        var n := Notification(sku, cache[sku]);
        assert forall i | 0 <= i < |added| :: added[i].sku != sku;
        ghost var before := added;
        added := added + [n];
        notifications := notifications + [n];
        forall s | s in targets - (todo - {sku})
          ensures exists i | 0 <= i < |added| :: added[i].sku == s
        {
          if s == sku {
            assert added[|added| - 1].sku == s;
          } else {
            assert s in targets - todo;
            var i :| 0 <= i < |before| && before[i].sku == s;
            assert added[i].sku == s;
          }
        }
        todo := todo - {sku};
      }
      assert targets - todo == targets;
      assert notifications[|old(notifications)|..] == added;
    }

    /**
     * _handle_rate_update: an undecodable payload changes nothing; a decoded
     * rate goes to the calculator, and only when it is accepted are the
     * affected SKUs notified.
     */
    method HandleRateUpdate(key: Option<string>, data: Json, env: Env)
      requires Valid()
      modifies this`notifications, calculator
      ensures Valid()
      ensures calculator.weights == old(calculator.weights)
      ensures DecodeRate(key, data, env).None? ==>
        calculator.rates == old(calculator.rates) && calculator.pricingCache == old(calculator.pricingCache)
        && notifications == old(notifications)
      ensures DecodeRate(key, data, env).Some? && !RateIsNewer(old(calculator.rates), DecodeRate(key, data, env).value) ==>
        calculator.rates == old(calculator.rates) && calculator.pricingCache == old(calculator.pricingCache)
        && notifications == old(notifications)
      ensures DecodeRate(key, data, env).Some? && RateIsNewer(old(calculator.rates), DecodeRate(key, data, env).value) ==>
        var rate := DecodeRate(key, data, env).value;
        var affected := AffectedSkus(calculator.weights, rate.material);
        && calculator.rates == old(calculator.rates)[rate.material := rate]
        && calculator.pricingCache == Repriced(old(calculator.pricingCache), calculator.weights, rate, affected, env.repricingClock)
        && (!hasCallback ==> notifications == old(notifications))
        && (hasCallback ==>
             && |notifications| == |old(notifications)| + |affected|
             && notifications[..|old(notifications)|] == old(notifications)
             && NotifiesEach(notifications[|old(notifications)|..], affected, calculator.pricingCache))
    {
      var decoded := DecodeRate(key, data, env);
      if decoded.None? {
        return;
      }
      var rate := decoded.value;
      var updated := calculator.UpdateRate(rate, env.repricingClock);
      if updated {
        AcceptedRateTargets(old(calculator.pricingCache), calculator.weights, rate, env.repricingClock);
        NotifyAffectedProducts(rate.material);
        if hasCallback {
          NotifiesEachCount(notifications[|old(notifications)|..], AffectedSkus(calculator.weights, rate.material), calculator.pricingCache);
        }
      }
    }

    /**
     * _handle_weights_update: an undecodable payload changes nothing; decoded
     * weights go to the calculator, and when they are accepted and the SKU
     * then has a snapshot (fresh or older), that snapshot is notified.
     */
    method HandleWeightsUpdate(key: Option<string>, data: Json, env: Env)
      requires Valid()
      modifies this`notifications, calculator
      ensures Valid()
      ensures calculator.rates == old(calculator.rates)
      ensures DecodeWeights(key, data, env).None? ==>
        calculator.weights == old(calculator.weights) && calculator.pricingCache == old(calculator.pricingCache)
        && notifications == old(notifications)
      ensures DecodeWeights(key, data, env).Some? && !WeightsAreNewer(old(calculator.weights), DecodeWeights(key, data, env).value) ==>
        calculator.weights == old(calculator.weights) && calculator.pricingCache == old(calculator.pricingCache)
        && notifications == old(notifications)
      ensures DecodeWeights(key, data, env).Some? && WeightsAreNewer(old(calculator.weights), DecodeWeights(key, data, env).value) ==>
        var w := DecodeWeights(key, data, env).value;
        && calculator.weights == old(calculator.weights)[w.sku := w]
        && (w.material in calculator.rates ==>
             calculator.pricingCache == old(calculator.pricingCache)[w.sku := ComputeSnapshot(w.sku, calculator.rates[w.material], w, env.clockMs, env.now)])
        && (w.material !in calculator.rates ==> calculator.pricingCache == old(calculator.pricingCache))
        && notifications == old(notifications) +
             (if hasCallback && w.sku in calculator.pricingCache then [Notification(w.sku, calculator.pricingCache[w.sku])] else [])
    {
      var decoded := DecodeWeights(key, data, env);
      if decoded.None? {
        return;
      }
      var w := decoded.value;
      var updated := calculator.UpdateWeights(w, env.clockMs, env.now);
      if updated {
        var snapshot := calculator.GetPricing(w.sku);
        if snapshot.Some? && hasCallback {
          notifications := notifications + [Notification(w.sku, snapshot.value)];
        }
      }
    }

    /**
     * _handle_pricing_snapshot: an undecodable payload, or a snapshot whose
     * version is not above the cached one for the key, changes nothing;
     * otherwise it is installed under the key as it is, without recomputation,
     * and notified.
     */
    method HandlePricingSnapshot(sku: string, data: Json, env: Env)
      requires Valid()
      modifies this`notifications, calculator
      ensures Valid()
      ensures calculator.rates == old(calculator.rates) && calculator.weights == old(calculator.weights)
      ensures var d := DecodeSnapshot(data, env);
        d.None? || (sku in old(calculator.pricingCache) && d.value.snapshotVersion <= old(calculator.pricingCache)[sku].snapshotVersion) ==>
        calculator.pricingCache == old(calculator.pricingCache) && notifications == old(notifications)
      ensures var d := DecodeSnapshot(data, env);
        d.Some? && (sku !in old(calculator.pricingCache) || d.value.snapshotVersion > old(calculator.pricingCache)[sku].snapshotVersion) ==>
        && calculator.pricingCache == old(calculator.pricingCache)[sku := d.value]
        && notifications == old(notifications) + (if hasCallback then [Notification(sku, d.value)] else [])
    {
      var decoded := DecodeSnapshot(data, env);
      if decoded.None? {
        return;
      }
      var snapshot := decoded.value;
      var current := calculator.GetPricing(sku);
      if current.Some? && snapshot.snapshotVersion <= current.value.snapshotVersion {
        return;
      }
      calculator.pricingCache := calculator.pricingCache[sku := snapshot];
      if hasCallback {
        notifications := notifications + [Notification(sku, snapshot)];
      }
    }

    /**
     * _process_message: dispatches on the topic; any other topic, and a
     * pricing.snapshot record without a key, changes nothing.
     */
    method ProcessMessage(msg: Message, env: Env)
      requires Valid()
      modifies this`notifications, calculator
      ensures Valid()
      ensures msg.topic !in {"rates", "weights", "pricing.snapshot"} ==>
        && calculator.rates == old(calculator.rates) && calculator.weights == old(calculator.weights)
        && calculator.pricingCache == old(calculator.pricingCache) && notifications == old(notifications)
      ensures msg.topic == "rates" ==> calculator.weights == old(calculator.weights)
      ensures msg.topic == "weights" ==> calculator.rates == old(calculator.rates)
      ensures msg.topic == "pricing.snapshot" ==>
        calculator.rates == old(calculator.rates) && calculator.weights == old(calculator.weights)
    {
      if msg.topic == "rates" {
        HandleRateUpdate(msg.key, msg.value, env);
      } else if msg.topic == "weights" {
        HandleWeightsUpdate(msg.key, msg.value, env);
      } else if msg.topic == "pricing.snapshot" {
        if msg.key.Some? {
          HandlePricingSnapshot(msg.key.value, msg.value, env);
        }
      }
    }
  }
}
