/**
 * The pricing calculator: a versioned table of rates (per material) and
 * product weights (per SKU), and the cache of pricing snapshots derived from
 * them.
 *
 * Clock readings are parameters: `clockMs` stands for int(time.time() * 1000),
 * the value stamped as snapshot_version, and `now` for datetime.utcnow().
 * Every _recalculate_pricing call reads the clock afresh, so a rate update,
 * which recalculates each SKU of its material in turn, is given one reading
 * per SKU.
 */
module PricingService {
  import opened Wrappers
  import opened PricingModels

  /** The validity window stamped on every snapshot the calculator computes. */
  const SnapshotTtlSec: int := 300

  /** _calculate_base_price: rate * weight_gram + labor_cost, clamped at zero. */
  function BasePrice(rate: Rate, w: ProductWeights): (p: real)
    ensures p >= 0.0
    ensures p >= rate.rate * w.weightGram + w.laborCost
    ensures p == 0.0 || p == rate.rate * w.weightGram + w.laborCost
  {
    var raw := rate.rate * w.weightGram + w.laborCost;
    if raw > 0.0 then raw else 0.0
  }

  /** The markup is a percentage applied on top of the base price. */
  function FinalPrice(base: real, markupPercent: real): real {
    base * (1.0 + markupPercent / 100.0)
  }

  /** A non-negative markup never lowers the base price, and a zero markup keeps it. */
  lemma FinalPriceBounds(base: real, markupPercent: real)
    requires base >= 0.0 && markupPercent >= 0.0
    ensures FinalPrice(base, markupPercent) >= base
    ensures markupPercent == 0.0 ==> FinalPrice(base, markupPercent) == base
  {
  }

  /** 75,500,000 VND/g for 5.5 g plus 500,000 labour is 415,750,000; with 15 % markup, 478,112,500. */
  lemma PriceExample(rate: Rate, w: ProductWeights)
    requires rate.rate == 75500000.0 && w.weightGram == 5.5 && w.laborCost == 500000.0 && w.markupPercent == 15.0
    ensures BasePrice(rate, w) == 415750000.0
    ensures FinalPrice(BasePrice(rate, w), w.markupPercent) == 478112500.0
  {
    assert rate.rate * w.weightGram == 415250000.0;
    assert 415750000.0 * (1.0 + 15.0 / 100.0) == 478112500.0;
  }

  /** One reading of the clock: the millisecond stamp and the current time. */
  datatype Reading = Reading(ms: int, now: real)

  /** The snapshot _recalculate_pricing builds for sku from rate and w. */
  function ComputeSnapshot(sku: string, rate: Rate, w: ProductWeights, clockMs: int, now: real): PricingSnapshot {
    var base := BasePrice(rate, w);
    PricingSnapshot(
      sku, base, FinalPrice(base, w.markupPercent), rate.rate,
      w.weightGram, w.stoneWeight, w.laborCost, w.markupPercent, w.material,
      clockMs, SnapshotTtlSec, now)
  }

  /**
   * A computed snapshot carries the rate it used, copies the weights' fields,
   * has the 300-second window, prices by the formula, and is fresh when made.
   */
  lemma SnapshotReflectsInputs(sku: string, rate: Rate, w: ProductWeights, clockMs: int, now: real)
    ensures var s := ComputeSnapshot(sku, rate, w, clockMs, now);
      && s.sku == sku && s.rateUsed == rate.rate
      && s.weightGram == w.weightGram && s.stoneWeight == w.stoneWeight
      && s.laborCost == w.laborCost && s.markupPercent == w.markupPercent && s.material == w.material
      && s.ttlSec == 300 && s.snapshotVersion == clockMs && s.asOf == now
      && s.basePrice >= 0.0 && s.finalPrice == s.basePrice * (1.0 + w.markupPercent / 100.0)
      && !IsExpired(s, now)
  {
  }

  /** A rate is admitted only when its version is above the stored one for its material. */
  predicate RateIsNewer(rates: map<Material, Rate>, r: Rate) {
    r.material !in rates || r.rateVersion > rates[r.material].rateVersion
  }

  /** Weights are admitted only when their version is above the stored one for their SKU. */
  predicate WeightsAreNewer(weights: map<string, ProductWeights>, w: ProductWeights) {
    w.sku !in weights || w.weightsVersion > weights[w.sku].weightsVersion
  }

  /** Once a rate is stored, the same rate (or any with a version not above it) is refused. */
  lemma StoredRateIsNotNewer(rates: map<Material, Rate>, r: Rate, r': Rate)
    requires r'.material == r.material && r'.rateVersion <= r.rateVersion
    ensures !RateIsNewer(rates[r.material := r], r')
  {
  }

  /** The SKUs whose stored weights are made of material m. */
  function AffectedSkus(weights: map<string, ProductWeights>, m: Material): (skus: set<string>)
    ensures skus <= weights.Keys
    ensures forall s | s in weights :: s in skus <==> weights[s].material == m
  {
    set s | s in weights && weights[s].material == m
  }

  /**
   * The cache after every SKU in skus has been recomputed against rate, each
   * with the clock reading clock(sku) taken when it was recomputed.
   */
  function Repriced(
    cache: map<string, PricingSnapshot>, weights: map<string, ProductWeights>,
    rate: Rate, skus: set<string>, clock: string -> Reading): (r: map<string, PricingSnapshot>)
    requires skus <= weights.Keys
  {
    map s | s in cache.Keys + skus :: if s in skus then ComputeSnapshot(s, rate, weights[s], clock(s).ms, clock(s).now) else cache[s]
  }

  /**
   * After repricing, exactly the repriced SKUs carry the new rate, each
   * stamped with its own clock reading; every other entry is untouched.
   */
  lemma RepricedEntries(
    cache: map<string, PricingSnapshot>, weights: map<string, ProductWeights>,
    rate: Rate, skus: set<string>, clock: string -> Reading)
    requires skus <= weights.Keys
    ensures var r := Repriced(cache, weights, rate, skus, clock);
      && r.Keys == cache.Keys + skus
      && (forall s | s in skus ::
            && r[s].rateUsed == rate.rate && r[s].sku == s
            && r[s].snapshotVersion == clock(s).ms && r[s].asOf == clock(s).now)
      && (forall s | s in cache && s !in skus :: r[s] == cache[s])
  {
  }

  /** One step of the repricing loop: repricing one more SKU is one more cache write. */
  lemma RepricedStep(
    cache: map<string, PricingSnapshot>, weights: map<string, ProductWeights>,
    rate: Rate, done: set<string>, sku: string, clock: string -> Reading)
    requires done <= weights.Keys && sku in weights
    ensures Repriced(cache, weights, rate, done + {sku}, clock)
      == Repriced(cache, weights, rate, done, clock)[sku := ComputeSnapshot(sku, rate, weights[sku], clock(sku).ms, clock(sku).now)]
  {
  }

  /** The entry get_current_rates reports for one material. */
  datatype RateInfo = RateInfo(rate: real, timestamp: real, rateVersion: int)

  /** The figures get_stats reports. */
  datatype Stats = Stats(
    ratesCount: nat,
    weightsCount: nat,
    pricingCacheCount: nat,
    validPricingCount: nat,
    materials: set<Material>,
    lastUpdate: Option<real>)

  /** A set of materials is one of the four subsets of {Gold, Silver}. */
  lemma AllMaterials(ms: set<Material>)
    ensures ms == (if Gold in ms then {Gold} else {}) + (if Silver in ms then {Silver} else {})
  {
    forall m | m in ms
      ensures m == Gold || m == Silver
    {
    }
  }

  /** The latest timestamp among the stored rates, or None when there are none. */
  function LatestTimestamp(rates: map<Material, Rate>): (t: Option<real>)
    ensures t.Some? <==> |rates| > 0
    ensures t.Some? ==> forall m | m in rates :: rates[m].timestamp <= t.value
    ensures t.Some? ==> exists m | m in rates :: rates[m].timestamp == t.value
  {
    AllMaterials(rates.Keys);
    if Gold in rates && Silver in rates then
      Some(if rates[Gold].timestamp >= rates[Silver].timestamp then rates[Gold].timestamp else rates[Silver].timestamp)
    else if Gold in rates then
      Some(rates[Gold].timestamp)
    else if Silver in rates then
      Some(rates[Silver].timestamp)
    else
      None
  }

  /** A subset is no larger than its superset. */
  lemma {:induction false} SubsetCard<T>(a: set<T>, b: set<T>)
    requires a <= b
    ensures |a| <= |b|
    decreases b
  {
    if a != {} {
      var x :| x in a;
      SubsetCard(a - {x}, b - {x});
    }
  }

  class PricingCalculator {
    /** material -> the latest admitted rate */
    var rates: map<Material, Rate>
    /** sku -> the latest admitted weights */
    var weights: map<string, ProductWeights>
    /** sku -> the current pricing snapshot */
    var pricingCache: map<string, PricingSnapshot>

    /** Every stored rate and weights record sits under its own key. */
    ghost predicate Valid()
      reads this
    {
      && (forall m | m in rates :: rates[m].material == m)
      && (forall s | s in weights :: weights[s].sku == s)
    }

    constructor ()
      ensures Valid()
      ensures rates == map[] && weights == map[] && pricingCache == map[]
    {
      rates := map[];
      weights := map[];
      pricingCache := map[];
    }

    /**
     * update_rate: a rate whose version is not above the stored one is refused
     * and nothing changes; otherwise it is stored and every SKU made of its
     * material is repriced against it, with the clock reading clock(sku)
     * that its own recalculation takes.
     */
    method UpdateRate(rate: Rate, clock: string -> Reading) returns (accepted: bool)
      requires Valid()
      modifies this
      ensures Valid()
      ensures accepted == RateIsNewer(old(rates), rate)
      ensures weights == old(weights)
      ensures !accepted ==> rates == old(rates) && pricingCache == old(pricingCache)
      ensures accepted ==> rates == old(rates)[rate.material := rate]
      ensures accepted ==> pricingCache == Repriced(old(pricingCache), weights, rate, AffectedSkus(weights, rate.material), clock)
    {
      var material := rate.material;
      if material in rates && rate.rateVersion <= rates[material].rateVersion {
        return false;
      }
      rates := rates[material := rate];
      var affected := AffectedSkus(weights, material);
      var todo := affected;
      while todo != {}
        invariant todo <= affected
        invariant Valid()
        invariant rates == old(rates)[material := rate] && weights == old(weights)
        invariant pricingCache == Repriced(old(pricingCache), weights, rate, affected - todo, clock)
        decreases todo
      {
        var sku :| sku in todo;
        RepricedStep(old(pricingCache), weights, rate, affected - todo, sku, clock);
        var _ := RecalculatePricing(sku, clock(sku).ms, clock(sku).now);
        assert (affected - todo) + {sku} == affected - (todo - {sku});
        todo := todo - {sku};
      }
      return true;
    }

    /**
     * update_weights: weights whose version is not above the stored one for
     * their SKU are refused and nothing changes; otherwise they are stored and
     * that SKU is repriced at once (when its material has a rate).
     */
    method UpdateWeights(w: ProductWeights, clockMs: int, now: real) returns (accepted: bool)
      requires Valid()
      modifies this
      ensures Valid()
      ensures accepted == WeightsAreNewer(old(weights), w)
      ensures rates == old(rates)
      ensures !accepted ==> weights == old(weights) && pricingCache == old(pricingCache)
      ensures accepted ==> weights == old(weights)[w.sku := w]
      ensures accepted && w.material in rates ==>
        pricingCache == old(pricingCache)[w.sku := ComputeSnapshot(w.sku, rates[w.material], w, clockMs, now)]
      ensures accepted && w.material !in rates ==> pricingCache == old(pricingCache)
    {
      var sku := w.sku;
      if sku in weights && w.weightsVersion <= weights[sku].weightsVersion {
        return false;
      }
      weights := weights[sku := w];
      var _ := RecalculatePricing(sku, clockMs, now);
      return true;
    }

    /**
     * _recalculate_pricing: None, with the cache untouched, when the SKU has no
     * weights or its material has no rate; otherwise the new snapshot, which
     * replaces any previous cache entry for the SKU.
     */
    method RecalculatePricing(sku: string, clockMs: int, now: real) returns (r: Option<PricingSnapshot>)
      requires Valid()
      modifies this`pricingCache
      ensures r.None? <==> sku !in weights || weights[sku].material !in rates
      ensures r.None? ==> pricingCache == old(pricingCache)
      ensures r.Some? ==> r.value == ComputeSnapshot(sku, rates[weights[sku].material], weights[sku], clockMs, now)
      ensures r.Some? ==> pricingCache == old(pricingCache)[sku := r.value]
    {
      if sku !in weights {
        return None;
      }
      var w := weights[sku];
      if w.material !in rates {
        return None;
      }
      var snapshot := ComputeSnapshot(sku, rates[w.material], w, clockMs, now);
      pricingCache := pricingCache[sku := snapshot];
      return Some(snapshot);
    }

    /** get_pricing: the cached snapshot for the SKU, if any. */
    function GetPricing(sku: string): (r: Option<PricingSnapshot>)
      reads this
      ensures r.Some? <==> sku in pricingCache
      ensures r.Some? ==> r.value == pricingCache[sku]
    {
      if sku in pricingCache then Some(pricingCache[sku]) else None
    }

    /**
     * get_all_pricing: the cache as an independent map value; later updates to
     * the cache do not show in it, and changing it does not touch the cache.
     */
    function GetAllPricing(): (all: map<string, PricingSnapshot>)
      reads this
      ensures all.Keys == pricingCache.Keys
      ensures forall s | s in all :: all[s] == pricingCache[s]
    {
      pricingCache
    }

    /** is_pricing_valid: a snapshot exists and has not expired. */
    predicate IsPricingValid(sku: string, now: real)
      reads this
    {
      sku in pricingCache && !IsExpired(pricingCache[sku], now)
    }

    /** The SKUs whose snapshot is valid at now. */
    function ValidSkus(now: real): (skus: set<string>)
      reads this
      ensures skus <= pricingCache.Keys
      ensures |skus| <= |pricingCache|
      ensures forall s | s in pricingCache :: s in skus <==> IsPricingValid(s, now)
    {
      var skus := set s | s in pricingCache && IsPricingValid(s, now);
      SubsetCard(skus, pricingCache.Keys);
      skus
    }

    /**
     * get_stats: the three counts are the sizes of the three maps, the valid
     * count is the number of unexpired snapshots (never more than the cache
     * size), the materials are the rates' keys, and the last update is the
     * latest rate timestamp.
     */
    function GetStats(now: real): (st: Stats)
      reads this
      ensures st.ratesCount == |rates| && st.weightsCount == |weights| && st.pricingCacheCount == |pricingCache|
      ensures st.validPricingCount == |ValidSkus(now)|
      ensures st.validPricingCount <= st.pricingCacheCount
      ensures st.materials == rates.Keys
      ensures st.lastUpdate.Some? <==> |rates| > 0
      ensures st.lastUpdate == LatestTimestamp(rates)
    {
      Stats(|rates|, |weights|, |pricingCache|, |ValidSkus(now)|, rates.Keys, LatestTimestamp(rates))
    }

    /** get_current_rates: one entry per stored material with its rate, timestamp and version. */
    method GetCurrentRates() returns (current: map<Material, RateInfo>)
      ensures current.Keys == rates.Keys
      ensures forall m | m in current :: current[m] == RateInfo(rates[m].rate, rates[m].timestamp, rates[m].rateVersion)
    {
      current := map[];
      var todo := rates.Keys;
      while todo != {}
        invariant todo <= rates.Keys
        invariant current.Keys == rates.Keys - todo
        invariant forall m | m in current :: current[m] == RateInfo(rates[m].rate, rates[m].timestamp, rates[m].rateVersion)
        decreases todo
      {
        var m :| m in todo;
        var r := rates[m];
        current := current[m := RateInfo(r.rate, r.timestamp, r.rateVersion)];
        todo := todo - {m};
      }
    }
  }

  /** Pricing scenario: gold at 75.5M, a 5.5 g ring, then a higher gold rate reprices the ring. */
  method RingScenario() returns (first: Option<PricingSnapshot>, second: Option<PricingSnapshot>)
    ensures first.Some? && first.value.finalPrice == 478112500.0
    ensures second.Some? && second.value.rateUsed == 80000000.0
  {
    var calculator := new PricingCalculator();
    var rateV1 := NewRate(Gold, 75500000.0, 1, 0.0);
    var ok := calculator.UpdateRate(rateV1, _ => Reading(1000, 0.0));
    var ring := ProductWeights("RING_001", Gold, 5.5, Some(0.0), 500000.0, 15.0, DefaultFormula, 1, 0.0);
    ok := calculator.UpdateWeights(ring, 2000, 1.0);
    first := calculator.GetPricing("RING_001");
    var rateV2 := NewRate(Gold, 80000000.0, 2, 2.0);
    ok := calculator.UpdateRate(rateV2, _ => Reading(3000, 2.0));
    assert "RING_001" in AffectedSkus(calculator.weights, Gold);
    second := calculator.GetPricing("RING_001");
  }
}
