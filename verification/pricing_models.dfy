/**
 * Records of the real-time pricing system: the material a rate quotes, the
 * offline strategy a query may ask for, the versioned rate and product
 * weights, the computed pricing snapshot with its expiry rule, and the
 * response shape of a pricing query.
 *
 * Instants are seconds since the epoch as `real` (the source uses UTC
 * datetimes); money and weights are `real` (the source uses floats).
 */
module PricingModels {
  import opened Wrappers

  /** MaterialType: a rate quotes gold or silver, and nothing else. */
  datatype Material = Gold | Silver {
    /** The enum's string value. */
    function Value(): string {
      match this
      case Gold => "gold"
      case Silver => "silver"
    }
  }

  /** MaterialType(s): looking an enum member up by its value. */
  function ParseMaterial(s: string): (r: Option<Material>)
    ensures r.Some? <==> s == "gold" || s == "silver"
    ensures r.Some? ==> r.value.Value() == s
  {
    if s == "gold" then Some(Gold) else if s == "silver" then Some(Silver) else None
  }

  /** Parsing a material's own value gives that material back. */
  lemma MaterialRoundTrip(m: Material)
    ensures ParseMaterial(m.Value()) == Some(m)
  {
  }

  /** What a query does with an expired snapshot. */
  datatype OfflineStrategy = Freeze | Surcharge | Deny {
    function Value(): string {
      match this
      case Freeze => "freeze"
      case Surcharge => "surcharge"
      case Deny => "deny"
    }
  }

  function ParseStrategy(s: string): (r: Option<OfflineStrategy>)
    ensures r.Some? <==> s == "freeze" || s == "surcharge" || s == "deny"
    ensures r.Some? ==> r.value.Value() == s
  {
    if s == "freeze" then Some(Freeze)
    else if s == "surcharge" then Some(Surcharge)
    else if s == "deny" then Some(Deny)
    else None
  }

  /** A price per gram for one material, ordered by its producer-assigned version. */
  datatype Rate = Rate(material: Material, rate: real, currency: string, rateVersion: int, timestamp: real)

  /** Rate(...) with the default currency. */
  function NewRate(material: Material, rate: real, rateVersion: int, timestamp: real): (r: Rate)
    ensures r.currency == "VND"
    ensures r.material == material && r.rate == rate && r.rateVersion == rateVersion && r.timestamp == timestamp
  {
    Rate(material, rate, "VND", rateVersion, timestamp)
  }

  const DefaultFormula: string := "rate * weight_gram + labor_cost"

  /** The physical and cost composition of one SKU; stone weight may be absent (None). */
  datatype ProductWeights = ProductWeights(
    sku: string,
    material: Material,
    weightGram: real,
    stoneWeight: Option<real>,
    laborCost: real,
    markupPercent: real,
    formula: string,
    weightsVersion: int,
    timestamp: real)

  /** ProductWeights(...) given only its required fields: the optional ones take their defaults. */
  function NewWeights(sku: string, material: Material, weightGram: real, weightsVersion: int, timestamp: real): (w: ProductWeights)
    ensures w.stoneWeight == Some(0.0) && w.laborCost == 0.0 && w.markupPercent == 0.0
    ensures w.formula == DefaultFormula
    ensures w.sku == sku && w.material == material && w.weightGram == weightGram
    ensures w.weightsVersion == weightsVersion && w.timestamp == timestamp
  {
    ProductWeights(sku, material, weightGram, Some(0.0), 0.0, 0.0, DefaultFormula, weightsVersion, timestamp)
  }

  /** The default validity window of a snapshot, in seconds. */
  const DefaultTtlSec: int := 300

  /** A computed price for one SKU, with the inputs it was computed from and its expiry data. */
  datatype PricingSnapshot = PricingSnapshot(
    sku: string,
    basePrice: real,
    finalPrice: real,
    rateUsed: real,
    weightGram: real,
    stoneWeight: Option<real>,
    laborCost: real,
    markupPercent: real,
    material: Material,
    snapshotVersion: int,
    ttlSec: int,
    asOf: real)

  /** is_expired: strictly more than ttl_sec seconds have passed since as_of. */
  predicate IsExpired(s: PricingSnapshot, now: real) {
    now - s.asOf > s.ttlSec as real
  }

  /** A snapshot aged exactly ttl_sec is still fresh; one aged a moment more is expired. */
  lemma ExpiryBoundary(s: PricingSnapshot, eps: real)
    requires eps > 0.0
    ensures !IsExpired(s, s.asOf + s.ttlSec as real)
    ensures IsExpired(s, s.asOf + s.ttlSec as real + eps)
  {
  }

  /** Once expired, a snapshot stays expired as time goes on. */
  lemma ExpiryIsMonotone(s: PricingSnapshot, t1: real, t2: real)
    requires t1 <= t2 && IsExpired(s, t1)
    ensures IsExpired(s, t2)
  {
  }

  /** With the default window: fresh at T+299 s, expired at T+301 s. */
  lemma DefaultTtlExample(s: PricingSnapshot, t: real)
    requires s.ttlSec == DefaultTtlSec && s.asOf == t
    ensures !IsExpired(s, t + 299.0) && IsExpired(s, t + 301.0)
  {
  }

  /** The answer of a pricing query. */
  datatype PricingResponse = PricingResponse(
    success: bool,
    data: Option<PricingSnapshot>,
    error: Option<string>,
    isCached: bool,
    isExpired: bool,
    strategyApplied: Option<OfflineStrategy>)

  /** PricingResponse(success=...) with every other field at its default. */
  function NewResponse(success: bool): (r: PricingResponse)
    ensures r.success == success
    ensures r.data.None? && r.error.None? && !r.isCached && !r.isExpired && r.strategyApplied.None?
  {
    PricingResponse(success, None, None, false, false, None)
  }
}
