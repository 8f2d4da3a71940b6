/**
 * The browser-side pricing client: a local cache of pricing entries fed by
 * the event stream, the validity test on that cache, the offline strategies
 * applied to an entry the server can no longer refresh, the reconnect
 * back-off, and the decision of getPricing between cache, server and
 * offline strategy.
 *
 * Time is Date.now() in milliseconds, a parameter of each call that reads it.
 * The REST fetch is a parameter too: what it answered, or that it failed.
 */
module PricingClient {
  import opened Wrappers
  import opened PricingService

  /**
   * A cached pricing entry: its final price, its as_of instant in
   * milliseconds (None when the entry has none, or an unparseable one, which
   * JavaScript turns into an invalid date), its ttl_sec (None when absent)
   * and the time it was cached.
   */
  datatype ClientPricing = ClientPricing(finalPrice: real, asOf: Option<real>, ttlSec: Option<real>, cachedAt: Option<real>)

  /** The object getPricing resolves to. */
  datatype ClientResult = ClientResult(
    success: bool,
    data: Option<ClientPricing>,
    error: Option<string>,
    strategyApplied: Option<string>,
    source: string,
    isExpired: bool)

  /** What the REST request did: the server's answer, or a failure with its message. */
  datatype FetchOutcome = Answered(result: ClientResult) | Unreachable(message: string)

  /** The validity window of an entry in milliseconds: ttl_sec, or 300 s when it is missing or zero. */
  function TtlMs(ttlSec: Option<real>): (ms: real)
    ensures ttlSec.None? || ttlSec.value == 0.0 ==> ms == 300000.0
    ensures ttlSec.Some? && ttlSec.value != 0.0 ==> ms == ttlSec.value * 1000.0
  {
    (if ttlSec.Some? && ttlSec.value != 0.0 then ttlSec.value else 300.0) * 1000.0
  }

  /** isPricingValid: there is an as_of, and at most ttl has passed since it (inclusive). */
  predicate IsPricingValid(p: ClientPricing, nowMs: real) {
    p.asOf.Some? && nowMs - p.asOf.value <= TtlMs(p.ttlSec)
  }

  /** An entry without as_of is never valid. */
  lemma NoAsOfIsInvalid(p: ClientPricing, nowMs: real)
    requires p.asOf.None?
    ensures !IsPricingValid(p, nowMs)
  {
  }

  /**
   * The client's test is the mirror of the server's: an entry aged exactly
   * its ttl is still valid here, and still unexpired on the server.
   */
  lemma ValidAtTtlBoundary(p: ClientPricing, t: real, ttlSec: real)
    requires p.asOf == Some(t) && p.ttlSec == Some(ttlSec) && ttlSec > 0.0
    ensures IsPricingValid(p, t + ttlSec * 1000.0)
    ensures !IsPricingValid(p, t + ttlSec * 1000.0 + 1.0)
  {
  }

  /** With the default window an entry is valid 300 s after as_of and invalid a millisecond later. */
  lemma DefaultWindow(p: ClientPricing, t: real)
    requires p.asOf == Some(t) && p.ttlSec.None?
    ensures IsPricingValid(p, t + 300000.0) && !IsPricingValid(p, t + 300001.0)
  {
  }

  /** The factor of the surcharge strategy. */
  const ClientSurchargeFactor: real := 1.05

  /**
   * applyOfflineStrategy: "deny" refuses with the entry attached, "surcharge"
   * answers with a raised copy, and "freeze" or any other string answers with
   * the entry as it is.
   */
  function ApplyOfflineStrategy(sku: string, pricing: ClientPricing, strategy: string): (r: ClientResult)
    ensures strategy == "deny" ==>
      r == ClientResult(false, Some(pricing), Some("Pricing data expired for " + sku), Some("deny"), "cache_expired", false)
    ensures strategy == "surcharge" ==>
      r.success && r.isExpired && r.strategyApplied == Some("surcharge") && r.source == "cache_surcharge"
      && r.data == Some(pricing.(finalPrice := pricing.finalPrice * ClientSurchargeFactor))
    ensures strategy != "deny" && strategy != "surcharge" ==>
      r == ClientResult(true, Some(pricing), None, Some("freeze"), "cache_freeze", true)
  {
    if strategy == "deny" then
      ClientResult(false, Some(pricing), Some("Pricing data expired for " + sku), Some("deny"), "cache_expired", false)
    else if strategy == "surcharge" then
      ClientResult(true, Some(pricing.(finalPrice := pricing.finalPrice * 1.05)), None, Some("surcharge"), "cache_surcharge", true)
    else
      ClientResult(true, Some(pricing), None, Some("freeze"), "cache_freeze", true)
  }

  /** Only "deny" fails; every other strategy answers with data. */
  lemma OnlyDenyFails(sku: string, pricing: ClientPricing, strategy: string)
    ensures !ApplyOfflineStrategy(sku, pricing, strategy).success <==> strategy == "deny"
    ensures ApplyOfflineStrategy(sku, pricing, strategy).data.Some?
  {
  }

  /** A surcharge touches the price alone: every other field of the copy is the entry's own. */
  lemma SurchargeChangesOnlyPrice(sku: string, pricing: ClientPricing)
    requires pricing.finalPrice > 0.0
    ensures var d := ApplyOfflineStrategy(sku, pricing, "surcharge").data.value;
      d.finalPrice > pricing.finalPrice
      && d.asOf == pricing.asOf && d.ttlSec == pricing.ttlSec && d.cachedAt == pricing.cachedAt
  {
  }

  /** 2 to the power n. */
  function Pow2(n: nat): (p: nat)
    ensures p >= 1
  {
    if n == 0 then 1 else 2 * Pow2(n - 1)
  }

  /** The longest wait between reconnects, in milliseconds. */
  const MaxReconnectDelayMs: nat := 30000

  /** scheduleReconnect's delay: the interval doubled per attempt so far, capped at 30 s. */
  function ReconnectDelay(interval: nat, attempts: nat): (delay: nat)
    ensures delay <= MaxReconnectDelayMs
    ensures delay <= interval * Pow2(attempts)
    ensures delay == MaxReconnectDelayMs || delay == interval * Pow2(attempts)
  {
    if interval * Pow2(attempts) < MaxReconnectDelayMs then interval * Pow2(attempts) else MaxReconnectDelayMs
  }

  /** 2^n grows with n. */
  lemma {:induction false} Pow2Monotone(m: nat, n: nat)
    requires m <= n
    ensures Pow2(m) <= Pow2(n)
    decreases n
  {
    if m < n {
      Pow2Monotone(m, n - 1);
    }
  }

  /** A later attempt never waits less than an earlier one. */
  lemma ReconnectDelayMonotone(interval: nat, m: nat, n: nat)
    requires m <= n
    ensures ReconnectDelay(interval, m) <= ReconnectDelay(interval, n)
  {
    Pow2Monotone(m, n);
    assert interval * Pow2(m) <= interval * Pow2(n) by {
      MulMonotone(interval, Pow2(m), Pow2(n));
    }
  }

  /** Multiplying by the same natural keeps the order. */
  lemma MulMonotone(a: nat, b: nat, c: nat)
    requires b <= c
    ensures a * b <= a * c
  {
  }

  /** With the default 5 s interval: 5 s, 10 s, 20 s, then 30 s from the fourth attempt on. */
  lemma DefaultBackoff(attempts: nat)
    ensures ReconnectDelay(5000, 0) == 5000 && ReconnectDelay(5000, 1) == 10000 && ReconnectDelay(5000, 2) == 20000
    ensures attempts >= 3 ==> ReconnectDelay(5000, attempts) == MaxReconnectDelayMs
  {
    if attempts >= 3 {
      Pow2Monotone(3, attempts);
      MulMonotone(5000, Pow2(3), Pow2(attempts));
    }
  }

  /** getConnectionStatus's answer. */
  datatype ConnectionStatus = ConnectionStatus(connected: bool, reconnectAttempts: nat, cacheSize: nat, validPricingCount: nat)

  class PricingClient {
    /** options.reconnectInterval, in milliseconds */
    const reconnectInterval: nat
    /** options.maxReconnectAttempts */
    const maxReconnectAttempts: nat
    /** sku -> the cached entry */
    var pricingCache: map<string, ClientPricing>
    /** Whether an event source is open. */
    var hasEventSource: bool
    var reconnectAttempts: nat
    var isConnected: bool

    /** new PricingClient(...): the given options over the defaults, an empty cache, and a connection opened at once. */
    constructor (reconnectInterval: Option<nat>, maxReconnectAttempts: Option<nat>)
      ensures this.reconnectInterval == reconnectInterval.GetOr(5000)
      ensures this.maxReconnectAttempts == maxReconnectAttempts.GetOr(10)
      ensures pricingCache == map[] && reconnectAttempts == 0 && !isConnected && hasEventSource
    {
      this.reconnectInterval := reconnectInterval.GetOr(5000);
      this.maxReconnectAttempts := maxReconnectAttempts.GetOr(10);
      pricingCache := map[];
      reconnectAttempts := 0;
      isConnected := false;
      hasEventSource := true;
    }

    /** connect: close any open event source and open a new one; the connection is up only once it opens. */
    method Connect()
      modifies this`hasEventSource, this`isConnected
      ensures hasEventSource
      ensures isConnected == (old(isConnected) && !old(hasEventSource))
    {
      if hasEventSource {
        Disconnect();
      }
      hasEventSource := true;
    }

    /** disconnect: close the event source; the client is no longer connected. */
    method Disconnect()
      modifies this`hasEventSource, this`isConnected
      ensures !hasEventSource && !isConnected
    {
      hasEventSource := false;
      isConnected := false;
    }

    /** onopen: connected, and the attempt count starts over. */
    method OnOpen()
      modifies this`isConnected, this`reconnectAttempts
      ensures isConnected && reconnectAttempts == 0
    {
      isConnected := true;
      reconnectAttempts := 0;
    }

    /** The delay scheduleReconnect would wait, or None once the attempts are used up. */
    function NextReconnect(): (delay: Option<nat>)
      reads this
      ensures delay.None? <==> reconnectAttempts >= maxReconnectAttempts
      ensures delay.Some? ==> delay.value == ReconnectDelay(reconnectInterval, reconnectAttempts) && delay.value <= MaxReconnectDelayMs
    {
      if reconnectAttempts >= maxReconnectAttempts then None else Some(ReconnectDelay(reconnectInterval, reconnectAttempts))
    }

    /**
     * onerror: the client is disconnected and scheduleReconnect runs; the
     * answer is the delay of the timer it sets, None when it gives up.
     */
    method OnError() returns (delay: Option<nat>)
      modifies this`isConnected
      ensures !isConnected
      ensures delay == NextReconnect()
    {
      isConnected := false;
      if reconnectAttempts >= maxReconnectAttempts {
        return None;
      }
      delay := Some(ReconnectDelay(reconnectInterval, reconnectAttempts));
    }

    /** The reconnect timer firing: one more attempt counted, then connect. */
    method ReconnectTimerFires()
      modifies this`reconnectAttempts, this`hasEventSource, this`isConnected
      ensures reconnectAttempts == old(reconnectAttempts) + 1
      ensures hasEventSource && isConnected == (old(isConnected) && !old(hasEventSource))
    {
      reconnectAttempts := reconnectAttempts + 1;
      Connect();
    }

    /** updatePricingCache: the entry is stored under its sku, stamped with the time it was cached. */
    method UpdatePricingCache(sku: string, pricing: ClientPricing, nowMs: real)
      modifies this`pricingCache
      ensures pricingCache == old(pricingCache)[sku := pricing.(cachedAt := Some(nowMs))]
    {
      pricingCache := pricingCache[sku := pricing.(cachedAt := Some(nowMs))];
    }

    /**
     * The 'initial' event: every entry of the server's pricing map is cached.
     * The script stamps each entry with its own Date.now(); one reading stands
     * for them all here, which loses nothing because cachedAt is never read.
     */
    method LoadInitial(pricing: map<string, ClientPricing>, nowMs: real)
      modifies this`pricingCache
      ensures pricingCache.Keys == old(pricingCache).Keys + pricing.Keys
      ensures forall sku | sku in pricing :: pricingCache[sku] == pricing[sku].(cachedAt := Some(nowMs))
      ensures forall sku | sku in old(pricingCache) && sku !in pricing :: pricingCache[sku] == old(pricingCache)[sku]
    {
      var todo := pricing.Keys;
      while todo != {}
        invariant todo <= pricing.Keys
        invariant pricingCache.Keys == old(pricingCache).Keys + (pricing.Keys - todo)
        invariant forall sku | sku in pricing && sku !in todo :: pricingCache[sku] == pricing[sku].(cachedAt := Some(nowMs))
        invariant forall sku | sku in old(pricingCache) && sku !in pricing.Keys - todo :: pricingCache[sku] == old(pricingCache)[sku]
        decreases todo
      {
        var sku :| sku in todo;
        UpdatePricingCache(sku, pricing[sku], nowMs);
        todo := todo - {sku};
      }
    }

    /** getAllPricing: every cached entry under its sku. */
    function GetAllPricing(): (all: map<string, ClientPricing>)
      reads this
      ensures all.Keys == pricingCache.Keys
      ensures forall sku | sku in all :: all[sku] == pricingCache[sku]
    {
      pricingCache
    }

    /**
     * getPricing: a valid cached entry is the answer and nothing is fetched;
     * otherwise the server's answer (cached when it succeeds), and when the
     * request fails the offline strategy on the stale entry, or an error when
     * there is none.
     */
    method GetPricing(sku: string, strategy: string, nowMs: real, fetch: FetchOutcome) returns (r: ClientResult)
      modifies this`pricingCache
      ensures r == ClientAnswer(old(pricingCache), sku, strategy, nowMs, fetch)
      ensures pricingCache == CacheAfterAnswer(old(pricingCache), sku, nowMs, fetch)
    {
      var cached := if sku in pricingCache then Some(pricingCache[sku]) else None;
      if cached.Some? && IsPricingValid(cached.value, nowMs) {
        return ClientResult(true, cached, None, None, "cache", false);
      }
      var failure: string;
      match fetch {
        case Answered(result) =>
          if !result.success {
            return result.(source := "api");
          }
          if result.data.None? {
            // updatePricingCache reads as_of of undefined: the TypeError lands in the catch.
            failure := UndefinedDataMessage;
          } else {
            UpdatePricingCache(sku, result.data.value, nowMs);
            return result.(source := "api");
          }
        case Unreachable(message) =>
          failure := message;
      }
      if cached.Some? {
        r := ApplyOfflineStrategy(sku, cached.value, strategy);
      } else {
        r := ClientResult(false, None, Some(failure), None, "error", false);
      }
    }

    /** clearCache: the cache is emptied. */
    method ClearCache()
      modifies this`pricingCache
      ensures pricingCache == map[]
    {
      pricingCache := map[];
    }

    /** The skus whose cached entry is valid now. */
    function ValidEntries(nowMs: real): (skus: set<string>)
      reads this
      ensures skus <= pricingCache.Keys
      ensures forall sku | sku in pricingCache :: sku in skus <==> IsPricingValid(pricingCache[sku], nowMs)
    {
      set sku | sku in pricingCache && IsPricingValid(pricingCache[sku], nowMs)
    }

    /**
     * getConnectionStatus: the connection flags, the cache size and how many
     * entries are valid (never more). The script's filter calls Date.now() once
     * per entry; one reading nowMs stands for those calls, so an entry that
     * expires while the filter runs is counted as of nowMs.
     */
    method GetConnectionStatus(nowMs: real) returns (status: ConnectionStatus)
      ensures status.connected == isConnected && status.reconnectAttempts == reconnectAttempts
      ensures status.cacheSize == |pricingCache|
      ensures status.validPricingCount == |ValidEntries(nowMs)|
      ensures status.validPricingCount <= status.cacheSize
    {
      var count := 0;
      ghost var counted: set<string> := {};
      var todo := pricingCache.Keys;
      while todo != {}
        invariant todo <= pricingCache.Keys
        invariant counted == ValidEntries(nowMs) - todo
        invariant count == |counted|
        decreases todo
      {
        var sku :| sku in todo;
        if IsPricingValid(pricingCache[sku], nowMs) {
          count := count + 1;
          counted := counted + {sku};
        }
        todo := todo - {sku};
      }
      assert counted == ValidEntries(nowMs);
      SubsetCard(ValidEntries(nowMs), pricingCache.Keys);
      status := ConnectionStatus(isConnected, reconnectAttempts, |pricingCache|, count);
    }
  }

  /**
   * The message of the TypeError updatePricingCache throws when a successful
   * answer has no data (V8's wording; other engines word it differently).
   */
  const UndefinedDataMessage: string := "Cannot read properties of undefined (reading 'as_of')"

  /** Whether the request's try block ends in the catch, and with which message. */
  function FetchFailure(fetch: FetchOutcome): Option<string> {
    match fetch
    case Unreachable(message) => Some(message)
    case Answered(result) => if result.success && result.data.None? then Some(UndefinedDataMessage) else None
  }

  /** What getPricing answers, given the cache before the call. */
  function ClientAnswer(cache: map<string, ClientPricing>, sku: string, strategy: string, nowMs: real, fetch: FetchOutcome): ClientResult {
    if sku in cache && IsPricingValid(cache[sku], nowMs) then ClientResult(true, Some(cache[sku]), None, None, "cache", false)
    else if FetchFailure(fetch).None? then fetch.result.(source := "api")
    else if sku in cache then ApplyOfflineStrategy(sku, cache[sku], strategy)
    else ClientResult(false, None, FetchFailure(fetch), None, "error", false)
  }

  /** The cache after getPricing: a successful server answer is stored, nothing else changes it. */
  function CacheAfterAnswer(cache: map<string, ClientPricing>, sku: string, nowMs: real, fetch: FetchOutcome): map<string, ClientPricing> {
    if sku in cache && IsPricingValid(cache[sku], nowMs) then cache
    else if fetch.Answered? && fetch.result.success && fetch.result.data.Some? then cache[sku := fetch.result.data.value.(cachedAt := Some(nowMs))]
    else cache
  }

  /** A valid cached entry is answered from the cache whatever the server would have said, and the cache stays as it was. */
  lemma ValidCacheNeedsNoFetch(cache: map<string, ClientPricing>, sku: string, strategy: string, nowMs: real, f1: FetchOutcome, f2: FetchOutcome)
    requires sku in cache && IsPricingValid(cache[sku], nowMs)
    ensures ClientAnswer(cache, sku, strategy, nowMs, f1) == ClientAnswer(cache, sku, strategy, nowMs, f2)
    ensures ClientAnswer(cache, sku, strategy, nowMs, f1).source == "cache" && ClientAnswer(cache, sku, strategy, nowMs, f1).data == Some(cache[sku])
    ensures CacheAfterAnswer(cache, sku, nowMs, f1) == cache
  {
  }

  /** After a failed request, an offline strategy is used exactly when there is a cached entry. */
  lemma OfflineOnlyWithCachedEntry(cache: map<string, ClientPricing>, sku: string, strategy: string, nowMs: real, message: string)
    requires !(sku in cache && IsPricingValid(cache[sku], nowMs))
    ensures var r := ClientAnswer(cache, sku, strategy, nowMs, Unreachable(message));
      (r.strategyApplied.Some? <==> sku in cache)
      && (sku !in cache ==> !r.success && r.source == "error" && r.error == Some(message))
    ensures CacheAfterAnswer(cache, sku, nowMs, Unreachable(message)) == cache
  {
  }

  /**
   * A successful answer without data makes updatePricingCache throw: the call
   * ends as if the server were unreachable, and the cache is unchanged.
   */
  lemma SuccessWithoutDataFallsBack(cache: map<string, ClientPricing>, sku: string, strategy: string, nowMs: real, result: ClientResult)
    requires result.success && result.data.None?
    ensures ClientAnswer(cache, sku, strategy, nowMs, Answered(result))
      == ClientAnswer(cache, sku, strategy, nowMs, Unreachable(UndefinedDataMessage))
    ensures CacheAfterAnswer(cache, sku, nowMs, Answered(result)) == cache
    ensures !(sku in cache && IsPricingValid(cache[sku], nowMs)) ==>
      ClientAnswer(cache, sku, strategy, nowMs, Answered(result)).source != "api"
  {
  }

  /** A successful server answer with data is cached, and the next call within its window is answered from the cache. */
  lemma AnswerIsCached(cache: map<string, ClientPricing>, sku: string, nowMs: real, result: ClientResult, later: real, strategy: string, fetch: FetchOutcome)
    requires !(sku in cache && IsPricingValid(cache[sku], nowMs))
    requires result.success && result.data.Some? && IsPricingValid(result.data.value, later)
    ensures var c := CacheAfterAnswer(cache, sku, nowMs, Answered(result));
      sku in c && c[sku] == result.data.value.(cachedAt := Some(nowMs))
      && ClientAnswer(c, sku, strategy, later, fetch).source == "cache"
  {
  }
}
