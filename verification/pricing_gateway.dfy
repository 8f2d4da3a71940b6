/**
 * The pricing gateway: the query route that answers from the calculator's
 * cache and applies an offline strategy to expired snapshots, and the
 * server-sent-event broadcaster that pushes every pricing update to the
 * connected subscribers.
 *
 * A subscriber queue is an id; what it has received so far is a sequence of
 * events. Whether a non-blocking enqueue succeeds is an oracle on queue ids.
 */
module PricingGateway {
  import opened Wrappers
  import opened PricingModels
  import opened PricingService
  import opened PricingConsumer

  /** The factor the SURCHARGE strategy applies to an expired price. */
  const SurchargeFactor: real := 1.05

  function NoDataError(sku: string): string {
    "No pricing data for SKU: " + sku
  }

  function ExpiredError(sku: string): string {
    "Pricing data expired for SKU: " + sku
  }

  /** snapshot with its final price raised by the surcharge. */
  function Surcharged(s: PricingSnapshot): (r: PricingSnapshot)
    ensures r.finalPrice == s.finalPrice * SurchargeFactor
    ensures r.(finalPrice := s.finalPrice) == s
  {
    s.(finalPrice := s.finalPrice * SurchargeFactor)
  }

  /**
   * The response of the get_pricing route, given the snapshot the cache holds
   * for sku (if any), the requested strategy and the current time.
   */
  function QueryPricing(cached: Option<PricingSnapshot>, sku: string, strategy: OfflineStrategy, now: real): (r: PricingResponse)
    ensures cached.None? ==>
      && !r.success && r.data.None? && r.error == Some(NoDataError(sku))
      && !r.isCached && !r.isExpired && r.strategyApplied.None?
    ensures cached.Some? && !IsExpired(cached.value, now) ==>
      && r.success && r.isCached && !r.isExpired && r.strategyApplied.None?
      && r.data == cached && r.error.None?
    ensures cached.Some? && IsExpired(cached.value, now) && strategy == Deny ==>
      && !r.success && r.isExpired && r.data.None? && r.error == Some(ExpiredError(sku))
      && !r.isCached && r.strategyApplied.None?
    ensures cached.Some? && IsExpired(cached.value, now) && strategy == Surcharge ==>
      && r.success && r.isCached && r.isExpired && r.strategyApplied == Some(Surcharge)
      && r.data.Some? && r.data.value.finalPrice == cached.value.finalPrice * SurchargeFactor
      && r.data.value.(finalPrice := cached.value.finalPrice) == cached.value
    ensures cached.Some? && IsExpired(cached.value, now) && strategy == Freeze ==>
      && r.success && r.isCached && r.isExpired && r.strategyApplied == Some(Freeze)
      && r.data == cached
    ensures r.success <==> cached.Some? && (!IsExpired(cached.value, now) || strategy != Deny)
  {
    if cached.None? then
      NewResponse(false).(error := Some(NoDataError(sku)))
    else
      var snapshot := cached.value;
      var expired := IsExpired(snapshot, now);
      if expired && strategy == Deny then
        NewResponse(false).(error := Some(ExpiredError(sku)), isExpired := true)
      else if expired && strategy == Surcharge then
        PricingResponse(true, Some(Surcharged(snapshot)), None, true, true, Some(Surcharge))
      else if expired then
        PricingResponse(true, Some(snapshot), None, true, true, Some(Freeze))
      else
        PricingResponse(true, Some(snapshot), None, true, false, None)
  }

  /**
   * The cache after the get_pricing route as written: the SURCHARGE branch
   * multiplies final_price on the object the cache holds, so the raised price
   * stays in the cache.
   */
  function CacheAfterQuery(cache: map<string, PricingSnapshot>, sku: string, strategy: OfflineStrategy, now: real): (c: map<string, PricingSnapshot>)
    ensures c.Keys == cache.Keys
    ensures forall s | s in cache && s != sku :: c[s] == cache[s]
    ensures sku in cache && IsExpired(cache[sku], now) && strategy == Surcharge ==> c[sku] == Surcharged(cache[sku])
    ensures !(sku in cache && IsExpired(cache[sku], now) && strategy == Surcharge) ==> c == cache
  {
    if sku in cache && IsExpired(cache[sku], now) && strategy == Surcharge then
      cache[sku := Surcharged(cache[sku])]
    else
      cache
  }

  /**
   * Two SURCHARGE queries on the same expired snapshot, as written: the
   * second answers with the price raised twice, not once.
   */
  lemma SurchargeCompounds(cache: map<string, PricingSnapshot>, sku: string, now: real)
    requires sku in cache && IsExpired(cache[sku], now) && cache[sku].finalPrice > 0.0
    ensures var first := QueryPricing(Some(cache[sku]), sku, Surcharge, now);
      var after := CacheAfterQuery(cache, sku, Surcharge, now);
      var second := QueryPricing(Some(after[sku]), sku, Surcharge, now);
      && first.data.value.finalPrice == cache[sku].finalPrice * SurchargeFactor
      && second.data.value.finalPrice == cache[sku].finalPrice * SurchargeFactor * SurchargeFactor
      && second.data.value.finalPrice != first.data.value.finalPrice
  {
    var after := CacheAfterQuery(cache, sku, Surcharge, now);
    assert IsExpired(after[sku], now);
    var p := cache[sku].finalPrice;
    assert p * SurchargeFactor * SurchargeFactor - p * SurchargeFactor == p * SurchargeFactor * 0.05;
  }

  /** One server-sent event: a pricing update for one SKU. */
  datatype Event = PricingUpdate(sku: string, pricing: PricingSnapshot, timestamp: real)

  /** The queues after ev is offered to each of targets; only successful enqueues receive it. */
  function Delivered(queues: map<nat, seq<Event>>, targets: set<nat>, ev: Event, canEnqueue: nat -> bool): (r: map<nat, seq<Event>>)
    ensures r.Keys == queues.Keys
    ensures forall q | q in queues :: r[q] == if q in targets && canEnqueue(q) then queues[q] + [ev] else queues[q]
  {
    map q | q in queues :: if q in targets && canEnqueue(q) then queues[q] + [ev] else queues[q]
  }

  /** The subscribers whose enqueue fails. */
  function Failed(connections: set<nat>, canEnqueue: nat -> bool): (f: set<nat>)
    ensures f <= connections
    ensures forall q | q in connections :: q in f <==> !canEnqueue(q)
  {
    set q | q in connections && !canEnqueue(q)
  }

  /** Offering the event to one more subscriber updates that subscriber's queue alone. */
  lemma DeliveredStep(queues: map<nat, seq<Event>>, done: set<nat>, q: nat, ev: Event, canEnqueue: nat -> bool)
    requires q in queues && q !in done
    ensures Delivered(queues, done + {q}, ev, canEnqueue) ==
      if canEnqueue(q) then Delivered(queues, done, ev, canEnqueue)[q := queues[q] + [ev]]
      else Delivered(queues, done, ev, canEnqueue)
  {
  }

  /** One more subscriber offered the event adds it to the failures exactly when its enqueue fails. */
  lemma FailedStep(done: set<nat>, q: nat, canEnqueue: nat -> bool)
    ensures Failed(done + {q}, canEnqueue) == if canEnqueue(q) then Failed(done, canEnqueue) else Failed(done, canEnqueue) + {q}
  {
  }

  /** When every enqueue succeeds (unbounded queues), a broadcast removes nobody. */
  lemma NoFailureKeepsAll(connections: set<nat>, canEnqueue: nat -> bool)
    requires forall q | q in connections :: canEnqueue(q)
    ensures connections - Failed(connections, canEnqueue) == connections
  {
  }

  // ---------------------------------------------------------------------------
  // The text of a pricing event

  /** The Python values the event payload is built from, as json.dumps sees them. */
  datatype PyValue =
    | PyNone
    | PyNum(x: real)
    | PyStr(text: string)
    | PyDatetime(t: real)
    | PyDict(items: seq<(string, PyValue)>)

  /** json.dumps succeeds iff no datetime occurs anywhere in the value; a datetime raises TypeError. */
  predicate Serializable(v: PyValue)
    decreases v
  {
    match v
    case PyDatetime(_) => false
    case PyDict(items) => forall i | 0 <= i < |items| :: Serializable(items[i].1)
    case _ => true
  }

  function OptNum(x: Option<real>): PyValue {
    if x.Some? then PyNum(x.value) else PyNone
  }

  /** The snapshot's fields with as_of given as asOf (MaterialType is a str enum, so it encodes as its value). */
  function SnapshotFields(s: PricingSnapshot, asOf: PyValue): PyValue {
    PyDict([
      ("sku", PyStr(s.sku)), ("base_price", PyNum(s.basePrice)), ("final_price", PyNum(s.finalPrice)),
      ("rate_used", PyNum(s.rateUsed)), ("weight_gram", PyNum(s.weightGram)),
      ("stone_weight", OptNum(s.stoneWeight)), ("labor_cost", PyNum(s.laborCost)),
      ("markup_percent", PyNum(s.markupPercent)), ("material", PyStr(s.material.Value())),
      ("snapshot_version", PyNum(s.snapshotVersion as real)), ("ttl_sec", PyNum(s.ttlSec as real)),
      ("as_of", asOf)])
  }

  /** snapshot.dict(): the record's fields, as_of still a datetime. */
  function SnapshotDict(s: PricingSnapshot): PyValue {
    SnapshotFields(s, PyDatetime(s.asOf))
  }

  /** json.loads(snapshot.json()): the same fields, as_of already rendered by the record's encoder. */
  function SnapshotJsonDict(s: PricingSnapshot, asOfText: string): PyValue {
    SnapshotFields(s, PyStr(asOfText))
  }

  /** The object json.dumps is applied to for a pricing_update event. */
  function EventPayload(sku: string, pricing: PyValue, timestampText: string): PyValue {
    PyDict([("type", PyStr("pricing_update")), ("sku", PyStr(sku)), ("pricing", pricing), ("timestamp", PyStr(timestampText))])
  }

  /** As written, the event text can never be built: every snapshot's dict holds its as_of datetime. */
  lemma DictPayloadNeverSerializes(sku: string, s: PricingSnapshot, timestampText: string)
    ensures !Serializable(EventPayload(sku, SnapshotDict(s), timestampText))
  {
    var pricing := SnapshotDict(s);
    var payload := EventPayload(sku, pricing, timestampText);
    assert !Serializable(pricing.items[11].1);
    assert !Serializable(pricing);
    assert !Serializable(payload.items[2].1);
  }

  /** Through the record's own JSON encoding, as the application's broadcaster does, the text is always built. */
  lemma JsonPayloadSerializes(sku: string, s: PricingSnapshot, asOfText: string, timestampText: string)
    ensures Serializable(EventPayload(sku, SnapshotJsonDict(s, asOfText), timestampText))
  {
    var pricing := SnapshotJsonDict(s, asOfText);
    assert Serializable(pricing) by {
      forall i | 0 <= i < |pricing.items| ensures Serializable(pricing.items[i].1) {
        if i == 5 {
          assert pricing.items[i].1 == OptNum(s.stoneWeight);
        }
      }
    }
    var payload := EventPayload(sku, pricing, timestampText);
    forall i | 0 <= i < |payload.items| ensures Serializable(payload.items[i].1) {
      if i == 2 {
        assert payload.items[i].1 == pricing;
      }
    }
  }

  /** The gateway's state: the consumer (and through it the calculator) and the SSE subscribers. */
  class Gateway {
    const consumer: KafkaPricingConsumer
    /** sse_connections: the queues of the open event streams. */
    var sseConnections: set<nat>
    /** Everything each queue ever created has received, oldest first. */
    var queues: map<nat, seq<Event>>
    /** The id the next new queue gets. */
    var nextQueue: nat

    ghost predicate Valid()
      reads this, consumer, consumer.calculator
    {
      && consumer.Valid()
      && sseConnections <= queues.Keys
      && forall q | q in queues :: q < nextQueue
    }

    constructor (consumer: KafkaPricingConsumer)
      requires consumer.Valid()
      ensures Valid()
      ensures this.consumer == consumer && sseConnections == {} && queues == map[]
    {
      this.consumer := consumer;
      sseConnections := {};
      queues := map[];
      nextQueue := 0;
    }

    /** Opening an event stream: a new, empty queue joins the subscribers. */
    method Subscribe() returns (q: nat)
      requires Valid()
      modifies this
      ensures Valid()
      ensures q !in old(queues)
      ensures sseConnections == old(sseConnections) + {q}
      ensures queues == old(queues)[q := []]
    {
      q := nextQueue;
      nextQueue := nextQueue + 1;
      sseConnections := sseConnections + {q};
      queues := queues[q := []];
    }

    /** Closing an event stream: its queue is discarded; discarding an absent queue changes nothing. */
    method Unsubscribe(q: nat)
      requires Valid()
      modifies this`sseConnections
      ensures Valid()
      ensures sseConnections == old(sseConnections) - {q}
      ensures q !in old(sseConnections) ==> sseConnections == old(sseConnections)
    {
      sseConnections := sseConnections - {q};
    }

    /**
     * _on_pricing_update as written: the event text is json.dumps over
     * snapshot.dict(), which raises TypeError on the as_of datetime before any
     * queue is offered the event; the exception propagates to the caller.
     * Were the payload serialisable, the broadcast would follow.
     */
    method OnPricingUpdateAsWritten(sku: string, snapshot: PricingSnapshot, now: real, timestampText: string, canEnqueue: nat -> bool)
      returns (raised: bool)
      requires Valid()
      modifies this`sseConnections, this`queues
      ensures Valid()
      ensures raised <==> !Serializable(EventPayload(sku, SnapshotDict(snapshot), timestampText))
      ensures raised ==> sseConnections == old(sseConnections) && queues == old(queues)
      ensures !raised ==> sseConnections == old(sseConnections) - Failed(old(sseConnections), canEnqueue)
      ensures !raised ==> queues == Delivered(old(queues), old(sseConnections), PricingUpdate(sku, snapshot, now), canEnqueue)
    {
      if !Serializable(EventPayload(sku, SnapshotDict(snapshot), timestampText)) {
        return true;
      }
      OnPricingUpdate(sku, snapshot, now, canEnqueue);
      return false;
    }

    /**
     * _on_pricing_update with the snapshot serialised through its own JSON
     * encoding (the intended behaviour, as the application's broadcaster
     * does): the event is offered to every subscriber; those whose enqueue
     * fails are removed after the pass, and every survivor has received the
     * event.
     */
    method OnPricingUpdate(sku: string, snapshot: PricingSnapshot, now: real, canEnqueue: nat -> bool)
      requires Valid()
      modifies this`sseConnections, this`queues
      ensures Valid()
      ensures sseConnections == old(sseConnections) - Failed(old(sseConnections), canEnqueue)
      ensures queues == Delivered(old(queues), old(sseConnections), PricingUpdate(sku, snapshot, now), canEnqueue)
      ensures forall q | q in sseConnections :: queues[q] == old(queues)[q] + [PricingUpdate(sku, snapshot, now)]
    {
      var ev := PricingUpdate(sku, snapshot, now);
      var disconnected: set<nat> := {};
      var todo := sseConnections;
      ghost var done: set<nat> := {};
      while todo != {}
        invariant sseConnections == old(sseConnections) && queues.Keys == old(queues).Keys
        invariant todo + done == sseConnections && todo !! done
        invariant disconnected == Failed(done, canEnqueue)
        invariant queues == Delivered(old(queues), done, ev, canEnqueue)
        decreases todo
      {
        var q :| q in todo;
        DeliveredStep(old(queues), done, q, ev, canEnqueue);
        FailedStep(done, q, canEnqueue);
        if canEnqueue(q) {
          queues := queues[q := queues[q] + [ev]];
        } else {
          disconnected := disconnected + {q};
        }
        todo := todo - {q};
        done := done + {q};
      }
      sseConnections := sseConnections - disconnected;
    }

    /**
     * The get_pricing route as written: the answer is QueryPricing on the
     * cached snapshot, and an expired SURCHARGE query leaves the raised price
     * in the cache.
     */
    method GetPricing(sku: string, strategy: OfflineStrategy, now: real) returns (resp: PricingResponse)
      requires Valid()
      modifies consumer.calculator`pricingCache
      ensures Valid()
      ensures resp == QueryPricing(old(consumer.calculator.GetPricing(sku)), sku, strategy, now)
      ensures consumer.calculator.pricingCache == CacheAfterQuery(old(consumer.calculator.pricingCache), sku, strategy, now)
    {
      var calculator := consumer.calculator;
      var snapshot := calculator.GetPricing(sku);
      if snapshot.None? {
        return NewResponse(false).(error := Some(NoDataError(sku)));
      }
      var s := snapshot.value;
      var isExpired := IsExpired(s, now);
      var strategyApplied: Option<OfflineStrategy> := None;
      if isExpired {
        if strategy == Deny {
          return NewResponse(false).(error := Some(ExpiredError(sku)), isExpired := true);
        } else if strategy == Surcharge {
          s := Surcharged(s);
          calculator.pricingCache := calculator.pricingCache[sku := s];
          strategyApplied := Some(Surcharge);
        } else {
          strategyApplied := Some(Freeze);
        }
      }
      resp := PricingResponse(true, Some(s), None, true, isExpired, strategyApplied);
    }

    /** The get_pricing route with the surcharge applied to the answer only; the cache is never written. */
    method QueryPricingOnly(sku: string, strategy: OfflineStrategy, now: real) returns (resp: PricingResponse)
      ensures resp == QueryPricing(consumer.calculator.GetPricing(sku), sku, strategy, now)
    {
      resp := QueryPricing(consumer.calculator.GetPricing(sku), sku, strategy, now);
    }

    /** The get_all_pricing route: every cached snapshot, with their count. */
    function GetAllPricing(): (r: (map<string, PricingSnapshot>, nat))
      reads this, consumer, consumer.calculator
      ensures r.0 == consumer.calculator.pricingCache
      ensures r.1 == |r.0|
    {
      var all := consumer.calculator.GetAllPricing();
      (all, |all|)
    }
  }
}
