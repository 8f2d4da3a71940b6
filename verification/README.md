# MaMau real-time pricing and helpers, modelled in Dafny

MaMau is a gold-jewellery back office built on Odoo. Most of it forwards CRUD requests to Odoo over XML-RPC. Its one stateful piece of logic is an in-memory real-time pricing table:

- Material rates (gold, silver) and per-SKU product weights arrive as Kafka messages.
- A `PricingCalculator` keeps the newest version of each rate and set of weights. It recomputes a `PricingSnapshot` for every affected SKU: `max(0, rate·weight + labour)`, then the markup on top.
- Subscribers are notified of each new snapshot.
- A FastAPI gateway answers price queries. An expired snapshot is handled by the caller's offline strategy: FREEZE, SURCHARGE (+5 %) or DENY.
- The gateway pushes updates to Server-Sent-Events subscribers.
- A browser client keeps its own cache, with its own validity window and a capped exponential reconnect backoff.

Around this sit small pure helpers in the Python apps and the front-end scripts:

- product-code generation (server and browser);
- the `attr_<id>` query filters and the AND filter over gold attributes;
- selection-option parsing, field-type validation and the boolean filter;
- the `gold_` attribute naming, the filterable-attribute list and the gold-attribute summary;
- the update-payload cleaning and the gold values written to Odoo;
- the two pagination bars and the template selection set.

The model has one Dafny module per source file, plus four shared ones:

| file | module | models |
|---|---|---|
| pricing_models.dfy | PricingModels | src/models/pricing.py: enums, records, defaults, `is_expired` |
| pricing_service.dfy | PricingService | src/services/pricing_service.py: class `PricingCalculator` with its three maps |
| pricing_consumer.dfy | PricingConsumer | kafka_pricing_consumer.py: message decoding, the handlers, the notification log |
| pricing_gateway.dfy | PricingGateway | pricing_gateway.py: the query with offline strategies, the SSE subscriber set and broadcast |
| app_fastapi.dfy | AppFastapi | app_fastapi.py: `generate_attribute_code`, product-code assembly, `update_rate_from_ui`, its own broadcast and query |
| pricing_client.dfy | PricingClient | static/js/pricing_client.js: class `PricingClient` |
| app_py.dfy | AppPy | app.py: the gold-attribute filter, the summary, update cleaning and messages |
| main_app.dfy | MainApp | main_app.py: `format_datetime`, options, `attr_` filters, field types, boolean filter, `gold_` naming, filterable list, gold values |
| products_js.dfy | ProductsJs | static/js/products.js: `generateAttributeCode`, `updateProductCode`, the save check |
| gold_management.dfy | GoldManagement | static/js/gold_management.js: pagination, field-type labels, gold value collection |
| product_templates.dfy | ProductTemplates | static/js/product_templates.js: class `TemplatesPage` (page and selection state) and its bar |
| pagination.dfy | Pagination | the page arithmetic and bar pieces both scripts share |
| text.dfy | Text | Python and JavaScript string operations the sources rely on |
| dicts.dfy | Dicts | a dictionary built by assignments in order, later ones winning |
| wrappers.dfy | Wrappers | Option and Result |

Code that updates state in place is modelled by classes whose fields are the source's dictionaries, sets and counters:

- `PricingCalculator`
- `KafkaPricingConsumer`
- `Gateway`
- `AppState`, the globals of app_fastapi.py
- `PricingClient`
- `TemplatesPage`

Their methods have `modifies` clauses and state the whole new state. Loops in the source are `while` loops with invariants, each proved against a specification function. The properties are stated on those functions as lemmas.

The model follows the code wherever the code and its documentation disagree:

- **Recomputation on a new rate.** `update_rate` recomputes the affected SKUs itself.
- **SURCHARGE writes into the cache.** SURCHARGE multiplies the price of the cached snapshot object, so the raised price stays in the cache.
- **The documented price example.** The example computes 415,750,000 × 1.15 as 477,962,500. The formula gives 478,112,500, and `PricingService.PriceExample` proves that value.

Every outside input is a parameter:

- Time is a parameter: the server clock in seconds, the millisecond clock used as `snapshot_version`, and the browser's `Date.now()`. Each `_recalculate_pricing` call reads the clock afresh, so a rate update, which recalculates every SKU of its material, takes one reading per SKU.
- ISO-8601 parsing and the record library's datetime coercion are oracle functions in `PricingConsumer.Env`.
- Odoo lookups are given outcomes: what a chain of searches ends in, and whether a write succeeded.
- Each SSE subscriber is an id plus an oracle saying whether its non-blocking enqueue succeeds.
- The browser's `fetch` is a given outcome: an answer, or a failure with its message.
- Prices are `real`.

## Model

| member | source | states |
|---|---|---|
| PricingModels.ParseMaterial | src/models/pricing.py:9-11 | MaterialType accepts exactly "gold" and "silver", and the member found has the looked-up value |
| PricingModels.MaterialRoundTrip | src/models/pricing.py:9-11 | looking a material up by its own value gives that material back |
| PricingModels.ParseStrategy | src/models/pricing.py:13-16 | OfflineStrategy accepts exactly "freeze", "surcharge" and "deny", and the member found has the looked-up value |
| PricingModels.NewRate | src/models/pricing.py:18-24 | a rate built from its required fields has currency "VND" and keeps every given field |
| PricingModels.NewWeights | src/models/pricing.py:31-41 | weights built from their required fields get stone weight 0, labour cost 0, markup 0 and the default formula text, and keep every given field |
| PricingModels.ExpiryBoundary | src/models/pricing.py:68-72 | a snapshot aged exactly ttl_sec is not expired; any older one is; `IsExpired` is `now - as_of > ttl_sec` |
| PricingModels.ExpiryIsMonotone | src/models/pricing.py:68-72 | once expired, a snapshot stays expired at every later instant |
| PricingModels.DefaultTtlExample | src/models/pricing.py:60-72 | with the default ttl_sec of 300, a snapshot is fresh 299 s after as_of and expired 301 s after |
| PricingModels.NewResponse | src/models/pricing.py:80-87 | a response carries the given success flag, no data, no error, not cached, not expired and no strategy |
| PricingService.BasePrice | src/services/pricing_service.py:99-108 | the base price is never negative; it is rate × weight + labour when that is non-negative and 0 otherwise |
| PricingService.FinalPriceBounds | src/services/pricing_service.py:76 | a non-negative markup never lowers a non-negative base price, and a zero markup leaves it unchanged (`FinalPrice` is base × (1 + markup/100)) |
| PricingService.PriceExample | src/services/pricing_service.py:75-105 | rate 75,500,000, weight 5.5 g, labour 500,000 and markup 15 % give base 415,750,000 and final 478,112,500 |
| PricingService.SnapshotReflectsInputs | src/services/pricing_service.py:60-97 | a computed snapshot names its SKU, carries the rate used and the weights' fields, has ttl 300 s, the millisecond clock as version, the formula's prices, and is fresh when made (`ComputeSnapshot`, the record built by `_recalculate_pricing`) |
| PricingService.StoredRateIsNotNewer | src/services/pricing_service.py:22-28 | after a rate is stored, a rate for the same material whose version is not above it is refused, so admitting the same rate twice changes nothing |
| PricingService.AffectedSkus | src/services/pricing_service.py:31-34 | the SKUs recalculated after a rate change are exactly the SKUs whose weights use that material |
| PricingService.RepricedEntries | src/services/pricing_service.py:60-97 | repricing a set of SKUs gives each of them a new snapshot with the new rate, stamped with the version and as_of of its own clock reading, and leaves every other cached snapshot as it was (`Repriced`, the cache after the per-SKU loop of `update_rate`) |
| PricingService.RepricedStep | src/services/pricing_service.py:36-37 | repricing one more SKU is one more cache assignment |
| PricingService.LatestTimestamp | src/services/pricing_service.py:126-131 | last_update exists iff some rate is stored, and it is the latest stored timestamp |
| PricingService.PricingCalculator.constructor | src/services/pricing_service.py:13-16 | a calculator starts with no rates, no weights and an empty cache |
| PricingService.PricingCalculator.UpdateRate | src/services/pricing_service.py:18-40 | a rate is admitted iff its material has no stored rate or its version is higher; when admitted it is stored and exactly the SKUs of that material are repriced, each with the clock reading of its own recalculation; otherwise nothing changes |
| PricingService.PricingCalculator.UpdateWeights | src/services/pricing_service.py:42-58 | weights are admitted iff their SKU has none stored or their version is higher; when admitted they are stored and their SKU is repriced if its material has a rate; otherwise nothing changes |
| PricingService.PricingCalculator.RecalculatePricing | src/services/pricing_service.py:60-97 | nothing is computed without weights for the SKU or a rate for its material; otherwise the computed snapshot is stored under the SKU and returned |
| PricingService.PricingCalculator.GetPricing | src/services/pricing_service.py:110-112 | the cached snapshot of the SKU, or None when there is none |
| PricingService.PricingCalculator.GetAllPricing | src/services/pricing_service.py:114-116 | a copy holding exactly the cached snapshots |
| PricingService.PricingCalculator.ValidSkus | src/services/pricing_service.py:118-121 | the SKUs counted valid are exactly the cached ones whose snapshot is not expired (`PricingCalculator.IsPricingValid`) |
| PricingService.PricingCalculator.GetStats | src/services/pricing_service.py:123-140 | the counts are the sizes of the three dictionaries and of the valid set, at most the cache size; the materials are the rate keys; last_update is the latest rate timestamp, present iff a rate is stored |
| PricingService.PricingCalculator.GetCurrentRates | src/services/pricing_service.py:152-161 | one entry per stored rate, holding its rate, timestamp and version |
| PricingService.RingScenario | src/services/pricing_service.py:18-97 | a 5.5 g gold ring priced at rate 75,500,000 costs 478,112,500; a newer rate of 80,000,000 reprices it with that rate |
| PricingConsumer.Get | kafka_pricing_consumer.py:101-103 | data['name'] succeeds iff the payload is an object holding the key |
| PricingConsumer.GetOr | kafka_pricing_consumer.py:121-123 | data.get(name, default) gives the default for a missing key, and fails only on a payload that is not an object |
| PricingConsumer.AsReal | kafka_pricing_consumer.py:101 | a float field accepts exactly JSON integers and reals |
| PricingConsumer.AsInt | kafka_pricing_consumer.py:102 | a version field accepts exactly JSON integers |
| PricingConsumer.AsOptReal | kafka_pricing_consumer.py:121 | the optional stone weight accepts null, integers and reals, null giving None |
| PricingConsumer.AsMaterial | kafka_pricing_consumer.py:100 | a material is read only from the string equal to its value |
| PricingConsumer.AsTimestamp | kafka_pricing_consumer.py:103 | a timestamp is read only from a string the ISO parser accepts, as that parser reads it |
| PricingConsumer.DecodeRate | kafka_pricing_consumer.py:96-104 | a decoded rate has the message key as its material, currency VND, and exists only when rate, rate_version and timestamp are present |
| PricingConsumer.RateRoundTrip | kafka_pricing_consumer.py:96-104 | decoding a producer-shaped rate payload under its material key gives the rate back |
| PricingConsumer.RateNeedsFields | kafka_pricing_consumer.py:99-112 | a payload missing rate, rate_version or timestamp is dropped |
| PricingConsumer.DecodeWeights | kafka_pricing_consumer.py:114-126 | decoded weights have the message key as their SKU and the default formula, exist only when material, weight_gram, weights_version and timestamp are present, and hold the payload's values: each required field as read, and stone_weight, labor_cost and markup_percent as given or 0 when absent |
| PricingConsumer.WeightsDefaultToZero | kafka_pricing_consumer.py:117-126 | a payload with only the required fields decodes to the weights with zero stone weight, labour cost and markup |
| PricingConsumer.WeightsRoundTrip | kafka_pricing_consumer.py:114-126 | a payload with every field, optional ones included, decodes under the weights' SKU to those weights |
| PricingConsumer.DecodeSnapshot | kafka_pricing_consumer.py:141 | a snapshot decodes only from an object with every required field, and each of its twelve fields is the payload's value as read; stone_weight, labor_cost and markup_percent default to 0, ttl_sec to 300 and as_of to the current time |
| PricingConsumer.NotifyTargets | kafka_pricing_consumer.py:158-167 | the SKUs notified after a rate change are the SKUs of that material that have a cached snapshot |
| PricingConsumer.NotifiesEachCount | kafka_pricing_consumer.py:163-167 | one notification per target SKU: the log grows by exactly the number of targets |
| PricingConsumer.AcceptedRateTargets | kafka_pricing_consumer.py:158-167 | after repricing for an admitted rate, the SKUs notified are exactly the SKUs whose weights use that material |
| PricingConsumer.SnapshotRoundTrip | kafka_pricing_consumer.py:138-141 | a snapshot's own twelve-field payload decodes to that snapshot, so the handler installs it as received |
| PricingConsumer.KafkaPricingConsumer.constructor | kafka_pricing_consumer.py:16-27 | a consumer starts with a fresh, empty calculator, the given callback and no notifications |
| PricingConsumer.KafkaPricingConsumer.NotifyAffectedProducts | kafka_pricing_consumer.py:158-167 | without a callback nothing is sent; with one, the log gains one notification with the cached snapshot for each target SKU and keeps its earlier entries |
| PricingConsumer.KafkaPricingConsumer.HandleRateUpdate | kafka_pricing_consumer.py:96-112 | an undecodable or stale rate changes nothing; an admitted one is stored, reprices its material's SKUs and notifies each of them once; only the notification log and the calculator may change, so whether a callback is set is the same before and after |
| PricingConsumer.KafkaPricingConsumer.HandleWeightsUpdate | kafka_pricing_consumer.py:114-136 | undecodable or stale weights change nothing; admitted ones are stored, repriced when the material has a rate, and notified when the SKU has a snapshot; only the notification log and the calculator may change, so whether a callback is set is the same before and after |
| PricingConsumer.KafkaPricingConsumer.HandlePricingSnapshot | kafka_pricing_consumer.py:138-156 | an undecodable snapshot, or one whose version is not above the cached one, changes nothing; otherwise it replaces the cached snapshot and is notified; only the notification log and the calculator may change, so whether a callback is set is the same before and after |
| PricingConsumer.KafkaPricingConsumer.ProcessMessage | kafka_pricing_consumer.py:79-94 | messages are routed by topic: other topics change nothing, rates never touch weights, weights never touch rates, snapshots touch only the cache; only the notification log and the calculator may change, so whether a callback is set is the same before and after |
| PricingGateway.Surcharged | pricing_gateway.py:79-82 | the surcharged snapshot differs from the original only in its final price, multiplied by 1.05 |
| PricingGateway.QueryPricing | pricing_gateway.py:56-92 | no snapshot: failure with the no-data message; fresh: the cached snapshot; expired: DENY fails with the expiry message, SURCHARGE answers the price times 1.05, FREEZE answers the snapshot unchanged; success exactly when a snapshot exists and is fresh or the strategy is not DENY |
| PricingGateway.CacheAfterQuery | pricing_gateway.py:79-82 | a query leaves the cache unchanged, except that an expired SKU under SURCHARGE keeps the surcharged snapshot |
| PricingGateway.SurchargeCompounds | pricing_gateway.py:79-82 | two SURCHARGE queries on an expired positive price answer 1.05 and then 1.05 squared times the price |
| PricingGateway.Delivered | pricing_gateway.py:177-184 | each live queue that accepts the event gets it appended; every other queue is unchanged |
| PricingGateway.Failed | pricing_gateway.py:178-184 | the queues dropped are exactly those connections whose put_nowait fails |
| PricingGateway.DeliveredStep | pricing_gateway.py:179-184 | visiting one more queue appends the event to it alone, when it accepts |
| PricingGateway.FailedStep | pricing_gateway.py:179-184 | visiting one more queue adds it to the failures exactly when it refuses |
| PricingGateway.NoFailureKeepsAll | pricing_gateway.py:187 | when every queue accepts, no connection is dropped |
| PricingGateway.Gateway.constructor | pricing_gateway.py:17-28 | a gateway starts with no SSE connections and no queues |
| PricingGateway.Gateway.Subscribe | pricing_gateway.py:119-120 | a new, empty queue is registered as a connection |
| PricingGateway.Gateway.Unsubscribe | pricing_gateway.py:161-163 | the queue is discarded, and discarding an unknown queue changes nothing |
| PricingGateway.Gateway.OnPricingUpdate | pricing_gateway.py:165-187 | the corrected broadcast, with the snapshot serialised through its own JSON encoding as app_fastapi.py:100-106 does: the update is appended to every accepting queue, and the connections that refused are removed; each remaining queue got exactly the update |
| PricingGateway.Gateway.OnPricingUpdateAsWritten | pricing_gateway.py:165-175 | as written, the event is serialised from `snapshot.dict()`: the call raises iff that payload is not JSON-serialisable, and then no queue gains the event and no connection is removed; otherwise it is the corrected broadcast |
| PricingGateway.DictPayloadNeverSerializes | pricing_gateway.py:167-175 | for every SKU and snapshot the event built from `snapshot.dict()` holds `as_of` as a datetime, which `json.dumps` cannot serialise |
| PricingGateway.JsonPayloadSerializes | app_fastapi.py:100-106 | the event built from the snapshot's own JSON encoding (`as_of` as text) is always serialisable |
| PricingGateway.Gateway.GetPricing | pricing_gateway.py:56-92 | the response is the query over the snapshot as it was, and the cache afterwards is the cache after that query |
| PricingGateway.Gateway.QueryPricingOnly | pricing_gateway.py:56-92 | the query the endpoint evidently intends, reading the cache without writing the surcharge back |
| PricingGateway.Gateway.GetAllPricing | pricing_gateway.py:94-103 | the whole cache, counted |
| AppFastapi.ReplaceChar | app_fastapi.py:659-660 | str.replace of one character by another: same length, every occurrence replaced and nothing else changed |
| AppFastapi.StripCapitals | app_fastapi.py:643-660 | every accented Vietnamese capital of the table becomes its base letter and every other character stays |
| AppFastapi.Take10 | app_fastapi.py:665 | name[:10]: the first ten characters, or the whole string when shorter |
| AppFastapi.ReplaceStep | app_fastapi.py:659-660 | the i-th replacement of the table turns exactly the capital of that entry into its base letter |
| AppFastapi.ReplacedAll | app_fastapi.py:659-660 | after the whole table every capital of the table has become its base letter |
| AppFastapi.ReplaceCapitals | app_fastapi.py:659-660 | the replacement loop over the table computes the character-wise stripping of capitals |
| AppFastapi.GenerateAttributeCode | app_fastapi.py:639-665 | the code is strip, upper, capitals replaced, only A-Z and 0-9 kept, cut to ten; it has at most ten characters, all upper-case letters or digits (`AttributeCode`) |
| AppFastapi.StripCapitalsKeeps | app_fastapi.py:643-660 | a string of upper-case letters and digits has no capital to replace |
| AppFastapi.AttributeCodeShape | app_fastapi.py:663-665 | every code has at most ten characters, all A-Z or 0-9 |
| AppFastapi.CodeShapedIsFixed | app_fastapi.py:639-665 | a string already shaped like a code is its own code |
| AppFastapi.AttributeCodeIdempotent | app_fastapi.py:639-665 | generating the code of a code gives the same code |
| AppFastapi.CapitalsSurviveFilter | app_fastapi.py:659-663 | a name made only of table capitals, letters and digits loses no character to the A-Z0-9 filter |
| AppFastapi.StrokedDBecomesD | app_fastapi.py:655 | Đ is in the table and becomes D |
| AppFastapi.CodeOf | app_fastapi.py:512-519 | a value found by the lookup gets a code; a missing one gets none |
| AppFastapi.ValueCodes | app_fastapi.py:511-519 | one entry per requested value id, in order, each the code of that lookup |
| AppFastapi.GenerateValueCode | app_fastapi.py:517-518 | the code of one looked-up value |
| AppFastapi.Found | app_fastapi.py:516-519 | the present codes never outnumber the lookups |
| AppFastapi.SuffixSnoc | app_fastapi.py:511-519 | one more lookup appends "-" and its code to the suffix exactly when it was found |
| AppFastapi.FoundPrefix | app_fastapi.py:511-519 | the codes found among the first n lookups are no more than those found among all |
| AppFastapi.FoundAvoids | app_fastapi.py:511-519 | a character absent from every code is absent from every found code |
| AppFastapi.ValueCodesHaveNoDash | app_fastapi.py:663 | no value code contains "-" |
| AppFastapi.SuffixIsJoin | app_fastapi.py:509-522 | base plus suffix is the "-"-join of the base and the found codes, in order |
| AppFastapi.JoinSnoc | app_fastapi.py:519 | joining one more part appends the separator and the part |
| AppFastapi.ProductCodeSplits | app_fastapi.py:508-522 | for a base without "-", splitting the assembled code on "-" gives back the base and each found code, in order |
| AppFastapi.AssembleCodeAsWritten | app_fastapi.py:493-546 | a provided code is kept; with a template code the suffix is appended to it; with default_code False (Odoo's unset value) the result is False when no value is found and a 500 error when one is |
| AppFastapi.TemplateBase | app_fastapi.py:509 | the base the code evidently intends: the template code if set, else the template name, else PRODUCT |
| AppFastapi.AssembleCode | app_fastapi.py:508-522 | a provided code is kept; otherwise the code is the base followed by "-" and each found value code in order |
| AppFastapi.UnsetTemplateCodeFails | app_fastapi.py:509-519 | with an unset template code, a named template and one found value, a code exists under the corrected rule (name-code) while the code as written raises |
| AppFastapi.FloatOf | app_fastapi.py:816 | float() on JSON numbers is their value, and on null, lists and objects it raises TypeError |
| AppFastapi.ValidateRateRequest | app_fastapi.py:814-822 | a request passes iff its material is "gold" or "silver" and its rate parses as a positive number; the result is that material and rate |
| AppFastapi.UpdateRateFromUiAsWritten | app_fastapi.py:812-843 | as written, the only 400 that escapes is "Rate phải là số"; a failed publish is a 500; `HttpExceptionText` is the "status: detail" text the re-raise puts in its 500 detail |
| AppFastapi.UpdateRateFromUi | app_fastapi.py:812-843 | accepted iff the request validates and the publish succeeds, with a positive rate for the requested material; an invalid request is rejected with its 400 before anything is published |
| AppFastapi.InvalidRateRequestRejected | app_fastapi.py:818-822 | a missing material, a rate at most 0 or a material other than gold and silver is rejected with 400 and nothing published |
| AppFastapi.EmptyRateRequestStatus | app_fastapi.py:818-843 | an empty request is a 400 under the evident intent but a 500 as written |
| AppFastapi.AppState.constructor | app_fastapi.py:91-98 | the application starts with no SSE connections |
| AppFastapi.AppState.OnPricingUpdate | app_fastapi.py:100-133 | the update is appended to every accepting queue and the refusing connections are removed; the repeated subtraction changes nothing |
| AppFastapi.AppState.GetPricing | app_fastapi.py:715-751 | the same offline-strategy rules as the gateway, the SURCHARGE price written back into the cache |
| PricingClient.TtlMs | static/js/pricing_client.js:219 | the lifetime in milliseconds is ttl_sec times 1000, or 300000 when ttl_sec is missing or 0 |
| PricingClient.NoAsOfIsInvalid | static/js/pricing_client.js:215 | an entry without as_of is never valid |
| PricingClient.ValidAtTtlBoundary | static/js/pricing_client.js:217-221 | an entry aged exactly its lifetime is still valid, and one aged a millisecond more is not (inclusive, like the server's `> ttl_sec` test); `IsPricingValid` also needs an `as_of` |
| PricingClient.DefaultWindow | static/js/pricing_client.js:219-221 | without ttl_sec an entry is valid for exactly 300 seconds |
| PricingClient.ApplyOfflineStrategy | static/js/pricing_client.js:227-261 | deny fails and keeps the entry; surcharge succeeds with a copy whose price is multiplied by 1.05; freeze and any other strategy succeed with the entry unchanged |
| PricingClient.OnlyDenyFails | static/js/pricing_client.js:227-261 | an offline answer fails exactly under deny, and always carries data |
| PricingClient.SurchargeChangesOnlyPrice | static/js/pricing_client.js:238-249 | the surcharged copy raises a positive price and keeps as_of, ttl_sec and cachedAt |
| PricingClient.ReconnectDelay | static/js/pricing_client.js:133-136 | the delay is the interval times 2 to the attempts, capped at 30000 ms |
| PricingClient.Pow2Monotone | static/js/pricing_client.js:134 | more attempts never give a smaller power of two |
| PricingClient.ReconnectDelayMonotone | static/js/pricing_client.js:133-136 | the delay never decreases as the attempts grow |
| PricingClient.DefaultBackoff | static/js/pricing_client.js:133-136 | with the default 5 s interval the delays are 5 s, 10 s, 20 s and then 30 s from the fourth attempt on |
| PricingClient.PricingClient.constructor | static/js/pricing_client.js:5-27 | options default to a 5000 ms interval and 10 attempts; the cache is empty, no attempt made, and connect has opened a stream that is not yet connected |
| PricingClient.PricingClient.Connect | static/js/pricing_client.js:32-39 | an existing stream is closed first (connection lost), then a new stream is open |
| PricingClient.PricingClient.Disconnect | static/js/pricing_client.js:109-119 | no stream and not connected |
| PricingClient.PricingClient.OnOpen | static/js/pricing_client.js:41-44 | connected, and the attempt counter is reset |
| PricingClient.PricingClient.NextReconnect | static/js/pricing_client.js:124-136 | no reconnect once the attempts reach the maximum; otherwise the backoff delay, at most 30 s |
| PricingClient.PricingClient.OnError | static/js/pricing_client.js:89-103 | the client is disconnected and the reconnect is scheduled by the backoff rule |
| PricingClient.PricingClient.ReconnectTimerFires | static/js/pricing_client.js:140-143 | the attempt counter grows by one and a new stream is opened |
| PricingClient.PricingClient.UpdatePricingCache | static/js/pricing_client.js:149-155 | the entry for the SKU is replaced by the pricing stamped with the current time; other entries stay |
| PricingClient.PricingClient.LoadInitial | static/js/pricing_client.js:51-59 | every SKU of the initial event is cached with the current time, and the other entries stay |
| PricingClient.PricingClient.GetAllPricing | static/js/pricing_client.js:203-209 | exactly the cached entries |
| PricingClient.PricingClient.GetPricing | static/js/pricing_client.js:160-198 | the answer and the new cache are `ClientAnswer` and `CacheAfterAnswer` of the cache before the call: a valid cached entry; else the server's answer, stored when it succeeds with data; else, when the request failed or a successful answer had no data (updatePricingCache then throws inside the `try`), the offline strategy on a cached entry, or the error with the exception's message |
| PricingClient.PricingClient.ClearCache | static/js/pricing_client.js:289-292 | the cache is empty |
| PricingClient.PricingClient.ValidEntries | static/js/pricing_client.js:281-282 | the SKUs whose cached entry is valid now, all of them cached |
| PricingClient.PricingClient.GetConnectionStatus | static/js/pricing_client.js:276-284 | connection flag and attempts as held, the cache size, and the count of valid entries, never more than the cache size |
| PricingClient.ValidCacheNeedsNoFetch | static/js/pricing_client.js:162-169 | a valid cached entry is answered from the cache whatever the server would say, and the cache is not changed |
| PricingClient.OfflineOnlyWithCachedEntry | static/js/pricing_client.js:184-197 | when the server cannot be reached, an offline strategy is applied iff an entry is cached; otherwise the answer is the error; the cache is not changed |
| PricingClient.SuccessWithoutDataFallsBack | static/js/pricing_client.js:150-155 | a successful answer without data is answered exactly as an unreachable server with the TypeError's message would be, never with source "api" when no valid entry is cached, and leaves the cache unchanged |
| PricingClient.AnswerIsCached | static/js/pricing_client.js:162-178 | a successful server answer is stored, and while it stays valid the next request is answered from the cache |
| AppPy.BlankIffStripsEmpty | app.py:338 | `not v or v.strip() == ""` holds exactly for the empty and whitespace-only values |
| AppPy.AnySome | app.py:337-380 | some filter satisfies the test exactly when one at some index does |
| AppPy.Contributing | app.py:368-377 | the filters that seed or narrow the set are never more than the filters |
| AppPy.IntersectAllMembers | app.py:372-377 | an id is in the running intersection iff some set took part and every set holds it |
| AppPy.FilteredIdsMembers | app.py:331-385 | a template is in the result iff no filter stopped the search (no lines, or an exception), some filter matched, and every matching filter lists it (`FilteredIds`) |
| AppPy.SkippedFilterChangesNothing | app.py:338-359 | a blank filter, or one whose attribute or value is not found, leaves the result as it was |
| AppPy.NoLinesEmptiesResult | app.py:378-380 | a filter whose value exists but has no attribute line empties the whole result |
| AppPy.ContributingStep | app.py:368-377 | one more filter adds its template set exactly when it is non-blank and matched |
| AppPy.AbortsStep | app.py:378-385 | the search has stopped after one more filter iff it had stopped before or that filter stops it |
| AppPy.IntersectSnoc | app.py:372-377 | the first contributing set seeds the result, each later one is intersected with it |
| AppPy.FilterProductsByGoldAttributes | app.py:331-385 | the loop over the filters computes the AND of the matching template sets, empty when the search stops |
| AppPy.ShortName | app.py:483 | the short name when present, otherwise the full name |
| AppPy.Part | app.py:483-486 | a summary part exists iff both the short name and the value are non-empty |
| AppPy.SummaryParts | app.py:482-486 | the parts come from the rows, no more of them than rows, and none at all iff no row has both fields |
| AppPy.FirstThree | app.py:482 | gold_attributes[:3] |
| AppPy.SummaryShape | app.py:480-492 | at most three parts, from the first three rows, joined by "; ", followed by " (+N more)" with N the number of rows beyond three (`Summary`) |
| AppPy.CompleteRowsAllShow | app.py:482-488 | three complete rows each show their part, in order |
| AppPy.EmptyShortNameHidesRow | app.py:483-486 | an empty short name hides the row, while a missing one falls back to the full name |
| AppPy.BuildSummary | app.py:480-492 | the loop builds `Summary(attrs)`, whose shape `SummaryShape` states |
| AppPy.SummaryLoop | app.py:481-486 | the loop collects the parts of the given rows, in order |
| AppPy.CleanValue | app.py:849-871 | None and list, dict, set and tuple values are dropped; strings are stripped; Decimal becomes float; booleans, integers and floats are kept |
| AppPy.CleanKey | app.py:843-851 | a value is kept under its own key |
| AppPy.CleanedData | app.py:843-871 | product_data holds only keys other than gold_attributes, each with the cleaned value of an item of the payload |
| AppPy.CleanedDataKeeps | app.py:843-871 | for a payload with distinct keys, a key is in product_data iff it is not gold_attributes and its value survives cleaning, with the cleaned value |
| AppPy.CleanUpdate | app.py:843-871 | the cleaned product_data, and the gold_attributes value exactly when the payload holds one |
| AppPy.UpdateMessages | app.py:893-899 | one part for the product fields when the cleaned dictionary is non-empty, then one for gold attributes when truthy: the count written on a successful bulk write of a dictionary, the failure message otherwise |
| AppPy.UpdateMessage | app.py:901 | the default message appears exactly when the cleaned dictionary is empty and there are no gold attributes |
| AppPy.BothPartsJoined | app.py:893-901 | both parts are joined with "; ", the product part first |
| MainApp.Pad2 | main_app.py:17-26 | %d, %m, %H and %M render a number below 100 as two digits that read back as it |
| MainApp.FormatDatetime | main_app.py:17-28 | None gives None, a string is returned unchanged, a datetime is rendered as dd/mm/YYYY HH:MM, anything else by its str() |
| MainApp.ParseStamp | main_app.py:17 | only a 16-character dd/mm/yyyy HH:MM string reads back as a date and time |
| MainApp.FourDigitYear | main_app.py:17 | a year from 1000 to 9999 renders as four digits |
| MainApp.FormatStampRoundTrip | main_app.py:17-26 | the rendering of a valid date and time with a four-digit year reads back as that date and time |
| MainApp.NonBlankLines | main_app.py:450 | the options kept are stripped, non-empty, and no more than the lines |
| MainApp.SelectionOptionsList | main_app.py:447-455 | only a selection attribute with options has a non-empty option list |
| MainApp.NonBlankLinesKeeps | main_app.py:450 | options already stripped and non-empty are all kept, in order |
| MainApp.SelectionOptionsRoundTrip | main_app.py:447-455 | stripped non-empty options joined by newlines parse back to the same list |
| MainApp.OtherTypesHaveNoOptions | main_app.py:447-455 | an attribute that is not a selection, or has no options, gets an empty list |
| MainApp.ReplaceSkipsDigits | main_app.py:671 | removing "attr_" from a string of digits changes nothing |
| MainApp.ExtractAttributeFilters | main_app.py:668-676 | the loop over the query parameters builds the filter dictionary, a later parameter overwriting an earlier one for the same id |
| MainApp.FiltersComeFromParams | main_app.py:669-676 | every filter comes from a parameter named attr_ with a non-empty value whose rest int() accepts, and carries that parameter's value |
| MainApp.AttrParamRoundTrip | main_app.py:669-676 | a parameter attr_n with a non-empty value filters on attribute n |
| MainApp.LastParamWins | main_app.py:673-674 | the last parameter naming an id sets that id's filter value |
| MainApp.CheckCreateFieldType | main_app.py:525-527 | create accepts exactly the six field types and otherwise fails with 400 |
| MainApp.CheckUpdateFieldType | main_app.py:584-587 | update fails only when a non-empty field type is given that is not one of the six |
| MainApp.UpdateAgreesWithCreate | main_app.py:584-587 | for a given non-empty type, update checks exactly as create does |
| MainApp.LowerTwice | main_app.py:727 | lowering is idempotent |
| MainApp.BoolFilterIgnoresCase | main_app.py:727 | the boolean filter reads the same after lowering, and a true word has at most four characters |
| MainApp.LowerIs | main_app.py:727 | lowering works character by character |
| MainApp.BoolFilterExamples | main_app.py:727 | TRUE, Yes, 1 and Co are true; Có, false, 0 and the empty string are not |
| MainApp.GoldNameOf | main_app.py:821 | the gold name is the product attribute name without its first five characters |
| MainApp.GoldNameRoundTrip | main_app.py:819-821 | naming an attribute gold_+name and stripping five characters gives the name back |
| MainApp.ProductAttributeNameRoundTrip | main_app.py:819-821 | a name starting with gold_ is gold_ followed by its gold name |
| MainApp.OptionValues | main_app.py:1109 | one filter option per parsed option |
| MainApp.FilterEntry | main_app.py:1097-1127 | an attribute is listed iff its type is selection, char, float, integer or boolean, with its id, name and type; booleans get two options, selections one option per parsed option with the same value and label, the other types none |
| MainApp.FilterableAttributes | main_app.py:1093-1127 | only filterable types are listed, never more entries than attributes |
| MainApp.FilterableAttributesComplete | main_app.py:1093-1127 | every filterable attribute is listed, and every listed entry comes from an attribute |
| MainApp.DateAttributesExcluded | main_app.py:1126 | date attributes are never listed |
| MainApp.GetProductTemplateAttributes | main_app.py:1087-1130 | the loop over the attributes builds the filterable list |
| MainApp.FilterEntryOf | main_app.py:1098-1127 | one iteration of that loop gives the attribute's entry |
| MainApp.StoredValue | main_app.py:1045 | a boolean attribute stores "True" or "False" by truthiness; other types store str(value) |
| MainApp.DecimalKeyAccepted | main_app.py:1021 | int() accepts the decimal rendering of an id |
| MainApp.SevenIsAccepted | main_app.py:1021 | int() accepts "7" |
| MainApp.UncheckedBoxDropped | main_app.py:1017-1045 | an unchecked checkbox creates no line as written, but the line with "False" under the corrected skip rule (`GoldLinesAsWritten` and `GoldLines` are `LinesBy` with the two skip rules) |
| MainApp.SkippedContributesNothing | main_app.py:1017-1019 | a skipped value creates no line: removing it leaves the lines unchanged |
| MainApp.FalseContributesNothing | main_app.py:1018-1019 | as written, a False value never creates a line |
| MainApp.KeptIsStored | main_app.py:1017-1067 | a value that is not skipped, for a known attribute, after only accepted keys, creates its line |
| MainApp.BooleansStored | main_app.py:1045-1066 | under the corrected rule every boolean of a boolean attribute creates a line holding str() of the value |
| MainApp.ProcessGoldAttributes | main_app.py:1008-1070 | the loop creates the lines of the corrected rule, in order |
| ProductsJs.UpperCharRange | static/js/products.js:517 | upper-casing a character leaves it or gives an ASCII or Vietnamese capital |
| ProductsJs.UpperKeeps | static/js/products.js:514-517 | upper-casing creates neither combining marks nor spaces |
| ProductsJs.FilterKeeps | static/js/products.js:514 | removing characters keeps any property every character had |
| ProductsJs.NfdKeepsNonSpace | static/js/products.js:514 | decomposing creates no whitespace |
| ProductsJs.Plain | static/js/products.js:514 | the decomposed text with U+0300 to U+036F removed holds no combining mark |
| ProductsJs.Words | static/js/products.js:517 | split(/\s+/) always gives at least one word |
| ProductsJs.Take | static/js/products.js:519-521 | substring(0, n): a prefix of at most n characters |
| ProductsJs.Initials | static/js/products.js:521 | the first two characters of each word, at most two per word |
| ProductsJs.InitialsKeep | static/js/products.js:521 | initials keep any property every word had |
| ProductsJs.GenerateAttributeCode | static/js/products.js:510-523 | empty text gives an empty code; a single word gives at most 3 characters and several words at most 2 per word |
| ProductsJs.CodeHasNoMarks | static/js/products.js:514-522 | a generated code never holds a combining mark |
| ProductsJs.SplitOnRunsKeeps | static/js/products.js:517 | every word of a split keeps any property the whole text had |
| ProductsJs.SingleWordCode | static/js/products.js:518-519 | text without whitespace gives the first three characters of its plain upper-cased form |
| ProductsJs.SeveralWordsCode | static/js/products.js:520-521 | words without whitespace, joined by single spaces, give the first two characters of each word's plain upper-case form, in order |
| ProductsJs.FindTemplate | static/js/products.js:483 | the template found has the requested id; none is found only when no template has it |
| ProductsJs.BaseCode | static/js/products.js:490 | default_code, else name, else PRODUCT: never empty |
| ProductsJs.ProductCode | static/js/products.js:473-507 | no template chosen or an unknown one gives ''; otherwise the base code followed by "-" and the code of each chosen value, in order |
| ProductsJs.UpdateProductCode | static/js/products.js:473-507 | the code written into the field is that product code |
| ProductsJs.AppendSegments | static/js/products.js:493-504 | the loop over the selects appends one "-" segment per chosen value |
| ProductsJs.SegmentsStep | static/js/products.js:495-502 | one more select adds "-" and its value's code exactly when a value is chosen |
| ProductsJs.SegmentsAppend | static/js/products.js:494-504 | the segments of two runs of selects are the segments of each, concatenated |
| ProductsJs.UnselectedAddNothing | static/js/products.js:495 | selects left empty add nothing to the code |
| ProductsJs.ChoosingAppendsSegment | static/js/products.js:494-504 | choosing a value in a select followed only by empty ones appends exactly "-" and that value's code (`Segments`, the segments part of the product code) |
| ProductsJs.ChosenValues | static/js/products.js:358-362 | the chosen ids are never more than the selects |
| ProductsJs.AllChosen | static/js/products.js:358-365 | every select contributes exactly when all are chosen, and then in order |
| ProductsJs.SaveNeedsEveryAttribute | static/js/products.js:355-375 | saving stops without a request iff some select is empty; otherwise every select's id is sent, in order (`SaveAttributes`) |
| ProductsJs.CollectAttributeValues | static/js/products.js:355-362 | the loop collects the chosen ids in order |
| GoldManagement.Info | static/js/gold_management.js:810-812 | totalPages is the ceiling of total over limit, and endRecord is min(page·limit, total) |
| GoldManagement.RecordRange | static/js/gold_management.js:810-812 | on a real page the records shown run from startRecord to endRecord, at most limit of them, a full page before the last and ending at total on the last |
| GoldManagement.PrevPart | static/js/gold_management.js:825-827 | a Previous link appears iff the page is after the first |
| GoldManagement.NextPart | static/js/gold_management.js:854-856 | a Next link appears iff the page is before the last |
| GoldManagement.Nav | static/js/gold_management.js:822-860 | the bar is empty iff there is at most one page |
| GoldManagement.RenderPagination | static/js/gold_management.js:809-862 | the page info and the bar the accumulating loop builds are those of Info and Nav |
| GoldManagement.AppendLeading | static/js/gold_management.js:834-839 | appends page 1 and, when pages are skipped, an ellipsis |
| GoldManagement.AppendTrailing | static/js/gold_management.js:846-851 | appends an ellipsis when pages are skipped, then the last page |
| GoldManagement.WindowLinks | static/js/gold_management.js:841-844 | the loop emits the window's page links in order, the current one active |
| GoldManagement.PageLinksOnce | static/js/gold_management.js:841-844 | each page of the window is emitted exactly once |
| GoldManagement.NavLinks | static/js/gold_management.js:822-856 | with several pages: Previous iff p > 1, Next iff p < totalPages, page 1 iff start > 1, the last page iff end < totalPages |
| GoldManagement.NavEllipses | static/js/gold_management.js:836-849 | the bar holds one ellipsis when start > 2, one when end < totalPages−1, and no other |
| GoldManagement.NavPagesOnce | static/js/gold_management.js:831-844 | each page of the window appears exactly once in the bar, active exactly when it is the current page |
| GoldManagement.NavActivePage | static/js/gold_management.js:841-844 | only the current page is marked active, and it is marked when it lies in range |
| GoldManagement.FieldTypeLabel | static/js/gold_management.js:330-340 | an unknown type is shown unchanged; a known one is shown by its Vietnamese label, which is no type name itself |
| GoldManagement.LabelsCoverServerTypes | static/js/gold_management.js:330-340 | every field type the server accepts has a label, and no two types share one |
| GoldManagement.AttrIdOf | static/js/gold_management.js:740-742 | an input is selected only when its id starts with goldAttr_, and the attribute id is the rest |
| GoldManagement.ValueOf | static/js/gold_management.js:743-751 | a checkbox gives its state; a text field gives its trimmed text exactly when that is non-empty |
| GoldManagement.CollectGoldAttributes | static/js/gold_management.js:739-754 | the forEach builds the gold_attributes object, a later input overwriting an earlier one with the same id |
| GoldManagement.CollectedValues | static/js/gold_management.js:739-754 | every collected value comes from an input with that id: a checkbox's state or a text field's non-empty trimmed text (`GoldAttributes`, the object the forEach builds) |
| GoldManagement.CheckboxKept | static/js/gold_management.js:745-752 | a checkbox is sent as it stands, false included |
| GoldManagement.TextKeptIffNonBlank | static/js/gold_management.js:747-752 | a text field is sent, trimmed, exactly when something is left after trimming |
| ProductTemplates.PageAfter | static/js/product_templates.js:695-699 | changePage moves to the requested page exactly when it is in range and not already shown, and otherwise stays |
| ProductTemplates.PageAfterInRange | static/js/product_templates.js:695-699 | from a real page, changePage always lands on a real page |
| ProductTemplates.Toggled | static/js/product_templates.js:726-733 | toggling flips the membership of that id and of no other |
| ProductTemplates.ToggleTwice | static/js/product_templates.js:726-733 | toggling twice restores the selection |
| ProductTemplates.IdSet | static/js/product_templates.js:738-740 | the set of the page's template ids |
| ProductTemplates.Nav | static/js/product_templates.js:332-385 | the bar is empty iff there is at most one page |
| ProductTemplates.NavButtons | static/js/product_templates.js:343-384 | Previous comes first and Next last, once each, disabled exactly on the first and the last page |
| ProductTemplates.ButtonsAround | static/js/product_templates.js:343-384 | a bar framed by one button at each end with none between has only those buttons |
| ProductTemplates.NavTargets | static/js/product_templates.js:352-384 | every page link leads to a real page, and a button is disabled exactly when changePage would refuse its target |
| ProductTemplates.TemplatesPage.constructor | static/js/product_templates.js:3-10 | page 1 of 1, no templates and nothing selected |
| ProductTemplates.TemplatesPage.Loaded | static/js/product_templates.js:104-107 | the templates are stored and totalPages becomes the ceiling of total over 12 |
| ProductTemplates.TemplatesPage.ChangePage | static/js/product_templates.js:695-699 | the page becomes the one PageAfter gives, and a reload is asked exactly when it changed; nothing else changes |
| ProductTemplates.TemplatesPage.ToggleSelection | static/js/product_templates.js:726-733 | the selection is toggled at that id; nothing else changes |
| ProductTemplates.TemplatesPage.ToggleSelectAll | static/js/product_templates.js:735-749 | ticking adds every template of the page to the selection; unticking empties it; nothing else changes |
| ProductTemplates.TemplatesPage.ClearSelection | static/js/product_templates.js:763-769 | nothing stays selected; nothing else changes |
| ProductTemplates.TemplatesPage.NavBar | static/js/product_templates.js:332-338 | the bar for the current state, empty iff there is at most one page |
| Pagination.CeilDiv | static/js/gold_management.js:810 | Math.ceil(total/limit): the smallest page count holding every record |
| Pagination.CeilDivLeast | static/js/product_templates.js:106 | no smaller page count holds every record |
| Pagination.WindowStart | static/js/gold_management.js:831 | the window starts at page 1 or later, and no more than two pages before the current one |
| Pagination.WindowEnd | static/js/gold_management.js:832 | the window ends at the last page or earlier, and no more than two pages after the current one |
| Pagination.WindowShape | static/js/product_templates.js:352-353 | the window holds at most five pages, all real, and the current page when it is in range |
| Pagination.PageLinks | static/js/gold_management.js:841-844 | one link per page from start to end, in order, active exactly at the current page |
| Pagination.PageLinksActive | static/js/product_templates.js:362-368 | only the current page is active, and it is active iff it lies in the window |
| Pagination.Leading | static/js/product_templates.js:355-360 | page 1 iff the window starts after it, an ellipsis iff pages are skipped |
| Pagination.Trailing | static/js/product_templates.js:370-375 | the last page iff the window ends before it, an ellipsis iff pages are skipped |
| Text.TrimShape | app_fastapi.py:641 | a stripped string is no longer than the original and neither starts nor ends with a space |
| Text.TrimKeeps | main_app.py:450 | stripping a string whose ends are not spaces changes nothing |
| Text.SplitOnChar | main_app.py:450 | str.split on a character: at least one part, none containing the separator |
| Text.SplitJoin | main_app.py:450 | joining the parts of a split with the separator gives the string back |
| Text.JoinSplit | main_app.py:450 | splitting parts joined by a separator they lack gives the parts back |
| Text.SplitOnRuns | static/js/products.js:517 | split(/\s+/) gives at least one part |
| Text.DigitsOfNat | main_app.py:1021 | the decimal rendering of a number reads back as that number |
| Text.ParseIntOfNat | main_app.py:1021 | int() of the decimal rendering of a number is that number |
| Text.EntryOfCapitalIndex | app_fastapi.py:643-657 | a character found in the capitals table is the entry at the index found |
| Text.Nfd | static/js/products.js:514 | a decomposed character is its base followed only by combining marks |
| Dicts.AssignedFrom | static/js/gold_management.js:752 | every key of the built dictionary was assigned by some item, with that item's value |
| Dicts.LastAssignedWins | static/js/gold_management.js:752 | the last item assigning a key sets its value |

## Left out

- Kafka transport: the consumer thread loop, start and stop, the producers (kafka_producer.py and `RateProducer` in app_fastapi.py) and the test publisher. They are broker I/O, threads and randomness. Publishing a rate is a given boolean.
- The SSE coroutines (pricing_gateway.py:116-163, app_fastapi.py:671-713): the waits on asyncio queues, the 30 s keepalives and the initial event are concurrency and timing. Only subscribing, discarding and pruning the subscriber set are modelled.
- Odoo XML-RPC: every CRUD route, the attribute-line writes of `_process_gold_attributes`, and the reads before and after the modelled logic. `odoo_client.py` and `src/services/gold_attribute_service.py` are not part of this model. Each lookup is an input outcome.
- The wall clock (`datetime.utcnow()`, `time.time()`, `Date.now()`) and the event timestamps: they are parameters. `snapshot_version` is the millisecond clock value passed in, and nothing is claimed about it increasing.
- PricingService.PricingCalculator.UpdateRate: the affected SKUs form a set, so the readings are a function from SKU to reading. That the readings do not decrease in the dictionary's iteration order is not stated.
- Floating point: prices, rates and weights are `real`. Rounding, NaN and infinities, `Intl.NumberFormat`, the `{rate:,.0f}` message text and JavaScript number formatting are not modelled.
- Duplicate definitions in src/models/pricing.py: `ProductWeights` and `PricingSnapshot` are defined a second time at lines 96 and 117, and the later definitions shadow the first ones. The model deliberately follows the first definitions (lines 18-72). As written, src/services/pricing_service.py:8 imports the second `PricingSnapshot`, which requires `material_price`, `total_cost`, `rate_version`, `weights_version` and `timestamp` and has no `is_expired`. The call at src/services/pricing_service.py:79-92 passes none of those, so every `_recalculate_pricing` that reaches it would fail pydantic's validation. The Kafka consumer itself imports `pricing_models` and `pricing_calculator` (kafka_pricing_consumer.py:10-11), which are not part of this model.
- Pydantic validation and coercion: records are built from already typed fields. `PricingConsumer.DecodeSnapshot` reads the required keys and the two defaults, and is given a coercion oracle for `as_of`. It does not model pydantic's coercion of the other fields.
- PricingModels.IsExpired, PricingModels.ExpiryBoundary, PricingConsumer.DecodeSnapshot, PricingGateway.QueryPricing and PricingService.PricingCalculator.GetStats: `as_of` is a plain number, with no timezone-aware or naive distinction. A snapshot from `pricing.snapshot` carries `as_of` as the model's own encoder writes it, `isoformat()` followed by "Z" (src/models/pricing.py:64-66), and pydantic reads that as an aware datetime. `datetime.utcnow() - self.as_of` (src/models/pricing.py:72) then raises TypeError. The model does not capture that exception. It would make the gateway query answer 500, because pricing_gateway.py:69 has no `try`. It would send `get_stats` to its `except` branch (src/services/pricing_service.py:141-150), with `valid_pricing_count` 0, `last_update` None and an `error` entry.
- A `pricing.snapshot` message without a key: Python would cache it under `None`. The model drops it, since `pricing_cache` is keyed by SKU strings.
- PricingConsumer.KafkaPricingConsumer.ProcessMessage: the contract states which maps each topic leaves untouched. The full effect of each topic is the contract of the handler it calls.
- The order in which notifications are sent follows dictionary order in Python. The model states that each target SKU is notified exactly once, not the order.
- Unicode: `str.upper()`, `toUpperCase()`, `str.lower()` and `normalize('NFD')` are modelled on ASCII and the Vietnamese letters. Other scripts are left unchanged by the model and may differ from the runtime.
- Python's `int()` is modelled on optional sign, ASCII digits and surrounding whitespace. Underscores and non-ASCII digits are not accepted by the model.
- `float()` of a string is an oracle parameter. `str()` of a float value, and of anything other than booleans, integers and text, is not modelled.
- MainApp.FormatStampRoundTrip: holds for years 1000 to 9999 only, because `%Y` of an earlier year is platform dependent.
- MainApp.FormatDatetime: a value that is neither None, a string nor a datetime is rendered by its `str()`, which is given as input.
- MainApp.ExtractAttributeFilters: the query parameters are the sequence starlette's `items()` yields, given as input. The `attr_` filter's translation into Odoo domain clauses (the price range, `sale_ok`) is out, apart from the boolean word test.
- ProductsJs.FindTemplate: JavaScript's loose `t.id == templateId` (a number against a string) is modelled as equality of ids.
- ProductsJs: an option text that is `null`, and the DOM reads of `select.options[select.selectedIndex]`, are not modelled. A select is either empty or carries its option text.
- PricingClient.PricingClient.GetPricing: the TypeError thrown for a successful answer without `data` is given V8's message text; other engines word it differently.
- PricingConsumer.KafkaPricingConsumer.NotifyAffectedProducts: the callback is modelled as returning normally. With the gateway's as-written callback the first call raises, the remaining SKUs are not notified, and the message handler's `except` (kafka_pricing_consumer.py:111) swallows the error.
- PricingClient.PricingClient: the callbacks `onPricingUpdate`, `onConnectionChange` and `onError`, the JSON parse errors of the event listeners, `formatPrice` and `triggerTestUpdate` are DOM and network glue.
- GoldManagement.Info and Pagination.CeilDiv: both require a positive page size. The scripts divide by it, and every caller passes 20 or 12.
- GoldManagement.FieldTypeLabel: JavaScript object lookups also find inherited keys such as `constructor`. The model's label table has only the six field types.
- The DOM side of the template page: checkbox syncing in `toggleSelectAll` and `clearSelection`, `updateBulkActions`, and the HTML of the bars. The bars are modelled as sequences of items.
- `applyFilters` and `clearFilters` in the scripts, and the remaining UI scripts (attributes.js, categories.js, serials.js, values.js, templates.js, app.js): form glue without logic of their own.
- The message texts of logged errors, and the exception text of a raising Odoo call (app.py:383-385 yields an empty result whatever the text).

## Findings

| source | as written | input that shows it | evidently intended | confidence | as-written member | corrected member |
|---|---|---|---|---|---|---|
| pricing_gateway.py:79-82 (and app_fastapi.py:738-741) | `snapshot.final_price *= 1.05` multiplies the cached snapshot object itself, so every expired SURCHARGE query raises the stored price again | an expired snapshot with a positive price queried twice with `strategy=surcharge`: the answers are 1.05·p and then 1.05²·p | each query answers 1.05·p from an unchanged cache | high (not executed) | PricingGateway.SurchargeCompounds, PricingGateway.Gateway.GetPricing | PricingGateway.Gateway.QueryPricingOnly |
| app_fastapi.py:818-822, 842-843 | the 400 errors raised inside the `try` are caught by `except Exception` and re-raised as 500 | the request `{}`: "Material và rate phải có giá trị hợp lệ" should be 400 but the answer is 500 | validation errors keep their 400 status | high (not executed) | AppFastapi.UpdateRateFromUiAsWritten, AppFastapi.EmptyRateRequestStatus | AppFastapi.UpdateRateFromUi |
| app_fastapi.py:509-519 | `template_info.get('default_code', ...)` returns Odoo's `False` for an unset code, because the key is present, and then `code += '-' + value_code` raises TypeError, answered as 500 | a template without an internal reference, created with one attribute value that is found | the code falls back to the template name (then PRODUCT) and gets its segments | high (not executed) | AppFastapi.AssembleCodeAsWritten, AppFastapi.UnsetTemplateCodeFails | AppFastapi.AssembleCode |
| main_app.py:1018-1019, 1045 | `if not value: continue` skips the boolean `False`, so the `'False'` branch of line 1045 can never be taken, and an unchecked gold checkbox (sent as `false` by static/js/gold_management.js:745-752) is never stored | `gold_attributes = {"7": false}` for a boolean attribute: no attribute line is created | unchecked booleans are stored as "False" | medium (not executed) | MainApp.GoldLinesAsWritten, MainApp.UncheckedBoxDropped, MainApp.FalseContributesNothing | MainApp.GoldLines, MainApp.BooleansStored, MainApp.ProcessGoldAttributes |
| pricing_gateway.py:165-175 | `json.dumps` runs over `snapshot.dict()`, which keeps `as_of` a datetime, so it raises TypeError before any queue is reached | any pricing update with any snapshot: no SSE client receives it | serialise through the snapshot's JSON encoding, as app_fastapi.py:104-106 does | high (not executed) | PricingGateway.Gateway.OnPricingUpdateAsWritten, PricingGateway.DictPayloadNeverSerializes | PricingGateway.Gateway.OnPricingUpdate, PricingGateway.JsonPayloadSerializes |
