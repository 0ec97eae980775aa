# Sunbird Elasticsearch adapters and telemetry builder, modelled in Dafny

This project models three classes of the Sunbird platform:

- `ElasticSearchRestHighImpl` is the `ElasticSearchService` adapter over the asynchronous REST client.
- `ElasticSearchTcpImpl` is the adapter over the blocking transport client.
- `TelemetryGenerator` builds the AUDIT, SEARCH, LOG and ERROR telemetry events.

The model states, and proves, what each operation sends to Elasticsearch and how it completes the akka promise whose future it returns.

**Replies.** The client is not modelled. Its reply to a request (a response, or the exception it raised) is an input of each operation, and each operation returns a `Call`:

- the request it built, if any;
- an `Outcome`: the future it returned (with its completion, or never completed), or the exception it threw.

**Promises.** A promise is a write-once cell. Several error paths of the transport adapter complete their promise twice, and the model shows each of those operations throwing IllegalStateException.

**Java maps** are ordered entry lists, iterated in list order. `get` of an absent key is null. A `HashMap` has no order Java promises, so where the source builds one (the telemetry edata, for instance) the model's entry order is the order of the `put` calls. That order is a choice of the model, not a property of the source.

**Casts.** Every `(String)`, `(Map)`, `(List)` and `(Long)` cast of a map value is checked explicitly. A boxed number records its class (`Integer`, `Long` or another `Number`), and `(Long)` succeeds only on a `Long` or null. The `(List<Map>)` and `Map<String, String>` casts are unchecked in Java, so the model does not look inside the list or the map either.

Modules:

- `JavaLang`, `JavaMaps`: Java values, exceptions, `String.split`, `StringUtils.isBlank`, `equalsIgnoreCase`, map `get`/`put` and casts.
- `Promises`: the write-once promise.
- `SearchQuery`: the translation of a `SearchDTO` into a search plan, which both adapters share line for line, and the builder class the `search` methods fill step by step.
- `EsService`: requests, replies, caller-owned maps, and the keying of `getEsResultByListOfIds`.
- `Metrics`: `searchMetricsData`'s URL and POST.
- `RestHighAdapter`, `TcpAdapter`: the two adapters.
- `AdapterContrast`: where the two adapters agree and differ.
- `Telemetry`: the event builders, up to the event record handed to the serialiser.

## Model

| member | source | states |
|---|---|---|
| `JavaLang.SplitFirst` | sunbird-es-utils/src/main/java/org/sunbird/common/ElasticSearchRestHighImpl.java:508-515 | `split(",")` of a non-blank host list has a first piece exactly when some character is not a comma, and that piece is the text before the first comma |
| `JavaMaps.PutGet` | sunbird-es-utils/src/main/java/org/sunbird/common/ElasticSearchRestHighImpl.java:85 | after `put(k, v)`, `get(k)` is `v` and `get` of every other key is unchanged |
| `JavaMaps.PutKeepsOthers` | sunbird-es-utils/src/main/java/org/sunbird/common/ElasticSearchTcpImpl.java:526 | `put` keeps keys distinct, keeps every entry under another key and holds the new entry |
| `JavaMaps.PutTwice` | sunbird-es-utils/src/main/java/org/sunbird/common/ElasticSearchTcpImpl.java:526 | putting the same value under the same key twice is the same as once |
| `JavaMaps.CastRoundTrip` | common-util/src/main/java/org/sunbird/telemetry/util/TelemetryGenerator.java:162-183 | a successful `(String)`, `(Map)`, `(List)` or `(Long)` cast gives back the value it was given, null as null |
| `Promises.CompletesOnce` | sunbird-es-utils/src/main/java/org/sunbird/common/ElasticSearchTcpImpl.java:108-109 | a promise completed once keeps its first completion, and completing it again raises IllegalStateException out of the operation |
| `SearchQuery.QueryFieldWeights` | sunbird-es-utils/src/main/java/org/sunbird/common/ElasticSearchRestHighImpl.java:348-353 | the query fields become a field map exactly when they are distinct (a repeated field raises IllegalStateException), with every field as a key and the same unit boost on each |
| `SearchQuery.ChannelClause` | sunbird-es-utils/src/main/java/org/sunbird/common/ElasticSearchRestHighImpl.java:335-340 | a configured channel (not blank and not the property's own name) puts one channel match first in the query; otherwise no channel match appears |
| `SearchQuery.QueryStringClause` | sunbird-es-utils/src/main/java/org/sunbird/common/ElasticSearchRestHighImpl.java:343-355 | a blank query adds no simple query string; any other adds exactly one, right after the channel clause, over `all_fields` when no query fields are given and over exactly the query fields otherwise |
| `SearchQuery.AdditionalPropertySteps` | sunbird-es-utils/src/main/java/org/sunbird/common/ElasticSearchRestHighImpl.java:398-403 | each additional property becomes one step after the clauses, in map order |
| `SearchQuery.AdditionalSteps` | sunbird-es-utils/src/main/java/org/sunbird/common/ElasticSearchRestHighImpl.java:398-403 | one opaque helper step per additional-property entry, in map order |
| `SearchQuery.PagingAndProjection` | sunbird-es-utils/src/main/java/org/sunbird/common/ElasticSearchRestHighImpl.java:380-396 | the projection is always the DTO's fields and excluded fields; `from` and `size` are set exactly when offset and limit are given |
| `SearchQuery.CommonPlanFails` | sunbird-es-utils/src/main/java/org/sunbird/common/ElasticSearchRestHighImpl.java:343-377 | translation fails exactly when the query fields collide or a sort entry cannot be read |
| `SearchQuery.SortsAppend` | sunbird-es-utils/src/main/java/org/sunbird/common/ElasticSearchRestHighImpl.java:357-377 | sorts follow `sortBy` order: the sorts of a concatenation are the concatenated sorts, and the first failing entry decides the error |
| `SearchQuery.SortsSingle` | sunbird-es-utils/src/main/java/org/sunbird/common/ElasticSearchRestHighImpl.java:358-376 | a single `sortBy` entry yields that entry's sorts |
| `SearchQuery.NestedSortsShape` | sunbird-es-utils/src/main/java/org/sunbird/common/ElasticSearchRestHighImpl.java:364-374 | a nested descriptor yields one MIN-mode sort per `term` entry, in order, on the raw field with the descriptor's order; it fails exactly when a term value or (for a non-empty term) the order is not a String |
| `SearchQuery.EntrySortsShape` | sunbird-es-utils/src/main/java/org/sunbird/common/ElasticSearchRestHighImpl.java:359-375 | a key without a dot yields exactly one sort on its raw field; a dotted key yields the nested sorts of its descriptor's `term` map |
| `SearchQuery.MissingTermFails` | sunbird-es-utils/src/main/java/org/sunbird/common/ElasticSearchRestHighImpl.java:364-366 | a dotted key whose descriptor has no `term` map is a null dereference |
| `SearchQuery.AggregationsAppend` | sunbird-es-utils/src/main/java/org/sunbird/common/ElasticSearchRestHighImpl.java:623-638 | the aggregations of concatenated facet entries are the concatenated aggregations (entry order) |
| `SearchQuery.AggregationsShape` | sunbird-es-utils/src/main/java/org/sunbird/common/ElasticSearchRestHighImpl.java:617-646 | each facet entry gives a one-day date histogram when its kind is `date_histogram` in any case, a terms aggregation when the kind is null and nothing otherwise, named by the key and on the key's raw field |
| `SearchQuery.PlanBuilder.constructor` | sunbird-es-utils/src/main/java/org/sunbird/common/ElasticSearchRestHighImpl.java:325-332 | a new search source builder holds an empty plan |
| `SearchQuery.PlanBuilder.Must` | sunbird-es-utils/src/main/java/org/sunbird/common/ElasticSearchRestHighImpl.java:337-353 | `must` appends one clause to the bool query and changes nothing else |
| `SearchQuery.PlanBuilder.AddAdditionalProperty` | sunbird-es-utils/src/main/java/org/sunbird/common/ElasticSearchRestHighImpl.java:401 | one additional-property step is appended to the bool query and nothing else changes |
| `SearchQuery.PlanBuilder.AddSort` | sunbird-es-utils/src/main/java/org/sunbird/common/ElasticSearchRestHighImpl.java:360-373 | `sort` appends one sort and changes nothing else |
| `SearchQuery.PlanBuilder.FetchSource` | sunbird-es-utils/src/main/java/org/sunbird/common/ElasticSearchRestHighImpl.java:380-386 | `fetchSource` sets the projection and changes nothing else |
| `SearchQuery.PlanBuilder.From` | sunbird-es-utils/src/main/java/org/sunbird/common/ElasticSearchRestHighImpl.java:389-391 | `from` sets the offset and changes nothing else |
| `SearchQuery.PlanBuilder.Size` | sunbird-es-utils/src/main/java/org/sunbird/common/ElasticSearchRestHighImpl.java:394-396 | `size` sets the limit and changes nothing else |
| `SearchQuery.PlanBuilder.AddAggregation` | sunbird-es-utils/src/main/java/org/sunbird/common/ElasticSearchRestHighImpl.java:629-636 | `aggregation` appends one aggregation and changes nothing else |
| `SearchQuery.PlanBuilder.Delegate` | sunbird-es-utils/src/main/java/org/sunbird/common/ElasticSearchTcpImpl.java:414-417 | handing the facets to the helper is recorded and nothing else changes |
| `SearchQuery.AddNestedSorts` | sunbird-es-utils/src/main/java/org/sunbird/common/ElasticSearchRestHighImpl.java:366-374 | the loop over a descriptor's `term` map appends exactly the nested sorts, or stops with the error the translation gives |
| `SearchQuery.AddEntrySorts` | sunbird-es-utils/src/main/java/org/sunbird/common/ElasticSearchRestHighImpl.java:359-375 | one `sortBy` entry appends exactly its sorts, or stops with its error |
| `SearchQuery.AddSorts` | sunbird-es-utils/src/main/java/org/sunbird/common/ElasticSearchRestHighImpl.java:357-377 | the loop over `sortBy` appends exactly the translated sorts, in order, or stops with the first error |
| `SearchQuery.AddAdditionalProperties` | sunbird-es-utils/src/main/java/org/sunbird/common/ElasticSearchRestHighImpl.java:398-403 | the loop over the additional properties appends one step per entry, in order |
| `SearchQuery.AddClauses` | sunbird-es-utils/src/main/java/org/sunbird/common/ElasticSearchRestHighImpl.java:335-355 | the channel and query-string steps fill the bool query exactly as the translation says, or fail with its error |
| `SearchQuery.FillCommon` | sunbird-es-utils/src/main/java/org/sunbird/common/ElasticSearchRestHighImpl.java:325-406 | filling the builder from a DTO leaves exactly the shared translation of the DTO in it, or reports the translation's error |
| `EsService.Document.constructor` | sunbird-es-utils/src/main/java/org/sunbird/common/ElasticSearchRestHighImpl.java:73 | a caller's map is held as given |
| `EsService.Document.Put` | sunbird-es-utils/src/main/java/org/sunbird/common/ElasticSearchRestHighImpl.java:85 | `map.put` updates the caller's map in place as `put` on its entries |
| `EsService.IdsSearch` | sunbird-es-utils/src/main/java/org/sunbird/common/ElasticSearchRestHighImpl.java:731-736 | the id search fails with a null dereference exactly when the DTO has no additional-properties map; otherwise it filters on `{id: ids}` and requests the given fields |
| `EsService.KeyById` | sunbird-es-utils/src/main/java/org/sunbird/common/ElasticSearchRestHighImpl.java:743-751 | `toMap` by id succeeds exactly when every hit is a map with a String (or null) id and no id repeats; each hit is then under its id and there are as many keys as hits; failures are NullPointer, ClassCast or IllegalState |
| `EsService.HitsSnoc` | sunbird-es-utils/src/main/java/org/sunbird/common/ElasticSearchRestHighImpl.java:743-751 | one more hit keeps the hits readable exactly when it is readable itself, and free of repeated ids exactly when its id is new |
| `EsService.ResultsByIdOrEmpty` | sunbird-es-utils/src/main/java/org/sunbird/common/ElasticSearchRestHighImpl.java:739-751 | the corrected keying: a result without `content` keys to an empty map; a `content` list is keyed by id with one key per hit |
| `EsService.KeyingOnMissingContent` | sunbird-es-utils/src/main/java/org/sunbird/common/ElasticSearchRestHighImpl.java:741-744 | the as-written and the corrected keying agree whenever `content` is present; without it the as-written one dereferences null and the corrected one yields no hits |
| `Metrics.BaseUrlFromHosts` | sunbird-es-utils/src/main/java/org/sunbird/common/ElasticSearchRestHighImpl.java:508-515 | with a non-blank host list the base URL is `http://` + the text before the first comma + `:` + the metrics port; a list of commas only raises an index error |
| `Metrics.BaseUrlFromProperty` | sunbird-es-utils/src/main/java/org/sunbird/common/ElasticSearchRestHighImpl.java:516-521 | with a blank host variable the base URL is the configured `es_url` (null printed as `null`) |
| `Metrics.RequestUrlShape` | sunbird-es-utils/src/main/java/org/sunbird/common/ElasticSearchRestHighImpl.java:522 | the request URL is the base followed by `/<index>/_doc/_search`, and the host part holds no comma |
| `Metrics.MetricsSearchShape` | sunbird-es-utils/src/main/java/org/sunbird/common/ElasticSearchRestHighImpl.java:522-542 | a POST is made exactly when the URL can be built, with the raw query and a JSON content type; an answer is returned under `response` and a failure is classified |
| `RestHighAdapter.Save` | sunbird-es-utils/src/main/java/org/sunbird/common/ElasticSearchRestHighImpl.java:73-137 | a blank identifier or index completes with `ERROR` and leaves the map alone; a null map is a null dereference; otherwise `identifier` is put into the map and the document is indexed under it, completing with the response id or failing with the cause |
| `RestHighAdapter.Update` | sunbird-es-utils/src/main/java/org/sunbird/common/ElasticSearchRestHighImpl.java:147-203 | a request is sent exactly when index and identifier are not blank and data is not null, as a partial document; invalid input fails with invalidData; an answer completes with `true` and a failure fails the promise |
| `RestHighAdapter.Upsert` | sunbird-es-utils/src/main/java/org/sunbird/common/ElasticSearchRestHighImpl.java:659-717 | a request is sent exactly when the input is valid and the data is not empty, carrying the data only as the document to insert; invalid input fails with invalidData |
| `RestHighAdapter.GetDataByIdentifier` | sunbird-es-utils/src/main/java/org/sunbird/common/ElasticSearchRestHighImpl.java:214-259 | a found document completes with its source (an empty map for an empty source); a missing one leaves the promise uncompleted; a failure fails it |
| `RestHighAdapter.Delete` | sunbird-es-utils/src/main/java/org/sunbird/common/ElasticSearchRestHighImpl.java:269-308 | an answered delete completes with `false` exactly when the result is NOT_FOUND; a failure fails the promise |
| `RestHighAdapter.AddAggregations` | sunbird-es-utils/src/main/java/org/sunbird/common/ElasticSearchRestHighImpl.java:617-646 | the loop over the first facet group appends exactly that group's aggregations |
| `RestHighAdapter.BuildSearchSource` | sunbird-es-utils/src/main/java/org/sunbird/common/ElasticSearchRestHighImpl.java:320-411 | the search source built is the shared translation plus the first facet group's aggregations, or the translation's error |
| `RestHighAdapter.Search` | sunbird-es-utils/src/main/java/org/sunbird/common/ElasticSearchRestHighImpl.java:320-458 | `search` sends exactly the translated plan, or throws the translation error before any request |
| `RestHighAdapter.OnlyFirstFacetGroup` | sunbird-es-utils/src/main/java/org/sunbird/common/ElasticSearchRestHighImpl.java:409-411 | only the first facet group yields aggregations, none without facets, and nothing is delegated |
| `RestHighAdapter.SearchWithoutHits` | sunbird-es-utils/src/main/java/org/sunbird/common/ElasticSearchRestHighImpl.java:423-436 | a response without hits (null or zero total) completes with an empty map, any other with the response map |
| `RestHighAdapter.BulkInsert` | sunbird-es-utils/src/main/java/org/sunbird/common/ElasticSearchRestHighImpl.java:561-611 | one index request per map, in list order, without ids; an answer with an item iterator completes with `true`, one without leaves the promise uncompleted; a failure completes with `false`; a null list is a null dereference |
| `RestHighAdapter.IdsSearchCall` | sunbird-es-utils/src/main/java/org/sunbird/common/ElasticSearchRestHighImpl.java:729-738 | the id search throws a null dereference when the DTO has no additional properties, and otherwise is exactly the search of the id filter |
| `RestHighAdapter.GetEsResultByListOfIds` | sunbird-es-utils/src/main/java/org/sunbird/common/ElasticSearchRestHighImpl.java:729-753 | as written: the id search is run and the `content` of its awaited result keyed by id; a search that throws propagates; a search without hits throws NullPointerException |
| `RestHighAdapter.GetEsResultByListOfIdsCorrected` | sunbird-es-utils/src/main/java/org/sunbird/common/ElasticSearchRestHighImpl.java:729-753 | corrected: the same search, keyed with a missing `content` taken as no hits, so a search without hits completes with an empty id map |
| `RestHighAdapter.SearchMetricsData` | sunbird-es-utils/src/main/java/org/sunbird/common/ElasticSearchRestHighImpl.java:502-550 | any failure of the POST or of parsing becomes unableToConnectToES with SERVER_ERROR; an answer is returned under `response` |
| `RestHighAdapter.ZeroHitsIdLookup` | sunbird-es-utils/src/main/java/org/sunbird/common/ElasticSearchRestHighImpl.java:738-744 | an id search without hits completes with an empty map, which the as-written keying dereferences as null while the corrected keying yields no hits |
| `TcpAdapter.Save` | sunbird-es-utils/src/main/java/org/sunbird/common/ElasticSearchTcpImpl.java:67-112 | a blank identifier or index completes with `ERROR` leaving the map alone; otherwise `identifier` is put into the map and the document indexed under it, completing with the id; any exception (a null map included) fails the promise and the second completion throws IllegalStateException |
| `TcpAdapter.GetDataByIdentifier` | sunbird-es-utils/src/main/java/org/sunbird/common/ElasticSearchTcpImpl.java:122-154 | a request is sent exactly when index and identifier are not blank; a blank key, a null response or a null source complete with an empty map; otherwise the source; a client exception propagates |
| `TcpAdapter.Update` | sunbird-es-utils/src/main/java/org/sunbird/common/ElasticSearchTcpImpl.java:166-215 | a request is sent exactly when the input is valid; the result is `true` exactly when it is named UPDATED; invalid input gives `false`; a failure makes the second completion throw |
| `TcpAdapter.Upsert` | sunbird-es-utils/src/main/java/org/sunbird/common/ElasticSearchTcpImpl.java:227-276 | the request carries the data as partial document and as document to insert; a result named in the upsert list completes with `true`, any other leaves the promise uncompleted; invalid input gives `false`; a failure makes the second completion throw |
| `TcpAdapter.Delete` | sunbird-es-utils/src/main/java/org/sunbird/common/ElasticSearchTcpImpl.java:285-315 | a blank key completes with `false` without a request; an answered delete completes with `true` exactly when the result is DELETED; a failure leaves no response, which is dereferenced |
| `TcpAdapter.DeletedNameOnly` | sunbird-es-utils/src/main/java/org/sunbird/common/ElasticSearchTcpImpl.java:313 | of the result names only DELETED equals "DELETED" ignoring case |
| `TcpAdapter.BuildSearchRequest` | sunbird-es-utils/src/main/java/org/sunbird/common/ElasticSearchTcpImpl.java:324-417 | the request built is the shared translation with all facet groups handed to the helper, or the translation's error |
| `TcpAdapter.Search` | sunbird-es-utils/src/main/java/org/sunbird/common/ElasticSearchTcpImpl.java:324-439 | `search` sends exactly the translated plan, or throws the translation error before any request |
| `TcpAdapter.SearchReplies` | sunbird-es-utils/src/main/java/org/sunbird/common/ElasticSearchTcpImpl.java:422-438 | a response completes with its response map whatever the hit count; a search-phase failure throws a client error with the root cause's message; any other failure propagates |
| `TcpAdapter.StampShape` | sunbird-es-utils/src/main/java/org/sunbird/common/ElasticSearchTcpImpl.java:526 | after the stamp `identifier` holds the value of `id`, every other key is unchanged, and stamping again changes nothing |
| `TcpAdapter.StampTwice` | sunbird-es-utils/src/main/java/org/sunbird/common/ElasticSearchTcpImpl.java:526 | the stamp keeps `id`, and stamping a stamped map changes nothing |
| `TcpAdapter.StampRequestStable` | sunbird-es-utils/src/main/java/org/sunbird/common/ElasticSearchTcpImpl.java:525-529 | a map stamped already yields the same index request as before |
| `TcpAdapter.StampOne` | sunbird-es-utils/src/main/java/org/sunbird/common/ElasticSearchTcpImpl.java:525-529 | one turn of the loop stamps the map in place and yields the index request under the stamped id, or the cast error |
| `TcpAdapter.StampAll` | sunbird-es-utils/src/main/java/org/sunbird/common/ElasticSearchTcpImpl.java:525-530 | the loop stamps the maps in list order and yields one request per map; it succeeds exactly when no map is null and every id is a String, and then every map is stamped and every request is under its map's id; a map is never changed except by the stamp |
| `TcpAdapter.BulkInsert` | sunbird-es-utils/src/main/java/org/sunbird/common/ElasticSearchTcpImpl.java:482-554 | completes with `true` first; every map gets `identifier := id` in place and one index request in list order; a null list or map, a non-String id or a failure afterwards makes the second completion throw IllegalStateException |
| `TcpAdapter.GetEsResultByListOfIds` | sunbird-es-utils/src/main/java/org/sunbird/common/ElasticSearchTcpImpl.java:447-472 | the id search is run and the `content` of its (already complete) result keyed by id as written; a search that throws propagates |
| `TcpAdapter.IdLookupAnswered` | sunbird-es-utils/src/main/java/org/sunbird/common/ElasticSearchTcpImpl.java:457-470 | an answered id search completes with the response map, and the keying succeeds exactly when every hit is a readable map and no id repeats |
| `TcpAdapter.Classify` | sunbird-es-utils/src/main/java/org/sunbird/common/ElasticSearchTcpImpl.java:611-620 | an IOException becomes unableToConnectToES, any other failure unableToParseData, both with SERVER_ERROR |
| `TcpAdapter.SearchMetricsData` | sunbird-es-utils/src/main/java/org/sunbird/common/ElasticSearchTcpImpl.java:591-640 | the POST is classified per failure kind; an answer is returned under `response`; an unbuildable URL raises an index error |
| `AdapterContrast.SamePlanApartFromFacets` | sunbird-es-utils/src/main/java/org/sunbird/common/ElasticSearchTcpImpl.java:324-417 | both adapters fail on the same DTOs with the same error, and otherwise send the same plan apart from the facets (aggregations of the first group, or all groups delegated) |
| `AdapterContrast.ZeroHitsAnswers` | sunbird-es-utils/src/main/java/org/sunbird/common/ElasticSearchTcpImpl.java:431-438 | a search without hits completes with an empty map in the REST adapter and with the response map in the transport adapter |
| `AdapterContrast.UpdateContrast` | sunbird-es-utils/src/main/java/org/sunbird/common/ElasticSearchTcpImpl.java:172-175 | `update` accepts the same inputs and sends the same request in both adapters; on invalid input one fails with invalidData and the other completes with `false` |
| `AdapterContrast.UpsertContrast` | sunbird-es-utils/src/main/java/org/sunbird/common/ElasticSearchTcpImpl.java:233-239 | `upsert` accepts the same inputs in both adapters; the REST adapter sends the data only as the document to insert, the transport adapter as both |
| `AdapterContrast.DeleteContrast` | sunbird-es-utils/src/main/java/org/sunbird/common/ElasticSearchTcpImpl.java:313 | on an answered delete the two adapters agree exactly when the result is DELETED or NOT_FOUND |
| `Telemetry.EventContext.constructor` | common-util/src/main/java/org/sunbird/telemetry/util/TelemetryGenerator.java:113 | a new event context holds channel, environment and producer, with empty correlated data and no rollup |
| `Telemetry.EventContext.SetCdata` | common-util/src/main/java/org/sunbird/telemetry/util/TelemetryGenerator.java:83 | `setCdata` replaces the correlated data and nothing else |
| `Telemetry.EventContext.AddCdata` | common-util/src/main/java/org/sunbird/telemetry/util/TelemetryGenerator.java:57-63 | `getCdata().add` appends one entry and changes nothing else |
| `Telemetry.EventContext.SetRollup` | common-util/src/main/java/org/sunbird/telemetry/util/TelemetryGenerator.java:114-116 | `setRollup` sets the rollup and nothing else |
| `Telemetry.KeyList` | common-util/src/main/java/org/sunbird/telemetry/util/TelemetryGenerator.java:98-99 | the `props` list has one String per key of the map, in iteration order |
| `Telemetry.GetContext` | common-util/src/main/java/org/sunbird/telemetry/util/TelemetryGenerator.java:109-118 | the context built is the one the context map describes, or the cast error |
| `Telemetry.SetCorrelatedDataToContext` | common-util/src/main/java/org/sunbird/telemetry/util/TelemetryGenerator.java:71-84 | the loop sets the correlated data to the correlated objects' entries, or leaves the context unchanged and reports the error |
| `Telemetry.AddRequestId` | common-util/src/main/java/org/sunbird/telemetry/util/TelemetryGenerator.java:57-63 | the request-id step updates the context as the request-id rule says, or reports the cast error and leaves it unchanged |
| `Telemetry.Audit` | common-util/src/main/java/org/sunbird/telemetry/util/TelemetryGenerator.java:42-69 | `audit` builds exactly the audit event the two maps describe |
| `Telemetry.StartEvent` | common-util/src/main/java/org/sunbird/telemetry/util/TelemetryGenerator.java:143-156 | the envelope of search, log and error: actor, context and request id |
| `Telemetry.Search` | common-util/src/main/java/org/sunbird/telemetry/util/TelemetryGenerator.java:138-160 | `search` builds exactly the search event the two maps describe, or raises the ClassCastException of a mistyped edata value (an `Integer` size included) |
| `Telemetry.SearchSizeIsLong` | common-util/src/main/java/org/sunbird/telemetry/util/TelemetryGenerator.java:169 | search edata is built only for a null or `Long` size; an `Integer` size behind readable type, query, filters and sort raises ClassCastException |
| `Telemetry.GetParamsList` | common-util/src/main/java/org/sunbird/telemetry/util/TelemetryGenerator.java:226-238 | the loop yields one single-entry map per non-ignored entry, in order; empty for a null or empty map |
| `Telemetry.Log` | common-util/src/main/java/org/sunbird/telemetry/util/TelemetryGenerator.java:185-209 | `log` builds exactly the log event the two maps describe |
| `Telemetry.Error` | common-util/src/main/java/org/sunbird/telemetry/util/TelemetryGenerator.java:240-264 | `error` builds exactly the error event the two maps describe |
| `Telemetry.EdataKeysDistinct` | common-util/src/main/java/org/sunbird/telemetry/util/TelemetryGenerator.java:162-224 | the keys of search and of log edata are pairwise distinct |
| `Telemetry.EmptyOnInvalidRequest` | common-util/src/main/java/org/sunbird/telemetry/util/TelemetryGenerator.java:277-285 | every builder returns the empty string exactly when the context or params map is null or empty |
| `Telemetry.RequestIdAppends` | common-util/src/main/java/org/sunbird/telemetry/util/TelemetryGenerator.java:150-156 | a non-blank request id appends exactly one entry `{id, type: request}` at the end of the correlated data; a blank one changes nothing |
| `Telemetry.CorrelatedShape` | common-util/src/main/java/org/sunbird/telemetry/util/TelemetryGenerator.java:71-84 | the correlated entries exist exactly when every object is a map; there is one per object, in order, holding only its `id` and `type` |
| `Telemetry.CorrelatedNullOrEmpty` | common-util/src/main/java/org/sunbird/telemetry/util/TelemetryGenerator.java:74 | a null or empty correlated list empties the correlated data |
| `Telemetry.AuditCdata` | common-util/src/main/java/org/sunbird/telemetry/util/TelemetryGenerator.java:52-63 | an audit event's correlated data is the correlated objects' entries (when the params name any) followed by the request-id entry |
| `Telemetry.EnvelopeCdata` | common-util/src/main/java/org/sunbird/telemetry/util/TelemetryGenerator.java:147-156 | a search, log or error event's correlated data is the request-id entry alone (or empty), the rest of its context is `getContext`'s |
| `Telemetry.AuditEdataShape` | common-util/src/main/java/org/sunbird/telemetry/util/TelemetryGenerator.java:95-106 | audit `props` lists the keys of the params' `props` map; `state` is present exactly when the target's current state is non-null, and then holds it; no other key |
| `Telemetry.AuditWithoutProps` | common-util/src/main/java/org/sunbird/telemetry/util/TelemetryGenerator.java:98-99 | a missing `props` map is a null dereference |
| `Telemetry.ContextRollup` | common-util/src/main/java/org/sunbird/telemetry/util/TelemetryGenerator.java:114-116 | the context's rollup is set exactly when the context map has a non-empty one, and then is that map |
| `Telemetry.TargetRollup` | common-util/src/main/java/org/sunbird/telemetry/util/TelemetryGenerator.java:86-93 | the target's rollup is the target map's rollup when there is one; a missing target map is a null dereference |
| `Telemetry.SearchEdataEntries` | common-util/src/main/java/org/sunbird/telemetry/util/TelemetryGenerator.java:162-183 | search edata is the six entries type, query, filters, sort, size and top-n, in `put` order, each holding the params value (the empty string for a null query) |
| `Telemetry.SearchEdataCopies` | common-util/src/main/java/org/sunbird/telemetry/util/TelemetryGenerator.java:162-183 | search edata has exactly type, query, filters, sort, size and top-n; a null query becomes the empty string and the others are copied unchanged |
| `Telemetry.ParamsListAppend` | common-util/src/main/java/org/sunbird/telemetry/util/TelemetryGenerator.java:229-235 | the parameter list keeps iteration order: the list of a concatenation is the concatenation of the lists |
| `Telemetry.ParamsListShape` | common-util/src/main/java/org/sunbird/telemetry/util/TelemetryGenerator.java:226-238 | every element is a single-entry map of a non-ignored entry and every non-ignored entry has one |
| `Telemetry.LogEdataEntries` | common-util/src/main/java/org/sunbird/telemetry/util/TelemetryGenerator.java:211-224 | log edata is the four entries type, level, message and params, in `put` order, the first three holding the params values |
| `Telemetry.LogEdataShape` | common-util/src/main/java/org/sunbird/telemetry/util/TelemetryGenerator.java:211-224 | log edata has exactly type, level, message and params, in `put` order; the first three are copied from the params and `params` holds the parameter list |
| `Telemetry.LogParamsNotIgnored` | common-util/src/main/java/org/sunbird/telemetry/util/TelemetryGenerator.java:226-238 | every element of the log parameter list is a single-entry map holding an entry of the params, never the log type, level or message |
| `Telemetry.ErrorEdataExact` | common-util/src/main/java/org/sunbird/telemetry/util/TelemetryGenerator.java:266-275 | error edata holds exactly `error`, `errtype` and `stacktrace`, copied from the params, and exists exactly when the three are Strings or null |
| `Telemetry.EventKinds` | common-util/src/main/java/org/sunbird/telemetry/util/TelemetryGenerator.java:158-261 | search, log and error events carry their own kind, no target, and their kind's edata |

## Left out

- JsonKey.java is not part of this model. The JsonKey constants are given plausible literal values, and the proofs rely only on their being distinct.
- `ElasticSearchHelper` is not part of this model. Its members become inputs or opaque plan steps:
  - `getConstraints`, `createMatchQuery`, `getSortOrder`: the channel clause and the sort orders keep the raw strings.
  - `addAdditionalProperties`: one opaque step per entry.
  - `getSearchResponseMap`: a field of the search response.
  - the transport adapter's `addAggregations`: a recorded hand-over of the facets.
  - `upsertResults`: a parameter.
  - `RAW_APPEND`: a configuration string.
  - `getResponseFromFuture`: the value of a future completed with success. Its handling of a failed or uncompleted future is not modelled; such a future yields null.
- `ConnectionManager`, `PropertiesCache`, `System.getenv`, `HttpUtil.sendPostRequest` and Jackson are not modelled. The channel property, the environment and the HTTP/JSON reply are inputs.
- Networking, the `*Async` calls, listener threads, blocking `get()`/`actionGet()` and the 30-second `WAIT_TIME` timeout are not modelled. A reply is delivered once, and the REST adapter's listener is taken to run before the future is read.
- Float boosts are abstract weights (`DefaultBoost`, `UnitBoost`), because their values do not affect what is built.
- `TcpAdapter.BulkInsert`: the `BulkProcessor` batching, flush, close and index refresh are not modelled. What they raise, if anything, is the input `afterward`.
- `TcpAdapter.Upsert`: the source catches only InterruptedException and ExecutionException, and the model takes every client failure to arrive that way.
- `healthCheck`, logging, timing and `calculateEndTime` are not modelled: they are a thin wrapper or have no effect on results.
- `Telemetry.Audit`, `Telemetry.Search`, `Telemetry.Log`, `Telemetry.Error`:
  - the serialisation `getTelemetry` is not modelled, and neither is its empty string on a serialisation failure. Each builder returns the event record, with `None` for the empty string of an invalid request.
  - the `Telemetry`, `Context`, `Actor`, `Producer` and `Target` classes are not part of this model. `Context` is taken to start with an empty, modifiable correlated-data list and no rollup.
  - `TelemetryEvents` is not part of this model: its event names are an enumeration.
- `Telemetry.SetCorrelatedDataToContext`: the `(ArrayList)` cast is modelled as a cast to any list. A list that is not an `ArrayList` raises ClassCastException in Java but succeeds in the model.
- `RestHighAdapter.BulkInsert`: a null map in the list gives an index request with a null source. The client's reaction to that request is part of the reply.
- `SearchDTO` is not part of this model. Its defaults are a parameter `blank` of the id lookup. Its model types also leave out three failures of the Java code, in both adapters:
  - a null first facet group: the model's facet groups are never null, so the REST adapter's `map.entrySet()` on a null `facets.get(0)` (ElasticSearchRestHighImpl.java:623-624) does not throw NullPointerException in the model;
  - a null `sortBy` key: the model's keys are strings, so `entry.getKey().contains(".")` on a null key (ElasticSearchRestHighImpl.java:359) does not throw NullPointerException in the model;
  - a non-String facet value: a facet kind is an optional string, so the heap-polluted `String value = entry.getValue()` (ElasticSearchRestHighImpl.java:627) does not throw ClassCastException in the model.

## Findings

| source | as written | input that shows it | evidently intended | confidence | as-written member | corrected member |
|---|---|---|---|---|---|---|
| sunbird-es-utils/src/main/java/org/sunbird/common/ElasticSearchRestHighImpl.java:738-744 | the search future's value is read as `result.get(CONTENT)` and streamed without a null check | an id search whose reply has zero total hits: `search` completes with an empty map (lines 424-425), so `esContent` is null and `esContent.stream()` throws NullPointerException | a search without hits yields an empty id map | not executed; assumes `getResponseFromFuture` returns the completed map | `RestHighAdapter.ZeroHitsIdLookup`, `RestHighAdapter.GetEsResultByListOfIds` | `RestHighAdapter.GetEsResultByListOfIdsCorrected` |
