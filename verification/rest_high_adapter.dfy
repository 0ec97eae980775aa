/** `ElasticSearchRestHighImpl`: the adapter over the asynchronous high-level REST client.
    Each operation builds a request, hands it to the client with a listener, and returns
    the future of a promise the listener completes; the client's reply is an input. */
module RestHighAdapter {
  import opened JavaLang
  import opened JavaMaps
  import opened Promises
  import opened SearchQuery
  import opened EsService
  import opened Metrics

  /** The listener's verdict on an asynchronous reply when every response means `v`. */
  function Answer<R, T>(reply: Reply<R>, v: T): Outcome<T> {
    match reply
    case Answered(_) => Settle(Fresh<T>().Success(v))
    case Raised(cause) => Settle(Fresh<T>().Failure(Thrown(cause)))
  }

  const InvalidDataFailure: Exception := ProjectCommon(InvalidData, OwnStatus)

  // ---------------------------------------------------------------------------
  // save

  /** `save`: a blank identifier or index completes with "ERROR" and touches nothing;
      otherwise `identifier` is put into `data` and the document is indexed under that id. */
  method Save(index: Option<string>, identifier: Option<string>, data: Document?, reply: Reply<IndexResponse>)
    returns (c: Call<string>)
    modifies data
    ensures IsBlank(identifier) || IsBlank(index) ==>
      c == Call(None, Returned(Some(Succeeded(ERROR)))) && (data != null ==> data.fields == old(data.fields))
    ensures !IsBlank(identifier) && !IsBlank(index) && data == null ==> c == Call(None, Threw(NullPointer))
    ensures !IsBlank(identifier) && !IsBlank(index) && data != null ==>
      && data.fields == JavaMaps.Put(old(data.fields), IDENTIFIER, Str(identifier.value))
      && c.request == Some(IndexRequest(index, identifier, Some(data.fields)))
      && c.outcome == (match reply
                       case Answered(r) => Returned(Some(Succeeded(r.id)))
                       case Raised(cause) => Returned(Some(Failed(Thrown(cause)))))
  {
    var promise := Fresh<string>();
    if IsBlank(identifier) || IsBlank(index) {
      return Call(None, Settle(promise.Success(ERROR)));
    }
    if data == null {
      return Call(None, Threw(NullPointer));
    }
    data.Put(IDENTIFIER, Str(identifier.value));
    var request := IndexRequest(index, identifier, Some(data.fields));
    match reply {
      case Answered(r) => c := Call(Some(request), Settle(promise.Success(r.id)));
      case Raised(cause) => c := Call(Some(request), Settle(promise.Failure(Thrown(cause))));
    }
  }

  // ---------------------------------------------------------------------------
  // update, upsert, getDataByIdentifier, delete

  predicate UpdateValid(index: Option<string>, identifier: Option<string>, data: Option<JMap>) {
    !IsBlank(index) && !IsBlank(identifier) && data.Some?
  }

  /** `update`: invalid input fails with invalidData without a backend call; a valid one
      sends `data` as a partial document and completes with `true` whatever the result. */
  function Update(index: Option<string>, identifier: Option<string>, data: Option<JMap>, reply: Reply<WriteResponse>)
    : (c: Call<bool>)
    ensures c.request.Some? <==> UpdateValid(index, identifier, data)
    ensures !UpdateValid(index, identifier, data) ==> c.outcome == Returned(Some(Failed(InvalidDataFailure)))
    ensures UpdateValid(index, identifier, data) ==>
      && c.request.value.UpdateRequest? && c.request.value.doc == data && c.request.value.upsert.None?
      && c.request.value.id == identifier && c.request.value.index == index
    ensures UpdateValid(index, identifier, data) && reply.Answered? ==> c.outcome == Returned(Some(Succeeded(true)))
    ensures UpdateValid(index, identifier, data) && reply.Raised? ==>
      c.outcome == Returned(Some(Failed(Thrown(reply.cause))))
  {
    if UpdateValid(index, identifier, data) then
      Call(Some(UpdateRequest(index, identifier, data, None)), Answer(reply, true))
    else
      Call(None, Settle(Fresh<bool>().Failure(InvalidDataFailure)))
  }

  predicate UpsertValid(index: Option<string>, identifier: Option<string>, data: Option<JMap>) {
    !IsBlank(index) && !IsBlank(identifier) && data.Some? && |data.value| > 0
  }

  /** `upsert`: like `update`, but empty data is invalid too, and the request carries
      `data` only as the document to insert when none exists. */
  function Upsert(index: Option<string>, identifier: Option<string>, data: Option<JMap>, reply: Reply<WriteResponse>)
    : (c: Call<bool>)
    ensures c.request.Some? <==> UpsertValid(index, identifier, data)
    ensures !UpsertValid(index, identifier, data) ==> c.outcome == Returned(Some(Failed(InvalidDataFailure)))
    ensures UpsertValid(index, identifier, data) ==>
      && c.request.value.UpdateRequest? && c.request.value.doc.None? && c.request.value.upsert == data
      && c.request.value.id == identifier && c.request.value.index == index
    ensures UpsertValid(index, identifier, data) && reply.Answered? ==> c.outcome == Returned(Some(Succeeded(true)))
    ensures UpsertValid(index, identifier, data) && reply.Raised? ==>
      c.outcome == Returned(Some(Failed(Thrown(reply.cause))))
  {
    if UpsertValid(index, identifier, data) then
      Call(Some(UpdateRequest(index, identifier, None, data)), Answer(reply, true))
    else
      Call(None, Settle(Fresh<bool>().Failure(InvalidDataFailure)))
  }

  /** `getDataByIdentifier`: no validation; an existing document completes with its
      source, or an empty map when the source is null or empty; a missing document
      leaves the promise uncompleted. */
  function GetDataByIdentifier(index: Option<string>, identifier: Option<string>, reply: Reply<GetResponse>)
    : (c: Call<JMap>)
    ensures c.request == Some(GetRequest(index, identifier))
    ensures reply.Raised? ==> c.outcome == Returned(Some(Failed(Thrown(reply.cause))))
    ensures reply.Answered? && !reply.response.found ==> c.outcome == Returned(None)
    ensures reply.Answered? && reply.response.found ==>
      c.outcome == Returned(Some(Succeeded(if IsEmptyMap(reply.response.source) then [] else reply.response.source.value)))
  {
    var promise := Fresh<JMap>();
    var outcome :=
      match reply
      case Raised(cause) => Settle(promise.Failure(Thrown(cause)))
      case Answered(r) =>
        if !r.found then Returned(None)
        else if !IsEmptyMap(r.source) then Settle(promise.Success(r.source.value))
        else Settle(promise.Success([]));
    Call(Some(GetRequest(index, identifier)), outcome)
  }

  /** `delete`: no validation; completes with `false` exactly when the document was not
      found. */
  function Delete(index: Option<string>, identifier: Option<string>, reply: Reply<WriteResponse>): (c: Call<bool>)
    ensures c.request == Some(DeleteRequest(index, identifier))
    ensures reply.Raised? ==> c.outcome == Returned(Some(Failed(Thrown(reply.cause))))
    ensures reply.Answered? ==> c.outcome.Returned? && c.outcome.future.Some? && c.outcome.future.value.Succeeded?
    ensures reply.Answered? ==> (c.outcome.future.value.value == false <==> reply.response.result == NotFound)
  {
    var promise := Fresh<bool>();
    var outcome :=
      match reply
      case Raised(cause) => Settle(promise.Failure(Thrown(cause)))
      case Answered(r) => Settle(promise.Success(r.result != NotFound));
    Call(Some(DeleteRequest(index, identifier)), outcome)
  }

  // ---------------------------------------------------------------------------
  // search

  /** The plan `search` sends: the shared translation, then the aggregations of the first
      facet group. */
  function RestPlan(dto: SearchDTO, cfg: EsConfig): Result<Plan, Exception> {
    var p :- CommonPlan(dto, cfg);
    if HasFacets(dto) then Ok(p.(aggregations := AggregationsOf(dto.facets.value[0], cfg.rawAppend)))
    else Ok(p)
  }

  /** `addAggregations`: the loop over the entries of `facets.get(0)`. */
  method AddAggregations(b: PlanBuilder, facets: seq<FacetGroup>, raw: string)
    requires |facets| > 0
    modifies b
    ensures b.Build() == old(b.Build()).(aggregations := old(b.aggregations) + AggregationsOf(facets[0], raw))
  {
    var group := facets[0];
    var i := 0;
    while i < |group|
      invariant 0 <= i <= |group|
      invariant b.Build() == old(b.Build()).(aggregations := old(b.aggregations) + AggregationsOf(group[..i], raw))
    {
      var next := group[..i + 1];
      assert next[..|next| - 1] == group[..i];
      var e := group[i];
      if EqualsIgnoreCase(e.kind, DATE_HISTOGRAM) {
        b.AddAggregation(DateHistogram(e.key, e.key + raw, 1));
      } else if e.kind.None? {
        b.AddAggregation(Terms(e.key, e.key + raw));
      }
      i := i + 1;
    }
    assert group[..i] == group;
  }

  /** The search source builder as `search` fills it. */
  method BuildSearchSource(dto: SearchDTO, cfg: EsConfig) returns (r: Result<Plan, Exception>)
    ensures r == RestPlan(dto, cfg)
  {
    var b := new PlanBuilder();
    var err := FillCommon(b, dto, cfg);
    if err.Some? {
      return Err(err.value);
    }
    if dto.facets.Some? && dto.facets.value != [] {
      assert b.aggregations == [];
      AddAggregations(b, dto.facets.value, cfg.rawAppend);
      assert [] + AggregationsOf(dto.facets.value[0], cfg.rawAppend) == AggregationsOf(dto.facets.value[0], cfg.rawAppend);
    }
    return Ok(b.Build());
  }

  /** The search listener: no hits complete with an empty map, hits with the response
      map, a failure with the failure. */
  function SearchOutcome(reply: Reply<SearchResponse>): Outcome<JMap> {
    var promise := Fresh<JMap>();
    match reply
    case Raised(cause) => Settle(promise.Failure(Thrown(cause)))
    case Answered(r) =>
      if r.totalHits.None? || r.totalHits.value == 0 then Settle(promise.Success([]))
      else Settle(promise.Success(r.responseMap))
  }

  function SearchCall(dto: SearchDTO, index: Option<string>, cfg: EsConfig, reply: Reply<SearchResponse>): Call<JMap> {
    match RestPlan(dto, cfg)
    case Err(e) => Call(None, Threw(e))
    case Ok(p) => Call(Some(SearchRequest(index, p)), SearchOutcome(reply))
  }

  /** `search`: a translation error is thrown before any request; otherwise the plan is
      sent and the listener decides. */
  method Search(dto: SearchDTO, index: Option<string>, cfg: EsConfig, reply: Reply<SearchResponse>)
    returns (c: Call<JMap>)
    ensures c == SearchCall(dto, index, cfg, reply)
  {
    var plan := BuildSearchSource(dto, cfg);
    if plan.Err? {
      return Call(None, Threw(plan.error));
    }
    return Call(Some(SearchRequest(index, plan.value)), SearchOutcome(reply));
  }

  /** Only the first facet group is read, and without facets there are no aggregations. */
  lemma OnlyFirstFacetGroup(dto: SearchDTO, cfg: EsConfig)
    requires RestPlan(dto, cfg).Ok?
    ensures HasFacets(dto) ==>
      RestPlan(dto, cfg).value.aggregations == AggregationsOf(dto.facets.value[0], cfg.rawAppend)
    ensures !HasFacets(dto) ==> RestPlan(dto, cfg).value.aggregations == []
    ensures RestPlan(dto, cfg).value.delegated.None?
  {
  }

  /** A response without hits, or with a zero total, completes with an empty map; any
      other response with the map built from it. */
  lemma SearchWithoutHits(dto: SearchDTO, index: Option<string>, cfg: EsConfig, r: SearchResponse)
    requires RestPlan(dto, cfg).Ok?
    ensures var c := SearchCall(dto, index, cfg, Answered(r));
      && c.request == Some(SearchRequest(index, RestPlan(dto, cfg).value))
      && (c.outcome == Returned(Some(Succeeded([]))) <==> r.totalHits.None? || r.totalHits.value == 0 || r.responseMap == [])
      && ((r.totalHits.None? || r.totalHits.value == 0) ==> c.outcome == Returned(Some(Succeeded([]))))
      && (r.totalHits.Some? && r.totalHits.value != 0 ==> c.outcome == Returned(Some(Succeeded(r.responseMap))))
  {
  }

  // ---------------------------------------------------------------------------
  // bulkInsert

  /** `bulkInsert`: one index request without id per element, in list order; a reply
      completes with `true` (when it has an item iterator), a failure with `false`. */
  method BulkInsert(index: Option<string>, dataList: Option<seq<Option<JMap>>>, reply: Reply<BulkResponse>)
    returns (c: Call<bool>)
    ensures dataList.None? ==> c == Call(None, Threw(NullPointer))
    ensures dataList.Some? ==>
      && c.request.Some? && c.request.value.BulkRequest?
      && |c.request.value.items| == |dataList.value|
      && (forall i :: 0 <= i < |dataList.value| ==> c.request.value.items[i] == IndexRequest(index, None, dataList.value[i]))
    ensures dataList.Some? ==>
      c.outcome == match reply
                   case Answered(r) => if r.hasIterator then Returned(Some(Succeeded(true))) else Returned(None)
                   case Raised(_) => Returned(Some(Succeeded(false)))
  {
    if dataList.None? {
      return Call(None, Threw(NullPointer));
    }
    var list := dataList.value;
    var items: seq<Request> := [];
    var i := 0;
    while i < |list|
      invariant 0 <= i <= |list|
      invariant |items| == i
      invariant forall j :: 0 <= j < i ==> items[j] == IndexRequest(index, None, list[j])
    {
      items := items + [IndexRequest(index, None, list[i])];
      i := i + 1;
    }
    var promise := Fresh<bool>();
    var outcome :=
      match reply
      case Answered(r) => if r.hasIterator then Settle(promise.Success(true)) else Returned(None)
      case Raised(_) => Settle(promise.Success(false));
    return Call(Some(BulkRequest(items)), outcome);
  }

  // ---------------------------------------------------------------------------
  // getEsResultByListOfIds, searchMetricsData

  /** The search half of `getEsResultByListOfIds`: the id filter is built on the
      caller's DTO (a null dereference when it has no additional properties) and
      searched. */
  method IdsSearchCall(ids: Value, fields: Option<seq<string>>, index: Option<string>, blank: SearchDTO,
                       cfg: EsConfig, reply: Reply<SearchResponse>)
    returns (search: Call<JMap>)
    ensures IdsSearch(blank, ids, fields).Err? ==> search == Call(None, Threw(NullPointer))
    ensures IdsSearch(blank, ids, fields).Ok? ==> search == SearchCall(IdsSearch(blank, ids, fields).value, index, cfg, reply)
  {
    var dto := IdsSearch(blank, ids, fields);
    if dto.Err? {
      return Call(None, Threw(NullPointer));
    }
    search := Search(dto.value, index, cfg, reply);
  }

  /** `getEsResultByListOfIds` as written: searches with the id filter, waits for the
      search future and keys `result.get(CONTENT)` by id. A search without hits completes
      with an empty map, whose missing `content` is then dereferenced. */
  method GetEsResultByListOfIds(ids: Value, fields: Option<seq<string>>, index: Option<string>, blank: SearchDTO,
                                cfg: EsConfig, reply: Reply<SearchResponse>)
    returns (search: Call<JMap>, r: Outcome<map<Option<string>, JMap>>)
    ensures IdsSearch(blank, ids, fields).Err? ==> search == Call(None, Threw(NullPointer))
    ensures IdsSearch(blank, ids, fields).Ok? ==> search == SearchCall(IdsSearch(blank, ids, fields).value, index, cfg, reply)
    ensures search.outcome.Threw? ==> r == Threw(search.outcome.exception)
    ensures search.outcome.Returned? ==> r == Deliver(ResultsById(Awaited(search.outcome)))
    ensures search.outcome == Returned(Some(Succeeded([]))) ==> r == Threw(NullPointer)
  {
    search := IdsSearchCall(ids, fields, index, blank, cfg, reply);
    if search.outcome.Threw? {
      return search, Threw(search.outcome.exception);
    }
    r := Deliver(ResultsById(Awaited(search.outcome)));
  }

  /** `getEsResultByListOfIds` corrected: a result without `content` is keyed as no
      hits, so a search without hits yields an empty id map. */
  method GetEsResultByListOfIdsCorrected(ids: Value, fields: Option<seq<string>>, index: Option<string>, blank: SearchDTO,
                                         cfg: EsConfig, reply: Reply<SearchResponse>)
    returns (search: Call<JMap>, r: Outcome<map<Option<string>, JMap>>)
    ensures IdsSearch(blank, ids, fields).Err? ==> search == Call(None, Threw(NullPointer))
    ensures IdsSearch(blank, ids, fields).Ok? ==> search == SearchCall(IdsSearch(blank, ids, fields).value, index, cfg, reply)
    ensures search.outcome.Threw? ==> r == Threw(search.outcome.exception)
    ensures search.outcome.Returned? ==> r == Deliver(ResultsByIdOrEmpty(Awaited(search.outcome)))
    ensures search.outcome == Returned(Some(Succeeded([]))) ==> r == Returned(Some(Succeeded(map[])))
  {
    search := IdsSearchCall(ids, fields, index, blank, cfg, reply);
    if search.outcome.Threw? {
      return search, Threw(search.outcome.exception);
    }
    r := Deliver(ResultsByIdOrEmpty(Awaited(search.outcome)));
  }

  /** Every failure of the POST or of the parse becomes unableToConnectToES with
      SERVER_ERROR. */
  function Classify(cause: Cause): Exception {
    ProjectCommon(UnableToConnectToES, ServerError)
  }

  function SearchMetricsData(index: Option<string>, rawQuery: Option<string>, env: Environment, reply: Reply<JMap>)
    : (c: MetricsCall)
    ensures RequestUrl(env, index).Ok? && reply.Raised? ==> c.outcome == Err(ProjectCommon(UnableToConnectToES, ServerError))
    ensures RequestUrl(env, index).Ok? && reply.Answered? ==> c.outcome == Ok(MetricsResponse(reply.response))
    ensures RequestUrl(env, index).Err? ==> c == MetricsCall(None, Err(IndexOutOfBounds))
  {
    MetricsSearch(index, rawQuery, env, reply, Classify)
  }

  /** An id search without hits completes with an empty map, which has no `content`:
      keying it as written dereferences null, while the corrected keying yields no hits. */
  lemma ZeroHitsIdLookup(ids: Value, fields: Option<seq<string>>, index: Option<string>, blank: SearchDTO,
                         cfg: EsConfig, m: JMap)
    requires IdsSearch(blank, ids, fields).Ok? && RestPlan(IdsSearch(blank, ids, fields).value, cfg).Ok?
    ensures var c := SearchCall(IdsSearch(blank, ids, fields).value, index, cfg, Answered(SearchResponse(Some(0), m)));
      && c.outcome == Returned(Some(Succeeded([])))
      && Awaited(c.outcome) == Some([])
      && Deliver(ResultsById(Awaited(c.outcome))) == Threw(NullPointer)
      && Deliver(ResultsByIdOrEmpty(Awaited(c.outcome))) == Returned(Some(Succeeded(map[])))
  {
  }
}
