/** `ElasticSearchTcpImpl`: the adapter over the blocking transport client. Each
    operation waits for the client's reply (an input here), completes its promise in the
    calling thread and returns the promise's future; several of its error paths complete
    the promise a second time, which throws IllegalStateException out of the operation. */
module TcpAdapter {
  import opened JavaLang
  import opened JavaMaps
  import opened Promises
  import opened SearchQuery
  import opened EsService
  import opened Metrics

  const WAIT_TIME: int := 30
  const UPDATED_NAME: string := "UPDATED"
  const DELETED_NAME: string := "DELETED"

  // ---------------------------------------------------------------------------
  // save

  /** `save`: a blank identifier or index completes with "ERROR"; otherwise `identifier`
      is put into `data` and the document is indexed under that id. Any exception is
      caught, fails the promise and then completes it again, which throws. */
  method Save(index: Option<string>, identifier: Option<string>, data: Document?, reply: Reply<IndexResponse>)
    returns (c: Call<string>)
    modifies data
    ensures IsBlank(identifier) || IsBlank(index) ==>
      c == Call(None, Returned(Some(Succeeded(ERROR)))) && (data != null ==> data.fields == old(data.fields))
    ensures !IsBlank(identifier) && !IsBlank(index) && data == null ==> c == Call(None, Threw(IllegalState))
    ensures !IsBlank(identifier) && !IsBlank(index) && data != null ==>
      && data.fields == JavaMaps.Put(old(data.fields), IDENTIFIER, Str(identifier.value))
      && c.request == Some(IndexRequest(index, identifier, Some(data.fields)))
      && c.outcome == (match reply
                       case Answered(r) => Returned(Some(Succeeded(r.id)))
                       case Raised(_) => Threw(IllegalState))
  {
    var promise := Fresh<string>();
    if IsBlank(identifier) || IsBlank(index) {
      return Call(None, Settle(promise.Success(ERROR)));
    }
    if data == null {
      var failed := promise.Failure(NullPointer);
      return Call(None, Settle(failed.value.Success("")));
    }
    data.Put(IDENTIFIER, Str(identifier.value));
    var request := IndexRequest(index, identifier, Some(data.fields));
    match reply {
      case Answered(r) =>
        c := Call(Some(request), Settle(promise.Success(r.id)));
      case Raised(cause) =>
        var failed := promise.Failure(Thrown(cause));
        c := Call(Some(request), Settle(failed.value.Success("")));
    }
  }

  // ---------------------------------------------------------------------------
  // getDataByIdentifier, update, upsert, delete

  predicate KeyValid(index: Option<string>, identifier: Option<string>) {
    !IsBlank(index) && !IsBlank(identifier)
  }

  /** `getDataByIdentifier`: a blank index or identifier completes with an empty map
      without a backend call, as does a null response or a null source; otherwise the
      source is returned as it is. An exception of the client propagates. */
  function GetDataByIdentifier(index: Option<string>, identifier: Option<string>, reply: Reply<Option<GetResponse>>)
    : (c: Call<JMap>)
    ensures c.request.Some? <==> KeyValid(index, identifier)
    ensures !KeyValid(index, identifier) ==> c.outcome == Returned(Some(Succeeded([])))
    ensures KeyValid(index, identifier) ==> c.request.value == GetRequest(index, identifier)
    ensures KeyValid(index, identifier) && reply.Raised? ==> c.outcome == Threw(Thrown(reply.cause))
    ensures KeyValid(index, identifier) && reply.Answered? ==>
      c.outcome == Returned(Some(Succeeded(
        if reply.response.None? || reply.response.value.source.None? then [] else reply.response.value.source.value)))
  {
    var promise := Fresh<JMap>();
    if !KeyValid(index, identifier) then
      Call(None, Settle(promise.Success([])))
    else
      var outcome :=
        match reply
        case Raised(cause) => Threw(Thrown(cause))
        case Answered(r) =>
          if r.None? || r.value.source.None? then Settle(promise.Success([]))
          else Settle(promise.Success(r.value.source.value));
      Call(Some(GetRequest(index, identifier)), outcome)
  }

  predicate UpdateValid(index: Option<string>, identifier: Option<string>, data: Option<JMap>) {
    KeyValid(index, identifier) && data.Some?
  }

  /** `update`: completes with `true` exactly when a valid update's result is named
      "UPDATED"; invalid input or any other result completes with `false`. An exception
      fails the promise, and the `false` completion after it throws. */
  function Update(index: Option<string>, identifier: Option<string>, data: Option<JMap>, reply: Reply<WriteResponse>)
    : (c: Call<bool>)
    ensures c.request.Some? <==> UpdateValid(index, identifier, data)
    ensures UpdateValid(index, identifier, data) ==> c.request.value == UpdateRequest(index, identifier, data, None)
    ensures !UpdateValid(index, identifier, data) ==> c.outcome == Returned(Some(Succeeded(false)))
    ensures UpdateValid(index, identifier, data) && reply.Raised? ==> c.outcome == Threw(IllegalState)
    ensures UpdateValid(index, identifier, data) && reply.Answered? ==>
      c.outcome == Returned(Some(Succeeded(reply.response.result.Name() == UPDATED_NAME)))
  {
    var promise := Fresh<bool>();
    if !UpdateValid(index, identifier, data) then
      Call(None, Settle(promise.Success(false)))
    else
      var request := UpdateRequest(index, identifier, data, None);
      match reply
      case Raised(cause) =>
        var failed := promise.Failure(Thrown(cause));
        Call(Some(request), Settle(failed.value.Success(false)))
      case Answered(r) =>
        if r.result.Name() == UPDATED_NAME then Call(Some(request), Settle(promise.Success(true)))
        else Call(Some(request), Settle(promise.Success(false)))
  }

  predicate UpsertValid(index: Option<string>, identifier: Option<string>, data: Option<JMap>) {
    KeyValid(index, identifier) && data.Some? && |data.value| > 0
  }

  /** `upsert`: invalid input (including empty data) completes with `false`; a valid call
      whose result name is one of `upsertResults` (the helper's list, an input here)
      completes with `true`, any other result leaves the promise uncompleted. A failed
      call fails the promise and the `false` completion after it throws. */
  function Upsert(index: Option<string>, identifier: Option<string>, data: Option<JMap>, reply: Reply<WriteResponse>,
                  upsertResults: set<string>)
    : (c: Call<bool>)
    ensures c.request.Some? <==> UpsertValid(index, identifier, data)
    ensures UpsertValid(index, identifier, data) ==> c.request.value == UpdateRequest(index, identifier, data, data)
    ensures !UpsertValid(index, identifier, data) ==> c.outcome == Returned(Some(Succeeded(false)))
    ensures UpsertValid(index, identifier, data) && reply.Raised? ==> c.outcome == Threw(IllegalState)
    ensures UpsertValid(index, identifier, data) && reply.Answered? ==>
      (reply.response.result.Name() in upsertResults <==> c.outcome == Returned(Some(Succeeded(true))))
      && (reply.response.result.Name() !in upsertResults <==> c.outcome == Returned(None))
  {
    var promise := Fresh<bool>();
    if !UpsertValid(index, identifier, data) then
      Call(None, Settle(promise.Success(false)))
    else
      var request := UpdateRequest(index, identifier, data, data);
      match reply
      case Raised(cause) =>
        var failed := promise.Failure(Thrown(cause));
        Call(Some(request), Settle(failed.value.Success(false)))
      case Answered(r) =>
        if r.result.Name() in upsertResults then Call(Some(request), Settle(promise.Success(true)))
        else Call(Some(request), Returned(None))
  }

  /** `delete`: a blank index or identifier completes with `false` without a backend call;
      otherwise the result is `true` exactly when its name is "DELETED" in any case. A
      failed call fails the promise and then dereferences the missing response. */
  function Delete(index: Option<string>, identifier: Option<string>, reply: Reply<WriteResponse>): (c: Call<bool>)
    ensures c.request.Some? <==> KeyValid(index, identifier)
    ensures KeyValid(index, identifier) ==> c.request.value == DeleteRequest(index, identifier)
    ensures !KeyValid(index, identifier) ==> c.outcome == Returned(Some(Succeeded(false)))
    ensures KeyValid(index, identifier) && reply.Raised? ==> c.outcome == Threw(NullPointer)
    ensures KeyValid(index, identifier) && reply.Answered? ==>
      c.outcome == Returned(Some(Succeeded(reply.response.result == Deleted)))
  {
    var promise := Fresh<bool>();
    if !KeyValid(index, identifier) then
      Call(None, Settle(promise.Success(false)))
    else
      var request := DeleteRequest(index, identifier);
      match reply
      case Raised(cause) => Call(Some(request), Threw(NullPointer))
      case Answered(r) =>
        DeletedNameOnly(r.result);
        Call(Some(request), Settle(promise.Success(EqualsIgnoreCase(Some(r.result.Name()), DELETED_NAME))))
  }

  /** Of the result names only "DELETED" matches "DELETED" ignoring case. */
  lemma DeletedNameOnly(result: DocWriteResult)
    ensures EqualsIgnoreCase(Some(result.Name()), DELETED_NAME) <==> result == Deleted
  {
    if result == Created { assert Fold(result.Name()[0]) != Fold(DELETED_NAME[0]); }
    if result == Updated { assert Fold(result.Name()[0]) != Fold(DELETED_NAME[0]); }
  }

  // ---------------------------------------------------------------------------
  // search

  /** The plan `search` sends: the shared translation, with the facets handed to the
      helper that adds aggregations. */
  function TcpPlan(dto: SearchDTO, cfg: EsConfig): Result<Plan, Exception> {
    var p :- CommonPlan(dto, cfg);
    if HasFacets(dto) then Ok(p.(delegated := Some(dto.facets.value))) else Ok(p)
  }

  /** The search request builder as `search` fills it. */
  method BuildSearchRequest(dto: SearchDTO, cfg: EsConfig) returns (r: Result<Plan, Exception>)
    ensures r == TcpPlan(dto, cfg)
  {
    var b := new PlanBuilder();
    var err := FillCommon(b, dto, cfg);
    if err.Some? {
      return Err(err.value);
    }
    if dto.facets.Some? && dto.facets.value != [] {
      b.Delegate(dto.facets.value);
    }
    return Ok(b.Build());
  }

  /** After the blocking call: a search-phase failure fails the promise and throws a
      client error carrying the root cause's message; any other failure propagates;
      a response completes with the map built from it, with or without hits. */
  function SearchOutcome(reply: Reply<SearchResponse>): Outcome<JMap> {
    var promise := Fresh<JMap>();
    match reply
    case Raised(SearchPhaseFailure(message)) => Threw(ProjectCommon(InvalidValue(message), ClientError))
    case Raised(cause) => Threw(Thrown(cause))
    case Answered(r) => Settle(promise.Success(r.responseMap))
  }

  function SearchCall(dto: SearchDTO, index: Option<string>, cfg: EsConfig, reply: Reply<SearchResponse>): Call<JMap> {
    match TcpPlan(dto, cfg)
    case Err(e) => Call(None, Threw(e))
    case Ok(p) => Call(Some(SearchRequest(index, p)), SearchOutcome(reply))
  }

  method Search(dto: SearchDTO, index: Option<string>, cfg: EsConfig, reply: Reply<SearchResponse>)
    returns (c: Call<JMap>)
    ensures c == SearchCall(dto, index, cfg, reply)
  {
    var plan := BuildSearchRequest(dto, cfg);
    if plan.Err? {
      return Call(None, Threw(plan.error));
    }
    return Call(Some(SearchRequest(index, plan.value)), SearchOutcome(reply));
  }

  /** A reply completes the search with its response map whatever the hit count; a
      search-phase failure is a client error with the root cause's message. */
  lemma SearchReplies(dto: SearchDTO, index: Option<string>, cfg: EsConfig, reply: Reply<SearchResponse>)
    requires TcpPlan(dto, cfg).Ok?
    ensures var c := SearchCall(dto, index, cfg, reply);
      && c.request == Some(SearchRequest(index, TcpPlan(dto, cfg).value))
      && (reply.Answered? ==> c.outcome == Returned(Some(Succeeded(reply.response.responseMap))))
      && (reply.Raised? && reply.cause.SearchPhaseFailure? ==>
            c.outcome == Threw(ProjectCommon(InvalidValue(reply.cause.rootCause), ClientError)))
      && (reply.Raised? && !reply.cause.SearchPhaseFailure? ==> c.outcome == Threw(Thrown(reply.cause)))
  {
  }

  // ---------------------------------------------------------------------------
  // bulkInsert

  /** What the loop of `bulkInsert` does to one map: `identifier` takes the value of `id`. */
  function Stamp(m: JMap): JMap {
    Put(m, IDENTIFIER, Get(m, ID))
  }

  /** A stamped map holds `id` under `identifier` and every other key as before, and
      stamping it again changes nothing. */
  lemma StampShape(m: JMap)
    ensures Get(Stamp(m), IDENTIFIER) == Get(m, ID)
    ensures forall k :: k != IDENTIFIER ==> Get(Stamp(m), k) == Get(m, k)
    ensures Stamp(Stamp(m)) == Stamp(m)
  {
    forall k ensures Get(Stamp(m), k) == if k == IDENTIFIER then Get(m, ID) else Get(m, k) {
      PutGet(m, IDENTIFIER, Get(m, ID), k);
    }
    StampTwice(m);
  }

  /** Stamping keeps `id`, and stamping a stamped map changes nothing. */
  lemma StampTwice(m: JMap)
    ensures Get(Stamp(m), ID) == Get(m, ID)
    ensures Stamp(Stamp(m)) == Stamp(m)
  {
    PutGet(m, IDENTIFIER, Get(m, ID), ID);
    PutTwice(m, IDENTIFIER, Get(m, ID));
  }

  /** The index request one turn of the loop makes for a map: under the map's `id`, cast
      to a String, carrying the stamped map. */
  function StampRequest(index: Option<string>, m: JMap): Result<Request, Exception> {
    var id :- CastString(Get(m, ID));
    Ok(IndexRequest(index, id, Some(Stamp(m))))
  }

  /** A map stamped already yields the request it yielded before. */
  lemma StampRequestStable(index: Option<string>, m: JMap)
    ensures StampRequest(index, Stamp(m)) == StampRequest(index, m)
  {
    StampTwice(m);
  }

  /** One turn of the loop: `map.put(IDENTIFIER, map.get(ID))`, then the index request
      under `(String) map.get(IDENTIFIER)`. */
  method StampOne(index: Option<string>, doc: Document) returns (r: Result<Request, Exception>)
    modifies doc
    ensures doc.fields == Stamp(old(doc.fields))
    ensures r == StampRequest(index, old(doc.fields))
  {
    StampShape(doc.fields);
    doc.Put(IDENTIFIER, Get(doc.fields, ID));
    var id := CastString(Get(doc.fields, IDENTIFIER));
    if id.Err? {
      return Err(id.error);
    }
    return Ok(IndexRequest(index, id.value, Some(doc.fields)));
  }

  /** A map the loop either has not reached or has stamped. */
  predicate KeptOrStamped(before: JMap, after: JMap) {
    after == before || after == Stamp(before)
  }

  function Footprint(dataList: Option<seq<Document?>>): set<Document> {
    if dataList.None? then {} else set j | 0 <= j < |dataList.value| && dataList.value[j] != null :: dataList.value[j]
  }

  /** The maps of a list of documents, the empty map standing for a null element. */
  ghost function FieldsOf(list: seq<Document?>): (r: seq<JMap>)
    reads set j | 0 <= j < |list| && list[j] != null :: list[j]
    ensures |r| == |list|
    ensures forall j :: 0 <= j < |list| && list[j] != null ==> r[j] == list[j].fields
  {
    if list == [] then []
    else FieldsOf(list[..|list| - 1]) + [if list[|list| - 1] == null then [] else list[|list| - 1].fields]
  }

  /** The loop of `bulkInsert`: stamps the maps in list order and collects one index
      request per map, stopping at the first null map or non-String id with the exception
      it raises. A map listed twice is stamped twice, which changes nothing the second time. */
  method StampAll(index: Option<string>, list: seq<Document?>) returns (items: seq<Request>, err: Option<Exception>)
    modifies set j | 0 <= j < |list| && list[j] != null :: list[j]
    ensures forall j :: 0 <= j < |list| && list[j] != null ==> KeptOrStamped(old(list[j].fields), list[j].fields)
    ensures err.None? <==> forall j :: 0 <= j < |list| ==>
      list[j] != null && StampRequest(index, old(list[j].fields)).Ok?
    ensures err.None? ==>
      && (forall j :: 0 <= j < |list| ==> list[j].fields == Stamp(old(list[j].fields)))
      && |items| == |list|
      && (forall j :: 0 <= j < |list| ==> Ok(items[j]) == StampRequest(index, old(list[j].fields)))
  {
    ghost var olds := FieldsOf(list);
    items, err := [], None;
    var i := 0;
    while i < |list|
      invariant 0 <= i <= |list|
      invariant forall j :: 0 <= j < i ==> list[j] != null && StampRequest(index, olds[j]).Ok?
      invariant forall j :: 0 <= j < i ==> list[j].fields == Stamp(olds[j])
      invariant forall j :: 0 <= j < |list| && list[j] != null ==> KeptOrStamped(olds[j], list[j].fields)
      invariant |items| == i
      invariant forall j :: 0 <= j < i ==> Ok(items[j]) == StampRequest(index, olds[j])
    {
      var doc := list[i];
      if doc == null {
        return items, Some(NullPointer);
      }
      ghost var original := olds[i];
      StampTwice(original);
      StampRequestStable(index, original);
      label before:
      var request := StampOne(index, doc);
      assert doc.fields == Stamp(original) && request == StampRequest(index, original);
      forall j | 0 <= j < |list| && list[j] != null
        ensures list[j] != doc ==> list[j].fields == old@before(list[j].fields)
        ensures list[j] == doc ==> olds[j] == original && list[j].fields == Stamp(olds[j])
      {
      }
      if request.Err? {
        return items, Some(request.error);
      }
      forall j | 0 <= j <= i
        ensures list[j] != null && StampRequest(index, olds[j]).Ok?
        ensures list[j].fields == Stamp(olds[j])
        ensures Ok((items + [request.value])[j]) == StampRequest(index, olds[j])
      {
        if j < i {
          assert (items + [request.value])[j] == items[j];
        }
      }
      items := items + [request.value];
      i := i + 1;
    }
  }

  /** `bulkInsert`: completes with `true` first; then every map gets `identifier := id`
      in place and one index request under that id, in list order. A null list, a null
      map or an id that is not a String ends the loop; the exception is caught, and
      failing the completed promise throws. `afterward` is what flushing, closing the
      processor and refreshing the indices raise, if anything. */
  method BulkInsert(index: Option<string>, dataList: Option<seq<Document?>>, afterward: Option<Cause>)
    returns (c: Call<bool>)
    modifies Footprint(dataList)
    ensures dataList.None? ==> c == Call(None, Threw(IllegalState))
    ensures dataList.Some? ==> forall j :: 0 <= j < |dataList.value| && dataList.value[j] != null ==>
      KeptOrStamped(old(dataList.value[j].fields), dataList.value[j].fields)
    ensures dataList.Some? && (forall j :: 0 <= j < |dataList.value| ==>
                          dataList.value[j] != null && CastString(Get(old(dataList.value[j].fields), ID)).Ok?) ==>
      var list := dataList.value;
      && (forall j :: 0 <= j < |list| ==> list[j].fields == Stamp(old(list[j].fields)))
      && c.request.Some? && c.request.value.BulkRequest? && |c.request.value.items| == |list|
      && (forall j :: 0 <= j < |list| ==>
            c.request.value.items[j]
              == IndexRequest(index, CastString(Get(old(list[j].fields), ID)).value, Some(Stamp(old(list[j].fields)))))
      && c.outcome == (if afterward.None? then Returned(Some(Succeeded(true))) else Threw(IllegalState))
    ensures dataList.Some? && !(forall j :: 0 <= j < |dataList.value| ==>
                          dataList.value[j] != null && CastString(Get(old(dataList.value[j].fields), ID)).Ok?) ==>
      c.outcome == Threw(IllegalState)
  {
    var completed := Fresh<bool>().Success(true).value;
    if dataList.None? {
      return Call(None, Settle(completed.Failure(NullPointer)));
    }
    var items, err := StampAll(index, dataList.value);
    if err.Some? {
      return Call(Some(BulkRequest(items)), Settle(completed.Failure(err.value)));
    }
    if afterward.Some? {
      return Call(Some(BulkRequest(items)), Settle(completed.Failure(Thrown(afterward.value))));
    }
    return Call(Some(BulkRequest(items)), Returned(completed.cell));
  }

  // ---------------------------------------------------------------------------
  // getEsResultByListOfIds

  /** `getEsResultByListOfIds`: searches for the ids with the requested fields, then keys
      the `content` of the search result by id. The search future is already complete
      with success when it is returned, so waiting for it yields its value. */
  method GetEsResultByListOfIds(ids: Value, fields: Option<seq<string>>, index: Option<string>, blank: SearchDTO,
                                cfg: EsConfig, reply: Reply<SearchResponse>)
    returns (search: Call<JMap>, r: Outcome<map<Option<string>, JMap>>)
    ensures IdsSearch(blank, ids, fields).Err? ==> search == Call(None, Threw(NullPointer)) && r == Threw(NullPointer)
    ensures IdsSearch(blank, ids, fields).Ok? ==> search == SearchCall(IdsSearch(blank, ids, fields).value, index, cfg, reply)
    ensures search.outcome.Threw? ==> r == Threw(search.outcome.exception)
    ensures search.outcome.Returned? ==>
      && Awaited(search.outcome).Some?
      && r == Deliver(ResultsById(Awaited(search.outcome)))
  {
    var dto := IdsSearch(blank, ids, fields);
    if dto.Err? {
      return Call(None, Threw(NullPointer)), Threw(NullPointer);
    }
    search := Search(dto.value, index, cfg, reply);
    if search.outcome.Threw? {
      return search, Threw(search.outcome.exception);
    }
    r := Deliver(ResultsById(Awaited(search.outcome)));
  }

  /** An answered id search keys the `content` of the response map: the ids come back
      as keys exactly when every hit is a map with a String id and no id repeats. */
  lemma IdLookupAnswered(ids: Value, fields: Option<seq<string>>, index: Option<string>, blank: SearchDTO,
                         cfg: EsConfig, response: SearchResponse)
    requires IdsSearch(blank, ids, fields).Ok? && TcpPlan(IdsSearch(blank, ids, fields).value, cfg).Ok?
    requires CastList(Get(response.responseMap, CONTENT)).Ok?
    requires CastList(Get(response.responseMap, CONTENT)).value.Some?
    ensures var hits := CastList(Get(response.responseMap, CONTENT)).value.value;
      var c := SearchCall(IdsSearch(blank, ids, fields).value, index, cfg, Answered(response));
      && c.outcome == Returned(Some(Succeeded(response.responseMap)))
      && (Deliver(ResultsById(Some(response.responseMap))).Returned? <==> HitsReadable(hits) && DistinctIds(hits))
  {
  }

  // ---------------------------------------------------------------------------
  // searchMetricsData

  /** A failed POST (IOException) is unableToConnectToES, any other failure
      unableToParseData, both with SERVER_ERROR. */
  function Classify(cause: Cause): (e: Exception)
    ensures e.ProjectCommon? && e.status == ServerError
    ensures e.code == UnableToConnectToES <==> cause.IOFailure?
  {
    if cause.IOFailure? then ProjectCommon(UnableToConnectToES, ServerError)
    else ProjectCommon(UnableToParseData, ServerError)
  }

  function SearchMetricsData(index: Option<string>, rawQuery: Option<string>, env: Environment, reply: Reply<JMap>)
    : (c: MetricsCall)
    ensures RequestUrl(env, index).Ok? && reply.Raised? && reply.cause.IOFailure? ==>
      c.outcome == Err(ProjectCommon(UnableToConnectToES, ServerError))
    ensures RequestUrl(env, index).Ok? && reply.Raised? && !reply.cause.IOFailure? ==>
      c.outcome == Err(ProjectCommon(UnableToParseData, ServerError))
    ensures RequestUrl(env, index).Ok? && reply.Answered? ==> c.outcome == Ok(MetricsResponse(reply.response))
    ensures RequestUrl(env, index).Err? ==> c == MetricsCall(None, Err(IndexOutOfBounds))
  {
    MetricsSearch(index, rawQuery, env, reply, Classify)
  }
}
