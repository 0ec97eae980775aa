/** What both adapters of `ElasticSearchService` share: the requests they hand to the
    Elasticsearch client, the replies the client gives back, the documents callers pass
    in, and the keying of `getEsResultByListOfIds`. The client itself is not modelled:
    its reply to a request is an input of each operation. */
module EsService {
  import opened JavaLang
  import opened JavaMaps
  import opened Promises
  import opened SearchQuery

  const DOC_TYPE: string := "_doc"
  const ERROR: string := "ERROR"
  // JsonKey constants.
  const IDENTIFIER: string := "identifier"
  const ID: string := "id"
  const CONTENT: string := "content"
  const FILTERS: string := "filters"

  /** `DocWriteResponse.Result`. */
  datatype DocWriteResult = Created | Updated | Deleted | NotFound | Noop {
    /** The enum constant's `name()`. */
    function Name(): string {
      match this
      case Created => "CREATED"
      case Updated => "UPDATED"
      case Deleted => "DELETED"
      case NotFound => "NOT_FOUND"
      case Noop => "NOOP"
    }
  }

  datatype IndexResponse = IndexResponse(id: string)

  /** `GetResponse`: whether the document exists and its source map (null when absent). */
  datatype GetResponse = GetResponse(found: bool, source: Option<JMap>)

  /** The response to an update, an upsert or a delete. */
  datatype WriteResponse = WriteResponse(result: DocWriteResult)

  /** `SearchResponse`: the total hit count (None when `getHits()` is null) and the map
      `ElasticSearchHelper.getSearchResponseMap` builds from the response, whose code is
      not part of this model. */
  datatype SearchResponse = SearchResponse(totalHits: Option<int>, responseMap: JMap)

  /** `BulkResponse`: whether its item iterator is non-null. */
  datatype BulkResponse = BulkResponse(hasIterator: bool)

  /** What the client answers: a response, or the exception it raised (or handed to the
      listener's `onFailure`). */
  datatype Reply<R> = Answered(response: R) | Raised(cause: Cause)

  /** A request handed to the client. An index request without id lets Elasticsearch
      choose one; a null source is kept as null. */
  datatype Request =
    | IndexRequest(index: Option<string>, id: Option<string>, source: Option<JMap>)
    | UpdateRequest(index: Option<string>, id: Option<string>, doc: Option<JMap>, upsert: Option<JMap>)
    | GetRequest(index: Option<string>, id: Option<string>)
    | DeleteRequest(index: Option<string>, id: Option<string>)
    | SearchRequest(index: Option<string>, plan: Plan)
    | BulkRequest(items: seq<Request>)

  /** One adapter operation: the request it sent (None: no backend call) and how it ended. */
  datatype Call<T> = Call(request: Option<Request>, outcome: Outcome<T>)

  /** A `Map<String, Object>` a caller passes in and the adapter may update in place. */
  class Document {
    var fields: JMap

    constructor(fields: JMap)
      ensures this.fields == fields
    {
      this.fields := fields;
    }

    /** `map.put(k, v)`. */
    method Put(k: string, v: Value)
      modifies this
      ensures fields == JavaMaps.Put(old(fields), k, v)
    {
      fields := JavaMaps.Put(fields, k, v);
    }
  }

  /** `ElasticSearchHelper.getResponseFromFuture`: the value of a future completed with
      success, null otherwise. */
  function Awaited<T>(o: Outcome<T>): Option<T> {
    if o.Returned? && o.future.Some? && o.future.value.Succeeded? then Some(o.future.value.value) else None
  }

  /** How an operation that completes a fresh promise with `r` ends. */
  function Deliver<T>(r: Result<T, Exception>): Outcome<T> {
    match r
    case Ok(v) => Settle(Fresh<T>().Success(v))
    case Err(e) => Threw(e)
  }

  // ---------------------------------------------------------------------------
  // getEsResultByListOfIds

  /** The search `getEsResultByListOfIds` runs: a new `SearchDTO` (whose defaults are the
      parameter `blank`) with the filter `{id: ids}` put under `filters` in its additional
      properties and the requested fields. */
  function IdsSearch(blank: SearchDTO, ids: Value, fields: Option<seq<string>>): (r: Result<SearchDTO, Exception>)
    ensures r.Err? <==> blank.additionalProperties.None?
    ensures r.Ok? ==>
      && r.value.fields == fields
      && r.value.additionalProperties.Some?
      && Get(r.value.additionalProperties.value, FILTERS) == Obj([Entry(ID, ids)])
  {
    if blank.additionalProperties.None? then Err(NullPointer)
    else
      PutGet(blank.additionalProperties.value, FILTERS, Obj([Entry(ID, ids)]), FILTERS);
      Ok(blank.(additionalProperties := Some(Put(blank.additionalProperties.value, FILTERS, Obj([Entry(ID, ids)]))),
                fields := fields))
  }

  /** The key and the value one search hit contributes: `(String) obj.get("id")` and the
      hit itself. A null hit is a null dereference, a hit that is not a map a failed cast. */
  function IdOf(hit: Value): Result<(Option<string>, JMap), Exception> {
    match hit
    case Null => Err(NullPointer)
    case Obj(m) => var id :- CastString(Get(m, ID)); Ok((id, m))
    case _ => Err(ClassCast)
  }

  predicate HitsReadable(hits: seq<Value>) {
    forall i :: 0 <= i < |hits| ==> IdOf(hits[i]).Ok?
  }

  predicate DistinctIds(hits: seq<Value>)
    requires HitsReadable(hits)
  {
    forall i, j :: 0 <= i < j < |hits| ==> IdOf(hits[i]).value.0 != IdOf(hits[j]).value.0
  }

  /** The ids of readable hits. */
  ghost function IdsOf(hits: seq<Value>): set<Option<string>>
    requires HitsReadable(hits)
  {
    set i | 0 <= i < |hits| :: IdOf(hits[i]).value.0
  }

  /** One more hit: readable exactly when the shorter list and the hit are, and free of
      repeated ids exactly when the shorter list is and does not hold the new id. */
  lemma HitsSnoc(init: seq<Value>, last: Value)
    ensures HitsReadable(init + [last]) <==> HitsReadable(init) && IdOf(last).Ok?
    ensures HitsReadable(init + [last]) ==>
      && (DistinctIds(init + [last]) <==> DistinctIds(init) && IdOf(last).value.0 !in IdsOf(init))
      && IdsOf(init + [last]) == IdsOf(init) + {IdOf(last).value.0}
  {
    var hits := init + [last];
    assert forall i :: 0 <= i < |init| ==> hits[i] == init[i];
    assert hits[|init|] == last;
    if HitsReadable(hits) {
      var k := IdOf(last).value.0;
      if DistinctIds(hits) {
        forall i | 0 <= i < |init| ensures IdOf(init[i]).value.0 != k {
          assert IdOf(hits[i]).value.0 != IdOf(hits[|init|]).value.0;
        }
      }
      if DistinctIds(init) && k !in IdsOf(init) {
        forall i, j | 0 <= i < j < |hits| ensures IdOf(hits[i]).value.0 != IdOf(hits[j]).value.0 {
          if j == |init| {
            assert IdOf(init[i]).value.0 in IdsOf(init);
          }
        }
      }
      assert IdsOf(hits) == IdsOf(init) + {k} by {
        forall x | x in IdsOf(hits) ensures x in IdsOf(init) + {k} {
          var i :| 0 <= i < |hits| && IdOf(hits[i]).value.0 == x;
          if i < |init| {
            assert IdOf(init[i]).value.0 == x;
          }
        }
        forall x | x in IdsOf(init) ensures x in IdsOf(hits) {
          var i :| 0 <= i < |init| && IdOf(init[i]).value.0 == x;
          assert IdOf(hits[i]).value.0 == x;
        }
        assert IdOf(hits[|init|]).value.0 == k;
      }
    }
  }

  /** `Collectors.toMap(obj -> (String) obj.get("id"), val -> val)`: every hit under its
      id, a repeated id raising IllegalStateException. */
  function KeyById(hits: seq<Value>): (r: Result<map<Option<string>, JMap>, Exception>)
    ensures r.Ok? <==> HitsReadable(hits) && DistinctIds(hits)
    ensures r.Ok? ==> r.value.Keys == IdsOf(hits) && |r.value| == |hits|
    ensures r.Ok? ==> forall i :: 0 <= i < |hits| ==>
      IdOf(hits[i]).value.0 in r.value && r.value[IdOf(hits[i]).value.0] == IdOf(hits[i]).value.1
    ensures r.Err? ==> r.error in {NullPointer, ClassCast, IllegalState}
  {
    if hits == [] then Ok(map[])
    else
      var init := hits[..|hits| - 1];
      var last := hits[|hits| - 1];
      assert hits == init + [last];
      HitsSnoc(init, last);
      var acc :- KeyById(init);
      var entry :- IdOf(last);
      if entry.0 in acc then Err(IllegalState)
      else
        assert acc[entry.0 := entry.1].Keys == acc.Keys + {entry.0};
        KeyedSnocEntries(init, last, acc);
        Ok(acc[entry.0 := entry.1])
  }

  /** Keying one more hit whose id is new extends the map by that hit. */
  lemma KeyedSnocEntries(init: seq<Value>, last: Value, acc: map<Option<string>, JMap>)
    requires HitsReadable(init) && IdOf(last).Ok?
    requires forall i :: 0 <= i < |init| ==>
      IdOf(init[i]).value.0 in acc && acc[IdOf(init[i]).value.0] == IdOf(init[i]).value.1
    requires IdOf(last).value.0 !in acc
    ensures var hits := init + [last];
      var r := acc[IdOf(last).value.0 := IdOf(last).value.1];
      forall i :: 0 <= i < |hits| ==>
        IdOf(hits[i]).Ok? && IdOf(hits[i]).value.0 in r && r[IdOf(hits[i]).value.0] == IdOf(hits[i]).value.1
  {
    var hits := init + [last];
    var r := acc[IdOf(last).value.0 := IdOf(last).value.1];
    forall i | 0 <= i < |hits|
      ensures IdOf(hits[i]).Ok? && IdOf(hits[i]).value.0 in r && r[IdOf(hits[i]).value.0] == IdOf(hits[i]).value.1
    {
      if i < |init| {
        assert hits[i] == init[i];
      } else {
        assert hits[i] == last;
      }
    }
  }

  /** The keying as the adapters write it: the awaited search result's `content` list,
      read with no check that the result or the list is there. */
  function ResultsById(result: Option<JMap>): Result<map<Option<string>, JMap>, Exception> {
    if result.None? then Err(NullPointer)
    else
      var content :- CastList(Get(result.value, CONTENT));
      if content.None? then Err(NullPointer) else KeyById(content.value)
  }

  /** The keying with a search result that has no `content` read as no hits. */
  function ResultsByIdOrEmpty(result: Option<JMap>): (r: Result<map<Option<string>, JMap>, Exception>)
    ensures result.Some? && Get(result.value, CONTENT) == Null ==> r == Ok(map[])
    ensures result.Some? && Get(result.value, CONTENT).List? ==>
      r == KeyById(Get(result.value, CONTENT).items)
      && (r.Ok? ==> |r.value| == |Get(result.value, CONTENT).items|)
    ensures r.Err? <==>
      || result.None?
      || !(Get(result.value, CONTENT).List? || Get(result.value, CONTENT).Null?)
      || (Get(result.value, CONTENT).List? &&
          !(HitsReadable(Get(result.value, CONTENT).items) && DistinctIds(Get(result.value, CONTENT).items)))
  {
    if result.None? then Err(NullPointer)
    else
      var content :- CastList(Get(result.value, CONTENT));
      if content.None? then Ok(map[]) else KeyById(content.value)
  }

  /** Both read the same when the content list is present; on an empty search result the
      adapters' keying dereferences null where the corrected one answers no hits. */
  lemma KeyingOnMissingContent(result: JMap)
    ensures Get(result, CONTENT) != Null ==> ResultsByIdOrEmpty(Some(result)) == ResultsById(Some(result))
    ensures Get(result, CONTENT) == Null ==>
      ResultsById(Some(result)) == Err(NullPointer) && ResultsByIdOrEmpty(Some(result)) == Ok(map[])
    ensures ResultsById(Some([])) == Err(NullPointer)
  {
  }
}
