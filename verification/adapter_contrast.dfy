/** The two adapters side by side: where they agree on what they send to Elasticsearch
    and where their answers to the same input differ. */
module AdapterContrast {
  import opened JavaLang
  import opened JavaMaps
  import opened Promises
  import opened SearchQuery
  import opened EsService
  import RestHighAdapter
  import TcpAdapter

  /** Both adapters translate a `SearchDTO` the same way apart from the facets: the REST
      adapter builds the aggregations of the first facet group itself, the transport
      adapter hands all facet groups to its helper. Both fail on the same inputs, with
      the same exception. */
  lemma SamePlanApartFromFacets(dto: SearchDTO, cfg: EsConfig)
    ensures RestHighAdapter.RestPlan(dto, cfg).Ok? <==> TcpAdapter.TcpPlan(dto, cfg).Ok?
    ensures RestHighAdapter.RestPlan(dto, cfg).Err? ==>
      RestHighAdapter.RestPlan(dto, cfg).error == TcpAdapter.TcpPlan(dto, cfg).error
    ensures RestHighAdapter.RestPlan(dto, cfg).Ok? ==>
      && RestHighAdapter.RestPlan(dto, cfg).value.(aggregations := []) == CommonPlan(dto, cfg).value
      && TcpAdapter.TcpPlan(dto, cfg).value.(delegated := None) == CommonPlan(dto, cfg).value
      && (HasFacets(dto) <==> TcpAdapter.TcpPlan(dto, cfg).value.delegated.Some?)
  {
  }

  /** On a search without hits the REST adapter completes with an empty map and the
      transport adapter with the map built from the response. */
  lemma ZeroHitsAnswers(dto: SearchDTO, index: Option<string>, cfg: EsConfig, m: JMap)
    requires CommonPlan(dto, cfg).Ok?
    ensures RestHighAdapter.SearchCall(dto, index, cfg, Answered(SearchResponse(Some(0), m))).outcome
            == Returned(Some(Succeeded([])))
    ensures TcpAdapter.SearchCall(dto, index, cfg, Answered(SearchResponse(Some(0), m))).outcome
            == Returned(Some(Succeeded(m)))
  {
    SamePlanApartFromFacets(dto, cfg);
  }

  /** `update` accepts the same inputs in both adapters and sends the same partial
      document; on invalid input the REST adapter fails with invalidData where the
      transport adapter completes with `false`. */
  lemma UpdateContrast(index: Option<string>, identifier: Option<string>, data: Option<JMap>, reply: Reply<WriteResponse>)
    ensures RestHighAdapter.UpdateValid(index, identifier, data) <==> TcpAdapter.UpdateValid(index, identifier, data)
    ensures RestHighAdapter.Update(index, identifier, data, reply).request
            == TcpAdapter.Update(index, identifier, data, reply).request
    ensures !TcpAdapter.UpdateValid(index, identifier, data) ==>
      && RestHighAdapter.Update(index, identifier, data, reply).outcome
         == Returned(Some(Failed(ProjectCommon(InvalidData, OwnStatus))))
      && TcpAdapter.Update(index, identifier, data, reply).outcome == Returned(Some(Succeeded(false)))
  {
  }

  /** `upsert` accepts the same inputs in both adapters, but the REST adapter sends the
      data only as the document to insert, while the transport adapter sends it both as
      the partial document and as the document to insert. */
  lemma UpsertContrast(index: Option<string>, identifier: Option<string>, data: Option<JMap>,
                       reply: Reply<WriteResponse>, upsertResults: set<string>)
    ensures RestHighAdapter.UpsertValid(index, identifier, data) <==> TcpAdapter.UpsertValid(index, identifier, data)
    ensures TcpAdapter.UpsertValid(index, identifier, data) ==>
      && RestHighAdapter.Upsert(index, identifier, data, reply).request == Some(UpdateRequest(index, identifier, None, data))
      && TcpAdapter.Upsert(index, identifier, data, reply, upsertResults).request
         == Some(UpdateRequest(index, identifier, data, data))
  {
  }

  /** On an answered delete the REST adapter reports `false` only for NOT_FOUND and the
      transport adapter `true` only for DELETED, so they disagree on every other result. */
  lemma DeleteContrast(index: Option<string>, identifier: Option<string>, result: DocWriteResult)
    requires TcpAdapter.KeyValid(index, identifier)
    ensures var rest := RestHighAdapter.Delete(index, identifier, Answered(WriteResponse(result))).outcome;
      var tcp := TcpAdapter.Delete(index, identifier, Answered(WriteResponse(result))).outcome;
      rest == tcp <==> result == Deleted || result == NotFound
  {
  }
}
