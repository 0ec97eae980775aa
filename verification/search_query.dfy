/** The translation of a `SearchDTO` into an Elasticsearch search, shared by both
    adapters: the two `search` methods fill their builders with the same steps in the
    same order, through different client APIs. The builders are modelled as one abstract
    query plan; the helpers whose code is not part of this model (the match query
    factory, `addAdditionalProperties`, `getSortOrder`, the boosts of `getConstraints`)
    become opaque values inside the plan. */
module SearchQuery {
  import opened JavaLang
  import opened JavaMaps

  // JsonKey constants and literals the translation uses.
  const SUNBIRD_ES_CHANNEL: string := "sunbird_es_channel"
  const ALL_FIELDS: string := "all_fields"
  const TERM: string := "term"
  const ORDER: string := "order"
  const DATE_HISTOGRAM: string := "date_histogram"

  /** One entry of a facet map: the facet's field and its requested kind (null or a name). */
  datatype FacetEntry = FacetEntry(key: string, kind: Option<string>)
  type FacetGroup = seq<FacetEntry>

  /** The search request as the callers pass it; every reference may be null. */
  datatype SearchDTO = SearchDTO(
    query: Option<string>,
    queryFields: Option<seq<string>>,
    sortBy: Option<JMap>,
    fields: Option<seq<string>>,
    excludedFields: Option<seq<string>>,
    offset: Option<int>,
    limit: Option<int>,
    additionalProperties: Option<JMap>,
    facets: Option<seq<FacetGroup>>)

  /** The configuration the translation reads: the `sunbird_es_channel` property and
      `ElasticSearchHelper.RAW_APPEND`. */
  datatype EsConfig = EsConfig(channel: Option<string>, rawAppend: string)

  /** A field's boost in a simple query string: the library default, or the `1.0f` the
      adapters give every listed query field. */
  datatype Weight = DefaultBoost | UnitBoost

  datatype Clause =
    | ChannelMatch(channel: string)                               // createMatchQuery(CHANNEL, channel, boost)
    | SimpleQueryString(text: string, fields: map<string, Weight>)

  /** A step applied to the bool query, in order. */
  datatype QueryStep =
    | Must(clause: Clause)
    | AdditionalProperty(entry: Entry) // one call of addAdditionalProperties

  datatype SortMode = MinMode

  /** A sort on a field; `order` is the string handed to `getSortOrder`. */
  datatype Sort =
    | FieldSort(field: string, order: Option<string>)
    | NestedSort(field: string, filterField: string, filterValue: Option<string>, mode: SortMode, order: Option<string>)

  datatype Projection = Projection(includes: Option<seq<string>>, excludes: Option<seq<string>>)

  datatype Aggregation =
    | DateHistogram(name: string, field: string, intervalDays: nat)
    | Terms(name: string, field: string)

  /** What the search source builder holds once the adapter is done with it. `delegated`
      records the facets handed to a helper whose code is not part of this model. */
  datatype Plan = Plan(
    query: seq<QueryStep>,
    sorts: seq<Sort>,
    projection: Option<Projection>,
    from: Option<int>,
    size: Option<int>,
    aggregations: seq<Aggregation>,
    delegated: Option<seq<FacetGroup>>)

  const EmptyPlan: Plan := Plan([], [], None, None, None, [], None)

  // ---------------------------------------------------------------------------
  // The translation as functions.

  /** The channel must-clause is added when the property is set to something other than
      blank and other than the property's own name. */
  predicate ChannelConfigured(cfg: EsConfig) {
    !IsBlank(cfg.channel) && cfg.channel.value != SUNBIRD_ES_CHANNEL
  }

  function ChannelSteps(cfg: EsConfig): seq<QueryStep> {
    if ChannelConfigured(cfg) then [Must(ChannelMatch(cfg.channel.value))] else []
  }

  predicate DistinctStrings(s: seq<string>) {
    forall i, j :: 0 <= i < j < |s| ==> s[i] != s[j]
  }

  /** A sequence with one more string is free of repeats exactly when the shorter one is
      and does not hold the new string. */
  lemma DistinctSnoc(init: seq<string>, last: string)
    ensures DistinctStrings(init + [last]) <==> DistinctStrings(init) && last !in init
  {
    var s := init + [last];
    if DistinctStrings(s) {
      forall i, j | 0 <= i < j < |init| ensures init[i] != init[j] {
        assert s[i] == init[i] && s[j] == init[j];
      }
      forall i | 0 <= i < |init| ensures init[i] != last {
        assert s[i] == init[i] && s[|init|] == last;
      }
    }
    if DistinctStrings(init) && last !in init {
      forall i, j | 0 <= i < j < |s| ensures s[i] != s[j] {
        if j < |init| {
          assert s[i] == init[i] && s[j] == init[j];
        } else {
          assert s[i] == init[i];
        }
      }
    }
  }

  /** `Collectors.toMap(s -> s, v -> 1.0f)` over the query fields: every field weighs
      the same, and a repeated field raises IllegalStateException. */
  function QueryFieldWeights(fields: seq<string>): (r: Result<map<string, Weight>, Exception>)
    ensures r.Ok? <==> DistinctStrings(fields)
    ensures r.Err? ==> r.error == IllegalState
    ensures r.Ok? ==> r.value.Keys == (set f | f in fields)
    ensures r.Ok? ==> forall f :: f in r.value ==> r.value[f] == UnitBoost
  {
    if fields == [] then Ok(map[])
    else
      var init := fields[..|fields| - 1];
      var last := fields[|fields| - 1];
      var m := QueryFieldWeights(init);
      assert fields == init + [last];
      DistinctSnoc(init, last);
      if m.Err? || last in m.value then Err(IllegalState)
      else
        assert (set f | f in fields) == (set f | f in init) + {last};
        Ok(m.value[last := UnitBoost])
  }

  /** The simple-query-string step: none for a blank query, otherwise one clause. */
  function QueryStringSteps(dto: SearchDTO): Result<seq<QueryStep>, Exception> {
    if IsBlank(dto.query) then Ok([])
    else if dto.queryFields.None? || dto.queryFields.value == [] then
      Ok([Must(SimpleQueryString(dto.query.value, map[ALL_FIELDS := DefaultBoost]))])
    else
      var weights :- QueryFieldWeights(dto.queryFields.value);
      Ok([Must(SimpleQueryString(dto.query.value, weights))])
  }

  /** The sorts one nested descriptor's `term` map yields, one per entry in map order.
      Each entry casts its value to String and then casts the descriptor's `order`. */
  function NestedSorts(field: string, term: JMap, order: Value): Result<seq<Sort>, Exception> {
    if term == [] then Ok([])
    else
      var init :- NestedSorts(field, term[..|term| - 1], order);
      var t := term[|term| - 1];
      var value :- CastString(t.value);
      var ord :- CastString(order);
      Ok(init + [NestedSort(field, t.key, value, MinMode, ord)])
  }

  /** The sorts one `sortBy` entry yields. An undotted key sorts on its raw field in the
      order its value names; a dotted key's value is a descriptor map whose `term` map
      supplies the nested filters. */
  function EntrySorts(e: Entry, raw: string): Result<seq<Sort>, Exception> {
    if !ContainsChar(e.key, '.') then
      var order :- CastString(e.value);
      Ok([FieldSort(e.key + raw, order)])
    else
      var descriptor :- CastMap(e.value);
      if descriptor.None? then Err(NullPointer)
      else
        var term :- CastMap(Get(descriptor.value, TERM));
        if term.None? then Err(NullPointer)
        else NestedSorts(e.key + raw, term.value, Get(descriptor.value, ORDER))
  }

  /** The sorts of a `sortBy` map, entry after entry. */
  function SortsOf(entries: JMap, raw: string): Result<seq<Sort>, Exception> {
    if entries == [] then Ok([])
    else
      var init :- SortsOf(entries[..|entries| - 1], raw);
      var last :- EntrySorts(entries[|entries| - 1], raw);
      Ok(init + last)
  }

  function AdditionalSteps(entries: JMap): (r: seq<QueryStep>)
    ensures |r| == |entries|
    ensures forall i :: 0 <= i < |entries| ==> r[i] == AdditionalProperty(entries[i])
  {
    if entries == [] then []
    else AdditionalSteps(entries[..|entries| - 1]) + [AdditionalProperty(entries[|entries| - 1])]
  }

  function SortEntries(dto: SearchDTO): JMap {
    if dto.sortBy.Some? then dto.sortBy.value else []
  }

  function PropertyEntries(dto: SearchDTO): JMap {
    if dto.additionalProperties.Some? then dto.additionalProperties.value else []
  }

  /** Everything both adapters put into the search before aggregations. */
  function CommonPlan(dto: SearchDTO, cfg: EsConfig): Result<Plan, Exception> {
    var queryString :- QueryStringSteps(dto);
    var sorts :- SortsOf(SortEntries(dto), cfg.rawAppend);
    Ok(Plan(ChannelSteps(cfg) + queryString + AdditionalSteps(PropertyEntries(dto)),
            sorts, Some(Projection(dto.fields, dto.excludedFields)),
            dto.offset, dto.limit, [], None))
  }

  /** The aggregation one facet entry asks for, if any. */
  function AggregationOf(e: FacetEntry, raw: string): seq<Aggregation> {
    if EqualsIgnoreCase(e.kind, DATE_HISTOGRAM) then [DateHistogram(e.key, e.key + raw, 1)]
    else if e.kind.None? then [Terms(e.key, e.key + raw)]
    else []
  }

  function AggregationsOf(group: FacetGroup, raw: string): seq<Aggregation> {
    if group == [] then []
    else AggregationsOf(group[..|group| - 1], raw) + AggregationOf(group[|group| - 1], raw)
  }

  predicate HasFacets(dto: SearchDTO) {
    dto.facets.Some? && dto.facets.value != []
  }

  // ---------------------------------------------------------------------------
  // Properties of the translation.

  /** A plan built from a DTO carries one channel clause exactly when a channel is
      configured, and it comes first. */
  lemma ChannelClause(dto: SearchDTO, cfg: EsConfig)
    requires CommonPlan(dto, cfg).Ok?
    ensures var q := CommonPlan(dto, cfg).value.query;
      (ChannelConfigured(cfg) ==> |q| > 0 && q[0] == Must(ChannelMatch(cfg.channel.value)))
      && (!ChannelConfigured(cfg) ==> forall i :: 0 <= i < |q| ==> !(q[i].Must? && q[i].clause.ChannelMatch?))
  {
    var q := CommonPlan(dto, cfg).value.query;
    var qs := QueryStringSteps(dto).value;
    var adds := AdditionalSteps(PropertyEntries(dto));
    assert q == ChannelSteps(cfg) + qs + adds;
    if ChannelConfigured(cfg) {
      assert q[0] == Must(ChannelMatch(cfg.channel.value));
    }
  }

  /** A blank query adds no query-string clause; any other adds exactly one, right after
      the channel clause, over `all_fields` when no query fields are given and otherwise
      over each query field with the same weight. */
  lemma QueryStringClause(dto: SearchDTO, cfg: EsConfig)
    requires CommonPlan(dto, cfg).Ok?
    ensures var q := CommonPlan(dto, cfg).value.query;
      var c := |ChannelSteps(cfg)|;
      (IsBlank(dto.query) ==> forall i :: 0 <= i < |q| ==> !(q[i].Must? && q[i].clause.SimpleQueryString?))
      && (!IsBlank(dto.query) ==>
            (forall i :: 0 <= i < |q| && q[i].Must? && q[i].clause.SimpleQueryString? ==> i == c)
            && q[c].Must? && q[c].clause.SimpleQueryString? && q[c].clause.text == dto.query.value
            && ((dto.queryFields.None? || dto.queryFields.value == []) ==>
                  q[c].clause.fields == map[ALL_FIELDS := DefaultBoost])
            && ((dto.queryFields.Some? && dto.queryFields.value != []) ==>
                  q[c].clause.fields.Keys == (set f | f in dto.queryFields.value)
                  && forall f :: f in q[c].clause.fields ==> q[c].clause.fields[f] == UnitBoost))
  {
    var q := CommonPlan(dto, cfg).value.query;
    var qs := QueryStringSteps(dto).value;
    var adds := AdditionalSteps(PropertyEntries(dto));
    assert q == ChannelSteps(cfg) + qs + adds;
    var c := |ChannelSteps(cfg)|;
    if !IsBlank(dto.query) {
      assert q[c] == qs[0];
    }
  }

  /** Each additional property becomes one opaque step, after the clauses, in map order. */
  lemma AdditionalPropertySteps(dto: SearchDTO, cfg: EsConfig)
    requires CommonPlan(dto, cfg).Ok?
    ensures var q := CommonPlan(dto, cfg).value.query;
      var before := |ChannelSteps(cfg)| + |QueryStringSteps(dto).value|;
      |q| == before + |PropertyEntries(dto)|
      && forall i :: 0 <= i < |PropertyEntries(dto)| ==> q[before + i] == AdditionalProperty(PropertyEntries(dto)[i])
  {
    var q := CommonPlan(dto, cfg).value.query;
    var pre := ChannelSteps(cfg) + QueryStringSteps(dto).value;
    var adds := AdditionalSteps(PropertyEntries(dto));
    assert q == pre + adds;
    forall i | 0 <= i < |PropertyEntries(dto)|
      ensures q[|pre| + i] == AdditionalProperty(PropertyEntries(dto)[i])
    {
      assert q[|pre| + i] == adds[i];
    }
  }

  /** The projection is always set; from and size are set exactly when given. */
  lemma PagingAndProjection(dto: SearchDTO, cfg: EsConfig)
    requires CommonPlan(dto, cfg).Ok?
    ensures var p := CommonPlan(dto, cfg).value;
      p.projection == Some(Projection(dto.fields, dto.excludedFields))
      && (p.from.Some? <==> dto.offset.Some?) && (dto.offset.Some? ==> p.from.value == dto.offset.value)
      && (p.size.Some? <==> dto.limit.Some?) && (dto.limit.Some? ==> p.size.value == dto.limit.value)
  {
  }

  /** Translation fails exactly when the query fields collide or a sort entry cannot be
      read; nothing else in the DTO can make it fail. */
  lemma {:induction false} CommonPlanFails(dto: SearchDTO, cfg: EsConfig)
    ensures CommonPlan(dto, cfg).Err? <==>
      (!IsBlank(dto.query) && dto.queryFields.Some? && dto.queryFields.value != []
         && !DistinctStrings(dto.queryFields.value))
      || SortsOf(SortEntries(dto), cfg.rawAppend).Err?
  {
    if !IsBlank(dto.query) && dto.queryFields.Some? && dto.queryFields.value != [] {
      assert QueryStringSteps(dto).Err? <==> QueryFieldWeights(dto.queryFields.value).Err?;
    }
  }

  /** Sorts are emitted in `sortBy` order: the sorts of a concatenation are the sorts of
      its parts, and the first failing entry decides the error. */
  lemma {:induction false} SortsAppend(a: JMap, b: JMap, raw: string)
    ensures SortsOf(a + b, raw) ==
      match SortsOf(a, raw)
      case Err(e) => Err(e)
      case Ok(x) => (match SortsOf(b, raw) case Err(e) => Err(e) case Ok(y) => Ok(x + y))
  {
    if b == [] {
      assert a + b == a;
      if SortsOf(a, raw).Ok? {
        assert SortsOf(a, raw).value + [] == SortsOf(a, raw).value;
      }
    } else {
      var init := b[..|b| - 1];
      assert (a + b)[..|a + b| - 1] == a + init;
      assert (a + b)[|a + b| - 1] == b[|b| - 1];
      SortsAppend(a, init, raw);
      if SortsOf(a, raw).Ok? && SortsOf(init, raw).Ok? && EntrySorts(b[|b| - 1], raw).Ok? {
        var x := SortsOf(a, raw).value;
        var y := SortsOf(init, raw).value;
        var z := EntrySorts(b[|b| - 1], raw).value;
        assert x + y + z == x + (y + z);
      }
    }
  }

  /** One map entry on its own. */
  lemma SortsSingle(e: Entry, raw: string)
    ensures SortsOf([e], raw) == EntrySorts(e, raw)
  {
    assert [e][..0] == [];
    if EntrySorts(e, raw).Ok? {
      assert [] + EntrySorts(e, raw).value == EntrySorts(e, raw).value;
    }
  }

  /** A nested descriptor yields one MIN-mode sort per `term` entry, in map order, each on
      the same raw field and in the descriptor's order; it fails when a term value or
      (with a non-empty `term`) the order is not a string. */
  lemma {:induction false} NestedSortsShape(field: string, term: JMap, order: Value)
    ensures NestedSorts(field, term, order).Ok? <==>
      (forall i :: 0 <= i < |term| ==> CastString(term[i].value).Ok?) && (term != [] ==> CastString(order).Ok?)
    ensures NestedSorts(field, term, order).Ok? ==>
      var r := NestedSorts(field, term, order).value;
      |r| == |term|
      && forall i :: 0 <= i < |term| ==>
           r[i] == NestedSort(field, term[i].key, CastString(term[i].value).value, MinMode, CastString(order).value)
  {
    if term != [] {
      var init := term[..|term| - 1];
      NestedSortsShape(field, init, order);
      assert forall i :: 0 <= i < |init| ==> init[i] == term[i];
    }
  }

  /** A key without a dot yields exactly one sort on its raw field; a dotted key with a
      descriptor yields one nested sort per entry of the descriptor's `term` map. */
  lemma EntrySortsShape(e: Entry, raw: string)
    requires EntrySorts(e, raw).Ok?
    ensures !ContainsChar(e.key, '.') ==>
      EntrySorts(e, raw).value == [FieldSort(e.key + raw, CastString(e.value).value)]
    ensures ContainsChar(e.key, '.') ==>
      e.value.Obj? && Get(e.value.entries, TERM).Obj?
      && var term := Get(e.value.entries, TERM).entries;
         var r := EntrySorts(e, raw).value;
         (forall i :: 0 <= i < |term| ==> CastString(term[i].value).Ok?)
         && (term != [] ==> CastString(Get(e.value.entries, ORDER)).Ok?)
         && |r| == |term|
         && forall i :: 0 <= i < |term| ==>
              r[i] == NestedSort(e.key + raw, term[i].key, CastString(term[i].value).value, MinMode,
                                 CastString(Get(e.value.entries, ORDER)).value)
  {
    if ContainsChar(e.key, '.') {
      NestedSortsShape(e.key + raw, Get(e.value.entries, TERM).entries, Get(e.value.entries, ORDER));
    }
  }

  /** A descriptor without a `term` map is a null dereference. */
  lemma MissingTermFails(key: string, descriptor: JMap, raw: string)
    requires ContainsChar(key, '.') && Get(descriptor, TERM) == Null
    ensures EntrySorts(Entry(key, Obj(descriptor)), raw) == Err(NullPointer)
  {
  }

  lemma {:induction false} AggregationsAppend(a: FacetGroup, b: FacetGroup, raw: string)
    ensures AggregationsOf(a + b, raw) == AggregationsOf(a, raw) + AggregationsOf(b, raw)
  {
    if b == [] {
      assert a + b == a;
    } else {
      var init := b[..|b| - 1];
      assert (a + b)[..|a + b| - 1] == a + init;
      assert (a + b)[|a + b| - 1] == b[|b| - 1];
      AggregationsAppend(a, init, raw);
    }
  }

  /** `a` is named by `e`'s key, aggregates `e`'s raw field, and has the kind `e` asks for. */
  predicate BuiltFrom(a: Aggregation, e: FacetEntry, raw: string) {
    && a.name == e.key && a.field == e.key + raw
    && (a.DateHistogram? <==> EqualsIgnoreCase(e.kind, DATE_HISTOGRAM))
    && (a.DateHistogram? ==> a.intervalDays == 1)
    && (a.Terms? <==> e.kind.None?)
  }

  /** Each facet entry contributes a one-day date histogram when its kind is
      `date_histogram` in any case, a terms aggregation when its kind is null, and nothing
      otherwise, always named by the key and on the key's raw field, in entry order. */
  lemma {:induction false} AggregationsShape(group: FacetGroup, raw: string)
    ensures |AggregationsOf(group, raw)| <= |group|
    ensures forall a :: a in AggregationsOf(group, raw) ==>
      exists i :: 0 <= i < |group| && BuiltFrom(a, group[i], raw)
    ensures forall i :: 0 <= i < |group| ==>
      (AggregationOf(group[i], raw) == [] <==> (group[i].kind.Some? && !EqualsIgnoreCase(group[i].kind, DATE_HISTOGRAM)))
  {
    if group != [] {
      var init := group[..|group| - 1];
      var last := group[|group| - 1];
      AggregationsShape(init, raw);
      forall a | a in AggregationsOf(group, raw)
        ensures exists i :: 0 <= i < |group| && BuiltFrom(a, group[i], raw)
      {
        if a in AggregationsOf(init, raw) {
          var i :| 0 <= i < |init| && BuiltFrom(a, init[i], raw);
          assert group[i] == init[i];
        } else {
          assert a in AggregationOf(last, raw);
          assert group[|group| - 1] == last;
        }
      }
    }
  }

  // ---------------------------------------------------------------------------
  // The builder the adapters fill.

  /** The search source builder together with the bool query it receives. */
  class PlanBuilder {
    var query: seq<QueryStep>
    var sorts: seq<Sort>
    var projection: Option<Projection>
    var from: Option<int>
    var size: Option<int>
    var aggregations: seq<Aggregation>
    var delegated: Option<seq<FacetGroup>>

    function Build(): Plan
      reads this
    {
      Plan(query, sorts, projection, from, size, aggregations, delegated)
    }

    constructor()
      ensures Build() == EmptyPlan
    {
      query := [];
      sorts := [];
      projection := None;
      from := None;
      size := None;
      aggregations := [];
      delegated := None;
    }

    /** `query.must(clause)`. */
    method Must(c: Clause)
      modifies this
      ensures Build() == old(Build()).(query := old(query) + [QueryStep.Must(c)])
    {
      query := query + [QueryStep.Must(c)];
    }

    /** `addAdditionalProperties(query, entry, constraints)`. */
    method AddAdditionalProperty(e: Entry)
      modifies this
      ensures Build() == old(Build()).(query := old(query) + [AdditionalProperty(e)])
    {
      query := query + [AdditionalProperty(e)];
    }

    /** `sort(...)` / `addSort(...)`. */
    method AddSort(s: Sort)
      modifies this
      ensures Build() == old(Build()).(sorts := old(sorts) + [s])
    {
      sorts := sorts + [s];
    }

    /** `fetchSource(includes, excludes)` / `setFetchSource`. */
    method FetchSource(includes: Option<seq<string>>, excludes: Option<seq<string>>)
      modifies this
      ensures Build() == old(Build()).(projection := Some(Projection(includes, excludes)))
    {
      projection := Some(Projection(includes, excludes));
    }

    method From(n: int)
      modifies this
      ensures Build() == old(Build()).(from := Some(n))
    {
      from := Some(n);
    }

    method Size(n: int)
      modifies this
      ensures Build() == old(Build()).(size := Some(n))
    {
      size := Some(n);
    }

    /** `aggregation(a)`. */
    method AddAggregation(a: Aggregation)
      modifies this
      ensures Build() == old(Build()).(aggregations := old(aggregations) + [a])
    {
      aggregations := aggregations + [a];
    }

    /** Handing the facets to the Tcp adapter's aggregation helper. */
    method Delegate(facets: seq<FacetGroup>)
      modifies this
      ensures Build() == old(Build()).(delegated := Some(facets))
    {
      delegated := Some(facets);
    }
  }

  lemma {:induction false} SortsPrefixFails(entries: JMap, k: nat, raw: string)
    requires k <= |entries| && SortsOf(entries[..k], raw).Err?
    ensures SortsOf(entries, raw) == SortsOf(entries[..k], raw)
    decreases |entries| - k
  {
    if k < |entries| {
      var next := entries[..k + 1];
      assert next[..|next| - 1] == entries[..k];
      SortsPrefixFails(entries, k + 1, raw);
    } else {
      assert entries[..k] == entries;
    }
  }

  lemma {:induction false} NestedPrefixFails(field: string, term: JMap, order: Value, k: nat)
    requires k <= |term| && NestedSorts(field, term[..k], order).Err?
    ensures NestedSorts(field, term, order) == NestedSorts(field, term[..k], order)
    decreases |term| - k
  {
    if k < |term| {
      var next := term[..k + 1];
      assert next[..|next| - 1] == term[..k];
      NestedPrefixFails(field, term, order, k + 1);
    } else {
      assert term[..k] == term;
    }
  }

  /** The inner loop over a descriptor's `term` map. */
  method AddNestedSorts(b: PlanBuilder, field: string, term: JMap, order: Value) returns (err: Option<Exception>)
    modifies b
    ensures match NestedSorts(field, term, order)
      case Ok(s) => err.None? && b.Build() == old(b.Build()).(sorts := old(b.sorts) + s)
      case Err(e) => err == Some(e)
  {
    var i := 0;
    while i < |term|
      invariant 0 <= i <= |term|
      invariant NestedSorts(field, term[..i], order).Ok?
      invariant b.Build() == old(b.Build()).(sorts := old(b.sorts) + NestedSorts(field, term[..i], order).value)
    {
      var next := term[..i + 1];
      assert next[..|next| - 1] == term[..i];
      var value := CastString(term[i].value);
      if value.Err? {
        NestedPrefixFails(field, term, order, i + 1);
        return Some(value.error);
      }
      var ord := CastString(order);
      if ord.Err? {
        NestedPrefixFails(field, term, order, i + 1);
        return Some(ord.error);
      }
      b.AddSort(NestedSort(field, term[i].key, value.value, MinMode, ord.value));
      i := i + 1;
    }
    assert term[..i] == term;
    return None;
  }

  /** One `sortBy` entry. */
  method AddEntrySorts(b: PlanBuilder, e: Entry, raw: string) returns (err: Option<Exception>)
    modifies b
    ensures match EntrySorts(e, raw)
      case Ok(s) => err.None? && b.Build() == old(b.Build()).(sorts := old(b.sorts) + s)
      case Err(x) => err == Some(x)
  {
    if !ContainsChar(e.key, '.') {
      var order := CastString(e.value);
      if order.Err? { return Some(order.error); }
      b.AddSort(FieldSort(e.key + raw, order.value));
      return None;
    }
    var descriptor := CastMap(e.value);
    if descriptor.Err? { return Some(descriptor.error); }
    if descriptor.value.None? { return Some(NullPointer); }
    var term := CastMap(Get(descriptor.value.value, TERM));
    if term.Err? { return Some(term.error); }
    if term.value.None? { return Some(NullPointer); }
    err := AddNestedSorts(b, e.key + raw, term.value.value, Get(descriptor.value.value, ORDER));
  }

  /** The loop over `sortBy`. */
  method AddSorts(b: PlanBuilder, entries: JMap, raw: string) returns (err: Option<Exception>)
    modifies b
    ensures match SortsOf(entries, raw)
      case Ok(s) => err.None? && b.Build() == old(b.Build()).(sorts := old(b.sorts) + s)
      case Err(e) => err == Some(e)
  {
    var i := 0;
    while i < |entries|
      invariant 0 <= i <= |entries|
      invariant SortsOf(entries[..i], raw).Ok?
      invariant b.Build() == old(b.Build()).(sorts := old(b.sorts) + SortsOf(entries[..i], raw).value)
    {
      var next := entries[..i + 1];
      assert next[..|next| - 1] == entries[..i];
      assert next[|next| - 1] == entries[i];
      ghost var before := b.sorts;
      err := AddEntrySorts(b, entries[i], raw);
      if err.Some? {
        SortsPrefixFails(entries, i + 1, raw);
        return;
      }
      assert b.sorts == before + EntrySorts(entries[i], raw).value;
      i := i + 1;
    }
    assert entries[..i] == entries;
    return None;
  }

  /** The loop over `additionalProperties`. */
  method AddAdditionalProperties(b: PlanBuilder, entries: JMap)
    modifies b
    ensures b.Build() == old(b.Build()).(query := old(b.query) + AdditionalSteps(entries))
  {
    var i := 0;
    while i < |entries|
      invariant 0 <= i <= |entries|
      invariant b.Build() == old(b.Build()).(query := old(b.query) + AdditionalSteps(entries[..i]))
    {
      var next := entries[..i + 1];
      assert next[..|next| - 1] == entries[..i];
      b.AddAdditionalProperty(entries[i]);
      i := i + 1;
    }
    assert entries[..i] == entries;
  }

  /** The channel clause and the query-string clause. */
  method AddClauses(b: PlanBuilder, dto: SearchDTO, cfg: EsConfig) returns (err: Option<Exception>)
    requires b.Build() == EmptyPlan
    modifies b
    ensures match QueryStringSteps(dto)
      case Ok(qs) => err.None? && b.Build() == EmptyPlan.(query := ChannelSteps(cfg) + qs)
      case Err(e) => err == Some(e)
  {
    if ChannelConfigured(cfg) {
      b.Must(ChannelMatch(cfg.channel.value));
    }
    if !IsBlank(dto.query) {
      if dto.queryFields.None? || dto.queryFields.value == [] {
        b.Must(SimpleQueryString(dto.query.value, map[ALL_FIELDS := DefaultBoost]));
      } else {
        var weights := QueryFieldWeights(dto.queryFields.value);
        if weights.Err? { return Some(weights.error); }
        b.Must(SimpleQueryString(dto.query.value, weights.value));
      }
    }
    return None;
  }

  /** The part of `search` both adapters share: channel clause, query string, sorts,
      projection, from, size and additional properties, in source order. A translation
      error is what the adapter's `search` would throw. */
  method FillCommon(b: PlanBuilder, dto: SearchDTO, cfg: EsConfig) returns (err: Option<Exception>)
    requires b.Build() == EmptyPlan
    modifies b
    ensures match CommonPlan(dto, cfg)
      case Ok(p) => err.None? && b.Build() == p
      case Err(e) => err == Some(e)
  {
    err := AddClauses(b, dto, cfg);
    if err.Some? { return; }
    ghost var clauses := b.query;
    if dto.sortBy.Some? && |dto.sortBy.value| > 0 {
      err := AddSorts(b, dto.sortBy.value, cfg.rawAppend);
      if err.Some? { return; }
    }
    assert b.Build() == EmptyPlan.(query := clauses, sorts := SortsOf(SortEntries(dto), cfg.rawAppend).value);
    b.FetchSource(dto.fields, dto.excludedFields);
    if dto.offset.Some? { b.From(dto.offset.value); }
    if dto.limit.Some? { b.Size(dto.limit.value); }
    if dto.additionalProperties.Some? && |dto.additionalProperties.value| > 0 {
      AddAdditionalProperties(b, dto.additionalProperties.value);
    }
    return None;
  }
}
