/** `TelemetryGenerator`: builds the AUDIT, SEARCH, LOG and ERROR telemetry events from a
    request context map and a parameter map. The model stops at the event record; its
    serialisation to JSON is not modelled. Every `(String)`, `(Map)`, `(List)` and
    `(Long)` cast of a map value is checked, and an exception it or a null dereference
    raises propagates out of the builder. */
module Telemetry {
  import opened JavaLang
  import opened JavaMaps

  // JsonKey constants; only their being distinct matters.
  const ACTOR_ID: string := "actorId"
  const ACTOR_TYPE: string := "actorType"
  const TARGET_OBJECT: string := "targetObject"
  const CORRELATED_OBJECTS: string := "correlatedObjects"
  const REQUEST_ID: string := "requestId"
  const ID: string := "id"
  const TYPE: string := "type"
  const REQUEST: string := "request"
  const ROLLUP: string := "rollup"
  const PROPS: string := "props"
  const CURRENT_STATE: string := "currentState"
  const STATE: string := "state"
  const CHANNEL: string := "channel"
  const ENV: string := "env"
  const PDATA_ID: string := "pdataId"
  const PDATA_PID: string := "pdataPid"
  const PDATA_VERSION: string := "pdataVersion"
  const QUERY: string := "query"
  const FILTERS: string := "filters"
  const SORT: string := "sort"
  const SIZE: string := "size"
  const TOPN: string := "topn"
  const LOG_TYPE: string := "logType"
  const LOG_LEVEL: string := "logLevel"
  const MESSAGE: string := "message"
  const LEVEL: string := "level"
  const PARAMS: string := "params"
  const ERROR: string := "error"
  const ERR_TYPE: string := "errtype"
  const STACKTRACE: string := "stacktrace"

  /** The keys `generateLogEdata` keeps out of the `params` list. */
  const LOG_IGNORED: seq<string> := [LOG_TYPE, LOG_LEVEL, MESSAGE]

  /** The keys of search edata and of log edata, in the order they are put. */
  const SEARCH_KEYS: seq<string> := [TYPE, QUERY, FILTERS, SORT, SIZE, TOPN]
  const LOG_KEYS: seq<string> := [TYPE, LEVEL, MESSAGE, PARAMS]

  /** The edata keys are distinct strings. */
  lemma EdataKeysDistinct()
    ensures forall i, j :: 0 <= i < j < |SEARCH_KEYS| ==> SEARCH_KEYS[i] != SEARCH_KEYS[j]
    ensures forall i, j :: 0 <= i < j < |LOG_KEYS| ==> LOG_KEYS[i] != LOG_KEYS[j]
  {
  }

  /** `TelemetryEvents`: the event id each builder stamps on its event. */
  datatype EventKind = AuditEvent | SearchEvent | LogEvent | ErrorEvent

  datatype Actor = Actor(id: Option<string>, kind: Option<string>)

  datatype Producer = Producer(id: Option<string>, pid: Option<string>, ver: Option<string>)

  /** The audited object; its rollup is set only when the target map has one. */
  datatype Target = Target(id: Option<string>, kind: Option<string>, rollup: Option<JMap>)

  /** The state of an event context once the builder is done with it. */
  datatype ContextRecord = ContextRecord(channel: Option<string>, env: Option<string>, pdata: Producer,
                                         cdata: seq<JMap>, rollup: Option<JMap>)

  /** The `Telemetry` object handed to the serialiser. */
  datatype Event = Event(eid: EventKind, actor: Actor, context: ContextRecord, edata: JMap, target: Option<Target>)

  /** The event `Context` a builder fills: created with an empty correlated-data list and
      no rollup, then updated in place. */
  class EventContext {
    var channel: Option<string>
    var env: Option<string>
    var pdata: Producer
    var cdata: seq<JMap>
    var rollup: Option<JMap>

    constructor(channel: Option<string>, env: Option<string>, pdata: Producer)
      ensures Record() == ContextRecord(channel, env, pdata, [], None)
    {
      this.channel := channel;
      this.env := env;
      this.pdata := pdata;
      this.cdata := [];
      this.rollup := None;
    }

    function Record(): ContextRecord
      reads this
    {
      ContextRecord(channel, env, pdata, cdata, rollup)
    }

    /** `setCdata`. */
    method SetCdata(list: seq<JMap>)
      modifies this
      ensures Record() == old(Record()).(cdata := list)
    {
      cdata := list;
    }

    /** `getCdata().add(m)`. */
    method AddCdata(m: JMap)
      modifies this
      ensures Record() == old(Record()).(cdata := old(cdata) + [m])
    {
      cdata := cdata + [m];
    }

    /** `setRollup`. */
    method SetRollup(r: JMap)
      modifies this
      ensures Record() == old(Record()).(rollup := Some(r))
    {
      rollup := Some(r);
    }
  }

  // ---------------------------------------------------------------------------
  // The pieces of an event, as functions of the two input maps

  /** `validateRequest`: both maps present and non-empty. */
  predicate ValidateRequest(context: Option<JMap>, params: Option<JMap>) {
    !IsEmptyMap(context) && !IsEmptyMap(params)
  }

  function ActorOf(context: JMap): Result<Actor, Exception> {
    var id :- CastString(Get(context, ACTOR_ID));
    var kind :- CastString(Get(context, ACTOR_TYPE));
    Ok(Actor(id, kind))
  }

  /** `getProducer`. */
  function ProducerOf(context: JMap): Result<Producer, Exception> {
    var id :- CastString(Get(context, PDATA_ID));
    var pid :- CastString(Get(context, PDATA_PID));
    var ver :- CastString(Get(context, PDATA_VERSION));
    Ok(Producer(id, pid, ver))
  }

  /** `getContext`: channel, environment and producer from the context map; the rollup
      only when it is there and not empty. */
  function ContextOf(context: JMap): Result<ContextRecord, Exception> {
    var channel :- CastString(Get(context, CHANNEL));
    var env :- CastString(Get(context, ENV));
    var producer :- ProducerOf(context);
    var rollup :- CastMap(Get(context, ROLLUP));
    Ok(ContextRecord(channel, env, producer, [], if rollup.Some? && rollup.value != [] then rollup else None))
  }

  /** `generateTargetObject`: a missing target map is a null dereference. */
  function TargetOf(target: Value): Result<Target, Exception> {
    var m :- CastMap(target);
    if m.None? then Err(NullPointer)
    else
      var id :- CastString(Get(m.value, ID));
      var kind :- CastString(Get(m.value, TYPE));
      var rollup :- CastMap(Get(m.value, ROLLUP));
      Ok(Target(id, kind, rollup))
  }

  /** The correlated-data entry for a request id. */
  function RequestEntry(reqId: string): JMap {
    [Entry(ID, Str(reqId)), Entry(TYPE, Str(REQUEST))]
  }

  /** What every builder does with the request id: a non-blank one is appended to the
      correlated data. */
  function WithRequestId(ctx: ContextRecord, context: JMap): Result<ContextRecord, Exception> {
    var reqId :- CastString(Get(context, REQUEST_ID));
    if IsBlank(reqId) then Ok(ctx) else Ok(ctx.(cdata := ctx.cdata + [RequestEntry(reqId.value)]))
  }

  /** The entry one correlated object contributes: its `id` and `type` only. */
  function CorrelatedEntry(v: Value): Result<JMap, Exception> {
    match v
    case Null => Err(NullPointer)
    case Obj(m) => Ok([Entry(ID, Get(m, ID)), Entry(TYPE, Get(m, TYPE))])
    case _ => Err(ClassCast)
  }

  /** The entries of a list of correlated objects in list order; the first bad element
      raises. */
  function CorrelatedEntries(list: seq<Value>): Result<seq<JMap>, Exception> {
    if list == [] then Ok([])
    else
      var init :- CorrelatedEntries(list[..|list| - 1]);
      var last :- CorrelatedEntry(list[|list| - 1]);
      Ok(init + [last])
  }

  /** The list `setCorrelatedDataToContext` sets: empty for a null or empty list. */
  function CorrelatedCdata(correlated: Value): Result<seq<JMap>, Exception> {
    var list :- CastList(correlated);
    if list.None? || list.value == [] then Ok([]) else CorrelatedEntries(list.value)
  }

  /** The audit builder's handling of correlated objects: present under the key (even
      as null), they replace the correlated data. */
  function WithCorrelated(ctx: ContextRecord, params: JMap): Result<ContextRecord, Exception> {
    if HasKey(params, CORRELATED_OBJECTS) then
      var cdata :- CorrelatedCdata(Get(params, CORRELATED_OBJECTS));
      Ok(ctx.(cdata := cdata))
    else Ok(ctx)
  }

  /** The keys of a map as a list of Strings, in iteration order. */
  function KeyList(m: JMap): (r: seq<Value>)
    ensures |r| == |m|
    ensures forall i :: 0 <= i < |m| ==> r[i] == Str(m[i].key)
  {
    if m == [] then [] else [Str(m[0].key)] + KeyList(m[1..])
  }

  /** `generateAuditEdata`: the keys of `props`, and the target's current state when it
      has one. A missing `props` or target map is a null dereference. */
  function AuditEdata(params: JMap): Result<JMap, Exception> {
    var props :- CastMap(Get(params, PROPS));
    if props.None? then Err(NullPointer)
    else
      var target :- CastMap(Get(params, TARGET_OBJECT));
      if target.None? then Err(NullPointer)
      else
        var edata := [Entry(PROPS, List(KeyList(props.value)))];
        if Get(target.value, CURRENT_STATE) != Null then Ok(edata + [Entry(STATE, Get(target.value, CURRENT_STATE))])
        else Ok(edata)
  }

  /** `generateSearchEdata`: type, query (a null query as the empty string), filters,
      sort, size and top-n, each cast first. */
  function SearchEdata(params: JMap): Result<JMap, Exception> {
    var kind :- CastString(Get(params, TYPE));
    var query :- CastString(Get(params, QUERY));
    var filters :- CastMap(Get(params, FILTERS));
    var sort :- CastMap(Get(params, SORT));
    var size :- CastLong(Get(params, SIZE));
    var topn :- CastList(Get(params, TOPN));
    Ok([Entry(TYPE, StrOrNull(kind)),
        Entry(QUERY, Str(if query.None? then "" else query.value)),
        Entry(FILTERS, MapOrNull(filters)),
        Entry(SORT, MapOrNull(sort)),
        Entry(SIZE, LongOrNull(size)),
        Entry(TOPN, ListOrNull(topn))])
  }

  /** `getParamsList`: one single-entry map per entry whose key is not ignored, in
      iteration order. */
  function ParamsList(params: JMap, ignore: seq<string>): seq<Value> {
    if params == [] then []
    else
      var init := ParamsList(params[..|params| - 1], ignore);
      var last := params[|params| - 1];
      if last.key in ignore then init else init + [Obj([last])]
  }

  /** `generateLogEdata`: log type, level and message, and the other parameters. */
  function LogEdata(params: JMap): Result<JMap, Exception> {
    var logType :- CastString(Get(params, LOG_TYPE));
    var logLevel :- CastString(Get(params, LOG_LEVEL));
    var message :- CastString(Get(params, MESSAGE));
    Ok([Entry(TYPE, StrOrNull(logType)),
        Entry(LEVEL, StrOrNull(logLevel)),
        Entry(MESSAGE, StrOrNull(message)),
        Entry(PARAMS, List(ParamsList(params, LOG_IGNORED)))])
  }

  /** `generateErrorEdata`. */
  function ErrorEdata(params: JMap): Result<JMap, Exception> {
    var error :- CastString(Get(params, ERROR));
    var errType :- CastString(Get(params, ERR_TYPE));
    var stackTrace :- CastString(Get(params, STACKTRACE));
    Ok([Entry(ERROR, StrOrNull(error)), Entry(ERR_TYPE, StrOrNull(errType)), Entry(STACKTRACE, StrOrNull(stackTrace))])
  }

  /** The actor and context every builder but the audit one starts with, request id
      included. */
  function Envelope(context: JMap): Result<(Actor, ContextRecord), Exception> {
    var actor :- ActorOf(context);
    var ctx :- ContextOf(context);
    var withId :- WithRequestId(ctx, context);
    Ok((actor, withId))
  }

  /** `audit`: None stands for the empty string returned on an invalid request. */
  function AuditOf(context: Option<JMap>, params: Option<JMap>): Result<Option<Event>, Exception> {
    if !ValidateRequest(context, params) then Ok(None)
    else
      var actor :- ActorOf(context.value);
      var target :- TargetOf(Get(params.value, TARGET_OBJECT));
      var ctx :- ContextOf(context.value);
      var correlated :- WithCorrelated(ctx, params.value);
      var withId :- WithRequestId(correlated, context.value);
      var edata :- AuditEdata(params.value);
      Ok(Some(Event(AuditEvent, actor, withId, edata, Some(target))))
  }

  /** The search, log and error events: the envelope and the kind's own edata. */
  function EventOf(kind: EventKind, context: Option<JMap>, params: Option<JMap>): Result<Option<Event>, Exception>
    requires kind != AuditEvent
  {
    if !ValidateRequest(context, params) then Ok(None)
    else
      var envelope :- Envelope(context.value);
      var edata :- match kind
                   case SearchEvent => SearchEdata(params.value)
                   case LogEvent => LogEdata(params.value)
                   case ErrorEvent => ErrorEdata(params.value);
      Ok(Some(Event(kind, envelope.0, envelope.1, edata, None)))
  }

  // ---------------------------------------------------------------------------
  // The builders

  /** `getContext`, filling a new event context. */
  method GetContext(context: JMap) returns (r: Result<EventContext, Exception>)
    ensures r.Ok? <==> ContextOf(context).Ok?
    ensures r.Ok? ==> fresh(r.value) && r.value.Record() == ContextOf(context).value
    ensures r.Err? ==> r.error == ContextOf(context).error
  {
    var channel := CastString(Get(context, CHANNEL));
    var env := CastString(Get(context, ENV));
    if channel.Err? || env.Err? {
      return Err(if channel.Err? then channel.error else env.error);
    }
    var producer := ProducerOf(context);
    if producer.Err? {
      return Err(producer.error);
    }
    var ctx := new EventContext(channel.value, env.value, producer.value);
    var rollup := CastMap(Get(context, ROLLUP));
    if rollup.Err? {
      return Err(rollup.error);
    }
    if rollup.value.Some? && rollup.value.value != [] {
      ctx.SetRollup(rollup.value.value);
    }
    return Ok(ctx);
  }

  /** A prefix of a correlated list that fails makes the whole list fail the same way. */
  lemma {:induction false} EntriesPrefixFails(list: seq<Value>, i: nat)
    requires i <= |list| && CorrelatedEntries(list[..i]).Err?
    ensures CorrelatedEntries(list) == CorrelatedEntries(list[..i])
    decreases |list| - i
  {
    if i < |list| {
      assert list[..i + 1][..i] == list[..i];
      EntriesPrefixFails(list, i + 1);
    } else {
      assert list[..i] == list;
    }
  }

  /** `setCorrelatedDataToContext`: builds the list entry by entry and sets it; an
      exception raised on the way leaves the context as it was. */
  method SetCorrelatedDataToContext(correlated: Value, ctx: EventContext) returns (err: Option<Exception>)
    modifies ctx
    ensures match CorrelatedCdata(correlated)
            case Ok(list) => err.None? && ctx.Record() == old(ctx.Record()).(cdata := list)
            case Err(e) => err == Some(e) && ctx.Record() == old(ctx.Record())
  {
    var list := CastList(correlated);
    if list.Err? {
      return Some(list.error);
    }
    var targetList: seq<JMap> := [];
    if list.value.Some? && list.value.value != [] {
      var items := list.value.value;
      for i := 0 to |items|
        invariant CorrelatedEntries(items[..i]) == Ok(targetList)
      {
        var entry := CorrelatedEntry(items[i]);
        assert items[..i + 1][..i] == items[..i];
        if entry.Err? {
          EntriesPrefixFails(items, i + 1);
          return Some(entry.error);
        }
        targetList := targetList + [entry.value];
      }
      assert items[..|items|] == items;
    }
    ctx.SetCdata(targetList);
    return None;
  }

  /** The request-id step of every builder, on the context in place. */
  method AddRequestId(context: JMap, ctx: EventContext) returns (err: Option<Exception>)
    modifies ctx
    ensures match WithRequestId(old(ctx.Record()), context)
            case Ok(rec) => err.None? && ctx.Record() == rec
            case Err(e) => err == Some(e) && ctx.Record() == old(ctx.Record())
  {
    var reqId := CastString(Get(context, REQUEST_ID));
    if reqId.Err? {
      return Some(reqId.error);
    }
    if !IsBlank(reqId.value) {
      ctx.AddCdata(RequestEntry(reqId.value.value));
    }
    return None;
  }

  /** `audit`. */
  method Audit(context: Option<JMap>, params: Option<JMap>) returns (r: Result<Option<Event>, Exception>)
    ensures r == AuditOf(context, params)
  {
    if !ValidateRequest(context, params) {
      return Ok(None);
    }
    var actor := ActorOf(context.value);
    if actor.Err? {
      return Err(actor.error);
    }
    var target := TargetOf(Get(params.value, TARGET_OBJECT));
    if target.Err? {
      return Err(target.error);
    }
    var made := GetContext(context.value);
    if made.Err? {
      return Err(made.error);
    }
    var ctx := made.value;
    if HasKey(params.value, CORRELATED_OBJECTS) {
      var err := SetCorrelatedDataToContext(Get(params.value, CORRELATED_OBJECTS), ctx);
      if err.Some? {
        return Err(err.value);
      }
    }
    var err := AddRequestId(context.value, ctx);
    if err.Some? {
      return Err(err.value);
    }
    var edata := AuditEdata(params.value);
    if edata.Err? {
      return Err(edata.error);
    }
    return Ok(Some(Event(AuditEvent, actor.value, ctx.Record(), edata.value, Some(target.value))));
  }

  /** The envelope of `search`, `log` and `error`: actor, context and request id. */
  method StartEvent(context: JMap) returns (r: Result<(Actor, EventContext), Exception>)
    ensures r.Ok? <==> Envelope(context).Ok?
    ensures r.Ok? ==> fresh(r.value.1) && (r.value.0, r.value.1.Record()) == Envelope(context).value
    ensures r.Err? ==> r.error == Envelope(context).error
  {
    var actor := ActorOf(context);
    if actor.Err? {
      return Err(actor.error);
    }
    var made := GetContext(context);
    if made.Err? {
      return Err(made.error);
    }
    var ctx := made.value;
    var err := AddRequestId(context, ctx);
    if err.Some? {
      return Err(err.value);
    }
    return Ok((actor.value, ctx));
  }

  /** `search`. */
  method Search(context: Option<JMap>, params: Option<JMap>) returns (r: Result<Option<Event>, Exception>)
    ensures r == EventOf(SearchEvent, context, params)
  {
    if !ValidateRequest(context, params) {
      return Ok(None);
    }
    var envelope := StartEvent(context.value);
    if envelope.Err? {
      return Err(envelope.error);
    }
    var edata := SearchEdata(params.value);
    if edata.Err? {
      return Err(edata.error);
    }
    return Ok(Some(Event(SearchEvent, envelope.value.0, envelope.value.1.Record(), edata.value, None)));
  }

  /** `getParamsList`: the loop over the entries of `params`. */
  method GetParamsList(params: Option<JMap>, ignore: seq<string>) returns (list: seq<Value>)
    ensures list == if IsEmptyMap(params) then [] else ParamsList(params.value, ignore)
  {
    list := [];
    if !IsEmptyMap(params) {
      var entries := params.value;
      for i := 0 to |entries|
        invariant list == ParamsList(entries[..i], ignore)
      {
        assert entries[..i + 1][..i] == entries[..i];
        if entries[i].key !in ignore {
          list := list + [Obj([entries[i]])];
        }
      }
      assert entries[..|entries|] == entries;
    }
  }

  /** `log`. */
  method Log(context: Option<JMap>, params: Option<JMap>) returns (r: Result<Option<Event>, Exception>)
    ensures r == EventOf(LogEvent, context, params)
  {
    if !ValidateRequest(context, params) {
      return Ok(None);
    }
    var envelope := StartEvent(context.value);
    if envelope.Err? {
      return Err(envelope.error);
    }
    var p := params.value;
    var logType := CastString(Get(p, LOG_TYPE));
    var logLevel := CastString(Get(p, LOG_LEVEL));
    var message := CastString(Get(p, MESSAGE));
    if logType.Err? || logLevel.Err? || message.Err? {
      return Err(if logType.Err? then logType.error else if logLevel.Err? then logLevel.error else message.error);
    }
    var rest := GetParamsList(params, LOG_IGNORED);
    var edata := [Entry(TYPE, StrOrNull(logType.value)), Entry(LEVEL, StrOrNull(logLevel.value)),
                  Entry(MESSAGE, StrOrNull(message.value)), Entry(PARAMS, List(rest))];
    return Ok(Some(Event(LogEvent, envelope.value.0, envelope.value.1.Record(), edata, None)));
  }

  /** `error`. */
  method Error(context: Option<JMap>, params: Option<JMap>) returns (r: Result<Option<Event>, Exception>)
    ensures r == EventOf(ErrorEvent, context, params)
  {
    if !ValidateRequest(context, params) {
      return Ok(None);
    }
    var envelope := StartEvent(context.value);
    if envelope.Err? {
      return Err(envelope.error);
    }
    var edata := ErrorEdata(params.value);
    if edata.Err? {
      return Err(edata.error);
    }
    return Ok(Some(Event(ErrorEvent, envelope.value.0, envelope.value.1.Record(), edata.value, None)));
  }

  // ---------------------------------------------------------------------------
  // What the events contain

  /** Every builder returns the empty string exactly when the context or the params map
      is null or empty. */
  lemma EmptyOnInvalidRequest(kind: EventKind, context: Option<JMap>, params: Option<JMap>)
    ensures !ValidateRequest(context, params) <==>
      context.None? || context.value == [] || params.None? || params.value == []
    ensures AuditOf(context, params) == Ok(None) <==> !ValidateRequest(context, params)
    ensures kind != AuditEvent ==> (EventOf(kind, context, params) == Ok(None) <==> !ValidateRequest(context, params))
  {
  }

  /** A non-blank request id adds exactly one entry, `{id: reqId, type: request}`, at
      the end of the correlated data; a blank one changes nothing. */
  lemma RequestIdAppends(ctx: ContextRecord, context: JMap)
    requires CastString(Get(context, REQUEST_ID)).Ok?
    ensures var reqId := CastString(Get(context, REQUEST_ID)).value;
      && WithRequestId(ctx, context).Ok?
      && (IsBlank(reqId) ==> WithRequestId(ctx, context).value == ctx)
      && (!IsBlank(reqId) ==>
            && WithRequestId(ctx, context).value.(cdata := ctx.cdata) == ctx
            && |WithRequestId(ctx, context).value.cdata| == |ctx.cdata| + 1
            && WithRequestId(ctx, context).value.cdata[..|ctx.cdata|] == ctx.cdata
            && WithRequestId(ctx, context).value.cdata[|ctx.cdata|]
               == [Entry(ID, Get(context, REQUEST_ID)), Entry(TYPE, Str(REQUEST))])
  {
  }

  /** The correlated entries: one per object, in order, each with only the object's `id`
      and `type`; they exist exactly when every element is a map. */
  lemma {:induction false} CorrelatedShape(list: seq<Value>)
    ensures CorrelatedEntries(list).Ok? <==> forall i :: 0 <= i < |list| ==> list[i].Obj?
    ensures CorrelatedEntries(list).Ok? ==>
      var cdata := CorrelatedEntries(list).value;
      && |cdata| == |list|
      && forall i :: 0 <= i < |list| ==>
           cdata[i] == [Entry(ID, Get(list[i].entries, ID)), Entry(TYPE, Get(list[i].entries, TYPE))]
    ensures CorrelatedEntries(list).Err? ==> CorrelatedEntries(list).error in {NullPointer, ClassCast}
  {
    if list != [] {
      var init := list[..|list| - 1];
      CorrelatedShape(init);
      assert forall i :: 0 <= i < |init| ==> init[i] == list[i];
    }
  }

  /** A null or empty correlated list empties the correlated data. */
  lemma CorrelatedNullOrEmpty(ctx: ContextRecord, params: JMap)
    requires HasKey(params, CORRELATED_OBJECTS)
    requires Get(params, CORRELATED_OBJECTS) == Null || Get(params, CORRELATED_OBJECTS) == List([])
    ensures WithCorrelated(ctx, params) == Ok(ctx.(cdata := []))
  {
  }

  /** The correlated data of an audit event: the correlated objects' entries when the
      params name any (none otherwise), then the request-id entry. */
  lemma AuditCdata(context: Option<JMap>, params: Option<JMap>)
    requires AuditOf(context, params).Ok? && AuditOf(context, params).value.Some?
    ensures var e := AuditOf(context, params).value.value;
      var reqId := CastString(Get(context.value, REQUEST_ID)).value;
      && e.eid == AuditEvent && e.target.Some?
      && (HasKey(params.value, CORRELATED_OBJECTS) ==> CorrelatedCdata(Get(params.value, CORRELATED_OBJECTS)).Ok?)
      && e.context.cdata
         == (if HasKey(params.value, CORRELATED_OBJECTS) then CorrelatedCdata(Get(params.value, CORRELATED_OBJECTS)).value else [])
            + (if IsBlank(reqId) then [] else [RequestEntry(reqId.value)])
  {
  }

  /** The correlated data of a search, log or error event holds the request-id entry
      and nothing else; the rest of the context is `getContext`'s. */
  lemma EnvelopeCdata(context: JMap)
    requires Envelope(context).Ok?
    ensures var ctx := Envelope(context).value.1;
      var reqId := CastString(Get(context, REQUEST_ID)).value;
      && ctx.cdata == (if IsBlank(reqId) then [] else [RequestEntry(reqId.value)])
      && ctx.(cdata := []) == ContextOf(context).value
  {
  }

  /** Audit edata: `props` lists the keys of the params' `props` map, and `state` is
      there exactly when the target has a non-null current state, holding it. */
  lemma AuditEdataShape(params: JMap)
    requires AuditEdata(params).Ok?
    ensures var edata := AuditEdata(params).value;
      && Get(params, PROPS).Obj? && Get(params, TARGET_OBJECT).Obj?
      && Get(edata, PROPS) == List(KeyList(Get(params, PROPS).entries))
      && (HasKey(edata, STATE) <==> Get(Get(params, TARGET_OBJECT).entries, CURRENT_STATE) != Null)
      && Get(edata, STATE) == Get(Get(params, TARGET_OBJECT).entries, CURRENT_STATE)
      && forall i :: 0 <= i < |edata| ==> edata[i].key in {PROPS, STATE}
  {
    var props := Get(params, PROPS).entries;
    var state := Get(Get(params, TARGET_OBJECT).entries, CURRENT_STATE);
    var edata := AuditEdata(params).value;
    var head := [Entry(PROPS, List(KeyList(props)))];
    if state != Null {
      assert edata == head + [Entry(STATE, state)];
      assert edata[1].key == STATE;
    } else {
      assert edata == head;
      assert !HasKey(edata, STATE);
    }
  }

  /** A missing `props` map makes the audit edata a null dereference. */
  lemma AuditWithoutProps(params: JMap)
    requires Get(params, PROPS) == Null
    ensures AuditEdata(params) == Err(NullPointer)
  {
  }

  /** The context's rollup is set exactly when the context map has a non-empty one. */
  lemma ContextRollup(context: JMap)
    requires ContextOf(context).Ok?
    ensures var rollup := ContextOf(context).value.rollup;
      && (rollup.Some? <==> Get(context, ROLLUP).Obj? && Get(context, ROLLUP).entries != [])
      && (rollup.Some? ==> rollup.value == Get(context, ROLLUP).entries)
  {
  }

  /** The target's rollup is set whenever the target map has one, and a missing target
      map is a null dereference. */
  lemma TargetRollup(target: JMap)
    requires TargetOf(Obj(target)).Ok?
    ensures MapOrNull(TargetOf(Obj(target)).value.rollup) == Get(target, ROLLUP)
    ensures TargetOf(Null) == Err(NullPointer)
  {
    CastRoundTrip(Get(target, ROLLUP));
  }

  /** The entries of search edata, each value given back as the params hold it. */
  lemma SearchEdataEntries(params: JMap)
    requires SearchEdata(params).Ok?
    ensures var query := Get(params, QUERY);
      SearchEdata(params).value ==
        [Entry(TYPE, Get(params, TYPE)), Entry(QUERY, if query == Null then Str("") else query),
         Entry(FILTERS, Get(params, FILTERS)), Entry(SORT, Get(params, SORT)),
         Entry(SIZE, Get(params, SIZE)), Entry(TOPN, Get(params, TOPN))]
  {
    CastRoundTrip(Get(params, TYPE));
    CastRoundTrip(Get(params, QUERY));
    CastRoundTrip(Get(params, FILTERS));
    CastRoundTrip(Get(params, SORT));
    CastRoundTrip(Get(params, SIZE));
    CastRoundTrip(Get(params, TOPN));
  }

  /** The size is cast to `Long`: search edata is built only for a null or `Long` size,
      and an `Integer` size behind readable type, query, filters and sort raises
      ClassCastException. */
  lemma SearchSizeIsLong(params: JMap)
    ensures SearchEdata(params).Ok? ==> Get(params, SIZE).Null? || (Get(params, SIZE).Num? && Get(params, SIZE).boxed == LongBox)
    ensures (&& CastString(Get(params, TYPE)).Ok? && CastString(Get(params, QUERY)).Ok?
             && CastMap(Get(params, FILTERS)).Ok? && CastMap(Get(params, SORT)).Ok?
             && Get(params, SIZE).Num? && Get(params, SIZE).boxed == IntegerBox)
      ==> SearchEdata(params) == Err(ClassCast)
  {
  }

  /** Search edata: the query, or the empty string for a null query; type, filters,
      sort, size and top-n exactly as the params hold them. */
  lemma SearchEdataCopies(params: JMap)
    requires SearchEdata(params).Ok?
    ensures var edata := SearchEdata(params).value;
      && Keys(edata) == [TYPE, QUERY, FILTERS, SORT, SIZE, TOPN]
      && Get(edata, QUERY) == (if Get(params, QUERY) == Null then Str("") else Get(params, QUERY))
      && Get(edata, TYPE) == Get(params, TYPE)
      && Get(edata, FILTERS) == Get(params, FILTERS)
      && Get(edata, SORT) == Get(params, SORT)
      && Get(edata, SIZE) == Get(params, SIZE)
      && Get(edata, TOPN) == Get(params, TOPN)
  {
    SearchEdataEntries(params);
    var edata := SearchEdata(params).value;
    assert forall i :: 0 <= i < |edata| ==> edata[i].key == SEARCH_KEYS[i];
    assert Keys(edata) == SEARCH_KEYS;
    EdataKeysDistinct();
    assert DistinctKeys(edata);
    GetAt(edata, 2);
    GetAt(edata, 3);
    GetAt(edata, 4);
    GetAt(edata, 5);
  }

  /** The parameter list of a concatenation is the concatenation of the lists: entries
      keep their iteration order. */
  lemma {:induction false} ParamsListAppend(a: JMap, b: JMap, ignore: seq<string>)
    ensures ParamsList(a + b, ignore) == ParamsList(a, ignore) + ParamsList(b, ignore)
  {
    if b != [] {
      var init := b[..|b| - 1];
      assert (a + b)[..|a + b| - 1] == a + init;
      ParamsListAppend(a, init, ignore);
    } else {
      assert a + b == a;
    }
  }

  /** Every element of the parameter list is a single-entry map of an entry that is not
      ignored, and every such entry has one. */
  lemma {:induction false} ParamsListShape(params: JMap, ignore: seq<string>)
    ensures forall x :: x in ParamsList(params, ignore) ==>
      exists i :: 0 <= i < |params| && params[i].key !in ignore && x == Obj([params[i]])
    ensures forall i :: 0 <= i < |params| && params[i].key !in ignore ==> Obj([params[i]]) in ParamsList(params, ignore)
    ensures |ParamsList(params, ignore)| <= |params|
  {
    if params != [] {
      var init := params[..|params| - 1];
      ParamsListShape(init, ignore);
      assert forall i :: 0 <= i < |init| ==> init[i] == params[i];
    }
  }

  /** The entries of log edata, the three copied values given back as the params hold them. */
  lemma LogEdataEntries(params: JMap)
    requires LogEdata(params).Ok?
    ensures LogEdata(params).value ==
      [Entry(TYPE, Get(params, LOG_TYPE)), Entry(LEVEL, Get(params, LOG_LEVEL)),
       Entry(MESSAGE, Get(params, MESSAGE)), Entry(PARAMS, List(ParamsList(params, LOG_IGNORED)))]
  {
    CastRoundTrip(Get(params, LOG_TYPE));
    CastRoundTrip(Get(params, LOG_LEVEL));
    CastRoundTrip(Get(params, MESSAGE));
  }

  /** Log edata: type, level and message copied from the params, and under `params`
      the other entries, none of them with an ignored key. */
  lemma LogEdataShape(params: JMap)
    requires LogEdata(params).Ok?
    ensures var edata := LogEdata(params).value;
      && Keys(edata) == [TYPE, LEVEL, MESSAGE, PARAMS]
      && Get(edata, TYPE) == Get(params, LOG_TYPE)
      && Get(edata, LEVEL) == Get(params, LOG_LEVEL)
      && Get(edata, MESSAGE) == Get(params, MESSAGE)
      && Get(edata, PARAMS) == List(ParamsList(params, LOG_IGNORED))
  {
    LogEdataEntries(params);
    var edata := LogEdata(params).value;
    assert forall i :: 0 <= i < |edata| ==> edata[i].key == LOG_KEYS[i];
    assert Keys(edata) == LOG_KEYS;
    EdataKeysDistinct();
    assert DistinctKeys(edata);
    GetAt(edata, 2);
    GetAt(edata, 3);
  }

  /** The `params` of log edata are entries of the params map, one per single-entry
      map, and never the log type, level or message. */
  lemma LogParamsNotIgnored(params: JMap)
    ensures forall x :: x in ParamsList(params, LOG_IGNORED) ==>
      x.Obj? && |x.entries| == 1 && x.entries[0].key !in LOG_IGNORED && x.entries[0] in params
  {
    ParamsListShape(params, LOG_IGNORED);
  }

  /** Error edata holds exactly `error`, `errtype` and `stacktrace`, copied from the
      params; it exists exactly when the three are Strings or null. */
  lemma ErrorEdataExact(params: JMap)
    ensures ErrorEdata(params).Ok? <==>
      CastString(Get(params, ERROR)).Ok? && CastString(Get(params, ERR_TYPE)).Ok? && CastString(Get(params, STACKTRACE)).Ok?
    ensures ErrorEdata(params).Ok? ==>
      var edata := ErrorEdata(params).value;
      && Keys(edata) == [ERROR, ERR_TYPE, STACKTRACE]
      && Get(edata, ERROR) == Get(params, ERROR)
      && Get(edata, ERR_TYPE) == Get(params, ERR_TYPE)
      && Get(edata, STACKTRACE) == Get(params, STACKTRACE)
  {
    CastRoundTrip(Get(params, ERROR));
    CastRoundTrip(Get(params, ERR_TYPE));
    CastRoundTrip(Get(params, STACKTRACE));
    if ErrorEdata(params).Ok? {
      var edata := ErrorEdata(params).value;
      assert DistinctKeys(edata);
      GetAt(edata, 2);
    }
  }

  /** Search, log and error events carry their own kind, no target, and their kind's
      edata. */
  lemma EventKinds(kind: EventKind, context: Option<JMap>, params: Option<JMap>)
    requires kind != AuditEvent
    requires EventOf(kind, context, params).Ok? && EventOf(kind, context, params).value.Some?
    ensures var e := EventOf(kind, context, params).value.value;
      && e.eid == kind && e.target.None?
      && e.edata == (match kind
                     case SearchEvent => SearchEdata(params.value).value
                     case LogEvent => LogEdata(params.value).value
                     case ErrorEvent => ErrorEdata(params.value).value)
  {
  }
}
