/** `searchMetricsData`, which both adapters implement as an HTTP POST of a raw query to
    the `_search` endpoint of one index. The URL is built from the `sunbird_es_ip`
    environment variable (a comma-separated host list), the `es_metrics_port` property
    and the `es_url` property; the HTTP call and the JSON parsing are an input reply. */
module Metrics {
  import opened JavaLang
  import opened JavaMaps
  import opened EsService

  const RESPONSE: string := "response"
  const CONTENT_TYPE_HEADER: (string, string) := ("Content-Type", "application/json")

  /** The environment variable and the two properties the URL is built from. */
  datatype Environment = Environment(esIp: Option<string>, metricsPort: Option<string>, esUrl: Option<string>)

  /** The POST `HttpUtil.sendPostRequest` is asked to make. */
  datatype HttpPost = HttpPost(url: string, body: Option<string>, headers: seq<(string, string)>)

  /** A metrics call: the POST made, if any, and the `Response` returned or the exception thrown. */
  datatype MetricsCall = MetricsCall(post: Option<HttpPost>, outcome: Result<JMap, Exception>)

  /** The base URL: the first host of the list on the metrics port when the list is not
      blank, otherwise the configured URL. A list made of commas only has no first host. */
  function BaseUrl(env: Environment): Result<string, Exception> {
    if !IsBlank(env.esIp) then
      var host := Split(env.esIp.value, ',');
      if |host| == 0 then Err(IndexOutOfBounds)
      else Ok("http://" + host[0] + ":" + Show(env.metricsPort))
    else Ok(Show(env.esUrl))
  }

  function RequestUrl(env: Environment, index: Option<string>): Result<string, Exception> {
    var base :- BaseUrl(env);
    Ok(base + "/" + Show(index) + "/" + DOC_TYPE + "/" + "_search")
  }

  /** The `Response` returned: the parsed reply under `response`. */
  function MetricsResponse(data: JMap): JMap {
    [Entry(RESPONSE, Obj(data))]
  }

  /** Both adapters, with their own mapping of a failed POST or parse to an exception. */
  function MetricsSearch(index: Option<string>, rawQuery: Option<string>, env: Environment,
                         reply: Reply<JMap>, classify: Cause -> Exception): MetricsCall {
    match RequestUrl(env, index)
    case Err(e) => MetricsCall(None, Err(e))
    case Ok(url) =>
      var post := HttpPost(url, rawQuery, [CONTENT_TYPE_HEADER]);
      match reply
      case Answered(data) => MetricsCall(Some(post), Ok(MetricsResponse(data)))
      case Raised(cause) => MetricsCall(Some(post), Err(classify(cause)))
  }

  /** With a host list, the base is `http://` + the text before the first comma + `:` +
      the port; a list holding nothing but commas throws. */
  lemma BaseUrlFromHosts(env: Environment)
    requires !IsBlank(env.esIp)
    ensures (exists j :: 0 <= j < |env.esIp.value| && env.esIp.value[j] != ',') ==>
      BaseUrl(env) == Ok("http://" + TakeUntil(env.esIp.value, ',') + ":" + Show(env.metricsPort))
    ensures (forall j :: 0 <= j < |env.esIp.value| ==> env.esIp.value[j] == ',') ==>
      BaseUrl(env) == Err(IndexOutOfBounds)
  {
    SplitFirst(env.esIp.value, ',');
  }

  /** Without a host list the base is the configured URL, null rendered as `null`. */
  lemma BaseUrlFromProperty(env: Environment)
    requires IsBlank(env.esIp)
    ensures BaseUrl(env) == Ok(Show(env.esUrl))
    ensures env.esUrl.Some? ==> BaseUrl(env) == Ok(env.esUrl.value)
  {
  }

  /** The URL is the base followed by `/<index>/_doc/_search`, and the first host never
      holds a comma. */
  lemma RequestUrlShape(env: Environment, index: Option<string>)
    requires BaseUrl(env).Ok?
    ensures RequestUrl(env, index) == Ok(BaseUrl(env).value + "/" + Show(index) + "/_doc/_search")
    ensures !IsBlank(env.esIp) ==>
      var host := TakeUntil(env.esIp.value, ',');
      BaseUrl(env).value == "http://" + host + ":" + Show(env.metricsPort)
      && forall i :: 0 <= i < |host| ==> host[i] != ','
  {
    var base := BaseUrl(env).value;
    assert base + "/" + Show(index) + "/" + DOC_TYPE + "/" + "_search"
        == base + "/" + Show(index) + "/_doc/_search";
    if !IsBlank(env.esIp) {
      BaseUrlFromHosts(env);
    }
  }

  /** A metrics call POSTs the raw query with a JSON content type to the request URL, and
      returns the parsed reply under `response`; a failed call throws what `classify`
      makes of it. */
  lemma MetricsSearchShape(index: Option<string>, rawQuery: Option<string>, env: Environment,
                           reply: Reply<JMap>, classify: Cause -> Exception)
    ensures var c := MetricsSearch(index, rawQuery, env, reply, classify);
      && (c.post.Some? <==> RequestUrl(env, index).Ok?)
      && (c.post.Some? ==> c.post.value == HttpPost(RequestUrl(env, index).value, rawQuery, [("Content-Type", "application/json")]))
      && (RequestUrl(env, index).Err? ==> c.outcome == Err(IndexOutOfBounds))
      && (c.post.Some? && reply.Answered? ==> c.outcome.Ok? && Get(c.outcome.value, RESPONSE) == Obj(reply.response))
      && (c.post.Some? && reply.Raised? ==> c.outcome == Err(classify(reply.cause)))
  {
  }
}
