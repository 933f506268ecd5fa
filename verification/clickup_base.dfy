/** The shared upstream client every ClickUp resource service extends
    (src/clickup/common/services/clickup-base.service.ts): configuration,
    request construction for the four verbs, and the normalisation of every
    failure into one `HttpException`. The HTTP transport is a parameter. */
module ClickUpBase {
  import opened Wrappers
  import opened JsValue

  const DefaultBaseUrl: string := "https://api.clickup.com/api/v2"
  const TokenRequired: string := "CLICKUP_API_TOKEN is required"
  const FallbackMessage: string := "Unexpected error occurred while calling ClickUp"
  const InternalServerError: int := 500
  const JsonContentType: string := "application/json"

  /** The client configuration: the upstream credential and base URL. */
  datatype Config = Config(apiToken: string, baseUrl: string)

  /** The HTTP verbs the client issues. */
  datatype Verb = GET | POST | PUT | DELETE

  /** One upstream call a service asks for: verb, endpoint relative to the base
      URL, and the body for POST and PUT. */
  datatype UpstreamCall = UpstreamCall(verb: Verb, endpoint: string, body: Option<Value>)

  /** The request handed to the transport. */
  datatype HttpRequest = HttpRequest(verb: Verb, url: string, headers: map<string, string>, body: Option<Value>)

  /** A response the transport delivered. */
  datatype HttpResponse = HttpResponse(status: int, data: Value)

  /** `NestJS HttpException`: the response body it carries and its status. */
  datatype HttpException = HttpException(response: Value, status: int)

  /** The `response` of an axios error, when the upstream answered. */
  datatype AxiosResponse = AxiosResponse(status: Option<int>, data: Value)

  /** The fields of an axios error the client reads. */
  datatype AxiosFacet = AxiosFacet(response: Option<AxiosResponse>, message: string)

  /** A thrown value, described by the three runtime tests the client applies
      to it: `isAxiosError` (with the axios fields), `instanceof HttpException`
      (with the exception), and `instanceof Error` (with its message). One
      value can pass several tests; the order of the tests decides. */
  datatype Thrown = Thrown(axios: Option<AxiosFacet>, httpException: Option<HttpException>, error: Option<string>)

  /** The constructor's configuration from the two environment values: a
      missing or empty token fails with `CLICKUP_API_TOKEN is required`; a
      missing or empty base URL falls back to the public ClickUp API. */
  function MakeConfig(token: Option<string>, baseUrl: Option<string>): (r: Result<Config, string>)
    ensures r.Err? <==> token.None? || token.value == ""
    ensures r.Err? ==> r.error == TokenRequired
    ensures r.Ok? ==> r.value.apiToken == token.value
    ensures r.Ok? ==> r.value.baseUrl != ""
    ensures r.Ok? && baseUrl.Some? && baseUrl.value != "" ==> r.value.baseUrl == baseUrl.value
    ensures r.Ok? && (baseUrl.None? || baseUrl.value == "") ==> r.value.baseUrl == DefaultBaseUrl
  {
    var apiToken := OrElse(token, "");
    var base := OrElse(baseUrl, DefaultBaseUrl);
    if apiToken == "" then Err(TokenRequired) else Ok(Config(apiToken, base))
  }

  /** `value || fallback` for an optional string. */
  function OrElse(value: Option<string>, fallback: string): string {
    if value.Some? && value.value != "" then value.value else fallback
  }

  /** The request headers: `Authorization` with the token and the JSON
      content type, then the caller's headers spread over them. */
  function Headers(cfg: Config, caller: map<string, string>): (h: map<string, string>)
    ensures h.Keys == caller.Keys + {"Authorization", "Content-Type"}
    ensures forall k :: k in caller ==> h[k] == caller[k]
    ensures "Authorization" !in caller ==> h["Authorization"] == cfg.apiToken
    ensures "Content-Type" !in caller ==> h["Content-Type"] == JsonContentType
  {
    map["Authorization" := cfg.apiToken, "Content-Type" := JsonContentType] + caller
  }

  /** The request the client sends for a call: the endpoint appended to the
      base URL, the call's verb and body unchanged. */
  function BuildRequest(cfg: Config, call: UpstreamCall, caller: map<string, string>): (r: HttpRequest)
    ensures |r.url| == |cfg.baseUrl| + |call.endpoint|
    ensures r.url[..|cfg.baseUrl|] == cfg.baseUrl && r.url[|cfg.baseUrl|..] == call.endpoint
    ensures r.verb == call.verb && r.body == call.body
    ensures r.headers == Headers(cfg, caller)
  {
    HttpRequest(call.verb, cfg.baseUrl + call.endpoint, Headers(cfg, caller), call.body)
  }

  /** The body fields `extractErrorMessage` tries, in order. */
  const Candidates: seq<string> := ["message", "error", "err", "description"]

  /** A body field that yields a message: a string that is not all
      whitespace, which is when its trim is non-empty (`TrimEmptyIffBlank`). */
  predicate Usable(v: Value) {
    v.Str? && NonBlank(v.s)
  }

  /** `Usable` is the source's test `typeof v === 'string' && v.trim()`. */
  lemma UsableIffTrimmed(v: Value)
    ensures Usable(v) <==> v.Str? && |Trim(v.s)| > 0
  {
    if v.Str? {
      TrimEmptyIffBlank(v.s);
    }
  }

  /** The position of the first usable value, or `|vals|` when there is none. */
  function FirstUsable(vals: seq<Value>): (i: nat)
    ensures i <= |vals|
    ensures forall j :: 0 <= j < i ==> !Usable(vals[j])
    ensures i < |vals| ==> Usable(vals[i])
  {
    if |vals| == 0 then 0
    else if Usable(vals[0]) then 0
    else 1 + FirstUsable(vals[1..])
  }

  /** The candidate fields of an error body, in order. */
  function CandidateValues(data: Value): (r: seq<Value>)
    ensures |r| == |Candidates|
    ensures forall i :: 0 <= i < |Candidates| ==> r[i] == Prop(data, Candidates[i])
  {
    [Prop(data, "message"), Prop(data, "error"), Prop(data, "err"), Prop(data, "description")]
  }

  /** `extractErrorMessage`: nothing for a falsy body, a string body as it is
      (even blank), for an object the first usable of the candidate fields,
      and nothing otherwise. */
  function ExtractErrorMessage(data: Value): (r: Option<string>)
    ensures !Truthy(data) ==> r.None?
    ensures data.Str? && data.s != "" ==> r == Some(data.s)
    ensures (data.Bool? || data.Num? || data.Arr?) ==> r.None?
    ensures data.Obj? ==>
      (r.None? <==> forall i :: 0 <= i < |Candidates| ==> !Usable(Prop(data, Candidates[i])))
    ensures data.Obj? && r.Some? ==>
      (exists i :: 0 <= i < |Candidates| && Prop(data, Candidates[i]) == Str(r.value)
         && Usable(Prop(data, Candidates[i]))
         && forall j :: 0 <= j < i ==> !Usable(Prop(data, Candidates[j])))
  {
    if !Truthy(data) then None
    else if data.Str? then Some(data.s)
    else if data.Obj? then
      var vals := CandidateValues(data);
      var i := FirstUsable(vals);
      if i < |vals| then Some(vals[i].s) else None
    else None
  }

  /** `normalizeError`: an axios error becomes the upstream status (500 when
      there was no response status) with the body's message (the transport
      message when the body has none); an existing `HttpException` passes
      through unchanged; another `Error` becomes 500 with its message; any
      other value becomes 500 with a fixed message. */
  function NormalizeError(e: Thrown): (r: HttpException)
    ensures r.response.Str? || (e.axios.None? && e.httpException.Some? && r == e.httpException.value)
    ensures e.axios.Some? ==>
      r.status == (if e.axios.value.response.Some? && e.axios.value.response.value.status.Some?
                   then e.axios.value.response.value.status.value else InternalServerError)
    ensures e.axios.Some? ==>
      r.response == Str(if e.axios.value.response.Some? && ExtractErrorMessage(e.axios.value.response.value.data).Some?
                        then ExtractErrorMessage(e.axios.value.response.value.data).value
                        else e.axios.value.message)
    ensures e.axios.None? && e.httpException.Some? ==> r == e.httpException.value
    ensures e.axios.None? && e.httpException.None? ==> r.status == InternalServerError
    ensures e.axios.None? && e.httpException.None? && e.error.Some? ==> r.response == Str(e.error.value)
    ensures e.axios.None? && e.httpException.None? && e.error.None? ==> r.response == Str(FallbackMessage)
  {
    if e.axios.Some? then
      var ax := e.axios.value;
      var status := if ax.response.Some? then ax.response.value.status.GetOr(InternalServerError) else InternalServerError;
      var data := if ax.response.Some? then ax.response.value.data else Undefined;
      var message := ExtractErrorMessage(data).GetOr(ax.message);
      HttpException(Str(message), status)
    else if e.httpException.Some? then e.httpException.value
    else if e.error.Some? then HttpException(Str(e.error.value), InternalServerError)
    else HttpException(Str(FallbackMessage), InternalServerError)
  }

  /** An `HttpException` when it is thrown again: it is an `Error`, not an
      axios error. */
  function Rethrown(x: HttpException): Thrown {
    Thrown(None, Some(x), Some(if x.response.Str? then x.response.s else "Http Exception"))
  }

  /** Normalising is idempotent: a normalised error thrown again comes out
      unchanged, so nested calls never wrap twice. */
  lemma NormalizeIdempotent(e: Thrown)
    ensures NormalizeError(Rethrown(NormalizeError(e))) == NormalizeError(e)
  {
  }

  /** Every normalised error carries either the upstream's own status, the
      status of an exception that passed through, or 500. */
  lemma NormalizedStatus(e: Thrown)
    ensures var s := NormalizeError(e).status;
      || s == InternalServerError
      || (e.axios.Some? && e.axios.value.response.Some? && e.axios.value.response.value.status == Some(s))
      || (e.axios.None? && e.httpException.Some? && e.httpException.value.status == s)
  {
  }

  /** The upper-level view of one call: the upstream's `response.data` on
      success, the normalised error on failure. */
  function Execute(cfg: Config, call: UpstreamCall, transport: HttpRequest -> Result<HttpResponse, Thrown>): (r: Result<Value, HttpException>)
    ensures var sent := transport(BuildRequest(cfg, call, map[]));
      && (r.Ok? <==> sent.Ok?)
      && (r.Ok? ==> r.value == sent.value.data)
      && (r.Err? ==> r.error == NormalizeError(sent.error))
  {
    match transport(BuildRequest(cfg, call, map[]))
    case Ok(response) => Ok(response.data)
    case Err(e) => Err(NormalizeError(e))
  }
}
