/** What a controller route does with a request: the upstream calls it makes
    and the response or exception it ends with. Shared by the ClickUp
    controllers of tasks, lists, spaces and workspace users. */
module Routes {
  import opened Wrappers
  import opened JsValue
  import opened ClickUpBase

  const DisabledMessage: string := "This feature is currently disabled"
  const ServiceUnavailable: int := 503

  /** The upstream calls a route made, in order, and how it ended. */
  datatype Outcome = Outcome(calls: seq<UpstreamCall>, result: Result<Value, HttpException>)

  /** How the upstream answers one call: the data, or the normalised error
      (in the running system, `ClickUpBase.Execute` with a configuration and
      a transport). */
  type Exec = UpstreamCall -> Result<Value, HttpException>

  /** The exception every disabled write route throws. */
  const DisabledError: HttpException := HttpException(Str(DisabledMessage), ServiceUnavailable)

  /** A disabled route: it throws before touching the service. */
  function Disabled(): (o: Outcome)
    ensures o.calls == [] && o.result == Err(DisabledError)
  {
    Outcome([], Err(DisabledError))
  }

  /** A route that returns the service's observable as it is. */
  function Delegate(call: UpstreamCall, exec: Exec): (o: Outcome)
    ensures o.calls == [call] && o.result == exec(call)
  {
    Outcome([call], exec(call))
  }

  /** The composed system: the controllers' calls answered by the base
      client over a transport. */
  function Client(cfg: Config, transport: HttpRequest -> Result<HttpResponse, Thrown>): (exec: Exec)
    ensures forall call :: exec(call) == Execute(cfg, call, transport)
  {
    call => Execute(cfg, call, transport)
  }
}
