/** The data a middleware unit is made of: the request fields the chain reads,
    the owning API specification's CORS flag, and the unit's capabilities
    (name, enablement, configuration and request processing). */
module MiddlewareUnit {
  import opened Wrappers

  /** Status a unit returns, with no error, when it has already written the
      whole response itself; no later unit and no upstream call may run. */
  const StatusRespond: int := 666

  /** Key/value metadata attached to instrumentation events. */
  type Meta = map<string, string>

  /** An inbound request (`verb` is the HTTP method): the fields the decorator reads for its decisions and
      metadata, and a request context that units may extend for later units. */
  datatype Request = Request(verb: string, path: string, url: string, context: map<string, string>)

  /** A unit's configuration object, produced once when the decorator is built. */
  datatype Config = Config(settings: map<string, string>)

  datatype CorsConfig = CorsConfig(optionsPassthrough: bool)
  datatype ApiSpec = ApiSpec(cors: CorsConfig)

  /** The shared base context of every unit: the owning API specification. */
  datatype BaseMiddleware = BaseMiddleware(spec: ApiSpec)

  /** What ProcessRequest returns: no error and a status code, or an error
      message and the status code to reject with. */
  datatype UnitResult = Ok(code: int) | Err(msg: string, code: int)

  /** A ProcessRequest call's result, together with the request as the unit
      left it (units may attach context that later units read). */
  datatype Reply = Reply(result: UnitResult, req: Request)

  /** A statically wired unit, or a dynamic one resolved by class name. */
  datatype Kind = Static | Dynamic(className: string, pre: bool, useSession: bool)

  /** A middleware unit. `config` is what Config() yields once Init() has run;
      `process` is ProcessRequest; `enabled` is IsEnabledForSpec(). */
  datatype Unit = Unit(
    kind: Kind,
    base: BaseMiddleware,
    name: string,
    enabled: bool,
    config: Result<Config>,
    process: (Request, Config) -> Reply)

  /** The CORS short-circuit: the spec lets OPTIONS requests through and this is one. */
  predicate SkipsUnit(u: Unit, req: Request)
  {
    u.base.spec.cors.optionsPassthrough && req.verb == "OPTIONS"
  }
}
