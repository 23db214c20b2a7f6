# Gateway middleware pipeline: a verified model

This project models the request/response pipeline of an API gateway (Tyk's
`middleware.go`) in Dafny:

- **Decorator** (`createMiddleware`). `createMiddleware` wraps each middleware
  unit in a request decorator. On each request the decorator emits two
  "executed" events. It then does one of four things:
  - passes OPTIONS requests straight through when the spec's CORS
    `OptionsPassthrough` flag is set;
  - rejects the request through the error handler;
  - continues to the next handler;
  - stops silently when the unit returns the sentinel status 666, meaning it
    has already written the response.

  It emits two timing records whenever the unit was consulted.
- **Dynamic units** (`createDynamicMiddleware`) are built like any other unit.
- **Chain assembly** (`appendMiddleware`): a unit's decorator is appended to the
  chain only when the unit is enabled for the spec.
- **Composed handler**: the decorators nest around the terminal (upstream)
  handler, the first added outermost.
- **Response side**:
  - a closed registry maps three handler names to handlers (`responseProcessorByName`);
  - an executor runs the handlers in order and stops at the first failure
    (`handleResponseChain`).

Behaviour is observed as an abstract trace of actions (module `Instrument`):
- instrumentation events and timing records with their metadata;
- ProcessRequest calls with the configuration they receive;
- error-handler calls with message and status;
- calls of the terminal handler with the request they receive.

Each decorator's behaviour on one request is specified by `Decorators.Decide`.
The imperative `Decorators.Serve` follows the Go closure statement by
statement: it mutates the metadata map and appends events one at a time, and
is proved equal to that specification.

`ChainBuilder.RunChain` is the nesting of decorators. It takes the
per-decorator behaviour as a parameter (a `Decision`), because composing the
chain does not depend on what each decorator does. The chain theorems need
only the facts that `Decorators.Instrumented` lists about each decorator's
step. `Decorators.DecideInstrumented` proves those facts for `Decide`, so every
chain theorem holds for the chain `createMiddleware` builds;
`ChainBuilder.BuiltChainTrace` states the main ones for it directly. The chain
theorems are:
- unit i's decision gates unit i + 1;
- upstream runs iff every unit lets the request through, and then exactly once;
- timing records mirror processing in reverse (innermost first);
- a rejection reports exactly the rejecting unit's message and status.

Modules: `Wrappers` (Option, Result), `MiddlewareUnit` (units, requests, spec
flag), `Instrument` (trace and its projections), `Decorators`, `ChainBuilder`,
`ResponseChain`.

The per-unit timing record is named `eventName + ".exec_time"`, where `eventName`
is `Name() + ".executed"`. So the record is `"<name>.executed.exec_time"`,
not `"<name>.exec_time"` (middleware.go:59, 74, 86).

## Model

| member | source | states |
|---|---|---|
| `Decorators.CreateMiddleware` | middleware.go:38-46 | a decorator is produced iff Config() succeeds, and then it keeps exactly that unit and that configuration; a configuration failure is the fatal "[Middleware] Configuration load failed" |
| `Decorators.CreateDynamicMiddleware` | middleware.go:26-35 | the dynamic unit keeps the given class name, pre/post flag, session flag and base context, and is built like any unit: it keeps the runtime's name, enabled flag, configuration and ProcessRequest, and fails iff that configuration fails |
| `Decorators.Serve` | middleware.go:48-87 | the step-by-step handler closure produces exactly the trace the decorator specification gives, for every request and every next handler |
| `Decorators.ExecutedEventsFirst` | middleware.go:50-61 | on every path the first two actions are the generic "executed" and the per-unit "<name>.executed" events, both carrying the request's metadata |
| `Decorators.PassthroughSkipsUnit` | middleware.go:64-67 | with OptionsPassthrough on and method OPTIONS, the trace is the two executed events followed by the next handler run once on the same request: no ProcessRequest, no error handler, no timing |
| `Decorators.RejectionStopsHere` | middleware.go:68-75 | a ProcessRequest error calls the error handler once with the unit's message and status, adds "error" to the metadata of both timing records, and never calls the next handler (the trace does not depend on it) |
| `Decorators.ContinueCallsNextOnce` | middleware.go:78-86 | success with a status other than 666 adds "bypass" = "1" to the metadata and runs the next handler exactly once, on the request as the unit left it, before both timing records |
| `Decorators.RespondedStopsHere` | middleware.go:78-86 | success with status 666 never runs the next handler, but both timing records are still emitted |
| `Decorators.DecideEntered` | middleware.go:50-61 | a decorator's entry event is emitted once, before the next handler, and names its own unit |
| `Decorators.DecideTimed` | middleware.go:73-74 | a decorator emits the generic "exec_time" record exactly once, after the next handler, unless the unit was skipped |
| `Decorators.DecideErrors` | middleware.go:69-71 | a decorator calls the error handler exactly when its unit rejects, once, with that unit's message and status |
| `Decorators.TimingMetaNamesUnit` | middleware.go:72-81 | adding "error" or "bypass" to the metadata keeps the unit's name, so the timing records name the unit that was timed |
| `Decorators.DecideInstrumented` | middleware.go:48-87 | the handler createMiddleware builds enters its decorator once first, processes and times the unit once each (before and after the next handler) unless skipped, reports only its own rejection and never calls the terminal handler itself |
| `ChainBuilder.Chain.AppendMiddleware` | middleware.go:91-95 | the chain grows by exactly the unit's decorator at the end iff the unit is enabled (and its configuration loads), and is otherwise unchanged; a disabled unit's configuration is never consulted; one call has exactly the effect `AppendStep` gives, the step `Assemble` is built from |
| `ChainBuilder.AssembleSnoc` | middleware.go:91-95 | assembling one more unit extends the assembled chain exactly as one AppendMiddleware call does |
| `ChainBuilder.AssembleFailsIff` | middleware.go:91-95 | assembly fails iff some enabled unit's configuration fails; disabled units with a broken configuration do no harm |
| `ChainBuilder.AssembleKeepsEnabled` | middleware.go:91-95 | the assembled chain's units are exactly the enabled units in their original order, each decorator holding its own unit's configuration |
| `ChainBuilder.RunChainNests` | middleware.go:48-87 | the composed handler is the first decorator with the rest of the chain as its next handler |
| `ChainBuilder.EnteredPrefix` | middleware.go:59-83 | the decorators entered are exactly the first Reach of them, in chain order: none after the one that stopped the request |
| `ChainBuilder.UpstreamIff` | middleware.go:64-83 | the terminal handler runs iff every decorator lets the request through, then exactly once, with the request as the units left it |
| `ChainBuilder.TimedMirrorsProcessed` | middleware.go:68-86 | the units timed are the units processed, in reverse order (because each decorator records its timing only after its inner chain has returned) |
| `ChainBuilder.StopGates` | middleware.go:68-83 | if the request reaches unit i and that unit rejects it or answers it (666), the request reaches no decorator after i and never reaches upstream |
| `ChainBuilder.ProcessedWithinReach` | middleware.go:64-83 | ProcessRequest runs at most once per decorator entered, and only under names of the first Reach units (by name only; `StopIgnoresRest` states it by position) |
| `ChainBuilder.StopIgnoresRest` | middleware.go:64-83 | once a unit has stopped the request, the trace equals that of the chain cut just after that unit, whatever the later decorators are: no decorator after it is entered, processed or timed |
| `ChainBuilder.StopReportsOwnError` | middleware.go:68-75 | when unit i stops the chain, the error handler receives only unit i's message and status (nothing when it answered with 666) |
| `ChainBuilder.AllAcceptReachesUpstream` | middleware.go:78-83 | when every unit accepts, every ProcessRequest runs exactly once in chain order, no error is reported, and upstream runs once |
| `ChainBuilder.BuiltChainTrace` | middleware.go:48-87 | for the decorators createMiddleware builds: exactly a prefix of them is entered, upstream runs iff the request gets through all of them, and the timing records mirror the ProcessRequest calls in reverse |
| `ResponseChain.ResponseProcessorByName` | middleware.go:102-112 | a handler is returned for exactly "header_injector", "response_body_transform" and "header_transform", each the one registered under that name; every other name gives none |
| `ResponseChain.RegistryRoundTrip` | middleware.go:102-112 | each of the three handlers is found under its own name |
| `ResponseChain.FirstFailure` | middleware.go:114-121 | the first failing position: every handler before it succeeds on the response its predecessors left, and the handler at it fails |
| `ResponseChain.FirstFailureBounds` | middleware.go:114-121 | a prefix of handlers all succeed iff it ends at or before the first failure; in particular nil is returned iff no handler fails |
| `ResponseChain.HandleResponseChain` | middleware.go:114-121 | handlers run in list order; the result is nil iff none fails; otherwise the first failing handler's error, with exactly the handlers up to it invoked, none after it, and the response left as that handler left it on top of earlier changes |

## Left out

- The process-wide request-rate counter (`GlobalRate`, a time-driven sliding window shared across goroutines) is not part of this model.
- Timing values (`time.Now`, elapsed nanoseconds) are wall-clock numerics; only the presence, name and metadata of each timing record are modelled.
- The metadata keys `from_ip` (computed by `requestIP`, not part of this model) and `size` (integer formatting of the content length) are left out; `method`, `endpoint`, `raw_url` and `mw_name` are kept.
- Events hold the metadata as it was when they were emitted; the Go map is passed by reference, and whether the instrumentation sink reads it later is not modelled.
- `Decorators.CreateMiddleware`: `Init()` is not modelled as a call with effects; a unit's `config` stands for what `Config()` returns once `Init()` has run, so "Init before Config, each once" is not stated.
- `log.Fatal` ending the process is modelled as a construction failure that yields no decorator.
- The error handler's internals, and whatever units and handlers write to the `http.ResponseWriter` (including the answer a unit writes before returning 666), are external; the model records only that the error handler was called, with which message and status.
- The concrete response handlers, their `Init`, the scripting runtime behind dynamic units, and each unit's own ProcessRequest logic are opaque functions.
- `ResponseChain.HandleResponseChain`: handlers are modelled as functions that return the updated response. Changes they make to the request or session, and aliasing of the shared response object, are not modelled. The count of invoked handlers is a ghost result, counted at each handler call.
- The `alice` constructor chaining library is replaced by the explicit nesting `RunChain`.
- Concurrency between requests is not modelled: each trace is one request served alone.
