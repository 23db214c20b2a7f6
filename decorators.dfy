/** The decorator built around each middleware unit (createMiddleware), the
    dynamic-unit constructor (createDynamicMiddleware), and what one decorator
    does with one request. */
module Decorators {
  import opened Wrappers
  import opened MiddlewareUnit
  import opened Instrument

  /** The request handler transformer createMiddleware returns: the unit and the
      configuration captured once, at construction. */
  datatype Decorator = Decorator(unit: Unit, conf: Config)

  /** The message of the fatal construction failure. */
  const ConfigLoadFailed: string := "[Middleware] Configuration load failed"

  /** Builds a decorator: Config() is consulted once; its failure is fatal, so
      no decorator is produced, and on success the decorator keeps that value. */
  function CreateMiddleware(mw: Unit): (r: Result<Decorator>)
    ensures r.Success? <==> mw.config.Success?
    ensures r.Success? ==> r.value.unit == mw && r.value.conf == mw.config.value
    ensures r.Failure? ==> r.error == ConfigLoadFailed
  {
    match mw.config
    case Success(c) => Success(Decorator(mw, c))
    case Failure(_) => Failure(ConfigLoadFailed)
  }

  /** What the scripting runtime behind a dynamic unit answers for Name(),
      IsEnabledForSpec(), Config() and ProcessRequest(); that runtime is not
      part of this model. */
  datatype DynamicRuntime = DynamicRuntime(
    unitName: string,
    enabled: bool,
    config: Result<Config>,
    process: (Request, Config) -> Reply)

  /** Wraps a dynamic unit named by class name, position flag and session flag. */
  function CreateDynamicMiddleware(className: string, isPre: bool, useSession: bool,
                                   baseMid: BaseMiddleware, runtime: DynamicRuntime): (r: Result<Decorator>)
    ensures r.Success? <==> runtime.config.Success?
    ensures r.Success? ==>
      && r.value.unit.kind == Dynamic(className, isPre, useSession)
      && r.value.unit.base == baseMid
      && r.value.unit.name == runtime.unitName
      && r.value.unit.enabled == runtime.enabled
      && r.value.unit.process == runtime.process
      && r.value.conf == runtime.config.value
  {
    CreateMiddleware(Unit(Dynamic(className, isPre, useSession), baseMid,
                          runtime.unitName, runtime.enabled, runtime.config, runtime.process))
  }

  /** The four ways one decorator can dispose of a request. */
  datatype Outcome =
    | Skipped                          // OPTIONS passthrough: the unit is not consulted
    | Rejected(msg: string, code: int) // the unit returned an error
    | Continued                        // no error: on to the next handler
    | Responded                        // no error and the sentinel status: the unit answered

  predicate CallsNext(o: Outcome)
  {
    o.Skipped? || o.Continued?
  }

  /** One decorator's decision for one request: the actions it takes before the
      next handler would run, the request handed on, and the actions after. */
  datatype Step = Step(outcome: Outcome, before: seq<Action>, nextReq: Request, after: seq<Action>)

  /** The metadata record built for each request and unit. */
  function RequestMeta(req: Request, name: string): Meta
  {
    map["method" := req.verb, "endpoint" := req.path, "raw_url" := req.url, "mw_name" := name]
  }

  function EventName(name: string): string
  {
    name + "." + "executed"
  }

  function ExecutedEvents(name: string, meta: Meta): seq<Action>
  {
    [Event(Executed, meta), Event(EventName(name), meta)]
  }

  function TimingRecords(name: string, meta: Meta): seq<Action>
  {
    [Timing(ExecTime, meta), Timing(EventName(name) + ".exec_time", meta)]
  }

  /** How the decorator disposes of the request, from its unit's answer. */
  function OutcomeOf(d: Decorator, req: Request): Outcome
  {
    if SkipsUnit(d.unit, req) then Skipped
    else
      match d.unit.process(req, d.conf).result
      case Err(msg, code) => Rejected(msg, code)
      case Ok(code) => if code != StatusRespond then Continued else Responded
  }

  /** What the decorator does between its two entry events and handing on:
      nothing when the unit is skipped, else the ProcessRequest call followed,
      on an error, by the error-handler call. */
  function OwnActions(d: Decorator, req: Request): seq<Action>
  {
    if SkipsUnit(d.unit, req) then []
    else
      var reply := d.unit.process(req, d.conf);
      [Process(d.unit.name, req, d.conf)]
      + (if reply.result.Err? then [HandleError(reply.req, reply.result.msg, reply.result.code)] else [])
  }

  /** The request handed to the next handler. */
  function NextRequest(d: Decorator, req: Request): Request
  {
    if SkipsUnit(d.unit, req) then req else d.unit.process(req, d.conf).req
  }

  /** The metadata record as it stands when the timing records are emitted:
      with "error" after a rejection, with "bypass" = "1" before continuing. */
  function TimingMeta(d: Decorator, req: Request): Meta
  {
    var meta := RequestMeta(req, d.unit.name);
    var result := d.unit.process(req, d.conf).result;
    if result.Err? then meta["error" := result.msg]
    else if result.code != StatusRespond then meta["bypass" := "1"] else meta
  }

  /** One decorator's decision for one request (the handler closure of
      createMiddleware, with the next handler left open). */
  function Decide(d: Decorator, req: Request): Step
  {
    var name := d.unit.name;
    Step(OutcomeOf(d, req),
         ExecutedEvents(name, RequestMeta(req, name)) + OwnActions(d, req),
         NextRequest(d, req),
         if SkipsUnit(d.unit, req) then [] else TimingRecords(name, TimingMeta(d, req)))
  }

  /** The trace of a decorator serving `req` when the next handler, given a
      request, produces the trace `next` yields for it. */
  function Run(d: Decorator, req: Request, next: Request -> seq<Action>): seq<Action>
  {
    var s := Decide(d, req);
    s.before + (if CallsNext(s.outcome) then next(s.nextReq) else []) + s.after
  }

  /** The handler closure of createMiddleware, step by step: it builds the
      metadata record, emits events, and updates the record before timing. */
  method Serve(d: Decorator, req: Request, next: Request -> seq<Action>) returns (log: seq<Action>)
    ensures log == Run(d, req, next)
  {
    var mw := d.unit;
    var meta := RequestMeta(req, mw.name);
    var eventName := mw.name + "." + "executed";
    log := [Event(Executed, meta)];
    log := log + [Event(eventName, meta)];
    if mw.base.spec.cors.optionsPassthrough && req.verb == "OPTIONS" {
      log := log + next(req);
      return;
    }
    var reply := mw.process(req, d.conf);
    log := log + [Process(mw.name, req, d.conf)];
    if reply.result.Err? {
      log := log + [HandleError(reply.req, reply.result.msg, reply.result.code)];
      meta := meta["error" := reply.result.msg];
      log := log + [Timing(ExecTime, meta)];
      log := log + [Timing(eventName + ".exec_time", meta)];
      return;
    }
    if reply.result.code != StatusRespond {
      meta := meta["bypass" := "1"];
      log := log + next(reply.req);
    }
    log := log + [Timing(ExecTime, meta)];
    log := log + [Timing(eventName + ".exec_time", meta)];
  }

  /** Whatever happens, the two "executed" events come first. */
  lemma ExecutedEventsFirst(d: Decorator, req: Request, next: Request -> seq<Action>)
    ensures |Run(d, req, next)| >= 2
    ensures Run(d, req, next)[..2] == ExecutedEvents(d.unit.name, RequestMeta(req, d.unit.name))
  {
  }

  /** OPTIONS passthrough: the next handler runs once, on the same request, and
      the unit's ProcessRequest, the error handler and timing never happen. */
  lemma PassthroughSkipsUnit(d: Decorator, req: Request, next: Request -> seq<Action>)
    requires SkipsUnit(d.unit, req)
    ensures Decide(d, req).outcome == Skipped
    ensures Run(d, req, next) == ExecutedEvents(d.unit.name, RequestMeta(req, d.unit.name)) + next(req)
  {
  }

  /** An error from ProcessRequest goes to the error handler with the unit's
      message and status, the metadata gains "error", and the next handler is
      not called: the trace is the same whatever the next handler would do. */
  lemma RejectionStopsHere(d: Decorator, req: Request, next: Request -> seq<Action>)
    requires !SkipsUnit(d.unit, req)
    requires d.unit.process(req, d.conf).result.Err?
    ensures var reply := d.unit.process(req, d.conf);
      var meta := RequestMeta(req, d.unit.name);
      && Decide(d, req).outcome == Rejected(reply.result.msg, reply.result.code)
      && Run(d, req, next)
         == ExecutedEvents(d.unit.name, meta)
            + [Process(d.unit.name, req, d.conf), HandleError(reply.req, reply.result.msg, reply.result.code)]
            + TimingRecords(d.unit.name, meta["error" := reply.result.msg])
  {
  }

  /** Success with an ordinary status: the metadata gains "bypass" = "1" and the
      next handler runs exactly once, on the request as the unit left it. */
  lemma ContinueCallsNextOnce(d: Decorator, req: Request, next: Request -> seq<Action>)
    requires !SkipsUnit(d.unit, req)
    requires d.unit.process(req, d.conf).result.Ok?
    requires d.unit.process(req, d.conf).result.code != StatusRespond
    ensures var reply := d.unit.process(req, d.conf);
      var meta := RequestMeta(req, d.unit.name);
      && Decide(d, req).outcome == Continued
      && Run(d, req, next)
         == ExecutedEvents(d.unit.name, meta) + [Process(d.unit.name, req, d.conf)]
            + next(reply.req) + TimingRecords(d.unit.name, meta["bypass" := "1"])
  {
  }

  /** Success with the sentinel status: the next handler never runs; timing is
      still recorded. */
  lemma RespondedStopsHere(d: Decorator, req: Request, next: Request -> seq<Action>)
    requires !SkipsUnit(d.unit, req)
    requires d.unit.process(req, d.conf).result == Ok(StatusRespond)
    ensures var meta := RequestMeta(req, d.unit.name);
      && Decide(d, req).outcome == Responded
      && Run(d, req, next)
         == ExecutedEvents(d.unit.name, meta) + [Process(d.unit.name, req, d.conf)]
            + TimingRecords(d.unit.name, meta)
  {
  }

  /** The errors one decorator reports, by outcome. */
  function OutcomeErrors(o: Outcome): seq<(string, int)>
  {
    if o.Rejected? then [(o.msg, o.code)] else []
  }

  /** How a decorator handles a request, with its next handler left open:
      Decide is the handler createMiddleware builds; the chain composes any. */
  type Decision = (Decorator, Request) -> Step

  /** The decorator's own unit, unless its step skipped the unit. */
  function OwnName(d: Decorator, s: Step): (r: seq<string>)
    ensures s.outcome.Skipped? <==> r == []
  {
    if s.outcome.Skipped? then [] else [d.unit.name]
  }

  /** What each step contributes to the trace's projections: the decorator is
      entered once before anything else, its unit processes once before the
      next handler and is timed once after it (unless skipped), only its own
      rejection is reported, and it never calls the terminal handler itself. */
  predicate StepInstrumented(d: Decorator, s: Step)
  {
    && Entered(s.before) == [d.unit.name] && Entered(s.after) == []
    && Processed(s.before) == OwnName(d, s) && Processed(s.after) == []
    && Timed(s.before) == [] && Timed(s.after) == OwnName(d, s)
    && Errors(s.before) == OutcomeErrors(s.outcome) && Errors(s.after) == []
    && Upstreams(s.before) == [] && Upstreams(s.after) == []
  }

  /** Every step the decision produces is instrumented. */
  ghost predicate Instrumented(dec: Decision)
  {
    forall d, req {:trigger StepInstrumented(d, dec(d, req))} :: StepInstrumented(d, dec(d, req))
  }

  /** The handler createMiddleware builds is instrumented as the chain needs. */
  lemma DecideInstrumented()
    ensures Instrumented(Decide)
  {
    forall d, req ensures StepInstrumented(d, Decide(d, req)) {
      assert Decide(d, req).outcome.Skipped? <==> SkipsUnit(d.unit, req);
      DecideEntered(d, req);
      DecideProcessed(d, req);
      DecideTimed(d, req);
      DecideErrors(d, req);
      DecideUpstreams(d, req);
    }
  }

  /** A decorator is entered once, before anything else it does. */
  lemma DecideEntered(d: Decorator, req: Request)
    ensures var s := Decide(d, req);
      Entered(s.before) == [d.unit.name] && Entered(s.after) == []
  {
    var name, meta := d.unit.name, RequestMeta(req, d.unit.name);
    EnteredAppend(ExecutedEvents(name, meta), OwnActions(d, req));
    assert Entered(ExecutedEvents(name, meta)) == [d.unit.name] by {
      ExecutedProjections(name, meta);
    }
    if SkipsUnit(d.unit, req) {
      assert OwnActions(d, req) == [];
    } else {
      assert Entered(OwnActions(d, req)) == [] by {
        OwnProjections(d, req);
      }
      assert Entered(TimingRecords(name, TimingMeta(d, req))) == [] by {
        TimingProjections(name, TimingMeta(d, req));
      }
    }
  }

  /** Unless it skips its unit, a decorator calls ProcessRequest once, before
      the next handler. */
  lemma DecideProcessed(d: Decorator, req: Request)
    ensures var s := Decide(d, req);
      var own := if SkipsUnit(d.unit, req) then [] else [d.unit.name];
      Processed(s.before) == own && Processed(s.after) == []
  {
    var name, meta := d.unit.name, RequestMeta(req, d.unit.name);
    ProcessedAppend(ExecutedEvents(name, meta), OwnActions(d, req));
    assert Processed(ExecutedEvents(name, meta)) == [] by {
      ExecutedProjections(name, meta);
    }
    if SkipsUnit(d.unit, req) {
      assert OwnActions(d, req) == [];
    } else {
      assert Processed(OwnActions(d, req)) == [d.unit.name] by {
        OwnProjections(d, req);
      }
      assert Processed(TimingRecords(name, TimingMeta(d, req))) == [] by {
        TimingProjections(name, TimingMeta(d, req));
      }
    }
  }

  /** Unless it skips its unit, a decorator emits the generic timing record
      once, after the next handler, under its unit's name. */
  lemma DecideTimed(d: Decorator, req: Request)
    ensures var s := Decide(d, req);
      var own := if SkipsUnit(d.unit, req) then [] else [d.unit.name];
      Timed(s.before) == [] && Timed(s.after) == own
  {
    var name, meta := d.unit.name, RequestMeta(req, d.unit.name);
    TimedAppend(ExecutedEvents(name, meta), OwnActions(d, req));
    assert Timed(ExecutedEvents(name, meta)) == [] by {
      ExecutedProjections(name, meta);
    }
    if SkipsUnit(d.unit, req) {
      assert OwnActions(d, req) == [];
    } else {
      assert Timed(OwnActions(d, req)) == [] by {
        OwnProjections(d, req);
      }
      assert Timed(TimingRecords(name, TimingMeta(d, req))) == [d.unit.name] by {
        TimingProjections(name, TimingMeta(d, req));
        TimingMetaNamesUnit(d, req);
      }
    }
  }

  /** A decorator calls the error handler exactly for its own rejection, once,
      before the next handler would run. */
  lemma DecideErrors(d: Decorator, req: Request)
    ensures var s := Decide(d, req);
      Errors(s.before) == OutcomeErrors(s.outcome) && Errors(s.after) == []
  {
    var name, meta := d.unit.name, RequestMeta(req, d.unit.name);
    ErrorsAppend(ExecutedEvents(name, meta), OwnActions(d, req));
    assert Errors(ExecutedEvents(name, meta)) == [] by {
      ExecutedProjections(name, meta);
    }
    if SkipsUnit(d.unit, req) {
      assert OwnActions(d, req) == [];
    } else {
      assert Errors(OwnActions(d, req)) == OutcomeErrors(OutcomeOf(d, req)) by {
        OwnProjections(d, req);
      }
      assert Errors(TimingRecords(name, TimingMeta(d, req))) == [] by {
        TimingProjections(name, TimingMeta(d, req));
      }
    }
  }

  /** A decorator never calls the terminal handler itself. */
  lemma DecideUpstreams(d: Decorator, req: Request)
    ensures var s := Decide(d, req);
      Upstreams(s.before) == [] && Upstreams(s.after) == []
  {
    var name, meta := d.unit.name, RequestMeta(req, d.unit.name);
    UpstreamsAppend(ExecutedEvents(name, meta), OwnActions(d, req));
    assert Upstreams(ExecutedEvents(name, meta)) == [] by {
      ExecutedProjections(name, meta);
    }
    if SkipsUnit(d.unit, req) {
      assert OwnActions(d, req) == [];
    } else {
      assert Upstreams(OwnActions(d, req)) == [] by {
        OwnProjections(d, req);
      }
      assert Upstreams(TimingRecords(name, TimingMeta(d, req))) == [] by {
        TimingProjections(name, TimingMeta(d, req));
      }
    }
  }

  /** The timing records still name the unit, whatever the outcome added to
      their metadata. */
  lemma TimingMetaNamesUnit(d: Decorator, req: Request)
    ensures MetaName(TimingMeta(d, req)) == d.unit.name
  {
    var meta := RequestMeta(req, d.unit.name);
    assert meta["mw_name"] == d.unit.name;
    var result := d.unit.process(req, d.conf).result;
    if result.Err? {
      assert "error" != "mw_name";
    } else if result.code != StatusRespond {
      assert "bypass" != "mw_name";
    }
  }

  /** The projections of a decorator's ProcessRequest call and error report. */
  lemma OwnProjections(d: Decorator, req: Request)
    ensures var t := OwnActions(d, req);
      var own := if SkipsUnit(d.unit, req) then [] else [d.unit.name];
      && Entered(t) == [] && Processed(t) == own && Timed(t) == []
      && Errors(t) == OutcomeErrors(OutcomeOf(d, req)) && Upstreams(t) == []
  {
    if !SkipsUnit(d.unit, req) {
      var reply := d.unit.process(req, d.conf);
      var p := Process(d.unit.name, req, d.conf);
      if reply.result.Err? {
        var he := HandleError(reply.req, reply.result.msg, reply.result.code);
        assert OwnActions(d, req) == [p, he];
        assert OutcomeOf(d, req) == Rejected(reply.result.msg, reply.result.code);
        RejectedProjections(p, he);
      } else {
        assert OwnActions(d, req) == [p];
        assert !OutcomeOf(d, req).Rejected?;
        ProjectionsOne(p);
      }
    }
  }

  lemma RejectedProjections(p: Action, he: Action)
    requires p.Process? && he.HandleError?
    ensures Entered([p, he]) == [] && Processed([p, he]) == [p.unit] && Timed([p, he]) == []
    ensures Errors([p, he]) == [(he.msg, he.code)] && Upstreams([p, he]) == []
  {
    ProjectionsOne(p);
    ProjectionsOne(he);
    assert [p, he] == [p] + [he];
    EnteredAppend([p], [he]);
    TimedAppend([p], [he]);
    ProcessedAppend([p], [he]);
    ErrorsAppend([p], [he]);
    UpstreamsAppend([p], [he]);
  }

  /** The two entry events: only the generic one counts as an entry. */
  lemma ExecutedProjections(name: string, meta: Meta)
    ensures var t := ExecutedEvents(name, meta);
      && Entered(t) == [MetaName(meta)] && Processed(t) == [] && Timed(t) == []
      && Errors(t) == [] && Upstreams(t) == []
  {
    assert |EventName(name)| == |name| + 9;
    var a, b := Event(Executed, meta), Event(EventName(name), meta);
    ProjectionsOne(a);
    ProjectionsOne(b);
    EnteredAppend([a], [b]);
    TimedAppend([a], [b]);
    ProcessedAppend([a], [b]);
    ErrorsAppend([a], [b]);
    UpstreamsAppend([a], [b]);
    assert ExecutedEvents(name, meta) == [a] + [b];
  }

  /** The two timing records: only the generic one counts as timing. */
  lemma TimingProjections(name: string, meta: Meta)
    ensures var t := TimingRecords(name, meta);
      && Entered(t) == [] && Processed(t) == [] && Timed(t) == [MetaName(meta)]
      && Errors(t) == [] && Upstreams(t) == []
  {
    assert |EventName(name) + ".exec_time"| == |name| + 19;
    var a, b := Timing(ExecTime, meta), Timing(EventName(name) + ".exec_time", meta);
    ProjectionsOne(a);
    ProjectionsOne(b);
    EnteredAppend([a], [b]);
    TimedAppend([a], [b]);
    ProcessedAppend([a], [b]);
    ErrorsAppend([a], [b]);
    UpstreamsAppend([a], [b]);
    assert TimingRecords(name, meta) == [a] + [b];
  }
}
