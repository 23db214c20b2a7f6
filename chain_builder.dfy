/** Chain assembly (appendMiddleware) and the composed handler: the ordered
    decorators nested around the terminal (upstream) handler, the first added
    outermost. */
module ChainBuilder {
  import opened Wrappers
  import opened MiddlewareUnit
  import opened Instrument
  import opened Decorators

  /** The chain slice that appendMiddleware grows in place. */
  class Chain {
    var decorators: seq<Decorator>

    constructor ()
      ensures decorators == []
    {
      decorators := [];
    }

    /** Appends the unit's decorator iff the unit is enabled for the spec. A
        disabled unit is never initialised or configured. An enabled unit whose
        configuration fails is fatal: the error is returned and the chain is
        left as it was. */
    method AppendMiddleware(mw: Unit) returns (fatal: Option<string>)
      modifies this
      ensures fatal.Some? <==> mw.enabled && mw.config.Failure?
      ensures fatal.Some? ==> fatal.value == ConfigLoadFailed
      ensures decorators ==
        if mw.enabled && fatal.None? then old(decorators) + [Decorator(mw, mw.config.value)]
        else old(decorators)
      ensures AppendStep(Success(old(decorators)), mw)
        == if fatal.None? then Success(decorators) else Failure(fatal.value)
    {
      fatal := None;
      if mw.enabled {
        var built := CreateMiddleware(mw);
        if built.Failure? {
          fatal := Some(built.error);
          return;
        }
        decorators := decorators + [built.value];
      }
    }
  }

  /** The chain a loader gets from appendMiddleware calls for `us`, in order,
      starting from an empty chain; the first fatal error ends assembly. */
  function Assemble(us: seq<Unit>): Result<seq<Decorator>>
  {
    if us == [] then Success([])
    else if !us[0].enabled then Assemble(us[1..])
    else
      match CreateMiddleware(us[0])
      case Failure(e) => Failure(e)
      case Success(d) =>
        match Assemble(us[1..])
        case Failure(e) => Failure(e)
        case Success(rest) => Success([d] + rest)
  }

  /** The enabled units of `us`, in order. */
  function EnabledUnits(us: seq<Unit>): seq<Unit>
  {
    if us == [] then [] else (if us[0].enabled then [us[0]] else []) + EnabledUnits(us[1..])
  }

  function Units(ds: seq<Decorator>): seq<Unit>
  {
    if ds == [] then [] else [ds[0].unit] + Units(ds[1..])
  }

  /** The effect of one more appendMiddleware call on an assembled chain. */
  function AppendStep(r: Result<seq<Decorator>>, u: Unit): Result<seq<Decorator>>
  {
    match r
    case Failure(e) => Failure(e)
    case Success(ds) =>
      if !u.enabled then Success(ds)
      else match u.config
        case Failure(_) => Failure(ConfigLoadFailed)
        case Success(c) => Success(ds + [Decorator(u, c)])
  }

  /** One more appendMiddleware call extends an assembled chain as the method
      AppendMiddleware does. */
  lemma {:induction false} AssembleSnoc(us: seq<Unit>, u: Unit)
    ensures Assemble(us + [u]) == AppendStep(Assemble(us), u)
  {
    if us == [] {
      assert us + [u] == [u];
      assert [u][1..] == [];
      assert Assemble([u][1..]) == Success([]);
      if u.enabled && u.config.Success? {
        assert [Decorator(u, u.config.value)] + [] == [] + [Decorator(u, u.config.value)];
      }
    } else {
      assert (us + [u])[0] == us[0];
      assert (us + [u])[1..] == us[1..] + [u];
      AssembleSnoc(us[1..], u);
      if us[0].enabled && us[0].config.Success? && u.enabled && u.config.Success? {
        match Assemble(us[1..]) {
          case Failure(e) =>
          case Success(rest) =>
            var d0, d1 := Decorator(us[0], us[0].config.value), Decorator(u, u.config.value);
            assert [d0] + (rest + [d1]) == [d0] + rest + [d1];
        }
      }
    }
  }

  /** Assembly fails iff some enabled unit's configuration fails; a disabled
      unit's configuration is never consulted. */
  lemma {:induction false} AssembleFailsIff(us: seq<Unit>)
    ensures Assemble(us).Failure? <==> exists u :: u in us && u.enabled && u.config.Failure?
  {
    if us != [] {
      AssembleFailsIff(us[1..]);
      assert forall u :: u in us <==> u == us[0] || u in us[1..];
    }
  }

  /** An assembled chain holds exactly the enabled units, in order, each with
      the configuration it produced: disabled units contribute no decorator. */
  lemma {:induction false} AssembleKeepsEnabled(us: seq<Unit>)
    requires Assemble(us).Success?
    ensures Units(Assemble(us).value) == EnabledUnits(us)
    ensures forall d :: d in Assemble(us).value ==> d.unit.config == Success(d.conf)
  {
    if us != [] {
      AssembleKeepsEnabled(us[1..]);
      if us[0].enabled {
        var ds := Assemble(us).value;
        assert ds[1..] == Assemble(us[1..]).value;
      }
    }
  }

  /** The trace of the composed handler serving `req`: each decorator's next
      handler is the rest of the chain, and the last one's is the terminal
      handler, which records the request it receives. */
  function RunChain(dec: Decision, ds: seq<Decorator>, req: Request): seq<Action>
    decreases |ds|
  {
    if ds == [] then [Upstream(req)]
    else
      var s := dec(ds[0], req);
      s.before + (if CallsNext(s.outcome) then RunChain(dec, ds[1..], s.nextReq) else []) + s.after
  }

  /** The composed handler is the first decorator with the rest of the chain as
      its next handler, so Serve, run on the first decorator, produces it. */
  lemma RunChainNests(ds: seq<Decorator>, req: Request)
    requires ds != []
    ensures RunChain(Decide, ds, req) == Run(ds[0], req, r => RunChain(Decide, ds[1..], r))
  {
  }

  /** How many decorators the request enters: it goes on past one exactly when
      that one skips its unit or continues. */
  function Reach(dec: Decision, ds: seq<Decorator>, req: Request): (n: nat)
    ensures n <= |ds|
    decreases |ds|
  {
    if ds == [] then 0
    else
      var s := dec(ds[0], req);
      1 + (if CallsNext(s.outcome) then Reach(dec, ds[1..], s.nextReq) else 0)
  }

  /** The request as it arrives at decorator `i` (at the terminal handler when
      i == |ds|), or None when an earlier decorator stopped the chain. */
  function ReqAt(dec: Decision, ds: seq<Decorator>, req: Request, i: nat): Option<Request>
    requires i <= |ds|
    decreases i
  {
    if i == 0 then Some(req)
    else
      var s := dec(ds[0], req);
      if CallsNext(s.outcome) then ReqAt(dec, ds[1..], s.nextReq, i - 1) else None
  }

  /** Every unit of the chain processes the request and accepts it. */
  predicate AllContinue(dec: Decision, ds: seq<Decorator>, req: Request)
    decreases |ds|
  {
    ds == [] ||
    (var s := dec(ds[0], req); s.outcome == Continued && AllContinue(dec, ds[1..], s.nextReq))
  }

  function Names(ds: seq<Decorator>): seq<string>
  {
    if ds == [] then [] else [ds[0].unit.name] + Names(ds[1..])
  }

  lemma {:induction false} NamesTake(ds: seq<Decorator>, k: nat)
    requires 0 < k <= |ds|
    ensures Names(ds[..k]) == [ds[0].unit.name] + Names(ds[1..][..k - 1])
  {
    assert ds[..k][0] == ds[0];
    assert ds[..k][1..] == ds[1..][..k - 1];
  }

  /** Each projection of a non-empty chain's trace, split at its first
      decorator into that decorator's own contribution and the rest of the chain's. */
  lemma EnteredSplit(dec: Decision, ds: seq<Decorator>, req: Request)
    requires Instrumented(dec)
    requires ds != []
    ensures var s := dec(ds[0], req);
      var inner := if CallsNext(s.outcome) then Entered(RunChain(dec, ds[1..], s.nextReq)) else [];
      Entered(RunChain(dec, ds, req)) == [ds[0].unit.name] + inner
  {
    var s := dec(ds[0], req);
    var mid := if CallsNext(s.outcome) then RunChain(dec, ds[1..], s.nextReq) else [];
    assert RunChain(dec, ds, req) == s.before + mid + s.after;
    assert StepInstrumented(ds[0], s);
    EnteredAppend(s.before + mid, s.after);
    EnteredAppend(s.before, mid);
  }

  lemma ProcessedSplit(dec: Decision, ds: seq<Decorator>, req: Request)
    requires Instrumented(dec)
    requires ds != []
    ensures var s := dec(ds[0], req);
      var inner := if CallsNext(s.outcome) then Processed(RunChain(dec, ds[1..], s.nextReq)) else [];
      var own := OwnName(ds[0], s);
      Processed(RunChain(dec, ds, req)) == own + inner
  {
    var s := dec(ds[0], req);
    var mid := if CallsNext(s.outcome) then RunChain(dec, ds[1..], s.nextReq) else [];
    assert RunChain(dec, ds, req) == s.before + mid + s.after;
    assert StepInstrumented(ds[0], s);
    ProcessedAppend(s.before + mid, s.after);
    ProcessedAppend(s.before, mid);
  }

  lemma TimedSplit(dec: Decision, ds: seq<Decorator>, req: Request)
    requires Instrumented(dec)
    requires ds != []
    ensures var s := dec(ds[0], req);
      var inner := if CallsNext(s.outcome) then Timed(RunChain(dec, ds[1..], s.nextReq)) else [];
      var own := OwnName(ds[0], s);
      Timed(RunChain(dec, ds, req)) == inner + own
  {
    var s := dec(ds[0], req);
    var mid := if CallsNext(s.outcome) then RunChain(dec, ds[1..], s.nextReq) else [];
    assert RunChain(dec, ds, req) == s.before + mid + s.after;
    assert StepInstrumented(ds[0], s);
    TimedAppend(s.before + mid, s.after);
    TimedAppend(s.before, mid);
    assert Timed(s.before + mid) == Timed(mid);
  }

  lemma ErrorsSplit(dec: Decision, ds: seq<Decorator>, req: Request)
    requires Instrumented(dec)
    requires ds != []
    ensures var s := dec(ds[0], req);
      CallsNext(s.outcome) ==> Errors(RunChain(dec, ds, req)) == Errors(RunChain(dec, ds[1..], s.nextReq))
    ensures var s := dec(ds[0], req);
      !CallsNext(s.outcome) ==> Errors(RunChain(dec, ds, req)) == OutcomeErrors(s.outcome)
  {
    var s := dec(ds[0], req);
    var mid := if CallsNext(s.outcome) then RunChain(dec, ds[1..], s.nextReq) else [];
    assert RunChain(dec, ds, req) == s.before + mid + s.after;
    assert StepInstrumented(ds[0], s);
    ErrorsAppend(s.before + mid, s.after);
    ErrorsAppend(s.before, mid);
    assert Errors(RunChain(dec, ds, req)) == OutcomeErrors(s.outcome) + Errors(mid);
  }

  lemma UpstreamsSplit(dec: Decision, ds: seq<Decorator>, req: Request)
    requires Instrumented(dec)
    requires ds != []
    ensures var s := dec(ds[0], req);
      var inner := if CallsNext(s.outcome) then Upstreams(RunChain(dec, ds[1..], s.nextReq)) else [];
      Upstreams(RunChain(dec, ds, req)) == inner
  {
    var s := dec(ds[0], req);
    var mid := if CallsNext(s.outcome) then RunChain(dec, ds[1..], s.nextReq) else [];
    assert RunChain(dec, ds, req) == s.before + mid + s.after;
    assert StepInstrumented(ds[0], s);
    UpstreamsAppend(s.before + mid, s.after);
    UpstreamsAppend(s.before, mid);
  }

  /** Exactly the first Reach(dec, ds, req) decorators are entered, in chain order:
      no decorator after the one that stopped the request is ever entered. */
  lemma {:induction false} EnteredPrefix(dec: Decision, ds: seq<Decorator>, req: Request)
    requires Instrumented(dec)
    ensures Entered(RunChain(dec, ds, req)) == Names(ds[..Reach(dec, ds, req)])
    decreases |ds|
  {
    if ds == [] {
      ProjectionsOne(Upstream(req));
    } else {
      var s := dec(ds[0], req);
      EnteredSplit(dec, ds, req);
      if CallsNext(s.outcome) {
        EnteredPrefix(dec, ds[1..], s.nextReq);
      }
      NamesTake(ds, Reach(dec, ds, req));
      assert ds[1..][..0] == [];
    }
  }

  /** The terminal handler runs at most once, and it runs iff the request gets
      past every decorator; it then receives the request as the units left it. */
  lemma {:induction false} UpstreamIff(dec: Decision, ds: seq<Decorator>, req: Request)
    requires Instrumented(dec)
    ensures Upstreams(RunChain(dec, ds, req)) == OptionToSeq(ReqAt(dec, ds, req, |ds|))
    decreases |ds|
  {
    if ds == [] {
      ProjectionsOne(Upstream(req));
    } else {
      var s := dec(ds[0], req);
      UpstreamsSplit(dec, ds, req);
      if CallsNext(s.outcome) {
        UpstreamIff(dec, ds[1..], s.nextReq);
      }
    }
  }

  /** Timing records come out innermost first: the units timed are exactly the
      units processed, in reverse order, because each decorator records its
      time only after the rest of the chain has returned. */
  lemma {:induction false} TimedMirrorsProcessed(dec: Decision, ds: seq<Decorator>, req: Request)
    requires Instrumented(dec)
    ensures Timed(RunChain(dec, ds, req)) == Reverse(Processed(RunChain(dec, ds, req)))
    decreases |ds|
  {
    if ds == [] {
      ProjectionsOne(Upstream(req));
    } else {
      var s := dec(ds[0], req);
      var innerP, innerT := [], [];
      if CallsNext(s.outcome) {
        TimedMirrorsProcessed(dec, ds[1..], s.nextReq);
        innerP, innerT := Processed(RunChain(dec, ds[1..], s.nextReq)), Timed(RunChain(dec, ds[1..], s.nextReq));
      }
      assert innerT == Reverse(innerP);
      var own := OwnName(ds[0], s);
      TimedSplit(dec, ds, req);
      ProcessedSplit(dec, ds, req);
      assert (own + innerP)[|own|..] == innerP;
    }
  }

  /** Unit i's decision gates unit i + 1: if the request reaches decorator i and
      that unit rejects it or answers it itself, decorators after i are never
      entered (with EnteredPrefix) and the terminal handler never runs. */
  lemma {:induction false} StopGates(dec: Decision, ds: seq<Decorator>, req: Request, i: nat, r: Request)
    requires i < |ds|
    requires ReqAt(dec, ds, req, i) == Some(r)
    requires !CallsNext(dec(ds[i], r).outcome)
    ensures Reach(dec, ds, req) == i + 1
    ensures ReqAt(dec, ds, req, |ds|) == None
    decreases i
  {
    if i > 0 {
      assert ds[1..][i - 1] == ds[i];
      StopGates(dec, ds[1..], dec(ds[0], req).nextReq, i - 1, r);
    }
  }

  /** Only units the request reaches are processed: at most one
      ProcessRequest call per decorator entered, each by one of those units,
      so no unit after the one that stopped the request is ever invoked. */
  lemma {:induction false} ProcessedWithinReach(dec: Decision, ds: seq<Decorator>, req: Request)
    requires Instrumented(dec)
    ensures |Processed(RunChain(dec, ds, req))| <= Reach(dec, ds, req)
    ensures forall n :: n in Processed(RunChain(dec, ds, req)) ==> n in Names(ds[..Reach(dec, ds, req)])
    decreases |ds|
  {
    if ds == [] {
      ProjectionsOne(Upstream(req));
    } else {
      var s := dec(ds[0], req);
      ProcessedSplit(dec, ds, req);
      NamesTake(ds, Reach(dec, ds, req));
      if CallsNext(s.outcome) {
        ProcessedWithinReach(dec, ds[1..], s.nextReq);
      } else {
        assert ds[1..][..0] == [];
      }
    }
  }

  /** Once a unit has stopped the request, the decorators after it play no
      part: the trace is that of the chain cut just after the stopping unit,
      whatever the later decorators are, so none of them is entered,
      processed or timed. */
  lemma {:induction false} StopIgnoresRest(dec: Decision, ds: seq<Decorator>, req: Request)
    requires ReqAt(dec, ds, req, |ds|).None?
    ensures RunChain(dec, ds, req) == RunChain(dec, ds[..Reach(dec, ds, req)], req)
    decreases |ds|
  {
    if ds != [] {
      var s := dec(ds[0], req);
      var k := Reach(dec, ds, req);
      assert ds[..k][0] == ds[0];
      if CallsNext(s.outcome) {
        StopIgnoresRest(dec, ds[1..], s.nextReq);
        assert ds[..k][1..] == ds[1..][..k - 1];
      }
    }
  }

  /** A unit that stops the request at position i is the only one whose error
      reaches the error handler: a rejection is reported once, with the unit's
      message and status; an answered request reports none. */
  lemma {:induction false} StopReportsOwnError(dec: Decision, ds: seq<Decorator>, req: Request, i: nat, r: Request)
    requires Instrumented(dec)
    requires i < |ds|
    requires ReqAt(dec, ds, req, i) == Some(r)
    requires !CallsNext(dec(ds[i], r).outcome)
    ensures Errors(RunChain(dec, ds, req)) == OutcomeErrors(dec(ds[i], r).outcome)
    decreases i
  {
    var s := dec(ds[0], req);
    ErrorsSplit(dec, ds, req);
    if i == 0 {
      assert r == req;
    } else {
      assert CallsNext(s.outcome);
      assert ReqAt(dec, ds[1..], s.nextReq, i - 1) == Some(r);
      assert ds[1..][i - 1] == ds[i];
      StopReportsOwnError(dec, ds[1..], s.nextReq, i - 1, r);
    }
  }

  /** When every unit accepts, every unit's ProcessRequest runs exactly once, in
      chain order, no error is reported, and the terminal handler runs once. */
  lemma {:induction false} AllAcceptReachesUpstream(dec: Decision, ds: seq<Decorator>, req: Request)
    requires Instrumented(dec)
    requires AllContinue(dec, ds, req)
    ensures Processed(RunChain(dec, ds, req)) == Names(ds)
    ensures Errors(RunChain(dec, ds, req)) == []
    ensures |Upstreams(RunChain(dec, ds, req))| == 1
    decreases |ds|
  {
    if ds == [] {
      ProjectionsOne(Upstream(req));
    } else {
      var s := dec(ds[0], req);
      ProcessedSplit(dec, ds, req);
      ErrorsSplit(dec, ds, req);
      UpstreamsSplit(dec, ds, req);
      AllAcceptReachesUpstream(dec, ds[1..], s.nextReq);
    }
  }

  /** The chain of handlers createMiddleware builds: exactly a prefix of the
      decorators is entered, the terminal handler runs iff the request gets
      through them all, and timing records mirror the ProcessRequest calls. */
  lemma BuiltChainTrace(ds: seq<Decorator>, req: Request)
    ensures Entered(RunChain(Decide, ds, req)) == Names(ds[..Reach(Decide, ds, req)])
    ensures Upstreams(RunChain(Decide, ds, req)) == OptionToSeq(ReqAt(Decide, ds, req, |ds|))
    ensures Timed(RunChain(Decide, ds, req)) == Reverse(Processed(RunChain(Decide, ds, req)))
  {
    DecideInstrumented();
    EnteredPrefix(Decide, ds, req);
    UpstreamIff(Decide, ds, req);
    TimedMirrorsProcessed(Decide, ds, req);
  }
}
