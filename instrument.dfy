/** The observable behaviour of a request's trip through the chain, as an
    ordered trace of actions: instrumentation events and timing records (their
    elapsed values are not modelled), ProcessRequest calls, error-handler calls
    and the call of the terminal (upstream) handler. */
module Instrument {
  import opened MiddlewareUnit

  datatype Action =
    | Event(name: string, meta: Meta)
    | Timing(name: string, meta: Meta)
    | Process(unit: string, req: Request, conf: Config)
    | HandleError(req: Request, msg: string, code: int)
    | Upstream(req: Request)

  /** Name of the generic event every unit emits on entry. */
  const Executed: string := "executed"
  /** Name of the generic timing record every processing unit emits. */
  const ExecTime: string := "exec_time"

  /** The unit name recorded in a metadata record. */
  function MetaName(m: Meta): string
  {
    if "mw_name" in m then m["mw_name"] else ""
  }

  /** The unit an action shows entering, if it is the generic "executed" event. */
  function EnteredBy(x: Action): seq<string>
  {
    if x.Event? && x.name == Executed then [MetaName(x.meta)] else []
  }

  /** The unit an action shows timed, if it is the generic "exec_time" record. */
  function TimedBy(x: Action): seq<string>
  {
    if x.Timing? && x.name == ExecTime then [MetaName(x.meta)] else []
  }

  /** Names of the units that were entered (emitted the generic "executed" event). */
  function Entered(t: seq<Action>): seq<string>
  {
    if t == [] then [] else EnteredBy(t[0]) + Entered(t[1..])
  }

  /** Names of the units that emitted the generic "exec_time" record. */
  function Timed(t: seq<Action>): seq<string>
  {
    if t == [] then [] else TimedBy(t[0]) + Timed(t[1..])
  }

  /** Names of the units whose ProcessRequest was called. */
  function Processed(t: seq<Action>): seq<string>
  {
    if t == [] then [] else (if t[0].Process? then [t[0].unit] else []) + Processed(t[1..])
  }

  /** Message and status of every error-handler call. */
  function Errors(t: seq<Action>): seq<(string, int)>
  {
    if t == [] then [] else (if t[0].HandleError? then [(t[0].msg, t[0].code)] else []) + Errors(t[1..])
  }

  /** The request of every call of the terminal handler. */
  function Upstreams(t: seq<Action>): seq<Request>
  {
    if t == [] then [] else (if t[0].Upstream? then [t[0].req] else []) + Upstreams(t[1..])
  }

  lemma ProjectionsOne(a: Action)
    ensures Entered([a]) == if a.Event? && a.name == Executed then [MetaName(a.meta)] else []
    ensures Timed([a]) == if a.Timing? && a.name == ExecTime then [MetaName(a.meta)] else []
    ensures Processed([a]) == if a.Process? then [a.unit] else []
    ensures Errors([a]) == if a.HandleError? then [(a.msg, a.code)] else []
    ensures Upstreams([a]) == if a.Upstream? then [a.req] else []
  {
    assert [a][1..] == [];
  }

  /** Every projection of a trace distributes over concatenation. */
  lemma {:induction false} EnteredAppend(a: seq<Action>, b: seq<Action>)
    ensures Entered(a + b) == Entered(a) + Entered(b)
  {
    if a == [] {
      assert a + b == b;
    } else {
      assert (a + b)[0] == a[0];
      assert (a + b)[1..] == a[1..] + b;
      EnteredAppend(a[1..], b);
    }
  }

  lemma {:induction false} TimedAppend(a: seq<Action>, b: seq<Action>)
    ensures Timed(a + b) == Timed(a) + Timed(b)
  {
    if a == [] {
      assert a + b == b;
    } else {
      assert (a + b)[0] == a[0];
      assert (a + b)[1..] == a[1..] + b;
      TimedAppend(a[1..], b);
    }
  }

  lemma {:induction false} ProcessedAppend(a: seq<Action>, b: seq<Action>)
    ensures Processed(a + b) == Processed(a) + Processed(b)
  {
    if a == [] {
      assert a + b == b;
    } else {
      assert (a + b)[0] == a[0];
      assert (a + b)[1..] == a[1..] + b;
      ProcessedAppend(a[1..], b);
    }
  }

  lemma {:induction false} ErrorsAppend(a: seq<Action>, b: seq<Action>)
    ensures Errors(a + b) == Errors(a) + Errors(b)
  {
    if a == [] {
      assert a + b == b;
    } else {
      assert (a + b)[0] == a[0];
      assert (a + b)[1..] == a[1..] + b;
      ErrorsAppend(a[1..], b);
    }
  }

  lemma {:induction false} UpstreamsAppend(a: seq<Action>, b: seq<Action>)
    ensures Upstreams(a + b) == Upstreams(a) + Upstreams(b)
  {
    if a == [] {
      assert a + b == b;
    } else {
      assert (a + b)[0] == a[0];
      assert (a + b)[1..] == a[1..] + b;
      UpstreamsAppend(a[1..], b);
    }
  }

  function Reverse<T>(s: seq<T>): (r: seq<T>)
    ensures |r| == |s|
  {
    if s == [] then [] else Reverse(s[1..]) + [s[0]]
  }
}
