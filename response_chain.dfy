/** Response handlers: the registry that maps a symbolic name to a handler
    (responseProcessorByName) and the executor that runs an ordered list of
    handlers over one upstream response (handleResponseChain). */
module ResponseChain {
  import opened Wrappers

  /** The three registered response handlers. */
  datatype HandlerKind = HeaderInjector | ResponseBodyTransform | HeaderTransform

  /** The symbolic name each handler is registered under. */
  function KindName(k: HandlerKind): string
  {
    match k
    case HeaderInjector => "header_injector"
    case ResponseBodyTransform => "response_body_transform"
    case HeaderTransform => "header_transform"
  }

  /** The handler registered under `name`, or None (not an error) for any other name. */
  function ResponseProcessorByName(name: string): (r: Option<HandlerKind>)
    ensures r.Some? ==> KindName(r.value) == name
    ensures r.None? <==> name !in {"header_injector", "response_body_transform", "header_transform"}
  {
    if name == "header_injector" then Some(HeaderInjector)
    else if name == "response_body_transform" then Some(ResponseBodyTransform)
    else if name == "header_transform" then Some(HeaderTransform)
    else None
  }

  /** Every registered handler is found under its own name. */
  lemma RegistryRoundTrip(k: HandlerKind)
    ensures ResponseProcessorByName(KindName(k)) == Some(k)
  {
  }

  /** The upstream response a handler may transform. */
  datatype Response = Response(status: int, headers: map<string, string>, body: seq<char>)

  /** A handler's effect on the response, and its error if it failed. A failing
      handler may already have changed the response. */
  datatype Handled = Handled(res: Response, err: Option<string>)

  /** HandleResponse of one handler, for the request and session at hand. */
  type Handler = Response -> Handled

  /** The response after the first k handlers have been applied in order. */
  function StateAfter(chain: seq<Handler>, res: Response, k: nat): Response
    requires k <= |chain|
  {
    if k == 0 then res else chain[k - 1](StateAfter(chain, res, k - 1)).res
  }

  /** Each of the first k handlers succeeds on the response its predecessors left. */
  ghost predicate SucceedsUpTo(chain: seq<Handler>, res: Response, k: nat)
    requires k <= |chain|
  {
    forall i :: 0 <= i < k ==> chain[i](StateAfter(chain, res, i)).err.None?
  }

  /** The position of the first failing handler, or |chain| when none fails. */
  function FirstFailure(chain: seq<Handler>, res: Response): (j: nat)
    ensures j <= |chain|
    ensures SucceedsUpTo(chain, res, j)
    ensures j < |chain| ==> chain[j](StateAfter(chain, res, j)).err.Some?
  {
    FirstFailureFrom(chain, res, 0)
  }

  function FirstFailureFrom(chain: seq<Handler>, res: Response, k: nat): (j: nat)
    requires k <= |chain|
    requires SucceedsUpTo(chain, res, k)
    ensures k <= j <= |chain|
    ensures SucceedsUpTo(chain, res, j)
    ensures j < |chain| ==> chain[j](StateAfter(chain, res, j)).err.Some?
    decreases |chain| - k
  {
    if k == |chain| || chain[k](StateAfter(chain, res, k)).err.Some? then k
    else FirstFailureFrom(chain, res, k + 1)
  }

  /** No handler fails iff the first failure lies past the end of the chain,
      and a prefix of handlers that all succeed ends before the first failure. */
  lemma FirstFailureBounds(chain: seq<Handler>, res: Response, k: nat)
    requires k <= |chain|
    ensures SucceedsUpTo(chain, res, k) <==> k <= FirstFailure(chain, res)
  {
    var f := FirstFailure(chain, res);
    if f < k {
      assert !chain[f](StateAfter(chain, res, f)).err.None?;
    }
  }

  /** Runs the handlers in list order and stops at the first failure, returning
      its error; nil is returned iff every handler succeeded. `invoked` is how
      many handlers were called: those after the failing one never are. No
      change is rolled back: the response is left as the last invoked handler
      left it, on top of its predecessors' changes. */
  method HandleResponseChain(chain: seq<Handler>, res: Response)
    returns (err: Option<string>, out: Response, ghost invoked: nat)
    ensures err.None? <==> FirstFailure(chain, res) == |chain|
    ensures err.None? ==> out == StateAfter(chain, res, |chain|)
    ensures var j := FirstFailure(chain, res);
      j < |chain| ==> Handled(out, err) == chain[j](StateAfter(chain, res, j))
    ensures var j := FirstFailure(chain, res);
      invoked == (if j == |chain| then j else j + 1)
  {
    out, invoked := res, 0;
    var i := 0;
    while i < |chain|
      invariant 0 <= i <= FirstFailure(chain, res)
      invariant out == StateAfter(chain, res, i)
      invariant invoked == i
    {
      var h := chain[i](out);
      invoked := invoked + 1;
      if h.err.Some? {
        FirstFailureBounds(chain, res, i + 1);
        assert !chain[i](StateAfter(chain, res, i)).err.None?;
        assert FirstFailure(chain, res) == i;
        err, out := h.err, h.res;
        return;
      }
      FirstFailureBounds(chain, res, i);
      FirstFailureBounds(chain, res, i + 1);
      out := h.res;
      i := i + 1;
    }
    err := None;
  }
}
