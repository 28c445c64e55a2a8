/**
 `InterceptedHandler` (ra2a/src/server/handler/intercepted.rs): before-interceptors in order, the inner
 handler, after-interceptors in reverse. Interceptors are arbitrary functions of what they are given.
 */
module Interceptors {
  import opened Wrappers

  /** A type-erased payload: the type it was boxed as, and a value. */
  datatype Any = Any(typeId: nat, value: nat)

  datatype Context = Context(name: string, extensions: seq<string>, user: string)

  datatype CallError = Raised(message: string) | RequestTypeChanged | NoResponse | ResponseTypeChanged | MissingEvent

  datatype Response = Response(payload: Option<Any>, err: Option<CallError>)

  datatype Interceptor = Interceptor(
    before: (Context, Any) -> Result<(Context, Any), CallError>,
    after: (Context, Response) -> Result<Response, CallError>)

  /** The request and response types of a handler method. */
  datatype Signature = Signature(request: nat, response: nat)

  type Inner = nat -> Result<nat, CallError>

  /** What a stream yields. */
  type Item = Result<nat, CallError>

  type StreamInner = nat -> Result<seq<Item>, CallError>

  datatype Call = Before(i: nat) | InnerCall | After(i: nat)

  // ---- Chains ------------------------------------------------------------------------------

  /** Runs the befores in order, stopping at the first failure. */
  function BeforeChain(chain: seq<Interceptor>, ctx: Context, req: Any): Result<(Context, Any), CallError> {
    if chain == [] then Ok((ctx, req))
    else
      match BeforeChain(chain[..|chain| - 1], ctx, req)
      case Err(e) => Err(e)
      case Ok((c, r)) => chain[|chain| - 1].before(c, r)
  }

  /** Runs the afters from the last interceptor to the first, stopping at the first failure. */
  function AfterChain(chain: seq<Interceptor>, ctx: Context, resp: Response): Result<Response, CallError> {
    if chain == [] then Ok(resp)
    else
      match chain[|chain| - 1].after(ctx, resp)
      case Err(e) => Err(e)
      case Ok(r) => AfterChain(chain[..|chain| - 1], ctx, r)
  }

  function FromResult(r: Result<nat, CallError>, sig: Signature): Response {
    match r
    case Ok(v) => Response(Some(Any(sig.response, v)), None)
    case Err(e) => Response(None, Some(e))
  }

  /** The end of `run_after_typed`: an error wins, then the payload must exist and have its type. */
  function Finish(r: Result<Response, CallError>, sig: Signature): Result<nat, CallError> {
    match r
    case Err(e) => Err(e)
    case Ok(Response(_, Some(e))) => Err(e)
    case Ok(Response(None, None)) => Err(NoResponse)
    case Ok(Response(Some(p), None)) => if p.typeId == sig.response then Ok(p.value) else Err(ResponseTypeChanged)
  }

  /** A whole call. */
  function Respond(chain: seq<Interceptor>, ctx: Context, sig: Signature, inner: Inner, params: nat)
    : Result<nat, CallError>
  {
    match BeforeChain(chain, ctx, Any(sig.request, params))
    case Err(e) => Err(e)
    case Ok((c, req)) =>
      if req.typeId != sig.request then Err(RequestTypeChanged)
      else Finish(AfterChain(chain, c, FromResult(inner(req.value), sig)), sig)
  }

  // ---- Order and early exit ----------------------------------------------------------------

  /** Number of befores that run: all of them, or up to and including the first that fails. */
  function BeforeCalls(chain: seq<Interceptor>, ctx: Context, req: Any): (k: nat)
    ensures k <= |chain|
    ensures BeforeChain(chain, ctx, req).Ok? ==> k == |chain|
    ensures BeforeChain(chain, ctx, req).Err? ==>
              k > 0 && BeforeChain(chain[..k - 1], ctx, req).Ok?
              && BeforeChain(chain[..k], ctx, req) == BeforeChain(chain, ctx, req)
  {
    if chain == [] then 0
    else
      var init := chain[..|chain| - 1];
      if BeforeChain(init, ctx, req).Ok? then
        assert chain[..|chain|] == chain;
        |chain|
      else
        var k := BeforeCalls(init, ctx, req);
        assert chain[..k] == init[..k] && chain[..k - 1] == init[..k - 1];
        k
  }

  /** Index of the last after that runs: 0, or that of the first (from the end) that fails. */
  function AfterStop(chain: seq<Interceptor>, ctx: Context, resp: Response): (m: nat)
    ensures m <= |chain|
    ensures AfterChain(chain, ctx, resp).Ok? ==> m == 0
    ensures AfterChain(chain, ctx, resp).Err? ==>
              m < |chain| && AfterChain(chain[m + 1..], ctx, resp).Ok?
              && AfterChain(chain[m..], ctx, resp) == AfterChain(chain, ctx, resp)
  {
    if chain == [] then 0
    else
      var init, last := chain[..|chain| - 1], chain[|chain| - 1];
      match last.after(ctx, resp)
      case Err(_) =>
        assert chain[|chain|..] == [] && chain[|chain| - 1..] == [last];
        |chain| - 1
      case Ok(r) =>
        var m := AfterStop(init, ctx, r);
        AfterSuffix(chain, ctx, resp, m);
        if m < |init| then AfterSuffix(chain, ctx, resp, m + 1); m else m
  }

  lemma AfterSuffix(chain: seq<Interceptor>, ctx: Context, resp: Response, j: nat)
    requires chain != [] && j < |chain| && chain[|chain| - 1].after(ctx, resp).Ok?
    ensures AfterChain(chain[j..], ctx, resp)
         == AfterChain(chain[..|chain| - 1][j..], ctx, chain[|chain| - 1].after(ctx, resp).value)
  {
    var suffix := chain[j..];
    assert suffix[..|suffix| - 1] == chain[..|chain| - 1][j..];
  }

  function Befores(k: nat): seq<Call> { seq(k, i requires 0 <= i < k => Before(i)) }

  /** The afters n - 1 down to m. */
  function Afters(n: nat, m: nat): seq<Call>
    requires m <= n
  {
    seq(n - m, i requires 0 <= i < n - m => After(n - 1 - i))
  }

  /** `run_before_typed`, with the calls it makes. */
  method RunBeforeTyped(chain: seq<Interceptor>, start: Context, sig: Signature, params: nat)
    returns (r: Result<(Context, nat), CallError>, calls: seq<Call>)
    ensures calls == Befores(BeforeCalls(chain, start, Any(sig.request, params)))
    ensures r == match BeforeChain(chain, start, Any(sig.request, params))
                 case Err(e) => Err(e)
                 case Ok((c, req)) => if req.typeId == sig.request then Ok((c, req.value)) else Err(RequestTypeChanged)
  {
    var ctx, req := start, Any(sig.request, params);
    calls := [];
    var i := 0;
    while i < |chain|
      invariant 0 <= i <= |chain| && calls == Befores(i)
      invariant BeforeChain(chain[..i], start, Any(sig.request, params)) == Ok((ctx, req))
    {
      calls := calls + [Before(i)];
      assert chain[..i + 1][..i] == chain[..i];
      match chain[i].before(ctx, req) {
        case Err(e) =>
          BeforeFails(chain, start, Any(sig.request, params), i, e);
          return Err(e), calls;
        case Ok((c, q)) => ctx, req := c, q;
      }
      i := i + 1;
    }
    assert chain[..i] == chain;
    r := if req.typeId == sig.request then Ok((ctx, req.value)) else Err(RequestTypeChanged);
  }

  lemma {:induction false} BeforeFails(chain: seq<Interceptor>, ctx: Context, req: Any, i: nat, e: CallError)
    requires i < |chain| && BeforeChain(chain[..i], ctx, req).Ok? && BeforeChain(chain[..i + 1], ctx, req) == Err(e)
    ensures BeforeChain(chain, ctx, req) == Err(e) && BeforeCalls(chain, ctx, req) == i + 1
    decreases |chain|
  {
    if i + 1 == |chain| {
      assert chain[..i + 1] == chain;
    } else {
      var init := chain[..|chain| - 1];
      assert init[..i] == chain[..i] && init[..i + 1] == chain[..i + 1];
      BeforeFails(init, ctx, req, i, e);
    }
  }

  lemma AftersMore(n: nat, i: nat)
    requires i < n
    ensures Afters(n, i) == Afters(n, i + 1) + [After(i)]
  {}

  lemma AfterStep(chain: seq<Interceptor>, i: nat, ctx: Context, resp: Response)
    requires i < |chain|
    ensures match chain[i].after(ctx, resp)
            case Err(e) =>
              AfterChain(chain[..i + 1], ctx, resp) == Err(e) && AfterStop(chain[..i + 1], ctx, resp) == i
            case Ok(next) =>
              && AfterChain(chain[..i + 1], ctx, resp) == AfterChain(chain[..i], ctx, next)
              && AfterStop(chain[..i + 1], ctx, resp) == AfterStop(chain[..i], ctx, next)
  {
    assert chain[..i + 1][..i] == chain[..i];
  }

  /** `run_after_typed`, with the calls it makes. */
  method RunAfterTyped(chain: seq<Interceptor>, ctx: Context, sig: Signature, result: Result<nat, CallError>)
    returns (r: Result<nat, CallError>, calls: seq<Call>)
    ensures calls == Afters(|chain|, AfterStop(chain, ctx, FromResult(result, sig)))
    ensures r == Finish(AfterChain(chain, ctx, FromResult(result, sig)), sig)
  {
    var resp := FromResult(result, sig);
    ghost var unwound, stop := AfterChain(chain, ctx, resp), AfterStop(chain, ctx, resp);
    calls := [];
    var i := |chain|;
    assert chain[..i] == chain;
    while i > 0
      invariant 0 <= i <= |chain| && calls == Afters(|chain|, i)
      invariant unwound == AfterChain(chain[..i], ctx, resp)
      invariant stop == AfterStop(chain[..i], ctx, resp)
    {
      i := i - 1;
      calls := calls + [After(i)];
      AftersMore(|chain|, i);
      AfterStep(chain, i, ctx, resp);
      match chain[i].after(ctx, resp) {
        case Err(e) => return Err(e), calls;
        case Ok(next) => resp := next;
      }
    }
    if resp.err.Some? {
      return Err(resp.err.value), calls;
    }
    match resp.payload {
      case None => r := Err(NoResponse);
      case Some(p) => r := if p.typeId == sig.response then Ok(p.value) else Err(ResponseTypeChanged);
    }
  }

  /** The calls a unary handler method makes. */
  function UnaryTrace(chain: seq<Interceptor>, start: Context, sig: Signature, inner: Inner, params: nat): seq<Call> {
    match BeforeChain(chain, start, Any(sig.request, params))
    case Err(_) => Befores(BeforeCalls(chain, start, Any(sig.request, params)))
    case Ok((ctx, req)) =>
      if req.typeId != sig.request then Befores(|chain|)
      else Befores(|chain|) + [InnerCall]
           + Afters(|chain|, AfterStop(chain, ctx, FromResult(inner(req.value), sig)))
  }

  /**
   A handler method with a single response. Befores in order; a failing one ends the call with nothing
   else run, as does a changed request type. Otherwise the inner handler once and, whatever it
   returned, the afters in reverse; a failing one skips exactly the interceptors attached before it.
   */
  method Handle(chain: seq<Interceptor>, start: Context, sig: Signature, inner: Inner, params: nat)
    returns (r: Result<nat, CallError>, calls: seq<Call>)
    ensures r == Respond(chain, start, sig, inner, params)
    ensures calls == UnaryTrace(chain, start, sig, inner, params)
  {
    var before, made := RunBeforeTyped(chain, start, sig, params);
    match before {
      case Err(e) => return Err(e), made;
      case Ok((ctx, value)) =>
        var result := inner(value);
        var finished, unwound := RunAfterTyped(chain, ctx, sig, result);
        r, calls := finished, made + [InnerCall] + unwound;
    }
  }

  // ---- Streams -----------------------------------------------------------------------------

  /** `apply_stream_after`, with the calls it makes. */
  method ApplyStreamAfter(chain: seq<Interceptor>, ctx: Context, sig: Signature, event: nat)
    returns (r: Result<nat, CallError>, calls: seq<Call>)
    ensures r == StreamAfter(chain, ctx, sig, event)
    ensures calls == Afters(|chain|, AfterStop(chain, ctx, FromResult(Ok(event), sig)))
  {
    var resp := Response(Some(Any(sig.response, event)), None);
    ghost var unwound, stop := AfterChain(chain, ctx, resp), AfterStop(chain, ctx, resp);
    calls := [];
    var i := |chain|;
    assert chain[..i] == chain;
    while i > 0
      invariant 0 <= i <= |chain| && calls == Afters(|chain|, i)
      invariant unwound == AfterChain(chain[..i], ctx, resp)
      invariant stop == AfterStop(chain[..i], ctx, resp)
    {
      i := i - 1;
      calls := calls + [After(i)];
      AftersMore(|chain|, i);
      AfterStep(chain, i, ctx, resp);
      match chain[i].after(ctx, resp) {
        case Err(e) => return Err(e), calls;
        case Ok(next) => resp := next;
      }
    }
    if resp.err.Some? {
      return Err(resp.err.value), calls;
    }
    r := if resp.payload.Some? && resp.payload.value.typeId == sig.response
         then Ok(resp.payload.value.value) else Err(MissingEvent);
  }

  function StreamAfter(chain: seq<Interceptor>, ctx: Context, sig: Signature, event: nat): Result<nat, CallError> {
    match Finish(AfterChain(chain, ctx, FromResult(Ok(event), sig)), sig)
    case Ok(v) => Ok(v)
    case Err(e) =>
      // the two ways to lose the event share one message
      match AfterChain(chain, ctx, FromResult(Ok(event), sig))
      case Err(f) => Err(f)
      case Ok(resp) => if resp.err.Some? then Err(e) else Err(MissingEvent)
  }

  function WrapItem(chain: seq<Interceptor>, ctx: Context, sig: Signature, item: Item): Item {
    match item
    case Err(e) => Err(e)
    case Ok(v) => StreamAfter(chain, ctx, sig, v)
  }

  /** `wrap_stream`: every stream item gets the context of a new call. */
  function WrapStream(chain: seq<Interceptor>, ctx: Context, sig: Signature, items: seq<Item>): seq<Item> {
    if items == [] then []
    else WrapStream(chain, ctx, sig, items[..|items| - 1]) + [WrapItem(chain, ctx, sig, items[|items| - 1])]
  }

  /** A wrapped stream has the same length and order; error items pass untouched, by no interceptor. */
  lemma {:induction false} WrapStreamPointwise(
    chain: seq<Interceptor>, ctx: Context, sig: Signature, items: seq<Item>, i: nat)
    requires i < |items|
    ensures |WrapStream(chain, ctx, sig, items)| == |items|
    ensures items[i].Err? ==> WrapStream(chain, ctx, sig, items)[i] == items[i]
    ensures items[i].Ok? ==> WrapStream(chain, ctx, sig, items)[i] == StreamAfter(chain, ctx, sig, items[i].value)
  {
    if |items| > 1 {
      WrapStreamPointwise(chain, ctx, sig, items[..|items| - 1], if i < |items| - 1 then i else 0);
    }
  }

  /** The afters of one stream item: an error item meets none. */
  function ItemCalls(chain: seq<Interceptor>, ctx: Context, sig: Signature, item: Item): seq<Call> {
    match item
    case Err(_) => []
    case Ok(v) => Afters(|chain|, AfterStop(chain, ctx, FromResult(Ok(v), sig)))
  }

  function StreamCalls(chain: seq<Interceptor>, ctx: Context, sig: Signature, items: seq<Item>): seq<Call> {
    if items == [] then []
    else StreamCalls(chain, ctx, sig, items[..|items| - 1]) + ItemCalls(chain, ctx, sig, items[|items| - 1])
  }

  /** What a streaming handler method answers, once the whole stream has been read. */
  function RespondStream(chain: seq<Interceptor>, start: Context, sig: Signature, inner: StreamInner, params: nat)
    : Result<seq<Item>, CallError>
  {
    match BeforeChain(chain, start, Any(sig.request, params))
    case Err(e) => Err(e)
    case Ok((_, req)) =>
      if req.typeId != sig.request then Err(RequestTypeChanged)
      else
        match inner(req.value)
        case Err(e) => Err(e)
        case Ok(items) => Ok(WrapStream(chain, start, sig, items))
  }

  function StreamTrace(chain: seq<Interceptor>, start: Context, sig: Signature, inner: StreamInner, params: nat)
    : seq<Call>
  {
    match BeforeChain(chain, start, Any(sig.request, params))
    case Err(_) => Befores(BeforeCalls(chain, start, Any(sig.request, params)))
    case Ok((_, req)) =>
      if req.typeId != sig.request then Befores(|chain|)
      else
        Befores(|chain|) + [InnerCall] +
        match inner(req.value) case Err(_) => [] case Ok(items) => StreamCalls(chain, start, sig, items)
  }

  lemma OneMoreItem(chain: seq<Interceptor>, ctx: Context, sig: Signature, items: seq<Item>, i: nat)
    requires i < |items|
    ensures WrapStream(chain, ctx, sig, items[..i + 1])
         == WrapStream(chain, ctx, sig, items[..i]) + [WrapItem(chain, ctx, sig, items[i])]
    ensures StreamCalls(chain, ctx, sig, items[..i + 1])
         == StreamCalls(chain, ctx, sig, items[..i]) + ItemCalls(chain, ctx, sig, items[i])
  {
    assert items[..i + 1][..i] == items[..i];
  }

  /** `wrap_stream`, read to its end. */
  method ReadWrapped(chain: seq<Interceptor>, ctx: Context, sig: Signature, items: seq<Item>)
    returns (r: seq<Item>, calls: seq<Call>)
    ensures r == WrapStream(chain, ctx, sig, items)
    ensures calls == StreamCalls(chain, ctx, sig, items)
  {
    r, calls := [], [];
    var i := 0;
    while i < |items|
      invariant 0 <= i <= |items|
      invariant r == WrapStream(chain, ctx, sig, items[..i])
      invariant calls == StreamCalls(chain, ctx, sig, items[..i])
    {
      OneMoreItem(chain, ctx, sig, items, i);
      match items[i] {
        case Err(e) => r := r + [Err(e)];
        case Ok(v) =>
          var event, made := ApplyStreamAfter(chain, ctx, sig, v);
          r, calls := r + [event], calls + made;
      }
      i := i + 1;
    }
    assert items[..i] == items;
  }

  /**
   A streaming handler method. The befores run as for any other; an error of the inner handler is
   returned at once, past all afters. The events of a stream meet the afters one by one, each with
   the context of a new call rather than the one the befores have changed.
   */
  method HandleStream(chain: seq<Interceptor>, start: Context, sig: Signature, inner: StreamInner, params: nat)
    returns (r: Result<seq<Item>, CallError>, calls: seq<Call>)
    ensures r == RespondStream(chain, start, sig, inner, params)
    ensures calls == StreamTrace(chain, start, sig, inner, params)
  {
    var before, made := RunBeforeTyped(chain, start, sig, params);
    match before {
      case Err(e) => return Err(e), made;
      case Ok((_, value)) =>
        made := made + [InnerCall];
        match inner(value) {
          case Err(e) => return Err(e), made;
          case Ok(items) =>
            var wrapped, unwound := ReadWrapped(chain, start, sig, items);
            r, calls := Ok(wrapped), made + unwound;
        }
    }
  }

  // ---- Which calls show an inner error to the afters ---------------------------------------

  /** The methods of `RequestHandler`. */
  datatype Method =
    | MessageSend | MessageStream | GetTask | CancelTask | SubscribeToTask | CreatePushConfig
    | GetPushConfig | ListPushConfigs | DeletePushConfig | ListTasks | GetExtendedAgentCard
  {
    predicate Streams() { MessageStream? || SubscribeToTask? }
  }

  /** The calls of a method whose inner handler fails on everything. */
  function TraceOnError(m: Method, chain: seq<Interceptor>, start: Context, sig: Signature, e: CallError, params: nat)
    : seq<Call>
  {
    if m.Streams() then StreamTrace(chain, start, sig, _ => Err(e), params)
    else UnaryTrace(chain, start, sig, _ => Err(e), params)
  }

  /**
   An inner error is seen by an after, and then by the last attached one first, exactly if the method
   does not stream and has an interceptor at all.
   */
  lemma InnerErrorReachesAftersIff(
    m: Method, chain: seq<Interceptor>, start: Context, sig: Signature, e: CallError, params: nat)
    requires var before := BeforeChain(chain, start, Any(sig.request, params));
             before.Ok? && before.value.1.typeId == sig.request
    ensures var calls := TraceOnError(m, chain, start, sig, e, params);
            && ((exists i :: After(i) in calls) <==> !m.Streams() && chain != [])
            && (!m.Streams() && chain != [] ==> calls[|chain| + 1] == After(|chain| - 1))
            && calls[..|chain| + 1] == Befores(|chain|) + [InnerCall]
  {
    var calls := TraceOnError(m, chain, start, sig, e, params);
    assert calls[..|chain| + 1] == Befores(|chain|) + [InnerCall];
    if !m.Streams() && chain != [] {
      assert calls[|chain| + 1] == After(|chain| - 1);
    }
  }

  /**
   The inner handler is called exactly if every before succeeds and the request still has the method's
   type: once, after all befores, and on what they left; otherwise no after runs either.
   */
  lemma InnerCalledIff(chain: seq<Interceptor>, start: Context, sig: Signature, inner: Inner, params: nat)
    ensures var before, calls := BeforeChain(chain, start, Any(sig.request, params)),
                                 UnaryTrace(chain, start, sig, inner, params);
            && (InnerCall in calls <==> before.Ok? && before.value.1.typeId == sig.request)
            && (forall k :: 0 <= k < |calls| && calls[k] == InnerCall ==> k == |chain|)
            && (InnerCall !in calls ==>
                  Respond(chain, start, sig, inner, params) ==
                    (if before.Err? then Err(before.error) else Err(RequestTypeChanged))
                  && forall i :: After(i) !in calls)
  {
    var calls := UnaryTrace(chain, start, sig, inner, params);
    var before := BeforeChain(chain, start, Any(sig.request, params));
    if before.Ok? && before.value.1.typeId == sig.request { assert calls[|chain|] == InnerCall; }
  }

  // ---- Composition -------------------------------------------------------------------------

  /** What a before did, without the context. */
  function Outcome(r: Result<(Context, Any), CallError>): Result<Any, CallError> {
    match r case Ok((_, req)) => Ok(req) case Err(e) => Err(e)
  }

  ghost predicate IgnoresContext(i: Interceptor) {
    && (forall c, d, req :: Outcome(i.before(c, req)) == Outcome(i.before(d, req)))
    && (forall c, d, resp :: i.after(c, resp) == i.after(d, resp))
  }

  /** Exactly one of payload and error is set, and the payload has the method's type. */
  predicate WellFormed(resp: Response, sig: Signature) {
    match resp
    case Response(Some(p), None) => p.typeId == sig.response
    case Response(None, Some(_)) => true
    case _ => false
  }

  ghost predicate KeepsResponses(i: Interceptor, sig: Signature) {
    forall c, resp :: WellFormed(resp, sig) && i.after(c, resp).Ok? ==> WellFormed(i.after(c, resp).value, sig)
  }

  ghost predicate NeverFails(i: Interceptor, sig: Signature) {
    && (forall c, req: Any :: req.typeId == sig.request ==>
          i.before(c, req).Ok? && i.before(c, req).value.1.typeId == sig.request)
    && (forall c, resp :: i.after(c, resp).Ok?)
  }

  lemma {:induction false} BeforeConcat(a: seq<Interceptor>, b: seq<Interceptor>, ctx: Context, req: Any)
    ensures BeforeChain(a + b, ctx, req) ==
            match BeforeChain(a, ctx, req) case Err(e) => Err(e) case Ok((c, r)) => BeforeChain(b, c, r)
    decreases |b|
  {
    if b == [] {
      assert a + b == a;
    } else {
      var init := b[..|b| - 1];
      assert (a + b)[..|a + b| - 1] == a + init;
      BeforeConcat(a, init, ctx, req);
    }
  }

  lemma {:induction false} AfterConcat(a: seq<Interceptor>, b: seq<Interceptor>, ctx: Context, resp: Response)
    ensures AfterChain(a + b, ctx, resp) ==
            match AfterChain(b, ctx, resp) case Err(e) => Err(e) case Ok(r) => AfterChain(a, ctx, r)
    decreases |b|
  {
    if b == [] {
      assert a + b == a;
    } else {
      var init, last := b[..|b| - 1], b[|b| - 1];
      assert (a + b)[..|a + b| - 1] == a + init;
      if last.after(ctx, resp).Ok? {
        AfterConcat(a, init, ctx, last.after(ctx, resp).value);
      }
    }
  }

  lemma {:induction false} BeforeBlind(chain: seq<Interceptor>, c: Context, d: Context, req: Any)
    requires forall i :: 0 <= i < |chain| ==> IgnoresContext(chain[i])
    ensures Outcome(BeforeChain(chain, c, req)) == Outcome(BeforeChain(chain, d, req))
  {
    if chain != [] {
      BeforeBlind(chain[..|chain| - 1], c, d, req);
      assert IgnoresContext(chain[|chain| - 1]);
    }
  }

  lemma {:induction false} AfterBlind(chain: seq<Interceptor>, c: Context, d: Context, resp: Response)
    requires forall i :: 0 <= i < |chain| ==> IgnoresContext(chain[i])
    ensures AfterChain(chain, c, resp) == AfterChain(chain, d, resp)
  {
    if chain != [] {
      assert IgnoresContext(chain[|chain| - 1]);
      var r := chain[|chain| - 1].after(c, resp);
      if r.Ok? { AfterBlind(chain[..|chain| - 1], c, d, r.value); }
    }
  }

  lemma {:induction false} BeforeNeverFails(chain: seq<Interceptor>, ctx: Context, sig: Signature, params: nat)
    requires forall i :: 0 <= i < |chain| ==> NeverFails(chain[i], sig)
    ensures var r := BeforeChain(chain, ctx, Any(sig.request, params));
            r.Ok? && r.value.1.typeId == sig.request
  {
    if chain != [] {
      BeforeNeverFails(chain[..|chain| - 1], ctx, sig, params);
      assert NeverFails(chain[|chain| - 1], sig);
    }
  }

  lemma {:induction false} AfterKeeps(chain: seq<Interceptor>, ctx: Context, sig: Signature, resp: Response)
    requires forall i :: 0 <= i < |chain| ==> KeepsResponses(chain[i], sig)
    requires WellFormed(resp, sig)
    ensures AfterChain(chain, ctx, resp).Ok? ==> WellFormed(AfterChain(chain, ctx, resp).value, sig)
  {
    if chain != [] {
      assert KeepsResponses(chain[|chain| - 1], sig);
      var r := chain[|chain| - 1].after(ctx, resp);
      if r.Ok? { AfterKeeps(chain[..|chain| - 1], ctx, sig, r.value); }
    }
  }

  /**
   The interceptor attached first has the last word: what its after makes of what the others left is
   the answer, an error whatever the payload, a payload only if it is there and of the method's type.
   */
  lemma FirstAttachedDecides(chain: seq<Interceptor>, start: Context, sig: Signature, inner: Inner, params: nat,
                             ctx: Context, passed: nat, left: Response)
    requires chain != [] && BeforeChain(chain, start, Any(sig.request, params)) == Ok((ctx, Any(sig.request, passed)))
    requires AfterChain(chain[1..], ctx, FromResult(inner(passed), sig)) == Ok(left)
    ensures var r := Respond(chain, start, sig, inner, params);
            match chain[0].after(ctx, left)
            case Err(e) => r == Err(e)
            case Ok(last) =>
              && (last.err.Some? ==> r == Err(last.err.value))
              && (last.err.None? && last.payload.None? ==> r == Err(NoResponse))
              && (last.err.None? && last.payload.Some? ==>
                    r == if last.payload.value.typeId == sig.response then Ok(last.payload.value.value)
                         else Err(ResponseTypeChanged))
  {
    assert chain == [chain[0]] + chain[1..];
    AfterConcat([chain[0]], chain[1..], ctx, FromResult(inner(passed), sig));
    AfterAlone(chain[0], ctx, left);
  }

  lemma AfterAlone(i: Interceptor, ctx: Context, resp: Response)
    ensures AfterChain([i], ctx, resp) == i.after(ctx, resp)
  {
    assert [i][..0] == [];
  }

  // ---- The context of stream events --------------------------------------------------------

  /** The interceptors treat responses the same, whatever they do to requests and contexts. */
  ghost predicate SameAfters(a: seq<Interceptor>, b: seq<Interceptor>) {
    |a| == |b| && forall i, ctx, resp :: 0 <= i < |a| ==> a[i].after(ctx, resp) == b[i].after(ctx, resp)
  }

  lemma {:induction false} SameAfterChain(a: seq<Interceptor>, b: seq<Interceptor>, ctx: Context, resp: Response)
    requires SameAfters(a, b)
    ensures AfterChain(a, ctx, resp) == AfterChain(b, ctx, resp)
  {
    if a != [] {
      var r := a[|a| - 1].after(ctx, resp);
      assert r == b[|b| - 1].after(ctx, resp);
      if r.Ok? {
        assert SameAfters(a[..|a| - 1], b[..|b| - 1]);
        SameAfterChain(a[..|a| - 1], b[..|b| - 1], ctx, r.value);
      }
    }
  }

  lemma {:induction false} SameWrapStream(
    a: seq<Interceptor>, b: seq<Interceptor>, ctx: Context, sig: Signature, items: seq<Item>)
    requires SameAfters(a, b)
    ensures WrapStream(a, ctx, sig, items) == WrapStream(b, ctx, sig, items)
  {
    if items != [] {
      SameWrapStream(a, b, ctx, sig, items[..|items| - 1]);
      var last := items[|items| - 1];
      if last.Ok? { SameAfterChain(a, b, ctx, FromResult(Ok(last.value), sig)); }
    }
  }

  /** What the befores put into the context never reaches the afters of a stream's events. */
  lemma StreamsForgetTheContext(a: seq<Interceptor>, b: seq<Interceptor>, start: Context, sig: Signature,
                                inner: StreamInner, params: nat)
    requires SameAfters(a, b)
    requires Outcome(BeforeChain(a, start, Any(sig.request, params))) ==
             Outcome(BeforeChain(b, start, Any(sig.request, params)))
    ensures RespondStream(a, start, sig, inner, params) == RespondStream(b, start, sig, inner, params)
  {
    var before := BeforeChain(a, start, Any(sig.request, params));
    if before.Ok? && before.value.1.typeId == sig.request && inner(before.value.1.value).Ok? {
      SameWrapStream(a, b, start, sig, inner(before.value.1.value).value);
    }
  }

  /** How a chain itself ends a call early, as opposed to passing on what the inner handler returned. */
  function OwnFailure(chain: seq<Interceptor>, ctx: Context, sig: Signature, inner: Inner, params: nat)
    : Option<CallError>
  {
    match BeforeChain(chain, ctx, Any(sig.request, params))
    case Err(e) => Some(e)
    case Ok((c, req)) =>
      if req.typeId != sig.request then Some(RequestTypeChanged)
      else
        match AfterChain(chain, c, FromResult(inner(req.value), sig))
        case Err(e) => Some(e)
        case Ok(_) => None
  }

  /** The chain's afters turn this failure, if there is one, into itself. */
  predicate LeavesAsIs(chain: seq<Interceptor>, ctx: Context, sig: Signature, failure: Option<CallError>) {
    match failure
    case None => true
    case Some(e) => Finish(AfterChain(chain, ctx, FromResult(Err(e), sig)), sig) == Err(e)
  }

  /**
   One handler with the list a + b against a handler with a around a handler with b, for interceptors
   that ignore the context and keep responses well-formed, a's never failing. The two agree on a call
   exactly if b does not fail on it, or a's afters leave b's failure as it is: nested, they see it as
   the inner handler's error; flat, they are skipped.
   */
  lemma CompositionIff(a: seq<Interceptor>, b: seq<Interceptor>, ctx: Context, sig: Signature,
                       inner: Inner, params: nat, passed: nat)
    requires forall i :: 0 <= i < |a| ==> IgnoresContext(a[i]) && KeepsResponses(a[i], sig) && NeverFails(a[i], sig)
    requires forall i :: 0 <= i < |b| ==> IgnoresContext(b[i]) && KeepsResponses(b[i], sig)
    requires Outcome(BeforeChain(a, ctx, Any(sig.request, params))) == Ok(Any(sig.request, passed))
    ensures Respond(a + b, ctx, sig, inner, params)
         == Respond(a, ctx, sig, (p: nat) => Respond(b, ctx, sig, inner, p), params)
       <==> LeavesAsIs(a, ctx, sig, OwnFailure(b, ctx, sig, inner, passed))
  {
    var nested := (p: nat) => Respond(b, ctx, sig, inner, p);
    var c := BeforeChain(a, ctx, Any(sig.request, params)).value.0;
    BeforeConcat(a, b, ctx, Any(sig.request, params));
    BeforeBlind(b, c, ctx, Any(sig.request, passed));
    var bResult := nested(passed);
    AfterBlind(a, c, ctx, FromResult(bResult, sig));
    assert Respond(a, ctx, sig, nested, params) == Finish(AfterChain(a, ctx, FromResult(bResult, sig)), sig);
    var before := BeforeChain(b, c, Any(sig.request, passed));
    if before.Ok? && before.value.1.typeId == sig.request {
      var resp := FromResult(inner(before.value.1.value), sig);
      var d := before.value.0;
      AfterConcat(a, b, d, resp);
      AfterBlind(b, d, BeforeChain(b, ctx, Any(sig.request, passed)).value.0, resp);
      AfterKeeps(b, d, sig, resp);
      var unwound := AfterChain(b, d, resp);
      if unwound.Ok? {
        AfterBlind(a, d, ctx, unwound.value);
        assert FromResult(Finish(unwound, sig), sig) == unwound.value;
      }
    }
  }

  /** In particular the onion composes whenever nothing fails. */
  lemma OnionComposes(a: seq<Interceptor>, b: seq<Interceptor>, ctx: Context, sig: Signature,
                      inner: Inner, params: nat)
    requires forall i :: 0 <= i < |a| ==> IgnoresContext(a[i]) && KeepsResponses(a[i], sig) && NeverFails(a[i], sig)
    requires forall i :: 0 <= i < |b| ==> IgnoresContext(b[i]) && KeepsResponses(b[i], sig) && NeverFails(b[i], sig)
    ensures Respond(a + b, ctx, sig, inner, params)
         == Respond(a, ctx, sig, (p: nat) => Respond(b, ctx, sig, inner, p), params)
  {
    BeforeNeverFails(a, ctx, sig, params);
    var passed := BeforeChain(a, ctx, Any(sig.request, params)).value.1.value;
    BeforeNeverFails(b, ctx, sig, passed);
    var (d, req) := BeforeChain(b, ctx, Any(sig.request, passed)).value;
    AfterNeverFails(b, d, sig, FromResult(inner(req.value), sig));
    CompositionIff(a, b, ctx, sig, inner, params, passed);
  }

  lemma {:induction false} AfterNeverFails(chain: seq<Interceptor>, ctx: Context, sig: Signature, resp: Response)
    requires forall i :: 0 <= i < |chain| ==> NeverFails(chain[i], sig)
    ensures AfterChain(chain, ctx, resp).Ok?
  {
    if chain != [] {
      assert NeverFails(chain[|chain| - 1], sig);
      AfterNeverFails(chain[..|chain| - 1], ctx, sig, chain[|chain| - 1].after(ctx, resp).value);
    }
  }
}
