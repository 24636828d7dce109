/** Single-response services and the synchronous middleware algebra of
    `src/middleware.rs`: the three middleware shapes (`Before`, `After`,
    `Around`), the services they build, and `MiddlewareChain`.

    A service is a value; its behaviour is `Call`, which resolves the returned
    future to its `Result`. The composite datatypes use one value type `V` for
    every request and response, `E` for service errors and `D` for the own error
    of a `Before` step; the generic `BeforeCall` and `AfterCall` keep the
    distinct request, response and error types of the source. */
module Middlewares {
  import opened Outcomes

  // ---------------------------------------------------------------------------
  // The call laws of the shapes, at their own types
  // ---------------------------------------------------------------------------

  /** `BeforeService::call`: run `before`, convert its error with `Into`, then
      delegate. The built service takes `before`'s request type `Rq`, answers
      with the wrapped service's response `Rs` and fails with its error `SE`. */
  function BeforeCall<Rq, SRq, Rs, BE, SE>(before: Rq -> Result<SRq, BE>, into: BE -> SE,
                                           service: SRq -> Result<Rs, SE>, req: Rq): (r: Result<Rs, SE>)
    // a failing `before` short-circuits: the outcome does not involve `service`
    ensures before(req).Err? ==> r == Err(into(before(req).error))
    // otherwise the wrapped service answers the translated request
    ensures before(req).Ok? ==> r == service(before(req).value)
  {
    before(req).MapErr(into).AndThen(service)
  }

  /** `AfterService::call`: delegate, then post-process a success. The built
      service takes the wrapped request type `Rq`, answers with `after`'s
      response `ARs` and fails with the wrapped error `SE`. The `map_err(Into::into)`
      of the source converts `SE` into itself, so it is the identity here. */
  function AfterCall<Rq, Rs, ARs, SE>(service: Rq -> Result<Rs, SE>, after: Rs -> Result<ARs, SE>,
                                      req: Rq): (r: Result<ARs, SE>)
    // a failure of the wrapped service is returned unchanged; `after` is not involved
    ensures service(req).Err? ==> r == Err(service(req).error)
    // a success is handed to `after`, whose outcome is the result
    ensures service(req).Ok? ==> r == after(service(req).value)
  {
    service(req).AndThen(after)
  }

  // ---------------------------------------------------------------------------
  // Services and middlewares as values
  // ---------------------------------------------------------------------------

  /** A service value: a base service, or one of the three structs a shape's
      `wrap` builds around the service it is given. */
  datatype Service<!V, !E, !D> =
    | Base(handler: V -> Result<V, E>)
    | BeforeService(before: V -> Result<V, D>, into: D -> E, service: Service<V, E, D>)
    | AfterService(after: V -> Result<V, E>, service: Service<V, E, D>)
    | AroundService(around: (V -> Result<V, E>, V) -> Result<V, E>, service: Service<V, E, D>)

  /** A middleware: one of the three shapes (the three blanket `Middleware`
      impls) or a `MiddlewareChain` of an inner and an outer middleware. */
  datatype Middleware<!V, !E, !D> =
    | Before(before: V -> Result<V, D>, into: D -> E)
    | After(after: V -> Result<V, E>)
    | Around(around: (V -> Result<V, E>, V) -> Result<V, E>)
    | MiddlewareChain(inner: Middleware<V, E, D>, outer: Middleware<V, E, D>)
  {
    /** `Middleware::chain`: this middleware becomes the inner one. */
    function Chain(outer: Middleware<V, E, D>): Middleware<V, E, D>
    {
      MiddlewareChain(this, outer)
    }

    /** `Middleware::wrap`: a shape builds its service struct around `s`; a
        chain wraps `s` in the inner middleware, then the result in the outer. */
    function Wrap(s: Service<V, E, D>): Service<V, E, D>
    {
      match this
      case Before(b, into) => BeforeService(b, into, s)
      case After(a) => AfterService(a, s)
      case Around(f) => AroundService(f, s)
      case MiddlewareChain(inner, outer) => outer.Wrap(inner.Wrap(s))
    }
  }

  /** `Service::call`, with the returned future resolved. */
  function Call<V, E, D>(s: Service<V, E, D>, req: V): (r: Result<V, E>)
    ensures s.BeforeService? && s.before(req).Err? ==> r == Err(s.into(s.before(req).error))
    ensures s.BeforeService? && s.before(req).Ok? ==> r == Call(s.service, s.before(req).value)
    ensures s.AfterService? && Call(s.service, req).Err? ==> r == Call(s.service, req)
    ensures s.AfterService? && Call(s.service, req).Ok? ==> r == s.after(Call(s.service, req).value)
    decreases s, 0
  {
    match s
    case Base(f) => f(req)
    case BeforeService(b, into, inner) => BeforeCall(b, into, Handler(inner), req)
    case AfterService(a, inner) => AfterCall(Handler(inner), a, req)
    case AroundService(f, inner) => f(Handler(inner), req)
  }

  /** A service seen as the function from requests to outcomes. */
  function Handler<V, E, D>(s: Service<V, E, D>): V -> Result<V, E>
    decreases s, 1
  {
    req => Call(s, req)
  }

  // ---------------------------------------------------------------------------
  // The call laws of the wrapped services
  // ---------------------------------------------------------------------------

  /** `AroundService::call(req)` is `around(&service, req)`. */
  lemma AroundLaw<V, E, D>(f: (V -> Result<V, E>, V) -> Result<V, E>, s: Service<V, E, D>, req: V)
    ensures Call(Around(f).Wrap(s), req) == f(Handler(s), req)
  {
  }

  /** A `Before` middleware runs its step first: a failure is converted and
      returned, a success is passed on to the wrapped service. */
  lemma BeforeLaw<V, E, D>(b: V -> Result<V, D>, into: D -> E, s: Service<V, E, D>, req: V)
    ensures b(req).Err? ==> Call(Before(b, into).Wrap(s), req) == Err(into(b(req).error))
    ensures b(req).Ok? ==> Call(Before(b, into).Wrap(s), req) == Call(s, b(req).value)
  {
  }

  /** A `Before` step that fails never reaches the wrapped service: two
      different services give the same outcome. */
  lemma BeforeShortCircuits<V, E, D>(b: V -> Result<V, D>, into: D -> E, s1: Service<V, E, D>,
                                     s2: Service<V, E, D>, req: V)
    requires b(req).Err?
    ensures Call(Before(b, into).Wrap(s1), req) == Call(Before(b, into).Wrap(s2), req)
  {
  }

  /** An `After` middleware only sees successful responses. */
  lemma AfterLaw<V, E, D>(a: V -> Result<V, E>, s: Service<V, E, D>, req: V)
    ensures Call(s, req).Err? ==> Call(After(a).Wrap(s), req) == Call(s, req)
    ensures Call(s, req).Ok? ==> Call(After(a).Wrap(s), req) == a(Call(s, req).value)
  {
  }

  /** When the wrapped service fails, the `after` step is never consulted: two
      different steps give the same outcome. */
  lemma AfterSkippedOnFailure<V, E, D>(a1: V -> Result<V, E>, a2: V -> Result<V, E>,
                                       s: Service<V, E, D>, req: V)
    requires Call(s, req).Err?
    ensures Call(After(a1).Wrap(s), req) == Call(After(a2).Wrap(s), req)
  {
  }

  // ---------------------------------------------------------------------------
  // Chains: call-time order and the equivalent ways of building them
  // ---------------------------------------------------------------------------

  /** In `inner.chain(outer)` of two `Before` middlewares the OUTER step sees the
      request first, and the inner step sees what the outer one produced. */
  lemma BeforeChainOrder<V, E, D>(b1: V -> Result<V, D>, into1: D -> E,
                                  b2: V -> Result<V, D>, into2: D -> E, s: Service<V, E, D>, req: V)
    ensures Call(Before(b1, into1).Chain(Before(b2, into2)).Wrap(s), req) ==
            if b2(req).Err? then Err(into2(b2(req).error))
            else if b1(b2(req).value).Err? then Err(into1(b1(b2(req).value).error))
            else Call(s, b1(b2(req).value).value)
  {
    BeforeLaw(b2, into2, Before(b1, into1).Wrap(s), req);
    if b2(req).Ok? {
      BeforeLaw(b1, into1, s, b2(req).value);
    }
  }

  /** In `inner.chain(outer)` of two `After` middlewares the INNER step sees the
      response first, and the outer step post-processes its result. */
  lemma AfterChainOrder<V, E, D>(a1: V -> Result<V, E>, a2: V -> Result<V, E>, s: Service<V, E, D>, req: V)
    ensures Call(After(a1).Chain(After(a2)).Wrap(s), req) ==
            Call(s, req).AndThen(a1).AndThen(a2)
  {
    AfterLaw(a1, s, req);
    AfterLaw(a2, After(a1).Wrap(s), req);
  }

  /** Chaining is associative: both groupings build the same service. */
  lemma ChainAssociative<V, E, D>(a: Middleware<V, E, D>, b: Middleware<V, E, D>,
                                  c: Middleware<V, E, D>, s: Service<V, E, D>)
    ensures a.Chain(b).Chain(c).Wrap(s) == a.Chain(b.Chain(c)).Wrap(s)
  {
    calc {
      a.Chain(b).Chain(c).Wrap(s);
      c.Wrap(a.Chain(b).Wrap(s));
      c.Wrap(b.Wrap(a.Wrap(s)));
      b.Chain(c).Wrap(a.Wrap(s));
      a.Chain(b.Chain(c)).Wrap(s);
    }
  }

  /** `ms[0].chain(ms[1]).chain(ms[2])...`: the builder form, innermost first. */
  function ChainAll<V, E, D>(ms: seq<Middleware<V, E, D>>): Middleware<V, E, D>
    requires |ms| > 0
  {
    if |ms| == 1 then ms[0] else ChainAll(ms[..|ms| - 1]).Chain(ms[|ms| - 1])
  }

  /** `ms[0].chain(ms[1].chain(ms[2]...))`: the right-nested form. */
  function ChainRight<V, E, D>(ms: seq<Middleware<V, E, D>>): Middleware<V, E, D>
    requires |ms| > 0
  {
    if |ms| == 1 then ms[0] else ms[0].Chain(ChainRight(ms[1..]))
  }

  /** Wrapping by hand, `ms[last].wrap(... ms[0].wrap(s))`: `ms[0]` innermost. */
  function WrapEach<V, E, D>(ms: seq<Middleware<V, E, D>>, s: Service<V, E, D>): Service<V, E, D>
  {
    if ms == [] then s else ms[|ms| - 1].Wrap(WrapEach(ms[..|ms| - 1], s))
  }

  /** Wrapping by hand can start from the innermost middleware. */
  lemma {:induction false} WrapEachInnermostFirst<V, E, D>(ms: seq<Middleware<V, E, D>>, s: Service<V, E, D>)
    requires |ms| > 0
    ensures WrapEach(ms, s) == WrapEach(ms[1..], ms[0].Wrap(s))
  {
    if |ms| > 1 {
      var init := ms[..|ms| - 1];
      WrapEachInnermostFirst(init, s);
      assert init[1..] == ms[1..][..|ms[1..]| - 1];
    }
  }

  /** A chain built with the builder wraps exactly as nesting the wraps does. */
  lemma {:induction false} ChainAllIsWrapEach<V, E, D>(ms: seq<Middleware<V, E, D>>, s: Service<V, E, D>)
    requires |ms| > 0
    ensures ChainAll(ms).Wrap(s) == WrapEach(ms, s)
  {
    if |ms| == 1 {
      assert ms[..0] == [];
    } else {
      ChainAllIsWrapEach(ms[..|ms| - 1], s);
    }
  }

  /** A right-nested chain wraps exactly as nesting the wraps does. */
  lemma {:induction false} ChainRightIsWrapEach<V, E, D>(ms: seq<Middleware<V, E, D>>, s: Service<V, E, D>)
    requires |ms| > 0
    ensures ChainRight(ms).Wrap(s) == WrapEach(ms, s)
  {
    WrapEachInnermostFirst(ms, s);
    if |ms| == 1 {
      assert ms[1..] == [];
    } else {
      ChainRightIsWrapEach(ms[1..], ms[0].Wrap(s));
    }
  }

  /** The `Before` steps of a stack, run from the outermost (last) inwards; the
      first failure stops the run. */
  function Thread<V, D>(steps: seq<V -> Result<V, D>>, req: V): Result<V, D>
  {
    if steps == [] then Ok(req)
    else steps[|steps| - 1](req).AndThen((r: V) => Thread(steps[..|steps| - 1], r))
  }

  /** One `Before` middleware per step, all converting errors with `into`. */
  function Befores<V, E, D>(steps: seq<V -> Result<V, D>>, into: D -> E): seq<Middleware<V, E, D>>
  {
    seq(|steps|, i requires 0 <= i < |steps| => Before(steps[i], into))
  }

  /** A stack of `Before` middlewares transforms the request outermost first and
      calls the base service only if every step succeeded. */
  lemma {:induction false} BeforeStackOrder<V, E, D>(steps: seq<V -> Result<V, D>>, into: D -> E,
                                                     s: Service<V, E, D>, req: V)
    ensures Call(WrapEach(Befores(steps, into), s), req) ==
            match Thread(steps, req)
            case Err(e) => Err(into(e))
            case Ok(r) => Call(s, r)
  {
    if steps != [] {
      var n := |steps|;
      var init := steps[..n - 1];
      assert Befores(steps, into)[..n - 1] == Befores(init, into);
      var rest := WrapEach(Befores(init, into), s);
      BeforeLaw(steps[n - 1], into, rest, req);
      if steps[n - 1](req).Ok? {
        BeforeStackOrder(init, into, s, steps[n - 1](req).value);
      }
    }
  }

  /** The `After` steps of a stack, run from the innermost (first) outwards; the
      first failure stops the run. */
  function Fold<V, E>(steps: seq<V -> Result<V, E>>, resp: Result<V, E>): Result<V, E>
  {
    if steps == [] then resp else Fold(steps[..|steps| - 1], resp).AndThen(steps[|steps| - 1])
  }

  /** One `After` middleware per step. */
  function Afters<V, E, D>(steps: seq<V -> Result<V, E>>): seq<Middleware<V, E, D>>
  {
    seq(|steps|, i requires 0 <= i < |steps| => After(steps[i]))
  }

  /** A stack of `After` middlewares post-processes the base response innermost
      first. */
  lemma {:induction false} AfterStackOrder<V, E, D>(steps: seq<V -> Result<V, E>>, s: Service<V, E, D>, req: V)
    ensures Call(WrapEach(Afters(steps), s), req) == Fold(steps, Call(s, req))
  {
    if steps != [] {
      var n := |steps|;
      var init := steps[..n - 1];
      assert Afters<V, E, D>(steps)[..n - 1] == Afters(init);
      AfterStackOrder(init, s, req);
      AfterLaw(steps[n - 1], WrapEach(Afters<V, E, D>(init), s), req);
    }
  }

  // ---------------------------------------------------------------------------
  // Order made visible: steps that record their position
  // ---------------------------------------------------------------------------

  /** A `Before` step that appends its position `i` to the request. */
  function TagRequest<D>(i: int): seq<int> -> Result<seq<int>, D>
  {
    r => Ok(r + [i])
  }

  /** Steps `0 .. n-1`, step 0 innermost. */
  function RequestTaggers<D>(n: nat): seq<seq<int> -> Result<seq<int>, D>>
  {
    seq(n, i => TagRequest(i))
  }

  /** `n-1, ..., 1, 0`. */
  function Descending(n: nat): (s: seq<int>)
    ensures |s| == n
  {
    if n == 0 then [] else [n - 1] + Descending(n - 1)
  }

  /** With `n` tagging `Before` middlewares wrapped around `s`, the base service
      receives the request tagged outermost first: `n-1, ..., 0`. */
  lemma TaggedBeforesReachBaseOutermostFirst<E, D>(n: nat, into: D -> E, s: Service<seq<int>, E, D>, req: seq<int>)
    ensures Thread(RequestTaggers<D>(n), req) == Ok(req + Descending(n))
    ensures Call(WrapEach(Befores(RequestTaggers<D>(n), into), s), req) == Call(s, req + Descending(n))
  {
    TaggedRequestsThread<D>(n, req);
    BeforeStackOrder(RequestTaggers<D>(n), into, s, req);
  }

  /** The tagging steps, threaded outermost first, append `n-1, ..., 0`. */
  lemma {:induction false} TaggedRequestsThread<D>(n: nat, req: seq<int>)
    ensures Thread(RequestTaggers<D>(n), req) == Ok(req + Descending(n))
  {
    if n > 0 {
      var steps := RequestTaggers<D>(n);
      assert steps[..n - 1] == RequestTaggers<D>(n - 1);
      assert steps[n - 1](req) == Ok(req + [n - 1]);
      TaggedRequestsThread<D>(n - 1, req + [n - 1]);
      calc {
        Thread(steps, req);
        steps[n - 1](req).AndThen((r: seq<int>) => Thread(steps[..n - 1], r));
        Thread(steps[..n - 1], req + [n - 1]);
        Thread(RequestTaggers<D>(n - 1), req + [n - 1]);
        Ok(req + [n - 1] + Descending(n - 1));
        { assert req + [n - 1] + Descending(n - 1) == req + Descending(n); }
        Ok(req + Descending(n));
      }
    } else {
      assert req + Descending(0) == req;
    }
  }

  /** An `After` step that appends its position `i` to the response. */
  function TagResponse<E>(i: int): seq<int> -> Result<seq<int>, E>
  {
    r => Ok(r + [i])
  }

  /** Steps `0 .. n-1`, step 0 innermost. */
  function ResponseTaggers<E>(n: nat): seq<seq<int> -> Result<seq<int>, E>>
  {
    seq(n, i => TagResponse(i))
  }

  /** `0, 1, ..., n-1`. */
  function Ascending(n: nat): (s: seq<int>)
    ensures |s| == n
  {
    if n == 0 then [] else Ascending(n - 1) + [n - 1]
  }

  /** With `n` tagging `After` middlewares wrapped around `s`, a successful
      base response is tagged innermost first, `0, ..., n-1`, and a failure of
      the base service is returned unchanged. */
  lemma TaggedAftersRunInnermostFirst<E, D>(n: nat, s: Service<seq<int>, E, D>, req: seq<int>)
    ensures Call(s, req).Ok? ==>
              Call(WrapEach(Afters<seq<int>, E, D>(ResponseTaggers<E>(n)), s), req) == Ok(Call(s, req).value + Ascending(n))
    ensures Call(s, req).Err? ==>
              Call(WrapEach(Afters<seq<int>, E, D>(ResponseTaggers<E>(n)), s), req) == Call(s, req)
  {
    AfterStackOrder(ResponseTaggers<E>(n), s, req);
    match Call(s, req)
    case Ok(resp) => TaggedResponsesFold<E>(n, resp);
    case Err(e) => FoldPassesFailure(ResponseTaggers<E>(n), e);
  }

  /** A failure reaches the end of the `After` steps unchanged. */
  lemma {:induction false} FoldPassesFailure<V, E>(steps: seq<V -> Result<V, E>>, e: E)
    ensures Fold(steps, Err(e)) == Err(e)
  {
    if steps != [] {
      FoldPassesFailure(steps[..|steps| - 1], e);
    }
  }

  /** The tagging steps, folded innermost first, append `0, ..., n-1`. */
  lemma {:induction false} TaggedResponsesFold<E>(n: nat, resp: seq<int>)
    ensures Fold(ResponseTaggers<E>(n), Ok(resp)) == Ok(resp + Ascending(n))
  {
    if n > 0 {
      var steps := ResponseTaggers<E>(n);
      assert steps[..n - 1] == ResponseTaggers<E>(n - 1);
      TaggedResponsesFold<E>(n - 1, resp);
      calc {
        Fold(steps, Ok(resp));
        Fold(steps[..n - 1], Ok(resp)).AndThen(steps[n - 1]);
        Fold(ResponseTaggers<E>(n - 1), Ok(resp)).AndThen(steps[n - 1]);
        Ok(resp + Ascending(n - 1)).AndThen(steps[n - 1]);
        steps[n - 1](resp + Ascending(n - 1));
        Ok(resp + Ascending(n - 1) + [n - 1]);
        { assert resp + Ascending(n - 1) + [n - 1] == resp + Ascending(n); }
        Ok(resp + Ascending(n));
      }
    } else {
      assert resp + Ascending(0) == resp;
    }
  }
}
