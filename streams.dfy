/** Multi-response services of `src/stream/mod.rs`, the stream middleware
    chains of `src/stream/middleware.rs` and the reducers of
    `src/stream/reduce.rs`, which turn a stream service into a single-response
    service.

    A call of a stream service is modelled by the finished stream it yields: the
    responses in order and, if it ended in failure, the error. No concrete
    stream middleware exists in the source, so a single stream middleware is a
    `Decorator` whose behaviour is an arbitrary function of the service it wraps
    and the request. */
module Streams {
  import opened Outcomes
  import opened Middlewares

  /** A finished stream: its responses, then `None` for normal completion or
      `Some(e)` for the terminal error. */
  datatype Items<V, E> = Items(responses: seq<V>, error: Option<E>)

  /** The smart pointers that forward `StreamService`. */
  datatype Pointer = Boxed | RcPointer | ArcPointer

  /** A stream service value: a base service, one decorated by a stream
      middleware, or one behind a `Box`, `Rc` or `Arc`. */
  datatype StreamService<!V, !E> =
    | StreamBase(handler: V -> Items<V, E>)
    | Decorated(decorate: (V -> Items<V, E>, V) -> Items<V, E>, service: StreamService<V, E>)
    | Shared(pointer: Pointer, service: StreamService<V, E>)
  {
    /** `StreamService::wrap`: hands this service to the middleware. */
    function Wrap(m: StreamMiddleware<V, E>): StreamService<V, E>
      decreases m, 1
    {
      m.Wrap(this)
    }

    /** `StreamService::reduce`: hands this service to the reducer. */
    function Reduce<D>(r: StreamReducer<V, E, D>): Service<V, E, D>
      decreases r, 1
    {
      r.Reduce(this)
    }
  }

  /** A stream middleware: a single decorator, or a `StreamMiddlewareChain`. */
  datatype StreamMiddleware<!V, !E> =
    | Decorator(decorate: (V -> Items<V, E>, V) -> Items<V, E>)
    | StreamMiddlewareChain(inner: StreamMiddleware<V, E>, outer: StreamMiddleware<V, E>)
  {
    /** `StreamMiddleware::chain`: this middleware becomes the inner one. */
    function Chain(outer: StreamMiddleware<V, E>): StreamMiddleware<V, E>
    {
      StreamMiddlewareChain(this, outer)
    }

    /** `StreamMiddleware::reduce`: decorate with this middleware, then reduce. */
    function ThenReduce<D>(r: StreamReducer<V, E, D>): StreamReducer<V, E, D>
    {
      StreamMiddlewareReduceChain(this, r)
    }

    /** `StreamMiddleware::wrap`; a chain is `service.wrap(inner).wrap(outer)`. */
    function Wrap(s: StreamService<V, E>): StreamService<V, E>
      decreases this, 0
    {
      match this
      case Decorator(f) => Decorated(f, s)
      case StreamMiddlewareChain(inner, outer) => s.Wrap(inner).Wrap(outer)
    }
  }

  /** A stream reducer turns a stream service into a single-response `Service`.
      The source defines no concrete reducer, so a single one is an `Aggregate`
      whose result is an arbitrary function of the stream service it reduces
      and the request; the other two shapes are the source's two chains. */
  datatype StreamReducer<!V, !E, !D> =
    | Aggregate(aggregate: (V -> Items<V, E>, V) -> Result<V, E>)
    | StreamMiddlewareReduceChain(decorator: StreamMiddleware<V, E>, reduction: StreamReducer<V, E, D>)
    | StreamReduceMiddlewareChain(reducer: StreamReducer<V, E, D>, middleware: Middleware<V, E, D>)
  {
    /** `StreamReduce::chain`: reduce with this reducer, then wrap in `m`. */
    function Chain(m: Middleware<V, E, D>): StreamReducer<V, E, D>
    {
      StreamReduceMiddlewareChain(this, m)
    }

    /** `StreamReduce::reduce`. A middleware-reduce chain decorates before it
        reduces; a reduce-middleware chain reduces before it wraps. */
    function Reduce(s: StreamService<V, E>): Service<V, E, D>
      decreases this, 0
    {
      match this
      case Aggregate(f) => Base(req => f(StreamHandler(s), req))
      case StreamMiddlewareReduceChain(m, r) => s.Wrap(m).Reduce(r)
      case StreamReduceMiddlewareChain(r, m) => m.Wrap(s.Reduce(r))
    }
  }

  /** `StreamService::call`, with the returned stream run to its end. A pointer
      forwards the call to the service it holds. */
  function StreamCall<V, E>(s: StreamService<V, E>, req: V): Items<V, E>
    decreases s, 0
  {
    match s
    case StreamBase(f) => f(req)
    case Decorated(f, inner) => f(StreamHandler(inner), req)
    case Shared(_, inner) => StreamCall(inner, req)
  }

  /** A stream service seen as the function from requests to streams. */
  function StreamHandler<V, E>(s: StreamService<V, E>): V -> Items<V, E>
    decreases s, 1
  {
    req => StreamCall(s, req)
  }

  // ---------------------------------------------------------------------------
  // Forwarding through smart pointers
  // ---------------------------------------------------------------------------

  /** `s` behind the pointers `ps`, `ps[0]` innermost. */
  function Share<V, E>(ps: seq<Pointer>, s: StreamService<V, E>): StreamService<V, E>
  {
    if ps == [] then s else Shared(ps[|ps| - 1], Share(ps[..|ps| - 1], s))
  }

  /** Any number of `Box`, `Rc` and `Arc` layers forward every call unchanged. */
  lemma {:induction false} SharingForwardsCalls<V, E>(ps: seq<Pointer>, s: StreamService<V, E>, req: V)
    ensures StreamCall(Share(ps, s), req) == StreamCall(s, req)
  {
    if ps != [] {
      SharingForwardsCalls(ps[..|ps| - 1], s, req);
    }
  }

  // ---------------------------------------------------------------------------
  // Chains
  // ---------------------------------------------------------------------------

  /** In `inner.chain(outer)` the inner decorator is applied first: the outer
      one sees the service the inner one built. */
  lemma StreamChainAppliesInnerFirst<V, E>(f1: (V -> Items<V, E>, V) -> Items<V, E>,
                                           f2: (V -> Items<V, E>, V) -> Items<V, E>,
                                           s: StreamService<V, E>, req: V)
    ensures StreamCall(Decorator(f1).Chain(Decorator(f2)).Wrap(s), req) ==
            f2(StreamHandler(Decorated(f1, s)), req)
  {
    calc {
      Decorator(f1).Chain(Decorator(f2)).Wrap(s);
      s.Wrap(Decorator(f1)).Wrap(Decorator(f2));
      Decorator(f2).Wrap(Decorator(f1).Wrap(s));
      Decorated(f2, Decorated(f1, s));
    }
  }

  /** Chaining stream middlewares is associative. */
  lemma StreamChainAssociative<V, E>(a: StreamMiddleware<V, E>, b: StreamMiddleware<V, E>,
                                     c: StreamMiddleware<V, E>, s: StreamService<V, E>)
    ensures a.Chain(b).Chain(c).Wrap(s) == a.Chain(b.Chain(c)).Wrap(s)
  {
    calc {
      a.Chain(b).Chain(c).Wrap(s);
      s.Wrap(a.Chain(b)).Wrap(c);
      s.Wrap(a).Wrap(b).Wrap(c);
      s.Wrap(a).Wrap(b.Chain(c));
      a.Chain(b.Chain(c)).Wrap(s);
    }
  }

  /** `ms[0].chain(ms[1]).chain(ms[2])...`, innermost first. */
  function StreamChainAll<V, E>(ms: seq<StreamMiddleware<V, E>>): StreamMiddleware<V, E>
    requires |ms| > 0
  {
    if |ms| == 1 then ms[0] else StreamChainAll(ms[..|ms| - 1]).Chain(ms[|ms| - 1])
  }

  /** `s.wrap(ms[0]).wrap(ms[1])...`. */
  function StreamWrapEach<V, E>(ms: seq<StreamMiddleware<V, E>>, s: StreamService<V, E>): StreamService<V, E>
  {
    if ms == [] then s else StreamWrapEach(ms[..|ms| - 1], s).Wrap(ms[|ms| - 1])
  }

  /** A chain built with the builder decorates exactly as wrapping one
      middleware after the other does. */
  lemma {:induction false} StreamChainAllIsWrapEach<V, E>(ms: seq<StreamMiddleware<V, E>>, s: StreamService<V, E>)
    requires |ms| > 0
    ensures StreamChainAll(ms).Wrap(s) == StreamWrapEach(ms, s)
  {
    if |ms| == 1 {
      assert ms[..0] == [];
    } else {
      StreamChainAllIsWrapEach(ms[..|ms| - 1], s);
    }
  }

  // ---------------------------------------------------------------------------
  // Reduction
  // ---------------------------------------------------------------------------

  /** A reduced service answers each request with what the reducer makes of the
      stream service it reduced. */
  lemma AggregateLaw<V, E, D>(f: (V -> Items<V, E>, V) -> Result<V, E>, s: StreamService<V, E>, req: V)
    ensures Call(s.Reduce(StreamReducer<V, E, D>.Aggregate(f)), req) == f(StreamHandler(s), req)
  {
    assert s.Reduce(StreamReducer<V, E, D>.Aggregate(f)) == Base(req => f(StreamHandler(s), req));
  }

  /** `middleware.reduce(reducer)` decorates the stream service before the
      reducer sees it. */
  lemma DecorateThenReduce<V, E, D>(g: (V -> Items<V, E>, V) -> Items<V, E>,
                                    f: (V -> Items<V, E>, V) -> Result<V, E>,
                                    s: StreamService<V, E>, req: V)
    ensures Call(s.Reduce(Decorator(g).ThenReduce(StreamReducer<V, E, D>.Aggregate(f))), req) ==
            f(StreamHandler(Decorated(g, s)), req)
  {
    calc {
      s.Reduce(Decorator(g).ThenReduce(StreamReducer<V, E, D>.Aggregate(f)));
      s.Wrap(Decorator(g)).Reduce(StreamReducer<V, E, D>.Aggregate(f));
      Decorated(g, s).Reduce(StreamReducer<V, E, D>.Aggregate(f));
    }
    AggregateLaw<V, E, D>(f, Decorated(g, s), req);
  }

  /** `reducer.chain(before)` reduces first, so the `before` step runs on the
      request before the reduced service is called, and its failure means the
      stream service is never called. */
  lemma ReduceThenBefore<V, E, D>(f: (V -> Items<V, E>, V) -> Result<V, E>,
                                  b: V -> Result<V, D>, into: D -> E,
                                  s: StreamService<V, E>, req: V)
    ensures b(req).Err? ==>
              Call(s.Reduce(Aggregate(f).Chain(Before(b, into))), req) == Err(into(b(req).error))
    ensures b(req).Ok? ==>
              Call(s.Reduce(Aggregate(f).Chain(Before(b, into))), req) == f(StreamHandler(s), b(req).value)
  {
    var reduced := s.Reduce(StreamReducer<V, E, D>.Aggregate(f));
    assert s.Reduce(Aggregate(f).Chain(Before(b, into))) == Before(b, into).Wrap(reduced);
    BeforeLaw(b, into, reduced, req);
    if b(req).Ok? {
      AggregateLaw<V, E, D>(f, s, b(req).value);
    }
  }

  /** `reducer.chain(after)` post-processes the reduced response; a failed
      reduction is passed on unchanged. */
  lemma ReduceThenAfter<V, E, D>(f: (V -> Items<V, E>, V) -> Result<V, E>, a: V -> Result<V, E>,
                                 s: StreamService<V, E>, req: V)
    ensures Call(s.Reduce(StreamReducer<V, E, D>.Aggregate(f).Chain(After(a))), req) ==
            f(StreamHandler(s), req).AndThen(a)
  {
    var reduced := s.Reduce(StreamReducer<V, E, D>.Aggregate(f));
    assert s.Reduce(StreamReducer<V, E, D>.Aggregate(f).Chain(After(a))) == After(a).Wrap(reduced);
    AfterLaw(a, reduced, req);
    AggregateLaw<V, E, D>(f, s, req);
  }

  /** Chaining two middlewares after a reducer one at a time is the same as
      chaining their `MiddlewareChain` once. */
  lemma ReduceChainAssociative<V, E, D>(r: StreamReducer<V, E, D>, m1: Middleware<V, E, D>,
                                        m2: Middleware<V, E, D>, s: StreamService<V, E>)
    ensures s.Reduce(r.Chain(m1).Chain(m2)) == s.Reduce(r.Chain(m1.Chain(m2)))
  {
    calc {
      s.Reduce(r.Chain(m1).Chain(m2));
      m2.Wrap(s.Reduce(r.Chain(m1)));
      m2.Wrap(m1.Wrap(s.Reduce(r)));
      m1.Chain(m2).Wrap(s.Reduce(r));
      s.Reduce(r.Chain(m1.Chain(m2)));
    }
  }

  /** Decorating with two stream middlewares one at a time before reducing is
      the same as decorating with their `StreamMiddlewareChain` once. */
  lemma DecorateChainAssociative<V, E, D>(m1: StreamMiddleware<V, E>, m2: StreamMiddleware<V, E>,
                                          r: StreamReducer<V, E, D>, s: StreamService<V, E>)
    ensures s.Reduce(m1.ThenReduce(m2.ThenReduce(r))) == s.Reduce(m1.Chain(m2).ThenReduce(r))
  {
    calc {
      s.Reduce(m1.ThenReduce(m2.ThenReduce(r)));
      s.Wrap(m1).Reduce(m2.ThenReduce(r));
      s.Wrap(m1).Wrap(m2).Reduce(r);
      s.Wrap(m1.Chain(m2)).Reduce(r);
      s.Reduce(m1.Chain(m2).ThenReduce(r));
    }
  }

  /** Decoration before and wrapping after a reduction commute as builders:
      `m.reduce(r.chain(w))` and `m.reduce(r).chain(w)` build the same service. */
  lemma DecorationAndWrappingCommute<V, E, D>(m: StreamMiddleware<V, E>, r: StreamReducer<V, E, D>,
                                              w: Middleware<V, E, D>, s: StreamService<V, E>)
    ensures s.Reduce(m.ThenReduce(r.Chain(w))) == w.Wrap(s.Wrap(m).Reduce(r))
    ensures s.Reduce(m.ThenReduce(r).Chain(w)) == w.Wrap(s.Wrap(m).Reduce(r))
  {
    calc {
      s.Reduce(m.ThenReduce(r.Chain(w)));
      s.Wrap(m).Reduce(r.Chain(w));
      w.Wrap(s.Wrap(m).Reduce(r));
    }
    calc {
      s.Reduce(m.ThenReduce(r).Chain(w));
      w.Wrap(s.Reduce(m.ThenReduce(r)));
      w.Wrap(s.Wrap(m).Reduce(r));
    }
  }

  /** `r.chain(ms[0]).chain(ms[1])...`. */
  function ReduceChainEach<V, E, D>(r: StreamReducer<V, E, D>, ms: seq<Middleware<V, E, D>>): StreamReducer<V, E, D>
  {
    if ms == [] then r else ReduceChainEach(r, ms[..|ms| - 1]).Chain(ms[|ms| - 1])
  }

  /** Chaining middlewares after a reducer one by one wraps the reduced service
      in them innermost first, exactly as wrapping the reduced service would. */
  lemma {:induction false} ReduceChainEachWrapsReduced<V, E, D>(r: StreamReducer<V, E, D>,
                                                                ms: seq<Middleware<V, E, D>>,
                                                                s: StreamService<V, E>)
    ensures s.Reduce(ReduceChainEach(r, ms)) == WrapEach(ms, s.Reduce(r))
  {
    if ms != [] {
      ReduceChainEachWrapsReduced(r, ms[..|ms| - 1], s);
    }
  }

  /** Decorating with a built chain of stream middlewares before reducing is
      reducing the service decorated one middleware after the other. */
  lemma DecoratedReduction<V, E, D>(ms: seq<StreamMiddleware<V, E>>, r: StreamReducer<V, E, D>,
                                    s: StreamService<V, E>)
    requires |ms| > 0
    ensures s.Reduce(StreamChainAll(ms).ThenReduce(r)) == StreamWrapEach(ms, s).Reduce(r)
  {
    StreamChainAllIsWrapEach(ms, s);
  }
}
