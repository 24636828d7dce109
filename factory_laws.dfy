/** Laws of the factory combinators, stated on their construction futures:
    regrouping `wrap`, `chain` and `reduce` changes neither when the factory's
    future finishes nor what it yields, pointers forward, and a failure of
    either part's future is the combinator's failure. */
module FactoryLaws {
  import opened Outcomes
  import opened Middlewares
  import opened Streams
  import opened Join
  import opened Factories

  // ---------------------------------------------------------------------------
  // Regrouping
  // ---------------------------------------------------------------------------

  /** Wrapping a service factory twice builds, poll for poll, what wrapping it
      once in the chained middleware factory builds. */
  lemma WrapTwiceIsWrapChain<H, V, E, D>(s: NewService<H, V, E, D>, m1: NewMiddleware<H, V, E, D>,
                                         m2: NewMiddleware<H, V, E, D>, h: H)
    ensures ServiceScript(s.Wrap(m1).Wrap(m2), h) == ServiceScript(s.Wrap(m1.Chain(m2)), h)
  {
    forall a: Service<V, E, D>, b: Middleware<V, E, D>, c: Middleware<V, E, D>
      ensures WrapWith(WrapWith(a, b), c) == WrapWith(a, ChainWith(b, c))
    {
    }
    JoinScriptAssociative(ServiceScript(s, h), MiddlewareScript(m1, h), MiddlewareScript(m2, h),
                          WrapWith, WrapWith, ChainWith, WrapWith);
  }

  /** How three middleware factories are grouped into chains does not change
      the future of the service factory they wrap. */
  lemma ChainGroupingWrapsAlike<H, V, E, D>(s: NewService<H, V, E, D>, m1: NewMiddleware<H, V, E, D>,
                                            m2: NewMiddleware<H, V, E, D>, m3: NewMiddleware<H, V, E, D>, h: H)
    ensures ServiceScript(s.Wrap(m1.Chain(m2).Chain(m3)), h) == ServiceScript(s.Wrap(m1.Chain(m2.Chain(m3))), h)
  {
    calc {
      ServiceScript(s.Wrap(m1.Chain(m2).Chain(m3)), h);
      { WrapTwiceIsWrapChain(s, m1.Chain(m2), m3, h); }
      ServiceScript(s.Wrap(m1.Chain(m2)).Wrap(m3), h);
      { WrapTwiceIsWrapChain(s, m1, m2, h); }
      ServiceScript(s.Wrap(m1).Wrap(m2).Wrap(m3), h);
      { WrapTwiceIsWrapChain(s.Wrap(m1), m2, m3, h); }
      ServiceScript(s.Wrap(m1).Wrap(m2.Chain(m3)), h);
      { WrapTwiceIsWrapChain(s, m1, m2.Chain(m3), h); }
      ServiceScript(s.Wrap(m1.Chain(m2.Chain(m3))), h);
    }
  }

  /** The stream analogue of `WrapTwiceIsWrapChain`. */
  lemma StreamWrapTwiceIsWrapChain<H, V, E>(s: NewStreamService<H, V, E>, m1: NewStreamMiddleware<V, E>,
                                            m2: NewStreamMiddleware<V, E>, h: H)
    ensures StreamServiceScript(s.Wrap(m1).Wrap(m2), h) == StreamServiceScript(s.Wrap(m1.Chain(m2)), h)
  {
    forall a: StreamService<V, E>, b: StreamMiddleware<V, E>, c: StreamMiddleware<V, E>
      ensures StreamWrapWith(StreamWrapWith(a, b), c) == StreamWrapWith(a, StreamChainWith(b, c))
    {
      assert a.Wrap(b.Chain(c)) == b.Chain(c).Wrap(a) == a.Wrap(b).Wrap(c);
    }
    JoinScriptAssociative(StreamServiceScript(s, h), StreamMiddlewareScript(m1), StreamMiddlewareScript(m2),
                          StreamWrapWith, StreamWrapWith, StreamChainWith, StreamWrapWith);
  }

  /** The stream analogue of `ChainGroupingWrapsAlike`. */
  lemma StreamChainGroupingWrapsAlike<H, V, E>(s: NewStreamService<H, V, E>, m1: NewStreamMiddleware<V, E>,
                                               m2: NewStreamMiddleware<V, E>, m3: NewStreamMiddleware<V, E>, h: H)
    ensures StreamServiceScript(s.Wrap(m1.Chain(m2).Chain(m3)), h) ==
            StreamServiceScript(s.Wrap(m1.Chain(m2.Chain(m3))), h)
  {
    calc {
      StreamServiceScript(s.Wrap(m1.Chain(m2).Chain(m3)), h);
      { StreamWrapTwiceIsWrapChain(s, m1.Chain(m2), m3, h); }
      StreamServiceScript(s.Wrap(m1.Chain(m2)).Wrap(m3), h);
      { StreamWrapTwiceIsWrapChain(s, m1, m2, h); }
      StreamServiceScript(s.Wrap(m1).Wrap(m2).Wrap(m3), h);
      { StreamWrapTwiceIsWrapChain(s.Wrap(m1), m2, m3, h); }
      StreamServiceScript(s.Wrap(m1).Wrap(m2.Chain(m3)), h);
      { StreamWrapTwiceIsWrapChain(s, m1, m2.Chain(m3), h); }
      StreamServiceScript(s.Wrap(m1.Chain(m2.Chain(m3))), h);
    }
  }

  /** Wrapping a stream service factory and then reducing it builds what
      reducing it with the middleware-then-reduce factory builds. */
  lemma WrapThenReduceIsThenReduce<H, V, E, D>(s: NewStreamService<H, V, E>, m: NewStreamMiddleware<V, E>,
                                               r: NewStreamReduce<V, E, D>, h: H)
    ensures ServiceScript(s.Wrap(m).Reduce(r), h) == ServiceScript(s.Reduce(m.ThenReduce(r)), h)
  {
    WrapThenReduceCombines<V, E, D>();
    JoinScriptAssociative(StreamServiceScript(s, h), StreamMiddlewareScript(m), ReducerScript(r),
                          StreamWrapWith, ReduceWith, ThenReduceWith, ReduceWith);
  }

  /** Reducing a stream service factory and wrapping the result in a
      middleware factory builds what reducing it with the reduce-then-middleware
      factory builds, provided the middleware factory, asked without a handle,
      has the future it has when asked with `h`. */
  lemma ReduceThenWrapIsReduceChain<H, V, E, D>(s: NewStreamService<H, V, E>, r: NewStreamReduce<V, E, D>,
                                                m: NewMiddleware<H, V, E, D>, unitM: NewMiddleware<(), V, E, D>, h: H)
    requires MiddlewareScript(m, h) == MiddlewareScript(unitM, ())
    ensures ServiceScript(s.Reduce(r).Wrap(m), h) == ServiceScript(s.Reduce(r.Chain(unitM)), h)
  {
    ReduceThenWrapCombines<V, E, D>();
    JoinScriptAssociative(StreamServiceScript(s, h), ReducerScript(r), MiddlewareScript(unitM, ()),
                          ReduceWith, WrapWith, ReduceChainWith, ReduceWith);
  }

  /** The combine identity behind `WrapThenReduceIsThenReduce`. */
  lemma WrapThenReduceCombines<V, E, D>()
    ensures forall a: StreamService<V, E>, b: StreamMiddleware<V, E>, c: StreamReducer<V, E, D> ::
              ReduceWith(StreamWrapWith(a, b), c) == ReduceWith(a, ThenReduceWith(b, c))
  {
    forall a: StreamService<V, E>, b: StreamMiddleware<V, E>, c: StreamReducer<V, E, D>
      ensures ReduceWith(StreamWrapWith(a, b), c) == ReduceWith(a, ThenReduceWith(b, c))
    {
      assert a.Reduce(b.ThenReduce(c)) == b.ThenReduce(c).Reduce(a) == a.Wrap(b).Reduce(c);
    }
  }

  /** The combine identity behind `ReduceThenWrapIsReduceChain`. */
  lemma ReduceThenWrapCombines<V, E, D>()
    ensures forall a: StreamService<V, E>, b: StreamReducer<V, E, D>, c: Middleware<V, E, D> ::
              WrapWith(ReduceWith(a, b), c) == ReduceWith(a, ReduceChainWith(b, c))
  {
    forall a: StreamService<V, E>, b: StreamReducer<V, E, D>, c: Middleware<V, E, D>
      ensures WrapWith(ReduceWith(a, b), c) == ReduceWith(a, ReduceChainWith(b, c))
    {
      assert a.Reduce(b.Chain(c)) == b.Chain(c).Reduce(a) == c.Wrap(a.Reduce(b));
    }
  }

  // ---------------------------------------------------------------------------
  // Pointers
  // ---------------------------------------------------------------------------

  /** A service factory behind a stack of `Arc`/`Rc` pointers, the first one
      outermost. */
  function ShareFactory<H, V, E, D>(ps: seq<FactoryPointer>, s: NewService<H, V, E, D>): NewService<H, V, E, D>
  {
    if ps == [] then s else SharedNewService(ps[0], ShareFactory(ps[1..], s))
  }

  /** Pointers forward `new_service`: the shared factory's future is the
      factory's own. */
  lemma {:induction false} SharedFactoryForwards<H, V, E, D>(ps: seq<FactoryPointer>, s: NewService<H, V, E, D>, h: H)
    ensures ServiceScript(ShareFactory(ps, s), h) == ServiceScript(s, h)
  {
    if ps != [] {
      SharedFactoryForwards(ps[1..], s, h);
    }
  }

  /** A stream service factory behind a stack of `Arc`/`Rc` pointers. */
  function ShareStreamFactory<H, V, E>(ps: seq<FactoryPointer>, s: NewStreamService<H, V, E>): NewStreamService<H, V, E>
  {
    if ps == [] then s else SharedNewStreamService(ps[0], ShareStreamFactory(ps[1..], s))
  }

  /** Pointers forward a stream service factory's `new_service`. */
  lemma {:induction false} SharedStreamFactoryForwards<H, V, E>(ps: seq<FactoryPointer>, s: NewStreamService<H, V, E>, h: H)
    ensures StreamServiceScript(ShareStreamFactory(ps, s), h) == StreamServiceScript(s, h)
  {
    if ps != [] {
      SharedStreamFactoryForwards(ps[1..], s, h);
    }
  }

  // ---------------------------------------------------------------------------
  // Completion and failure of a wrapper's future
  // ---------------------------------------------------------------------------

  /** When the service factory's future is ready at its `n`-th poll with `svc`
      and the middleware factory's at its `k`-th with `mw`, the wrapper's future
      is ready at its `n + k - 1`-th poll with `svc` wrapped in `mw`. */
  lemma WrapperReadyWithWrappedService<H, V, E, D>(s: NewService<H, V, E, D>, m: NewMiddleware<H, V, E, D>, h: H,
                                                   n: nat, svc: Service<V, E, D>, k: nat, mw: Middleware<V, E, D>)
    requires n >= 1 && k >= 1
    requires ServiceScript(s, h) == ReadyAt(n, svc)
    requires MiddlewareScript(m, h) == ReadyAt(k, mw)
    ensures ServiceScript(s.Wrap(m), h) == Pending(n + k - 2) + [Ready(mw.Wrap(svc))]
  {
    JoinScriptOfReady(n, svc, k, mw, WrapWith);
  }

  /** A closure factory whose closure returns `Ok(svc)` has a future that is
      ready at its first poll, so wrapping it in a middleware factory whose
      future is ready at its `k`-th poll gives a future ready at its `k`-th
      poll with the service wrapped in the middleware. */
  lemma ClosureServiceWrapped<H, V, E, D>(make: H -> IntoFuture<Service<V, E, D>>, m: NewMiddleware<H, V, E, D>,
                                          h: H, svc: Service<V, E, D>, k: nat, mw: Middleware<V, E, D>)
    requires make(h) == Immediate(Ok(svc))
    requires k >= 1 && MiddlewareScript(m, h) == ReadyAt(k, mw)
    ensures ServiceScript(ServiceFn(make).Wrap(m), h) == Pending(k - 1) + [Ready(mw.Wrap(svc))]
  {
    assert ServiceScript(ServiceFn(make), h) == ReadyAt(1, svc) by {
      assert Pending<Service<V, E, D>>(0) == [];
    }
    WrapperReadyWithWrappedService(ServiceFn(make), m, h, 1, svc, k, mw);
  }

  /** A closure factory whose closure returns `Err(e)` has a future that fails
      at its first poll, so the wrapper's future fails at its first poll with
      `e`, and the middleware factory's future is never polled. */
  lemma ClosureErrorFailsWrapper<H, V, E, D>(make: H -> IntoFuture<Service<V, E, D>>, m: NewMiddleware<H, V, E, D>,
                                             h: H, e: IoError)
    requires make(h) == Immediate(Err(e))
    ensures ServiceScript(ServiceFn(make).Wrap(m), h) == [Failed(e)]
  {
    assert ServiceScript(ServiceFn(make), h) == Pending(0) + [Failed(e)];
    JoinScriptOfFinished(0, Failed(e), MiddlewareScript(m, h), WrapWith);
  }

  /** When the service factory's future fails after `n` pending polls, the
      wrapper's future fails with the same error at the same poll, whatever the
      middleware factory. */
  lemma WrapperFailsWithService<H, V, E, D>(s: NewService<H, V, E, D>, m: NewMiddleware<H, V, E, D>, h: H,
                                            n: nat, e: IoError)
    requires ServiceScript(s, h) == Pending(n) + [Failed(e)]
    ensures ServiceScript(s.Wrap(m), h) == Pending(n) + [Failed(e)]
  {
    JoinScriptOfFinished(n, Failed(e), MiddlewareScript(m, h), WrapWith);
  }

  /** When the service factory's future is ready at its `n`-th poll and the
      middleware factory's fails after `k` pending polls, the wrapper's future
      fails with the middleware factory's error; the service is dropped. */
  lemma WrapperFailsWithMiddleware<H, V, E, D>(s: NewService<H, V, E, D>, m: NewMiddleware<H, V, E, D>, h: H,
                                               n: nat, svc: Service<V, E, D>, k: nat, e: IoError)
    requires n >= 1
    requires ServiceScript(s, h) == ReadyAt(n, svc)
    requires MiddlewareScript(m, h) == Pending(k) + [Failed(e)]
    ensures ServiceScript(s.Wrap(m), h) == Pending(n - 1 + k) + [Failed(e)]
  {
    JoinScriptOfRightFailure(n, svc, k, e, WrapWith);
  }

  /** When the stream service factory's future is ready at its `n`-th poll and
      the reducer factory's at its `k`-th, the reduced factory's future is ready
      at its `n + k - 1`-th poll with the reduced service. */
  lemma ReducerReadyWithReducedService<H, V, E, D>(s: NewStreamService<H, V, E>, r: NewStreamReduce<V, E, D>, h: H,
                                                   n: nat, svc: StreamService<V, E>, k: nat, red: StreamReducer<V, E, D>)
    requires n >= 1 && k >= 1
    requires StreamServiceScript(s, h) == ReadyAt(n, svc)
    requires ReducerScript(r) == ReadyAt(k, red)
    ensures ServiceScript(s.Reduce(r), h) == Pending(n + k - 2) + [Ready(svc.Reduce(red))]
  {
    JoinScriptOfReady(n, svc, k, red, ReduceWith);
  }
}
