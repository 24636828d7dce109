/** The factories of the crate: `NewService` (`src/new_service.rs`),
    `NewMiddleware` (`src/middleware/new_middleware.rs`), `NewStreamService`
    (`src/stream/new_stream_service.rs`), `NewStreamMiddleware`
    (`src/stream/new_middleware.rs`) and `NewStreamReduce`
    (`src/stream/new_reduce.rs`).

    A factory is a value built from closures, smart pointers and the
    combinators `wrap`, `chain` and `reduce`. Asking it for an instance
    (`new_service`, `new_middleware`, `new_reducer`) returns a construction
    future, modelled by its script: what its polls return. A combinator's
    future is the join of its two parts' futures (module `Join`), so its script
    is their `JoinScript` with the combinator's combine function. */
module Factories {
  import opened Outcomes
  import opened Middlewares
  import opened Streams
  import opened Join

  /** What a closure factory's closure returns: a value that `into_future`
      turns into a future. A `Result` becomes a future that is done at its
      first poll; a future stays itself. */
  datatype IntoFuture<T> = Immediate(result: Result<T, IoError>) | Deferred(future: Script<T>)

  /** The script of `into_future()`. */
  function IntoFutureScript<T>(x: IntoFuture<T>): Script<T>
  {
    match x
    case Immediate(Ok(v)) => [Ready(v)]
    case Immediate(Err(e)) => [Failed(e)]
    case Deferred(s) => s
  }

  /** The smart pointers that forward the factory traits. */
  datatype FactoryPointer = ArcFactory | RcFactory

  /** A `NewService<H>` factory. */
  datatype NewService<!H, !V, !E, !D> =
    | ServiceFn(make: H -> IntoFuture<Service<V, E, D>>)
    | SharedNewService(pointer: FactoryPointer, shared: NewService<H, V, E, D>)
    | NewServiceWrapper(service: NewService<H, V, E, D>, middleware: NewMiddleware<H, V, E, D>)
    | NewStreamServiceReducer(streamService: NewStreamService<H, V, E>, reducer: NewStreamReduce<V, E, D>)
  {
    /** `NewService::wrap`: hands this factory to the middleware factory. */
    function Wrap(m: NewMiddleware<H, V, E, D>): NewService<H, V, E, D>
    {
      m.Wrap(this)
    }
  }

  /** A `NewMiddleware<S, H>` factory. The crate defines no concrete one, so a
      single factory is any function from the handle to a construction
      future. */
  datatype NewMiddleware<!H, !V, !E, !D> =
    | MiddlewareFactory(make: H -> Script<Middleware<V, E, D>>)
    | NewMiddlewareChain(inner: NewMiddleware<H, V, E, D>, outer: NewMiddleware<H, V, E, D>)
  {
    /** `NewMiddleware::wrap`: pairs the service factory with this one. */
    function Wrap(s: NewService<H, V, E, D>): NewService<H, V, E, D>
    {
      NewServiceWrapper(s, this)
    }

    /** `NewMiddleware::chain`: this factory becomes the inner one. */
    function Chain(outer: NewMiddleware<H, V, E, D>): NewMiddleware<H, V, E, D>
    {
      NewMiddlewareChain(this, outer)
    }
  }

  /** A `NewStreamService<H>` factory. */
  datatype NewStreamService<!H, !V, !E> =
    | StreamServiceFn(make: H -> IntoFuture<StreamService<V, E>>)
    | SharedNewStreamService(pointer: FactoryPointer, shared: NewStreamService<H, V, E>)
    | NewStreamServiceWrapper(service: NewStreamService<H, V, E>, middleware: NewStreamMiddleware<V, E>)
  {
    /** `NewStreamService::wrap`: hands this factory to the middleware factory. */
    function Wrap(m: NewStreamMiddleware<V, E>): NewStreamService<H, V, E>
    {
      m.Wrap(this)
    }

    /** `NewStreamService::reduce`: hands this factory to the reducer factory. */
    function Reduce<D>(r: NewStreamReduce<V, E, D>): NewService<H, V, E, D>
    {
      r.Reduce(this)
    }
  }

  /** A `NewStreamMiddleware<S>` factory; `new_middleware` takes no handle. */
  datatype NewStreamMiddleware<!V, !E> =
    | StreamMiddlewareFactory(future: Script<StreamMiddleware<V, E>>)
    | NewStreamMiddlewareChain(inner: NewStreamMiddleware<V, E>, outer: NewStreamMiddleware<V, E>)
  {
    /** `NewStreamMiddleware::wrap`: pairs the service factory with this one. */
    function Wrap<H>(s: NewStreamService<H, V, E>): NewStreamService<H, V, E>
    {
      NewStreamServiceWrapper(s, this)
    }

    /** `NewStreamMiddleware::chain`: this factory becomes the inner one. */
    function Chain(outer: NewStreamMiddleware<V, E>): NewStreamMiddleware<V, E>
    {
      NewStreamMiddlewareChain(this, outer)
    }

    /** `NewStreamMiddleware::reduce`: decorate with this factory's middleware,
        then reduce. */
    function ThenReduce<D>(r: NewStreamReduce<V, E, D>): NewStreamReduce<V, E, D>
    {
      NewStreamMiddlewareReduceChain(this, r)
    }
  }

  /** A `NewStreamReduce<S>` factory; `new_reducer` takes no handle. Its chain
      with a middleware factory asks that factory for a middleware without a
      handle, so the middleware factory's handle type is `()`. */
  datatype NewStreamReduce<!V, !E, !D> =
    | ReducerFactory(future: Script<StreamReducer<V, E, D>>)
    | NewStreamMiddlewareReduceChain(decorator: NewStreamMiddleware<V, E>, reduction: NewStreamReduce<V, E, D>)
    | NewStreamReduceMiddlewareChain(reducer: NewStreamReduce<V, E, D>, middleware: NewMiddleware<(), V, E, D>)
  {
    /** `NewStreamReduce::reduce`: pairs the stream service factory with this
        one, giving a single-response service factory. */
    function Reduce<H>(s: NewStreamService<H, V, E>): NewService<H, V, E, D>
    {
      NewStreamServiceReducer(s, this)
    }

    /** `NewStreamReduce::chain`: wrap the reduced service in `m`'s middleware. */
    function Chain(m: NewMiddleware<(), V, E, D>): NewStreamReduce<V, E, D>
    {
      NewStreamReduceMiddlewareChain(this, m)
    }
  }

  // ---------------------------------------------------------------------------
  // What each join combines its two items into
  // ---------------------------------------------------------------------------

  /** `WrappedServiceFuture`: `service.wrap(middleware)`. */
  function WrapWith<V, E, D>(service: Service<V, E, D>, middleware: Middleware<V, E, D>): Service<V, E, D>
  {
    middleware.Wrap(service)
  }

  /** `ChainedMiddlewareFuture`: `inner.chain(outer)`. */
  function ChainWith<V, E, D>(inner: Middleware<V, E, D>, outer: Middleware<V, E, D>): Middleware<V, E, D>
  {
    inner.Chain(outer)
  }

  /** `WrappedStreamServiceFuture`: `service.wrap(middleware)`. */
  function StreamWrapWith<V, E>(service: StreamService<V, E>, middleware: StreamMiddleware<V, E>): StreamService<V, E>
  {
    service.Wrap(middleware)
  }

  /** `ChainedStreamMiddlewareFuture`: `inner.chain(outer)`. */
  function StreamChainWith<V, E>(inner: StreamMiddleware<V, E>, outer: StreamMiddleware<V, E>): StreamMiddleware<V, E>
  {
    inner.Chain(outer)
  }

  /** `ReducedStreamMiddlewareFuture`: `middleware.reduce(reducer)`. */
  function ThenReduceWith<V, E, D>(middleware: StreamMiddleware<V, E>, reducer: StreamReducer<V, E, D>): StreamReducer<V, E, D>
  {
    middleware.ThenReduce(reducer)
  }

  /** `ReducedStreamServiceFuture`: `service.reduce(reducer)`. */
  function ReduceWith<V, E, D>(service: StreamService<V, E>, reducer: StreamReducer<V, E, D>): Service<V, E, D>
  {
    service.Reduce(reducer)
  }

  /** `ChainedStreamReduceFuture`: `reducer.chain(middleware)`. */
  function ReduceChainWith<V, E, D>(reducer: StreamReducer<V, E, D>, middleware: Middleware<V, E, D>): StreamReducer<V, E, D>
  {
    reducer.Chain(middleware)
  }

  // ---------------------------------------------------------------------------
  // The construction futures
  // ---------------------------------------------------------------------------

  /** The future of `new_service(h)`. A closure factory calls its closure with
      the handle; a pointer forwards; a wrapper joins the service factory's and
      the middleware factory's futures, both asked with the same handle; a
      reducer joins the stream service factory's future, asked with the handle,
      with the reducer factory's future, asked without one. */
  function ServiceScript<H, V, E, D>(s: NewService<H, V, E, D>, h: H): (r: Script<Service<V, E, D>>)
    ensures s.ServiceFn? && s.make(h).Immediate? ==> |r| == 1 && !r[0].NotReady?
    ensures s.NewServiceWrapper? || s.NewStreamServiceReducer? ==> Settled(r)
    ensures s.NewServiceWrapper? ==> |r| <= |ServiceScript(s.service, h)| + |MiddlewareScript(s.middleware, h)|
    ensures s.NewStreamServiceReducer? ==> |r| <= |StreamServiceScript(s.streamService, h)| + |ReducerScript(s.reducer)|
  {
    match s
    case ServiceFn(make) => IntoFutureScript(make(h))
    case SharedNewService(_, inner) => ServiceScript(inner, h)
    case NewServiceWrapper(service, m) => JoinScript(ServiceScript(service, h), MiddlewareScript(m, h), WrapWith)
    case NewStreamServiceReducer(service, r) => JoinScript(StreamServiceScript(service, h), ReducerScript(r), ReduceWith)
  }

  /** The future of `new_middleware(h)`; a chain asks both parts with `h`. */
  function MiddlewareScript<H, V, E, D>(m: NewMiddleware<H, V, E, D>, h: H): (r: Script<Middleware<V, E, D>>)
    ensures m.NewMiddlewareChain? ==> Settled(r)
    ensures m.NewMiddlewareChain? ==> |r| <= |MiddlewareScript(m.inner, h)| + |MiddlewareScript(m.outer, h)|
  {
    match m
    case MiddlewareFactory(make) => make(h)
    case NewMiddlewareChain(inner, outer) => JoinScript(MiddlewareScript(inner, h), MiddlewareScript(outer, h), ChainWith)
  }

  /** The future of a stream service factory's `new_service(h)`; a wrapper asks
      only the service factory with `h`. */
  function StreamServiceScript<H, V, E>(s: NewStreamService<H, V, E>, h: H): (r: Script<StreamService<V, E>>)
    ensures s.StreamServiceFn? && s.make(h).Immediate? ==> |r| == 1 && !r[0].NotReady?
    ensures s.NewStreamServiceWrapper? ==> Settled(r)
    ensures s.NewStreamServiceWrapper? ==> |r| <= |StreamServiceScript(s.service, h)| + |StreamMiddlewareScript(s.middleware)|
  {
    match s
    case StreamServiceFn(make) => IntoFutureScript(make(h))
    case SharedNewStreamService(_, inner) => StreamServiceScript(inner, h)
    case NewStreamServiceWrapper(service, m) =>
      JoinScript(StreamServiceScript(service, h), StreamMiddlewareScript(m), StreamWrapWith)
  }

  /** The future of a stream middleware factory's `new_middleware()`. */
  function StreamMiddlewareScript<V, E>(m: NewStreamMiddleware<V, E>): (r: Script<StreamMiddleware<V, E>>)
    ensures m.NewStreamMiddlewareChain? ==> Settled(r)
    ensures m.NewStreamMiddlewareChain? ==> |r| <= |StreamMiddlewareScript(m.inner)| + |StreamMiddlewareScript(m.outer)|
  {
    match m
    case StreamMiddlewareFactory(future) => future
    case NewStreamMiddlewareChain(inner, outer) =>
      JoinScript(StreamMiddlewareScript(inner), StreamMiddlewareScript(outer), StreamChainWith)
  }

  /** The future of a reducer factory's `new_reducer()`. */
  function ReducerScript<V, E, D>(r: NewStreamReduce<V, E, D>): (rs: Script<StreamReducer<V, E, D>>)
    ensures r.NewStreamMiddlewareReduceChain? || r.NewStreamReduceMiddlewareChain? ==> Settled(rs)
    ensures r.NewStreamMiddlewareReduceChain? ==> |rs| <= |StreamMiddlewareScript(r.decorator)| + |ReducerScript(r.reduction)|
    ensures r.NewStreamReduceMiddlewareChain? ==> |rs| <= |ReducerScript(r.reducer)| + |MiddlewareScript(r.middleware, ())|
  {
    match r
    case ReducerFactory(future) => future
    case NewStreamMiddlewareReduceChain(m, inner) =>
      JoinScript(StreamMiddlewareScript(m), ReducerScript(inner), ThenReduceWith)
    case NewStreamReduceMiddlewareChain(inner, m) =>
      JoinScript(ReducerScript(inner), MiddlewareScript(m, ()), ReduceChainWith)
  }
}
