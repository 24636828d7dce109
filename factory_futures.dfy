/** The construction futures of the factory combinators as objects: each
    `new_service`, `new_middleware` or `new_reducer` of a combinator creates the
    futures of its two parts and a join future over them with an empty cache.
    Polling the result follows the combinator's script (`Join.PollsFollowJoinScript`). */
module FactoryFutures {
  import opened Middlewares
  import opened Streams
  import opened Join
  import opened Factories

  /** `NewServiceWrapper::new_service(h)`: a `WrappedServiceFuture` over the service
      factory's and the middleware factory's futures, both asked with `h`. */
  method NewServiceWrapperNewService<H, V, E, D>(s: NewService<H, V, E, D>, m: NewMiddleware<H, V, E, D>, h: H)
    returns (j: JoinFuture<Service<V, E, D>, Middleware<V, E, D>, Service<V, E, D>>)
    ensures fresh(j) && fresh(j.left) && fresh(j.right)
    ensures j.Valid() && j.State() == Start()
    ensures j.left.script == ServiceScript(s, h) && j.right.script == MiddlewareScript(m, h)
    ensures j.combine == WrapWith
    ensures JoinScript(j.left.script, j.right.script, j.combine) == ServiceScript(s.Wrap(m), h)
  {
    var left := new ScriptedFuture(ServiceScript(s, h));
    var right := new ScriptedFuture(MiddlewareScript(m, h));
    j := new JoinFuture(left, right, WrapWith);
  }

  /** `NewMiddlewareChain::new_middleware(h)`: a `ChainedMiddlewareFuture` over the
      inner and outer factories' futures, both asked with `h`. */
  method NewMiddlewareChainNewMiddleware<H, V, E, D>(inner: NewMiddleware<H, V, E, D>, outer: NewMiddleware<H, V, E, D>, h: H)
    returns (j: JoinFuture<Middleware<V, E, D>, Middleware<V, E, D>, Middleware<V, E, D>>)
    ensures fresh(j) && fresh(j.left) && fresh(j.right)
    ensures j.Valid() && j.State() == Start()
    ensures j.left.script == MiddlewareScript(inner, h) && j.right.script == MiddlewareScript(outer, h)
    ensures j.combine == ChainWith
    ensures JoinScript(j.left.script, j.right.script, j.combine) == MiddlewareScript(inner.Chain(outer), h)
  {
    var left := new ScriptedFuture(MiddlewareScript(inner, h));
    var right := new ScriptedFuture(MiddlewareScript(outer, h));
    j := new JoinFuture(left, right, ChainWith);
  }

  /** `NewStreamServiceWrapper::new_service(h)`: a `WrappedStreamServiceFuture`;
      only the service factory is given `h`. */
  method NewStreamServiceWrapperNewService<H, V, E>(s: NewStreamService<H, V, E>, m: NewStreamMiddleware<V, E>, h: H)
    returns (j: JoinFuture<StreamService<V, E>, StreamMiddleware<V, E>, StreamService<V, E>>)
    ensures fresh(j) && fresh(j.left) && fresh(j.right)
    ensures j.Valid() && j.State() == Start()
    ensures j.left.script == StreamServiceScript(s, h) && j.right.script == StreamMiddlewareScript(m)
    ensures j.combine == StreamWrapWith
    ensures JoinScript(j.left.script, j.right.script, j.combine) == StreamServiceScript(s.Wrap(m), h)
  {
    var left := new ScriptedFuture(StreamServiceScript(s, h));
    var right := new ScriptedFuture(StreamMiddlewareScript(m));
    j := new JoinFuture(left, right, StreamWrapWith);
  }

  /** `NewStreamMiddlewareChain::new_middleware()`: a
      `ChainedStreamMiddlewareFuture` over the inner and outer factories' futures. */
  method NewStreamMiddlewareChainNewMiddleware<V, E>(inner: NewStreamMiddleware<V, E>, outer: NewStreamMiddleware<V, E>)
    returns (j: JoinFuture<StreamMiddleware<V, E>, StreamMiddleware<V, E>, StreamMiddleware<V, E>>)
    ensures fresh(j) && fresh(j.left) && fresh(j.right)
    ensures j.Valid() && j.State() == Start()
    ensures j.left.script == StreamMiddlewareScript(inner) && j.right.script == StreamMiddlewareScript(outer)
    ensures j.combine == StreamChainWith
    ensures JoinScript(j.left.script, j.right.script, j.combine) == StreamMiddlewareScript(inner.Chain(outer))
  {
    var left := new ScriptedFuture(StreamMiddlewareScript(inner));
    var right := new ScriptedFuture(StreamMiddlewareScript(outer));
    j := new JoinFuture(left, right, StreamChainWith);
  }

  /** `NewStreamMiddlewareReduceChain::new_reducer()`: a
      `ReducedStreamMiddlewareFuture`, the middleware factory's future on the left. */
  method NewStreamMiddlewareReduceChainNewReducer<V, E, D>(m: NewStreamMiddleware<V, E>, r: NewStreamReduce<V, E, D>)
    returns (j: JoinFuture<StreamMiddleware<V, E>, StreamReducer<V, E, D>, StreamReducer<V, E, D>>)
    ensures fresh(j) && fresh(j.left) && fresh(j.right)
    ensures j.Valid() && j.State() == Start()
    ensures j.left.script == StreamMiddlewareScript(m) && j.right.script == ReducerScript(r)
    ensures j.combine == ThenReduceWith
    ensures JoinScript(j.left.script, j.right.script, j.combine) == ReducerScript(m.ThenReduce(r))
  {
    var left := new ScriptedFuture(StreamMiddlewareScript(m));
    var right := new ScriptedFuture(ReducerScript(r));
    j := new JoinFuture(left, right, ThenReduceWith);
  }

  /** `NewStreamServiceReducer::new_service(h)`: a `ReducedStreamServiceFuture`;
      the stream service factory is given `h`, the reducer factory nothing. */
  method NewStreamServiceReducerNewService<H, V, E, D>(s: NewStreamService<H, V, E>, r: NewStreamReduce<V, E, D>, h: H)
    returns (j: JoinFuture<StreamService<V, E>, StreamReducer<V, E, D>, Service<V, E, D>>)
    ensures fresh(j) && fresh(j.left) && fresh(j.right)
    ensures j.Valid() && j.State() == Start()
    ensures j.left.script == StreamServiceScript(s, h) && j.right.script == ReducerScript(r)
    ensures j.combine == ReduceWith
    ensures JoinScript(j.left.script, j.right.script, j.combine) == ServiceScript(s.Reduce(r), h)
  {
    var left := new ScriptedFuture(StreamServiceScript(s, h));
    var right := new ScriptedFuture(ReducerScript(r));
    j := new JoinFuture(left, right, ReduceWith);
    assert s.Reduce(r) == NewStreamServiceReducer(s, r);
  }

  /** `NewStreamReduceMiddlewareChain::new_reducer()`: a `ChainedStreamReduceFuture`,
      the reducer factory's future on the left; the middleware factory is asked
      with the unit handle. */
  method NewStreamReduceMiddlewareChainNewReducer<V, E, D>(r: NewStreamReduce<V, E, D>, m: NewMiddleware<(), V, E, D>)
    returns (j: JoinFuture<StreamReducer<V, E, D>, Middleware<V, E, D>, StreamReducer<V, E, D>>)
    ensures fresh(j) && fresh(j.left) && fresh(j.right)
    ensures j.Valid() && j.State() == Start()
    ensures j.left.script == ReducerScript(r) && j.right.script == MiddlewareScript(m, ())
    ensures j.combine == ReduceChainWith
    ensures JoinScript(j.left.script, j.right.script, j.combine) == ReducerScript(r.Chain(m))
  {
    var left := new ScriptedFuture(ReducerScript(r));
    var right := new ScriptedFuture(MiddlewareScript(m, ()));
    j := new JoinFuture(left, right, ReduceChainWith);
  }
}
