# tokio-service composition core, modelled in Dafny

This project models how the `tokio-service` crate composes services,
middlewares and their factories.

**Services and middlewares** (`middleware.dfy`, module `Middlewares`)
- A service is a value. Calling it with a request gives the resolved `Result` its
  future would resolve to.
- The three middleware shapes are constructors of one datatype, and so is their chain:
  - `Around` hands the whole call to the middleware.
  - `Before` translates the request, converts its own error with `into` and delegates.
  - `After` delegates and post-processes a successful response.
  - `MiddlewareChain` stores the inner and the outer middleware.
- `Wrap` builds the wrapped service exactly as the crate's `wrap` implementations
  do. A chain's `Wrap` is `outer.Wrap(inner.Wrap(s))`.

**Stream services** (`streams.dfy`, module `Streams`)
- A call yields the finite list of its items and an optional error.
- A stream middleware is a decorator or a chain of stream middlewares.
- A reducer has three forms:
  - an aggregation that turns the stream call into a single `Result`;
  - a middleware-then-reduce chain, which decorates first;
  - a reduce-then-middleware chain, which reduces first.
- `StreamService::wrap` and `StreamService::reduce` delegate to the middleware and
  to the reducer. These are the definitions of `Wrap` and `Reduce`.
- `Box`, `Rc` and `Arc` are a `Shared` layer that forwards calls.

**The join poll state machine** (`join.dfy`, module `Join`)
- The crate repeats one state machine seven times, in `WrappedServiceFuture`,
  `ChainedMiddlewareFuture`, `WrappedStreamServiceFuture`,
  `ChainedStreamMiddlewareFuture`, `ReducedStreamMiddlewareFuture`,
  `ReducedStreamServiceFuture` and `ChainedStreamReduceFuture`.
- The model writes it once, generically:
  - `JoinFuture` is a class holding two futures, a combine function and the
    `cached` left item. Its `Poll` updates the fields in place.
  - The two futures are `ScriptedFuture` objects. Each holds a script: the sequence
    of outcomes (`NotReady`, `Ready(item)` or `Failed(io error)`) that its
    successive polls return. A poll past the end of the script is `NotReady`.
  - `Step` states one poll as a function of the state.
  - `Run` states `k` polls from a fresh join.
  - `JoinScript` is the closed form of what a fresh join's polls return.
    `PollsFollowJoinScript` proves that `Run` agrees with it up to the poll that
    finishes the join. `UnfinishedJoinStaysPending` proves that a join that
    never finishes keeps returning `NotReady` however often it is polled.

**Factories** (`factories.dfy`, `factory_futures.dfy`, `factory_laws.dfy`)
- `NewService`, `NewMiddleware`, `NewStreamService`, `NewStreamMiddleware` and
  `NewStreamReduce` are datatypes. Each has the closure factory (or an abstract
  factory), the `Arc`/`Rc` pointers and the combinators as its constructors.
- A factory's `new_*` call is modelled by the script of the future it returns.
- A combinator's script is the `JoinScript` of its two parts' scripts, combined
  with what the crate's `poll` builds once both items are ready.
- `FactoryFutures` builds the actual `JoinFuture` object for each combinator.
  Each object starts with an empty cache, and its parts are asked with the
  handle, or without one, exactly as the crate asks them.

Two consequences of the poll code:
- A join that polled both futures on every poll would finish after `max(n, m)`
  polls when its futures are ready at their `n`-th and `m`-th polls. This code
  polls the right future only from the poll that delivers the left item on, so
  the join finishes after `n + m - 1` polls. `CompletesAfterBothReady` and
  `JoinScriptOfReady` prove this. `NotReadyAfterMaxPolls` proves that the join
  is still pending after `max(n, m)` polls when both futures need at least two.
- The two futures never fail in the same poll. A failed left poll returns before
  the right future is touched (`LeftFailureShortCircuits`).

## Model

| member | source | states |
|---|---|---|
| Middlewares.BeforeCall | src/middleware.rs:85-94 | a `Before` call whose step fails returns the converted step error without calling the service; otherwise it is the service's result on the translated request; the request type is the step's, the response and error types the service's |
| Middlewares.AfterCall | src/middleware.rs:117-126 | an `After` call returns the service's error unchanged, and otherwise `after` applied to the response; the request type is the service's and the error type stays the service's |
| Middlewares.Call | src/middleware.rs:90-126 | a `BeforeService` answers the converted step error when its step fails, and otherwise the inner service's answer to the translated request; an `AfterService` passes the inner service's failure on unchanged, and otherwise answers `after` of the inner response |
| Middlewares.Middleware.Wrap | src/middleware.rs:141-181 | no contract of its own: each shape builds its service struct around the service, and a chain wraps with the inner middleware, then the outer one (src/middleware.rs:136-138); what the wrapped services answer is stated by `AroundLaw`, `BeforeLaw`, `AfterLaw` and `Call` |
| Middlewares.Middleware.Chain | src/middleware.rs:12-21 | no contract of its own: this middleware becomes the inner one and the argument the outer one; the resulting order is stated by `BeforeChainOrder` and `AfterChainOrder`, the grouping by `ChainAssociative` |
| Middlewares.AroundLaw | src/middleware.rs:60-62 | calling an `Around`-wrapped service is `around` applied to the wrapped service and the request |
| Middlewares.BeforeLaw | src/middleware.rs:90-94 | a `Before`-wrapped service returns `into(e)` when the step fails with `e`, and otherwise the wrapped service's result on the translated request |
| Middlewares.BeforeShortCircuits | src/middleware.rs:92 | when the step fails, the result does not depend on the wrapped service |
| Middlewares.AfterLaw | src/middleware.rs:122-126 | an `After`-wrapped service returns the wrapped service's failure unchanged, and otherwise `after` of its response |
| Middlewares.AfterSkippedOnFailure | src/middleware.rs:124-125 | when the wrapped service fails, the result does not depend on `after` |
| Middlewares.BeforeChainOrder | src/middleware.rs:136-138 | in a chain of two `Before` middlewares the outer step sees the request first, either failure stops the call, and the service receives the request as translated by both steps |
| Middlewares.AfterChainOrder | src/middleware.rs:136-138 | in a chain of two `After` middlewares the inner step post-processes the response first and the outer one post-processes its result |
| Middlewares.ChainAssociative | src/middleware.rs:12-21 | both groupings of three chained middlewares build the same wrapped service |
| Middlewares.WrapEachInnermostFirst | src/middleware.rs:136-138 | wrapping a service in a list of middlewares one by one applies the first middleware innermost |
| Middlewares.ChainAllIsWrapEach | src/middleware.rs:12-21 | a left-nested chain of a list of middlewares wraps a service exactly as wrapping it in each middleware in turn does |
| Middlewares.ChainRightIsWrapEach | src/middleware.rs:12-21 | the same holds for the right-nested chain |
| Middlewares.BeforeStackOrder | src/middleware.rs:90-94 | a stack of `Before` middlewares threads the request through the steps outermost first, stops at the first failure with its converted error, and calls the base service only when every step succeeded |
| Middlewares.AfterStackOrder | src/middleware.rs:122-126 | a stack of `After` middlewares folds the steps over the base service's result innermost first, stopping at the first failure |
| Middlewares.TaggedBeforesReachBaseOutermostFirst | src/middleware.rs:136-138 | with `n` `Before` middlewares that each append their position, wrapped one by one around a service, calling the stack is calling the base service on the request followed by `n-1, ..., 0` (outermost first); the steps alone thread to `Ok` of that request |
| Middlewares.TaggedAftersRunInnermostFirst | src/middleware.rs:136-138 | with `n` `After` middlewares that each append their position, wrapped one by one around a service, a successful base response comes back followed by `0, ..., n-1` (innermost first), and a base failure comes back unchanged |
| Streams.SharingForwardsCalls | src/stream/mod.rs:41-72 | a stream service behind any stack of `Box`/`Rc`/`Arc` pointers answers every request as the service itself does |
| Streams.StreamCall | src/stream/mod.rs:41-72 | no contract of its own: a base service answers with its handler, a decorated one with its decorator applied to the inner service, and a pointer forwards the call; `SharingForwardsCalls` states the forwarding through any stack of pointers |
| Streams.StreamService.Wrap | src/stream/mod.rs:26-31 | no contract of its own: hands the service to the middleware; `StreamChainAppliesInnerFirst` states what the wrapped service answers |
| Streams.StreamService.Reduce | src/stream/mod.rs:33-38 | no contract of its own: hands the service to the reducer; `AggregateLaw` states what the reduced service answers |
| Streams.StreamMiddleware.Wrap | src/stream/middleware.rs:41-43 | no contract of its own: a decorator builds a decorated service, and a chain wraps with the inner middleware, then the outer one; stated by `StreamChainAppliesInnerFirst` and `StreamChainAllIsWrapEach` |
| Streams.StreamMiddleware.Chain | src/stream/middleware.rs:8-16 | no contract of its own: this middleware becomes the inner one; the grouping is stated by `StreamChainAssociative` |
| Streams.StreamMiddleware.ThenReduce | src/stream/middleware.rs:18-26 | no contract of its own: pairs the middleware with a reducer; `DecorateThenReduce` and `DecorateChainAssociative` state that the reducer sees the decorated service |
| Streams.StreamReducer.Reduce | src/stream/reduce.rs:26-35 | no contract of its own: an aggregation answers with its function of the stream call, a middleware-reduce chain decorates and then reduces (src/stream/middleware.rs:58-60), and a reduce-middleware chain reduces and then wraps; stated by `AggregateLaw`, `DecorateThenReduce`, `ReduceThenBefore` and `ReduceThenAfter` |
| Streams.StreamReducer.Chain | src/stream/reduce.rs:10-18 | no contract of its own: pairs the reducer with a middleware that wraps the reduced service; the grouping is stated by `ReduceChainAssociative` and `ReduceChainEachWrapsReduced` |
| Streams.StreamChainAppliesInnerFirst | src/stream/middleware.rs:41-43 | a chain of two stream decorators applies the inner decorator to the service and the outer one to the result |
| Streams.StreamChainAssociative | src/stream/middleware.rs:8-16 | both groupings of three chained stream middlewares build the same wrapped stream service |
| Streams.StreamChainAllIsWrapEach | src/stream/middleware.rs:41-43 | a chain of a list of stream middlewares wraps a stream service as wrapping it in each middleware in turn, first innermost, does |
| Streams.AggregateLaw | src/stream/reduce.rs:5-8 | calling a reduced service is the aggregation applied to the stream service's call and the request |
| Streams.DecorateThenReduce | src/stream/middleware.rs:58-60 | a middleware-then-reduce chain aggregates the stream of the decorated service |
| Streams.ReduceThenBefore | src/stream/reduce.rs:33-35 | a reduce-then-`Before` chain runs the step first and aggregates only on success, returning the converted step error otherwise |
| Streams.ReduceThenAfter | src/stream/reduce.rs:33-35 | a reduce-then-`After` chain post-processes the aggregated result only when aggregation succeeded |
| Streams.ReduceChainAssociative | src/stream/reduce.rs:10-18 | chaining two middlewares after a reducer one by one reduces like chaining their chain |
| Streams.DecorateChainAssociative | src/stream/middleware.rs:18-26 | decorating twice before reducing reduces like decorating once with the chained stream middleware |
| Streams.DecorationAndWrappingCommute | src/stream/middleware.rs:58-60 | decorating, reducing and then wrapping give the same service however the middleware-reduce and reduce-middleware chains are nested |
| Streams.ReduceChainEachWrapsReduced | src/stream/reduce.rs:33-35 | chaining a list of middlewares after a reducer wraps the reduced service in them, first innermost |
| Streams.DecoratedReduction | src/stream/middleware.rs:58-60 | reducing after a chain of stream middlewares reduces the service wrapped in each of them in turn |
| Join.JoinScript | src/middleware/new_middleware.rs:79-92 | the outcomes of a fresh join end at the first `Ready` or failure, and there are at most as many as the two futures' outcomes together |
| Join.Run | src/middleware/new_middleware.rs:79-92 | `k` polls of a fresh join return exactly `k` outcomes; what they are is stated by `PollsFollowJoinScript` and `UnfinishedJoinStaysPending` |
| Join.PollRight | src/middleware/new_middleware.rs:86-91 | polling the right future with the left item in hand polls it once, resolves its outcome with the item, and caches the item only on `NotReady` |
| Join.Step | src/middleware/new_middleware.rs:79-92 | the left future is polled iff nothing is cached; the right future is polled iff an item is in hand; a pending left future makes the poll `NotReady`; a left failure is returned; with a left item in hand (cached or just delivered) the poll returns the right future's outcome resolved with it; only the left item is cached, and only on a `NotReady` result; after a `Ready` or failed result the cache is empty |
| Join.AwaitLeft | src/middleware/new_middleware.rs:82-84 | while the left future is not ready, the join returns `NotReady`, never polls the right future and keeps an empty cache |
| Join.AwaitRight | src/middleware/new_middleware.rs:80-91 | once the left item is in hand, the left future is never polled again and each further poll resolves the next right outcome with the cached item |
| Join.AwaitRightDone | src/middleware/new_middleware.rs:80-91 | once both futures have finished with the left item in hand, each has been polled up to its finishing poll, the cache is empty, and the right outcomes were resolved with the left item |
| Join.PollsFollowJoinScript | src/middleware/new_middleware.rs:79-92 | the first `k` polls of a fresh join return the first `k` outcomes of `JoinScript`, and the state keeps the polling discipline |
| Join.UnfinishedJoinStaysPending | src/middleware/new_middleware.rs:79-92 | when `JoinScript` holds no `Ready` and no failure, any number `k` of polls at least its length returns `JoinScript` followed by `NotReady` for every further poll |
| Join.LeftFailureShortCircuits | src/middleware/new_middleware.rs:82 | a left failure is returned at the poll that meets it, the right future is never polled, and the cache stays empty |
| Join.RightFailureDropsCachedItem | src/middleware/new_middleware.rs:80-86 | a right failure is returned and the cached left item is dropped, so the cache is empty afterwards |
| Join.CompletesAfterBothReady | src/middleware/new_middleware.rs:79-92 | futures ready at their `n`-th and `m`-th polls make the join ready at its `n + m - 1`-th poll with the combined item, each future polled exactly as often as it needs |
| Join.JoinScriptOfReady | src/middleware/new_middleware.rs:79-92 | the same in closed form: `n + m - 2` pending polls, then the combined item |
| Join.JoinScriptOfRightFailure | src/middleware/new_middleware.rs:80-86 | a left future ready at poll `n` and a right future failing after `m` pending polls make the join fail with the right error at its `n + m`-th poll |
| Join.RunPrefix | src/middleware/new_middleware.rs:79-92 | the outcomes of fewer polls are a prefix of the outcomes of more |
| Join.NotReadyAfterMaxPolls | src/middleware/new_middleware.rs:79-92 | when both futures need at least two polls, the join is still pending after `max(n, m)` polls |
| Join.JoinScriptAssociative | src/middleware/new_middleware.rs:136-149 | nesting joins is associative poll for poll whenever the combine functions are |
| Join.ScriptedFuture.Poll | src/middleware/new_middleware.rs:82 | a poll returns the next outcome of the future's script and advances its poll count by one |
| Join.JoinFuture.constructor | src/middleware/new_middleware.rs:55-61 | a join starts over two distinct unpolled futures with an empty cache |
| Join.JoinFuture.Poll | src/middleware/new_middleware.rs:79-92 | one poll updates the poll counts and the cache and returns exactly what `Step` gives for the old state; the same poll serves `WrappedStreamServiceFuture` (src/stream/new_middleware.rs, lines 90-103) and `ReducedStreamServiceFuture` (src/stream/new_reduce.rs, lines 79-92) |
| FactoryFutures.NewServiceWrapperNewService | src/middleware/new_middleware.rs:55-61 | `new_service(h)` asks both factories with `h`, starts with an empty cache, and its polls follow the wrapper factory's script with `service.wrap(middleware)` as the combined item |
| FactoryFutures.NewMiddlewareChainNewMiddleware | src/middleware/new_middleware.rs:109-116 | `new_middleware(h)` asks both factories with `h`, starts with an empty cache, and yields `inner.chain(outer)` |
| FactoryFutures.NewStreamServiceWrapperNewService | src/stream/new_middleware.rs:65-71 | only the service factory gets `h`; the join starts empty and yields `service.wrap(middleware)` |
| FactoryFutures.NewStreamMiddlewareChainNewMiddleware | src/stream/new_middleware.rs:120-127 | the join over the inner and outer futures starts empty and yields `inner.chain(outer)` |
| FactoryFutures.NewStreamMiddlewareReduceChainNewReducer | src/stream/new_middleware.rs:177-184 | the middleware future is the left one; the join starts empty and yields `middleware.reduce(reducer)` |
| FactoryFutures.NewStreamServiceReducerNewService | src/stream/new_reduce.rs:55-61 | the service factory gets `h` and the reducer factory nothing; the join starts empty and yields `service.reduce(reducer)` |
| FactoryFutures.NewStreamReduceMiddlewareChainNewReducer | src/stream/new_reduce.rs:110-117 | the reducer future is the left one and the middleware factory is asked without a handle; the join yields `reducer.chain(middleware)` |
| Factories.NewService.Wrap | src/new_service.rs:29-34 | no contract of its own: hands the service factory to the middleware factory; stated by `WrapperReadyWithWrappedService`, `WrapperFailsWithService`, `ClosureServiceWrapped` and `WrapTwiceIsWrapChain` |
| Factories.NewMiddleware.Wrap | src/middleware/new_middleware.rs:16-25 | no contract of its own: pairs the service factory with this middleware factory; stated by `WrapperReadyWithWrappedService`, `WrapperFailsWithService` and `WrapperFailsWithMiddleware` |
| Factories.NewMiddleware.Chain | src/middleware/new_middleware.rs:27-35 | no contract of its own: this factory becomes the inner one; stated by `WrapTwiceIsWrapChain` and `ChainGroupingWrapsAlike` |
| Factories.NewStreamService.Wrap | src/stream/new_stream_service.rs:18-23 | no contract of its own: hands the stream service factory to the middleware factory; stated by `StreamWrapTwiceIsWrapChain` |
| Factories.NewStreamService.Reduce | src/stream/new_stream_service.rs:25-30 | no contract of its own: hands the stream service factory to the reducer factory; stated by `ReducerReadyWithReducedService` and `ReduceThenWrapIsReduceChain` |
| Factories.NewStreamMiddleware.Wrap | src/stream/new_middleware.rs:16-25 | no contract of its own: pairs the stream service factory with this middleware factory; stated by `StreamWrapTwiceIsWrapChain` |
| Factories.NewStreamMiddleware.Chain | src/stream/new_middleware.rs:27-35 | no contract of its own: this factory becomes the inner one; stated by `StreamWrapTwiceIsWrapChain` and `StreamChainGroupingWrapsAlike` |
| Factories.NewStreamMiddleware.ThenReduce | src/stream/new_middleware.rs:37-45 | no contract of its own: pairs this middleware factory with a reducer factory; stated by `WrapThenReduceIsThenReduce` |
| Factories.NewStreamReduce.Reduce | src/stream/new_reduce.rs:16-25 | no contract of its own: pairs the stream service factory with this reducer factory; stated by `ReducerReadyWithReducedService` and `WrapThenReduceIsThenReduce` |
| Factories.NewStreamReduce.Chain | src/stream/new_reduce.rs:27-35 | no contract of its own: pairs this reducer factory with a middleware factory; stated by `ReduceThenWrapIsReduceChain` |
| Factories.ServiceScript | src/new_service.rs:37-75 | a closure factory whose closure returns a `Result` gives a future that finishes at its first poll; the future of a wrapper or a reducer factory finishes at most once, at its last poll, and needs no more polls than its two parts' futures together |
| Factories.MiddlewareScript | src/middleware/new_middleware.rs:109-116 | the future of a chained middleware factory finishes at most once, at its last poll, and needs no more polls than its two parts' futures together |
| Factories.StreamServiceScript | src/stream/new_stream_service.rs:33-70 | a closure factory whose closure returns a `Result` gives a future that finishes at its first poll; a wrapper's future finishes at most once, at its last poll, and needs no more polls than its two parts' futures together |
| Factories.StreamMiddlewareScript | src/stream/new_middleware.rs:120-127 | the future of a chained stream middleware factory finishes at most once, at its last poll, and needs no more polls than its two parts' futures together |
| Factories.ReducerScript | src/stream/new_reduce.rs:110-117 | the future of either reducer chain finishes at most once, at its last poll, and needs no more polls than its two parts' futures together |
| FactoryLaws.ClosureServiceWrapped | src/new_service.rs:48-50 | a closure factory returning `Ok(svc)`, wrapped in a middleware factory whose future is ready with `mw` at its `k`-th poll, gives a future ready at its `k`-th poll with `svc` wrapped in `mw` |
| FactoryLaws.ClosureErrorFailsWrapper | src/new_service.rs:48-50 | a closure factory returning `Err(e)` makes the wrapper's future fail with `e` at its first poll |
| FactoryLaws.WrapTwiceIsWrapChain | src/middleware/new_middleware.rs:16-35 | wrapping a service factory in two middleware factories one after the other gives, poll for poll, the future of wrapping it in their chain |
| FactoryLaws.ChainGroupingWrapsAlike | src/middleware/new_middleware.rs:27-35 | both groupings of three chained middleware factories give the wrapped service factory the same future |
| FactoryLaws.StreamWrapTwiceIsWrapChain | src/stream/new_middleware.rs:16-35 | the stream analogue: two wraps give the future of one wrap in the chain |
| FactoryLaws.StreamChainGroupingWrapsAlike | src/stream/new_middleware.rs:27-35 | both groupings of three chained stream middleware factories give the same future |
| FactoryLaws.WrapThenReduceIsThenReduce | src/stream/new_middleware.rs:37-45 | wrapping then reducing a stream service factory gives the future of reducing it with the middleware-then-reduce factory |
| FactoryLaws.ReduceThenWrapIsReduceChain | src/stream/new_reduce.rs:27-35 | reducing then wrapping gives the future of reducing with the reduce-then-middleware factory, when the middleware factory's future does not depend on the handle |
| FactoryLaws.SharedFactoryForwards | src/new_service.rs:53-75 | a service factory behind any stack of `Arc`/`Rc` pointers has the factory's own future |
| FactoryLaws.SharedStreamFactoryForwards | src/stream/new_stream_service.rs:56-70 | a stream service factory behind any stack of `Arc`/`Rc` pointers has the factory's own future |
| FactoryLaws.WrapperReadyWithWrappedService | src/middleware/new_middleware.rs:79-92 | parts ready at their `n`-th and `k`-th polls make the wrapper ready at its `n + k - 1`-th poll with the service wrapped in the middleware |
| FactoryLaws.WrapperFailsWithService | src/middleware/new_middleware.rs:82 | a failing service factory fails the wrapper at the same poll with the same error, whatever the middleware factory |
| FactoryLaws.WrapperFailsWithMiddleware | src/middleware/new_middleware.rs:80-86 | a failing middleware factory fails the wrapper with its error and the service is dropped |
| FactoryLaws.ReducerReadyWithReducedService | src/stream/new_reduce.rs:79-92 | parts ready at their `n`-th and `k`-th polls make the reduced factory ready at its `n + k - 1`-th poll with the reduced service |

## Left out

- The `futures` library is not modelled: `Future`, `Stream`, `and_then`, `map_err` and `into_future` belong to another crate. A service call is its resolved `Result`. A future is a finite script of poll outcomes. A stream call is its finite list of items and optional error.
- Task wake-ups and scheduling are not modelled. Only the sequence of results returned by successive `poll` calls is.
- Polling a join again after it returned `Ready` or an error is not modelled. In the code it polls the left future again, which breaks the futures contract.
- Infinite streams are not modelled: a stream call yields a finite list.
- Reference counting, `PhantomData`, `'static` bounds and the `Into` trait are ownership and type plumbing. A `Before` step's `Into` conversion is an arbitrary total function `into`. The `map_err(Into::into)` on an `after` future converts `S::Error` to itself, so it is the identity here.
- Per-shape type mapping is stated by the generic `BeforeCall` and `AfterCall`. The composite datatypes use one type of request and response values `V`, one service error type `E` and one `Before`-step error type `D`, because a datatype cannot change its type parameters from layer to layer.
- The three blanket `Middleware` impls (src/middleware.rs:141-181) overlap and would not compile together. They are three constructors of one datatype.
- The reducer's aggregation algorithm does not exist in the crate. An aggregation is an arbitrary function of the stream call and the request.
- `NewMiddleware` has no concrete implementation in the crate. A single middleware factory is an arbitrary function from the handle to a future script.
- `NewStreamReduceMiddlewareChain::new_reducer` asks its middleware factory for a middleware without a handle, although `NewMiddleware::new_middleware` takes one. The model gives that middleware factory the unit handle type `()`.
- `NewService::wrap` names `NewMiddleware<Self::Instance>` without the handle parameter. The model uses the same handle throughout.
- `Service::wrap` in `src/service/mod.rs` is not part of this model. Where `WrappedServiceFuture` builds `service.wrap(middleware)` (src/middleware/new_middleware.rs:87), the model builds `middleware.Wrap(service)` (`Factories.WrapWith`), as the stream traits' `wrap` does.
- `io::Error` contents are not inspected by the crate. It is an opaque value with a description.
- `src/call.rs`, `src/service/connect.rs`, `src/streaming/` and `src/lib.rs` are not modelled. They hold type-level dispatch, a duplicate factory contract for types that are not shown, and declarations with no behaviour.
- FactoryLaws.ReduceThenWrapIsReduceChain: requires that the middleware factory's future for the handle equal its future for the unit handle. The code's reduce-then-middleware factory cannot pass a handle on.
