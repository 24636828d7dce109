/** The join future that every factory combinator of the crate returns:
    `WrappedServiceFuture` and `ChainedMiddlewareFuture`
    (`src/middleware/new_middleware.rs`), `WrappedStreamServiceFuture`,
    `ChainedStreamMiddlewareFuture` and `ReducedStreamMiddlewareFuture`
    (`src/stream/new_middleware.rs`), `ReducedStreamServiceFuture` and
    `ChainedStreamReduceFuture` (`src/stream/new_reduce.rs`). All seven hold a
    left future, a right future and an optional cached left item, and their
    `poll` bodies are the same routine: take the cached item or else poll the
    left future; only with an item in hand poll the right one; combine on
    `Ready`, put the item back on `NotReady`.

    A future is modelled by its script: what each of its polls returns, in
    order; a poll past the end of the script is `NotReady`. The model has three
    layers: `Step`, one poll as a function of the state; `JoinScript`, a closed
    form of everything a fresh join yields; and the classes `ScriptedFuture`
    and `JoinFuture`, whose `Poll` methods update their fields in place and are
    proved to follow `Step`. */
module Join {
  import opened Outcomes

  /** What successive polls of a future return. */
  type Script<T> = seq<Async<T>>

  /** The outcome of poll number `i` (counting from 0). */
  function At<T>(s: Script<T>, i: nat): Async<T>
  {
    if i < |s| then s[i] else NotReady
  }

  /** `n` polls that are not ready. */
  function Pending<T>(n: nat): (p: Script<T>)
    ensures |p| == n
    ensures forall k :: 0 <= k < n ==> p[k].NotReady?
  {
    if n == 0 then [] else Pending(n - 1) + [NotReady]
  }

  /** The index of the first poll that finishes the future (`Ready` or an
      error), or `|s|` if none does. */
  function FirstTerminal<T>(s: Script<T>): (i: nat)
    ensures i <= |s|
    ensures forall k :: 0 <= k < i ==> s[k].NotReady?
    ensures i < |s| ==> !s[i].NotReady?
  {
    if s == [] || !s[0].NotReady? then 0 else 1 + FirstTerminal(s[1..])
  }

  /** `FirstTerminal` is characterised by its contract. */
  lemma FirstTerminalUnique<T>(s: Script<T>, i: nat)
    requires i <= |s|
    requires forall k :: 0 <= k < i ==> s[k].NotReady?
    requires i < |s| ==> !s[i].NotReady?
    ensures FirstTerminal(s) == i
  {
  }

  /** A script that can only finish at its last poll. */
  predicate Settled<T>(s: Script<T>)
  {
    forall k :: 0 <= k < |s| - 1 ==> s[k].NotReady?
  }

  /** The script cut after its first terminal poll: the part a caller that
      stops polling a finished future can observe. */
  function Truncate<T>(s: Script<T>): (t: Script<T>)
    ensures |t| == if FirstTerminal(s) < |s| then FirstTerminal(s) + 1 else |s|
    ensures t == s[..|t|]
    ensures Settled(t)
  {
    var i := FirstTerminal(s);
    if i < |s| then s[..i + 1] else s
  }

  /** A settled script is its own truncation. */
  lemma TruncateSettled<T>(s: Script<T>)
    requires Settled(s)
    ensures Truncate(s) == s
  {
    if |s| > 0 && !s[|s| - 1].NotReady? {
      FirstTerminalUnique(s, |s| - 1);
    } else {
      FirstTerminalUnique(s, |s|);
    }
  }

  /** What the join returns when the right future's poll yields `x` while the
      left item `a` is in hand. */
  function Resolve<A, B, C>(a: A, x: Async<B>, combine: (A, B) -> C): (r: Async<C>)
    ensures r.NotReady? <==> x.NotReady?
    ensures x.Failed? ==> r == Failed(x.error)
    ensures x.Ready? ==> r == Ready(combine(a, x.value))
  {
    match x
    case NotReady => NotReady
    case Ready(b) => Ready(combine(a, b))
    case Failed(e) => Failed(e)
  }

  /** The join's outcomes while it polls the right script `xs` holding `a`. */
  function Complete<A, B, C>(a: A, xs: Script<B>, combine: (A, B) -> C): (r: Script<C>)
    ensures |r| == |xs|
    ensures forall k :: 0 <= k < |xs| ==> r[k] == Resolve(a, xs[k], combine)
  {
    if xs == [] then [] else Complete(a, xs[..|xs| - 1], combine) + [Resolve(a, xs[|xs| - 1], combine)]
  }

  /** Everything a fresh join of the scripts `ls` and `rs` yields, poll by
      poll, up to and including the poll that finishes it:
      - while the left future is not ready, the join is not ready;
      - a left error finishes the join and the right future is never polled;
      - once the left item `a` is in hand, each further poll of the join polls
        the right future once, and its outcome, combined with `a`, is the
        join's. */
  function JoinScript<A, B, C>(ls: Script<A>, rs: Script<B>, combine: (A, B) -> C): (r: Script<C>)
    ensures Settled(r)
    ensures |r| <= |ls| + |rs|
  {
    var i := FirstTerminal(ls);
    if i == |ls| then Pending(|ls|)
    else if ls[i].Failed? then Pending(i) + [Failed(ls[i].error)]
    else Pending(i) + Complete(ls[i].value, Truncate(rs), combine)
  }

  // ---------------------------------------------------------------------------
  // One poll as a function of the state
  // ---------------------------------------------------------------------------

  /** The state of a join: how often each future has been polled, and the
      cached left item. */
  datatype JoinState<A> = JoinState(leftPolls: nat, rightPolls: nat, cached: Option<A>)

  /** A fresh join: nothing polled, nothing cached. */
  function Start<A>(): JoinState<A>
  {
    JoinState(0, 0, None)
  }

  /** The second half of a poll: the left item `a` is in hand and the cache is
      empty (it was taken); the right future is polled once. */
  function PollRight<A, B, C>(rs: Script<B>, combine: (A, B) -> C, a: A, st: JoinState<A>): (r: (JoinState<A>, Async<C>))
    requires st.cached.None?
    ensures r.0.leftPolls == st.leftPolls && r.0.rightPolls == st.rightPolls + 1
    ensures r.1 == Resolve(a, At(rs, st.rightPolls), combine)
    ensures r.0.cached == if r.1.NotReady? then Some(a) else None
  {
    match At(rs, st.rightPolls)
    case NotReady => (st.(rightPolls := st.rightPolls + 1, cached := Some(a)), NotReady)
    case Ready(b) => (st.(rightPolls := st.rightPolls + 1), Ready(combine(a, b)))
    case Failed(e) => (st.(rightPolls := st.rightPolls + 1), Failed(e))
  }

  /** One `poll` of the join: the new state and what the poll returns. */
  function Step<A, B, C>(ls: Script<A>, rs: Script<B>, combine: (A, B) -> C, st: JoinState<A>): (r: (JoinState<A>, Async<C>))
    // a cached item is used instead of polling the left future again
    ensures st.cached.Some? ==> r.0.leftPolls == st.leftPolls
    ensures st.cached.None? ==> r.0.leftPolls == st.leftPolls + 1
    // the right future is polled exactly when a left item is in hand
    ensures r.0.rightPolls == if st.cached.Some? || At(ls, st.leftPolls).Ready? then st.rightPolls + 1 else st.rightPolls
    // a pending left future makes the join pending
    ensures st.cached.None? && At(ls, st.leftPolls).NotReady? ==> r.1.NotReady?
    // a left failure is returned as it is
    ensures st.cached.None? && At(ls, st.leftPolls).Failed? ==> r.1 == Failed(At(ls, st.leftPolls).error)
    // with a left item in hand, the right outcome is resolved with it
    ensures st.cached.Some? ==> r.1 == Resolve(st.cached.value, At(rs, st.rightPolls), combine)
    ensures st.cached.None? && At(ls, st.leftPolls).Ready? ==>
              r.1 == Resolve(At(ls, st.leftPolls).value, At(rs, st.rightPolls), combine)
    // an item is cached only by a poll that is not ready, and only a left item
    ensures r.0.cached.Some? ==> r.1.NotReady? && r.0.rightPolls == st.rightPolls + 1
    ensures r.0.cached.Some? ==> r.0.cached == if st.cached.Some? then st.cached else Some(At(ls, st.leftPolls).value)
    // a poll that finishes the join leaves the cache empty
    ensures !r.1.NotReady? ==> r.0.cached.None?
  {
    if st.cached.Some? then PollRight(rs, combine, st.cached.value, st.(cached := None))
    else match At(ls, st.leftPolls)
      case NotReady => (st.(leftPolls := st.leftPolls + 1), NotReady)
      case Failed(e) => (st.(leftPolls := st.leftPolls + 1), Failed(e))
      case Ready(a) => PollRight(rs, combine, a, st.(leftPolls := st.leftPolls + 1))
  }

  /** The state after `k` polls of a fresh join, and what the polls returned. */
  function Run<A, B, C>(ls: Script<A>, rs: Script<B>, combine: (A, B) -> C, k: nat): (r: (JoinState<A>, Script<C>))
    ensures |r.1| == k
  {
    if k == 0 then (Start(), [])
    else
      var prev := Run(ls, rs, combine, k - 1);
      var next := Step(ls, rs, combine, prev.0);
      (next.0, prev.1 + [next.1])
  }

  // ---------------------------------------------------------------------------
  // The polls of a fresh join follow JoinScript
  // ---------------------------------------------------------------------------

  /** Until the left future finishes, the join polls only the left future and
      is not ready. */
  lemma {:induction false} AwaitLeft<A, B, C>(ls: Script<A>, rs: Script<B>, combine: (A, B) -> C, k: nat)
    requires k <= FirstTerminal(ls)
    ensures Run(ls, rs, combine, k) == (JoinState(k, 0, None), Pending(k))
  {
    if k > 0 {
      AwaitLeft(ls, rs, combine, k - 1);
      assert At(ls, k - 1).NotReady?;
    }
  }

  /** After the left item `a` arrived at left poll `i`, poll `k = i + t` of the
      join is right poll `t - 1`; the item stays cached until the right future
      finishes. */
  lemma {:induction false} AwaitRight<A, B, C>(ls: Script<A>, rs: Script<B>, combine: (A, B) -> C,
                                               i: nat, a: A, t: nat, k: nat)
    requires i == FirstTerminal(ls) && i < |ls| && ls[i] == Ready(a)
    requires 1 <= t <= |rs| && t - 1 <= FirstTerminal(rs)
    requires k == i + t
    ensures Run(ls, rs, combine, k) ==
            (JoinState(i + 1, t, if t - 1 < FirstTerminal(rs) then Some(a) else None),
             Pending(i) + Complete(a, rs[..t], combine))
  {
    assert Run(ls, rs, combine, k - 1) ==
           (JoinState(i + (if t == 1 then 0 else 1), t - 1, if t == 1 then None else Some(a)),
            Pending(i) + Complete(a, rs[..t - 1], combine)) by {
      if t == 1 {
        AwaitLeft(ls, rs, combine, i);
        assert rs[..0] == [];
        assert Pending<C>(i) + Complete(a, rs[..0], combine) == Pending<C>(i);
      } else {
        AwaitRight(ls, rs, combine, i, a, t - 1, k - 1);
      }
    }
    AwaitRightStep(ls, rs, combine, i, a, t, k);
  }

  /** One poll of `AwaitRight`: with the left item in hand, the join polls the
      right future once more and resolves its outcome. */
  lemma AwaitRightStep<A, B, C>(ls: Script<A>, rs: Script<B>, combine: (A, B) -> C, i: nat, a: A, t: nat, k: nat)
    requires i == FirstTerminal(ls) && i < |ls| && ls[i] == Ready(a)
    requires 1 <= t <= |rs| && t - 1 <= FirstTerminal(rs)
    requires k == i + t
    requires Run(ls, rs, combine, k - 1) ==
             (JoinState(i + (if t == 1 then 0 else 1), t - 1, if t == 1 then None else Some(a)),
              Pending(i) + Complete(a, rs[..t - 1], combine))
    ensures Run(ls, rs, combine, k) ==
            (JoinState(i + 1, t, if t - 1 < FirstTerminal(rs) then Some(a) else None),
             Pending(i) + Complete(a, rs[..t], combine))
  {
    var prev := Run(ls, rs, combine, k - 1);
    var next := Step(ls, rs, combine, prev.0);
    assert next == PollRight(rs, combine, a, JoinState(i + 1, t - 1, None));
    assert rs[t - 1].NotReady? <==> t - 1 < FirstTerminal(rs);
    CompleteSnoc(a, rs, combine, t);
    assert Pending<C>(i) + Complete(a, rs[..t], combine) == prev.1 + [next.1];
  }

  /** The main property: the first `k` polls of a fresh join return the first
      `k` outcomes of `JoinScript`, for every `k` up to the poll that finishes
      the join, and the join keeps its protocol towards the two futures. */
  lemma PollsFollowJoinScript<A, B, C>(ls: Script<A>, rs: Script<B>, combine: (A, B) -> C, k: nat)
    requires k <= |JoinScript(ls, rs, combine)|
    ensures Run(ls, rs, combine, k).1 == JoinScript(ls, rs, combine)[..k]
    ensures Disciplined(ls, rs, Run(ls, rs, combine, k).0)
  {
    var i := FirstTerminal(ls);
    if k <= i {
      FollowWhileLeftPending(ls, rs, combine, k);
    } else if ls[i].Failed? {
      LeftFailureShortCircuits(ls, rs, combine);
    } else {
      FollowLeftReadyOutcomes(ls, rs, combine, k);
      FollowLeftReadyState(ls, rs, combine, k);
    }
  }

  /** `PollsFollowJoinScript` before the left future finishes. */
  lemma FollowWhileLeftPending<A, B, C>(ls: Script<A>, rs: Script<B>, combine: (A, B) -> C, k: nat)
    requires k <= FirstTerminal(ls)
    ensures Run(ls, rs, combine, k).1 == JoinScript(ls, rs, combine)[..k]
    ensures Disciplined(ls, rs, Run(ls, rs, combine, k).0)
  {
    var js := JoinScript(ls, rs, combine);
    AwaitLeft(ls, rs, combine, k);
    assert js[..k] == Pending(k);
  }

  /** A left error finishes the join at the poll that delivers it, and the
      right future is never polled. */
  lemma LeftFailureShortCircuits<A, B, C>(ls: Script<A>, rs: Script<B>, combine: (A, B) -> C)
    requires FirstTerminal(ls) < |ls| && ls[FirstTerminal(ls)].Failed?
    ensures Run(ls, rs, combine, FirstTerminal(ls) + 1) ==
            (JoinState(FirstTerminal(ls) + 1, 0, None), Pending(FirstTerminal(ls)) + [Failed(ls[FirstTerminal(ls)].error)])
  {
    AwaitLeft(ls, rs, combine, FirstTerminal(ls));
  }

  /** The outcomes in `PollsFollowJoinScript` once the left future produced
      its item. */
  lemma FollowLeftReadyOutcomes<A, B, C>(ls: Script<A>, rs: Script<B>, combine: (A, B) -> C, k: nat)
    requires FirstTerminal(ls) < |ls| && ls[FirstTerminal(ls)].Ready?
    requires FirstTerminal(ls) < k <= |JoinScript(ls, rs, combine)|
    ensures Run(ls, rs, combine, k).1 == JoinScript(ls, rs, combine)[..k]
  {
    var i := FirstTerminal(ls);
    var a, t := ls[i].value, k - i;
    var js := Pending(i) + Complete(a, Truncate(rs), combine);
    assert JoinScript(ls, rs, combine) == js;
    assert 1 <= t <= |Truncate(rs)| && t <= |rs| && t - 1 <= FirstTerminal(rs);
    AwaitRight(ls, rs, combine, i, a, t, k);
    LeftReadyPrefix(i, a, rs, combine, t);
  }

  /** The first `i + t` outcomes of a join whose left item arrived at poll `i`. */
  lemma LeftReadyPrefix<A, B, C>(i: nat, a: A, rs: Script<B>, combine: (A, B) -> C, t: nat)
    requires t <= |Truncate(rs)|
    ensures (Pending(i) + Complete(a, Truncate(rs), combine))[..i + t] == Pending(i) + Complete(a, rs[..t], combine)
  {
    var tr := Truncate(rs);
    assert tr[..t] == rs[..t];
    CompletePrefix(a, tr, combine, t);
    PrefixOfAppend(Pending(i), Complete(a, tr, combine), t);
  }

  /** The state in `PollsFollowJoinScript` once the left future produced its
      item. */
  lemma FollowLeftReadyState<A, B, C>(ls: Script<A>, rs: Script<B>, combine: (A, B) -> C, k: nat)
    requires FirstTerminal(ls) < |ls| && ls[FirstTerminal(ls)].Ready?
    requires FirstTerminal(ls) < k <= |JoinScript(ls, rs, combine)|
    ensures Disciplined(ls, rs, Run(ls, rs, combine, k).0)
  {
    var i := FirstTerminal(ls);
    AwaitRight(ls, rs, combine, i, ls[i].value, k - i, k);
  }

  /** Once both futures finished, with the left one ready: the join has polled
      each future up to its terminal poll, cached nothing, and returned the
      right script resolved with the left item. */
  lemma AwaitRightDone<A, B, C>(ls: Script<A>, rs: Script<B>, combine: (A, B) -> C, i: nat, a: A, j: nat, k: nat)
    requires i == FirstTerminal(ls) && i < |ls| && ls[i] == Ready(a)
    requires j == FirstTerminal(rs) && j < |rs|
    requires k == i + j + 1
    ensures Run(ls, rs, combine, k) ==
            (JoinState(i + 1, j + 1, None), Pending(i) + Complete(a, Truncate(rs), combine))
  {
    assert rs[..j + 1] == Truncate(rs);
    AwaitRight(ls, rs, combine, i, a, j + 1, k);
  }

  /** Resolving one more poll of a script appends its resolution. */
  lemma CompleteSnoc<A, B, C>(a: A, xs: Script<B>, combine: (A, B) -> C, t: nat)
    requires 1 <= t <= |xs|
    ensures Complete(a, xs[..t], combine) == Complete(a, xs[..t - 1], combine) + [Resolve(a, xs[t - 1], combine)]
  {
    assert xs[..t][..t - 1] == xs[..t - 1];
  }

  /** Resolving a prefix of a script is the prefix of resolving it. */
  lemma CompletePrefix<A, B, C>(a: A, xs: Script<B>, combine: (A, B) -> C, t: nat)
    requires t <= |xs|
    ensures Complete(a, xs[..t], combine) == Complete(a, xs, combine)[..t]
  {
    var p, q := Complete(a, xs[..t], combine), Complete(a, xs, combine)[..t];
    forall k | 0 <= k < t
      ensures p[k] == q[k]
    {
      assert xs[..t][k] == xs[k];
    }
    assert p == q;
  }

  lemma PrefixOfAppend<T>(p: seq<T>, q: seq<T>, t: nat)
    requires t <= |q|
    ensures (p + q)[..|p| + t] == p + q[..t]
  {
    var u, v := (p + q)[..|p| + t], p + q[..t];
    forall k | 0 <= k < |p| + t
      ensures u[k] == v[k]
    {
      if k >= |p| {
        assert u[k] == q[k - |p|] == v[k];
      }
    }
    assert u == v;
  }

  /** The protocol a join keeps towards its two futures: it never polls a
      future again after that future finished, it polls the right future only
      after the left one produced its item, and it caches only that item, and
      only while the right future has not finished. */
  ghost predicate Disciplined<A, B>(ls: Script<A>, rs: Script<B>, st: JoinState<A>)
  {
    st.leftPolls <= FirstTerminal(ls) + 1 &&
    st.rightPolls <= FirstTerminal(rs) + 1 &&
    (st.rightPolls > 0 ==>
       st.leftPolls == FirstTerminal(ls) + 1 && FirstTerminal(ls) < |ls| && ls[FirstTerminal(ls)].Ready?) &&
    (st.cached.Some? ==>
       st.rightPolls > 0 && st.rightPolls <= FirstTerminal(rs) && st.cached.value == ls[FirstTerminal(ls)].value)
  }

  // ---------------------------------------------------------------------------
  // Consequences
  // ---------------------------------------------------------------------------

  /** A right error finishes the join and drops the cached left item: it was
      taken out of the cache and is not put back. */
  lemma RightFailureDropsCachedItem<A, B, C>(ls: Script<A>, rs: Script<B>, combine: (A, B) -> C, k: nat)
    requires FirstTerminal(ls) < |ls| && ls[FirstTerminal(ls)].Ready?
    requires FirstTerminal(rs) < |rs| && rs[FirstTerminal(rs)].Failed?
    requires k == FirstTerminal(ls) + FirstTerminal(rs) + 1
    ensures Run(ls, rs, combine, k) ==
            (JoinState(FirstTerminal(ls) + 1, FirstTerminal(rs) + 1, None),
             Pending(k - 1) + [Failed(rs[FirstTerminal(rs)].error)])
  {
    var i, j := FirstTerminal(ls), FirstTerminal(rs);
    var a := ls[i].value;
    AwaitRightDone(ls, rs, combine, i, a, j, k);
    RightFailureResolved(i, a, rs, combine, j, rs[j].error, k - 1);
  }

  /** A right script failing at poll `j`, resolved against the left item after
      `i` pending polls, fails at poll `i + j`. */
  lemma RightFailureResolved<A, B, C>(i: nat, a: A, rs: Script<B>, combine: (A, B) -> C, j: nat, e: IoError, n: nat)
    requires j == FirstTerminal(rs) && j < |rs| && rs[j] == Failed(e) && n == i + j
    ensures Pending(i) + Complete(a, Truncate(rs), combine) == Pending(n) + [Failed(e)]
  {
    assert Complete(a, Truncate(rs), combine) == Pending(j) + [Failed(e)] by {
      TruncateFinished(rs);
      CompleteFinished(a, j, rs[j], combine);
    }
    PendingThenOne<C>(i, j, Failed(e));
  }

  /** Scripts of futures that are ready at their `n`-th and `m`-th poll. */
  function ReadyAt<T>(n: nat, v: T): Script<T>
    requires n >= 1
  {
    Pending(n - 1) + [Ready(v)]
  }

  lemma FirstTerminalReadyAt<T>(n: nat, v: T)
    requires n >= 1
    ensures FirstTerminal(ReadyAt(n, v)) == n - 1
  {
    FirstTerminalUnique(ReadyAt(n, v), n - 1);
  }

  /** Joining a future ready at its `n`-th poll with one ready at its `m`-th
      takes `n + m - 1` polls: the right future is polled only from the poll
      that delivers the left item on. Each future is polled exactly as often as
      it needs, and the combined item is the join's result. */
  lemma CompletesAfterBothReady<A, B, C>(n: nat, a: A, m: nat, b: B, combine: (A, B) -> C, k: nat)
    requires n >= 1 && m >= 1 && k == n + m - 1
    ensures Run(ReadyAt(n, a), ReadyAt(m, b), combine, k) ==
            (JoinState(n, m, None), Pending(n + m - 2) + [Ready(combine(a, b))])
  {
    var ls, rs := ReadyAt(n, a), ReadyAt(m, b);
    assert FirstTerminal(ls) == n - 1 && ls[n - 1] == Ready(a) by {
      FirstTerminalReadyAt(n, a);
    }
    assert FirstTerminal(rs) == m - 1 by {
      FirstTerminalReadyAt(m, b);
    }
    AwaitRightDone(ls, rs, combine, n - 1, a, m - 1, k);
    assert Pending<C>(n - 1) + Complete(a, Truncate(rs), combine) == Pending(n + m - 2) + [Ready(combine(a, b))] by {
      ReadyAtResolved(n, a, m, b, combine);
    }
  }

  /** The outcomes of the right future ready at its `m`-th poll, resolved
      against the left item after `n - 1` pending polls. */
  lemma ReadyAtResolved<A, B, C>(n: nat, a: A, m: nat, b: B, combine: (A, B) -> C)
    requires n >= 1 && m >= 1
    ensures Pending(n - 1) + Complete(a, Truncate(ReadyAt(m, b)), combine) ==
            Pending(n + m - 2) + [Ready(combine(a, b))]
  {
    var rs := ReadyAt(m, b);
    var x := Ready(combine(a, b));
    assert Complete(a, Truncate(rs), combine) == Pending(m - 1) + [x] by {
      assert Truncate(rs) == rs by {
        FirstTerminalReadyAt(m, b);
        TruncateFinished(rs);
      }
      CompleteFinished(a, m - 1, Ready(b), combine);
    }
    assert Pending(n - 1) + (Pending(m - 1) + [x]) == Pending(n + m - 2) + [x] by {
      PendingThenOne(n - 1, m - 1, x);
      assert n - 1 + (m - 1) == n + m - 2;
    }
  }

  /** The same in closed form: the join's script is pending for `n + m - 2`
      polls and then yields the combined item. */
  lemma JoinScriptOfReady<A, B, C>(n: nat, a: A, m: nat, b: B, combine: (A, B) -> C)
    requires n >= 1 && m >= 1
    ensures JoinScript(ReadyAt(n, a), ReadyAt(m, b), combine) == Pending(n + m - 2) + [Ready(combine(a, b))]
  {
    var rs := ReadyAt(m, b);
    assert JoinScript(ReadyAt(n, a), rs, combine) == Pending(n - 1) + Complete(a, Truncate(rs), combine) by {
      JoinScriptOfFinished(n - 1, Ready(a), rs, combine);
    }
    assert Truncate(rs) == rs by {
      FirstTerminalReadyAt(m, b);
      TruncateFinished(rs);
    }
    assert Complete(a, rs, combine) == Pending(m - 1) + [Ready(combine(a, b))] by {
      CompleteFinished(a, m - 1, Ready(b), combine);
    }
    PendingThenOne(n - 1, m - 1, Ready(combine(a, b)));
  }

  /** When the left future is ready at its `n`-th poll and the right one fails
      after `m` pending polls, the join fails with the right error at its
      `n + m`-th poll and the left item is dropped. */
  lemma JoinScriptOfRightFailure<A, B, C>(n: nat, a: A, m: nat, e: IoError, combine: (A, B) -> C)
    requires n >= 1
    ensures JoinScript(ReadyAt(n, a), Pending<B>(m) + [Failed(e)], combine) == Pending(n - 1 + m) + [Failed(e)]
  {
    var rs := Pending<B>(m) + [Failed(e)];
    assert JoinScript(ReadyAt(n, a), rs, combine) == Pending(n - 1) + Complete(a, Truncate(rs), combine) by {
      JoinScriptOfFinished(n - 1, Ready(a), rs, combine);
    }
    assert Truncate(rs) == rs by {
      FirstTerminalShift<B>(m, [Failed(e)]);
      TruncateFinished(rs);
    }
    assert Complete(a, rs, combine) == Pending(m) + [Failed(e)] by {
      CompleteFinished(a, m, Failed(e), combine);
    }
    PendingThenOne<C>(n - 1, m, Failed(e));
  }

  /** The outcomes of fewer polls are a prefix of the outcomes of more. */
  lemma {:induction false} RunPrefix<A, B, C>(ls: Script<A>, rs: Script<B>, combine: (A, B) -> C, k: nat, k': nat)
    requires k <= k'
    ensures Run(ls, rs, combine, k).1 == Run(ls, rs, combine, k').1[..k]
  {
    if k < k' {
      RunPrefix(ls, rs, combine, k, k' - 1);
    }
  }

  /** When both futures need at least two polls, the join is still not ready
      after `max(n, m)` polls: the branches are not polled side by side. */
  lemma NotReadyAfterMaxPolls<A, B, C>(n: nat, a: A, m: nat, b: B, combine: (A, B) -> C)
    requires n >= 2 && m >= 2
    ensures var k := if n >= m then n else m;
            Run(ReadyAt(n, a), ReadyAt(m, b), combine, k).1 == Pending(k)
  {
    var k := if n >= m then n else m;
    CompletesAfterBothReady(n, a, m, b, combine, n + m - 1);
    RunPrefix(ReadyAt(n, a), ReadyAt(m, b), combine, k, n + m - 1);
  }

  // ---------------------------------------------------------------------------
  // A join that never finishes
  // ---------------------------------------------------------------------------

  /** A join whose futures never let it finish keeps returning `NotReady`:
      beyond `JoinScript`, its polls only add not-ready outcomes. This happens
      when the left future never finishes, or when it delivers its item and the
      right future never finishes. */
  lemma UnfinishedJoinStaysPending<A, B, C>(ls: Script<A>, rs: Script<B>, combine: (A, B) -> C, k: nat)
    requires forall j :: 0 <= j < |JoinScript(ls, rs, combine)| ==> JoinScript(ls, rs, combine)[j].NotReady?
    requires |JoinScript(ls, rs, combine)| <= k
    ensures Run(ls, rs, combine, k).1 == JoinScript(ls, rs, combine) + Pending(k - |JoinScript(ls, rs, combine)|)
  {
    var i := FirstTerminal(ls);
    JoinScriptFinishes(ls, rs, combine);
    if i == |ls| {
      LeftNeverFinishes(ls, rs, combine, k);
    } else if ls[i].Failed? || FirstTerminal(rs) < |rs| {
      assert false;
    } else {
      RightNeverFinishes(ls, rs, combine, k, i, ls[i].value);
    }
  }

  /** A left failure, or a left item followed by a finished right future,
      makes the last outcome of `JoinScript` terminal. */
  lemma JoinScriptFinishes<A, B, C>(ls: Script<A>, rs: Script<B>, combine: (A, B) -> C)
    ensures FirstTerminal(ls) < |ls| && (ls[FirstTerminal(ls)].Failed? || FirstTerminal(rs) < |rs|) ==>
            |JoinScript(ls, rs, combine)| > 0 &&
            !JoinScript(ls, rs, combine)[|JoinScript(ls, rs, combine)| - 1].NotReady?
  {
    var i := FirstTerminal(ls);
    if i < |ls| && ls[i].Ready? && FirstTerminal(rs) < |rs| {
      var tr := Truncate(rs);
      var j := FirstTerminal(rs);
      assert tr[j] == rs[j];
      assert Complete(ls[i].value, tr, combine)[j] == Resolve(ls[i].value, rs[j], combine);
    }
  }

  /** Padding a script with not-ready polls changes no poll. */
  lemma AtPadded<T>(s: Script<T>, n: nat)
    ensures forall p: nat :: At(s + Pending(n), p) == At(s, p)
  {
    forall p: nat
      ensures At(s + Pending(n), p) == At(s, p)
    {
      if |s| <= p < |s| + n {
        assert (s + Pending(n))[p] == Pending<T>(n)[p - |s|];
      }
    }
  }

  /** Scripts whose polls return the same outcomes drive the join alike. */
  lemma {:induction false} RunAgrees<A, B, C>(ls: Script<A>, lp: Script<A>, rs: Script<B>, rp: Script<B>,
                                              combine: (A, B) -> C, k: nat)
    requires forall p: nat :: At(ls, p) == At(lp, p)
    requires forall p: nat :: At(rs, p) == At(rp, p)
    ensures Run(ls, rs, combine, k) == Run(lp, rp, combine, k)
  {
    if k > 0 {
      RunAgrees(ls, lp, rs, rp, combine, k - 1);
      var st := Run(ls, rs, combine, k - 1).0;
      StepAgrees(ls, lp, rs, rp, combine, st);
    }
  }

  /** One poll reads the two scripts only at the polls the state points to. */
  lemma StepAgrees<A, B, C>(ls: Script<A>, lp: Script<A>, rs: Script<B>, rp: Script<B>,
                            combine: (A, B) -> C, st: JoinState<A>)
    requires At(ls, st.leftPolls) == At(lp, st.leftPolls)
    requires At(rs, st.rightPolls) == At(rp, st.rightPolls)
    ensures Step(ls, rs, combine, st) == Step(lp, rp, combine, st)
  {
  }

  /** A script that never finishes, padded with not-ready polls, still never
      finishes. */
  lemma PaddedUnfinished<T>(s: Script<T>, n: nat)
    requires FirstTerminal(s) == |s|
    ensures FirstTerminal(s + Pending(n)) == |s| + n
  {
    var sp := s + Pending(n);
    forall q | 0 <= q < |sp|
      ensures sp[q].NotReady?
    {
      if q >= |s| {
        assert sp[q] == Pending<T>(n)[q - |s|];
      }
    }
    FirstTerminalUnique(sp, |sp|);
  }

  /** The left future never finishes: every poll of the join is not ready. */
  lemma LeftNeverFinishes<A, B, C>(ls: Script<A>, rs: Script<B>, combine: (A, B) -> C, k: nat)
    requires FirstTerminal(ls) == |ls| <= k
    ensures Run(ls, rs, combine, k).1 == JoinScript(ls, rs, combine) + Pending(k - |JoinScript(ls, rs, combine)|)
  {
    var d := k - |ls|;
    var lp := ls + Pending(d);
    assert Run(lp, rs, combine, k).1 == Pending(k) by {
      PaddedUnfinished(ls, d);
      AwaitLeft(lp, rs, combine, k);
    }
    assert Run(ls, rs, combine, k) == Run(lp, rs, combine, k) by {
      AtPadded(ls, d);
      RunAgrees(ls, lp, rs, rs, combine, k);
    }
    assert JoinScript(ls, rs, combine) == Pending(|ls|);
    PendingAppend<C>(|ls|, d);
  }

  /** The left item arrived at poll `i` and the right future never finishes:
      the join keeps polling the right future, not ready. */
  lemma RightNeverFinishes<A, B, C>(ls: Script<A>, rs: Script<B>, combine: (A, B) -> C, k: nat, i: nat, a: A)
    requires i == FirstTerminal(ls) && i < |ls| && ls[i] == Ready(a)
    requires FirstTerminal(rs) == |rs| && i + |rs| <= k
    ensures Run(ls, rs, combine, k).1 == JoinScript(ls, rs, combine) + Pending(k - |JoinScript(ls, rs, combine)|)
  {
    var d := k - (i + |rs|);
    var rp := rs + Pending(d);
    var js := Pending(i) + Complete(a, rs, combine);
    assert JoinScript(ls, rs, combine) == js by {
      assert Truncate(rs) == rs;
    }
    assert Run(ls, rp, combine, k).1 == js + Pending(d) by {
      PaddedRightScript(ls, rs, combine, i, a, d, rp, js);
      PollsFollowJoinScript(ls, rp, combine, k);
      assert (js + Pending(d))[..k] == js + Pending(d);
    }
    assert Run(ls, rs, combine, k) == Run(ls, rp, combine, k) by {
      AtPadded(rs, d);
      RunAgrees(ls, ls, rs, rp, combine, k);
    }
  }

  /** Padding a right script that never finishes pads the join's script. */
  lemma PaddedRightScript<A, B, C>(ls: Script<A>, rs: Script<B>, combine: (A, B) -> C, i: nat, a: A,
                                    d: nat, rp: Script<B>, js: Script<C>)
    requires i == FirstTerminal(ls) && i < |ls| && ls[i] == Ready(a)
    requires FirstTerminal(rs) == |rs| && rp == rs + Pending(d) && js == Pending(i) + Complete(a, rs, combine)
    ensures JoinScript(ls, rp, combine) == js + Pending(d)
  {
    var cs := Complete(a, rs, combine);
    assert JoinScript(ls, rp, combine) == Pending(i) + Complete(a, rp, combine) by {
      PaddedUnfinished(rs, d);
      JoinScriptRightUnfinished(ls, rp, combine, i, a);
    }
    assert Complete(a, rp, combine) == cs + Pending(d) by {
      CompletePadded(a, rs, combine, d, rp);
    }
    assert Pending(i) + (cs + Pending(d)) == js + Pending(d);
  }

  /** Resolving not-ready polls adds not-ready outcomes. */
  lemma CompletePadded<A, B, C>(a: A, rs: Script<B>, combine: (A, B) -> C, d: nat, rp: Script<B>)
    requires rp == rs + Pending(d)
    ensures Complete(a, rp, combine) == Complete(a, rs, combine) + Pending(d)
  {
    CompleteAppend(a, rs, Pending(d), combine);
    CompletePending<A, B, C>(a, d, combine);
  }

  /** The join's script once the left item `a` arrived at poll `i`, when the
      right future never finishes. */
  lemma JoinScriptRightUnfinished<A, B, C>(ls: Script<A>, rs: Script<B>, combine: (A, B) -> C, i: nat, a: A)
    requires i == FirstTerminal(ls) && i < |ls| && ls[i] == Ready(a)
    requires FirstTerminal(rs) == |rs|
    ensures JoinScript(ls, rs, combine) == Pending(i) + Complete(a, rs, combine)
  {
    assert Truncate(rs) == rs;
  }

  /** A finished script, cut after its terminal poll. */
  lemma TruncateFinished<T>(s: Script<T>)
    requires FirstTerminal(s) < |s|
    ensures Truncate(s) == Pending(FirstTerminal(s)) + [s[FirstTerminal(s)]]
  {
    var i := FirstTerminal(s);
    assert Truncate(s) == s[..i + 1];
    PendingPrefix(s, i);
  }

  /** A script pending for its first `i` polls starts with `Pending(i)`. */
  lemma PendingPrefix<T>(s: Script<T>, i: nat)
    requires i < |s| && forall k :: 0 <= k < i ==> s[k].NotReady?
    ensures s[..i + 1] == Pending(i) + [s[i]]
  {
    var p := Pending<T>(i) + [s[i]];
    forall k | 0 <= k <= i
      ensures s[..i + 1][k] == p[k]
    {
      if k < i {
        assert s[k].NotReady? && p[k].NotReady?;
      }
    }
    assert s[..i + 1] == p;
  }

  lemma CompleteFinished<A, B, C>(a: A, n: nat, x: Async<B>, combine: (A, B) -> C)
    ensures Complete(a, Pending(n) + [x], combine) == Pending(n) + [Resolve(a, x, combine)]
  {
    var xs := Pending<B>(n) + [x];
    var p, q := Complete(a, xs, combine), Pending<C>(n) + [Resolve(a, x, combine)];
    forall k | 0 <= k <= n
      ensures p[k] == q[k]
    {
      if k < n {
        assert xs[k].NotReady? && q[k].NotReady?;
      }
    }
    assert p == q;
  }

  lemma PendingThenOne<T>(i: nat, j: nat, x: Async<T>)
    ensures Pending<T>(i) + (Pending<T>(j) + [x]) == Pending<T>(i + j) + [x]
  {
    var p, q := Pending<T>(i) + (Pending<T>(j) + [x]), Pending<T>(i + j) + [x];
    forall k | 0 <= k < i + j
      ensures p[k] == q[k]
    {
      assert p[k].NotReady? && q[k].NotReady?;
    }
    assert p == q;
  }

  lemma PendingAppend<T>(i: nat, j: nat)
    ensures Pending<T>(i) + Pending<T>(j) == Pending<T>(i + j)
  {
    var p, q := Pending<T>(i) + Pending<T>(j), Pending<T>(i + j);
    forall k | 0 <= k < i + j
      ensures p[k] == q[k]
    {
      assert p[k].NotReady? && q[k].NotReady?;
    }
    assert p == q;
  }

  // ---------------------------------------------------------------------------
  // Nested joins
  // ---------------------------------------------------------------------------

  /** Everything before a finished script's first terminal poll is `Pending`. */
  lemma FirstTerminalShift<T>(n: nat, s: Script<T>)
    ensures FirstTerminal(Pending(n) + s) == n + FirstTerminal(s)
  {
    FirstTerminalUnique(Pending(n) + s, n + FirstTerminal(s));
  }

  lemma CompletePending<A, B, C>(a: A, n: nat, combine: (A, B) -> C)
    ensures Complete(a, Pending<B>(n), combine) == Pending<C>(n)
  {
    var p, q := Complete(a, Pending<B>(n), combine), Pending<C>(n);
    forall k | 0 <= k < n
      ensures p[k] == q[k]
    {
      assert Pending<B>(n)[k].NotReady? && q[k].NotReady?;
    }
    assert p == q;
  }

  lemma CompleteAppend<A, B, C>(a: A, xs: Script<B>, ys: Script<B>, combine: (A, B) -> C)
    ensures Complete(a, xs + ys, combine) == Complete(a, xs, combine) + Complete(a, ys, combine)
  {
    var p, q := Complete(a, xs + ys, combine), Complete(a, xs, combine) + Complete(a, ys, combine);
    forall k | 0 <= k < |xs| + |ys|
      ensures p[k] == q[k]
    {
      if k < |xs| {
        assert (xs + ys)[k] == xs[k];
      } else {
        assert (xs + ys)[k] == ys[k - |xs|];
      }
    }
    assert p == q;
  }

  /** The join of a left script that finishes with `x` after `n` pending polls. */
  lemma JoinScriptOfFinished<A, B, C>(n: nat, x: Async<A>, rs: Script<B>, combine: (A, B) -> C)
    requires !x.NotReady?
    ensures x.Failed? ==> JoinScript(Pending(n) + [x], rs, combine) == Pending(n) + [Failed(x.error)]
    ensures x.Ready? ==> JoinScript(Pending(n) + [x], rs, combine) ==
                         Pending(n) + Complete(x.value, Truncate(rs), combine)
  {
    FirstTerminalShift(n, [x]);
  }

  /** A join of a left script that never finishes never finishes. */
  lemma JoinScriptOfPending<A, B, C>(n: nat, rs: Script<B>, combine: (A, B) -> C)
    ensures JoinScript(Pending<A>(n), rs, combine) == Pending<C>(n)
  {
    FirstTerminalShift<A>(n, []);
  }

  /** Nesting joins is associative when the combine functions are: joining
      `ls` with `ms` and the result with `rs` yields, poll by poll, what
      joining `ls` with the join of `ms` and `rs` yields. */
  lemma JoinScriptAssociative<A, B, C, AB, BC, R>(ls: Script<A>, ms: Script<B>, rs: Script<C>,
                                                   f: (A, B) -> AB, g: (AB, C) -> R,
                                                   h: (B, C) -> BC, k: (A, BC) -> R)
    requires forall a: A, b: B, c: C :: g(f(a, b), c) == k(a, h(b, c))
    ensures JoinScript(JoinScript(ls, ms, f), rs, g) == JoinScript(ls, JoinScript(ms, rs, h), k)
  {
    var i := FirstTerminal(ls);
    var inner := JoinScript(ms, rs, h);
    TruncateSettled(inner);
    if i == |ls| {
      JoinScriptOfPending<AB, C, R>(|ls|, rs, g);
    } else if ls[i].Failed? {
      assert ls[..i + 1] == Pending(i) + [ls[i]];
      JoinScriptOfFinished<AB, C, R>(i, Failed(ls[i].error), rs, g);
    } else {
      JoinScriptAssociativeLeftReady(ls, ms, rs, f, g, h, k);
    }
  }

  /** `JoinScriptAssociative` once the left script delivers its item `a`:
      both sides are `Pending(i)` followed by the left item joined with what
      the middle and right scripts yield. */
  lemma JoinScriptAssociativeLeftReady<A, B, C, AB, BC, R>(ls: Script<A>, ms: Script<B>, rs: Script<C>,
                                                            f: (A, B) -> AB, g: (AB, C) -> R,
                                                            h: (B, C) -> BC, k: (A, BC) -> R)
    requires forall a: A, b: B, c: C :: g(f(a, b), c) == k(a, h(b, c))
    requires FirstTerminal(ls) < |ls| && ls[FirstTerminal(ls)].Ready?
    ensures JoinScript(JoinScript(ls, ms, f), rs, g) == JoinScript(ls, JoinScript(ms, rs, h), k)
  {
    var i := FirstTerminal(ls);
    var a := ls[i].value;
    var inner := JoinScript(ms, rs, h);
    TruncateSettled(inner);
    assert JoinScript(ls, inner, k) == Pending(i) + Complete(a, inner, k);
    assert JoinScript(ls, ms, f) == Pending(i) + Complete(a, Truncate(ms), f);
    var j := FirstTerminal(ms);
    if j == |ms| {
      MiddlePending(i, a, ms, rs, f, g, h, k);
    } else if ms[j].Failed? {
      MiddleFailed(i, a, ms, rs, f, g, h, k, j, ms[j].error, i + j);
    } else {
      MiddleReady(i, a, ms, rs, f, g, h, k);
    }
  }

  /** The middle script never finishes: neither side ever does. */
  lemma MiddlePending<A, B, C, AB, BC, R>(i: nat, a: A, ms: Script<B>, rs: Script<C>,
                                          f: (A, B) -> AB, g: (AB, C) -> R,
                                          h: (B, C) -> BC, k: (A, BC) -> R)
    requires FirstTerminal(ms) == |ms|
    ensures JoinScript(Pending(i) + Complete(a, Truncate(ms), f), rs, g) ==
            Pending(i) + Complete(a, JoinScript(ms, rs, h), k)
  {
    var n := |ms|;
    assert Truncate(ms) == ms == Pending(n);
    CompletePending<A, B, AB>(a, n, f);
    PendingAppend<AB>(i, n);
    JoinScriptOfPending<AB, C, R>(i + n, rs, g);
    assert JoinScript(ms, rs, h) == Pending(n);
    CompletePending<A, BC, R>(a, n, k);
    PendingAppend<R>(i, n);
  }

  /** The middle script fails: both sides fail with its error at the same poll. */
  lemma MiddleFailed<A, B, C, AB, BC, R>(i: nat, a: A, ms: Script<B>, rs: Script<C>,
                                         f: (A, B) -> AB, g: (AB, C) -> R,
                                         h: (B, C) -> BC, k: (A, BC) -> R, j: nat, e: IoError, n: nat)
    requires j == FirstTerminal(ms) && j < |ms| && ms[j] == Failed(e) && n == i + j
    ensures JoinScript(Pending(i) + Complete(a, Truncate(ms), f), rs, g) ==
            Pending(i) + Complete(a, JoinScript(ms, rs, h), k)
  {
    MiddleFailedNested(i, a, ms, rs, f, g, j, e, n);
    MiddleFailedOuter(i, a, ms, rs, h, k, j, e, n);
  }

  /** Joining the join of the left and failing middle scripts with the right one. */
  lemma MiddleFailedNested<A, B, C, AB, R>(i: nat, a: A, ms: Script<B>, rs: Script<C>,
                                           f: (A, B) -> AB, g: (AB, C) -> R, j: nat, e: IoError, n: nat)
    requires j == FirstTerminal(ms) && j < |ms| && ms[j] == Failed(e) && n == i + j
    ensures JoinScript(Pending(i) + Complete(a, Truncate(ms), f), rs, g) == Pending(n) + [Failed(e)]
  {
    assert Pending(i) + Complete(a, Truncate(ms), f) == Pending(n) + [Failed(e)] by {
      TruncateFinished(ms);
      CompleteFinished(a, j, ms[j], f);
      PendingThenOne<AB>(i, j, Failed(e));
    }
    JoinScriptOfFinished<AB, C, R>(n, Failed(e), rs, g);
  }

  /** Joining the left script with the join of the failing middle and right ones. */
  lemma MiddleFailedOuter<A, B, C, BC, R>(i: nat, a: A, ms: Script<B>, rs: Script<C>,
                                          h: (B, C) -> BC, k: (A, BC) -> R, j: nat, e: IoError, n: nat)
    requires j == FirstTerminal(ms) && j < |ms| && ms[j] == Failed(e) && n == i + j
    ensures Pending(i) + Complete(a, JoinScript(ms, rs, h), k) == Pending(n) + [Failed(e)]
  {
    assert JoinScript(ms, rs, h) == Pending(j) + [Failed(e)] by {
      TruncateFinished(ms);
    }
    CompleteFinished<A, BC, R>(a, j, Failed(e), k);
    PendingThenOne<R>(i, j, Failed(e));
  }

  /** The middle script delivers `b`: both sides then follow the right script,
      combining the same items. */
  lemma MiddleReady<A, B, C, AB, BC, R>(i: nat, a: A, ms: Script<B>, rs: Script<C>,
                                        f: (A, B) -> AB, g: (AB, C) -> R,
                                        h: (B, C) -> BC, k: (A, BC) -> R)
    requires forall a: A, b: B, c: C :: g(f(a, b), c) == k(a, h(b, c))
    requires FirstTerminal(ms) < |ms| && ms[FirstTerminal(ms)].Ready?
    ensures JoinScript(Pending(i) + Complete(a, Truncate(ms), f), rs, g) ==
            Pending(i) + Complete(a, JoinScript(ms, rs, h), k)
  {
    var n := i + FirstTerminal(ms);
    MiddleReadyNested(i, a, ms, rs, f, g, n);
    MiddleReadyOuter(i, a, ms, rs, f, g, h, k, n);
  }

  /** Joining the join of the left and middle scripts with the right one. */
  lemma MiddleReadyNested<A, B, C, AB, R>(i: nat, a: A, ms: Script<B>, rs: Script<C>,
                                          f: (A, B) -> AB, g: (AB, C) -> R, n: nat)
    requires FirstTerminal(ms) < |ms| && ms[FirstTerminal(ms)].Ready?
    requires n == i + FirstTerminal(ms)
    ensures JoinScript(Pending(i) + Complete(a, Truncate(ms), f), rs, g) ==
            Pending(n) + Complete(f(a, ms[FirstTerminal(ms)].value), Truncate(rs), g)
  {
    var j := FirstTerminal(ms);
    var b := ms[j].value;
    assert Pending(i) + Complete(a, Truncate(ms), f) == Pending(n) + [Ready(f(a, b))] by {
      TruncateFinished(ms);
      CompleteFinished(a, j, ms[j], f);
      PendingThenOne<AB>(i, j, Ready(f(a, b)));
    }
    JoinScriptOfFinished<AB, C, R>(n, Ready(f(a, b)), rs, g);
  }

  /** Joining the left script with the join of the middle and right ones. */
  lemma MiddleReadyOuter<A, B, C, AB, BC, R>(i: nat, a: A, ms: Script<B>, rs: Script<C>,
                                             f: (A, B) -> AB, g: (AB, C) -> R,
                                             h: (B, C) -> BC, k: (A, BC) -> R, n: nat)
    requires forall a: A, b: B, c: C :: g(f(a, b), c) == k(a, h(b, c))
    requires FirstTerminal(ms) < |ms| && ms[FirstTerminal(ms)].Ready?
    requires n == i + FirstTerminal(ms)
    ensures Pending(i) + Complete(a, JoinScript(ms, rs, h), k) ==
            Pending(n) + Complete(f(a, ms[FirstTerminal(ms)].value), Truncate(rs), g)
  {
    var j := FirstTerminal(ms);
    ResolveInnerJoin(a, ms, rs, f, g, h, k);
    PendingRegroup(i, j, n, Complete(a, JoinScript(ms, rs, h), k),
                   Complete(f(a, ms[j].value), Truncate(rs), g));
  }

  lemma PendingRegroup<T>(i: nat, j: nat, n: nat, x: Script<T>, rest: Script<T>)
    requires x == Pending(j) + rest
    requires n == i + j
    ensures Pending(i) + x == Pending(n) + rest
  {
    PendingAppend<T>(i, j);
    assert Pending(i) + (Pending(j) + rest) == (Pending(i) + Pending(j)) + rest;
  }

  /** The left item resolved against the join of the middle and right
      scripts, once the middle script delivered its item. */
  lemma ResolveInnerJoin<A, B, C, AB, BC, R>(a: A, ms: Script<B>, rs: Script<C>,
                                             f: (A, B) -> AB, g: (AB, C) -> R,
                                             h: (B, C) -> BC, k: (A, BC) -> R)
    requires forall a: A, b: B, c: C :: g(f(a, b), c) == k(a, h(b, c))
    requires FirstTerminal(ms) < |ms| && ms[FirstTerminal(ms)].Ready?
    ensures Complete(a, JoinScript(ms, rs, h), k) ==
            Pending(FirstTerminal(ms)) + Complete(f(a, ms[FirstTerminal(ms)].value), Truncate(rs), g)
  {
    var j := FirstTerminal(ms);
    var b := ms[j].value;
    var tr := Truncate(rs);
    assert JoinScript(ms, rs, h) == Pending(j) + Complete(b, tr, h);
    CompleteAppend(a, Pending(j), Complete(b, tr, h), k);
    CompletePending<A, BC, R>(a, j, k);
    CompleteNested(a, b, tr, f, g, h, k);
  }

  /** Resolving twice with associative combine functions is resolving once. */
  lemma CompleteNested<A, B, C, AB, BC, R>(a: A, b: B, xs: Script<C>,
                                           f: (A, B) -> AB, g: (AB, C) -> R,
                                           h: (B, C) -> BC, k: (A, BC) -> R)
    requires forall a: A, b: B, c: C :: g(f(a, b), c) == k(a, h(b, c))
    ensures Complete(a, Complete(b, xs, h), k) == Complete(f(a, b), xs, g)
  {
    var p, q := Complete(a, Complete(b, xs, h), k), Complete(f(a, b), xs, g);
    forall n | 0 <= n < |xs|
      ensures p[n] == q[n]
    {
      assert p[n] == Resolve(a, Resolve(b, xs[n], h), k);
      if xs[n].Ready? {
        assert g(f(a, b), xs[n].value) == k(a, h(b, xs[n].value));
      }
    }
    assert p == q;
  }

  // ---------------------------------------------------------------------------
  // The futures as objects
  // ---------------------------------------------------------------------------

  /** A future that answers its polls from a script. */
  class ScriptedFuture<T> {
    const script: Script<T>
    var polls: nat

    constructor (script: Script<T>)
      ensures this.script == script && polls == 0
    {
      this.script := script;
      polls := 0;
    }

    /** `Future::poll`: the next outcome of the script. */
    method Poll() returns (r: Async<T>)
      modifies this
      ensures polls == old(polls) + 1
      ensures r == At(script, old(polls))
    {
      r := At(script, polls);
      polls := polls + 1;
    }
  }

  /** The join future: the left and right futures and the cached left item
      (`service`, `inner`, `middleware` or `reducer` in the source, depending
      on the combinator). */
  class JoinFuture<A, B, C> {
    const left: ScriptedFuture<A>
    const right: ScriptedFuture<B>
    const combine: (A, B) -> C
    var cached: Option<A>

    /** The two futures are distinct objects. */
    ghost predicate Valid()
      reads this
    {
      left as object != right as object
    }

    /** The state `Step` speaks about. */
    function State(): JoinState<A>
      reads this, left, right
    {
      JoinState(left.polls, right.polls, cached)
    }

    /** A join of two futures that have not been polled, with an empty cache:
        the state of a fresh join is `Start()`. */
    constructor (left: ScriptedFuture<A>, right: ScriptedFuture<B>, combine: (A, B) -> C)
      requires left as object != right as object
      requires left.polls == 0 && right.polls == 0
      ensures Valid()
      ensures this.left == left && this.right == right && this.combine == combine
      ensures State() == Start()
    {
      this.left := left;
      this.right := right;
      this.combine := combine;
      cached := None;
    }

    /** `Future::poll` of the join: exactly one `Step`. The cached item is
        taken out first; it is put back only when the right future is not
        ready, so a right error drops it. */
    method Poll() returns (r: Async<C>)
      requires Valid()
      modifies this, left, right
      ensures Valid()
      ensures (State(), r) == Step(left.script, right.script, combine, old(State()))
    {
      var item: A;
      if cached.Some? {
        item := cached.value;
        cached := None;
      } else {
        var x := left.Poll();
        match x
        case NotReady =>
          return NotReady;
        case Failed(e) =>
          return Failed(e);
        case Ready(a) =>
          item := a;
      }
      var y := right.Poll();
      match y
      case Ready(b) =>
        r := Ready(combine(item, b));
      case Failed(e) =>
        r := Failed(e);
      case NotReady =>
        cached := Some(item);
        r := NotReady;
    }
  }
}
