/** Runs in which the futures do not do what their documentation promises. */
module FutureExamples {
  import opened Basics
  import opened SharedState
  import opened FutureGraph
  import opened FutureInvariant
  import opened FutureTheorems
  import opened FutureCancel

  /** A run that ends in graph g. */
  ghost predicate Reaches(F: Functors, gs: seq<Graph>, es: seq<Event>, g: Graph) {
    IsRun(F, gs, es) && gs[|es|] == g
  }

  /** One step more. */
  lemma Take(F: Functors, gs: seq<Graph>, es: seq<Event>, g: Graph, e: Event)
    returns (hs: seq<Graph>, ds: seq<Event>, h: Graph)
    requires Reaches(F, gs, es, g) && Enabled(g, e)
    ensures Reaches(F, hs, ds, h) && h == Next(F, g, e)
  {
    h := Next(F, g, e);
    hs, ds := gs + [h], es + [e];
    forall k | 0 <= k < |ds| ensures Enabled(hs[k], ds[k]) && hs[k + 1] == Next(F, hs[k], ds[k]) {
      if k < |es| { assert hs[k] == gs[k] && hs[k + 1] == gs[k + 1] && ds[k] == es[k]; }
    }
  }

  lemma Empty(F: Functors) returns (gs: seq<Graph>, es: seq<Event>, g: Graph)
    ensures Reaches(F, gs, es, g) && g == []
  {
    gs, es, g := [[]], [], [];
  }

  /** A promise that is satisfied with a value, and whose future the application holds. */
  lemma ReadyFuture(F: Functors, v: int) returns (gs: seq<Graph>, es: seq<Event>, g: Graph)
    ensures Reaches(F, gs, es, g)
    ensures g == [Node(Cell(Some(Value(v)), None, Some(0), false, true), Promise, Root, true, true, false,
                       0, NotCalled, Nobody, false, false, false)]
  {
    hide Reaches;
    gs, es, g := Empty(F);
    gs, es, g := Take(F, gs, es, g, NewPromise);
    gs, es, g := Take(F, gs, es, g, GetFuture(0));
    gs, es, g := Take(F, gs, es, g, Set(0, Value(v)));
  }

  /** A second promise, of whose state the application holds the future. */
  lemma SecondPromise(F: Functors, fs: seq<Graph>, ds: seq<Event>, f: Graph)
    returns (gs: seq<Graph>, es: seq<Event>, g: Graph)
    requires Reaches(F, fs, ds, f)
    ensures Reaches(F, gs, es, g)
    ensures g == f + [Node(Cell(None, None, Some(|f|), false, true), Promise, Root, true, true, false,
                           0, NotCalled, Nobody, false, false, false)]
  {
    hide Reaches;
    gs, es, g := Take(F, fs, ds, f, NewPromise);
    gs, es, g := Take(F, gs, es, g, GetFuture(|f|));
  }

  // ---- Exceptions that leave then() ----

  /** A plain functor lets a future_error escape from then(). The application still holds the future, but the
      cancellation callback is gone. */
  lemma ThenThrows(F: Functors, v: int, f: int) returns (gs: seq<Graph>, es: seq<Event>, g: Graph)
    requires IsFutureError(F(f, Value(v)))
    ensures Reaches(F, gs, es, g)
    ensures |g| == 2 && g[0].held && g[0].thenThrew && !g[0].orphan
    ensures g[0].cell == Cell(Some(Value(v)), None, None, false, true)
  {
    hide Reaches;
    gs, es, g := ReadyFuture(F, v);
    gs, es, g := Take(F, gs, es, g, CallThen(0, f, false));
    gs, es, g := Take(F, gs, es, g, Attach(1));
    gs, es, g := Take(F, gs, es, g, CallPlain(1));
  }

  /** After that, an unwrapping then() on the same future gives a valid future that is not ready and has no
      callback: cancel() on it calls an empty std::function. */
  lemma CancelOnEmptyCallback(F: Functors, v: int, f: int, u: int) returns (gs: seq<Graph>, es: seq<Event>, g: Graph)
    requires IsFutureError(F(f, Value(v)))
    ensures Reaches(F, gs, es, g)
    ensures |g| > 2 && HasHandle(g, 2) && CancelResult(g[2].cell).EmptyCallback?
  {
    hide Reaches;
    gs, es, g := ThenThrows(F, v, f);
    gs, es, g := Take(F, gs, es, g, CallThen(0, u, true));
    gs, es, g := Take(F, gs, es, g, Attach(2));
    gs, es, g := SecondPromise(F, gs, es, g);
    gs, es, g := LinkSecond(F, gs, es, g);
  }

  /** The running functor of state 2 returns the future of state 3, which is not ready. */
  lemma LinkSecond(F: Functors, fs: seq<Graph>, ds: seq<Event>, f: Graph)
    returns (gs: seq<Graph>, es: seq<Event>, g: Graph)
    requires Reaches(F, fs, ds, f) && |f| == 4 && f[3].held && f[3].cell.outcome.None? && f[3].cell.continuation.None?
    requires IsOutput(f, 2) && f[2].origin.UnwrapThen? && f[2].phase == Running(Attacher)
    ensures Reaches(F, gs, es, g)
    ensures |g| == 4 && g[2].held && g[2].cell == f[2].cell
  {
    hide Reaches;
    gs, es, g := Take(F, fs, ds, f, CallUnwrap(2, Inner(3)));
    gs, es, g := Take(F, gs, es, g, Link(2));
  }

  // ---- Outputs that are lost ----

  /** State j is not ready at the end of this run, and never will be, however the run goes on. */
  ghost predicate NeverReady(F: Functors, gs: seq<Graph>, j: nat) {
    forall hs: seq<Graph>, ds: seq<Event>, m: nat ::
      IsRun(F, hs, ds) && gs <= hs && |gs| - 1 <= m < |hs| ==> !Ready(hs[m], j)
  }

  lemma LostIsNeverReady(F: Functors, gs: seq<Graph>, es: seq<Event>, g: Graph, j: nat)
    requires Reaches(F, gs, es, g) && IsOutput(g, j) && Lost(g[j].phase)
    ensures NeverReady(F, gs, j)
  {
    forall hs: seq<Graph>, ds: seq<Event>, m: nat | IsRun(F, hs, ds) && gs <= hs && |gs| - 1 <= m < |hs|
      ensures !Ready(hs[m], j)
    {
      assert hs[|es|] == g;
      LostForever(F, hs, ds, |es|, m, j);
    }
  }

  /** A promise whose future was consumed by an unwrapping then(); the application holds the output. */
  lemma StoredUnwrap(F: Functors, u: int) returns (gs: seq<Graph>, es: seq<Event>, g: Graph)
    ensures Reaches(F, gs, es, g)
    ensures |g| == 2 && g[0].promiseAlive && g[0].cell == Cell(None, Some(Run(1)), None, false, true)
    ensures g[1].origin == UnwrapThen(0, u) && g[1].phase == Stored && g[1].held && g[1].cell.outcome.None?
  {
    hide Reaches;
    gs, es, g := Empty(F);
    gs, es, g := SecondPromise(F, gs, es, g);
    gs, es, g := Take(F, gs, es, g, CallThen(0, u, true));
    gs, es, g := Take(F, gs, es, g, Attach(1));
  }

  /** Outer and inner state become ready, the inner one because its promise was dropped, and the unwrapped future
      that the application holds never does. */
  lemma UnwrapLosesFutureError(F: Functors, v: int, u: int) returns (gs: seq<Graph>, es: seq<Event>, g: Graph)
    ensures Reaches(F, gs, es, g)
    ensures |g| == 3 && g[1].origin == UnwrapThen(0, u) && g[1].returned == Inner(2)
    ensures Ready(g, 0) && Ready(g, 2) && g[1].held && g[1].phase == Rethrown(Setter)
    ensures NeverReady(F, gs, 1)
  {
    hide Reaches, NeverReady;
    gs, es, g := StoredUnwrap(F, u);
    gs, es, g := SecondPromise(F, gs, es, g);
    gs, es, g := Take(F, gs, es, g, DropPromise(2));
    gs, es, g := Take(F, gs, es, g, Set(0, Value(v)));
    gs, es, g := ForwardSecond(F, gs, es, g);
    LostIsNeverReady(F, gs, es, g, 1);
  }

  /** The running functor of state 1 returns the future of state 2, which holds a future_error. */
  lemma ForwardSecond(F: Functors, fs: seq<Graph>, ds: seq<Event>, f: Graph)
    returns (gs: seq<Graph>, es: seq<Event>, g: Graph)
    requires Reaches(F, fs, ds, f) && |f| == 3 && Ready(f, 0)
    requires f[2].held && Ready(f, 2) && IsFutureError(f[2].cell.outcome.value) && f[2].cell.continuation.None?
    requires IsOutput(f, 1) && f[1].origin.UnwrapThen? && f[1].origin.input == 0
    requires f[1].phase == Running(Setter) && f[1].held
    ensures Reaches(F, gs, es, g)
    ensures |g| == 3 && g[1].origin == f[1].origin && g[1].returned == Inner(2)
    ensures Ready(g, 0) && Ready(g, 2) && g[1].held && g[1].phase == Rethrown(Setter)
  {
    hide Reaches;
    gs, es, g := Take(F, fs, ds, f, CallUnwrap(1, Inner(2)));
    gs, es, g := Take(F, gs, es, g, Link(1));
    gs, es, g := Take(F, gs, es, g, Forward(1));
  }

  lemma AbandonedIsNeverReady(F: Functors, gs: seq<Graph>, es: seq<Event>, g: Graph, i: nat, j: nat)
    requires Reaches(F, gs, es, g) && i < |g| && g[i].abandoned && g[i].cell.continuation == Some(Run(j))
    ensures NeverReady(F, gs, j)
  {
    forall hs: seq<Graph>, ds: seq<Event>, m: nat | IsRun(F, hs, ds) && gs <= hs && |gs| - 1 <= m < |hs|
      ensures !Ready(hs[m], j)
    {
      assert hs[|es|] == g;
      AbandonedNeverRuns(F, hs, ds, |es|, m, i, j);
      RunKeepsInv(F, hs, ds, m);
      StoredIsUnsatisfied(F, hs[m], j);
    }
  }

  lemma StoredIsUnsatisfied(F: Functors, g: Graph, j: nat)
    requires Inv(F, g) && j < |g| && g[j].phase.Stored?
    ensures !Ready(g, j)
  {
    assert NodeOk(F, g, j);
  }

  /** The promise is dropped while its state keeps the continuation: the state is ready, and the output that the
      application holds never becomes ready. */
  lemma AbandonLosesContinuation(F: Functors, u: int) returns (gs: seq<Graph>, es: seq<Event>, g: Graph)
    ensures Reaches(F, gs, es, g)
    ensures |g| == 2 && g[1].origin == UnwrapThen(0, u) && Ready(g, 0) && g[0].abandoned && g[1].held
    ensures NeverReady(F, gs, 1)
  {
    hide Reaches, NeverReady;
    gs, es, g := StoredUnwrap(F, u);
    gs, es, g := Take(F, gs, es, g, DropPromise(0));
    AbandonedIsNeverReady(F, gs, es, g, 0, 1);
  }

  /** The stored functor returns the future it was given, a ready one that holds a value: set_continuation()
      throws, and the unwrapped future that the application holds never becomes ready. */
  lemma ReturnedArgumentThrows(F: Functors, v: int, u: int) returns (gs: seq<Graph>, es: seq<Event>, g: Graph)
    ensures Reaches(F, gs, es, g)
    ensures |g| == 2 && g[1].origin == UnwrapThen(0, u) && g[1].returned == Argument
    ensures g[0].cell.outcome == Some(Value(v)) && g[1].held && g[1].phase == Failed
    ensures NeverReady(F, gs, 1)
  {
    hide Reaches, NeverReady;
    gs, es, g := StoredUnwrap(F, u);
    gs, es, g := Take(F, gs, es, g, Set(0, Value(v)));
    gs, es, g := Take(F, gs, es, g, CallUnwrap(1, Argument));
    gs, es, g := Take(F, gs, es, g, Link(1));
    LostIsNeverReady(F, gs, es, g, 1);
  }

  /** The same functor, attached to a future that is ready: the unwrapped future gets the value. */
  lemma ReturnedArgumentWorks(F: Functors, v: int, u: int) returns (gs: seq<Graph>, es: seq<Event>, g: Graph)
    ensures Reaches(F, gs, es, g)
    ensures |g| == 2 && g[1].origin == UnwrapThen(0, u) && g[1].returned == Argument
    ensures g[0].cell.outcome == Some(Value(v)) && g[1].held && g[1].cell.outcome == Some(Value(v))
  {
    hide Reaches;
    gs, es, g := ReadyFuture(F, v);
    gs, es, g := Take(F, gs, es, g, CallThen(0, u, true));
    gs, es, g := Take(F, gs, es, g, Attach(1));
    gs, es, g := Take(F, gs, es, g, CallUnwrap(1, Argument));
    gs, es, g := Take(F, gs, es, g, Link(1));
    gs, es, g := Take(F, gs, es, g, Forward(1));
    gs, es, g := Take(F, gs, es, g, Satisfy(1));
  }
}
