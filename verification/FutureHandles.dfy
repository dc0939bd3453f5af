/** Who holds the valid future of a state: who gets it, who gives it away, and when it comes back. */
module FutureHandles {
  import opened Basics
  import opened SharedState
  import opened FutureGraph
  import opened FutureInvariant

  /** get() and then() on the future, and a functor that returns it. */
  predicate Consumes(e: Event, i: nat) {
    e == Get(i) || (e.CallThen? && e.id == i) || (e.CallUnwrap? && e.r == Inner(i))
  }

  /** A future_error leaves a then() on state i, from the functor or from the future that it returned. */
  predicate GivesBack(g: Graph, h: Graph, e: Event, i: nat) {
    && (e.CallPlain? || e.Forward?) && e.out < |g| && e.out < |h| && !g[e.out].origin.Promise?
    && g[e.out].origin.input == i && ThenFailed(h[e.out].phase)
  }

  /** A future is held from get_future(), or from the return of then(), until it is consumed; and again, if the
      then() that consumed it throws. */
  ghost predicate HandleMoved(F: Functors, g: Graph, e: Event, i: nat)
    requires Enabled(g, e) && i < |g| && i < |Next(F, g, e)|
  {
    var h := Next(F, g, e);
    h[i].held <==>
      || (g[i].held && !Consumes(e, i))
      || (Unpublished(g[i]) && !Unpublished(h[i]))
      || GivesBack(g, h, e, i)
  }

  lemma AttachMoves(F: Functors, g: Graph, j: nat, i: nat)
    requires Inv(F, g) && Enabled(g, Attach(j)) && i < |g|
    ensures i < |Next(F, g, Attach(j))| && HandleMoved(F, g, Attach(j), i)
  {
    NoSecondContinuation(F, g, j);
    assert OwnerOk(g, j);
    hide Inv;
  }

  lemma UnwrapMoves(F: Functors, g: Graph, j: nat, r: Returned, i: nat)
    requires Inv(F, g) && Enabled(g, CallUnwrap(j, r)) && i < |g|
    ensures i < |Next(F, g, CallUnwrap(j, r))| && HandleMoved(F, g, CallUnwrap(j, r), i)
  {
    assert OwnerOk(g, j) && OwnerOk(g, i) && NodeOk(F, g, j);
    hide CellOk, FlowOk, WakeOk, Inv;
  }

  lemma CallMoves(F: Functors, g: Graph, e: Event, i: nat)
    requires Inv(F, g) && Enabled(g, e) && i < |g| && (e.CallPlain? || e.Forward?)
    ensures i < |Next(F, g, e)| && HandleMoved(F, g, e, i)
  {
    assert OwnerOk(g, e.out) && OwnerOk(g, i) && NodeOk(F, g, e.out);
    hide CellOk, FlowOk, WakeOk, Inv;
  }

  lemma LinkMoves(F: Functors, g: Graph, j: nat, i: nat)
    requires Inv(F, g) && Enabled(g, Link(j)) && i < |g|
    ensures i < |Next(F, g, Link(j))| && HandleMoved(F, g, Link(j), i)
  {
    SecondContinuationIff(F, g, j);
    assert OwnerOk(g, j) && OwnerOk(g, i) && NodeOk(F, g, j);
    hide CellOk, FlowOk, WakeOk, Inv;
  }

  lemma SatisfyMoves(F: Functors, g: Graph, e: Event, i: nat)
    requires Inv(F, g) && Enabled(g, e) && i < |g| && (e.Satisfy? || e.Set?)
    ensures i < |Next(F, g, e)| && HandleMoved(F, g, e, i)
  {
    var j := if e.Satisfy? then e.out else e.id;
    assert OwnerOk(g, j) && OwnerOk(g, i) && NodeOk(F, g, j);
    if g[j].cell.continuation.Some? { TakerOfContinuation(F, g, j); }
    assert CellOk(g, j);
    hide FlowOk, Inv;
  }

  lemma ApplicationMoves(F: Functors, g: Graph, e: Event, i: nat)
    requires Inv(F, g) && Enabled(g, e) && i < |g| && (OfApplication(e) || e.CallThen?)
    ensures i < |Next(F, g, e)| && HandleMoved(F, g, e, i)
  {
    assert NodeOk(F, g, i) && OwnerOk(g, i);
    hide Inv;
  }

  lemma StepMovesHandle(F: Functors, g: Graph, e: Event, i: nat)
    requires Inv(F, g) && Enabled(g, e) && i < |g|
    ensures i < |Next(F, g, e)| && HandleMoved(F, g, e, i)
  {
    match e
    case Attach(j) => AttachMoves(F, g, j, i);
    case CallPlain(_) => CallMoves(F, g, e, i);
    case CallUnwrap(j, r) => UnwrapMoves(F, g, j, r, i);
    case Forward(_) => CallMoves(F, g, e, i);
    case Link(j) => LinkMoves(F, g, j, i);
    case Satisfy(_) => SatisfyMoves(F, g, e, i);
    case Set(_, _) => SatisfyMoves(F, g, e, i);
    case _ => ApplicationMoves(F, g, e, i);
  }

  /** The same over a run, and a new state is held by nobody. */
  lemma HandleOverRun(F: Functors, gs: seq<Graph>, es: seq<Event>, k: nat, i: nat)
    requires IsRun(F, gs, es) && k < |es| && i < |gs[k + 1]|
    ensures if i < |gs[k]| then HandleMoved(F, gs[k], es[k], i) else !gs[k + 1][i].held
  {
    RunKeepsInv(F, gs, es, k);
    if i < |gs[k]| { StepMovesHandle(F, gs[k], es[k], i); } else { NewStateIsUnheld(F, gs[k], es[k], i); }
  }

  lemma NewStateIsUnheld(F: Functors, g: Graph, e: Event, i: nat)
    requires Enabled(g, e) && |g| <= i < |Next(F, g, e)|
    ensures !Next(F, g, e)[i].held
  {
  }

  /** The first get_future() hands the future of the promise out; later calls hand out none. */
  lemma FutureIsRetrievedOnce(F: Functors, gs: seq<Graph>, es: seq<Event>, k: nat)
    requires IsRun(F, gs, es) && k < |es| && es[k].GetFuture?
    ensures var i := es[k].id;
            && !Unpublished(gs[k + 1][i])
            && (Unpublished(gs[k][i]) ==> gs[k + 1][i].held)
            && (!Unpublished(gs[k][i]) ==> gs[k + 1][i].held == gs[k][i].held)
  {
    RunKeepsInv(F, gs, es, k);
    assert NodeOk(F, gs[k], es[k].id) && OwnerOk(gs[k], es[k].id);
    hide Inv;
  }
}
