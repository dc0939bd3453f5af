/** The invariant of FutureGraph, kept by every step. */
module FutureInvariant {
  import opened Basics
  import opened SharedState
  import opened FutureGraph

  predicate BeforeCall(p: Phase) {
    p.Attaching? || p.Stored? || p.Running?
  }

  /** The activity runs inside then(), which has not returned. */
  predicate InsideThen(p: Phase) {
    p.Attaching? || (p.Running? && p.side.Attacher?) || (p.Linking? && p.side.Attacher?)
    || (p.Forwarding? && p.side.Attacher?) || (p.Satisfying? && p.side.Attacher?)
  }

  predicate ThenFailed(p: Phase) {
    p == Rethrown(Attacher)
  }

  /** No future for this state was ever handed to the application. */
  predicate Unpublished(n: Node) {
    if n.origin.Promise? then !n.cell.retrieved else InsideThen(n.phase) || ThenFailed(n.phase)
  }

  /** The outcome that output j has to be satisfied with. */
  ghost predicate Expected(F: Functors, g: Graph, j: nat, o: Outcome)
    requires j < |g|
  {
    match g[j].origin
    case Promise => false
    case Then(i, f) => Ready(g, i) && o == F(f, g[i].cell.outcome.value) && !IsFutureError(o)
    case UnwrapThen(i, _) =>
      match g[j].returned
      case Threw(e) => o == Exception(e)
      case Invalid => o == Exception(FutureError(BrokenPromise))
      case Argument => Ready(g, i) && o == g[i].cell.outcome.value && !IsFutureError(o)
      case Inner(id) => Ready(g, id) && o == g[id].cell.outcome.value && !IsFutureError(o)
      case _ => false
  }

  /** Why output j will never be satisfied: a future_error reached the end of its continuation. */
  ghost predicate Dropped(F: Functors, g: Graph, j: nat)
    requires j < |g|
  {
    match g[j].origin
    case Promise => false
    case Then(i, f) => Ready(g, i) && IsFutureError(F(f, g[i].cell.outcome.value))
    case UnwrapThen(_, _) =>
      HasInner(g[j]) && Ready(g, InnerOf(g[j])) && IsFutureError(g[InnerOf(g[j])].cell.outcome.value)
  }

  predicate RootOk(g: Graph, j: nat)
    requires j < |g| && g[j].origin.Promise?
  {
    var n := g[j];
    n.phase.Root? && n.calls == 0 && n.returned.NotCalled? && !n.orphan
    && (!n.promiseAlive ==> n.cell.outcome.Some?)
  }

  predicate ShapeOk(g: Graph, j: nat)
    requires j < |g| && !g[j].origin.Promise?
  {
    var n := g[j];
    && n.origin.input < j
    && !n.phase.Root?
    && !n.promiseAlive && !n.abandoned
    && n.calls == (if BeforeCall(n.phase) then 0 else 1)
    && (n.returned.NotCalled? <==> BeforeCall(n.phase))
    && (n.returned.Plain? ==> n.origin.Then?)
    && (n.origin.Then? ==> n.returned.Plain? || n.returned.NotCalled?)
    && (n.returned.Inner? ==> n.returned.id < |g|)
    && (n.returned.Argument? ==> n.origin.UnwrapThen?)
    && (n.phase.Linking? || n.phase.Forwarding? ==> HasInner(n))
    && (n.phase.Linked? ==> n.returned.Inner?)
    && (n.phase.Failed? ==> n.returned.Argument?)
    && (n.cell.outcome.Some? <==> n.phase.Finished?)
  }

  ghost predicate FlowOk(F: Functors, g: Graph, j: nat)
    requires j < |g| && !g[j].origin.Promise? && ShapeOk(g, j)
  {
    var n := g[j];
    && (!n.phase.Attaching? && !n.phase.Stored? ==> Ready(g, n.origin.input))
    && (n.phase.Forwarding? ==> Ready(g, InnerOf(n)))
    && (n.phase.Satisfying? ==> Expected(F, g, j, n.phase.o))
    && (n.phase.Finished? ==> Expected(F, g, j, n.cell.outcome.value))
    && (n.phase.Rethrown? ==> Dropped(F, g, j))
    && (ThenFailed(n.phase) ==> g[n.origin.input].thenThrew)
  }

  /** Activity j was entered by a setter: by that of its input, or by that of its intermediate state. */
  predicate SetterRan(g: Graph, j: nat)
    requires j < |g| && !g[j].origin.Promise? && g[j].origin.input < |g|
    requires HasInner(g[j]) ==> InnerOf(g[j]) < |g|
  {
    || g[g[j].origin.input].cell.continuation == Some(Run(j))
    || (HasInner(g[j]) && g[InnerOf(g[j])].cell.continuation == Some(Unwrapper(j)))
  }

  /** No stored continuation is forgotten by a setter. */
  predicate WakeOk(g: Graph, j: nat)
    requires j < |g| && !g[j].origin.Promise? && ShapeOk(g, j)
  {
    var n := g[j];
    && (n.phase.Stored? ==> var i := n.origin.input;
                            g[i].cell.continuation == Some(Run(j)) && (Ready(g, i) ==> g[i].abandoned))
    && (n.phase.Linked? ==> var i := n.returned.id;
                            g[i].cell.continuation == Some(Unwrapper(j)) && (Ready(g, i) ==> g[i].abandoned))
    && (n.phase == Running(Setter) || n.phase == Linking(Setter) || n.phase.Failed? ==>
          g[n.origin.input].cell.continuation == Some(Run(j)))
    && (n.phase == Forwarding(Setter) || n.phase == Rethrown(Setter) ==> SetterRan(g, j))
    && (n.returned.Argument? && !n.phase.Linking? && !n.phase.Failed? ==>
          g[n.origin.input].cell.continuation != Some(Run(j)))
  }

  ghost predicate NodeOk(F: Functors, g: Graph, j: nat)
    requires j < |g|
  {
    if g[j].origin.Promise? then RootOk(g, j)
    else ShapeOk(g, j) && FlowOk(F, g, j) && WakeOk(g, j)
  }

  /** The continuation kept in state i. */
  predicate CellOk(g: Graph, i: nat)
    requires i < |g|
  {
    && (g[i].abandoned ==> Ready(g, i))
    && match g[i].cell.continuation
       case None => true
       case Some(Run(k)) =>
         && IsOutput(g, k) && g[k].origin.input == i
         && !InsideThen(g[k].phase) && !ThenFailed(g[k].phase)
         && (g[i].abandoned || !Ready(g, i) ==> g[k].phase.Stored?)
       case Some(Unwrapper(k)) =>
         && IsOutput(g, k) && g[k].returned == Inner(i)
         && !InsideThen(g[k].phase) && !ThenFailed(g[k].phase) && !g[k].phase.Linking?
         && (g[i].abandoned || !Ready(g, i) ==> g[k].phase.Linked?)
  }

  /** Every state has one owner: the application, or one continuation. */
  predicate OwnerOk(g: Graph, j: nat)
    requires j < |g|
  {
    var n := g[j];
    && (n.held || Unpublished(n) ==> n.taker.Nobody?)
    && (Unpublished(n) ==> !n.held)
    && (!n.origin.Promise? && n.origin.input < |g| && !ThenFailed(n.phase) ==> g[n.origin.input].taker == ByThen(j))
    && (n.returned.Inner? && n.returned.id < |g| ==> g[n.returned.id].taker == ByFunctor(j))
  }

  ghost predicate Inv(F: Functors, g: Graph) {
    && (forall j: nat :: j < |g| ==> NodeOk(F, g, j))
    && (forall j: nat :: j < |g| ==> CellOk(g, j))
    && (forall j: nat :: j < |g| ==> OwnerOk(g, j))
  }

  /** The continuation kept in a state belongs to the one that took its future. */
  lemma TakerOfContinuation(F: Functors, g: Graph, i: nat)
    requires Inv(F, g) && i < |g| && g[i].cell.continuation.Some?
    ensures IsOutput(g, g[i].cell.continuation.value.output)
    ensures g[i].taker == match g[i].cell.continuation.value
                          case Run(k) => ByThen(k)
                          case Unwrapper(k) => ByFunctor(k)
    ensures var k := g[i].cell.continuation.value.output;
            !InsideThen(g[k].phase) && !ThenFailed(g[k].phase)
            && (g[i].cell.continuation.value.Unwrapper? ==> !g[k].phase.Linking?)
  {
    assert CellOk(g, i);
    assert NodeOk(F, g, g[i].cell.continuation.value.output) && OwnerOk(g, g[i].cell.continuation.value.output);
  }

  /** then() finds no other continuation in place. */
  lemma NoSecondContinuation(F: Functors, g: Graph, j: nat)
    requires Inv(F, g) && j < |g| && g[j].phase.Attaching?
    ensures IsOutput(g, j) && g[g[j].origin.input].cell.continuation.None?
  {
    assert NodeOk(F, g, j) && OwnerOk(g, j);
    if g[g[j].origin.input].cell.continuation.Some? {
      TakerOfContinuation(F, g, g[j].origin.input);
      assert false;
    }
  }

  /** The unwrapper finds another continuation in place exactly if the functor ran on the setter's side and
      returned its argument: there it finds the one that is running. */
  lemma SecondContinuationIff(F: Functors, g: Graph, j: nat)
    requires Inv(F, g) && j < |g| && g[j].phase.Linking?
    ensures IsOutput(g, j) && HasInner(g[j]) && InnerOf(g[j]) < |g|
    ensures g[InnerOf(g[j])].cell.continuation.Some? <==> g[j].returned.Argument? && g[j].phase.side.Setter?
    ensures g[InnerOf(g[j])].cell.continuation.Some? ==> g[InnerOf(g[j])].cell.continuation == Some(Run(j))
  {
    assert NodeOk(F, g, j) && OwnerOk(g, j);
    if g[InnerOf(g[j])].cell.continuation.Some? { TakerOfContinuation(F, g, InnerOf(g[j])); }
  }

  /** State i moved forward, as far as other activities can see. */
  predicate Progress(n: Node, m: Node) {
    && (n.cell.outcome.Some? ==> m.cell.outcome == n.cell.outcome)
    && (n.cell.continuation.Some? || n.cell.outcome.Some? ==> m.cell.continuation == n.cell.continuation)
    && (n.thenThrew ==> m.thenThrew) && (n.abandoned ==> m.abandoned)
    && m.origin == n.origin && n.calls <= m.calls && (!n.promiseAlive ==> !m.promiseAlive)
    && (!n.returned.NotCalled? ==> m.returned == n.returned)
  }

  predicate SameActivity(n: Node, m: Node) {
    n.origin == m.origin && n.phase == m.phase && n.calls == m.calls && n.returned == m.returned
    && n.promiseAlive == m.promiseAlive && n.abandoned == m.abandoned && n.orphan == m.orphan
    && n.cell.outcome == m.cell.outcome
  }

  lemma NodeUntouched(F: Functors, g: Graph, h: Graph, j: nat)
    requires j < |g| <= |h| && NodeOk(F, g, j) && SameActivity(g[j], h[j])
    requires forall i: nat :: i < |g| ==> Progress(g[i], h[i])
    requires !g[j].origin.Promise? && g[j].phase.Stored? && Ready(h, g[j].origin.input) ==> Ready(g, g[j].origin.input)
    requires !g[j].origin.Promise? && g[j].phase.Linked? && Ready(h, g[j].returned.id) ==> Ready(g, g[j].returned.id)
    ensures NodeOk(F, h, j)
  {
  }

  /** What an owner looks like. */
  predicate SameOwner(n: Node, m: Node) {
    n.origin == m.origin && n.phase == m.phase && n.returned == m.returned && n.held == m.held
    && n.taker == m.taker && n.cell.retrieved == m.cell.retrieved
  }

  lemma OwnerUntouched(F: Functors, g: Graph, h: Graph, j: nat)
    requires j < |g| <= |h| && NodeOk(F, g, j) && OwnerOk(g, j) && SameOwner(g[j], h[j])
    requires !g[j].origin.Promise? && g[j].origin.input < |g| ==>
               h[g[j].origin.input].taker == g[g[j].origin.input].taker
    requires g[j].returned.Inner? && g[j].returned.id < |g| ==> h[g[j].returned.id].taker == g[g[j].returned.id].taker
    ensures OwnerOk(h, j)
  {
  }

  /** The continuation of state i, if any, belongs to none of these activities. */
  predicate Unrelated(g: Graph, i: nat, acting: set<nat>)
    requires i < |g|
  {
    g[i].cell.continuation.Some? ==> g[i].cell.continuation.value.output !in acting
  }

  lemma CellUntouched(g: Graph, h: Graph, i: nat, acting: set<nat>)
    requires i < |g| <= |h| && CellOk(g, i) && Unrelated(g, i, acting)
    requires h[i].cell.outcome == g[i].cell.outcome && h[i].cell.continuation == g[i].cell.continuation
    requires h[i].abandoned == g[i].abandoned
    requires forall k: nat :: k < |g| && k !in acting ==>
               h[k].origin == g[k].origin && h[k].returned == g[k].returned && h[k].phase == g[k].phase
    ensures CellOk(h, i)
  {
  }

  // ---- Steps of the application ----

  lemma NodeAfterDrop(F: Functors, g: Graph, i: nat, j: nat)
    requires Inv(F, g) && Enabled(g, DropPromise(i)) && j < |g|
    ensures NodeOk(F, AfterDropPromise(g, i), j)
  {
    hide OwnerOk;
    assert NodeOk(F, g, i) && NodeOk(F, g, j);
  }

  predicate OfApplication(e: Event) {
    e.NewPromise? || e.GetFuture? || e.DropPromise? || e.Get? || e.Cancel?
  }

  lemma NodeAfterApplication(F: Functors, g: Graph, e: Event, j: nat)
    requires Inv(F, g) && Enabled(g, e) && OfApplication(e) && j < |Next(F, g, e)|
    ensures NodeOk(F, Next(F, g, e), j)
  {
    hide OwnerOk, CellOk;
    if e.DropPromise? {
      NodeAfterDrop(F, g, e.id, j);
    } else if j < |g| {
      NodeUntouched(F, g, Next(F, g, e), j);
    }
  }

  lemma CellAfterApplication(F: Functors, g: Graph, e: Event, j: nat)
    requires Inv(F, g) && Enabled(g, e) && OfApplication(e) && j < |Next(F, g, e)|
    ensures CellOk(Next(F, g, e), j)
  {
    hide OwnerOk, NodeOk;
    if e.DropPromise? && j == e.id {
      assert CellOk(g, j);
    } else if j < |g| {
      hide CellOk;
      CellUntouched(g, Next(F, g, e), j, {});
    }
  }

  lemma OwnerAfterApplication(F: Functors, g: Graph, e: Event, j: nat)
    requires Inv(F, g) && Enabled(g, e) && OfApplication(e) && j < |Next(F, g, e)|
    ensures OwnerOk(Next(F, g, e), j)
  {
    hide CellOk, FlowOk, WakeOk;
    if j < |g| { assert NodeOk(F, g, j) && OwnerOk(g, j); }
  }

  lemma NodeAfterCallThen(F: Functors, g: Graph, i: nat, f: int, u: bool, j: nat)
    requires Inv(F, g) && Enabled(g, CallThen(i, f, u)) && j < |AfterCallThen(g, i, f, u)|
    ensures NodeOk(F, AfterCallThen(g, i, f, u), j)
  {
    hide CellOk, OwnerOk;
    if j < |g| {
      hide ShapeOk, FlowOk, WakeOk, RootOk;
      NodeUntouched(F, g, AfterCallThen(g, i, f, u), j);
    }
  }

  lemma CellAfterCallThen(F: Functors, g: Graph, i: nat, f: int, u: bool, j: nat)
    requires Inv(F, g) && Enabled(g, CallThen(i, f, u)) && j < |AfterCallThen(g, i, f, u)|
    ensures CellOk(AfterCallThen(g, i, f, u), j)
  {
    hide OwnerOk, NodeOk;
    if j < |g| { CellUntouched(g, AfterCallThen(g, i, f, u), j, {}); }
  }

  lemma OwnerAfterCallThen(F: Functors, g: Graph, i: nat, f: int, u: bool, j: nat)
    requires Inv(F, g) && Enabled(g, CallThen(i, f, u)) && j < |AfterCallThen(g, i, f, u)|
    ensures OwnerOk(AfterCallThen(g, i, f, u), j)
  {
    hide CellOk, FlowOk, WakeOk;
    assert OwnerOk(g, i);
    if j < |g| { assert OwnerOk(g, j) && NodeOk(F, g, j); }
  }

  // ---- set_continuation() in then() ----

  lemma AttachFrame(g: Graph, o: nat, i: nat)
    requires Enabled(g, Attach(o)) && i < |g|
    ensures var h := AfterAttach(g, o);
            && |h| == |g| && Progress(g[i], h[i]) && h[i].taker == g[i].taker && h[i].abandoned == g[i].abandoned
            && h[i].cell.outcome == g[i].cell.outcome
            && (i != o ==> SameActivity(g[i], h[i]) && SameOwner(g[i], h[i]))
            && (i != g[o].origin.input ==> h[i].cell.continuation == g[i].cell.continuation)
  {
  }

  lemma AttachedNode(F: Functors, g: Graph, o: nat)
    requires Inv(F, g) && Enabled(g, Attach(o))
    ensures NodeOk(F, AfterAttach(g, o), o)
  {
    hide OwnerOk, CellOk;
    NoSecondContinuation(F, g, o);
    assert NodeOk(F, g, o);
  }

  lemma NodeAfterAttach(F: Functors, g: Graph, o: nat, j: nat)
    requires Inv(F, g) && Enabled(g, Attach(o)) && j < |AfterAttach(g, o)|
    ensures NodeOk(F, AfterAttach(g, o), j)
  {
    if j == o {
      AttachedNode(F, g, o);
    } else {
      hide NodeOk, CellOk, OwnerOk, AfterAttach;
      forall i: nat | i < |g| { AttachFrame(g, o, i); }
      NodeUntouched(F, g, AfterAttach(g, o), j);
    }
  }

  lemma CellAfterAttach(F: Functors, g: Graph, o: nat, j: nat)
    requires Inv(F, g) && Enabled(g, Attach(o)) && j < |AfterAttach(g, o)|
    ensures CellOk(AfterAttach(g, o), j)
  {
    hide OwnerOk;
    NoSecondContinuation(F, g, o);
    if j == g[o].origin.input || !Unrelated(g, j, {o}) {
      hide FlowOk, WakeOk;
      assert NodeOk(F, g, o) && CellOk(g, j);
    } else {
      hide NodeOk, CellOk, AfterAttach;
      forall i: nat | i < |g| { AttachFrame(g, o, i); }
      CellUntouched(g, AfterAttach(g, o), j, {o});
    }
  }

  lemma OwnerAfterAttach(F: Functors, g: Graph, o: nat, j: nat)
    requires Inv(F, g) && Enabled(g, Attach(o)) && j < |AfterAttach(g, o)|
    ensures OwnerOk(AfterAttach(g, o), j)
  {
    hide FlowOk, WakeOk, CellOk;
    NoSecondContinuation(F, g, o);
    if j == o {
      assert NodeOk(F, g, o) && OwnerOk(g, o);
    } else {
      hide NodeOk, OwnerOk, AfterAttach;
      forall i: nat | i < |g| { AttachFrame(g, o, i); }
      OwnerUntouched(F, g, AfterAttach(g, o), j);
    }
  }

  // ---- set_continuation() on the intermediate state ----

  lemma LinkFrame(g: Graph, o: nat, i: nat)
    requires Enabled(g, Link(o)) && i < |g|
    ensures var h := AfterLink(g, o);
            && |h| == |g| && Progress(g[i], h[i]) && h[i].taker == g[i].taker && h[i].abandoned == g[i].abandoned
            && h[i].cell.outcome == g[i].cell.outcome
            && (i != o ==> SameActivity(g[i], h[i]) && SameOwner(g[i], h[i]))
            && (i != InnerOf(g[o]) ==> h[i].cell.continuation == g[i].cell.continuation)
  {
  }

  lemma LinkedNode(F: Functors, g: Graph, o: nat)
    requires Inv(F, g) && Enabled(g, Link(o))
    ensures NodeOk(F, AfterLink(g, o), o)
  {
    hide OwnerOk, CellOk, RootOk;
    SecondContinuationIff(F, g, o);
    assert NodeOk(F, g, o);
  }

  lemma NodeAfterLink(F: Functors, g: Graph, o: nat, j: nat)
    requires Inv(F, g) && Enabled(g, Link(o)) && j < |AfterLink(g, o)|
    ensures NodeOk(F, AfterLink(g, o), j)
  {
    if j == o {
      LinkedNode(F, g, o);
    } else {
      hide NodeOk, CellOk, OwnerOk, AfterLink;
      forall i: nat | i < |g| { LinkFrame(g, o, i); }
      NodeUntouched(F, g, AfterLink(g, o), j);
    }
  }

  lemma LinkedCell(F: Functors, g: Graph, o: nat, j: nat)
    requires Inv(F, g) && Enabled(g, Link(o)) && j < |g| && (j == InnerOf(g[o]) || !Unrelated(g, j, {o}))
    ensures CellOk(AfterLink(g, o), j)
  {
    hide OwnerOk, WakeOk;
    SecondContinuationIff(F, g, o);
    assert NodeOk(F, g, o) && CellOk(g, j);
  }

  lemma CellAfterLink(F: Functors, g: Graph, o: nat, j: nat)
    requires Inv(F, g) && Enabled(g, Link(o)) && j < |AfterLink(g, o)|
    ensures CellOk(AfterLink(g, o), j)
  {
    if j == InnerOf(g[o]) || !Unrelated(g, j, {o}) {
      LinkedCell(F, g, o, j);
    } else {
      hide NodeOk, CellOk, OwnerOk, AfterLink;
      forall i: nat | i < |g| { LinkFrame(g, o, i); }
      CellUntouched(g, AfterLink(g, o), j, {o});
    }
  }

  lemma LinkedOwner(F: Functors, g: Graph, o: nat)
    requires Inv(F, g) && Enabled(g, Link(o))
    ensures OwnerOk(AfterLink(g, o), o)
  {
    hide FlowOk, CellOk;
    SecondContinuationIff(F, g, o);
    assert NodeOk(F, g, o) && OwnerOk(g, o);
  }

  lemma OwnerAfterLink(F: Functors, g: Graph, o: nat, j: nat)
    requires Inv(F, g) && Enabled(g, Link(o)) && j < |AfterLink(g, o)|
    ensures OwnerOk(AfterLink(g, o), j)
  {
    if j == o {
      LinkedOwner(F, g, o);
    } else {
      hide NodeOk, CellOk, OwnerOk, AfterLink;
      forall i: nat | i < |g| { LinkFrame(g, o, i); }
      OwnerUntouched(F, g, AfterLink(g, o), j);
    }
  }

  // ---- Calls of functors ----

  lemma CallUnwrapFrame(F: Functors, g: Graph, o: nat, r: Returned, i: nat)
    requires Inv(F, g) && Enabled(g, CallUnwrap(o, r)) && i < |g|
    ensures var h := AfterCallUnwrap(g, o, r);
            && |h| == |g| && Progress(g[i], h[i]) && h[i].abandoned == g[i].abandoned && h[i].cell == g[i].cell
            && (i != o ==> SameActivity(g[i], h[i]))
  {
    assert NodeOk(F, g, o);
    hide Inv;
  }

  lemma UnwrapCalledNode(F: Functors, g: Graph, o: nat, r: Returned)
    requires Inv(F, g) && Enabled(g, CallUnwrap(o, r))
    ensures NodeOk(F, AfterCallUnwrap(g, o, r), o)
  {
    hide OwnerOk, CellOk;
    assert NodeOk(F, g, o);
  }

  lemma NodeAfterCallUnwrap(F: Functors, g: Graph, o: nat, r: Returned, j: nat)
    requires Inv(F, g) && Enabled(g, CallUnwrap(o, r)) && j < |AfterCallUnwrap(g, o, r)|
    ensures NodeOk(F, AfterCallUnwrap(g, o, r), j)
  {
    if j == o {
      UnwrapCalledNode(F, g, o, r);
    } else {
      hide NodeOk, CellOk, OwnerOk, AfterCallUnwrap;
      forall i: nat | i < |g| { CallUnwrapFrame(F, g, o, r, i); }
      NodeUntouched(F, g, AfterCallUnwrap(g, o, r), j);
    }
  }

  lemma CellAfterCallUnwrap(F: Functors, g: Graph, o: nat, r: Returned, j: nat)
    requires Inv(F, g) && Enabled(g, CallUnwrap(o, r)) && j < |AfterCallUnwrap(g, o, r)|
    ensures CellOk(AfterCallUnwrap(g, o, r), j)
  {
    hide OwnerOk, FlowOk, WakeOk, RootOk;
    if Unrelated(g, j, {o}) {
      hide NodeOk, CellOk, AfterCallUnwrap;
      forall i: nat | i < |g| { CallUnwrapFrame(F, g, o, r, i); }
      CellUntouched(g, AfterCallUnwrap(g, o, r), j, {o});
    } else {
      assert NodeOk(F, g, o) && CellOk(g, j);
    }
  }

  lemma OwnerAfterCallUnwrap(F: Functors, g: Graph, o: nat, r: Returned, j: nat)
    requires Inv(F, g) && Enabled(g, CallUnwrap(o, r)) && j < |AfterCallUnwrap(g, o, r)|
    ensures OwnerOk(AfterCallUnwrap(g, o, r), j)
  {
    hide FlowOk, WakeOk, CellOk;
    assert NodeOk(F, g, o) && OwnerOk(g, o);
    if r.Inner? { assert OwnerOk(g, r.id); }
    assert OwnerOk(g, j) && NodeOk(F, g, j);
  }

  lemma CallPlainFrame(F: Functors, g: Graph, o: nat, i: nat)
    requires Inv(F, g) && Enabled(g, CallPlain(o)) && i < |g|
    ensures var h := AfterCallPlain(F, g, o);
            && |h| == |g| && Progress(g[i], h[i]) && h[i].abandoned == g[i].abandoned && h[i].cell == g[i].cell
            && (i != o ==> SameActivity(g[i], h[i]))
  {
    assert NodeOk(F, g, o);
    hide Inv;
  }

  lemma PlainCalledNode(F: Functors, g: Graph, o: nat)
    requires Inv(F, g) && Enabled(g, CallPlain(o))
    ensures NodeOk(F, AfterCallPlain(F, g, o), o)
  {
    hide OwnerOk, CellOk;
    assert NodeOk(F, g, o);
  }

  lemma NodeAfterCallPlain(F: Functors, g: Graph, o: nat, j: nat)
    requires Inv(F, g) && Enabled(g, CallPlain(o)) && j < |AfterCallPlain(F, g, o)|
    ensures NodeOk(F, AfterCallPlain(F, g, o), j)
  {
    if j == o {
      PlainCalledNode(F, g, o);
    } else {
      hide NodeOk, CellOk, OwnerOk, AfterCallPlain;
      forall i: nat | i < |g| { CallPlainFrame(F, g, o, i); }
      NodeUntouched(F, g, AfterCallPlain(F, g, o), j);
    }
  }

  lemma CellAfterCallPlain(F: Functors, g: Graph, o: nat, j: nat)
    requires Inv(F, g) && Enabled(g, CallPlain(o)) && j < |AfterCallPlain(F, g, o)|
    ensures CellOk(AfterCallPlain(F, g, o), j)
  {
    hide OwnerOk, FlowOk, WakeOk, RootOk;
    if Unrelated(g, j, {o}) {
      hide NodeOk, CellOk, AfterCallPlain;
      forall i: nat | i < |g| { CallPlainFrame(F, g, o, i); }
      CellUntouched(g, AfterCallPlain(F, g, o), j, {o});
    } else {
      assert NodeOk(F, g, o) && CellOk(g, j);
    }
  }

  lemma OwnerAfterCallPlain(F: Functors, g: Graph, o: nat, j: nat)
    requires Inv(F, g) && Enabled(g, CallPlain(o)) && j < |AfterCallPlain(F, g, o)|
    ensures OwnerOk(AfterCallPlain(F, g, o), j)
  {
    hide FlowOk, WakeOk, CellOk;
    assert NodeOk(F, g, o) && OwnerOk(g, o);
    assert NodeOk(F, g, j) && OwnerOk(g, j);
  }

  lemma ForwardFrame(F: Functors, g: Graph, o: nat, i: nat)
    requires Enabled(g, Forward(o)) && i < |g|
    ensures var h := AfterForward(g, o);
            && |h| == |g| && Progress(g[i], h[i]) && h[i].abandoned == g[i].abandoned && h[i].cell == g[i].cell
            && (i != o ==> SameActivity(g[i], h[i]))
  {
  }

  lemma ForwardedOutcome(F: Functors, g: Graph, o: nat)
    requires Inv(F, g) && Enabled(g, Forward(o)) && !IsFutureError(g[InnerOf(g[o])].cell.outcome.value)
    ensures NodeOk(F, AfterForward(g, o), o)
  {
    hide OwnerOk, CellOk, RootOk;
    assert NodeOk(F, g, o);
  }

  lemma ForwardedError(F: Functors, g: Graph, o: nat)
    requires Inv(F, g) && Enabled(g, Forward(o)) && IsFutureError(g[InnerOf(g[o])].cell.outcome.value)
    ensures NodeOk(F, AfterForward(g, o), o)
  {
    hide OwnerOk, CellOk, RootOk;
    assert NodeOk(F, g, o);
  }

  lemma ForwardedNode(F: Functors, g: Graph, o: nat)
    requires Inv(F, g) && Enabled(g, Forward(o))
    ensures NodeOk(F, AfterForward(g, o), o)
  {
    hide Inv, NodeOk, AfterForward;
    if IsFutureError(g[InnerOf(g[o])].cell.outcome.value) {
      ForwardedError(F, g, o);
    } else {
      ForwardedOutcome(F, g, o);
    }
  }

  lemma NodeAfterForward(F: Functors, g: Graph, o: nat, j: nat)
    requires Inv(F, g) && Enabled(g, Forward(o)) && j < |AfterForward(g, o)|
    ensures NodeOk(F, AfterForward(g, o), j)
  {
    if j == o {
      ForwardedNode(F, g, o);
    } else {
      hide NodeOk, CellOk, OwnerOk, AfterForward;
      forall i: nat | i < |g| { ForwardFrame(F, g, o, i); }
      NodeUntouched(F, g, AfterForward(g, o), j);
    }
  }

  lemma CellAfterForward(F: Functors, g: Graph, o: nat, j: nat)
    requires Inv(F, g) && Enabled(g, Forward(o)) && j < |AfterForward(g, o)|
    ensures CellOk(AfterForward(g, o), j)
  {
    hide OwnerOk, FlowOk, WakeOk, RootOk;
    if Unrelated(g, j, {o}) {
      hide NodeOk, CellOk, AfterForward;
      forall i: nat | i < |g| { ForwardFrame(F, g, o, i); }
      CellUntouched(g, AfterForward(g, o), j, {o});
    } else {
      assert NodeOk(F, g, o) && CellOk(g, j);
    }
  }

  lemma OwnerAfterForward(F: Functors, g: Graph, o: nat, j: nat)
    requires Inv(F, g) && Enabled(g, Forward(o)) && j < |AfterForward(g, o)|
    ensures OwnerOk(AfterForward(g, o), j)
  {
    hide FlowOk, WakeOk, CellOk;
    assert NodeOk(F, g, o) && OwnerOk(g, o);
    assert NodeOk(F, g, j) && OwnerOk(g, j);
  }

  // ---- set_value() and set_exception() ----

  /** The activity that the setter of state i enters, if any. */
  function Entered(g: Graph, i: nat): set<nat>
    requires i < |g|
  {
    match g[i].cell.continuation
    case None => {}
    case Some(c) => {c.output}
  }

  /** An activity that waited for a state is entered by its setter. */
  lemma EnteredNode(F: Functors, g: Graph, h: Graph, k: nat)
    requires k < |g| <= |h| && NodeOk(F, g, k) && !g[k].origin.Promise?
    requires SameActivity(g[k].(phase := h[k].phase), h[k])
    requires forall i: nat :: i < |g| ==> Progress(g[i], h[i])
    requires || (g[k].phase.Stored? && h[k].phase == Running(Setter) && Ready(h, g[k].origin.input))
             || (g[k].phase.Linked? && h[k].phase == Forwarding(Setter) && Ready(h, g[k].returned.id))
    ensures NodeOk(F, h, k)
  {
  }

  /** What waits for an unsatisfied state. */
  lemma EnteredPhase(F: Functors, g: Graph, i: nat, k: nat)
    requires Inv(F, g) && i < |g| && g[i].cell.outcome.None? && k in Entered(g, i)
    ensures k < |g| && NodeOk(F, g, k) && !g[k].origin.Promise?
    ensures match g[i].cell.continuation.value
            case Run(_) => g[k].phase.Stored? && g[k].origin.input == i
            case Unwrapper(_) => g[k].phase.Linked? && g[k].returned == Inner(i)
  {
    hide OwnerOk, NodeOk;
    assert CellOk(g, i);
  }

  lemma SetFrame(g: Graph, i: nat, o: Outcome, k: nat)
    requires Enabled(g, Set(i, o)) && k < |g|
    ensures var h := AfterSet(g, i, o);
            && |h| == |g| && Progress(g[k], h[k]) && h[k].taker == g[k].taker && h[k].abandoned == g[k].abandoned
            && h[k].cell.continuation == g[k].cell.continuation
            && (k != i ==> h[k].cell == g[k].cell)
            && (k != i && k !in Entered(g, i) ==> SameActivity(g[k], h[k]))
            && (k !in Entered(g, i) ==> SameOwner(g[k], h[k]))
  {
  }

  lemma SetNode(F: Functors, g: Graph, i: nat, o: Outcome)
    requires Inv(F, g) && Enabled(g, Set(i, o))
    ensures NodeOk(F, AfterSet(g, i, o), i)
  {
    hide OwnerOk, FlowOk, WakeOk;
    assert NodeOk(F, g, i) && CellOk(g, i);
  }

  lemma EnteredBySet(F: Functors, g: Graph, i: nat, o: Outcome, k: nat)
    requires Inv(F, g) && Enabled(g, Set(i, o)) && k in Entered(g, i) && k != i && k < |g|
    ensures NodeOk(F, AfterSet(g, i, o), k)
  {
    if g[i].cell.outcome.None? {
      EnteredPhase(F, g, i, k);
      hide NodeOk, CellOk, OwnerOk;
      forall j: nat | j < |g| { SetFrame(g, i, o, j); }
      EnteredNode(F, g, AfterSet(g, i, o), k);
    }
  }

  lemma NodeAfterSet(F: Functors, g: Graph, i: nat, o: Outcome, j: nat)
    requires Inv(F, g) && Enabled(g, Set(i, o)) && j < |AfterSet(g, i, o)|
    ensures NodeOk(F, AfterSet(g, i, o), j)
  {
    if j == i {
      SetNode(F, g, i, o);
    } else if j in Entered(g, i) {
      EnteredBySet(F, g, i, o, j);
    } else {
      WaitsForOther(F, g, i, j);
      hide NodeOk, CellOk, OwnerOk, AfterSet;
      forall k: nat | k < |g| { SetFrame(g, i, o, k); }
      NodeUntouched(F, g, AfterSet(g, i, o), j);
    }
  }

  /** Only the activity that waits for state i is entered when it is satisfied. */
  lemma WaitsForOther(F: Functors, g: Graph, i: nat, j: nat)
    requires Inv(F, g) && i < |g| && j < |g| && j !in Entered(g, i)
    ensures !g[j].origin.Promise? && g[j].phase.Stored? ==> g[j].origin.input != i
    ensures !g[j].origin.Promise? && g[j].phase.Linked? ==> g[j].returned.Inner? && g[j].returned.id != i
  {
    hide OwnerOk, CellOk, FlowOk;
    assert NodeOk(F, g, j);
  }

  lemma CellAfterSet(F: Functors, g: Graph, i: nat, o: Outcome, j: nat)
    requires Inv(F, g) && Enabled(g, Set(i, o)) && j < |AfterSet(g, i, o)|
    ensures CellOk(AfterSet(g, i, o), j)
  {
    if g[i].cell.outcome.Some? {
      hide NodeOk, CellOk, OwnerOk;
      assert CellOk(g, j);
    } else if j == i || !Unrelated(g, j, Entered(g, i)) {
      if j != i { EnteringCell(F, g, i, j); }
      hide NodeOk, OwnerOk;
      assert CellOk(g, i) && CellOk(g, j);
    } else {
      hide NodeOk, CellOk, OwnerOk, AfterSet;
      forall k: nat | k < |g| { SetFrame(g, i, o, k); }
      CellUntouched(g, AfterSet(g, i, o), j, Entered(g, i));
    }
  }

  /** No other state keeps a continuation of the activity that is entered. */
  lemma EnteringCell(F: Functors, g: Graph, i: nat, j: nat)
    requires Inv(F, g) && i < |g| && j < |g| && i != j && g[i].cell.outcome.None? && !Unrelated(g, j, Entered(g, i))
    ensures g[j].cell.outcome.Some? && !g[j].abandoned
  {
    hide OwnerOk, FlowOk;
    assert CellOk(g, i) && CellOk(g, j);
    assert NodeOk(F, g, g[j].cell.continuation.value.output);
  }

  lemma OwnerAfterSet(F: Functors, g: Graph, i: nat, o: Outcome, j: nat)
    requires Inv(F, g) && Enabled(g, Set(i, o)) && j < |AfterSet(g, i, o)|
    ensures OwnerOk(AfterSet(g, i, o), j)
  {
    hide WakeOk, FlowOk, RootOk;
    if g[i].cell.continuation.Some? { TakerOfContinuation(F, g, i); }
    assert OwnerOk(g, j) && NodeOk(F, g, j);
  }

  lemma SatisfyFrame(g: Graph, o: nat, k: nat)
    requires Enabled(g, Satisfy(o)) && k < |g|
    ensures var h := AfterSatisfy(g, o);
            && |h| == |g| && Progress(g[k], h[k]) && h[k].taker == g[k].taker && h[k].abandoned == g[k].abandoned
            && h[k].cell.continuation == g[k].cell.continuation
            && (k != o ==> h[k].cell == g[k].cell)
            && (k != o && k !in Entered(g, o) ==> SameActivity(g[k], h[k]) && SameOwner(g[k], h[k]))
  {
  }

  lemma SatisfiedNode(F: Functors, g: Graph, o: nat)
    requires Inv(F, g) && Enabled(g, Satisfy(o))
    ensures NodeOk(F, AfterSatisfy(g, o), o)
  {
    hide OwnerOk, InsideThen;
    assert NodeOk(F, g, o) && CellOk(g, o);
  }

  lemma EnteredBySatisfy(F: Functors, g: Graph, o: nat, k: nat)
    requires Inv(F, g) && Enabled(g, Satisfy(o)) && k in Entered(g, o) && k != o && k < |g|
    ensures NodeOk(F, AfterSatisfy(g, o), k)
  {
    UnsatisfiedOutput(F, g, o);
    EnteredPhase(F, g, o, k);
    hide NodeOk, CellOk, OwnerOk;
    forall j: nat | j < |g| { SatisfyFrame(g, o, j); }
    EnteredNode(F, g, AfterSatisfy(g, o), k);
  }

  lemma NodeAfterSatisfy(F: Functors, g: Graph, o: nat, j: nat)
    requires Inv(F, g) && Enabled(g, Satisfy(o)) && j < |AfterSatisfy(g, o)|
    ensures NodeOk(F, AfterSatisfy(g, o), j)
  {
    if j == o {
      SatisfiedNode(F, g, o);
    } else if j in Entered(g, o) {
      EnteredBySatisfy(F, g, o, j);
    } else {
      WaitsForOther(F, g, o, j);
      hide NodeOk, CellOk, OwnerOk, AfterSatisfy;
      forall k: nat | k < |g| { SatisfyFrame(g, o, k); }
      NodeUntouched(F, g, AfterSatisfy(g, o), j);
    }
  }

  lemma SatisfiedCell(F: Functors, g: Graph, o: nat, j: nat)
    requires Inv(F, g) && Enabled(g, Satisfy(o)) && j < |g| && !Unrelated(g, j, {o})
    ensures CellOk(AfterSatisfy(g, o), j)
  {
    hide OwnerOk, FlowOk;
    assert NodeOk(F, g, o) && CellOk(g, j) && CellOk(g, o);
  }

  lemma CellAfterSatisfy(F: Functors, g: Graph, o: nat, j: nat)
    requires Inv(F, g) && Enabled(g, Satisfy(o)) && j < |AfterSatisfy(g, o)|
    ensures CellOk(AfterSatisfy(g, o), j)
  {
    if !Unrelated(g, j, {o}) {
      SatisfiedCell(F, g, o, j);
    } else if j == o || !Unrelated(g, j, Entered(g, o)) {
      UnsatisfiedOutput(F, g, o);
      if j != o { EnteringCell(F, g, o, j); }
      hide NodeOk, OwnerOk;
      assert CellOk(g, o) && CellOk(g, j);
    } else {
      hide NodeOk, CellOk, OwnerOk, AfterSatisfy;
      forall k: nat | k < |g| { SatisfyFrame(g, o, k); }
      CellUntouched(g, AfterSatisfy(g, o), j, {o} + Entered(g, o));
    }
  }

  lemma UnsatisfiedOutput(F: Functors, g: Graph, o: nat)
    requires Inv(F, g) && Enabled(g, Satisfy(o))
    ensures g[o].cell.outcome.None?
  {
    assert NodeOk(F, g, o);
  }

  lemma SatisfiedOwner(F: Functors, g: Graph, o: nat)
    requires Inv(F, g) && Enabled(g, Satisfy(o))
    ensures OwnerOk(AfterSatisfy(g, o), o)
  {
    hide FlowOk, WakeOk, RootOk, CellOk;
    assert NodeOk(F, g, o) && OwnerOk(g, o);
  }

  lemma EnteredOwner(F: Functors, g: Graph, o: nat, j: nat)
    requires Inv(F, g) && Enabled(g, Satisfy(o)) && j < |g| && j != o && j in Entered(g, o)
    ensures OwnerOk(AfterSatisfy(g, o), j)
  {
    UnsatisfiedOutput(F, g, o);
    EnteredPhase(F, g, o, j);
    hide FlowOk, WakeOk, RootOk, CellOk;
    assert OwnerOk(g, j);
  }

  lemma OwnerAfterSatisfy(F: Functors, g: Graph, o: nat, j: nat)
    requires Inv(F, g) && Enabled(g, Satisfy(o)) && j < |AfterSatisfy(g, o)|
    ensures OwnerOk(AfterSatisfy(g, o), j)
  {
    if j == o {
      SatisfiedOwner(F, g, o);
    } else if j in Entered(g, o) {
      SatisfyFrame(g, o, o);
      EnteredOwner(F, g, o, j);
    } else {
      hide NodeOk, CellOk, OwnerOk, AfterSatisfy;
      forall k: nat | k < |g| { SatisfyFrame(g, o, k); }
      OwnerUntouched(F, g, AfterSatisfy(g, o), j);
    }
  }

  // ---- Every step ----

  /** No step takes an outcome, a continuation, or what happened to a state back; nor does its origin change. */
  lemma StepProgress(F: Functors, g: Graph, e: Event, i: nat)
    requires Inv(F, g) && Enabled(g, e) && i < |g|
    ensures i < |Next(F, g, e)| && Progress(g[i], Next(F, g, e)[i])
  {
    match e
    case Attach(o) => AttachFrame(g, o, i);
    case Link(o) => LinkFrame(g, o, i);
    case CallUnwrap(o, r) => CallUnwrapFrame(F, g, o, r, i);
    case CallPlain(o) => CallPlainFrame(F, g, o, i);
    case Forward(o) => ForwardFrame(F, g, o, i);
    case Set(k, o) => SetFrame(g, k, o, i);
    case Satisfy(o) => SatisfyFrame(g, o, i);
    case _ =>
  }

  lemma StepKeepsInv(F: Functors, g: Graph, e: Event)
    requires Inv(F, g) && Enabled(g, e)
    ensures Inv(F, Next(F, g, e))
  {
    forall j: nat | j < |Next(F, g, e)|
      ensures NodeOk(F, Next(F, g, e), j) && CellOk(Next(F, g, e), j) && OwnerOk(Next(F, g, e), j)
    {
      match e
      case CallThen(i, f, u) =>
        NodeAfterCallThen(F, g, i, f, u, j); CellAfterCallThen(F, g, i, f, u, j); OwnerAfterCallThen(F, g, i, f, u, j);
      case Attach(o) => NodeAfterAttach(F, g, o, j); CellAfterAttach(F, g, o, j); OwnerAfterAttach(F, g, o, j);
      case Link(o) => NodeAfterLink(F, g, o, j); CellAfterLink(F, g, o, j); OwnerAfterLink(F, g, o, j);
      case CallUnwrap(o, r) =>
        NodeAfterCallUnwrap(F, g, o, r, j); CellAfterCallUnwrap(F, g, o, r, j); OwnerAfterCallUnwrap(F, g, o, r, j);
      case CallPlain(o) =>
        NodeAfterCallPlain(F, g, o, j); CellAfterCallPlain(F, g, o, j); OwnerAfterCallPlain(F, g, o, j);
      case Forward(o) => NodeAfterForward(F, g, o, j); CellAfterForward(F, g, o, j); OwnerAfterForward(F, g, o, j);
      case Set(i, o) => NodeAfterSet(F, g, i, o, j); CellAfterSet(F, g, i, o, j); OwnerAfterSet(F, g, i, o, j);
      case Satisfy(o) => NodeAfterSatisfy(F, g, o, j); CellAfterSatisfy(F, g, o, j); OwnerAfterSatisfy(F, g, o, j);
      case _ =>
        NodeAfterApplication(F, g, e, j); CellAfterApplication(F, g, e, j); OwnerAfterApplication(F, g, e, j);
    }
  }

  lemma {:induction false} RunKeepsInv(F: Functors, gs: seq<Graph>, es: seq<Event>, k: nat)
    requires IsRun(F, gs, es) && k < |gs|
    ensures Inv(F, gs[k])
  {
    if k > 0 {
      RunKeepsInv(F, gs, es, k - 1);
      StepKeepsInv(F, gs[k - 1], es[k - 1]);
    }
  }
}
