/** Where the cancellation callback of a promise is, in every run of FutureGraph. */
module FutureCancel {
  import opened Basics
  import opened SharedState
  import opened FutureGraph
  import opened FutureInvariant
  import opened FutureTheorems

  /** The promise at the start of the then() calls that led to state i. */
  function Root(g: Graph, i: nat): nat
    decreases i
  {
    if i < |g| && !g[i].origin.Promise? && g[i].origin.input < i then Root(g, g[i].origin.input) else i
  }

  /** A state without a callback gave it to an output of then(), or never received one. */
  predicate CallbackOk(g: Graph, j: nat)
    requires j < |g|
  {
    var n := g[j];
    && (n.cell.callback.None? <==> n.hasChild || n.orphan)
    && (n.thenThrew ==> n.hasChild && n.cell.outcome.Some?)
    && (n.hasChild && !n.taker.ByThen? ==> n.thenThrew)
    && (n.origin.Promise? ==> !n.orphan)
    && (!n.origin.Promise? ==> n.origin.input < j && g[n.origin.input].hasChild
                               && (n.orphan ==> g[n.origin.input].thenThrew || g[n.origin.input].orphan))
  }

  predicate Holder(g: Graph, r: nat, i: nat) {
    i < |g| && g[i].cell.callback == Some(r)
  }

  ghost predicate OnlyHolder(g: Graph, r: nat, i: nat) {
    Holder(g, r, i) && forall k: nat :: Holder(g, r, k) ==> k == i
  }

  /** Exactly one state holds the callback of promise r. */
  ghost predicate OneHolder(g: Graph, r: nat) {
    exists i: nat :: OnlyHolder(g, r, i)
  }

  predicate CallbacksOk(g: Graph) {
    forall j: nat :: j < |g| ==> CallbackOk(g, j)
  }

  ghost predicate HoldersOk(g: Graph) {
    && (forall r: nat :: r < |g| && g[r].origin.Promise? ==> OneHolder(g, r))
    && (forall r: nat, i: nat :: Holder(g, r, i) ==> r < |g| && g[r].origin.Promise? && Root(g, i) == r)
  }

  /** Root() depends only on the origins. */
  lemma {:induction false} RootKept(g: Graph, h: Graph, i: nat)
    requires i < |g| <= |h| && forall j :: 0 <= j < |g| ==> h[j].origin == g[j].origin
    ensures Root(h, i) == Root(g, i)
    decreases i
  {
    if !g[i].origin.Promise? && g[i].origin.input < i { RootKept(g, h, g[i].origin.input); }
  }

  /** What decides where the callback is. */
  predicate SameHistory(n: Node, m: Node) {
    m.origin == n.origin && m.hasChild == n.hasChild && m.orphan == n.orphan && m.cell.callback == n.cell.callback
  }

  /** The output whose continuation left then() on state i by an exception. */
  predicate ThrewInto(g: Graph, i: nat, j: nat) {
    IsOutput(g, j) && g[j].origin.input == i && g[j].phase == Rethrown(Attacher)
  }

  /** What a step of activity o may do to the history of state i. */
  predicate HistoryKept(g: Graph, h: Graph, i: nat)
    requires i < |g| == |h|
  {
    && SameHistory(g[i], h[i])
    && (h[i].thenThrew <==> g[i].thenThrew)
    && (h[i].taker == g[i].taker || g[i].held)
  }

  lemma HistoryAfterAttach(g: Graph, o: nat, i: nat)
    requires Enabled(g, Attach(o)) && i < |g|
    ensures |AfterAttach(g, o)| == |g| && HistoryKept(g, AfterAttach(g, o), i)
  {
  }

  lemma HistoryAfterLink(g: Graph, o: nat, i: nat)
    requires Enabled(g, Link(o)) && i < |g|
    ensures |AfterLink(g, o)| == |g| && HistoryKept(g, AfterLink(g, o), i)
  {
  }

  lemma HistoryAfterCallUnwrap(g: Graph, o: nat, r: Returned, i: nat)
    requires Enabled(g, CallUnwrap(o, r)) && i < |g|
    ensures |AfterCallUnwrap(g, o, r)| == |g| && HistoryKept(g, AfterCallUnwrap(g, o, r), i)
  {
  }

  lemma HistoryAfterSet(g: Graph, k: nat, o: Outcome, i: nat)
    requires Enabled(g, Set(k, o)) && i < |g|
    ensures |AfterSet(g, k, o)| == |g| && HistoryKept(g, AfterSet(g, k, o), i)
  {
  }

  lemma HistoryAfterSatisfy(g: Graph, o: nat, i: nat)
    requires Enabled(g, Satisfy(o)) && i < |g|
    ensures |AfterSatisfy(g, o)| == |g| && HistoryKept(g, AfterSatisfy(g, o), i)
  {
  }

  lemma HistoryAfterCallPlain(F: Functors, g: Graph, o: nat, i: nat)
    requires Enabled(g, CallPlain(o)) && i < |g|
    ensures var h := AfterCallPlain(F, g, o);
            && |h| == |g| && SameHistory(g[i], h[i]) && h[i].cell == g[i].cell
            && (HistoryKept(g, h, i) || (h[i].thenThrew && i == g[o].origin.input))
            && (i == g[o].origin.input && i != o && !HistoryKept(g, h, i) ==> ThrewInto(h, i, o))
  {
  }

  lemma HistoryAfterForward(g: Graph, o: nat, i: nat)
    requires Enabled(g, Forward(o)) && i < |g|
    ensures var h := AfterForward(g, o);
            && |h| == |g| && SameHistory(g[i], h[i]) && h[i].cell == g[i].cell
            && (HistoryKept(g, h, i) || (h[i].thenThrew && i == g[o].origin.input))
            && (i == g[o].origin.input && i != o && !HistoryKept(g, h, i) ==> ThrewInto(h, i, o))
  {
  }

  /** Every step but a new state keeps the history, except that then() may be left by an exception. */
  lemma StepHistory(F: Functors, g: Graph, e: Event, i: nat)
    requires Inv(F, g) && Enabled(g, e) && !e.NewPromise? && !e.CallThen? && i < |g|
    ensures |Next(F, g, e)| == |g| && SameHistory(g[i], Next(F, g, e)[i])
    ensures || HistoryKept(g, Next(F, g, e), i)
            || ((e.CallPlain? || e.Forward?) && Next(F, g, e)[i].thenThrew && Ready(g, i)
                && IsOutput(g, e.out) && g[e.out].origin.input == i && ThrewInto(Next(F, g, e), i, e.out))
  {
    match e
    case Attach(o) => HistoryAfterAttach(g, o, i);
    case Link(o) => HistoryAfterLink(g, o, i);
    case CallUnwrap(o, r) => HistoryAfterCallUnwrap(g, o, r, i);
    case Set(k, o) => HistoryAfterSet(g, k, o, i);
    case Satisfy(o) => HistoryAfterSatisfy(g, o, i);
    case CallPlain(o) => ActingOk(F, g, o); HistoryAfterCallPlain(F, g, o, i);
    case Forward(o) => ActingOk(F, g, o); HistoryAfterForward(g, o, i);
    case _ =>
  }

  lemma ActingOk(F: Functors, g: Graph, o: nat)
    requires Inv(F, g) && IsOutput(g, o) && (g[o].phase.Running? || g[o].phase.Forwarding?)
    ensures g[o].origin.input < o && Ready(g, g[o].origin.input)
  {
    assert NodeOk(F, g, o);
  }

  lemma CallbackKept(g: Graph, h: Graph, j: nat)
    requires j < |g| == |h| && CallbackOk(g, j) && SameHistory(g[j], h[j])
    requires g[j].cell.outcome.Some? ==> h[j].cell.outcome.Some?
    requires g[j].thenThrew ==> h[j].thenThrew
    requires h[j].thenThrew ==> g[j].thenThrew || (h[j].hasChild && h[j].cell.outcome.Some?)
    requires h[j].taker == g[j].taker || h[j].thenThrew || (g[j].hasChild ==> g[j].thenThrew)
    requires !g[j].origin.Promise? && g[j].origin.input < j ==>
               SameHistory(g[g[j].origin.input], h[g[j].origin.input])
               && (g[g[j].origin.input].thenThrew ==> h[g[j].origin.input].thenThrew)
    ensures CallbackOk(h, j)
  {
  }

  lemma CallbackAfterNewPromise(F: Functors, g: Graph, j: nat)
    requires CallbacksOk(g) && j < |AfterNewPromise(g)|
    ensures CallbackOk(AfterNewPromise(g), j)
  {
    if j < |g| { assert CallbackOk(g, j); }
  }

  lemma CallbackAfterCallThen(F: Functors, g: Graph, i: nat, f: int, u: bool, j: nat)
    requires Inv(F, g) && CallbacksOk(g) && Enabled(g, CallThen(i, f, u)) && j < |AfterCallThen(g, i, f, u)|
    ensures CallbackOk(AfterCallThen(g, i, f, u), j)
  {
    hide NodeOk, CellOk;
    assert CallbackOk(g, i) && OwnerOk(g, i);
    if j < |g| { assert CallbackOk(g, j); }
  }

  lemma StepKeepsCallbacks(F: Functors, g: Graph, e: Event, j: nat)
    requires Inv(F, g) && CallbacksOk(g) && Enabled(g, e) && j < |Next(F, g, e)|
    ensures CallbackOk(Next(F, g, e), j)
    ensures !e.NewPromise? && !e.CallThen? ==>
              j < |g| && Next(F, g, e)[j].cell.callback == g[j].cell.callback && Next(F, g, e)[j].origin == g[j].origin
  {
    match e
    case NewPromise => CallbackAfterNewPromise(F, g, j);
    case CallThen(i, f, u) => CallbackAfterCallThen(F, g, i, f, u, j);
    case _ =>
      SameLength(F, g, e);
      CallbackAfterStep(F, g, e, j);
  }

  lemma CallbackAfterStep(F: Functors, g: Graph, e: Event, j: nat)
    requires Inv(F, g) && CallbacksOk(g) && Enabled(g, e) && !e.NewPromise? && !e.CallThen? && j < |g|
    ensures |Next(F, g, e)| == |g| && CallbackOk(Next(F, g, e), j) && SameHistory(g[j], Next(F, g, e)[j])
  {
    StepHistory(F, g, e, j);
    StepProgress(F, g, e, j);
    if g[j].held { HeldHistory(F, g, j); }
    if !g[j].origin.Promise? && g[j].origin.input < j {
      StepHistory(F, g, e, g[j].origin.input);
      StepProgress(F, g, e, g[j].origin.input);
    }
    hide Next, Enabled, Inv, IsOutput;
    assert CallbackOk(g, j);
    if !HistoryKept(g, Next(F, g, e), j) { assert CallbackOk(g, e.out); }
    CallbackKept(g, Next(F, g, e), j);
  }

  /** The application only holds futures of states whose then(), if there was any, threw. */
  lemma HeldHistory(F: Functors, g: Graph, j: nat)
    requires Inv(F, g) && CallbacksOk(g) && j < |g| && g[j].held
    ensures g[j].hasChild ==> g[j].thenThrew
  {
    hide NodeOk, CellOk;
    assert OwnerOk(g, j) && CallbackOk(g, j);
  }

  lemma HoldersStay(g: Graph, h: Graph)
    requires HoldersOk(g) && |h| == |g|
    requires forall j: nat :: j < |g| ==> h[j].cell.callback == g[j].cell.callback && h[j].origin == g[j].origin
    ensures HoldersOk(h)
  {
    forall r: nat | r < |h| && h[r].origin.Promise? ensures OneHolder(h, r) {
      var i: nat :| OnlyHolder(g, r, i);
      assert forall k: nat :: Holder(h, r, k) ==> Holder(g, r, k);
      assert OnlyHolder(h, r, i);
    }
    forall r: nat, i: nat | Holder(h, r, i) ensures r < |h| && h[r].origin.Promise? && Root(h, i) == r {
      assert Holder(g, r, i);
      RootKept(g, h, i);
    }
  }

  lemma OneHolderAfterNewPromise(g: Graph, r: nat)
    requires r < |g| ==> OneHolder(g, r)
    requires r == |g| ==> forall k: nat :: !Holder(g, r, k)
    requires r <= |g|
    ensures OneHolder(AfterNewPromise(g), r)
  {
    var h := AfterNewPromise(g);
    assert forall k: nat :: k < |g| && Holder(h, r, k) ==> Holder(g, r, k);
    if r < |g| {
      var i: nat :| OnlyHolder(g, r, i);
      assert Holder(g, r, i);
      assert OnlyHolder(h, r, i);
    } else {
      assert OnlyHolder(h, r, r);
    }
  }

  lemma HoldersAfterNewPromise(g: Graph)
    requires HoldersOk(g)
    ensures HoldersOk(AfterNewPromise(g))
  {
    var h := AfterNewPromise(g);
    forall r: nat | r < |h| && h[r].origin.Promise? { OneHolderAfterNewPromise(g, r); }
    forall r: nat, i: nat | Holder(h, r, i) ensures r < |h| && h[r].origin.Promise? && Root(h, i) == r {
      if i < |g| {
        assert Holder(g, r, i);
        RootKept(g, h, i);
      }
    }
  }

  lemma OneHolderAfterCallThen(g: Graph, i: nat, f: int, u: bool, r: nat)
    requires i < |g| && OneHolder(g, r)
    ensures OneHolder(AfterCallThen(g, i, f, u), r)
  {
    var h := AfterCallThen(g, i, f, u);
    var k: nat :| OnlyHolder(g, r, k);
    forall m: nat | Holder(h, r, m) ensures m == if k == i then |g| else k {
      assert Holder(g, r, if m < |g| then m else i);
    }
    assert Holder(g, r, k);
    assert OnlyHolder(h, r, if k == i then |g| else k);
  }

  lemma RootAfterCallThen(g: Graph, i: nat, f: int, u: bool, r: nat, k: nat)
    requires HoldersOk(g) && i < |g| && Holder(AfterCallThen(g, i, f, u), r, k)
    ensures r < |g| && g[r].origin.Promise? && Root(AfterCallThen(g, i, f, u), k) == r
  {
    var m := if k < |g| then k else i;
    assert Holder(g, r, m);
    RootKept(g, AfterCallThen(g, i, f, u), m);
  }

  /** then() hands the callback on to its output. */
  lemma HoldersAfterCallThen(g: Graph, i: nat, f: int, u: bool)
    requires HoldersOk(g) && i < |g|
    ensures HoldersOk(AfterCallThen(g, i, f, u))
  {
    var h := AfterCallThen(g, i, f, u);
    forall r: nat | r < |h| && h[r].origin.Promise? ensures OneHolder(h, r) { OneHolderAfterCallThen(g, i, f, u, r); }
    forall r: nat, k: nat | Holder(h, r, k) ensures r < |h| && h[r].origin.Promise? && Root(h, k) == r {
      RootAfterCallThen(g, i, f, u, r, k);
    }
  }

  lemma {:induction false} RunKeepsCallbacks(F: Functors, gs: seq<Graph>, es: seq<Event>, k: nat)
    requires IsRun(F, gs, es) && k < |gs|
    ensures CallbacksOk(gs[k]) && HoldersOk(gs[k])
  {
    if k > 0 {
      RunKeepsCallbacks(F, gs, es, k - 1);
      RunKeepsInv(F, gs, es, k - 1);
      var g, e := gs[k - 1], es[k - 1];
      forall j: nat | j < |Next(F, g, e)| { StepKeepsCallbacks(F, g, e, j); }
      match e
      case NewPromise => HoldersAfterNewPromise(g);
      case CallThen(i, f, u) => HoldersAfterCallThen(g, i, f, u);
      case _ => SameLength(F, g, e); HoldersStay(g, gs[k]);
    }
  }

  lemma SameLength(F: Functors, g: Graph, e: Event)
    requires Enabled(g, e) && !e.NewPromise? && !e.CallThen?
    ensures |Next(F, g, e)| == |g|
  {
  }

  predicate IsChild(g: Graph, i: nat, j: nat) {
    j < |g| && !g[j].origin.Promise? && g[j].origin.input == i
  }

  ghost predicate ChildOk(g: Graph, i: nat)
    requires i < |g|
  {
    g[i].hasChild ==> exists j: nat :: IsChild(g, i, j)
  }

  lemma ChildStays(F: Functors, g: Graph, e: Event, i: nat, j: nat)
    requires Inv(F, g) && Enabled(g, e) && IsChild(g, i, j)
    ensures IsChild(Next(F, g, e), i, j)
  {
    hide Inv;
    if !e.NewPromise? && !e.CallThen? {
      StepHistory(F, g, e, j);
      hide Next, Enabled;
    }
  }

  /** then() was called on state i in this step. */
  lemma NewChild(F: Functors, g: Graph, e: Event, i: nat)
    requires Inv(F, g) && Enabled(g, e) && i < |Next(F, g, e)| && Next(F, g, e)[i].hasChild
    requires i < |g| ==> !g[i].hasChild
    ensures IsChild(Next(F, g, e), i, |g|)
  {
    hide Inv;
    if !e.NewPromise? && !e.CallThen? {
      SameLength(F, g, e);
      StepHistory(F, g, e, i);
      assert false;
    }
  }

  lemma {:induction false} RunKeepsChildren(F: Functors, gs: seq<Graph>, es: seq<Event>, k: nat, i: nat)
    requires IsRun(F, gs, es) && k < |gs| && i < |gs[k]|
    ensures ChildOk(gs[k], i)
    decreases k
  {
    hide Inv, Next, Enabled;
    if k > 0 && gs[k][i].hasChild {
      var g := gs[k - 1];
      RunKeepsInv(F, gs, es, k - 1);
      if i < |g| && g[i].hasChild {
        RunKeepsChildren(F, gs, es, k - 1, i);
        var j: nat :| IsChild(g, i, j);
        ChildStays(F, g, es[k - 1], i, j);
      } else {
        NewChild(F, g, es[k - 1], i);
      }
    }
  }

  /** The callback of a promise is held by exactly one state: the newest output of the then() calls on it. Where
      then() calls on one state had to be repeated, because they threw, it is the output of the first of them. */
  lemma NewestOutputHoldsCallback(F: Functors, gs: seq<Graph>, es: seq<Event>, k: nat, r: nat, i: nat)
    requires IsRun(F, gs, es) && k < |gs| && r < |gs[k]| && gs[k][r].origin.Promise?
    ensures OneHolder(gs[k], r)
    ensures Holder(gs[k], r, i) <==>
            i < |gs[k]| && Root(gs[k], i) == r && !gs[k][i].orphan && forall j: nat :: !IsChild(gs[k], i, j)
  {
    RunKeepsCallbacks(F, gs, es, k);
    if i < |gs[k]| {
      RunKeepsChildren(F, gs, es, k, i);
      assert CallbackOk(gs[k], i);
      if gs[k][i].cell.callback.Some? { assert Holder(gs[k], gs[k][i].cell.callback.value, i); }
      forall j: nat | IsChild(gs[k], i, j) ensures gs[k][i].hasChild { assert CallbackOk(gs[k], j); }
    }
  }

  /** cancel() calls an emptied callback exactly on a state that then() created from a future whose earlier
      then() had been left by an exception. */
  lemma CancelFindsEmptyCallbackIff(F: Functors, gs: seq<Graph>, es: seq<Event>, k: nat, i: nat)
    requires IsRun(F, gs, es) && k < |gs| && HasHandle(gs[k], i)
    ensures CancelResult(gs[k][i].cell).EmptyCallback? <==>
            gs[k][i].orphan && gs[k][i].cell.outcome.None? && !gs[k][i].cell.cancelled
  {
    RunKeepsCallbacks(F, gs, es, k);
    RunKeepsInv(F, gs, es, k);
    assert CallbackOk(gs[k], i) && OwnerOk(gs[k], i);
    if !gs[k][i].held {
      var j: nat :| IsOutput(gs[k], j) && gs[k][j].origin.input == i && gs[k][j].phase.Running?;
      assert NodeOk(F, gs[k], j);
    }
  }

  /** Every other cancel() on a state that is not ready and not cancelled calls the callback of the promise at the
      start of its then() calls, and marks the state. */
  lemma CancelInvokesRootCallback(F: Functors, gs: seq<Graph>, es: seq<Event>, k: nat, i: nat)
    requires IsRun(F, gs, es) && k < |gs| && HasHandle(gs[k], i) && !gs[k][i].orphan
    ensures gs[k][i].cell.outcome.None? && !gs[k][i].cell.cancelled <==> CancelResult(gs[k][i].cell).Invoked?
    ensures CancelResult(gs[k][i].cell).Invoked? ==>
              var r := Root(gs[k], i);
              && r < |gs[k]| && gs[k][r].origin.Promise? && CancelResult(gs[k][i].cell) == Invoked(r)
              && Next(F, gs[k], Cancel(i))[i].cell.cancelled
    ensures !CancelResult(gs[k][i].cell).Invoked? ==> Next(F, gs[k], Cancel(i))[i].cell == gs[k][i].cell
  {
    CancelFindsEmptyCallbackIff(F, gs, es, k, i);
    RunKeepsCallbacks(F, gs, es, k);
    if gs[k][i].cell.callback.Some? { assert Holder(gs[k], gs[k][i].cell.callback.value, i); }
  }

  lemma {:induction false} NoOrphans(g: Graph, i: nat)
    requires CallbacksOk(g) && i < |g| && forall j: nat :: j < |g| ==> !g[j].thenThrew
    ensures !g[i].orphan
    decreases i
  {
    assert CallbackOk(g, i);
    if !g[i].origin.Promise? { NoOrphans(g, g[i].origin.input); }
  }

  /** While no then() was left by an exception, cancel() never calls an emptied callback. */
  lemma CancelNeverFindsEmptyCallback(F: Functors, gs: seq<Graph>, es: seq<Event>, k: nat, i: nat)
    requires IsRun(F, gs, es) && k < |gs| && HasHandle(gs[k], i)
    requires forall j: nat :: j < |gs[k]| ==> !gs[k][j].thenThrew
    ensures !CancelResult(gs[k][i].cell).EmptyCallback?
  {
    RunKeepsCallbacks(F, gs, es, k);
    NoOrphans(gs[k], i);
    CancelFindsEmptyCallbackIff(F, gs, es, k, i);
  }

  // ---- When then() throws ----

  ghost predicate ThrewOk(g: Graph, i: nat)
    requires i < |g|
  {
    g[i].thenThrew ==> exists j: nat :: ThrewInto(g, i, j)
  }

  /** then() on state i is left by an exception in this step. */
  lemma NewlyThrew(F: Functors, g: Graph, e: Event, i: nat)
    requires Inv(F, g) && Enabled(g, e) && i < |Next(F, g, e)| && Next(F, g, e)[i].thenThrew
    requires i < |g| ==> !g[i].thenThrew
    ensures exists j: nat :: ThrewInto(Next(F, g, e), i, j)
  {
    hide Inv;
    if e.NewPromise? || e.CallThen? {
      assert false;
    } else {
      SameLength(F, g, e);
      StepHistory(F, g, e, i);
      assert ThrewInto(Next(F, g, e), i, e.out);
    }
  }

  lemma {:induction false} RunKeepsThrew(F: Functors, gs: seq<Graph>, es: seq<Event>, k: nat, i: nat)
    requires IsRun(F, gs, es) && k < |gs| && i < |gs[k]|
    ensures ThrewOk(gs[k], i)
    decreases k
  {
    hide Inv, Next, Enabled;
    if k > 0 && gs[k][i].thenThrew {
      RunKeepsInv(F, gs, es, k - 1);
      if i < |gs[k - 1]| && gs[k - 1][i].thenThrew {
        RunKeepsThrew(F, gs, es, k - 1, i);
        var j: nat :| ThrewInto(gs[k - 1], i, j);
        LostStays(F, gs[k - 1], es[k - 1], j);
        assert ThrewInto(gs[k], i, j);
      } else {
        NewlyThrew(F, gs[k - 1], es[k - 1], i);
      }
    }
  }

  /** No functor lets a future_error escape, and no state holds one. */
  ghost predicate NoFutureErrors(F: Functors, g: Graph) {
    && (forall f: int, o: Outcome :: !IsFutureError(F(f, o)))
    && (forall i: nat :: i < |g| && g[i].cell.outcome.Some? ==> !IsFutureError(g[i].cell.outcome.value))
  }

  /** As long as the application keeps std::future_error out of its functors and states, every cancel() finds
      the callback: a valid future on a state that gave the callback up refers to a ready state. */
  lemma CancelIsSafeWithoutFutureErrors(F: Functors, gs: seq<Graph>, es: seq<Event>, k: nat, i: nat)
    requires IsRun(F, gs, es) && k < |gs| && HasHandle(gs[k], i) && NoFutureErrors(F, gs[k])
    ensures !CancelResult(gs[k][i].cell).EmptyCallback?
    ensures gs[k][i].held && gs[k][i].cell.callback.None? ==> Ready(gs[k], i)
  {
    forall m: nat | m < |gs[k]| ensures !gs[k][m].thenThrew { NoThenThrew(F, gs, es, k, m); }
    CancelNeverFindsEmptyCallback(F, gs, es, k, i);
    RunKeepsCallbacks(F, gs, es, k);
    RunKeepsInv(F, gs, es, k);
    NoOrphans(gs[k], i);
    assert CallbackOk(gs[k], i) && OwnerOk(gs[k], i);
  }

  /** A then() is left by an exception only if its functor let a future_error escape, or returned a future that
      holds one. */
  lemma ThenThrowsOnFutureError(F: Functors, gs: seq<Graph>, es: seq<Event>, k: nat, i: nat)
    requires IsRun(F, gs, es) && k < |gs| && i < |gs[k]| && gs[k][i].thenThrew
    ensures exists j: nat :: ThrewInto(gs[k], i, j) && Dropped(F, gs[k], j)
  {
    RunKeepsThrew(F, gs, es, k, i);
    RunKeepsInv(F, gs, es, k);
    var j: nat :| ThrewInto(gs[k], i, j);
    assert NodeOk(F, gs[k], j);
  }

  /** Output j of then() on state i was not entered by a setter, and met a future_error. */
  ghost predicate LetsFutureErrorOut(F: Functors, g: Graph, i: nat, j: nat) {
    && IsOutput(g, j) && g[j].origin.input == i && Dropped(F, g, j)
    && (HasInner(g[j]) ==> InnerOf(g[j]) < |g|) && !SetterRan(g, j)
  }

  /** Once all activity has ceased, then() on a state had been left by an exception exactly if a future_error met
      one of its continuations that was run by then() itself. */
  lemma ThenThrewIff(F: Functors, gs: seq<Graph>, es: seq<Event>, k: nat, i: nat)
    requires IsRun(F, gs, es) && k < |gs| && i < |gs[k]| && Quiescent(gs[k])
    ensures gs[k][i].thenThrew <==> exists j: nat :: LetsFutureErrorOut(F, gs[k], i, j)
  {
    RunKeepsInv(F, gs, es, k);
    if gs[k][i].thenThrew {
      ThenThrowsOnFutureError(F, gs, es, k, i);
      var j: nat :| ThrewInto(gs[k], i, j) && Dropped(F, gs[k], j);
      ThrewOutside(F, gs[k], i, j);
    }
    if j: nat :| LetsFutureErrorOut(F, gs[k], i, j) { DroppedByThen(F, gs[k], i, j); }
  }

  lemma ThrewOutside(F: Functors, g: Graph, i: nat, j: nat)
    requires Inv(F, g) && ThrewInto(g, i, j) && Dropped(F, g, j)
    ensures LetsFutureErrorOut(F, g, i, j)
  {
    assert NodeOk(F, g, j) && CellOk(g, i);
    if HasInner(g[j]) { assert CellOk(g, InnerOf(g[j])); }
  }

  lemma DroppedByThen(F: Functors, g: Graph, i: nat, j: nat)
    requires Inv(F, g) && Quiescent(g) && LetsFutureErrorOut(F, g, i, j)
    ensures i < |g| && g[i].thenThrew
  {
    assert NodeOk(F, g, j);
    assert !g[j].phase.Stored?;
    assert !g[j].phase.Linked?;
    assert !g[j].phase.Failed?;
    assert !g[j].phase.Finished?;
    assert g[j].phase.Rethrown?;
    assert g[j].phase.side.Attacher?;
  }

  lemma NoThenThrew(F: Functors, gs: seq<Graph>, es: seq<Event>, k: nat, i: nat)
    requires IsRun(F, gs, es) && k < |gs| && i < |gs[k]| && NoFutureErrors(F, gs[k])
    ensures !gs[k][i].thenThrew
  {
    if gs[k][i].thenThrew { ThenThrowsOnFutureError(F, gs, es, k, i); }
  }
}
