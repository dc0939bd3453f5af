/** What holds in every run of FutureGraph. */
module FutureTheorems {
  import opened Basics
  import opened SharedState
  import opened FutureGraph
  import opened FutureInvariant

  /** Every activity has finished, or waits for somebody else to satisfy a state. */
  predicate Quiescent(g: Graph) {
    forall j :: 0 <= j < |g| ==>
      g[j].phase.Root? || g[j].phase.Stored? || g[j].phase.Linked? || g[j].phase.Finished? || Lost(g[j].phase)
  }

  /** An exception left execute(), and the output was dropped unsatisfied. */
  predicate Lost(p: Phase) {
    p.Rethrown? || p.Failed?
  }

  // ---- One state, one continuation ----

  /** The library runs into its own throws, promise_already_satisfied and future_already_retrieved, exactly if an
      unwrapping functor returned its argument after its continuation had been stored. */
  lemma LibraryThrowsIff(F: Functors, gs: seq<Graph>, es: seq<Event>, k: nat, j: nat)
    requires IsRun(F, gs, es) && k < |gs| && j < |gs[k]|
    ensures gs[k][j].phase.Failed? <==>
            && IsOutput(gs[k], j) && gs[k][j].returned.Argument? && !gs[k][j].phase.Linking?
            && gs[k][gs[k][j].origin.input].cell.continuation == Some(Run(j))
  {
    RunKeepsInv(F, gs, es, k);
    assert NodeOk(F, gs[k], j);
  }

  /** The output of an activity that an exception left is never satisfied, at any later point of any run. */
  lemma {:induction false} LostForever(F: Functors, gs: seq<Graph>, es: seq<Event>, k: nat, m: nat, j: nat)
    requires IsRun(F, gs, es) && k <= m < |gs| && IsOutput(gs[k], j) && Lost(gs[k][j].phase)
    ensures IsOutput(gs[m], j) && gs[m][j].phase == gs[k][j].phase && gs[m][j].origin == gs[k][j].origin
    ensures !Ready(gs[m], j)
    decreases m
  {
    hide Inv, Next, Enabled;
    RunKeepsInv(F, gs, es, m);
    if k < m {
      RunKeepsInv(F, gs, es, m - 1);
      LostForever(F, gs, es, k, m - 1, j);
      LostStays(F, gs[m - 1], es[m - 1], j);
    }
    LostIsUnsatisfied(F, gs[m], j);
  }

  lemma LostIsUnsatisfied(F: Functors, g: Graph, j: nat)
    requires Inv(F, g) && IsOutput(g, j) && Lost(g[j].phase)
    ensures !Ready(g, j)
  {
    assert NodeOk(F, g, j);
  }

  lemma LostStays(F: Functors, g: Graph, e: Event, j: nat)
    requires Inv(F, g) && Enabled(g, e) && IsOutput(g, j) && Lost(g[j].phase)
    ensures IsOutput(Next(F, g, e), j) && Next(F, g, e)[j].phase == g[j].phase
    ensures Next(F, g, e)[j].origin == g[j].origin
  {
    hide Inv, AfterAttach, AfterLink, AfterCallPlain, AfterCallUnwrap, AfterForward, AfterSatisfy;
    match e
    case Attach(o) => AttachFrame(g, o, j);
    case Link(o) => LinkFrame(g, o, j);
    case CallUnwrap(o, r) => CallUnwrapFrame(F, g, o, r, j);
    case CallPlain(o) => CallPlainFrame(F, g, o, j);
    case Forward(o) => ForwardFrame(F, g, o, j);
    case Set(i, o) => if g[i].cell.outcome.None? { LostNotEntered(F, g, i, j); SetFrame(g, i, o, j); }
    case Satisfy(o) => UnsatisfiedOutput(F, g, o); LostNotEntered(F, g, o, j); SatisfyFrame(g, o, j);
    case _ =>
  }

  lemma LostNotEntered(F: Functors, g: Graph, i: nat, j: nat)
    requires Inv(F, g) && i < |g| && j < |g| && Lost(g[j].phase) && g[i].cell.outcome.None?
    ensures j !in Entered(g, i)
  {
    hide Inv;
    if j in Entered(g, i) {
      EnteredPhase(F, g, i, j);
      assert false;
    }
  }

  lemma {:induction false} RunProgress(F: Functors, gs: seq<Graph>, es: seq<Event>, k: nat, m: nat, i: nat)
    requires IsRun(F, gs, es) && k <= m < |gs| && i < |gs[k]|
    ensures i < |gs[m]| && Progress(gs[k][i], gs[m][i])
    decreases m
  {
    hide Next, Enabled;
    if k < m {
      RunProgress(F, gs, es, k, m - 1, i);
      RunKeepsInv(F, gs, es, m - 1);
      StepProgress(F, gs[m - 1], es[m - 1], i);
    }
  }

  /** A ready state keeps its outcome for the rest of the run. */
  lemma OutcomeNeverChanges(F: Functors, gs: seq<Graph>, es: seq<Event>, k: nat, m: nat, i: nat)
    requires IsRun(F, gs, es) && k <= m < |gs| && Ready(gs[k], i)
    ensures Ready(gs[m], i) && gs[m][i].cell.outcome == gs[k][i].cell.outcome
  {
    RunProgress(F, gs, es, k, m, i);
  }

  /** A functor runs at most once, and only on a ready input. */
  lemma CalledAtMostOnce(F: Functors, gs: seq<Graph>, es: seq<Event>, k: nat, j: nat)
    requires IsRun(F, gs, es) && k < |gs| && j < |gs[k]|
    ensures gs[k][j].calls <= 1
    ensures gs[k][j].calls == 1 ==> IsOutput(gs[k], j) && Ready(gs[k], gs[k][j].origin.input)
  {
    RunKeepsInv(F, gs, es, k);
    assert NodeOk(F, gs[k], j);
  }

  /** Once all activity has ceased, a functor has run exactly if its input is ready, unless the input was
      abandoned while it kept the continuation. */
  lemma CalledExactlyOnce(F: Functors, gs: seq<Graph>, es: seq<Event>, k: nat, j: nat)
    requires IsRun(F, gs, es) && k < |gs| && Quiescent(gs[k]) && IsOutput(gs[k], j)
    ensures var i := gs[k][j].origin.input;
            gs[k][j].calls == 1 <==>
            Ready(gs[k], i) && !(gs[k][i].abandoned && gs[k][i].cell.continuation == Some(Run(j)))
  {
    RunKeepsInv(F, gs, es, k);
    assert NodeOk(F, gs[k], j) && CellOk(gs[k], gs[k][j].origin.input);
  }

  /** abandon() does not enter the stored continuation, and nothing else does afterwards. */
  lemma {:induction false} AbandonedNeverRuns(F: Functors, gs: seq<Graph>, es: seq<Event>,
                                               k: nat, m: nat, i: nat, j: nat)
    requires IsRun(F, gs, es) && k <= m < |gs| && i < |gs[k]|
    requires gs[k][i].abandoned && gs[k][i].cell.continuation == Some(Run(j))
    ensures j < |gs[m]| && gs[m][j].phase.Stored? && gs[m][j].calls == 0
    decreases m
  {
    StaysAbandoned(F, gs, es, k, m, i, Run(j));
    RunKeepsInv(F, gs, es, m);
    assert CellOk(gs[m], i) && NodeOk(F, gs[m], j);
  }

  lemma StaysAbandoned(F: Functors, gs: seq<Graph>, es: seq<Event>,
                       k: nat, m: nat, i: nat, c: Continuation)
    requires IsRun(F, gs, es) && k <= m < |gs| && i < |gs[k]|
    requires gs[k][i].abandoned && gs[k][i].cell.continuation == Some(c)
    ensures i < |gs[m]| && gs[m][i].abandoned && gs[m][i].cell.continuation == Some(c)
  {
    RunProgress(F, gs, es, k, m, i);
  }

  // ---- What the application asked for ----

  /** Step m satisfies the state of promise i with outcome o. */
  ghost predicate SatisfiesPromise(gs: seq<Graph>, es: seq<Event>, m: nat, i: nat, o: Outcome) {
    && m < |es| && m < |gs| && i < |gs[m]| && gs[m][i].cell.outcome.None?
    && (es[m] == Set(i, o) || (es[m] == DropPromise(i) && o == Exception(FutureError(BrokenPromise))))
  }

  /** The first set_value() or set_exception(), or else the end of the promise, decides the outcome of its state. */
  lemma PromiseKeepsOutcome(F: Functors, gs: seq<Graph>, es: seq<Event>, m: nat, k: nat, i: nat, o: Outcome)
    requires IsRun(F, gs, es) && m < k < |gs| && SatisfiesPromise(gs, es, m, i, o)
    ensures i < |gs[k]| && gs[k][i].cell.outcome == Some(o)
  {
    OutcomeAfterSatisfying(F, gs[m], es[m], i, o);
    RunProgress(F, gs, es, m + 1, k, i);
  }

  lemma OutcomeAfterSatisfying(F: Functors, g: Graph, e: Event, i: nat, o: Outcome)
    requires Enabled(g, e) && i < |g| && g[i].cell.outcome.None?
    requires e == Set(i, o) || (e == DropPromise(i) && o == Exception(FutureError(BrokenPromise)))
    ensures i < |Next(F, g, e)| && Next(F, g, e)[i].cell.outcome == Some(o)
  {
  }

  /** Nothing else satisfies it. */
  lemma {:induction false} PromiseOutcome(F: Functors, gs: seq<Graph>, es: seq<Event>, k: nat, i: nat)
    requires IsRun(F, gs, es) && k < |gs| && Ready(gs[k], i) && gs[k][i].origin.Promise?
    ensures exists m: nat :: m < k && SatisfiesPromise(gs, es, m, i, gs[k][i].cell.outcome.value)
    decreases k
  {
    hide Next, Enabled, Inv;
    RunKeepsInv(F, gs, es, k - 1);
    if i < |gs[k - 1]| { StepProgress(F, gs[k - 1], es[k - 1], i); }
    if Ready(gs[k - 1], i) {
      PromiseOutcome(F, gs, es, k - 1, i);
    } else {
      PromiseSatisfied(F, gs[k - 1], es[k - 1], i);
      assert SatisfiesPromise(gs, es, k - 1, i, gs[k][i].cell.outcome.value);
    }
  }

  /** The step that makes the state of a promise ready. */
  lemma PromiseSatisfied(F: Functors, g: Graph, e: Event, i: nat)
    requires Inv(F, g) && Enabled(g, e) && !Ready(g, i) && Ready(Next(F, g, e), i) && Next(F, g, e)[i].origin.Promise?
    ensures var o := Next(F, g, e)[i].cell.outcome.value;
            i < |g| && (e == Set(i, o) || (e == DropPromise(i) && o == Exception(FutureError(BrokenPromise))))
  {
    hide Inv;
    if i < |g| {
      StepProgress(F, g, e, i);
      match e
      case Attach(o) => AttachFrame(g, o, i);
      case Link(o) => LinkFrame(g, o, i);
      case CallUnwrap(o, r) => CallUnwrapFrame(F, g, o, r, i);
      case CallPlain(o) => CallPlainFrame(F, g, o, i);
      case Forward(o) => ForwardFrame(F, g, o, i);
      case Set(k, o) => SetFrame(g, k, o, i); if k == i { OutcomeAfterSatisfying(F, g, e, i, o); }
      case Satisfy(o) => SatisfyFrame(g, o, i);
      case _ =>
    }
  }

  /** then() creates the output it was asked for: of this future, with this functor, plain or unwrapping. */
  lemma ThenCreatesOutput(F: Functors, gs: seq<Graph>, es: seq<Event>, m: nat, k: nat)
    requires IsRun(F, gs, es) && m < |es| && es[m].CallThen? && m < k < |gs|
    ensures var CallThen(i, f, unwrap) := es[m];
            var out := |gs[m]|;
            && out < |gs[k]| && gs[k][out].origin == (if unwrap then UnwrapThen(i, f) else Then(i, f))
            && i < out
  {
    assert gs[m + 1] == AfterCallThen(gs[m], es[m].id, es[m].functor, es[m].unwrap);
    RunProgress(F, gs, es, m + 1, k, |gs[m]|);
  }

  /** then() and get() leave an invalid future behind. */
  lemma FutureIsConsumed(F: Functors, g: Graph, e: Event)
    requires Enabled(g, e) && (e.CallThen? || e.Get?)
    ensures e.id < |Next(F, g, e)| && g[e.id].held && !Next(F, g, e)[e.id].held
  {
  }

  /** What a functor did, once it ran, is what counts for its output from then on. */
  lemma FunctorResultIsKept(F: Functors, gs: seq<Graph>, es: seq<Event>, m: nat, k: nat)
    requires IsRun(F, gs, es) && m < |es| && (es[m].CallUnwrap? || es[m].CallPlain?) && m < k < |gs|
    ensures var j := es[m].out;
            j < |gs[k]| && gs[k][j].returned == if es[m].CallUnwrap? then es[m].r else Plain
  {
    ResultIsRecorded(F, gs[m], es[m]);
    RunProgress(F, gs, es, m + 1, k, es[m].out);
  }

  lemma ResultIsRecorded(F: Functors, g: Graph, e: Event)
    requires Enabled(g, e) && (e.CallUnwrap? || e.CallPlain?)
    ensures var j := e.out;
            j < |Next(F, g, e)| && Next(F, g, e)[j].returned == (if e.CallUnwrap? then e.r else Plain)
            && !Next(F, g, e)[j].returned.NotCalled?
  {
  }

  /** A promise that was destroyed is not used again. */
  lemma PromiseEnds(F: Functors, gs: seq<Graph>, es: seq<Event>, m: nat, k: nat)
    requires IsRun(F, gs, es) && m < k < |es| && es[m].DropPromise?
    ensures es[k].GetFuture? || es[k].Set? || es[k].DropPromise? ==> es[k].id != es[m].id
  {
    assert gs[m + 1] == AfterDropPromise(gs[m], es[m].id);
    RunProgress(F, gs, es, m + 1, k, es[m].id);
  }

  predicate Calls(e: Event, j: nat) {
    (e.CallPlain? || e.CallUnwrap?) && e.out == j
  }

  /** A functor is called by one step of the run at most, and after its input became ready. */
  lemma FunctorCalledOnce(F: Functors, gs: seq<Graph>, es: seq<Event>, m: nat, k: nat, j: nat)
    requires IsRun(F, gs, es) && m <= k < |es| && Calls(es[m], j) && Calls(es[k], j)
    ensures m == k && IsOutput(gs[k], j) && Ready(gs[k], gs[k][j].origin.input)
  {
    hide Next, Inv;
    RunKeepsInv(F, gs, es, k);
    UncalledWhenRunning(F, gs[k], j);
    if m < k {
      RunKeepsInv(F, gs, es, m);
      CallIsCounted(F, gs[m], es[m], j);
      RunProgress(F, gs, es, m + 1, k, j);
    }
  }

  lemma UncalledWhenRunning(F: Functors, g: Graph, j: nat)
    requires Inv(F, g) && IsOutput(g, j) && g[j].phase.Running?
    ensures g[j].calls == 0 && Ready(g, g[j].origin.input)
  {
    assert NodeOk(F, g, j);
  }

  lemma CallIsCounted(F: Functors, g: Graph, e: Event, j: nat)
    requires Inv(F, g) && Enabled(g, e) && Calls(e, j)
    ensures j < |Next(F, g, e)| && Next(F, g, e)[j].calls > 0
  {
    hide CellOk, OwnerOk, FlowOk, WakeOk;
    assert NodeOk(F, g, j);
  }

  // ---- Chains of plain continuations ----

  /** The functors fs, one after the other, on an outcome. */
  ghost function Fold(F: Functors, fs: seq<int>, o: Outcome): Outcome {
    if fs == [] then o else F(fs[|fs| - 1], Fold(F, fs[..|fs| - 1], o))
  }

  /** c[0] is a state, and c[k + 1] the output of then(fs[k]) on c[k]. */
  predicate Chain(g: Graph, c: seq<nat>, fs: seq<int>) {
    && |c| == |fs| + 1
    && (forall k :: 0 <= k < |c| ==> c[k] < |g|)
    && (forall k :: 0 <= k < |fs| ==> g[c[k + 1]].origin == Then(c[k], fs[k]))
  }

  /** No functor of the chain lets a future_error escape, given the outcome of the first state. */
  ghost predicate NoFutureError(F: Functors, fs: seq<int>, o: Outcome) {
    forall k :: 0 < k <= |fs| ==> !IsFutureError(Fold(F, fs[..k], o))
  }

  /** In every interleaving, a ready state of a chain holds the fold of the functors before it. */
  lemma {:induction false} ChainOutcome(F: Functors, gs: seq<Graph>, es: seq<Event>, k: nat, c: seq<nat>, fs: seq<int>)
    requires IsRun(F, gs, es) && k < |gs| && Chain(gs[k], c, fs) && Ready(gs[k], c[|fs|])
    ensures Ready(gs[k], c[0]) && NoFutureError(F, fs, gs[k][c[0]].cell.outcome.value)
    ensures gs[k][c[|fs|]].cell.outcome.value == Fold(F, fs, gs[k][c[0]].cell.outcome.value)
    decreases |fs|
  {
    if fs != [] {
      RunKeepsInv(F, gs, es, k);
      var n := |fs| - 1;
      assert NodeOk(F, gs[k], c[n + 1]);
      ChainOutcome(F, gs, es, k, c[..n + 1], fs[..n]);
      var o := gs[k][c[0]].cell.outcome.value;
      forall m | 0 < m <= |fs| ensures !IsFutureError(Fold(F, fs[..m], o)) {
        if m <= n { assert fs[..n][..m] == fs[..m]; } else { assert fs[..m] == fs; }
      }
    }
  }

  /** The states of a chain become ready one after the other. */
  lemma {:induction false} ChainReady(F: Functors, gs: seq<Graph>, es: seq<Event>,
                                       k: nat, c: seq<nat>, fs: seq<int>, m: nat)
    requires IsRun(F, gs, es) && k < |gs| && Chain(gs[k], c, fs) && Ready(gs[k], c[|fs|]) && m <= |fs|
    ensures Ready(gs[k], c[m])
    decreases |fs|
  {
    if m < |fs| {
      var n := |fs| - 1;
      RunKeepsInv(F, gs, es, k);
      assert NodeOk(F, gs[k], c[n + 1]);
      ChainReady(F, gs, es, k, c[..n + 1], fs[..n], m);
    }
  }

  /** The first state was abandoned while it kept the continuation that leads to the second. */
  predicate ChainAbandoned(g: Graph, c: seq<nat>)
    requires c != [] && c[0] < |g|
  {
    |c| > 1 && g[c[0]].abandoned && g[c[0]].cell.continuation == Some(Run(c[1]))
  }

  /** Once all activity has ceased, a chain on a ready state is ready to its end exactly if no functor let a
      future_error escape, and that state was not abandoned while it kept the chain's first continuation. */
  lemma ChainCompletes(F: Functors, gs: seq<Graph>, es: seq<Event>, k: nat, c: seq<nat>, fs: seq<int>)
    requires IsRun(F, gs, es) && k < |gs| && Chain(gs[k], c, fs) && Quiescent(gs[k]) && Ready(gs[k], c[0])
    ensures Ready(gs[k], c[|fs|]) <==>
            NoFutureError(F, fs, gs[k][c[0]].cell.outcome.value) && !ChainAbandoned(gs[k], c)
  {
    if Ready(gs[k], c[|fs|]) {
      ChainOutcome(F, gs, es, k, c, fs);
      if fs != [] {
        ChainReady(F, gs, es, k, c, fs, 1);
        RunKeepsInv(F, gs, es, k);
        assert CellOk(gs[k], c[0]) && NodeOk(F, gs[k], c[1]);
      }
    } else if NoFutureError(F, fs, gs[k][c[0]].cell.outcome.value) && !ChainAbandoned(gs[k], c) {
      ChainRuns(F, gs, es, k, c, fs);
    }
  }

  lemma {:induction false} ChainRuns(F: Functors, gs: seq<Graph>, es: seq<Event>, k: nat, c: seq<nat>, fs: seq<int>)
    requires IsRun(F, gs, es) && k < |gs| && Chain(gs[k], c, fs) && Quiescent(gs[k]) && Ready(gs[k], c[0])
    requires NoFutureError(F, fs, gs[k][c[0]].cell.outcome.value) && !ChainAbandoned(gs[k], c)
    ensures Ready(gs[k], c[|fs|])
    decreases |fs|
  {
    if fs != [] {
      var n, o := |fs| - 1, gs[k][c[0]].cell.outcome.value;
      forall m | 0 < m <= n ensures !IsFutureError(Fold(F, fs[..n][..m], o)) { assert fs[..n][..m] == fs[..m]; }
      ChainRuns(F, gs, es, k, c[..n + 1], fs[..n]);
      ChainOutcome(F, gs, es, k, c[..n + 1], fs[..n]);
      RunKeepsInv(F, gs, es, k);
      assert fs[..n + 1] == fs;
      assert NodeOk(F, gs[k], c[n]) && NodeOk(F, gs[k], c[n + 1]);
    }
  }

  // ---- Unwrapping ----

  /** A ready output of an unwrapping then(): input and intermediate state are ready, and it holds what the
      functor's exception, an invalid future, or the intermediate state stand for. */
  lemma UnwrappedOutcome(F: Functors, gs: seq<Graph>, es: seq<Event>, k: nat, j: nat)
    requires IsRun(F, gs, es) && k < |gs| && Ready(gs[k], j) && gs[k][j].origin.UnwrapThen?
    ensures Ready(gs[k], gs[k][j].origin.input) && gs[k][j].calls == 1
    ensures match gs[k][j].returned
            case Threw(e) => gs[k][j].cell.outcome.value == Exception(e)
            case Invalid => gs[k][j].cell.outcome.value == Exception(FutureError(BrokenPromise))
            case Argument => gs[k][j].cell.outcome == gs[k][gs[k][j].origin.input].cell.outcome
            case Inner(id) => Ready(gs[k], id) && gs[k][j].cell.outcome.value == gs[k][id].cell.outcome.value
            case _ => false
  {
    RunKeepsInv(F, gs, es, k);
    assert NodeOk(F, gs[k], j);
  }

  /** Once all activity has ceased, the output is ready exactly when the input and the intermediate state are, for
      states that were not abandoned while they kept the continuation, an intermediate state that holds no
      future_error, and a functor that did not return its argument while the input kept its continuation. */
  lemma UnwrappedReadyIff(F: Functors, gs: seq<Graph>, es: seq<Event>, k: nat, j: nat)
    requires IsRun(F, gs, es) && k < |gs| && Quiescent(gs[k]) && j < |gs[k]| && gs[k][j].origin.UnwrapThen?
    ensures IsOutput(gs[k], j)
    ensures var g := gs[k];
            var i := g[j].origin.input;
            Ready(g, j) <==>
            && Ready(g, i) && !(g[i].abandoned && g[i].cell.continuation == Some(Run(j)))
            && (HasInner(g[j]) ==>
                  var id := InnerOf(g[j]);
                  && Ready(g, id) && !IsFutureError(g[id].cell.outcome.value)
                  && !(g[id].abandoned && g[id].cell.continuation == Some(Unwrapper(j))))
            && !(g[j].returned.Argument? && g[i].cell.continuation == Some(Run(j)))
  {
    RunKeepsInv(F, gs, es, k);
    assert NodeOk(F, gs[k], j) && CellOk(gs[k], gs[k][j].origin.input);
    if HasInner(gs[k][j]) { assert CellOk(gs[k], InnerOf(gs[k][j])); }
  }

  // ---- Progress ----

  function Rank(p: Phase): nat {
    match p
    case Attaching => 7
    case Stored => 6
    case Running(_) => 5
    case Linking(_) => 4
    case Linked => 3
    case Forwarding(_) => 2
    case Satisfying(_, _) => 1
    case _ => 0
  }

  function Work(g: Graph): nat {
    if g == [] then 0 else Rank(g[0].phase) + Work(g[1..])
  }

  predicate Internal(e: Event) {
    e.Attach? || e.CallPlain? || e.CallUnwrap? || e.Link? || e.Forward? || e.Satisfy?
  }

  lemma {:induction false} WorkUpdate(g: Graph, j: nat, n: Node)
    requires j < |g|
    ensures Work(g[j := n]) == Work(g) - Rank(g[j].phase) + Rank(n.phase)
  {
    if j == 0 {
      assert g[j := n][1..] == g[1..];
    } else {
      assert g[j := n][1..] == g[1..][j - 1 := n];
      WorkUpdate(g[1..], j - 1, n);
    }
  }

  /** Two updated nodes. */
  lemma WorkTwo(g: Graph, h: Graph, j: nat, i: nat)
    requires j < |g| && i < |g| && |h| == |g|
    requires forall m :: 0 <= m < |g| && m != i && m != j ==> h[m] == g[m]
    ensures Work(h) == Work(g) - Rank(g[j].phase) + Rank(h[j].phase)
                       + (if i == j then 0 else Rank(h[i].phase) - Rank(g[i].phase))
  {
    WorkUpdate(g, j, h[j]);
    WorkUpdate(g[j := h[j]], i, h[i]);
    assert h == g[j := h[j]][i := h[i]];
  }

  lemma AttachWorks(g: Graph, j: nat)
    requires Enabled(g, Attach(j))
    ensures Work(AfterAttach(g, j)) < Work(g)
  {
    hide Work;
    WorkTwo(g, AfterAttach(g, j), j, g[j].origin.input);
  }

  lemma LinkWorks(g: Graph, j: nat)
    requires Enabled(g, Link(j))
    ensures Work(AfterLink(g, j)) < Work(g)
  {
    hide Work;
    WorkTwo(g, AfterLink(g, j), j, InnerOf(g[j]));
  }

  lemma PlainWorks(F: Functors, g: Graph, j: nat)
    requires Enabled(g, CallPlain(j))
    ensures Work(AfterCallPlain(F, g, j)) < Work(g)
  {
    hide Work;
    WorkTwo(g, AfterCallPlain(F, g, j), j, g[j].origin.input);
  }

  lemma ForwardWorks(g: Graph, j: nat)
    requires Enabled(g, Forward(j))
    ensures Work(AfterForward(g, j)) < Work(g)
  {
    hide Work;
    WorkTwo(g, AfterForward(g, j), j, g[j].origin.input);
  }

  lemma SatisfyWorks(F: Functors, g: Graph, j: nat)
    requires Inv(F, g) && Enabled(g, Satisfy(j))
    ensures Work(AfterSatisfy(g, j)) < Work(g)
  {
    hide Work, FlowOk;
    assert NodeOk(F, g, j) && CellOk(g, j);
    if g[j].cell.continuation.Some? {
      TakerOfContinuation(F, g, j);
      WorkTwo(g, AfterSatisfy(g, j), j, g[j].cell.continuation.value.output);
    } else {
      WorkTwo(g, AfterSatisfy(g, j), j, j);
    }
  }

  /** Every step of the library itself uses up work: activity ceases after at most Work(g) of them. */
  lemma InternalStepsEnd(F: Functors, g: Graph, e: Event)
    requires Inv(F, g) && Enabled(g, e) && Internal(e)
    ensures Work(Next(F, g, e)) < Work(g)
  {
    hide Work;
    match e
    case Attach(j) => AttachWorks(g, j);
    case Link(j) => LinkWorks(g, j);
    case CallPlain(j) => PlainWorks(F, g, j);
    case CallUnwrap(j, r) => WorkTwo(g, AfterCallUnwrap(g, j, r), j, if r.Inner? then r.id else j);
    case Forward(j) => ForwardWorks(g, j);
    case Satisfy(j) => SatisfyWorks(F, g, j);
  }

  /** Until activity has ceased, some thread can take a step. */
  lemma ActivityCanStep(F: Functors, g: Graph) returns (e: Event)
    requires Inv(F, g) && !Quiescent(g)
    ensures Internal(e) && Enabled(g, e)
  {
    var j: nat :| j < |g| && !g[j].phase.Root? && !g[j].phase.Stored? && !g[j].phase.Linked?
                  && !g[j].phase.Finished? && !Lost(g[j].phase);
    assert NodeOk(F, g, j);
    match g[j].phase
    case Attaching => e := Attach(j);
    case Running(_) => e := if g[j].origin.Then? then CallPlain(j) else CallUnwrap(j, Invalid);
    case Linking(_) => e := Link(j);
    case Forwarding(_) => e := Forward(j);
    case _ => e := Satisfy(j);
  }
}
