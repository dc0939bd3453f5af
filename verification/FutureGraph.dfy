/** The asynchronous life of futures: every promise, every `then()` and every functor call, taken
    in the small steps the code takes, in any order that threads may take them.

    A graph holds one node per shared state. An output of `then()` also carries the program
    counter (`phase`) of the one activity that attaches, runs and completes its continuation.
    Each step is one critical section of `future_shared_state_base`, or one functor call. */
module FutureGraph {
  import opened Basics
  import opened SharedState

  datatype Origin =
    | Promise                              // created by promise<T>
    | Then(input: nat, functor: int)       // continuation
    | UnwrapThen(input: nat, functor: int) // unwrapping_continuation

  /** Which call is running execute(): the attacher's set_continuation() or the setter's notify_now(). */
  datatype Side = Attacher | Setter

  datatype Phase =
    | Root                              // the state of a promise
    | Attaching                         // then() moved the callback out, set_continuation() not entered
    | Stored                            // the continuation is kept in the input state
    | Running(side: Side)               // execute() entered, functor not called yet
    | Linking(side: Side)               // the functor returned a valid future, not yet attached to
    | Linked                            // the unwrapper is kept in the intermediate state
    | Forwarding(side: Side)            // the unwrapper is executing
    | Satisfying(side: Side, o: Outcome)// the result is known, the output is not satisfied yet
    | Finished                          // the output is satisfied
    | Rethrown(side: Side)              // a future_error left execute(), the output is dropped
    | Failed                            // set_continuation() or set_value() threw

  /** What the functor of a continuation did; an unwrapping one may return the future it was given. */
  datatype Returned = NotCalled | Plain | Threw(e: Error) | Invalid | Argument | Inner(id: nat)

  /** Who consumed the future of a state: a then() on it, or an unwrapping functor that returned it. */
  datatype Taker = Nobody | ByThen(out: nat) | ByFunctor(out: nat)

  datatype Node = Node(
    cell: Cell,
    origin: Origin,
    phase: Phase,
    promiseAlive: bool,   // the promise object exists
    held: bool,           // the application holds the valid future of this state
    abandoned: bool,      // satisfied by abandon()
    calls: nat,           // how often the functor ran
    returned: Returned,
    taker: Taker,
    hasChild: bool,       // then() was called on this state
    thenThrew: bool,      // a then() on this state was left by an exception
    orphan: bool)         // created by then() on a lineage where an earlier then() had thrown

  type Graph = seq<Node>

  /** Functors of plain continuations: what calling the functor on a future with this outcome gives. */
  type Functors = (int, Outcome) -> Outcome

  datatype Event =
    | NewPromise
    | GetFuture(id: nat)
    | Set(id: nat, o: Outcome)
    | DropPromise(id: nat)
    | CallThen(id: nat, functor: int, unwrap: bool)
    | Attach(out: nat)
    | CallPlain(out: nat)
    | CallUnwrap(out: nat, r: Returned)
    | Link(out: nat)
    | Forward(out: nat)
    | Satisfy(out: nat)
    | Get(id: nat)
    | Cancel(id: nat)

  /** The functor returned a valid future. */
  predicate HasInner(n: Node) {
    n.returned.Inner? || (n.returned.Argument? && n.origin.UnwrapThen?)
  }

  /** The state of the future that the functor returned: the intermediate state. */
  function InnerOf(n: Node): nat
    requires HasInner(n)
  {
    if n.returned.Inner? then n.returned.id else n.origin.input
  }

  predicate Ready(g: Graph, i: nat) {
    i < |g| && g[i].cell.outcome.Some?
  }

  predicate IsOutput(g: Graph, j: nat) {
    j < |g| && !g[j].origin.Promise? && g[j].origin.input < |g|
  }

  /** The application can call cancel(): through its own future, or inside a functor through the argument. */
  ghost predicate HasHandle(g: Graph, i: nat) {
    i < |g| && (g[i].held || exists j: nat :: IsOutput(g, j) && g[j].origin.input == i && g[j].phase.Running?)
  }

  ghost predicate Enabled(g: Graph, e: Event) {
    match e
    case NewPromise => true
    case GetFuture(id) => id < |g| && g[id].promiseAlive
    case Set(id, _) => id < |g| && g[id].promiseAlive
    case DropPromise(id) => id < |g| && g[id].promiseAlive
    case CallThen(id, _, _) => id < |g| && g[id].held
    case Attach(j) => IsOutput(g, j) && g[j].phase.Attaching?
    case CallPlain(j) => IsOutput(g, j) && g[j].origin.Then? && g[j].phase.Running? && Ready(g, g[j].origin.input)
    case CallUnwrap(j, r) => IsOutput(g, j) && g[j].origin.UnwrapThen? && g[j].phase.Running?
                             && !r.NotCalled? && !r.Plain? && (r.Inner? ==> r.id < |g| && g[r.id].held)
    case Link(j) => IsOutput(g, j) && g[j].phase.Linking? && HasInner(g[j]) && InnerOf(g[j]) < |g|
    case Forward(j) => IsOutput(g, j) && g[j].phase.Forwarding? && HasInner(g[j]) && Ready(g, InnerOf(g[j]))
    case Satisfy(j) => IsOutput(g, j) && g[j].phase.Satisfying?
    case Get(id) => id < |g| && g[id].held
    case Cancel(id) => HasHandle(g, id)
  }

  /** notify_now(): the setter enters execute() of the stored continuation. */
  function Enter(g: Graph, k: Option<Continuation>): (r: Graph)
    ensures |r| == |g|
  {
    match k
    case None => g
    case Some(Run(j)) => if j < |g| then g[j := g[j].(phase := Running(Setter))] else g
    case Some(Unwrapper(j)) => if j < |g| then g[j := g[j].(phase := Forwarding(Setter))] else g
  }

  function SatisfyState(g: Graph, i: nat, o: Outcome): (r: Graph)
    requires i < |g| && g[i].cell.outcome.None?
    ensures |r| == |g|
  {
    Enter(g[i := g[i].(cell := g[i].cell.(outcome := Some(o)))], g[i].cell.continuation)
  }

  /** A future_error leaves execute() of output j, now n. On the attacher's side it leaves then() before
      the future is reset: the handle on the input stays valid. */
  function Rethrow(g: Graph, j: nat, n: Node): (r: Graph)
    requires IsOutput(g, j) && (g[j].phase.Running? || g[j].phase.Forwarding?)
    ensures |r| == |g|
  {
    var side := g[j].phase.side;
    var i := g[j].origin.input;
    var g1 := g[j := n.(phase := Rethrown(side))];
    if side.Attacher? then g1[i := g1[i].(held := true, taker := Nobody, thenThrew := true)] else g1
  }

  function ThenNode(g: Graph, i: nat, functor: int, unwrap: bool): Node
    requires i < |g|
  {
    Node(NewCell(g[i].cell.callback),
         if unwrap then UnwrapThen(i, functor) else Then(i, functor),
         Attaching, false, false, false, 0, NotCalled, Nobody, false, false, g[i].orphan || g[i].thenThrew)
  }

  function AfterNewPromise(g: Graph): Graph {
    g + [Node(NewCell(Some(|g|)), Promise, Root, true, false, false, 0, NotCalled, Nobody, false, false, false)]
  }

  /** promise::get_future(); a second call throws and changes nothing. */
  function AfterGetFuture(g: Graph, i: nat): Graph
    requires i < |g|
  {
    if g[i].cell.retrieved then g
    else g[i := g[i].(held := true, cell := g[i].cell.(retrieved := true))]
  }

  /** promise::set_value() and set_exception(); on a ready state they throw and change nothing. */
  function AfterSet(g: Graph, i: nat, o: Outcome): Graph
    requires i < |g|
  {
    if g[i].cell.outcome.Some? then g else SatisfyState(g, i, o)
  }

  /** ~promise(): abandon() does not enter the stored continuation. */
  function AfterDropPromise(g: Graph, i: nat): Graph
    requires i < |g|
  {
    g[i := g[i].(promiseAlive := false, cell := Abandoned(g[i].cell),
                 abandoned := g[i].abandoned || g[i].cell.outcome.None?)]
  }

  /** then(), up to set_continuation(): a new state that receives the cancellation callback. */
  function AfterCallThen(g: Graph, i: nat, functor: int, unwrap: bool): Graph
    requires i < |g|
  {
    var n := g[i].(held := false, taker := ByThen(|g|), hasChild := true, cell := g[i].cell.(callback := None));
    g[i := n] + [ThenNode(g, i, functor, unwrap)]
  }

  /** set_continuation() on the input. */
  function AfterAttach(g: Graph, j: nat): Graph
    requires IsOutput(g, j)
  {
    var i := g[j].origin.input;
    if g[i].cell.continuation.Some? then g[j := g[j].(phase := Failed)]
    else if g[i].cell.outcome.Some? then g[j := g[j].(phase := Running(Attacher))]
    else
      var g1 := g[i := g[i].(cell := g[i].cell.(continuation := Some(Run(j))))];
      g1[j := g1[j].(phase := Stored, held := true)]
  }

  /** continuation_execute_delegate(): the functor runs; its future_error is not stored. */
  function AfterCallPlain(F: Functors, g: Graph, j: nat): Graph
    requires IsOutput(g, j) && g[j].origin.Then? && g[j].phase.Running? && Ready(g, g[j].origin.input)
  {
    var o := F(g[j].origin.functor, g[g[j].origin.input].cell.outcome.value);
    var side := g[j].phase.side;
    var n := g[j].(calls := g[j].calls + 1, returned := Plain);
    if IsFutureError(o) then Rethrow(g, j, n)
    else g[j := n.(phase := Satisfying(side, o))]
  }

  /** unwrapping_continuation::execute(), up to set_continuation() on the intermediate state. */
  function AfterCallUnwrap(g: Graph, j: nat, r: Returned): Graph
    requires IsOutput(g, j) && g[j].phase.Running? && (r.Inner? ==> r.id < |g|)
  {
    var side := g[j].phase.side;
    var n := g[j].(calls := g[j].calls + 1, returned := r);
    match r
    case Threw(e) => g[j := n.(phase := Satisfying(side, Exception(e)))]
    case Invalid => g[j := n.(phase := Satisfying(side, Exception(FutureError(BrokenPromise))))]
    case Argument => g[j := n.(phase := Linking(side))]
    case Inner(id) =>
      var g1 := g[id := g[id].(held := false, taker := ByFunctor(j))];
      g1[j := g1[j].(calls := g[j].calls + 1, returned := r, phase := Linking(side))]
    case _ => g
  }

  /** set_continuation() on the intermediate state. It throws if that state is the input, and still keeps the
      continuation that is running: notify_now() does not take it out. */
  function AfterLink(g: Graph, j: nat): Graph
    requires j < |g| && g[j].phase.Linking? && HasInner(g[j]) && InnerOf(g[j]) < |g|
  {
    var i := InnerOf(g[j]);
    if g[i].cell.continuation.Some? then g[j := g[j].(phase := Failed)]
    else if g[i].cell.outcome.Some? then g[j := g[j].(phase := Forwarding(g[j].phase.side))]
    else
      var g1 := g[i := g[i].(cell := g[i].cell.(continuation := Some(Unwrapper(j))))];
      g1[j := g1[j].(phase := Linked, held := g1[j].held || g[j].phase.side.Attacher?)]
  }

  /** The unwrapper: get() on the intermediate state, a stored future_error leaves execute(). */
  function AfterForward(g: Graph, j: nat): Graph
    requires IsOutput(g, j) && g[j].phase.Forwarding? && HasInner(g[j]) && Ready(g, InnerOf(g[j]))
  {
    var o := g[InnerOf(g[j])].cell.outcome.value;
    if IsFutureError(o) then Rethrow(g, j, g[j])
    else g[j := g[j].(phase := Satisfying(g[j].phase.side, o))]
  }

  /** set_value() or set_exception() on the output. */
  function AfterSatisfy(g: Graph, j: nat): Graph
    requires j < |g| && g[j].phase.Satisfying?
  {
    if g[j].cell.outcome.Some? then g[j := g[j].(phase := Failed)]
    else
      var n := g[j].(phase := Finished, held := g[j].held || g[j].phase.side.Attacher?);
      SatisfyState(g[j := n], j, g[j].phase.o)
  }

  function AfterCancel(g: Graph, i: nat): Graph
    requires i < |g|
  {
    g[i := g[i].(cell := g[i].cell.(cancelled := g[i].cell.cancelled || CancelResult(g[i].cell).Invoked?))]
  }

  ghost function Next(F: Functors, g: Graph, e: Event): Graph
    requires Enabled(g, e)
  {
    match e
    case NewPromise => AfterNewPromise(g)
    case GetFuture(i) => AfterGetFuture(g, i)
    case Set(i, o) => AfterSet(g, i, o)
    case DropPromise(i) => AfterDropPromise(g, i)
    case CallThen(i, f, unwrap) => AfterCallThen(g, i, f, unwrap)
    case Attach(j) => AfterAttach(g, j)
    case CallPlain(j) => AfterCallPlain(F, g, j)
    case CallUnwrap(j, r) => AfterCallUnwrap(g, j, r)
    case Link(j) => AfterLink(g, j)
    case Forward(j) => AfterForward(g, j)
    case Satisfy(j) => AfterSatisfy(g, j)
    case Get(i) => g[i := g[i].(held := false)]  // before it waits for the state
    case Cancel(i) => AfterCancel(g, i)
  }

  /** gs are the graphs a run passes through, from the empty graph, by the events es. */
  ghost predicate IsRun(F: Functors, gs: seq<Graph>, es: seq<Event>) {
    && |gs| == |es| + 1 && gs[0] == []
    && forall k :: 0 <= k < |es| ==> Enabled(gs[k], es[k]) && gs[k + 1] == Next(F, gs[k], es[k])
  }
}
