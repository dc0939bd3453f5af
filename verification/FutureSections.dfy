/** The steps of FutureGraph and the critical sections of the shared states. */
module FutureSections {
  import opened Basics
  import opened SharedState
  import opened FutureGraph

  /** The state that a step enters, and the critical section it runs there. */
  function SectionOf(g: Graph, e: Event): Option<(nat, Section)> {
    match e
    case GetFuture(i) => Some((i, RetrieveSection))
    case Set(i, o) => Some((i, SatisfySection(o)))
    case DropPromise(i) => Some((i, AbandonSection))
    case CallThen(i, _, _) => Some((i, ReleaseSection))
    case Attach(j) =>
      if IsOutput(g, j) then Some((g[j].origin.input, AttachSection(Run(j)))) else None
    case Link(j) =>
      if j < |g| && HasInner(g[j]) then Some((InnerOf(g[j]), AttachSection(Unwrapper(j)))) else None
    case Satisfy(j) =>
      if j < |g| && g[j].phase.Satisfying? then Some((j, SatisfySection(g[j].phase.o))) else None
    case Cancel(i) => Some((i, CancelSection))
    case _ => None
  }

  /** What the step leaves in state j. */
  function CellAfter(g: Graph, e: Event, j: nat): Cell
    requires j < |g|
  {
    match SectionOf(g, e)
    case Some((i, s)) => if i == j then AfterSection(s, g[j].cell) else g[j].cell
    case None => g[j].cell
  }

  lemma SetIsSection(g: Graph, i: nat, o: Outcome, j: nat)
    requires Enabled(g, Set(i, o)) && j < |g|
    ensures |AfterSet(g, i, o)| == |g| && AfterSet(g, i, o)[j].cell == CellAfter(g, Set(i, o), j)
  {
  }

  lemma SatisfyIsSection(g: Graph, i: nat, j: nat)
    requires Enabled(g, Satisfy(i)) && j < |g|
    ensures |AfterSatisfy(g, i)| == |g| && AfterSatisfy(g, i)[j].cell == CellAfter(g, Satisfy(i), j)
  {
  }

  lemma AttachIsSection(g: Graph, i: nat, j: nat)
    requires Enabled(g, Attach(i)) && j < |g|
    ensures |AfterAttach(g, i)| == |g| && AfterAttach(g, i)[j].cell == CellAfter(g, Attach(i), j)
  {
  }

  lemma LinkIsSection(g: Graph, i: nat, j: nat)
    requires Enabled(g, Link(i)) && j < |g|
    ensures |AfterLink(g, i)| == |g| && AfterLink(g, i)[j].cell == CellAfter(g, Link(i), j)
  {
  }

  lemma PlainEntersNoSection(F: Functors, g: Graph, o: nat, j: nat)
    requires Enabled(g, CallPlain(o)) && j < |g|
    ensures |AfterCallPlain(F, g, o)| == |g| && AfterCallPlain(F, g, o)[j].cell == g[j].cell
  {
  }

  lemma UnwrapEntersNoSection(g: Graph, o: nat, r: Returned, j: nat)
    requires Enabled(g, CallUnwrap(o, r)) && j < |g|
    ensures |AfterCallUnwrap(g, o, r)| == |g| && AfterCallUnwrap(g, o, r)[j].cell == g[j].cell
  {
  }

  lemma ForwardEntersNoSection(g: Graph, o: nat, j: nat)
    requires Enabled(g, Forward(o)) && j < |g|
    ensures |AfterForward(g, o)| == |g| && AfterForward(g, o)[j].cell == g[j].cell
  {
  }

  /** Every step changes the shared states by at most one critical section, the one that the object's method runs;
      a new state is as the constructor leaves it, with the callback that was released for it. */
  lemma StepIsSection(F: Functors, g: Graph, e: Event, j: nat)
    requires Enabled(g, e) && j < |Next(F, g, e)|
    ensures j < |g| ==> Next(F, g, e)[j].cell == CellAfter(g, e, j)
    ensures j >= |g| ==> (e.NewPromise? || e.CallThen?) && j == |g|
                         && Next(F, g, e)[j].cell == NewCell(if e.CallThen? then g[e.id].cell.callback else Some(j))
  {
    if j < |g| {
      match e
      case Set(i, o) => SetIsSection(g, i, o, j);
      case Satisfy(i) => SatisfyIsSection(g, i, j);
      case Attach(i) => AttachIsSection(g, i, j);
      case Link(i) => LinkIsSection(g, i, j);
      case CallPlain(o) => PlainEntersNoSection(F, g, o, j);
      case CallUnwrap(o, r) => UnwrapEntersNoSection(g, o, r, j);
      case Forward(o) => ForwardEntersNoSection(g, o, j);
      case _ =>
    } else {
      NewState(F, g, e);
    }
  }

  lemma NewState(F: Functors, g: Graph, e: Event)
    requires Enabled(g, e) && |Next(F, g, e)| > |g|
    ensures (e.NewPromise? || e.CallThen?) && |Next(F, g, e)| == |g| + 1
    ensures Next(F, g, e)[|g|].cell == NewCell(if e.CallThen? then g[e.id].cell.callback else Some(|g|))
  {
  }
}
