/** The shared state of promise<T> and future<T>: one critical section of
    future_shared_state_base per operation. */
module SharedState {
  import opened Basics

  datatype Errc = BrokenPromise | FutureAlreadyRetrieved | PromiseAlreadySatisfied | NoState

  /** Exceptions: a std::future_error, or anything else a functor or a promise may carry. */
  datatype Error = FutureError(code: Errc) | OtherError(what: int)

  datatype Outcome = Value(v: int) | Exception(e: Error)

  predicate IsFutureError(o: Outcome) {
    o.Exception? && o.e.FutureError?
  }

  /** What a state runs when it becomes ready. `output` names the state the result goes to. */
  datatype Continuation =
    | Run(output: nat)        // calls the functor given to then()
    | Unwrapper(output: nat)  // copies the intermediate state of an unwrapping then()

  datatype Cell = Cell(
    outcome: Option<Outcome>,
    continuation: Option<Continuation>,
    callback: Option<nat>,   // the promise whose cancellation callback this state holds
    cancelled: bool,
    retrieved: bool)

  function NewCell(callback: Option<nat>): Cell {
    Cell(None, None, callback, false, false)
  }

  datatype Cancellation = NotCancellable | Invoked(callback: nat) | EmptyCallback

  /** cancel(): EmptyCallback stands for calling a moved-from std::function. */
  function CancelResult(c: Cell): Cancellation {
    if c.outcome.Some? || c.cancelled then NotCancellable
    else if c.callback.None? then EmptyCallback
    else Invoked(c.callback.value)
  }

  function Abandoned(c: Cell): Cell {
    if c.outcome.Some? then c else c.(outcome := Some(Exception(FutureError(BrokenPromise))))
  }

  /** The critical sections of a shared state. */
  datatype Section =
    | SatisfySection(o: Outcome)
    | AbandonSection
    | AttachSection(k: Continuation)
    | ReleaseSection
    | CancelSection
    | RetrieveSection

  /** The state after a critical section. */
  function AfterSection(s: Section, c: Cell): Cell {
    match s
    case SatisfySection(o) => if c.outcome.Some? then c else c.(outcome := Some(o))
    case AbandonSection => Abandoned(c)
    case AttachSection(k) => if c.continuation.Some? || c.outcome.Some? then c else c.(continuation := Some(k))
    case ReleaseSection => c.(callback := None)
    case CancelSection => c.(cancelled := c.cancelled || CancelResult(c).Invoked?)
    case RetrieveSection => c.(retrieved := true)
  }

  /** future_shared_state<T>: each method is one critical section. A continuation that the section decides to
      run is returned: the caller executes it after the lock is released. */
  class FutureSharedState {
    var outcome: Option<Outcome>
    var continuation: Option<Continuation>
    var callback: Option<nat>
    var cancelled: bool
    var retrieved: bool

    function View(): Cell
      reads this
    {
      Cell(outcome, continuation, callback, cancelled, retrieved)
    }

    constructor (cb: Option<nat>)
      ensures View() == NewCell(cb)
    {
      outcome, continuation, callback, cancelled, retrieved := None, None, cb, false, false;
    }

    /** set_value() and set_exception(): satisfied once, and the stored continuation is run by the setter. */
    method Satisfy(o: Outcome) returns (threw: Option<Errc>, run: Option<Continuation>)
      modifies this
      ensures old(outcome).Some? ==> threw == Some(PromiseAlreadySatisfied) && run == None && outcome == old(outcome)
      ensures old(outcome).None? ==> threw == None && run == old(continuation) && outcome == Some(o)
      ensures View() == AfterSection(SatisfySection(o), old(View()))
    {
      if outcome.Some? {
        return Some(PromiseAlreadySatisfied), None;
      }
      outcome := Some(o);
      return None, continuation;
    }

    /** abandon(): satisfies an unsatisfied state, and runs nothing. */
    method Abandon()
      modifies this
      ensures outcome == if old(outcome).Some? then old(outcome) else Some(Exception(FutureError(BrokenPromise)))
      ensures View() == AfterSection(AbandonSection, old(View()))
    {
      if outcome.Some? {
        return;
      }
      outcome := Some(Exception(FutureError(BrokenPromise)));
    }

    /** set_continuation(): stored on a state that is not ready, else run by the attacher. */
    method SetContinuation(k: Continuation) returns (threw: Option<Errc>, run: Option<Continuation>)
      modifies this
      ensures old(continuation).Some? ==> threw == Some(FutureAlreadyRetrieved) && run == None
      ensures old(continuation).None? && old(outcome).Some? ==> threw == None && run == Some(k)
      ensures old(continuation).None? && old(outcome).None? ==> threw == None && run == None && continuation == Some(k)
      ensures View() == AfterSection(AttachSection(k), old(View()))
    {
      if continuation.Some? {
        return Some(FutureAlreadyRetrieved), None;
      }
      if outcome.Some? {
        return None, Some(k);
      }
      continuation := Some(k);
      return None, None;
    }

    method ReleaseCancellationCallback() returns (cb: Option<nat>)
      modifies this
      ensures cb == old(callback) && callback == None && View() == AfterSection(ReleaseSection, old(View()))
    {
      cb := callback;
      callback := None;
    }

    /** cancel(): a ready or already cancelled state is left alone. */
    method TryCancel() returns (r: Cancellation)
      modifies this
      ensures r == CancelResult(old(View()))
      ensures r.NotCancellable? <==> old(outcome).Some? || old(cancelled)
      ensures r.Invoked? <==> old(outcome).None? && !old(cancelled) && old(callback).Some?
      ensures r.Invoked? ==> r == Invoked(old(callback).value) && cancelled
      ensures !r.Invoked? ==> cancelled == old(cancelled)
      ensures View() == AfterSection(CancelSection, old(View()))
    {
      if outcome.Some? || cancelled {
        return NotCancellable;
      }
      if callback.None? {
        return EmptyCallback;
      }
      r := Invoked(callback.value);
      cancelled := true;
    }

    method MarkRetrieved() returns (threw: Option<Errc>)
      modifies this
      ensures threw == if old(retrieved) then Some(FutureAlreadyRetrieved) else None
      ensures retrieved && View() == AfterSection(RetrieveSection, old(View()))
    {
      threw := if retrieved then Some(FutureAlreadyRetrieved) else None;
      retrieved := true;
    }
  }

  /** What get() comes to: an exception of its own, the outcome of the state, or a wait for that outcome. */
  datatype GetResult = GetThrows(code: Errc) | GetReturns(o: Outcome) | GetWaits(on: FutureSharedState)

  class FutureObject {
    var state: FutureSharedState?

    constructor (s: FutureSharedState?)
      ensures state == s
    {
      state := s;
    }

    /** get(): the future is invalid afterwards, also when the state holds an exception, and also while it waits
        for a state that is not ready. */
    method Get() returns (r: GetResult)
      modifies this
      ensures state == null
      ensures old(state) == null ==> r == GetThrows(NoState)
      ensures old(state) != null && old(state.outcome).Some? ==> r == GetReturns(old(state.outcome.value))
      ensures old(state) != null && old(state.outcome).None? ==> r == GetWaits(old(state))
    {
      if state == null {
        return GetThrows(NoState);
      }
      var tmp: FutureSharedState? := null;
      tmp, state := state, tmp;
      if tmp.outcome.None? {
        return GetWaits(tmp);
      }
      r := GetReturns(tmp.outcome.value);
    }
  }

  class PromiseObject {
    var state: FutureSharedState?

    constructor (cb: nat)
      ensures state != null && fresh(state) && state.View() == NewCell(Some(cb))
    {
      state := new FutureSharedState(Some(cb));
    }

    /** get_future(): succeeds once per shared state. */
    method GetFuture() returns (r: Result<FutureObject, Errc>)
      modifies state
      ensures state == null ==> r == Err(NoState)
      ensures state != null ==> state.View() == old(state.View()).(retrieved := true)
      ensures state != null && old(state.retrieved) ==> r == Err(FutureAlreadyRetrieved)
      ensures state != null && !old(state.retrieved) ==> r.Ok? && fresh(r.value) && r.value.state == state
    {
      if state == null {
        return Err(NoState);
      }
      var threw := state.MarkRetrieved();
      if threw.Some? {
        return Err(threw.value);
      }
      var f := new FutureObject(state);
      r := Ok(f);
    }

    method Set(o: Outcome) returns (threw: Option<Errc>, run: Option<Continuation>)
      modifies state
      ensures state == null ==> threw == Some(NoState) && run == None
      ensures state != null && old(state.outcome).Some? ==>
                threw == Some(PromiseAlreadySatisfied) && run == None && state.View() == old(state.View())
      ensures state != null && old(state.outcome).None? ==>
                threw == None && run == old(state.continuation)
                && state.View() == old(state.View()).(outcome := Some(o))
    {
      if state == null {
        return Some(NoState), None;
      }
      threw, run := state.Satisfy(o);
    }

    method Swap(other: PromiseObject)
      modifies this, other
      ensures state == old(other.state) && other.state == old(state)
    {
      state, other.state := other.state, state;
    }

    /** ~promise(). */
    method Destroy()
      modifies this, state
      ensures state == null
      ensures old(state) != null ==> old(state).View() == Abandoned(old(state.View()))
      ensures old(state) != null && old(state.outcome).None? ==>
                old(state).outcome == Some(Exception(FutureError(BrokenPromise)))
    {
      if state != null {
        state.Abandon();
      }
      state := null;
    }

    /** Move assignment: the old state is abandoned, the other promise is left without one. Assigning a promise
        to itself changes nothing. */
    method MoveAssign(rhs: PromiseObject)
      modifies this, rhs, state
      ensures rhs == this ==> state == old(state) && (state != null ==> state.View() == old(state.View()))
      ensures rhs != this ==> state == old(rhs.state) && rhs.state == null
      ensures rhs != this && old(state) != null ==> old(state).View() == Abandoned(old(state.View()))
      ensures rhs != this && old(state) != null && old(state.outcome).None? ==>
                old(state).outcome == Some(Exception(FutureError(BrokenPromise)))
    {
      var tmp := new PromiseObject.Moved(rhs.state);
      rhs.state := null;
      Swap(tmp);
      tmp.Destroy();
    }

    constructor Moved(s: FutureSharedState?)
      ensures state == s
    {
      state := s;
    }
  }
}
