# A verified model of google-cloud-cpp's asynchronous runtime and codecs

This project models the hard core of the C++ `google/cloud` library in Dafny and proves what it
promises, for every input, every run and every interleaving:

* **Futures** (`SharedState`, `FutureGraph`, `FutureSections`, `FutureInvariant`, `FutureTheorems`,
  `FutureHandles`, `FutureCancel`, `FutureExamples`). `SharedState` holds the objects: the shared
  state, `promise<T>` and `future<T>`, one method per critical section. `FutureGraph` is a transition system in which any number of
  promises, `then()` calls and functor calls are taken in the small steps the code takes, in any
  order: moving the cancellation callback, `set_continuation()`, `execute()`, the functor, attaching
  the unwrapper, `set_value()`. A run is a sequence of such steps from the empty graph.
  `FutureSections` ties each step to the method of the object that takes it.
* **The completion queue** (`QueueProtocol`, `QueueProofs`, `QueueEvents`, `OperationQueue`, `CompletionQueue`).
  `QueueProtocol` interleaves `Run()` threads, `StartOperation()`, `CancelAll()` and `Shutdown()`,
  with the mutex and with gRPC as an environment that returns each started tag once and reports
  SHUTDOWN only when drained. `QueueProofs` shows that it refines `OperationQueue`, the view of a
  queue on which the stream and the retry loop are built; these in turn are proved to take only
  steps that `OperationQueue` allows. `QueueEvents` tells a run by its events: what each operation is
  notified with, what each critical section finds, and that no thread is stuck. `CompletionQueue` is
  the object as one thread executes it.
* **Read stream and retry loop** (`ReadStream`, `RetryLoop`): callbacks over that view, as a
  transition system and as an object whose methods are proved to take its steps.
* **Policies** (`Policies`): truncated exponential backoff and the retry policies.
* **RFC 3339** (`Calendar`, `Decimal`, `Rfc3339`, `Rfc3339Proofs`, `Rfc3339Theorems`): the parser,
  with `sscanf` modelled with its blanks and signs, and the printer, over the proleptic Gregorian
  calendar.
* **Pagination and big-endian coding** (`Pagination`, `BigEndian`).

`dafny verify dfyconfig.toml` checks everything.

## Where the code does less than it promises

Each of these is shown by a concrete run or input, together with the exact condition under which
the promise holds.

* A `std::future_error` that a functor lets escape leaves `then()` after the cancellation callback
  was moved out, although the comment at `google/cloud/internal/future_then_impl.h:79-80` says that
  nothing was changed in this case. The future stays valid; a second, unwrapping `then()` on it gives
  a future whose `cancel()` calls an empty `std::function` (`ThenThrows`, `CancelOnEmptyCallback`;
  `CancelFindsEmptyCallbackIff`, `ThenThrewIff`, `CancelIsSafeWithoutFutureErrors`).
* `google/cloud/future_generic.h:47-51` says that an unwrapped future becomes satisfied when outer
  and inner are. It never does when the inner state holds a `std::future_error`, for instance because
  its promise was dropped (`UnwrapLosesFutureError`), or when a state was abandoned while it kept the
  continuation (`AbandonLosesContinuation`), or when the functor returns the future it was given and
  its continuation had been stored: `notify_now()` leaves that continuation in place while it runs, so `set_continuation()`
  throws, although the comment at `google/cloud/internal/future_impl.h:766-768` expects none there
  (`ReturnedArgumentThrows`, and `ReturnedArgumentWorks` for a future that is ready before `then()`).
  The exact condition is `UnwrappedReadyIff`, and that of the throw is `LibraryThrowsIff`.
* A backoff whose first step truncates to nothing never grows, whatever the maximum
  (`TinyDelayNeverGrows`; `ReachesMaximumIff`).
* `FormatRfc3339()` prints a negative fraction for a time point before the epoch: the text is not one
  of RFC 3339, while that of every other time point is (`FormatFollowsGrammarIff`). The sign also takes
  one of the nine places that the parser reads: half a second before the epoch does not come back
  (`HalfSecondLost`), and the round trip holds exactly when that fraction is below a tenth of a second
  (`RoundTripIff`).
* The parser accepts texts outside the grammar, since `sscanf` skips blanks and takes signs
  (`BlankAccepted`). Without them it accepts exactly the grammar (`AcceptedIff`).

## Model

| member | source | states |
|---|---|---|
| `SharedState.FutureSharedState.constructor` | google/cloud/internal/future_impl.h:71-76 | A new state is not ready, has no continuation, and holds the callback it was given. |
| `SharedState.FutureSharedState.Satisfy` | google/cloud/internal/future_impl.h:388-404 | A state is satisfied once: the second time throws promise_already_satisfied and changes nothing; the first time hands exactly the stored continuation to the setter and keeps it in place. |
| `SharedState.FutureSharedState.Abandon` | google/cloud/internal/future_impl.h:176-189 | An unsatisfied state gets broken_promise, a ready one is left alone; no continuation is run. |
| `SharedState.FutureSharedState.SetContinuation` | google/cloud/internal/future_impl.h:191-205 | A second continuation is refused; on a ready state the attacher runs it and it is not stored; else it is stored and nobody runs it. |
| `SharedState.FutureSharedState.ReleaseCancellationCallback` | google/cloud/internal/future_impl.h:207-209 | The callback is handed over and the state is left without one. |
| `SharedState.FutureSharedState.TryCancel` | google/cloud/internal/future_impl.h:212-222 | A state's own callback is called if and only if there is one and the state is neither ready nor cancelled; it is cancelled then, so at most one call succeeds; else nothing changes. |
| `SharedState.FutureSharedState.MarkRetrieved` | google/cloud/internal/future_impl.h:266-273 | The future can be retrieved once per state. |
| `SharedState.FutureObject.Get` | google/cloud/future_generic.h:72-77 | get() gives the stored outcome, or waits for it; the future is invalid afterwards and already while it waits; without a state it throws no_state. |
| `SharedState.PromiseObject.constructor` | google/cloud/internal/future_base.h:152-154 | A promise owns a new state that holds its callback. |
| `SharedState.PromiseObject.GetFuture` | google/cloud/future_generic.h:170-173 | The first call gives a future on the promise's state, later calls throw, and without a state it throws no_state. |
| `SharedState.PromiseObject.Set` | google/cloud/future_generic.h:183-188 | Satisfies the owned state as Satisfy does; without a state it throws no_state. |
| `SharedState.PromiseObject.Swap` | google/cloud/future_generic.h:163-165 | The owners are exchanged, and no state changes. |
| `SharedState.PromiseObject.Destroy` | google/cloud/internal/future_base.h:157-161 | The destructor abandons the state the promise owns. |
| `SharedState.PromiseObject.MoveAssign` | google/cloud/future_generic.h:144-148 | The state owned before is abandoned, the source is left without one, and self-assignment changes nothing. |
| `FutureSections.StepIsSection` | google/cloud/internal/future_impl.h:162-249 | Every step of the transition system changes the shared states by exactly the critical section that one method of the object runs, on one state; a new state holds the callback released for it. |
| `FutureInvariant.TakerOfContinuation` | google/cloud/internal/future_impl.h:191-205 | The continuation kept in a state belongs to the one then() or functor that took its future. |
| `FutureInvariant.NoSecondContinuation` | google/cloud/internal/future_impl.h:191-196 | then() finds no other continuation in place. |
| `FutureInvariant.SecondContinuationIff` | google/cloud/internal/future_impl.h:766-770 | The unwrapper finds a continuation in place if and only if the functor ran on the setter's side and returned its argument; then it is the one that is running. |
| `FutureInvariant.StepKeepsInv` | google/cloud/internal/future_impl.h:162-249 | Every step of every thread keeps the invariant on activities, stored continuations and ownership. |
| `FutureInvariant.StepProgress` | google/cloud/internal/future_impl.h:162-249 | No step takes an outcome, a continuation of a state, or an abandonment back. |
| `FutureInvariant.RunKeepsInv` | google/cloud/internal/future_impl.h:162-249 | The invariant holds in every state of every run. |
| `FutureTheorems.LibraryThrowsIff` | google/cloud/internal/future_impl.h:766-770 | The library runs into its own throws, promise_already_satisfied and future_already_retrieved, if and only if an unwrapping functor returned its argument after its continuation had been stored. |
| `FutureTheorems.LostForever` | google/cloud/internal/future_impl.h:599-602 | An output whose execute() was left by an exception is not ready at any later point of the run. |
| `FutureTheorems.OutcomeNeverChanges` | google/cloud/internal/future_impl.h:228-234 | A ready state keeps its outcome for the rest of any run. |
| `FutureTheorems.PromiseOutcome` | google/cloud/internal/future_impl.h:155-189 | The state of a promise is ready only because of an event of the run: the first set_value() or set_exception(), with the outcome given there, or the end of the promise, with broken_promise. |
| `FutureTheorems.PromiseKeepsOutcome` | google/cloud/internal/future_impl.h:155-189 | From such an event on the state holds that outcome. |
| `FutureTheorems.PromiseEnds` | google/cloud/internal/future_base.h:157-161 | A promise that was destroyed takes no further part in the run. |
| `FutureTheorems.ThenCreatesOutput` | google/cloud/internal/future_then_impl.h:76-82 | A call of then() creates one state, the output of that functor on that future, for the rest of the run. |
| `FutureTheorems.FutureIsConsumed` | google/cloud/internal/future_then_impl.h:76-82 | then() and get() need a valid future and leave an invalid one. |
| `FutureHandles.HandleOverRun` | google/cloud/internal/future_then_impl.h:60-83 | The application holds the future of a state from the get_future() or then() that returns it until get(), then() or a functor's return takes it, and again if and only if that then() is left by a future_error. |
| `FutureHandles.FutureIsRetrievedOnce` | google/cloud/internal/future_impl.h:266-273 | The first get_future() of a run hands the future out, and no later one does. |
| `FutureTheorems.FunctorCalledOnce` | google/cloud/internal/future_impl.h:191-249 | No two steps of a run call the same functor, and the one that does finds the input ready. |
| `FutureTheorems.FunctorResultIsKept` | google/cloud/internal/future_impl.h:734-771 | What an unwrapping functor did when it ran, threw, returned an invalid future, its argument or another future, is what the theorems on its output refer to at any later point. |
| `FutureTheorems.CalledAtMostOnce` | google/cloud/internal/future_impl.h:237-249 | In every interleaving a functor runs at most once, and only on a ready input. |
| `FutureTheorems.CalledExactlyOnce` | google/cloud/internal/future_impl.h:191-205 | Once activity has ceased, a functor has run if and only if its input is ready and was not abandoned while it kept that continuation. |
| `FutureTheorems.AbandonedNeverRuns` | google/cloud/internal/future_impl.h:176-189 | A continuation kept by an abandoned state is never run, at any later point of the run. |
| `FutureTheorems.ChainOutcome` | google/cloud/internal/future_impl.h:592-610 | In every interleaving of attaching and satisfying, a ready state of a chain of then() calls holds the fold of the functors before it over the outcome of the root. |
| `FutureTheorems.ChainCompletes` | google/cloud/internal/future_impl.h:592-704 | Once activity has ceased, a chain on a ready state is ready to its end if and only if no functor let a future_error escape and that state was not abandoned while it kept the chain's first continuation. |
| `FutureTheorems.UnwrappedOutcome` | google/cloud/internal/future_impl.h:734-771 | A ready output of an unwrapping then() holds the functor's exception, broken_promise for an invalid future, or the outcome of the future it returned, which is ready; the functor ran once. |
| `FutureTheorems.UnwrappedReadyIff` | google/cloud/internal/future_then_impl.h:85-124 | Once activity has ceased, the output is ready if and only if outer and inner states are, none of them was abandoned while it kept the continuation, the inner one holds no future_error, and the functor did not return its argument while the outer one kept its continuation. |
| `FutureTheorems.InternalStepsEnd` | google/cloud/internal/future_impl.h:237-249 | Every step the library takes by itself uses up work: activity ceases. |
| `FutureTheorems.ActivityCanStep` | google/cloud/internal/future_impl.h:191-249 | Until activity has ceased some thread can take a step: no continuation is stuck. |
| `FutureCancel.RunKeepsCallbacks` | google/cloud/internal/future_impl.h:207-209 | In every run a state without callback gave it to an output of then() or descends from one whose then() had thrown. |
| `FutureCancel.NewestOutputHoldsCallback` | google/cloud/internal/future_impl.h:672-676 | The callback of a promise is held by exactly one state: the one in the chains of then() calls on it that has no output of its own and was not created after a then() had thrown. |
| `FutureCancel.CancelFindsEmptyCallbackIff` | google/cloud/internal/future_impl.h:212-222 | cancel() through any valid handle calls an emptied callback if and only if the state is not ready, not cancelled, and was created by then() on a future whose earlier then() had thrown. |
| `FutureCancel.CancelNeverFindsEmptyCallback` | google/cloud/internal/future_impl.h:84-84 | While no then() was left by an exception, cancel() never calls an emptied callback. |
| `FutureCancel.CancelInvokesRootCallback` | google/cloud/internal/future_impl.h:212-222 | In every run, cancel() through a valid handle, on a state not created after a thrown then(), invokes a callback if and only if the state is neither ready nor cancelled; it is the callback of the promise at the root of the chain, and the state is cancelled then. |
| `FutureCancel.ThenThrowsOnFutureError` | google/cloud/internal/future_then_impl.h:76-82 | then() is left by an exception only if a future_error escaped its functor or was held by the future the functor returned. |
| `FutureCancel.ThenThrewIff` | google/cloud/internal/future_then_impl.h:76-82 | Once activity has ceased, then() on a state had been left by an exception if and only if a future_error met one of its continuations that then() ran itself, and that no setter had entered. |
| `FutureCancel.CancelIsSafeWithoutFutureErrors` | google/cloud/internal/future_impl.h:727-732 | If functors and states are free of future_error, cancel() always finds the callback, and a valid future on a state that gave its callback up refers to a ready state. |
| `FutureExamples.ThenThrows` | google/cloud/internal/future_then_impl.h:76-82 | A run in which then() throws, the future stays valid, and the callback is gone. |
| `FutureExamples.CancelOnEmptyCallback` | google/cloud/internal/future_impl.h:212-222 | A run that goes on to a valid, unready future whose cancel() calls an empty callback. |
| `FutureExamples.UnwrapLosesFutureError` | google/cloud/internal/future_impl.h:599-602 | A run in which the application holds the unwrapped future, outer and inner states are ready, and that future is not ready in any continuation of the run. |
| `FutureExamples.AbandonLosesContinuation` | google/cloud/internal/future_impl.h:176-189 | A run in which a promise is dropped while its state keeps a continuation: the state is ready, and the output is not ready in any continuation of the run. |
| `FutureExamples.ReturnedArgumentThrows` | google/cloud/internal/future_impl.h:766-770 | A run in which a stored functor returns the ready future it was given: set_continuation() throws, and the unwrapped future is not ready in any continuation of the run. |
| `FutureExamples.ReturnedArgumentWorks` | google/cloud/internal/future_impl.h:197-203 | The same functor on a future that is ready already: the unwrapped future gets the value. |
| `QueueProofs.LockFreeMeansStarted` | google/cloud/internal/completion_queue_impl.h:255-270 | Whenever the mutex is free, every registered operation has finished its start function and has its context. |
| `QueueProofs.StepKeepsInv` | google/cloud/internal/completion_queue_impl.h:255-273 | Every step of every thread, and of gRPC, keeps the invariant. |
| `QueueProofs.RunKeepsInv` | google/cloud/internal/completion_queue_impl.cc:28-96 | The invariant holds in every state of every run. |
| `QueueProofs.QueueIsSafe` | google/cloud/internal/completion_queue_impl.cc:28-96 | In every interleaving no "assertion failure" is thrown, no operation is notified twice, nothing is started after cq_.Shutdown(), and CancelAll() meets no operation without context. |
| `QueueProofs.DrainedWhenRunReturns` | google/cloud/internal/completion_queue_impl.cc:28-48 | When Run() has returned in all threads, pending_ops_ is empty and every operation was notified exactly once, unless its StartOperation() has not returned. |
| `QueueProofs.PendingShrinksAfterShutdown` | google/cloud/internal/completion_queue_impl.h:258-263 | With shutdown_ set no step registers an operation, and each ForgetOperation() makes pending_ops_ smaller. |
| `QueueProofs.NothingRegisteredAfterShutdown` | google/cloud/internal/completion_queue_impl.cc:50-56 | From Shutdown() on, over any stretch of a run, pending_ops_ only shrinks and shutdown_ stays set. |
| `QueueProofs.QueueRefinesOperationQueue` | google/cloud/internal/completion_queue_impl.cc:28-56 | Every step of the concurrent queue is an allowed step of the queue clients see: each operation is started or refused once, and completed once; `QueueEvents.CompletionWasDelivered` says with which flag. |
| `QueueEvents.DeliveryIsTold` | google/cloud/internal/completion_queue_impl.cc:28-48 | From the event by which gRPC returns the tag of a queued operation with ok, the operation is in the hands of that thread with ok, or has been notified with exactly that ok. |
| `QueueEvents.NotifiedAsDelivered` | google/cloud/internal/completion_queue_impl.cc:28-48 | An operation that was notified was either returned by an event of the run, while it was queued, and notified with the ok of that event, or refused by StartOperation() and notified with false. |
| `QueueEvents.CompletionWasDelivered` | google/cloud/internal/completion_queue_impl.cc:43-46 | Each completion that clients see carries the ok with which gRPC had returned the tag to that thread. |
| `QueueEvents.NotifiedOnce` | google/cloud/internal/completion_queue_impl.cc:43-46 | No two events of a run notify the same operation. |
| `QueueEvents.StartIsRegisteredOrRefused` | google/cloud/internal/completion_queue_impl.h:255-273 | StartOperation() never meets an address in use; it refuses the operation if and only if shutdown_ is set, and else registers it alone and keeps the lock. |
| `QueueEvents.IssueIsInTime` | google/cloud/internal/completion_queue_impl.h:255-273 | A tag goes to gRPC under the lock, before shutdown_ and before cq_.Shutdown(), while its operation is registered and gRPC does not own the tag. |
| `QueueEvents.LookupSucceeds` | google/cloud/internal/completion_queue_impl.cc:76-96 | FindOperation() finds the operation registered under the tag that was returned, and ForgetOperation() removes that operation and no other. |
| `QueueEvents.CancelHasContext` | google/cloud/internal/completion_queue_impl.cc:67-69 | Every operation that CancelAll() cancels has its context. |
| `QueueEvents.FlagsAreSet` | google/cloud/internal/completion_queue_impl.cc:50-56 | shutdown_ and the state of cq_ are set if and only if a Shutdown() call took that step before. |
| `QueueEvents.FlagComesFirst` | google/cloud/internal/completion_queue_impl.cc:50-56 | No cq_.Shutdown() comes before shutdown_ is set. |
| `QueueEvents.CancelAllCancels` | google/cloud/internal/completion_queue_impl.cc:58-70 | At every point after CancelAll() took its copy, the operations it has yet to cancel are exactly those registered then that it has not cancelled since; it cancels no other. |
| `QueueEvents.HolderCanStep` | google/cloud/internal/completion_queue_impl.h:255-273 | The thread that holds the lock can take a step, whatever the others do. |
| `QueueEvents.ThreadCanStep` | google/cloud/internal/completion_queue_impl.cc:28-96 | No deadlock: a thread inside the queue can take a step, or waits for a lock whose holder can. |
| `QueueEvents.WaitingIsInGoodHands` | google/cloud/internal/completion_queue_impl.cc:28-48 | An operation that was not notified yet is owned by gRPC, or in the hands of a thread inside the queue: none is forgotten. |
| `QueueEvents.IdleThreadCanStep` | google/cloud/internal/completion_queue_impl.cc:35-37 | After Shutdown(), a thread in AsyncNext() gets a tag or SHUTDOWN. |
| `CompletionQueue.LoopNotifiesEachOnce` | google/cloud/internal/completion_queue_impl.cc:28-48 | The event loop fails if and only if a tag comes twice or is unknown; else the operations delivered are notified once each, in order, with their own ok, and exactly these are unregistered. |
| `CompletionQueue.CompletionQueueImpl.constructor` | google/cloud/internal/completion_queue_impl.h:232-232 | A new queue has no operations and is not shut down. |
| `CompletionQueue.CompletionQueueImpl.StartOperation` | google/cloud/internal/completion_queue_impl.h:255-273 | Registers and starts an operation, notifies it with false after Shutdown(), or fails on an address in use without starting anything. |
| `CompletionQueue.CompletionQueueImpl.FindOperation` | google/cloud/internal/completion_queue_impl.cc:76-85 | Gives the registered operation, or fails. |
| `CompletionQueue.CompletionQueueImpl.ForgetOperation` | google/cloud/internal/completion_queue_impl.cc:87-96 | Removes exactly that operation, or fails. |
| `CompletionQueue.CompletionQueueImpl.Shutdown` | google/cloud/internal/completion_queue_impl.cc:50-56 | Sets the flag and nothing else. |
| `CompletionQueue.CompletionQueueImpl.CancelAll` | google/cloud/internal/completion_queue_impl.cc:58-70 | Cancels all registered operations and no other, and unregisters none. |
| `CompletionQueue.CompletionQueueImpl.Run` | google/cloud/internal/completion_queue_impl.cc:28-48 | The loop computes what the reference loop computes on the same events. |
| `ReadStream.RefusedStreamEnds` | google/cloud/internal/async_read_stream_impl.h:175-301 | After Shutdown() the next operation a stream issues ends it in the same call, with exactly the entries up to on_finish(kCancelled). |
| `ReadStream.StepKeepsInv` | google/cloud/internal/async_read_stream_impl.h:139-301 | Every callback keeps the stream's invariant. |
| `ReadStream.RunKeepsInv` | google/cloud/internal/async_read_stream_impl.h:139-301 | The invariant holds in every state of every run. |
| `ReadStream.OneThingAtATime` | google/cloud/internal/async_read_stream_impl.h:139-301 | At most one gRPC operation is outstanding; until on_finish the stream waits for exactly one operation or answer; reader_ is never null when it is used. |
| `ReadStream.OnReadSeesResponses` | google/cloud/internal/async_read_stream_impl.h:209-229 | on_read sees, in order, the responses up to and including the first whose handler answers false. |
| `ReadStream.OnFinishIsLast` | google/cloud/internal/async_read_stream_impl.h:232-260 | on_finish is called at most once and is the last thing that happens; Finish() is only issued right after a failed start, read or discard. |
| `ReadStream.ShutdownEndsStream` | google/cloud/internal/async_read_stream_impl.h:175-301 | After Shutdown() every callback ends the stream in the same call, except for a response handed to on_read, whose answer does; on_finish gets kCancelled unless Finish() had been issued before. |
| `ReadStream.StepBeforeShutdown` | google/cloud/internal/async_read_stream_impl.h:139-229 | By event: Start() and each answer add exactly their entries to the history and issue one operation; a false answer cancels the RPC and then discards. |
| `ReadStream.CompletionBeforeShutdown` | google/cloud/internal/async_read_stream_impl.h:175-301 | By event: what a completion of each operation adds to the history, and the one operation that follows. |
| `ReadStream.FinishReportsStatus` | google/cloud/internal/async_read_stream_impl.h:257-260 | When Finish() completes, before or after Shutdown(), on_finish gets the status of the RPC that the event carries if it succeeded, and kCancelled else. |
| `ReadStream.StepAfterShutdown` | google/cloud/internal/async_read_stream_impl.h:139-229 | The entries that Start() and answers add after Shutdown(), up to on_finish(kCancelled). |
| `ReadStream.FailureAfterShutdown` | google/cloud/internal/async_read_stream_impl.h:175-301 | The entries of a failed start, read or discard after Shutdown(). |
| `ReadStream.SuccessAfterShutdown` | google/cloud/internal/async_read_stream_impl.h:175-301 | The entries of a successful start or discard after Shutdown(). |
| `ReadStream.StreamUsesQueue` | google/cloud/internal/async_read_stream_impl.h:139-301 | Every step of the stream is a sequence of steps that the queue allows its clients: fresh operations, started before Shutdown() and refused after it, each completed once. |
| `ReadStream.AsyncReadStreamImpl.constructor` | google/cloud/internal/async_read_stream_impl.h:303-305 | A new stream has issued nothing, called no handler, and has no reader_. |
| `ReadStream.AsyncReadStreamImpl.Start` | google/cloud/internal/async_read_stream_impl.h:139-168 | Issues the start operation, which creates reader_; after Shutdown() the whole stream ends within this call. |
| `ReadStream.AsyncReadStreamImpl.StartOperation` | google/cloud/internal/async_read_stream_impl.h:202-205 | Registers the operation, or after Shutdown() runs its callback with false before it returns; together with the callbacks it terminates. |
| `ReadStream.AsyncReadStreamImpl.OnStart` | google/cloud/internal/async_read_stream_impl.h:175-181 | A stream that started issues its first read, one that did not issues Finish(): the transition whose runs are proved safe. |
| `ReadStream.AsyncReadStreamImpl.OnRead` | google/cloud/internal/async_read_stream_impl.h:209-229 | A response goes to on_read once and nothing is issued until its answer; a failed read issues Finish(). |
| `ReadStream.AsyncReadStreamImpl.OnAnswer` | google/cloud/internal/async_read_stream_impl.h:217-228 | A true answer issues the next read; a false one cancels the RPC and issues a discard. |
| `ReadStream.AsyncReadStreamImpl.OnDiscard` | google/cloud/internal/async_read_stream_impl.h:295-301 | Responses are discarded without a call of on_read until a discard fails; then Finish() is issued. |
| `ReadStream.AsyncReadStreamImpl.OnFinish` | google/cloud/internal/async_read_stream_impl.h:257-260 | on_finish gets the status of the RPC if Finish() succeeded, or kCancelled, and nothing is issued: the entries are written out. |
| `Policies.ScaledIsTruncated` | google/cloud/internal/backoff_policy.cc:53-54 | The next range is range * scaling, truncated to whole microseconds. |
| `Policies.Draw` | google/cloud/internal/backoff_policy.cc:48-52 | A draw lies between half of the range and the range. |
| `Policies.DrawReachesAll` | google/cloud/internal/backoff_policy.cc:48-52 | Every value of that interval can be drawn. |
| `Policies.DelayIsDraw` | google/cloud/internal/backoff_policy.cc:48-58 | The wait lies between half of the range and the range, in whole milliseconds. |
| `Policies.DelayReachesAll` | google/cloud/internal/backoff_policy.cc:48-58 | Every whole number of milliseconds there can be the wait. |
| `Policies.ExponentialBackoffPolicy.Create` | google/cloud/internal/backoff_policy.h:124-138 | A factor of at most one is refused; else the first range is twice the initial delay. |
| `Policies.ExponentialBackoffPolicy.Clone` | google/cloud/internal/backoff_policy.cc:23-29 | A clone continues from the current range, with a generator of its own. |
| `Policies.ExponentialBackoffPolicy.OnCompletion` | google/cloud/internal/backoff_policy.cc:31-59 | The wait is drawn from the range before the step; the new range is the maximum if range * scaling reaches it, and else range * scaling down to whole microseconds. |
| `Policies.RangeNeverDecreases` | google/cloud/internal/backoff_policy.cc:48-58 | The range never decreases and never exceeds the maximum. |
| `Policies.RangeGrowsByFactor` | google/cloud/internal/backoff_policy.cc:53-57 | Call k + 1 takes the range of call k to the maximum if range * scaling reaches it, and else to the integer r with r <= range * scaling < r + 1. |
| `Policies.RangeAtMost` | google/cloud/internal/backoff_policy.cc:48-58 | After k calls the range is at most min(maximum, range * scaling^k). |
| `Policies.GrowsIff` | google/cloud/internal/backoff_policy.cc:53-54 | A step grows the range if and only if range * (scaling - 1) >= 1. |
| `Policies.ReachesMaximum` | google/cloud/internal/backoff_policy.cc:53-57 | A range that can grow gains a microsecond per call, so reaches the maximum within maximum - range calls and stays there. |
| `Policies.StaysForever` | google/cloud/internal/backoff_policy.cc:53-57 | A range that cannot grow never changes. |
| `Policies.ReachesMaximumIff` | google/cloud/internal/backoff_policy.cc:53-57 | The maximum is reached if and only if the range starts there or its first step grows. |
| `Policies.TinyDelayNeverGrows` | google/cloud/internal/backoff_policy.cc:53-57 | A concrete policy that never reaches its maximum. |
| `Policies.CountPolicyTolerates` | google/cloud/internal/retry_policy.h:52-58 | Of a sequence of transient errors, a count policy tolerates exactly as many as are left to its maximum. |
| `Policies.TimePolicyTolerates` | google/cloud/internal/retry_policy.h:147-149 | A time policy tolerates a transient error if and only if it comes before the deadline. |
| `Policies.PermanentIsRefused` | google/cloud/internal/retry_policy.h:52-55 | No policy tolerates a permanent error, nor counts it. |
| `Policies.LimitedErrorCountRetryPolicy.constructor` | google/cloud/internal/retry_policy.h:78-79 | A new policy has counted nothing. |
| `Policies.LimitedErrorCountRetryPolicy.Clone` | google/cloud/internal/retry_policy.h:86-89 | A clone starts counting from zero. |
| `Policies.LimitedErrorCountRetryPolicy.OnFailure` | google/cloud/internal/retry_policy.h:52-58 | A permanent error is refused and not counted; others are counted and tolerated up to the maximum. |
| `RetryLoop.LoopExtendsByAttempt` | google/cloud/internal/async_retry_unary_rpc.h:112-132 | One attempt more extends the sequential loop by that attempt alone. |
| `RetryLoop.LoopExtendsByTimer` | google/cloud/internal/async_retry_unary_rpc.h:132-141 | One timer more extends the sequential loop by that timer alone. |
| `RetryLoop.StepKeepsInv` | google/cloud/internal/async_retry_unary_rpc.h:112-154 | Every callback keeps the agreement with the sequential loop and the bounds of the policies. |
| `RetryLoop.CallbacksRefineLoop` | google/cloud/internal/async_retry_unary_rpc.h:112-163 | In every run the callbacks compute what a sequential loop computes on the attempts and timers of the events (`ReplyIsRecorded`); final_result_ is set at most once, with its result; until then exactly the RPC or timer it needs is pending. |
| `RetryLoop.ReplyIsRecorded` | google/cloud/internal/completion_queue_impl.h:104-120 | By event: an RPC that completes adds one attempt, whose reply is the one the event carries if it completed, and kCancelled, call cancelled, if not. |
| `RetryLoop.SuccessIsFinal` | google/cloud/internal/async_retry_unary_rpc.h:112-117 | The value of an RPC that succeeded is the final result. |
| `RetryLoop.FailureIsHandled` | google/cloud/internal/async_retry_unary_rpc.h:118-142 | An RPC that failed ends the loop with its own code, naming the first reason that applies of not idempotent, permanent and exhausted; else one timer starts, for a wait drawn from the range, which grows by the factor. |
| `RetryLoop.BeginAttempts` | google/cloud/internal/async_retry_unary_rpc.h:145-154 | Start() calls async_call once, or, after Shutdown(), handles a cancelled call without calling it. |
| `RetryLoop.TimerIsHandled` | google/cloud/internal/async_retry_unary_rpc.h:132-141 | A timer that expired leads to one attempt; one that was cancelled ends the loop with a timer error of code kCancelled. |
| `RetryLoop.AttemptsBounded` | google/cloud/internal/async_retry_unary_rpc.h:118-131 | A non-idempotent call is attempted once; a fresh count policy allows at most max(0, maximum_failures) + 1 attempts. |
| `RetryLoop.TotalWaitBounded` | google/cloud/internal/async_retry_unary_rpc.h:123-132 | With at most F failures, the waits of a whole run total at most 2 * initial_delay + (F - 1) * maximum_delay, whatever is drawn; without tolerated failures there are none. |
| `RetryLoop.ShutdownEndsLoop` | google/cloud/internal/async_retry_unary_rpc.h:118-154 | After Shutdown() every callback sets final_result_ in the same call, starts nothing, and does not call async_call again, for every policy. |
| `RetryLoop.LoopUsesQueue` | google/cloud/internal/async_retry_unary_rpc.h:112-154 | Every step of the retry loop is a sequence of steps that the queue allows its clients. |
| `RetryLoop.RetryAsyncUnaryRpc.constructor` | google/cloud/internal/async_retry_unary_rpc.h:99-109 | A new loop has attempted nothing. |
| `RetryLoop.RetryAsyncUnaryRpc.Iterate` | google/cloud/internal/async_retry_unary_rpc.h:145-154 | An attempt calls async_call once; after Shutdown() it does not, and the loop ends within this call. |
| `RetryLoop.RetryAsyncUnaryRpc.HandleReply` | google/cloud/internal/async_retry_unary_rpc.h:112-142 | A reply sets final_result_, with the reason of giving up in its message, or advances both policies once and starts one timer. |
| `RetryLoop.RetryAsyncUnaryRpc.HandleTimer` | google/cloud/internal/async_retry_unary_rpc.h:133-141 | A timer that expired starts one attempt; one that was cancelled sets final_result_ to a timer error. |
| `Calendar.RealDateIff` | google/cloud/internal/parse_rfc3339.cc:33-36 | The real dates, by month lengths and leap years, are exactly the dates that some day has. |
| `Calendar.DateOfDayNumber` | google/cloud/internal/parse_rfc3339.cc:112-119 | Counting days from a date and back gives the date: mktime and gmtime are inverse. |
| `Calendar.DaysBeforeYearClosed` | google/cloud/internal/parse_rfc3339.cc:33-36 | The days before a year are 365 per year and the Gregorian count of leap days. |
| `Rfc3339.EpochIs` | google/cloud/internal/parse_rfc3339.cc:119-119 | The epoch is January 1, 1970. |
| `Rfc3339.ParseFractionalSeconds` | google/cloud/internal/parse_rfc3339.cc:122-149 | The scale-up loop and the skip loop compute the specification of the fraction. |
| `Rfc3339.ParseRfc3339` | google/cloud/internal/parse_rfc3339.cc:191-224 | The parser computes its specification: time point or first error. |
| `Rfc3339Proofs.LocalOffsetIsZone` | google/cloud/internal/parse_rfc3339.cc:198-209 | The local offset, whenever it is computed, is what mktime subtracts for the local zone. |
| `Rfc3339Proofs.ChecksPassIff` | google/cloud/internal/parse_rfc3339.cc:66-108 | The checks pass if and only if separator, hour, minute and second are in range and the date is one that some day has: only real dates reach mktime, and all of them do. |
| `Rfc3339Proofs.FractionIsFloor` | google/cloud/internal/parse_rfc3339.cc:122-149 | A fraction of any number of digits is read as exactly floor(fraction * 10^9) nanoseconds, up to the first non-digit. |
| `Rfc3339Proofs.SignedFractionIsFloor` | google/cloud/internal/parse_rfc3339.cc:131-140 | After a minus sign the fraction is read with one place less, and negated. |
| `Rfc3339Proofs.OffsetOf` | google/cloud/internal/parse_rfc3339.cc:151-184 | An offset is read as its signed seconds if hours and minutes are in range, and else refused for the first of them that is not. |
| `Rfc3339Proofs.ParseOfText` | google/cloud/internal/parse_rfc3339.cc:191-224 | A text of the grammar gives the instant of its fields, in every local zone, if they are in range, and else the error about the first of them that is not. |
| `Rfc3339Proofs.StampIsClean` | google/cloud/internal/parse_rfc3339.cc:45-65 | No text of the grammar holds a NUL, a blank or a sign that does not follow a digit. |
| `Rfc3339Theorems.AcceptedIsStamp` | google/cloud/internal/parse_rfc3339.cc:45-224 | A text without these that is accepted is the text of a stamp of the grammar with fields in range. |
| `Rfc3339Theorems.AcceptedIff` | google/cloud/internal/parse_rfc3339.cc:191-224 | Without blanks, NULs and stray signs, exactly the texts of the grammar with fields in range are accepted. |
| `Rfc3339Theorems.BlankAccepted` | google/cloud/internal/parse_rfc3339.cc:55-57 | A text with a blank in place of a digit of the year is accepted and is the text of no stamp. |
| `Rfc3339Theorems.FormatUnits` | google/cloud/internal/format_time_point.cc:25-60 | A fraction is printed as milliseconds if and only if it is a whole number of them, else as microseconds if it is a whole number of those, else as nanoseconds; nothing is lost. |
| `Rfc3339Theorems.FractionReadBack` | google/cloud/internal/format_time_point.cc:25-60 | A printed fraction is read back as itself if and only if it is above minus a tenth of a second. |
| `Rfc3339Theorems.RoundTripIff` | google/cloud/internal/format_time_point.cc:92-106 | Parsing what was printed gives the time point back, in every local zone, if and only if it is not before the epoch or its fraction is below a tenth of a second. |
| `Rfc3339Theorems.FormatIsText` | google/cloud/internal/format_time_point.cc:92-106 | Whole seconds, and time points from the epoch on, are printed as a text of the grammar with the same instant: with 'T' and 'Z', and with the fewest of 0, 3, 6 and 9 digits that lose nothing. |
| `Rfc3339Theorems.FormatFollowsGrammarIff` | google/cloud/internal/format_time_point.cc:92-106 | What is printed is a text of the grammar if and only if no part of a second lies before the epoch. |
| `Rfc3339Theorems.FourDigitYearIff` | google/cloud/internal/format_time_point.cc:62-73 | The time points printed with a year of four digits are those between two bounds: from the year 1000, with the last second before it, which truncation reaches, to the year 9999. |
| `Rfc3339Theorems.HalfSecondLost` | google/cloud/internal/format_time_point.cc:25-60 | Half a second before the epoch is printed and not read back. |
| `Pagination.NextConserves` | google/cloud/internal/pagination_range.h:169-197 | One call shows and leaves exactly what was left in the page and what it loaded. |
| `Pagination.NothingLostOrRepeated` | google/cloud/internal/pagination_range.h:169-197 | After any number of calls, the items handed out and those left in the page are the concatenation of the pages loaded. |
| `Pagination.RequestsFollowTokens` | google/cloud/internal/pagination_range.h:177-191 | Every request carries the token of the response before it, the first an empty one; the loader is never called after an empty token or an error. |
| `Pagination.ResponsesAreTheLoaders` | google/cloud/internal/pagination_range.h:178-178 | Every response recorded is the loader's answer to that request. |
| `Pagination.ErrorThenEnd` | google/cloud/internal/pagination_range.h:179-185 | An error is shown once, and only the end follows. |
| `Pagination.ErrorIsLoaders` | google/cloud/internal/pagination_range.h:177-185 | A call shows an error if and only if it loads a page and the loader fails, and it shows the status of the loader. |
| `Pagination.EndIff` | google/cloud/internal/pagination_range.h:173-195 | The end is shown if and only if the page is used up and was the last or the next one is empty; all items loaded have been handed out then. |
| `Pagination.NoEmptyPageBeforeEnd` | google/cloud/internal/pagination_range.h:192-194 | Until the end is first shown no page loaded was empty: an iteration stops at the first empty page. |
| `Pagination.PaginationRange.constructor` | google/cloud/internal/pagination_range.h:132-140 | A new range has loaded nothing and asks for the first page. |
| `Pagination.PaginationRange.GetNext` | google/cloud/internal/pagination_range.h:169-197 | Each call is one step of the iteration whose outputs are compared with the flat sequence of pages: item, error or end, with at most one request. |
| `Pagination.PaginationRange.Iterate` | google/cloud/internal/pagination_range.h:154-157 | A loop over the range shows the outputs of as many calls, and stops at the first end. |
| `BigEndian.EncodeBigEndian` | google/cloud/internal/big_endian.h:39-51 | The shifts give the base-256 digits of the two's-complement bits, most significant first, at every width. |
| `BigEndian.DecodeBigEndian` | google/cloud/internal/big_endian.h:63-80 | Strings of another length are refused; else or-ing the shifted bytes gives the integer whose bits the string denotes. |
| `BigEndian.OrIsSum` | google/cloud/internal/big_endian.h:77-77 | Or-ing into zero bits is addition. |
| `BigEndian.DigitIsShifted` | google/cloud/internal/big_endian.h:46-49 | A shift cut to eight bits is a base-256 digit. |
| `BigEndian.DecodeEncode` | google/cloud/internal/big_endian.h:39-80 | Decoding what was encoded gives the value, for every value of every width, signed or not. |
| `BigEndian.EncodeDecode` | google/cloud/internal/big_endian.h:39-80 | Encoding what was decoded gives the string, for every string. |
| `BigEndian.RoundTrip` | google/cloud/internal/big_endian.h:39-80 | The two loops, one after the other, give the value back. |

## Left out

- gRPC, alarms and clocks: they are an environment that returns each started tag once and reports SHUTDOWN only when drained; the clock and the random draws are arguments.
- Memory order, condition variables and timed waits (`wait_for`, `wait_until`): each critical section is one step, and a `get()` that has to wait is modelled up to the wait.
- Object lifetime beyond promise abandonment: the `no_state` branch of `execute()` for an input that was destroyed, and destruction of futures and continuations.
- `future<void>`, which is the same protocol with a unit value, and the builds without exceptions.
- Functors that call `then()` on their argument, or store it where it outlives the call: a plain functor is a function from outcomes to outcomes, and an unwrapping one returns its argument, a future that the application holds, an invalid one, or throws.
- Values that are moved from: values are integers that can be copied.
- Policies.RangeAtMost: the scaling factor is an exact real; rounding of `double` and overflow of 64-bit counts are not modelled.
- Policies.ReachesMaximum: durations are not negative.
- `LimitedTimeRetryPolicy` as an object: it is a case of the policy value with the clock as an argument (`TimePolicyTolerates`).
- `on_read` handlers whose future is invalid, abandoned or holds an exception.
- `SimulateCompletion`, `RunAsync`, mocks and everything else under `testing_util`.
- Rfc3339Theorems.RoundTripIff: covers years of four digits (`FourDigitYearIff`), since the width of `%Y` is left to the C library for others; time points are unbounded, where a 64-bit count of nanoseconds ends in the year 2262.
- Rfc3339Proofs.LocalOffsetIsZone: the local zone has a constant offset; daylight saving is not modelled.
- `FormatV4SignedUrlTimestamp` and `FormatV4SignedUrlScope`, and the wording of error messages other than the retry loop's.
- `PaginationIterator` equality and its reference semantics: an iterator is what `GetNext()` shows.
- `IamBindings`, `LogSink`, `TracingOptions`, `ConnectionOptions`, `StatusOr`, `optional`, status codes, `filesystem`, environment access and version information would only add easy members or operating-system calls.
