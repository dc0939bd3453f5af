/** CompletionQueueImpl under any number of Run() threads, starters, cancellers and Shutdown() calls, with
    gRPC as an environment that returns each started tag once and reports SHUTDOWN only when drained.
    The mutex is modelled: a start function runs while it is held, and gRPC may return the tag before that. */
module QueueProtocol {
  import opened Basics

  /** History of an operation; t is the thread in charge of it. */
  datatype Stage =
    | Created(t: nat)      // StartOperation() called
    | Registered(t: nat)   // in pending_ops_, start function not finished
    | Queued               // gRPC owns the tag
    | Got(t: nat)          // AsyncNext() returned the tag
    | Found(t: nat)        // FindOperation() returned the operation
    | Notified(t: nat)     // Notify() called
    | Forgotten
    | Late(t: nat)         // refused after Shutdown()
    | LateNotified

  datatype Op = Op(tag: nat, what: nat, context: bool, notified: seq<bool>, stage: Stage)

  datatype Pc =
    | RunIdle | RunGot(tag: nat, ok: bool) | RunFound(op: nat, ok: bool) | RunNotified(op: nat) | RunReturned
    | StartNew(op: nat) | StartRegistered(op: nat) | StartPrepared(op: nat) | StartIssued(op: nat)
    | StartLate(op: nat) | StartDone
    | CancelIdle | Cancelling(rest: set<nat>)
    | ShutdownIdle | ShutdownFlagged | ShutdownDone
    | Threw   // one of the "assertion failure" exceptions

  datatype Queue = Queue(
    shutdown: bool,          // shutdown_
    cqShutdown: bool,        // cq_.Shutdown() called
    lock: Option<nat>,       // mu_
    pending: map<nat, nat>,  // pending_ops_, from tags to operations
    grpc: set<nat>,          // tags gRPC has to return
    ops: seq<Op>,
    threads: seq<Pc>,
    issuedLate: bool,        // an operation was started after cq_.Shutdown()
    nullContext: bool)       // CancelAll() met an operation without context_

  datatype Event =
    | NewThread(pc: Pc)
    | NewOperation(tag: nat, what: nat)
    | Deliver(t: nat, tag: nat, ok: bool)
    | Drained(t: nat)
    | Find(t: nat)
    | Notify(t: nat)
    | Forget(t: nat)
    | EnterStart(t: nat)
    | Prepare(t: nat)
    | Issue(t: nat)
    | LeaveStart(t: nat)
    | NotifyLate(t: nat)
    | Snapshot(t: nat)
    | CancelOne(t: nat, op: nat)
    | SetFlag(t: nat)
    | ShutdownGrpc(t: nat)

  const EMPTY: Queue := Queue(false, false, None, map[], {}, [], [], false, false)

  predicate RefersTo(pc: Pc, o: nat) {
    match pc
    case RunFound(op, _) => op == o
    case RunNotified(op) => op == o
    case StartNew(op) => op == o
    case StartRegistered(op) => op == o
    case StartPrepared(op) => op == o
    case StartIssued(op) => op == o
    case StartLate(op) => op == o
    case Cancelling(rest) => o in rest
    case _ => false
  }

  /** A shared_ptr to the operation exists: its address is taken. */
  predicate Alive(q: Queue, o: nat) {
    o in q.pending.Values || exists t :: 0 <= t < |q.threads| && RefersTo(q.threads[t], o)
  }

  predicate Enabled(q: Queue, e: Event) {
    match e
    case NewThread(pc) => pc == RunIdle || pc == CancelIdle || pc == ShutdownIdle
    case NewOperation(tag, _) => forall o :: 0 <= o < |q.ops| && Alive(q, o) ==> q.ops[o].tag != tag
    case Deliver(t, tag, _) => t < |q.threads| && q.threads[t] == RunIdle && tag in q.grpc
    case Drained(t) => t < |q.threads| && q.threads[t] == RunIdle && q.cqShutdown && q.grpc == {}
    case Find(t) => t < |q.threads| && q.threads[t].RunGot? && q.lock == None
    case Notify(t) => t < |q.threads| && q.threads[t].RunFound? && q.threads[t].op < |q.ops|
    case Forget(t) => t < |q.threads| && q.threads[t].RunNotified? && q.threads[t].op < |q.ops| && q.lock == None
    case EnterStart(t) => t < |q.threads| && q.threads[t].StartNew? && q.threads[t].op < |q.ops| && q.lock == None
    case Prepare(t) => t < |q.threads| && q.threads[t].StartRegistered? && q.threads[t].op < |q.ops|
    case Issue(t) => t < |q.threads| && q.threads[t].StartPrepared? && q.threads[t].op < |q.ops|
    case LeaveStart(t) => t < |q.threads| && q.threads[t].StartIssued?
    case NotifyLate(t) => t < |q.threads| && q.threads[t].StartLate? && q.threads[t].op < |q.ops|
    case Snapshot(t) => t < |q.threads| && q.threads[t] == CancelIdle && q.lock == None
    case CancelOne(t, op) => t < |q.threads| && q.threads[t].Cancelling? && op in q.threads[t].rest && op < |q.ops|
    case SetFlag(t) => t < |q.threads| && q.threads[t] == ShutdownIdle && q.lock == None
    case ShutdownGrpc(t) => t < |q.threads| && q.threads[t] == ShutdownFlagged
  }

  function Goto(q: Queue, t: nat, pc: Pc): Queue
    requires t < |q.threads|
  {
    q.(threads := q.threads[t := pc])
  }

  function AfterNewOperation(q: Queue, tag: nat, what: nat): Queue {
    q.(ops := q.ops + [Op(tag, what, false, [], Created(|q.threads|))], threads := q.threads + [StartNew(|q.ops|)])
  }

  /** AsyncNext() returns GOT_EVENT. */
  function AfterDeliver(q: Queue, t: nat, tag: nat, ok: bool): Queue
    requires t < |q.threads|
  {
    var q1 := Goto(q, t, RunGot(tag, ok)).(grpc := q.grpc - {tag});
    if tag in q.pending && q.pending[tag] < |q.ops| then
      q1.(ops := q.ops[q.pending[tag] := q.ops[q.pending[tag]].(stage := Got(t))])
    else q1
  }

  function AfterFind(q: Queue, t: nat): Queue
    requires t < |q.threads| && q.threads[t].RunGot?
  {
    var tag := q.threads[t].tag;
    if tag !in q.pending || q.pending[tag] >= |q.ops| then Goto(q, t, Threw)
    else
      var o := q.pending[tag];
      Goto(q, t, RunFound(o, q.threads[t].ok)).(ops := q.ops[o := q.ops[o].(stage := Found(t))])
  }

  function AfterNotify(q: Queue, t: nat): Queue
    requires t < |q.threads| && q.threads[t].RunFound? && q.threads[t].op < |q.ops|
  {
    var o := q.threads[t].op;
    Goto(q, t, RunNotified(o)).(
      ops := q.ops[o := q.ops[o].(notified := q.ops[o].notified + [q.threads[t].ok], stage := Notified(t))])
  }

  function AfterForget(q: Queue, t: nat): Queue
    requires t < |q.threads| && q.threads[t].RunNotified? && q.threads[t].op < |q.ops|
  {
    var o := q.threads[t].op;
    var tag := q.ops[o].tag;
    if tag !in q.pending then Goto(q, t, Threw)
    else Goto(q, t, RunIdle).(pending := q.pending - {tag}, ops := q.ops[o := q.ops[o].(stage := Forgotten)])
  }

  /** StartOperation() takes the lock, and registers the operation or refuses it. */
  function AfterEnterStart(q: Queue, t: nat): Queue
    requires t < |q.threads| && q.threads[t].StartNew? && q.threads[t].op < |q.ops|
  {
    var o := q.threads[t].op;
    var tag := q.ops[o].tag;
    if q.shutdown then Goto(q, t, StartLate(o)).(ops := q.ops[o := q.ops[o].(stage := Late(t))])
    else if tag in q.pending then Goto(q, t, Threw)
    else Goto(q, t, StartRegistered(o)).(
           lock := Some(t), pending := q.pending[tag := o], ops := q.ops[o := q.ops[o].(stage := Registered(t))])
  }

  /** The start function stores the client context, or the deadline, of the operation. */
  function AfterPrepare(q: Queue, t: nat): Queue
    requires t < |q.threads| && q.threads[t].StartRegistered? && q.threads[t].op < |q.ops|
  {
    var o := q.threads[t].op;
    Goto(q, t, StartPrepared(o)).(ops := q.ops[o := q.ops[o].(context := true)])
  }

  /** The start function hands the tag to gRPC. */
  function AfterIssue(q: Queue, t: nat): Queue
    requires t < |q.threads| && q.threads[t].StartPrepared? && q.threads[t].op < |q.ops|
  {
    var o := q.threads[t].op;
    Goto(q, t, StartIssued(o)).(
      grpc := q.grpc + {q.ops[o].tag}, ops := q.ops[o := q.ops[o].(stage := Queued)],
      issuedLate := q.issuedLate || q.cqShutdown)
  }

  function AfterNotifyLate(q: Queue, t: nat): Queue
    requires t < |q.threads| && q.threads[t].StartLate? && q.threads[t].op < |q.ops|
  {
    var o := q.threads[t].op;
    Goto(q, t, StartDone).(ops := q.ops[o := q.ops[o].(notified := q.ops[o].notified + [false], stage := LateNotified)])
  }

  function AfterCancelOne(q: Queue, t: nat, op: nat): Queue
    requires t < |q.threads| && q.threads[t].Cancelling? && op < |q.ops|
  {
    Goto(q, t, Cancelling(q.threads[t].rest - {op})).(nullContext := q.nullContext || !q.ops[op].context)
  }

  function Next(q: Queue, e: Event): Queue
    requires Enabled(q, e)
  {
    match e
    case NewThread(pc) => q.(threads := q.threads + [pc])
    case NewOperation(tag, what) => AfterNewOperation(q, tag, what)
    case Deliver(t, tag, ok) => AfterDeliver(q, t, tag, ok)
    case Drained(t) => Goto(q, t, RunReturned)
    case Find(t) => AfterFind(q, t)
    case Notify(t) => AfterNotify(q, t)
    case Forget(t) => AfterForget(q, t)
    case EnterStart(t) => AfterEnterStart(q, t)
    case Prepare(t) => AfterPrepare(q, t)
    case Issue(t) => AfterIssue(q, t)
    case LeaveStart(t) => Goto(q, t, StartDone).(lock := None)
    case NotifyLate(t) => AfterNotifyLate(q, t)
    case Snapshot(t) => Goto(q, t, Cancelling(q.pending.Values))
    case CancelOne(t, op) => AfterCancelOne(q, t, op)
    case SetFlag(t) => Goto(q, t, ShutdownFlagged).(shutdown := true)
    case ShutdownGrpc(t) => Goto(q, t, ShutdownDone).(cqShutdown := true)
  }

  /** qs are the states a run passes through, by the events es. */
  ghost predicate IsRun(qs: seq<Queue>, es: seq<Event>) {
    && |qs| == |es| + 1 && qs[0] == EMPTY
    && forall k :: 0 <= k < |es| ==> Enabled(qs[k], es[k]) && qs[k + 1] == Next(qs[k], es[k])
  }
}
