/** Runs of QueueProtocol told by their events: what an operation is notified with, what each critical section
    finds, and what Shutdown() and CancelAll() come to. */
module QueueEvents {
  import opened Basics
  import opened QueueProtocol
  import opened QueueProofs

  // ---- What an operation is notified with ----

  /** In state q, gRPC returns the tag of operation o, with ok, to thread t. */
  predicate IsDelivery(q: Queue, e: Event, t: nat, o: nat, ok: bool) {
    o < |q.ops| && q.ops[o].stage.Queued? && e == Deliver(t, q.ops[o].tag, ok)
  }

  ghost predicate WasDelivered(qs: seq<Queue>, es: seq<Event>, k: nat, t: nat, o: nat, ok: bool)
    requires k <= |es| < |qs|
  {
    exists m: nat :: m < k && IsDelivery(qs[m], es[m], t, o, ok)
  }

  /** Operation o was returned with ok to thread t, which notifies it with that. */
  predicate Told(q: Queue, t: nat, o: nat, ok: bool) {
    && o < |q.ops| && t < |q.threads|
    && match q.ops[o].stage
       case Got(s) => s == t && q.threads[t] == RunGot(q.ops[o].tag, ok) && q.ops[o].notified == []
       case Found(s) => s == t && q.threads[t] == RunFound(o, ok) && q.ops[o].notified == []
       case Notified(s) => s == t && q.ops[o].notified == [ok]
       case Forgotten => q.ops[o].notified == [ok]
       case _ => false
  }

  lemma DeliveryTells(q: Queue, e: Event, t: nat, o: nat, ok: bool)
    requires Inv(q) && Enabled(q, e) && IsDelivery(q, e, t, o, ok)
    ensures Told(Next(q, e), t, o, ok)
  {
    assert OpOk(q, o);
  }

  /** The operation that thread e.t works on in step e. */
  function Subject(q: Queue, e: Event): Option<nat>
    requires Enabled(q, e)
  {
    if OnOwnOperation(e) then Some(q.threads[e.t].op)
    else if e.Find? && q.threads[e.t].tag in q.pending then Some(q.pending[q.threads[e.t].tag])
    else if e.Deliver? && e.tag in q.pending then Some(q.pending[e.tag])
    else None
  }

  /** A step leaves alone the operations it is not about. */
  lemma OthersUntouched(q: Queue, e: Event, o: nat)
    requires Inv(q) && Enabled(q, e) && o < |q.ops| && Subject(q, e) != Some(o)
    ensures o < |Next(q, e).ops| && Next(q, e).ops[o] == q.ops[o]
  {
    hide OpOk, Distinct;
  }

  lemma SubjectIs(q: Queue, e: Event, o: nat)
    requires Inv(q) && Enabled(q, e) && Subject(q, e) == Some(o)
    ensures e.t < |q.threads| && ThreadOk(q, e.t) && o < |q.ops| && OpOk(q, o)
    ensures match e
            case Deliver(t, tag, ok) => q.ops[o].stage == Queued && q.ops[o].tag == tag
            case Find(t) => q.ops[o].stage == Got(t) && q.ops[o].tag == q.threads[t].tag
            case Notify(t) => q.ops[o].stage == Found(t)
            case Forget(t) => q.ops[o].stage == Notified(t) && q.ops[o].tag in q.pending
            case EnterStart(t) => q.ops[o].stage == Created(t)
            case Prepare(t) => q.ops[o].stage == Registered(t)
            case Issue(t) => q.ops[o].stage == Registered(t)
            case NotifyLate(t) => q.ops[o].stage == Late(t)
            case _ => false
  {
    hide Distinct;
    assert ThreadOk(q, e.t);
  }

  /** A step moves one thread at most. */
  lemma OtherThreads(q: Queue, e: Event, t: nat)
    requires Enabled(q, e) && t < |q.threads|
    ensures t < |Next(q, e).threads|
    ensures e.NewThread? || e.NewOperation? || e.t != t ==> Next(q, e).threads[t] == q.threads[t]
  {
    hide AfterFind, AfterForget, AfterEnterStart;
    match e
    case Deliver(_, _, _) =>
    case Find(s) => FindMoves(q, s, t);
    case Forget(s) => ForgetMoves(q, s, t);
    case EnterStart(s) => EnterStartMoves(q, s, t);
    case _ =>
  }

  lemma FindMoves(q: Queue, s: nat, t: nat)
    requires s < |q.threads| && q.threads[s].RunGot? && t < |q.threads|
    ensures var h := AfterFind(q, s); |h.threads| == |q.threads| && (s != t ==> h.threads[t] == q.threads[t])
  {
  }

  lemma ForgetMoves(q: Queue, s: nat, t: nat)
    requires s < |q.threads| && q.threads[s].RunNotified? && q.threads[s].op < |q.ops| && t < |q.threads|
    ensures var h := AfterForget(q, s); |h.threads| == |q.threads| && (s != t ==> h.threads[t] == q.threads[t])
  {
  }

  lemma EnterStartMoves(q: Queue, s: nat, t: nat)
    requires s < |q.threads| && q.threads[s].StartNew? && q.threads[s].op < |q.ops| && t < |q.threads|
    ensures var h := AfterEnterStart(q, s); |h.threads| == |q.threads| && (s != t ==> h.threads[t] == q.threads[t])
  {
  }

  /** The thread in charge of a returned operation does nothing else. */
  lemma ThreadWaits(q: Queue, e: Event, t: nat, o: nat)
    requires Inv(q) && Enabled(q, e) && o < |q.ops| && Subject(q, e) != Some(o)
    requires q.ops[o].stage == Got(t) || q.ops[o].stage == Found(t)
    ensures t < |q.threads| && t < |Next(q, e).threads| && Next(q, e).threads[t] == q.threads[t]
  {
    ChargeIs(q, t, o);
    OtherThreads(q, e, t);
    hide Inv, Next;
  }

  lemma OwnStepKeepsTold(q: Queue, e: Event, t: nat, o: nat, ok: bool)
    requires Inv(q) && Enabled(q, e) && Told(q, t, o, ok) && Subject(q, e) == Some(o)
    ensures Told(Next(q, e), t, o, ok)
  {
    SubjectIs(q, e, o);
    hide Inv, OpOk, ThreadOk;
    assert e.Find? || e.Notify? || e.Forget?;
  }

  lemma StepKeepsTold(q: Queue, e: Event, t: nat, o: nat, ok: bool)
    requires Inv(q) && Enabled(q, e) && Told(q, t, o, ok)
    ensures Told(Next(q, e), t, o, ok)
  {
    if Subject(q, e) == Some(o) {
      OwnStepKeepsTold(q, e, t, o, ok);
    } else {
      OthersUntouched(q, e, o);
      if !q.ops[o].stage.Notified? && !q.ops[o].stage.Forgotten? { ThreadWaits(q, e, t, o); }
      OtherThreads(q, e, t);
      hide Inv, Next, Enabled, Subject;
    }
  }

  /** From its delivery on, an operation has been notified with what gRPC delivered, or not yet. */
  lemma {:induction false} DeliveryIsTold(qs: seq<Queue>, es: seq<Event>, m: nat, k: nat, t: nat, o: nat, ok: bool)
    requires IsRun(qs, es) && m < k < |qs| && IsDelivery(qs[m], es[m], t, o, ok)
    ensures Told(qs[k], t, o, ok)
    decreases k
  {
    hide Inv, Next, Enabled, Told, IsDelivery;
    RunKeepsInv(qs, es, k - 1);
    if k == m + 1 {
      DeliveryTells(qs[m], es[m], t, o, ok);
    } else {
      DeliveryIsTold(qs, es, m, k - 1, t, o, ok);
      StepKeepsTold(qs[k - 1], es[k - 1], t, o, ok);
    }
  }

  /** gRPC has returned the tag of the operation. */
  predicate Returned(s: Stage) {
    s.Got? || s.Found? || s.Notified? || s.Forgotten?
  }

  /** In state q, operation o is notified, by a thread that runs Run() or by StartOperation(). */
  predicate Notifies(q: Queue, e: Event, o: nat) {
    || (e.Notify? && e.t < |q.threads| && q.threads[e.t].RunFound? && q.threads[e.t].op == o)
    || Refuses(q, e, o)
  }

  predicate Refuses(q: Queue, e: Event, o: nat) {
    e.NotifyLate? && e.t < |q.threads| && q.threads[e.t] == StartLate(o)
  }

  ghost predicate WasRefused(qs: seq<Queue>, es: seq<Event>, k: nat, o: nat)
    requires k <= |es| < |qs|
  {
    exists m: nat :: m < k && Refuses(qs[m], es[m], o)
  }

  /** An operation is returned by a delivery, and refused by its own StartOperation(). */
  lemma StageComesFrom(q: Queue, e: Event, o: nat)
    requires Inv(q) && Enabled(q, e) && o < |Next(q, e).ops|
    requires o < |q.ops| ==> !Returned(q.ops[o].stage) && !q.ops[o].stage.LateNotified?
    ensures Returned(Next(q, e).ops[o].stage) ==> e.Deliver? && IsDelivery(q, e, e.t, o, e.ok)
    ensures Next(q, e).ops[o].stage.LateNotified? ==> Refuses(q, e, o)
  {
    if o < |q.ops| {
      if Subject(q, e) == Some(o) {
        SubjectIs(q, e, o);
        hide Inv, OpOk, ThreadOk;
      } else {
        OthersUntouched(q, e, o);
      }
    }
  }

  lemma StillDelivered(qs: seq<Queue>, es: seq<Event>, j: nat, k: nat, o: nat)
    requires j <= k <= |es| < |qs| && exists t, ok :: WasDelivered(qs, es, j, t, o, ok)
    ensures exists t, ok :: WasDelivered(qs, es, k, t, o, ok)
  {
    var t, ok :| WasDelivered(qs, es, j, t, o, ok);
    assert WasDelivered(qs, es, k, t, o, ok);
  }

  lemma {:induction false} StageHasEvent(qs: seq<Queue>, es: seq<Event>, k: nat, o: nat)
    requires IsRun(qs, es) && k < |qs| && o < |qs[k].ops|
    ensures Returned(qs[k].ops[o].stage) ==> exists t, ok :: WasDelivered(qs, es, k, t, o, ok)
    ensures qs[k].ops[o].stage.LateNotified? ==> WasRefused(qs, es, k, o)
    decreases k
  {
    hide Inv, Next, Enabled, IsDelivery, Refuses;
    if k > 0 {
      var q, e := qs[k - 1], es[k - 1];
      RunKeepsInv(qs, es, k - 1);
      if o < |q.ops| && (Returned(q.ops[o].stage) || q.ops[o].stage.LateNotified?) {
        StageHasEvent(qs, es, k - 1, o);
        if Returned(q.ops[o].stage) { StillDelivered(qs, es, k - 1, k, o); }
        GoneForward(q, e, o);
      } else {
        StageComesFrom(q, e, o);
        if Returned(qs[k].ops[o].stage) { assert WasDelivered(qs, es, k, e.t, o, e.ok); }
      }
    }
  }

  lemma GoneForward(q: Queue, e: Event, o: nat)
    requires Inv(q) && Enabled(q, e) && o < |q.ops|
    ensures o < |Next(q, e).ops|
    ensures Returned(q.ops[o].stage) ==> Returned(Next(q, e).ops[o].stage)
    ensures q.ops[o].stage.LateNotified? ==> Next(q, e).ops[o].stage.LateNotified?
  {
    if Subject(q, e) == Some(o) {
      SubjectIs(q, e, o);
      hide Inv, OpOk, ThreadOk;
    } else {
      OthersUntouched(q, e, o);
    }
  }

  /** An operation that was notified was either returned by gRPC, and was notified with the flag that came with
      its tag, or refused by StartOperation(), and was notified with false. */
  lemma NotifiedAsDelivered(qs: seq<Queue>, es: seq<Event>, k: nat, o: nat)
    requires IsRun(qs, es) && k < |qs| && o < |qs[k].ops| && qs[k].ops[o].notified != []
    ensures || (exists t, ok :: WasDelivered(qs, es, k, t, o, ok) && qs[k].ops[o].notified == [ok])
            || (WasRefused(qs, es, k, o) && qs[k].ops[o].notified == [false])
  {
    RunKeepsInv(qs, es, k);
    assert OpOk(qs[k], o);
    StageHasEvent(qs, es, k, o);
    if Returned(qs[k].ops[o].stage) {
      var t, ok :| WasDelivered(qs, es, k, t, o, ok);
      var m: nat :| m < k && IsDelivery(qs[m], es[m], t, o, ok);
      DeliveryIsTold(qs, es, m, k, t, o, ok);
    }
  }

  /** The client's view of a notification by Run() carries the flag of the delivery it answers. */
  lemma CompletionWasDelivered(qs: seq<Queue>, es: seq<Event>, k: nat)
    requires IsRun(qs, es) && k < |es| && es[k].Notify?
    ensures var step := ViewStep(qs[k], es[k]);
            step.Complete? && WasDelivered(qs, es, k, es[k].t, step.op, step.ok)
  {
    RunKeepsInv(qs, es, k);
    var o := qs[k].threads[es[k].t].op;
    Acting(qs[k], es[k]);
    StageHasEvent(qs, es, k, o);
    var t, ok :| WasDelivered(qs, es, k, t, o, ok);
    var m: nat :| m < k && IsDelivery(qs[m], es[m], t, o, ok);
    DeliveryIsTold(qs, es, m, k, t, o, ok);
  }

  lemma StepKeepsNotified(q: Queue, e: Event, o: nat)
    requires Inv(q) && Enabled(q, e) && o < |q.ops|
    ensures o < |Next(q, e).ops| && Next(q, e).ops[o].tag == q.ops[o].tag
    ensures if Notifies(q, e, o) then q.ops[o].notified == [] && Next(q, e).ops[o].notified != []
            else Next(q, e).ops[o].notified == q.ops[o].notified
  {
    if Subject(q, e) == Some(o) {
      SubjectIs(q, e, o);
      hide Inv, ThreadOk;
    } else {
      OthersUntouched(q, e, o);
      hide Inv;
    }
  }

  lemma {:induction false} StaysNotified(qs: seq<Queue>, es: seq<Event>, i: nat, j: nat, o: nat)
    requires IsRun(qs, es) && i <= j < |qs| && o < |qs[i].ops|
    ensures o < |qs[j].ops| && (qs[i].ops[o].notified != [] ==> qs[j].ops[o].notified == qs[i].ops[o].notified)
    decreases j
  {
    hide Inv, Next, Enabled, Notifies;
    if i < j {
      StaysNotified(qs, es, i, j - 1, o);
      RunKeepsInv(qs, es, j - 1);
      StepKeepsNotified(qs[j - 1], es[j - 1], o);
    }
  }

  /** No two events of a run notify the same operation. */
  lemma NotifiedOnce(qs: seq<Queue>, es: seq<Event>, i: nat, j: nat, o: nat)
    requires IsRun(qs, es) && i < j < |es| && Notifies(qs[i], es[i], o)
    ensures !Notifies(qs[j], es[j], o)
  {
    RunKeepsInv(qs, es, i);
    RunKeepsInv(qs, es, j);
    NotifiedExists(qs[i], es[i], o);
    hide Inv, Next, Enabled, Notifies;
    StepKeepsNotified(qs[i], es[i], o);
    StaysNotified(qs, es, i + 1, j, o);
    StepKeepsNotified(qs[j], es[j], o);
  }

  lemma NotifiedExists(q: Queue, e: Event, o: nat)
    requires Inv(q) && Enabled(q, e) && Notifies(q, e, o)
    ensures o < |q.ops|
  {
  }

  // ---- What each critical section finds ----

  /** StartOperation(): refused exactly after Shutdown(), or registered under an address nobody else uses. */
  lemma StartIsRegisteredOrRefused(qs: seq<Queue>, es: seq<Event>, k: nat, o: nat)
    requires IsRun(qs, es) && k < |es| && es[k].EnterStart? && qs[k].threads[es[k].t] == StartNew(o)
    ensures o < |qs[k].ops| && qs[k].ops[o].tag !in qs[k].pending
    ensures if qs[k].shutdown then
              qs[k + 1].pending == qs[k].pending && qs[k + 1].threads[es[k].t] == StartLate(o)
              && qs[k + 1].lock == None
            else
              qs[k + 1].pending == qs[k].pending[qs[k].ops[o].tag := o]
              && qs[k + 1].threads[es[k].t] == StartRegistered(o) && qs[k + 1].lock == Some(es[k].t)
  {
    RunKeepsInv(qs, es, k);
    Acting(qs[k], es[k]);
    NotRegistered(qs[k], o);
  }

  /** The tag goes to gRPC under the lock, with neither flag set, while its operation is registered. */
  lemma IssueIsInTime(qs: seq<Queue>, es: seq<Event>, k: nat)
    requires IsRun(qs, es) && k < |es| && es[k].Issue?
    ensures var (q, o) := (qs[k], qs[k].threads[es[k].t].op);
            && q.lock == Some(es[k].t) && !q.shutdown && !q.cqShutdown
            && o < |q.ops| && q.ops[o].tag in q.pending && q.pending[q.ops[o].tag] == o
            && q.ops[o].tag !in q.grpc && qs[k + 1].grpc == q.grpc + {q.ops[o].tag}
  {
    RunKeepsInv(qs, es, k);
    Acting(qs[k], es[k]);
  }

  /** FindOperation() finds the operation that started with the tag, and ForgetOperation() removes that one. */
  lemma LookupSucceeds(qs: seq<Queue>, es: seq<Event>, k: nat)
    requires IsRun(qs, es) && k < |es|
    ensures es[k].Find? ==>
              var (q, t) := (qs[k], es[k].t);
              && q.threads[t].tag in q.pending
              && qs[k + 1].threads[t] == RunFound(q.pending[q.threads[t].tag], q.threads[t].ok)
              && qs[k + 1].pending == q.pending
    ensures es[k].Forget? ==>
              var (q, o) := (qs[k], qs[k].threads[es[k].t].op);
              && q.ops[o].tag in q.pending && q.pending[q.ops[o].tag] == o
              && qs[k + 1].pending == q.pending - {q.ops[o].tag} && qs[k + 1].threads[es[k].t] == RunIdle
  {
    RunKeepsInv(qs, es, k);
    if es[k].Forget? { Acting(qs[k], es[k]); }
    if es[k].Find? { assert ThreadOk(qs[k], es[k].t); }
  }

  /** Operation::Cancel() always has the context, or the timer, that the start function stored. */
  lemma CancelHasContext(qs: seq<Queue>, es: seq<Event>, k: nat)
    requires IsRun(qs, es) && k < |es| && es[k].CancelOne?
    ensures qs[k].ops[es[k].op].context
  {
    RunKeepsInv(qs, es, k);
    assert ThreadOk(qs[k], es[k].t);
  }

  // ---- Shutdown() and CancelAll() ----

  /** shutdown_ and the state of cq_ are set by the two steps of a Shutdown() call, and by nothing else. */
  lemma {:induction false} FlagsAreSet(qs: seq<Queue>, es: seq<Event>, k: nat)
    requires IsRun(qs, es) && k < |qs|
    ensures qs[k].shutdown <==> exists m: nat :: m < k && es[m].SetFlag?
    ensures qs[k].cqShutdown <==> exists m: nat :: m < k && es[m].ShutdownGrpc?
  {
    hide Next, Enabled;
    if k > 0 {
      FlagsAreSet(qs, es, k - 1);
      FlagStep(qs[k - 1], es[k - 1]);
    }
  }

  lemma FlagStep(q: Queue, e: Event)
    requires Enabled(q, e)
    ensures Next(q, e).shutdown == (q.shutdown || e.SetFlag?)
    ensures Next(q, e).cqShutdown == (q.cqShutdown || e.ShutdownGrpc?)
  {
    match e
    case Deliver(_, _, _) =>
    case Find(_) =>
    case EnterStart(_) =>
    case Forget(_) =>
    case _ =>
  }

  /** No Shutdown() call reaches cq_ before some call has set shutdown_. */
  lemma FlagComesFirst(qs: seq<Queue>, es: seq<Event>, k: nat)
    requires IsRun(qs, es) && k < |es| && es[k].ShutdownGrpc?
    ensures exists m: nat :: m < k && es[m].SetFlag?
  {
    RunKeepsInv(qs, es, k);
    assert ThreadOk(qs[k], es[k].t);
    FlagsAreSet(qs, es, k);
  }

  ghost predicate CancelledBetween(es: seq<Event>, m: nat, k: nat, t: nat, o: nat)
    requires k <= |es|
  {
    exists n: nat :: m < n < k && es[n] == CancelOne(t, o)
  }

  /** CancelAll() cancels each operation that was registered when it took the lock, and no other. */
  lemma {:induction false} CancelAllCancels(qs: seq<Queue>, es: seq<Event>, m: nat, k: nat, t: nat)
    requires IsRun(qs, es) && m < k < |qs| && es[m] == Snapshot(t)
    ensures t < |qs[k].threads| && qs[k].threads[t].Cancelling?
    ensures forall o: nat :: o in qs[k].threads[t].rest <==>
                             o in qs[m].pending.Values && !CancelledBetween(es, m, k, t, o)
    ensures forall o: nat :: CancelledBetween(es, m, k, t, o) ==> o in qs[m].pending.Values
    decreases k
  {
    if k == m + 1 {
      forall o: nat ensures !CancelledBetween(es, m, k, t, o) {}
    } else {
      hide Next, Enabled, CancelledBetween;
      CancelAllCancels(qs, es, m, k - 1, t);
      CancelStep(qs[k - 1], es[k - 1], t);
      forall o: nat
        ensures CancelledBetween(es, m, k, t, o) <==>
                CancelledBetween(es, m, k - 1, t, o) || es[k - 1] == CancelOne(t, o)
      {
        BetweenNext(es, m, k - 1, t, o);
      }
    }
  }

  lemma BetweenNext(es: seq<Event>, m: nat, k: nat, t: nat, o: nat)
    requires m < k < |es|
    ensures CancelledBetween(es, m, k + 1, t, o) <==> CancelledBetween(es, m, k, t, o) || es[k] == CancelOne(t, o)
  {
  }

  lemma CancelStep(q: Queue, e: Event, t: nat)
    requires Enabled(q, e) && t < |q.threads| && q.threads[t].Cancelling?
    ensures t < |Next(q, e).threads| && Next(q, e).threads[t].Cancelling?
    ensures if e.CancelOne? && e.t == t then
              e.op in q.threads[t].rest && Next(q, e).threads[t].rest == q.threads[t].rest - {e.op}
            else Next(q, e).threads[t] == q.threads[t]
  {
    OtherThreads(q, e, t);
    if !(e.CancelOne? && e.t == t) { hide Next; }
  }

  // ---- No deadlock ----

  /** The thread is outside the queue: it waits in AsyncNext(), has nothing to do yet, or is done. */
  predicate AtRest(pc: Pc) {
    pc.RunIdle? || pc.RunReturned? || pc.StartDone? || pc.CancelIdle? || pc == Cancelling({})
    || pc.ShutdownIdle? || pc.ShutdownDone?
  }

  /** The thread that holds the lock can take a step, whatever the other threads do. */
  lemma HolderCanStep(qs: seq<Queue>, es: seq<Event>, k: nat) returns (e: Event)
    requires IsRun(qs, es) && k < |qs| && qs[k].lock.Some?
    ensures e.Prepare? || e.Issue? || e.LeaveStart?
    ensures Enabled(qs[k], e) && qs[k].lock == Some(e.t)
  {
    RunKeepsInv(qs, es, k);
    var t := qs[k].lock.value;
    assert ThreadOk(qs[k], t);
    match qs[k].threads[t]
    case StartRegistered(_) => e := Prepare(t);
    case StartPrepared(_) => e := Issue(t);
    case StartIssued(_) => e := LeaveStart(t);
  }

  /** A thread inside the queue can take a step, or waits for a lock whose holder can. */
  lemma ThreadCanStep(qs: seq<Queue>, es: seq<Event>, k: nat, t: nat) returns (e: Event)
    requires IsRun(qs, es) && k < |qs| && t < |qs[k].threads| && !AtRest(qs[k].threads[t])
    ensures !e.NewThread? && !e.NewOperation? && !e.Deliver? && !e.Drained? && Enabled(qs[k], e)
    ensures e.t == t || qs[k].lock == Some(e.t)
  {
    RunKeepsInv(qs, es, k);
    if qs[k].lock.Some? {
      e := HolderCanStep(qs, es, k);
    } else {
      assert ThreadOk(qs[k], t);
      match qs[k].threads[t]
      case RunGot(_, _) => e := Find(t);
      case RunFound(_, _) => e := Notify(t);
      case RunNotified(_) => e := Forget(t);
      case StartNew(_) => e := EnterStart(t);
      case StartLate(_) => e := NotifyLate(t);
      case Cancelling(rest) =>
        var o :| o in rest;
        e := CancelOne(t, o);
      case ShutdownFlagged => e := ShutdownGrpc(t);
    }
  }

  /** An operation that was not notified yet waits for gRPC alone, or is in the hands of a thread inside the
      queue. */
  lemma WaitingIsInGoodHands(qs: seq<Queue>, es: seq<Event>, k: nat, o: nat)
    requires IsRun(qs, es) && k < |qs| && o < |qs[k].ops| && qs[k].ops[o].notified == []
    ensures || qs[k].ops[o].tag in qs[k].grpc
            || exists t: nat :: t < |qs[k].threads| && InHands(qs[k], t, o)
  {
    RunKeepsInv(qs, es, k);
    assert OpOk(qs[k], o);
    if !qs[k].ops[o].stage.Queued? { assert InHands(qs[k], qs[k].ops[o].stage.t, o); }
  }

  /** Thread t is inside the queue, on behalf of operation o. */
  predicate InHands(q: Queue, t: nat, o: nat)
    requires t < |q.threads| && o < |q.ops|
  {
    !AtRest(q.threads[t]) &&
    (RefersTo(q.threads[t], o) || (q.threads[t].RunGot? && q.threads[t].tag == q.ops[o].tag))
  }

  /** After Shutdown(), AsyncNext() has a tag to return, or returns SHUTDOWN. */
  lemma IdleThreadCanStep(qs: seq<Queue>, es: seq<Event>, k: nat, t: nat) returns (e: Event)
    requires IsRun(qs, es) && k < |qs| && t < |qs[k].threads| && qs[k].threads[t].RunIdle? && qs[k].cqShutdown
    ensures (e.Deliver? || e.Drained?) && e.t == t && Enabled(qs[k], e)
  {
    if tag :| tag in qs[k].grpc { e := Deliver(t, tag, false); } else { e := Drained(t); }
  }
}
