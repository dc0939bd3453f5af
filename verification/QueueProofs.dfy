/** The invariant of QueueProtocol, and what follows from it for every run. */
module QueueProofs {
  import opened Basics
  import opened QueueProtocol
  import OperationQueue

  predicate Waiting(s: Stage) {
    s.Created? || s.Registered? || s.Queued? || s.Got? || s.Found? || s.Late?
  }

  /** The operation is in pending_ops_. */
  predicate InPending(s: Stage) {
    s.Registered? || s.Queued? || s.Got? || s.Found? || s.Notified?
  }

  predicate OpOk(q: Queue, o: nat)
    requires o < |q.ops|
  {
    var op := q.ops[o];
    && (Waiting(op.stage) ==> op.notified == [])
    && (!Waiting(op.stage) ==> |op.notified| == 1)
    && (op.stage.LateNotified? ==> op.notified == [false])
    && (InPending(op.stage) ==> op.tag in q.pending && q.pending[op.tag] == o)
    && (InPending(op.stage) && !op.stage.Registered? ==> op.context)
    && match op.stage
       case Created(t) => t < |q.threads| && q.threads[t] == StartNew(o)
       case Registered(t) =>
         t < |q.threads| && (q.threads[t] == StartRegistered(o) || (q.threads[t] == StartPrepared(o) && op.context))
       case Queued => op.tag in q.grpc
       case Got(t) => t < |q.threads| && q.threads[t].RunGot? && q.threads[t].tag == op.tag
       case Found(t) => t < |q.threads| && q.threads[t].RunFound? && q.threads[t].op == o
       case Notified(t) => t < |q.threads| && q.threads[t] == RunNotified(o)
       case Late(t) => t < |q.threads| && q.threads[t] == StartLate(o)
       case _ => true
  }

  predicate ThreadOk(q: Queue, t: nat)
    requires t < |q.threads|
  {
    match q.threads[t]
    case RunGot(tag, _) => tag in q.pending && q.pending[tag] < |q.ops| && q.ops[q.pending[tag]].stage == Got(t)
    case RunFound(o, _) => o < |q.ops| && q.ops[o].stage == Found(t)
    case RunNotified(o) => o < |q.ops| && q.ops[o].stage == Notified(t)
    case RunReturned => q.cqShutdown && q.grpc == {}
    case StartNew(o) => o < |q.ops| && q.ops[o].stage == Created(t)
    case StartRegistered(o) => o < |q.ops| && q.ops[o].stage == Registered(t) && q.lock == Some(t) && !q.shutdown
    case StartPrepared(o) =>
      o < |q.ops| && q.ops[o].stage == Registered(t) && q.ops[o].context && q.lock == Some(t) && !q.shutdown
    case StartIssued(o) => q.lock == Some(t) && !q.shutdown
    case StartLate(o) => o < |q.ops| && q.ops[o].stage == Late(t) && q.shutdown
    case Cancelling(rest) => forall o :: o in rest ==> o < |q.ops| && q.ops[o].context
    case ShutdownFlagged => q.shutdown
    case Threw => false
    case _ => true
  }

  predicate SharedOk(q: Queue) {
    && (forall tag :: tag in q.pending ==> q.pending[tag] < |q.ops| && q.ops[q.pending[tag]].tag == tag
                                           && InPending(q.ops[q.pending[tag]].stage))
    && (forall tag :: tag in q.grpc ==> tag in q.pending && q.ops[q.pending[tag]].stage.Queued?)
    && (q.lock.Some? ==> q.lock.value < |q.threads| && (q.threads[q.lock.value].StartRegistered?
                         || q.threads[q.lock.value].StartPrepared? || q.threads[q.lock.value].StartIssued?))
    && (q.cqShutdown ==> q.shutdown)
    && !q.issuedLate && !q.nullContext
  }

  /** Operations that somebody still refers to have different addresses. */
  predicate Distinct(q: Queue) {
    forall o, p :: 0 <= o < p < |q.ops| && !Gone(q.ops[o].stage) && !Gone(q.ops[p].stage) ==>
                     q.ops[o].tag != q.ops[p].tag
  }

  predicate Gone(s: Stage) {
    s.Forgotten? || s.LateNotified?
  }

  predicate Inv(q: Queue) {
    && (forall o: nat :: o < |q.ops| ==> OpOk(q, o))
    && (forall t: nat :: t < |q.threads| ==> ThreadOk(q, t))
    && SharedOk(q) && Distinct(q)
  }

  /** An operation that is not gone is referred to by pending_ops_ or by the thread in charge of it. */
  lemma AliveUnlessGone(q: Queue, o: nat)
    requires Inv(q) && o < |q.ops| && !Gone(q.ops[o].stage)
    ensures Alive(q, o)
  {
    assert OpOk(q, o);
    if !InPending(q.ops[o].stage) {
      assert RefersTo(q.threads[q.ops[o].stage.t], o);
    }
  }

  /** Whenever the mutex is free, every registered operation has finished its start function. */
  lemma LockFreeMeansStarted(q: Queue, o: nat)
    requires Inv(q) && q.lock == None && o in q.pending.Values
    ensures o < |q.ops| && q.ops[o].context && !q.ops[o].stage.Registered?
  {
    var tag :| tag in q.pending && q.pending[tag] == o;
    assert OpOk(q, o);
    assert q.ops[o].stage.Registered? ==> ThreadOk(q, q.ops[o].stage.t);
  }

  /** The thread in charge of an operation in this stage. */
  function InCharge(s: Stage): Option<nat> {
    match s
    case Queued => None
    case Forgotten => None
    case LateNotified => None
    case _ => Some(s.t)
  }

  /** The thread in charge of an operation has it in its program counter. */
  lemma ChargeIs(q: Queue, t: nat, o: nat)
    requires Inv(q) && o < |q.ops| && InCharge(q.ops[o].stage) == Some(t)
    ensures t < |q.threads|
    ensures match q.threads[t]
            case RunGot(tag, _) => tag in q.pending && q.pending[tag] == o
            case RunFound(p, _) => p == o
            case RunNotified(p) => p == o
            case StartNew(p) => p == o
            case StartRegistered(p) => p == o
            case StartPrepared(p) => p == o
            case StartLate(p) => p == o
            case _ => false
  {
    assert OpOk(q, o);
  }

  // ---- Steps on an operation ----

  /** From q to h, thread t does something to operation a, and touches nothing else. */
  ghost predicate Acts(q: Queue, h: Queue, t: nat, a: nat) {
    && t < |q.threads| == |h.threads| && a < |q.ops| == |h.ops|
    && (forall s: nat :: s < |q.threads| && s != t ==> h.threads[s] == q.threads[s])
    && (forall o: nat :: o < |q.ops| && o != a ==> h.ops[o] == q.ops[o])
    && h.ops[a].tag == q.ops[a].tag && (q.ops[a].context ==> h.ops[a].context)
    && !Gone(q.ops[a].stage) && (InCharge(q.ops[a].stage) == None || InCharge(q.ops[a].stage) == Some(t))
    && (forall o: nat :: o < |q.ops| && o != a ==> InCharge(q.ops[o].stage) != Some(t))
    && (forall tag :: tag != q.ops[a].tag ==> SameTag(q, h, tag))
    && h.shutdown == q.shutdown && h.cqShutdown == q.cqShutdown
    && (q.lock != h.lock ==> (q.lock == None || q.lock == Some(t)) && (h.lock == None || h.lock == Some(t)))
    && (q.cqShutdown && q.grpc == {} ==> h.grpc == {})
    && h.issuedLate == q.issuedLate && h.nullContext == q.nullContext
  }

  predicate SameTag(q: Queue, h: Queue, tag: nat) {
    && (tag in h.pending <==> tag in q.pending) && (tag in q.pending ==> h.pending[tag] == q.pending[tag])
    && (tag in h.grpc <==> tag in q.grpc)
  }

  /** What thread t has to see to for itself and for its operation. */
  predicate ActsWell(h: Queue, t: nat, a: nat)
    requires t < |h.threads| && a < |h.ops|
  {
    var tag := h.ops[a].tag;
    && OpOk(h, a) && ThreadOk(h, t)
    && (tag in h.pending ==> h.pending[tag] == a && InPending(h.ops[a].stage))
    && (tag in h.grpc ==> tag in h.pending && h.ops[a].stage.Queued?)
    && (h.lock == Some(t) ==> HoldsLock(h.threads[t]))
  }

  predicate HoldsLock(pc: Pc) {
    pc.StartRegistered? || pc.StartPrepared? || pc.StartIssued?
  }

  /** Two operations that are not gone, one of which is registered. */
  lemma OtherTag(q: Queue, a: nat, o: nat)
    requires Inv(q) && a < |q.ops| && o < |q.ops| && o != a && !Gone(q.ops[a].stage) && !Gone(q.ops[o].stage)
    ensures q.ops[o].tag != q.ops[a].tag
  {
  }

  lemma OtherOp(q: Queue, h: Queue, t: nat, a: nat, o: nat)
    requires Inv(q) && Acts(q, h, t, a) && o < |q.ops| && o != a
    ensures OpOk(h, o)
  {
    hide ThreadOk, SharedOk, Distinct;
    assert OpOk(q, o);
    if !Gone(q.ops[o].stage) {
      OtherTag(q, a, o);
      assert SameTag(q, h, q.ops[o].tag);
    }
  }

  lemma OtherThread(q: Queue, h: Queue, t: nat, a: nat, s: nat)
    requires Inv(q) && Acts(q, h, t, a) && s < |q.threads| && s != t
    ensures ThreadOk(h, s)
  {
    hide OpOk, Distinct;
    assert ThreadOk(q, s);
    match q.threads[s]
    case RunGot(tag, _) =>
      var o := q.pending[tag];
      assert o != a;
      hide ThreadOk;
      OtherTag(q, a, o);
      assert SameTag(q, h, tag);
    case _ =>
  }

  lemma SharedAfterActing(q: Queue, h: Queue, t: nat, a: nat)
    requires Inv(q) && Acts(q, h, t, a) && ActsWell(h, t, a)
    ensures SharedOk(h) && Distinct(h)
  {
    hide OpOk, ThreadOk;
    forall tag | tag in h.pending
      ensures h.pending[tag] < |h.ops| && h.ops[h.pending[tag]].tag == tag && InPending(h.ops[h.pending[tag]].stage)
    {
      if tag != q.ops[a].tag { assert SameTag(q, h, tag); }
    }
    forall tag | tag in h.grpc ensures tag in h.pending && h.ops[h.pending[tag]].stage.Queued? {
      if tag != q.ops[a].tag { assert SameTag(q, h, tag); }
    }
    forall o, p | 0 <= o < p < |h.ops| && !Gone(h.ops[o].stage) && !Gone(h.ops[p].stage)
      ensures h.ops[o].tag != h.ops[p].tag
    {
      assert q.ops[o].tag != q.ops[p].tag;
    }
  }

  lemma ActingKeepsInv(q: Queue, h: Queue, t: nat, a: nat)
    requires Inv(q) && Acts(q, h, t, a) && ActsWell(h, t, a)
    ensures Inv(h)
  {
    hide OpOk, ThreadOk, SharedOk, Distinct;
    forall o: nat | o < |h.ops| ensures OpOk(h, o) {
      if o != a { OtherOp(q, h, t, a, o); }
    }
    forall s: nat | s < |h.threads| ensures ThreadOk(h, s) {
      if s != t { OtherThread(q, h, t, a, s); }
    }
    SharedAfterActing(q, h, t, a);
  }

  /** Thread t acts on operation a, and is in charge of no other. */
  lemma OnlyActing(q: Queue, t: nat, a: nat)
    requires Inv(q) && t < |q.threads|
    requires match q.threads[t]
             case RunIdle => true
             case RunGot(tag, _) => tag in q.pending && q.pending[tag] == a
             case RunFound(p, _) => p == a
             case RunNotified(p) => p == a
             case StartNew(p) => p == a
             case StartRegistered(p) => p == a
             case StartPrepared(p) => p == a
             case StartLate(p) => p == a
             case _ => false
    ensures forall o: nat :: o < |q.ops| && o != a ==> InCharge(q.ops[o].stage) != Some(t)
  {
    hide Inv;
    forall o: nat | o < |q.ops| && InCharge(q.ops[o].stage) == Some(t) ensures o == a { ChargeIs(q, t, o); }
  }

  predicate OnOwnOperation(e: Event) {
    e.Notify? || e.Forget? || e.EnterStart? || e.Prepare? || e.Issue? || e.NotifyLate?
  }

  /** What the acting thread knows about itself and about its operation. */
  lemma Acting(q: Queue, e: Event)
    requires Inv(q) && Enabled(q, e) && OnOwnOperation(e)
    ensures ThreadOk(q, e.t) && q.threads[e.t].op < |q.ops| && OpOk(q, q.threads[e.t].op)
  {
    hide OpOk;
    assert ThreadOk(q, e.t) && OpOk(q, q.threads[e.t].op);
  }

  /** The address of an operation that is not registered, and not gone, is not in pending_ops_. */
  lemma NotRegistered(q: Queue, a: nat)
    requires Inv(q) && a < |q.ops| && !Gone(q.ops[a].stage) && !InPending(q.ops[a].stage)
    ensures q.ops[a].tag !in q.pending
  {
    hide OpOk, ThreadOk;
    if q.ops[a].tag in q.pending {
      OtherTag(q, a, q.pending[q.ops[a].tag]);
      assert false;
    }
  }

  lemma DeliverKeepsInv(q: Queue, t: nat, tag: nat, ok: bool)
    requires Inv(q) && Enabled(q, Deliver(t, tag, ok))
    ensures Inv(AfterDeliver(q, t, tag, ok))
  {
    var h := AfterDeliver(q, t, tag, ok);
    var a := q.pending[tag];
    OnlyActing(q, t, a);
    assert OpOk(q, a);
    assert Acts(q, h, t, a) by { hide SharedOk, Distinct; }
    assert ActsWell(h, t, a) by { hide Acts, Distinct; }
    ActingKeepsInv(q, h, t, a);
  }

  lemma FindKeepsInv(q: Queue, t: nat)
    requires Inv(q) && Enabled(q, Find(t))
    ensures Inv(AfterFind(q, t))
  {
    var h := AfterFind(q, t);
    assert ThreadOk(q, t);
    var a := q.pending[q.threads[t].tag];
    OnlyActing(q, t, a);
    assert OpOk(q, a);
    assert Acts(q, h, t, a) by { hide SharedOk, Distinct; }
    assert ActsWell(h, t, a) by { hide Acts, Distinct; }
    ActingKeepsInv(q, h, t, a);
  }

  lemma NotifyWell(q: Queue, t: nat)
    requires Inv(q) && Enabled(q, Notify(t))
    ensures ActsWell(AfterNotify(q, t), t, q.threads[t].op)
  {
    hide Distinct;
    var a := q.threads[t].op;
    assert ThreadOk(q, t) && OpOk(q, a);
  }

  lemma NotifyKeepsInv(q: Queue, t: nat)
    requires Inv(q) && Enabled(q, Notify(t))
    ensures Inv(AfterNotify(q, t))
  {
    var h, a := AfterNotify(q, t), q.threads[t].op;
    OnlyActing(q, t, a);
    assert ThreadOk(q, t) && OpOk(q, a);
    assert Acts(q, h, t, a) by { hide SharedOk, Distinct; }
    NotifyWell(q, t);
    hide ActsWell;
    ActingKeepsInv(q, h, t, a);
  }

  lemma ForgetWell(q: Queue, t: nat)
    requires Inv(q) && Enabled(q, Forget(t))
    ensures ActsWell(AfterForget(q, t), t, q.threads[t].op)
  {
    hide Distinct;
    var a := q.threads[t].op;
    assert ThreadOk(q, t) && OpOk(q, a);
  }

  lemma ForgetKeepsInv(q: Queue, t: nat)
    requires Inv(q) && Enabled(q, Forget(t))
    ensures Inv(AfterForget(q, t))
  {
    var h, a := AfterForget(q, t), q.threads[t].op;
    OnlyActing(q, t, a);
    assert ThreadOk(q, t) && OpOk(q, a);
    assert Acts(q, h, t, a) by { hide SharedOk, Distinct; }
    ForgetWell(q, t);
    hide ActsWell;
    ActingKeepsInv(q, h, t, a);
  }

  lemma EnterStartWell(q: Queue, t: nat)
    requires Inv(q) && Enabled(q, EnterStart(t))
    ensures ActsWell(AfterEnterStart(q, t), t, q.threads[t].op)
  {
    hide Distinct;
    var a := q.threads[t].op;
    assert ThreadOk(q, t) && OpOk(q, a);
    NotRegistered(q, a);
  }

  lemma EnterStartKeepsInv(q: Queue, t: nat)
    requires Inv(q) && Enabled(q, EnterStart(t))
    ensures Inv(AfterEnterStart(q, t))
  {
    var h, a := AfterEnterStart(q, t), q.threads[t].op;
    OnlyActing(q, t, a);
    assert ThreadOk(q, t) && OpOk(q, a);
    NotRegistered(q, a);
    assert Acts(q, h, t, a) by { hide SharedOk, Distinct; }
    EnterStartWell(q, t);
    hide ActsWell;
    ActingKeepsInv(q, h, t, a);
  }

  lemma PrepareKeepsInv(q: Queue, t: nat)
    requires Inv(q) && Enabled(q, Prepare(t))
    ensures Inv(AfterPrepare(q, t))
  {
    var h, a := AfterPrepare(q, t), q.threads[t].op;
    OnlyActing(q, t, a);
    assert ThreadOk(q, t) && OpOk(q, a);
    assert Acts(q, h, t, a) by { hide SharedOk, Distinct; }
    assert ActsWell(h, t, a) by { hide Acts, Distinct; }
    ActingKeepsInv(q, h, t, a);
  }

  lemma IssueWell(q: Queue, t: nat)
    requires Inv(q) && Enabled(q, Issue(t))
    ensures ActsWell(AfterIssue(q, t), t, q.threads[t].op)
  {
    hide Distinct;
    var a := q.threads[t].op;
    assert ThreadOk(q, t) && OpOk(q, a);
  }

  lemma IssueKeepsInv(q: Queue, t: nat)
    requires Inv(q) && Enabled(q, Issue(t))
    ensures Inv(AfterIssue(q, t))
  {
    var h, a := AfterIssue(q, t), q.threads[t].op;
    OnlyActing(q, t, a);
    assert ThreadOk(q, t) && OpOk(q, a);
    assert Acts(q, h, t, a) by { hide SharedOk, Distinct; }
    IssueWell(q, t);
    hide ActsWell;
    ActingKeepsInv(q, h, t, a);
  }

  lemma NotifyLateKeepsInv(q: Queue, t: nat)
    requires Inv(q) && Enabled(q, NotifyLate(t))
    ensures Inv(AfterNotifyLate(q, t))
  {
    var h, a := AfterNotifyLate(q, t), q.threads[t].op;
    OnlyActing(q, t, a);
    assert ThreadOk(q, t) && OpOk(q, a);
    NotRegistered(q, a);
    assert Acts(q, h, t, a) by { hide SharedOk, Distinct; }
    assert ActsWell(h, t, a) by { hide Acts, Distinct; }
    ActingKeepsInv(q, h, t, a);
  }

  // ---- Steps on no operation ----

  /** From q to h, thread t moves on, and touches no operation. */
  predicate Moves(q: Queue, h: Queue, t: nat) {
    && t < |q.threads| == |h.threads| && h.ops == q.ops && h.pending == q.pending && h.grpc == q.grpc
    && (forall s: nat :: s < |q.threads| && s != t ==> h.threads[s] == q.threads[s])
    && (forall o: nat :: o < |q.ops| ==> InCharge(q.ops[o].stage) != Some(t))
    && (q.shutdown ==> h.shutdown) && (q.cqShutdown ==> h.cqShutdown) && (h.cqShutdown ==> h.shutdown)
    && (h.shutdown != q.shutdown ==> q.lock == None)
    && (q.lock != h.lock ==> (q.lock == None || q.lock == Some(t)) && h.lock == None)
    && h.lock != Some(t) && h.issuedLate == q.issuedLate && !h.nullContext
  }

  lemma MovedThread(q: Queue, h: Queue, t: nat, s: nat)
    requires Inv(q) && Moves(q, h, t) && s < |q.threads| && s != t
    ensures ThreadOk(h, s)
  {
    hide OpOk, SharedOk, Distinct;
    assert ThreadOk(q, s);
  }

  lemma MovedOp(q: Queue, h: Queue, t: nat, o: nat)
    requires Inv(q) && Moves(q, h, t) && o < |q.ops|
    ensures OpOk(h, o)
  {
    hide ThreadOk, SharedOk, Distinct;
    assert OpOk(q, o);
  }

  lemma MovingKeepsInv(q: Queue, h: Queue, t: nat)
    requires Inv(q) && Moves(q, h, t) && ThreadOk(h, t)
    ensures Inv(h)
  {
    assert SharedOk(h) && Distinct(h) by { hide OpOk, ThreadOk; }
    hide OpOk, ThreadOk, SharedOk, Distinct;
    forall o: nat | o < |h.ops| { MovedOp(q, h, t, o); }
    forall s: nat | s < |h.threads| ensures ThreadOk(h, s) {
      if s != t { MovedThread(q, h, t, s); }
    }
  }

  predicate OnNoOperation(e: Event) {
    e.Drained? || e.LeaveStart? || e.Snapshot? || e.CancelOne? || e.SetFlag? || e.ShutdownGrpc?
  }

  lemma NotInCharge(q: Queue, e: Event)
    requires Inv(q) && Enabled(q, e) && OnNoOperation(e)
    ensures forall o: nat :: o < |q.ops| ==> InCharge(q.ops[o].stage) != Some(e.t)
  {
    hide Inv;
    forall o: nat | o < |q.ops| && InCharge(q.ops[o].stage) == Some(e.t) ensures false { ChargeIs(q, e.t, o); }
  }

  lemma CancelKeepsInv(q: Queue, e: Event)
    requires Inv(q) && Enabled(q, e) && (e.Snapshot? || e.CancelOne?)
    ensures Inv(Next(q, e))
  {
    hide OpOk, Distinct;
    NotInCharge(q, e);
    assert ThreadOk(q, e.t);
    if e.Snapshot? {
      forall o | o in q.pending.Values ensures o < |q.ops| && q.ops[o].context { LockFreeMeansStarted(q, o); }
    }
    MovingKeepsInv(q, Next(q, e), e.t);
  }

  lemma MoveKeepsInv(q: Queue, e: Event)
    requires Inv(q) && Enabled(q, e) && OnNoOperation(e)
    ensures Inv(Next(q, e))
  {
    hide OpOk, Distinct;
    if e.Snapshot? || e.CancelOne? {
      CancelKeepsInv(q, e);
    } else {
      NotInCharge(q, e);
      assert ThreadOk(q, e.t);
      MovingKeepsInv(q, Next(q, e), e.t);
    }
  }

  // ---- New threads and operations ----

  lemma NewThreadKeepsInv(q: Queue, pc: Pc)
    requires Inv(q) && Enabled(q, NewThread(pc))
    ensures Inv(Next(q, NewThread(pc)))
  {
    var h := Next(q, NewThread(pc));
    forall o: nat | o < |h.ops| ensures OpOk(h, o) { assert OpOk(q, o); }
    forall t: nat | t < |h.threads| ensures ThreadOk(h, t) { if t < |q.threads| { assert ThreadOk(q, t); } }
  }

  /** An address in use is not handed out again. */
  lemma NewTagIsFresh(q: Queue, tag: nat, what: nat)
    requires Inv(q) && Enabled(q, NewOperation(tag, what))
    ensures forall o: nat :: o < |q.ops| && !Gone(q.ops[o].stage) ==> q.ops[o].tag != tag
  {
    forall o: nat | o < |q.ops| && !Gone(q.ops[o].stage) ensures Alive(q, o) { AliveUnlessGone(q, o); }
  }

  lemma NewOperationKeepsInv(q: Queue, tag: nat, what: nat)
    requires Inv(q) && Enabled(q, NewOperation(tag, what))
    ensures Inv(AfterNewOperation(q, tag, what))
  {
    var h := AfterNewOperation(q, tag, what);
    NewTagIsFresh(q, tag, what);
    forall o: nat | o < |h.ops| ensures OpOk(h, o) { if o < |q.ops| { assert OpOk(q, o); } }
    forall t: nat | t < |h.threads| ensures ThreadOk(h, t) { if t < |q.threads| { assert ThreadOk(q, t); } }
  }

  lemma StepKeepsInv(q: Queue, e: Event)
    requires Inv(q) && Enabled(q, e)
    ensures Inv(Next(q, e))
  {
    hide Inv;
    match e
    case NewThread(pc) => NewThreadKeepsInv(q, pc);
    case NewOperation(tag, what) => NewOperationKeepsInv(q, tag, what);
    case Deliver(t, tag, ok) => DeliverKeepsInv(q, t, tag, ok);
    case Find(t) => FindKeepsInv(q, t);
    case Notify(t) => NotifyKeepsInv(q, t);
    case Forget(t) => ForgetKeepsInv(q, t);
    case EnterStart(t) => EnterStartKeepsInv(q, t);
    case Prepare(t) => PrepareKeepsInv(q, t);
    case Issue(t) => IssueKeepsInv(q, t);
    case NotifyLate(t) => NotifyLateKeepsInv(q, t);
    case _ => MoveKeepsInv(q, e);
  }

  lemma {:induction false} RunKeepsInv(qs: seq<Queue>, es: seq<Event>, k: nat)
    requires IsRun(qs, es) && k < |qs|
    ensures Inv(qs[k])
  {
    if k > 0 {
      RunKeepsInv(qs, es, k - 1);
      StepKeepsInv(qs[k - 1], es[k - 1]);
    }
  }

  // ---- Theorems ----

  /** In every interleaving: no "assertion failure" exception is thrown, no operation is notified twice, nothing
      is started on gRPC after cq_.Shutdown(), and CancelAll() never meets an operation without context. */
  lemma QueueIsSafe(qs: seq<Queue>, es: seq<Event>, k: nat)
    requires IsRun(qs, es) && k < |qs|
    ensures forall t: nat :: t < |qs[k].threads| ==> !qs[k].threads[t].Threw?
    ensures forall o: nat :: o < |qs[k].ops| ==> |qs[k].ops[o].notified| <= 1
    ensures !qs[k].issuedLate && !qs[k].nullContext
  {
    RunKeepsInv(qs, es, k);
    forall t: nat | t < |qs[k].threads| ensures !qs[k].threads[t].Threw? { assert ThreadOk(qs[k], t); }
    forall o: nat | o < |qs[k].ops| ensures |qs[k].ops[o].notified| <= 1 { assert OpOk(qs[k], o); }
  }

  predicate IsRunThread(pc: Pc) {
    pc.RunIdle? || pc.RunGot? || pc.RunFound? || pc.RunNotified? || pc.RunReturned?
  }

  predicate IsStarting(pc: Pc) {
    pc.StartNew? || pc.StartRegistered? || pc.StartPrepared? || pc.StartIssued? || pc.StartLate?
  }

  /** StartOperation() was called for the operation and has not returned. */
  predicate BeingStarted(q: Queue, o: nat) {
    exists t :: 0 <= t < |q.threads| && IsStarting(q.threads[t]) && RefersTo(q.threads[t], o)
  }

  /** Once Run() has returned in all threads, pending_ops_ is empty, and every operation whose StartOperation()
      has returned was notified exactly once. */
  lemma DrainedWhenRunReturns(qs: seq<Queue>, es: seq<Event>, k: nat, r: nat)
    requires IsRun(qs, es) && k < |qs| && r < |qs[k].threads| && qs[k].threads[r].RunReturned?
    requires forall t: nat :: t < |qs[k].threads| && IsRunThread(qs[k].threads[t]) ==> qs[k].threads[t].RunReturned?
    ensures qs[k].pending == map[]
    ensures forall o: nat :: o < |qs[k].ops| ==> |qs[k].ops[o].notified| == 1 || BeingStarted(qs[k], o)
  {
    RunKeepsInv(qs, es, k);
    var q := qs[k];
    assert ThreadOk(q, r);
    forall o: nat | o < |q.ops| ensures !InPending(q.ops[o].stage) {
      assert OpOk(q, o);
      assert q.ops[o].stage.Registered? ==> ThreadOk(q, q.ops[o].stage.t);
    }
    forall o: nat | o < |q.ops| && Waiting(q.ops[o].stage)
      ensures BeingStarted(q, o)
    {
      assert OpOk(q, o);
      assert RefersTo(q.threads[q.ops[o].stage.t], o);
    }
    forall o: nat | o < |q.ops| && !Waiting(q.ops[o].stage) ensures |q.ops[o].notified| == 1 { assert OpOk(q, o); }
    if tag :| tag in q.pending { assert false; }
  }

  /** After shutdown_ is set no operation enters pending_ops_, and it stays set. */
  lemma PendingShrinksAfterShutdown(q: Queue, e: Event)
    requires Inv(q) && Enabled(q, e) && q.shutdown
    ensures Next(q, e).shutdown && Next(q, e).pending.Keys <= q.pending.Keys
    ensures e.Forget? ==> |Next(q, e).pending| < |q.pending|
  {
    if OnOwnOperation(e) { Acting(q, e); }
    if e.Forget? {
      var o := q.threads[e.t].op;
      assert Next(q, e).pending.Keys == q.pending.Keys - {q.ops[o].tag};
    }
  }

  /** From the first Shutdown() on, over any stretch of a run. */
  lemma {:induction false} NothingRegisteredAfterShutdown(qs: seq<Queue>, es: seq<Event>, k: nat, m: nat)
    requires IsRun(qs, es) && k <= m < |qs| && qs[k].shutdown
    ensures qs[m].shutdown && qs[m].pending.Keys <= qs[k].pending.Keys
    decreases m
  {
    hide Inv, Next, Enabled;
    if k < m {
      NothingRegisteredAfterShutdown(qs, es, k, m - 1);
      RunKeepsInv(qs, es, m - 1);
      PendingShrinksAfterShutdown(qs[m - 1], es[m - 1]);
    }
  }

  // ---- Refinement of OperationQueue ----

  predicate Outstanding(s: Stage) {
    s.Queued? || s.Got? || s.Found?
  }

  function OutstandingOps(ops: seq<Op>): map<nat, nat> {
    map o: nat | o < |ops| && Outstanding(ops[o].stage) :: ops[o].what
  }

  function DoneOps(ops: seq<Op>): map<nat, bool> {
    map o: nat | o < |ops| && ops[o].notified != [] :: ops[o].notified[0]
  }

  /** What clients see. */
  function View(q: Queue): OperationQueue.Queue<nat> {
    OperationQueue.Queue(q.shutdown, OutstandingOps(q.ops), DoneOps(q.ops))
  }

  lemma UpdateOp(ops: seq<Op>, o: nat, op: Op)
    requires o < |ops|
    ensures OutstandingOps(ops[o := op]) ==
            if Outstanding(op.stage) then OutstandingOps(ops)[o := op.what] else OutstandingOps(ops) - {o}
    ensures DoneOps(ops[o := op]) ==
            if op.notified != [] then DoneOps(ops)[o := op.notified[0]] else DoneOps(ops) - {o}
  {
  }

  lemma NewOp(ops: seq<Op>, op: Op)
    requires !Outstanding(op.stage) && op.notified == []
    ensures OutstandingOps(ops + [op]) == OutstandingOps(ops) && DoneOps(ops + [op]) == DoneOps(ops)
  {
  }

  /** The client's view of a step. */
  function ViewStep(q: Queue, e: Event): OperationQueue.Step<nat>
    requires Enabled(q, e)
  {
    match e
    case Issue(t) => OperationQueue.Start(q.threads[t].op, q.ops[q.threads[t].op].what)
    case Notify(t) => OperationQueue.Complete(q.threads[t].op, q.threads[t].ok)
    case NotifyLate(t) => OperationQueue.Refuse(q.threads[t].op)
    case SetFlag(_) => OperationQueue.Shutdown
    case _ => OperationQueue.Stutter
  }

  lemma IssueStep(q: Queue, e: Event)
    requires Inv(q) && Enabled(q, e) && e.Issue?
    ensures OperationQueue.Allowed(View(q), ViewStep(q, e))
    ensures View(Next(q, e)) == OperationQueue.Apply(View(q), ViewStep(q, e))
  {
    Acting(q, e);
    var o := q.threads[e.t].op;
    UpdateOp(q.ops, o, Next(q, e).ops[o]);
    assert Next(q, e).ops == q.ops[o := Next(q, e).ops[o]];
  }

  lemma NotifyStep(q: Queue, e: Event)
    requires Inv(q) && Enabled(q, e) && e.Notify?
    ensures OperationQueue.Allowed(View(q), ViewStep(q, e))
    ensures View(Next(q, e)) == OperationQueue.Apply(View(q), ViewStep(q, e))
  {
    Acting(q, e);
    var o := q.threads[e.t].op;
    UpdateOp(q.ops, o, Next(q, e).ops[o]);
    assert Next(q, e).ops == q.ops[o := Next(q, e).ops[o]];
  }

  lemma LateStep(q: Queue, e: Event)
    requires Inv(q) && Enabled(q, e) && e.NotifyLate?
    ensures OperationQueue.Allowed(View(q), ViewStep(q, e))
    ensures View(Next(q, e)) == OperationQueue.Apply(View(q), ViewStep(q, e))
  {
    Acting(q, e);
    var o := q.threads[e.t].op;
    UpdateOp(q.ops, o, Next(q, e).ops[o]);
    assert Next(q, e).ops == q.ops[o := Next(q, e).ops[o]];
  }

  /** A change clients do not see. */
  lemma SameView(ops: seq<Op>, o: nat, op: Op)
    requires o < |ops| && op.what == ops[o].what && op.notified == ops[o].notified
    requires Outstanding(op.stage) == Outstanding(ops[o].stage)
    ensures OutstandingOps(ops[o := op]) == OutstandingOps(ops) && DoneOps(ops[o := op]) == DoneOps(ops)
  {
  }

  lemma ForgetUnseen(q: Queue, t: nat)
    requires Inv(q) && Enabled(q, Forget(t))
    ensures View(AfterForget(q, t)) == View(q)
  {
    Acting(q, Forget(t));
    var o := q.threads[t].op;
    assert OpOk(q, o);
    SameView(q.ops, o, q.ops[o].(stage := Forgotten));
  }

  lemma EnterStartUnseen(q: Queue, t: nat)
    requires Inv(q) && Enabled(q, EnterStart(t))
    ensures View(AfterEnterStart(q, t)) == View(q)
  {
    Acting(q, EnterStart(t));
    var o := q.threads[t].op;
    assert OpOk(q, o);
    SameView(q.ops, o, q.ops[o].(stage := if q.shutdown then Late(t) else Registered(t)));
  }

  lemma PrepareUnseen(q: Queue, t: nat)
    requires Inv(q) && Enabled(q, Prepare(t))
    ensures View(AfterPrepare(q, t)) == View(q)
  {
    Acting(q, Prepare(t));
    var o := q.threads[t].op;
    assert OpOk(q, o);
    SameView(q.ops, o, q.ops[o].(context := true));
  }

  lemma FindUnseen(q: Queue, t: nat)
    requires Inv(q) && Enabled(q, Find(t))
    ensures View(AfterFind(q, t)) == View(q)
  {
    assert ThreadOk(q, t);
    var o := q.pending[q.threads[t].tag];
    assert OpOk(q, o);
    SameView(q.ops, o, q.ops[o].(stage := Found(t)));
  }

  lemma DeliverUnseen(q: Queue, t: nat, tag: nat, ok: bool)
    requires Inv(q) && Enabled(q, Deliver(t, tag, ok))
    ensures View(AfterDeliver(q, t, tag, ok)) == View(q)
  {
    var o := q.pending[tag];
    assert OpOk(q, o);
    SameView(q.ops, o, q.ops[o].(stage := Got(t)));
  }

  /** Every step of the queue, in every interleaving, is a step of the queue that clients see. */
  lemma QueueRefinesOperationQueue(qs: seq<Queue>, es: seq<Event>, k: nat)
    requires IsRun(qs, es) && k < |es|
    ensures OperationQueue.Allowed(View(qs[k]), ViewStep(qs[k], es[k]))
    ensures View(qs[k + 1]) == OperationQueue.Apply(View(qs[k]), ViewStep(qs[k], es[k]))
  {
    RunKeepsInv(qs, es, k);
    var q, e := qs[k], es[k];
    match e
    case NewOperation(tag, what) => NewOp(q.ops, Op(tag, what, false, [], Created(|q.threads|)));
    case Deliver(t, tag, ok) => DeliverUnseen(q, t, tag, ok);
    case Find(t) => FindUnseen(q, t);
    case Forget(t) => ForgetUnseen(q, t);
    case EnterStart(t) => EnterStartUnseen(q, t);
    case Prepare(t) => PrepareUnseen(q, t);
    case NewThread(_) =>
    case Drained(_) =>
    case LeaveStart(_) =>
    case Snapshot(_) =>
    case CancelOne(_, _) =>
    case SetFlag(_) =>
    case ShutdownGrpc(_) =>
    case Issue(_) => IssueStep(q, e);
    case Notify(_) => NotifyStep(q, e);
    case NotifyLate(_) => LateStep(q, e);
  }
}
