/** What a client sees of a completion queue: operations it started, each of which completes once. */
module OperationQueue {

  /** outstanding: started on gRPC and not notified yet. done: how Notify() was called. */
  datatype Queue<K> = Queue(shutdown: bool, outstanding: map<nat, K>, done: map<nat, bool>)

  predicate Fresh<K>(q: Queue<K>, op: nat) {
    op !in q.outstanding && op !in q.done
  }

  /** StartOperation() before Shutdown(). */
  function Started<K>(q: Queue<K>, op: nat, what: K): Queue<K> {
    q.(outstanding := q.outstanding[op := what])
  }

  /** StartOperation() after Shutdown(): Notify(false) at once. */
  function Refused<K>(q: Queue<K>, op: nat): Queue<K> {
    q.(done := q.done[op := false])
  }

  /** Run() notifies an operation. */
  function Completed<K>(q: Queue<K>, op: nat, ok: bool): Queue<K> {
    q.(outstanding := q.outstanding - {op}, done := q.done[op := ok])
  }

  datatype Step<K> = Stutter | Start(op: nat, what: K) | Refuse(op: nat) | Complete(op: nat, ok: bool) | Shutdown

  predicate Allowed<K>(q: Queue<K>, s: Step<K>) {
    match s
    case Stutter => true
    case Start(op, _) => !q.shutdown && Fresh(q, op)
    case Refuse(op) => q.shutdown && Fresh(q, op)
    case Complete(op, _) => op in q.outstanding && op !in q.done
    case Shutdown => true
  }

  function Apply<K>(q: Queue<K>, s: Step<K>): Queue<K> {
    match s
    case Stutter => q
    case Start(op, what) => Started(q, op, what)
    case Refuse(op) => Refused(q, op)
    case Complete(op, ok) => Completed(q, op, ok)
    case Shutdown => q.(shutdown := true)
  }

  /** The steps lead from q to r, and each of them is allowed where it is taken. */
  ghost predicate Path<K>(q: Queue<K>, steps: seq<Step<K>>, r: Queue<K>)
    decreases |steps|
  {
    if steps == [] then r == q else Allowed(q, steps[0]) && Path(Apply(q, steps[0]), steps[1..], r)
  }

  lemma OneStep<K>(q: Queue<K>, s: Step<K>)
    requires Allowed(q, s)
    ensures Path(q, [s], Apply(q, s))
  {
    assert Path(Apply(q, s), [s][1..], Apply(q, s));
  }

  lemma {:induction false} PathJoin<K>(q: Queue<K>, s: seq<Step<K>>, r: Queue<K>, t: seq<Step<K>>, u: Queue<K>)
    requires Path(q, s, r) && Path(r, t, u)
    ensures Path(q, s + t, u)
    decreases |s|
  {
    if s == [] {
      assert s + t == t;
    } else {
      PathJoin(Apply(q, s[0]), s[1..], r, t, u);
      assert (s + t)[1..] == s[1..] + t;
    }
  }

  /** A client that numbers its operations: those up to `next` are used, and none is outstanding and done. */
  predicate Numbered<K>(q: Queue<K>, next: nat) {
    && (forall op :: op in q.outstanding ==> op < next && op !in q.done)
    && (forall op :: op in q.done ==> op < next)
  }

  lemma StartIsAllowed<K>(q: Queue<K>, next: nat, what: K)
    requires Numbered(q, next) && !q.shutdown
    ensures Path(q, [Start(next, what)], Started(q, next, what)) && Numbered(Started(q, next, what), next + 1)
  {
    OneStep(q, Start(next, what));
  }

  lemma RefuseIsAllowed<K>(q: Queue<K>, next: nat)
    requires Numbered(q, next) && q.shutdown
    ensures Path(q, [Refuse(next)], Refused(q, next)) && Numbered(Refused(q, next), next + 1)
  {
    OneStep(q, Refuse(next));
  }

  lemma CompleteIsAllowed<K>(q: Queue<K>, next: nat, op: nat, ok: bool)
    requires Numbered(q, next) && op in q.outstanding
    ensures Path(q, [Complete(op, ok)], Completed(q, op, ok)) && Numbered(Completed(q, op, ok), next)
  {
    OneStep(q, Complete(op, ok));
  }
}
