/** RetryAsyncUnaryRpc: attempts and backoff timers, as callbacks on a completion queue. */
module RetryLoop {
  import opened Basics
  import opened OperationQueue
  import opened Policies

  datatype Status = Status(code: int, message: string)

  /** StatusOr<Response>. */
  type Reply = Result<int, Status>

  const CANCELLED: int := 1

  /** AsyncUnaryRpcFuture::Notify(): what the future of an attempt receives. */
  function RpcReply(ok: bool, reply: Reply): Reply {
    if ok then reply else Err(Status(CANCELLED, "call cancelled"))
  }

  /** The arguments of Start() that do not change. */
  datatype Config = Config(location: string, idempotent: bool, policy: RetryPolicy, backoff: Backoff)

  /** Which status codes the retryable traits call permanent. */
  type Traits = int -> bool

  function DetailedStatus(c: Config, context: string, s: Status): Status {
    Status(s.code, c.location + context + ", last error=" + s.message)
  }

  /** The clock and the number drawn by the backoff policy, as a callback sees them. */
  datatype Luck = Luck(now: int, draw: nat)

  datatype Kind = RpcOp | TimerOp

  /** The outcome of one attempt. */
  datatype Turn = Turn(reply: Reply, luck: Luck)

  datatype Retry = Retry(
    queue: Queue<Kind>,
    next: nat,
    policy: RetryPolicy,
    backoff: Backoff,
    calls: nat,              // how often async_call ran
    waits: seq<nat>,         // the waits asked from the backoff policy, in milliseconds
    final: seq<Reply>,       // the set_value() calls on final_result_
    turns: seq<Turn>,        // attempts that completed
    timers: seq<bool>)       // timers that completed, and whether they expired

  // ---- The callbacks ----

  /** MakeUnaryRpc() in StartIteration(). */
  function StartIteration(P: Traits, c: Config, s: Retry, l: Luck): Retry
    requires Sound(s.backoff)
    decreases 3
  {
    var s1 := s.(next := s.next + 1);
    if s.queue.shutdown then OnCompletion(P, c, s1.(queue := Refused(s.queue, s.next)), RpcReply(false, Ok(0)), l)
    else s1.(queue := Started(s.queue, s.next, RpcOp), calls := s.calls + 1)
  }

  function OnCompletion(P: Traits, c: Config, s: Retry, reply: Reply, l: Luck): Retry
    requires Sound(s.backoff)
    decreases 2
  {
    var s1 := s.(turns := s.turns + [Turn(reply, l)]);
    if reply.Ok? then s1.(final := s.final + [reply])
    else if !c.idempotent then
      s1.(final := s.final + [Err(DetailedStatus(c, "non-idempotent operation failed", reply.error))])
    else
      var permanent := P(reply.error.code);
      var (policy, again) := Judge(s.policy, permanent, l.now);
      var s2 := s1.(policy := policy);
      if !again then
        var context := if permanent then "permanent failure" else "retry policy exhausted";
        s2.(final := s.final + [Err(DetailedStatus(c, context, reply.error))])
      else
        StartTimer(P, c, s2.(backoff := Advance(s.backoff), waits := s.waits + [Delay(s.backoff, l.draw)]), l)
  }

  /** MakeRelativeTimer(). */
  function StartTimer(P: Traits, c: Config, s: Retry, l: Luck): Retry
    requires Sound(s.backoff)
    decreases 1
  {
    var s1 := s.(next := s.next + 1);
    if s.queue.shutdown then TimerFailed(c, s1.(queue := Refused(s.queue, s.next)))
    else s1.(queue := Started(s.queue, s.next, TimerOp))
  }

  function TimerFailed(c: Config, s: Retry): Retry {
    s.(timers := s.timers + [false],
       final := s.final + [Err(DetailedStatus(c, "timer error", Status(CANCELLED, "timer canceled")))])
  }

  function OnTimer(P: Traits, c: Config, s: Retry, ok: bool, l: Luck): Retry
    requires Sound(s.backoff)
  {
    if ok then StartIteration(P, c, s.(timers := s.timers + [true]), l) else TimerFailed(c, s)
  }

  // ---- Runs ----

  datatype Event =
    | Begin(luck: Luck)
    | RpcDone(op: nat, ok: bool, reply: Reply, luck: Luck)
    | TimerDone(op: nat, ok: bool, luck: Luck)
    | ShutdownQueue

  function New(c: Config): Retry {
    Retry(Queue(false, map[], map[]), 0, c.policy, c.backoff, 0, [], [], [], [])
  }

  predicate Enabled(s: Retry, e: Event) {
    match e
    case Begin(_) => s.next == 0
    case RpcDone(op, _, _, _) => op in s.queue.outstanding && s.queue.outstanding[op].RpcOp?
    case TimerDone(op, _, _) => op in s.queue.outstanding && s.queue.outstanding[op].TimerOp?
    case ShutdownQueue => true
  }

  function Next(P: Traits, c: Config, s: Retry, e: Event): Retry
    requires Enabled(s, e) && Sound(s.backoff)
  {
    match e
    case Begin(l) => StartIteration(P, c, s, l)
    case RpcDone(op, ok, reply, l) =>
      OnCompletion(P, c, s.(queue := Completed(s.queue, op, ok)), RpcReply(ok, reply), l)
    case TimerDone(op, ok, l) => OnTimer(P, c, s.(queue := Completed(s.queue, op, ok)), ok, l)
    case ShutdownQueue => s.(queue := s.queue.(shutdown := true))
  }

  ghost predicate IsRun(P: Traits, c: Config, ss: seq<Retry>, es: seq<Event>) {
    && |ss| == |es| + 1 && ss[0] == New(c)
    && forall k :: 0 <= k < |es| ==>
         Enabled(ss[k], es[k]) && Sound(ss[k].backoff) && ss[k + 1] == Next(P, c, ss[k], es[k])
  }

  // ---- The sequential loop ----

  /** Where a sequential retry loop stands after some attempts and some waits. */
  datatype Progress =
    | NeedsAttempt(policy: RetryPolicy, backoff: Backoff, waits: seq<nat>)
    | NeedsTimer(policy: RetryPolicy, backoff: Backoff, waits: seq<nat>)
    | Returned(policy: RetryPolicy, backoff: Backoff, waits: seq<nat>, reply: Reply)

  /** A plain loop: attempt, give up or wait, and attempt again. */
  function Loop(P: Traits, c: Config, p: RetryPolicy, b: Backoff, turns: seq<Turn>, timers: seq<bool>): (r: Progress)
    requires Sound(b)
    ensures Sound(r.backoff)
    decreases |turns|
  {
    if turns == [] then NeedsAttempt(p, b, [])
    else
      var reply := turns[0].reply;
      if reply.Ok? then Returned(p, b, [], reply)
      else if !c.idempotent then
        Returned(p, b, [], Err(DetailedStatus(c, "non-idempotent operation failed", reply.error)))
      else if P(reply.error.code) then Returned(p, b, [], Err(DetailedStatus(c, "permanent failure", reply.error)))
      else
        var (p1, again) := Judge(p, false, turns[0].luck.now);
        if !again then Returned(p1, b, [], Err(DetailedStatus(c, "retry policy exhausted", reply.error)))
        else
          var wait := Delay(b, turns[0].luck.draw);
          var b1 := Advance(b);
          if timers == [] then NeedsTimer(p1, b1, [wait])
          else if !timers[0] then
            Returned(p1, b1, [wait], Err(DetailedStatus(c, "timer error", Status(CANCELLED, "timer canceled"))))
          else
            var rest := Loop(P, c, p1, b1, turns[1..], timers[1..]);
            rest.(waits := [wait] + rest.waits)
  }

  /** One attempt more. */
  function LoopAttempt(P: Traits, c: Config, r: Progress, t: Turn): Progress
    requires r.NeedsAttempt? && Sound(r.backoff)
  {
    var n := Loop(P, c, r.policy, r.backoff, [t], []);
    n.(waits := r.waits + n.waits)
  }

  /** One timer more. */
  function LoopTimer(c: Config, r: Progress, ok: bool): Progress
    requires r.NeedsTimer?
  {
    if ok then NeedsAttempt(r.policy, r.backoff, r.waits)
    else
      var reply := Err(DetailedStatus(c, "timer error", Status(CANCELLED, "timer canceled")));
      Returned(r.policy, r.backoff, r.waits, reply)
  }

  lemma {:induction false} LoopExtendsByAttempt(P: Traits, c: Config, p: RetryPolicy, b: Backoff,
                                                 turns: seq<Turn>, timers: seq<bool>, t: Turn)
    requires Sound(b) && Loop(P, c, p, b, turns, timers).NeedsAttempt? && |timers| == |turns|
    ensures Loop(P, c, p, b, turns + [t], timers) == LoopAttempt(P, c, Loop(P, c, p, b, turns, timers), t)
    decreases |turns|
  {
    if turns != [] {
      var (p1, again) := Judge(p, false, turns[0].luck.now);
      assert (turns + [t])[1..] == turns[1..] + [t];
      LoopExtendsByAttempt(P, c, p1, Advance(b), turns[1..], timers[1..], t);
    } else {
      assert turns + [t] == [t] && timers == [];
    }
  }

  lemma {:induction false} LoopExtendsByTimer(P: Traits, c: Config, p: RetryPolicy, b: Backoff,
                                               turns: seq<Turn>, timers: seq<bool>, ok: bool)
    requires Sound(b) && Loop(P, c, p, b, turns, timers).NeedsTimer? && |turns| == |timers| + 1
    ensures Loop(P, c, p, b, turns, timers + [ok]) == LoopTimer(c, Loop(P, c, p, b, turns, timers), ok)
    decreases |turns|
  {
    if timers != [] {
      var (p1, again) := Judge(p, false, turns[0].luck.now);
      assert (timers + [ok])[1..] == timers[1..] + [ok];
      LoopExtendsByTimer(P, c, p1, Advance(b), turns[1..], timers[1..], ok);
    } else {
      assert timers + [ok] == [ok] && turns[1..] == [];
    }
  }

  // ---- The invariant ----

  function Now(P: Traits, c: Config, s: Retry): Progress
    requires Sound(c.backoff)
  {
    Loop(P, c, c.policy, c.backoff, s.turns, s.timers)
  }

  /** The loop and the callbacks agree on policies and waits, and nothing is outstanding. */
  predicate Agrees(P: Traits, c: Config, s: Retry) {
    && Sound(c.backoff)
    && var v := Now(P, c, s);
       v.policy == s.policy && v.backoff == s.backoff && v.waits == s.waits
       && (v.NeedsAttempt? ==> |s.timers| == |s.turns|)
       && (v.NeedsTimer? ==> |s.turns| == |s.timers| + 1)
       && s.final == if v.Returned? then [v.reply] else []
  }

  predicate OneOutstanding(q: Queue<Kind>, k: Kind) {
    |q.outstanding| == 1 && forall op :: op in q.outstanding ==> q.outstanding[op] == k
  }

  predicate Inv(P: Traits, c: Config, s: Retry) {
    && Agrees(P, c, s) && Limits(c, s)
    && s.calls <= |s.waits| + 1
    && (s.next == 0 ==> s.turns == [] && s.calls == 0 && s.queue.outstanding == map[])
    && (s.next > 0 ==>
          match Now(P, c, s)
          case NeedsAttempt(_, _, _) => OneOutstanding(s.queue, RpcOp)
          case NeedsTimer(_, _, _) => OneOutstanding(s.queue, TimerOp) && s.calls <= |s.waits|
          case Returned(_, _, _, _) => s.queue.outstanding == map[])
  }

  function Sum(xs: seq<nat>): nat {
    if xs == [] then 0 else Sum(xs[..|xs| - 1]) + xs[|xs| - 1]
  }

  /** The bounds that the policies put on the waits. */
  predicate Limits(c: Config, s: Retry) {
    && s.backoff.maximum == c.backoff.maximum && s.backoff.scaling == c.backoff.scaling
    && (s.waits == [] ==> s.backoff == c.backoff)
    && (s.waits != [] ==> s.backoff.range <= c.backoff.maximum
                          && Sum(s.waits) * 1000 <= c.backoff.range + (|s.waits| - 1) * c.backoff.maximum)
    && (!c.idempotent ==> s.waits == [])
    && (c.policy.ErrorCount? ==> s.policy.ErrorCount? && s.policy.maximum == c.policy.maximum
                                 && c.policy.failures + |s.waits| <= s.policy.failures
                                 && (s.waits != [] ==> c.policy.failures + |s.waits| <= c.policy.maximum))
  }

  lemma WaitKeepsLimits(c: Config, s: Retry, policy: RetryPolicy, l: Luck)
    requires Sound(s.backoff) && Limits(c, s) && c.idempotent && (policy, true) == Judge(s.policy, false, l.now)
    ensures var waits := s.waits + [Delay(s.backoff, l.draw)];
            Limits(c, s.(policy := policy, backoff := Advance(s.backoff), waits := waits))
  {
    var wait := Delay(s.backoff, l.draw);
    var waits := s.waits + [wait];
    assert waits[..|s.waits|] == s.waits;
    assert wait * 1000 <= s.backoff.range;
    assert s.waits != [] ==>
             (|waits| - 1) * c.backoff.maximum == (|s.waits| - 1) * c.backoff.maximum + c.backoff.maximum;
  }

  predicate BetweenTimers(P: Traits, c: Config, s: Retry) {
    && Agrees(P, c, s) && Limits(c, s) && s.calls <= |s.waits| && s.next > 0
    && s.queue.outstanding == map[] && Now(P, c, s).NeedsTimer?
  }

  lemma FailedTimerKeepsInv(P: Traits, c: Config, s: Retry)
    requires BetweenTimers(P, c, s)
    ensures Inv(P, c, TimerFailed(c, s))
  {
    LoopExtendsByTimer(P, c, c.policy, c.backoff, s.turns, s.timers, false);
  }

  lemma TimerKeepsInv(P: Traits, c: Config, s: Retry, l: Luck)
    requires BetweenTimers(P, c, s)
    ensures Inv(P, c, StartTimer(P, c, s, l))
  {
    if s.queue.shutdown {
      FailedTimerKeepsInv(P, c, s.(next := s.next + 1, queue := Refused(s.queue, s.next)));
    } else {
      assert Started(s.queue, s.next, TimerOp).outstanding == map[s.next := TimerOp];
      assert |map[s.next := TimerOp]| == 1;
    }
  }

  /** The state after a reply that asks for another attempt. */
  function Waiting(s: Retry, reply: Reply, l: Luck): Retry
    requires Sound(s.backoff)
  {
    s.(turns := s.turns + [Turn(reply, l)], policy := Judge(s.policy, false, l.now).0,
       backoff := Advance(s.backoff), waits := s.waits + [Delay(s.backoff, l.draw)])
  }

  predicate AsksAgain(P: Traits, c: Config, s: Retry, reply: Reply, l: Luck) {
    reply.Err? && c.idempotent && !P(reply.error.code) && Judge(s.policy, false, l.now).1
  }

  lemma RetryKeepsInv(P: Traits, c: Config, s: Retry, reply: Reply, l: Luck)
    requires Agrees(P, c, s) && Limits(c, s) && s.calls <= |s.waits| + 1 && s.next > 0
    requires s.queue.outstanding == map[] && Now(P, c, s).NeedsAttempt? && AsksAgain(P, c, s, reply, l)
    ensures BetweenTimers(P, c, Waiting(s, reply, l))
  {
    LoopExtendsByAttempt(P, c, c.policy, c.backoff, s.turns, s.timers, Turn(reply, l));
    WaitKeepsLimits(c, s, Judge(s.policy, false, l.now).0, l);
  }

  lemma GivingUpKeepsInv(P: Traits, c: Config, s: Retry, reply: Reply, l: Luck)
    requires Agrees(P, c, s) && Limits(c, s) && s.calls <= |s.waits| + 1 && s.next > 0
    requires s.queue.outstanding == map[] && Now(P, c, s).NeedsAttempt? && !AsksAgain(P, c, s, reply, l)
    ensures Inv(P, c, OnCompletion(P, c, s, reply, l))
  {
    hide Sum, Limits;
    GivingUpKeepsLimits(P, c, s, reply, l);
    LoopExtendsByAttempt(P, c, c.policy, c.backoff, s.turns, s.timers, Turn(reply, l));
  }

  lemma GivingUpKeepsLimits(P: Traits, c: Config, s: Retry, reply: Reply, l: Luck)
    requires Sound(s.backoff) && Limits(c, s) && !AsksAgain(P, c, s, reply, l)
    ensures Limits(c, OnCompletion(P, c, s, reply, l))
  {
    hide Sum;
  }

  lemma ReplyKeepsInv(P: Traits, c: Config, s: Retry, reply: Reply, l: Luck)
    requires Agrees(P, c, s) && Limits(c, s) && s.calls <= |s.waits| + 1 && s.next > 0
    requires s.queue.outstanding == map[] && Now(P, c, s).NeedsAttempt?
    ensures Inv(P, c, OnCompletion(P, c, s, reply, l))
  {
    hide Inv, Limits;
    if AsksAgain(P, c, s, reply, l) {
      RetryKeepsInv(P, c, s, reply, l);
      TimerKeepsInv(P, c, Waiting(s, reply, l), l);
    } else {
      GivingUpKeepsInv(P, c, s, reply, l);
    }
  }

  lemma IterationKeepsInv(P: Traits, c: Config, s: Retry, l: Luck)
    requires Agrees(P, c, s) && Limits(c, s) && s.calls <= |s.waits|
    requires s.queue.outstanding == map[] && Now(P, c, s).NeedsAttempt?
    ensures Inv(P, c, StartIteration(P, c, s, l))
  {
    hide Loop, Sum;
    if s.queue.shutdown {
      ReplyKeepsInv(P, c, s.(next := s.next + 1, queue := Refused(s.queue, s.next)), RpcReply(false, Ok(0)), l);
    } else {
      assert Started(s.queue, s.next, RpcOp).outstanding == map[s.next := RpcOp];
      assert |map[s.next := RpcOp]| == 1;
    }
  }

  lemma CompletedEmpties(q: Queue<Kind>, op: nat, ok: bool)
    requires |q.outstanding| == 1 && op in q.outstanding
    ensures Completed(q, op, ok).outstanding == map[]
  {
    assert |q.outstanding.Keys - {op}| == 0;
    assert (q.outstanding - {op}).Keys == q.outstanding.Keys - {op};
  }

  lemma TimerDoneKeepsInv(P: Traits, c: Config, s: Retry, op: nat, ok: bool, l: Luck)
    requires Inv(P, c, s) && Enabled(s, TimerDone(op, ok, l)) && Completed(s.queue, op, ok).outstanding == map[]
    ensures Sound(s.backoff) && Inv(P, c, Next(P, c, s, TimerDone(op, ok, l)))
  {
    hide Sum;
    var s1 := s.(queue := Completed(s.queue, op, ok));
    if ok {
      LoopExtendsByTimer(P, c, c.policy, c.backoff, s.turns, s.timers, true);
      IterationKeepsInv(P, c, s1.(timers := s1.timers + [true]), l);
    } else {
      FailedTimerKeepsInv(P, c, s1);
    }
  }

  lemma StepKeepsInv(P: Traits, c: Config, s: Retry, e: Event)
    requires Inv(P, c, s) && Enabled(s, e)
    ensures Sound(s.backoff) && Inv(P, c, Next(P, c, s, e))
  {
    hide Sum;
    match e
    case Begin(l) => IterationKeepsInv(P, c, s, l);
    case RpcDone(op, ok, reply, l) =>
      CompletedEmpties(s.queue, op, ok);
      ReplyKeepsInv(P, c, s.(queue := Completed(s.queue, op, ok)), RpcReply(ok, reply), l);
    case TimerDone(op, ok, l) =>
      CompletedEmpties(s.queue, op, ok);
      TimerDoneKeepsInv(P, c, s, op, ok, l);
    case ShutdownQueue =>
  }

  lemma {:induction false} RunKeepsInv(P: Traits, c: Config, ss: seq<Retry>, es: seq<Event>, k: nat)
    requires Sound(c.backoff) && IsRun(P, c, ss, es) && k < |ss|
    ensures Inv(P, c, ss[k])
  {
    if k > 0 {
      RunKeepsInv(P, c, ss, es, k - 1);
      StepKeepsInv(P, c, ss[k - 1], es[k - 1]);
    }
  }

  // ---- What holds in every run ----

  /** The callbacks compute what the sequential loop computes on the same attempts and timers. final_result_ is
      set at most once, and as long as it is not set, exactly the operation that the loop needs is pending. */
  lemma CallbacksRefineLoop(P: Traits, c: Config, ss: seq<Retry>, es: seq<Event>, k: nat)
    requires Sound(c.backoff) && IsRun(P, c, ss, es) && k < |ss|
    ensures |ss[k].queue.outstanding| <= 1 && |ss[k].final| <= 1
    ensures var v := Loop(P, c, c.policy, c.backoff, ss[k].turns, ss[k].timers);
            v.waits == ss[k].waits
            && (v.Returned? <==> ss[k].final != []) && (v.Returned? ==> ss[k].final == [v.reply])
            && (ss[k].next > 0 ==> match v
                                   case NeedsAttempt(_, _, _) => OneOutstanding(ss[k].queue, RpcOp)
                                   case NeedsTimer(_, _, _) => OneOutstanding(ss[k].queue, TimerOp)
                                   case Returned(_, _, _, _) => ss[k].queue.outstanding == map[])
  {
    RunKeepsInv(P, c, ss, es, k);
  }

  /** A non-idempotent call is attempted once; a count policy allows max(0, maximum_failures) + 1 attempts. */
  lemma AttemptsBounded(P: Traits, c: Config, ss: seq<Retry>, es: seq<Event>, k: nat)
    requires Sound(c.backoff) && IsRun(P, c, ss, es) && k < |ss|
    ensures !c.idempotent ==> ss[k].calls <= 1
    ensures c.policy.ErrorCount? && c.policy.failures == 0 ==> ss[k].calls <= Max(0, c.policy.maximum) + 1
  {
    RunKeepsInv(P, c, ss, es, k);
  }

  /** With fresh policies and at most F failures, the waits of a whole run, in microseconds, stay below
      2 * initial_delay + (F - 1) * maximum_delay. With F <= 0 there are none. */
  lemma TotalWaitBounded(P: Traits, c: Config, ss: seq<Retry>, es: seq<Event>, k: nat, initial: nat, F: int)
    requires IsRun(P, c, ss, es) && k < |ss| && c.policy == ErrorCount(0, F)
    requires Sound(c.backoff) && c.backoff == InitialBackoff(initial, c.backoff.maximum, c.backoff.scaling)
    ensures F >= 1 ==> Sum(ss[k].waits) * 1000 <= 2 * initial + (F - 1) * c.backoff.maximum
    ensures F <= 0 ==> ss[k].waits == []
  {
    RunKeepsInv(P, c, ss, es, k);
    if ss[k].waits != [] { ProductMonotone(|ss[k].waits| - 1, F - 1, c.backoff.maximum); }
    if F >= 1 { ProductMonotone(0, F - 1, c.backoff.maximum); }
  }

  lemma ProductMonotone(x: int, y: int, m: nat)
    requires x <= y
    ensures x * m <= y * m
  {
    assert (y - x) * m >= 0;
  }

  /** After Shutdown(), every callback sets final_result_ in the same call, and async_call does not run again,
      whatever the retry policy says. */
  lemma ShutdownEndsLoop(P: Traits, c: Config, ss: seq<Retry>, es: seq<Event>, k: nat)
    requires Sound(c.backoff) && IsRun(P, c, ss, es) && k < |es| && ss[k].queue.shutdown && !es[k].ShutdownQueue?
    ensures |ss[k + 1].final| == 1 && ss[k + 1].calls == ss[k].calls && ss[k + 1].queue.outstanding == map[]
  {
    RunKeepsInv(P, c, ss, es, k);
    RunKeepsInv(P, c, ss, es, k + 1);
    match es[k]
    case Begin(l) => RefusedIterationEnds(P, c, ss[k], l);
    case RpcDone(op, ok, reply, l) =>
    case TimerDone(op, ok, l) =>
      if ok {
        var s1 := ss[k].(queue := Completed(ss[k].queue, op, ok), timers := ss[k].timers + [true]);
        RefusedIterationEnds(P, c, s1, l);
      }
  }

  lemma RefusedIterationEnds(P: Traits, c: Config, s: Retry, l: Luck)
    requires Sound(s.backoff) && s.queue.shutdown
    ensures StartIteration(P, c, s, l).final != [] && StartIteration(P, c, s, l).calls == s.calls
  {
  }

  // ---- What each event does ----

  /** The count of failures is what the policy was given and the retries since. */
  predicate PolicyOk(c: Config, s: Retry) {
    s.final == [] ==>
      match c.policy
      case ErrorCount(n, maximum) => s.policy == ErrorCount(n + |s.waits|, maximum)
      case TimeLimit(deadline) => s.policy == c.policy
  }

  lemma ReplyKeepsPolicy(P: Traits, c: Config, s: Retry, reply: Reply, l: Luck)
    requires Sound(s.backoff) && PolicyOk(c, s) && s.final == []
    ensures PolicyOk(c, OnCompletion(P, c, s, reply, l))
  {
  }

  lemma StepKeepsPolicy(P: Traits, c: Config, s: Retry, e: Event)
    requires Sound(s.backoff) && PolicyOk(c, s) && Enabled(s, e) && (s.final == [] || e.ShutdownQueue?)
    ensures PolicyOk(c, Next(P, c, s, e))
  {
    hide OnCompletion, PolicyOk;
    match e
    case Begin(l) =>
      SamePolicy(c, s, Refusing(s));
      ReplyKeepsPolicy(P, c, Refusing(s), RpcReply(false, Ok(0)), l);
      SamePolicy(c, s, s.(next := s.next + 1, queue := Started(s.queue, s.next, RpcOp), calls := s.calls + 1));
    case RpcDone(op, ok, reply, l) =>
      var s1 := s.(queue := Completed(s.queue, op, ok));
      SamePolicy(c, s, s1);
      ReplyKeepsPolicy(P, c, s1, RpcReply(ok, reply), l);
    case TimerDone(op, ok, l) =>
      var s1 := s.(queue := Completed(s.queue, op, ok), timers := s.timers + [true]);
      if ok {
        SamePolicy(c, s, Refusing(s1));
        ReplyKeepsPolicy(P, c, Refusing(s1), RpcReply(false, Ok(0)), l);
        SamePolicy(c, s, s1.(next := s1.next + 1, queue := Started(s1.queue, s1.next, RpcOp), calls := s1.calls + 1));
      } else {
        assert TimerFailed(c, s.(queue := Completed(s.queue, op, ok))).final != [];
        FinalPolicy(c, Next(P, c, s, e));
      }
    case ShutdownQueue => SamePolicy(c, s, Next(P, c, s, e));
  }

  lemma SamePolicy(c: Config, s: Retry, t: Retry)
    requires PolicyOk(c, s) && t.final == s.final && t.policy == s.policy && t.waits == s.waits
    ensures PolicyOk(c, t)
  {
  }

  lemma FinalPolicy(c: Config, s: Retry)
    requires s.final != []
    ensures PolicyOk(c, s)
  {
  }

  lemma {:induction false} RunKeepsPolicy(P: Traits, c: Config, ss: seq<Retry>, es: seq<Event>, k: nat)
    requires Sound(c.backoff) && IsRun(P, c, ss, es) && k < |ss|
    ensures PolicyOk(c, ss[k])
  {
    hide Next, PolicyOk;
    if k == 0 {
      FreshPolicy(c);
    } else {
      RunKeepsPolicy(P, c, ss, es, k - 1);
      if !es[k - 1].ShutdownQueue? { UnansweredYet(P, c, ss, es, k - 1); }
      StepKeepsPolicy(P, c, ss[k - 1], es[k - 1]);
    }
  }

  lemma FreshPolicy(c: Config)
    ensures PolicyOk(c, New(c))
  {
  }

  /** While a callback is still to come, final_result_ is not set. */
  lemma UnansweredYet(P: Traits, c: Config, ss: seq<Retry>, es: seq<Event>, k: nat)
    requires Sound(c.backoff) && IsRun(P, c, ss, es) && k < |es| && !es[k].ShutdownQueue?
    ensures ss[k].final == []
  {
    RunKeepsInv(P, c, ss, es, k);
  }

  /** The final result is an error with this code, that names the place, the reason and the last error. */
  predicate EndsWith(c: Config, s: Retry, code: int, reason: string, last: string) {
    s.final == [Err(Status(code, c.location + reason + ", last error=" + last))]
  }

  predicate Exhausted(c: Config, s: Retry, l: Luck) {
    match c.policy
    case ErrorCount(n, maximum) => n + |s.waits| >= maximum
    case TimeLimit(deadline) => l.now >= deadline
  }

  /** What comes of error e in state s: the first of these that applies. */
  predicate Handles(P: Traits, c: Config, s: Retry, e: Status, l: Luck, t: Retry) {
    if !c.idempotent then EndsWith(c, t, e.code, "non-idempotent operation failed", e.message)
    else if P(e.code) then EndsWith(c, t, e.code, "permanent failure", e.message)
    else if Exhausted(c, s, l) then EndsWith(c, t, e.code, "retry policy exhausted", e.message)
    else if s.queue.shutdown then EndsWith(c, t, 1, "timer error", "timer canceled")
    else Waits(s, t)
  }

  /** One timer, for a wait drawn from the range of s, and a range that grew. */
  predicate Waits(s: Retry, t: Retry) {
    && t.final == [] && t.queue.outstanding == map[s.next := TimerOp] && t.calls == s.calls
    && |t.waits| == |s.waits| + 1 && t.waits[..|s.waits|] == s.waits
    && s.backoff.range / 2 / 1000 <= t.waits[|s.waits|] <= s.backoff.range / 1000
    && ByFactor(s.backoff.range, t.backoff.range, s.backoff.scaling, s.backoff.maximum)
  }

  lemma ErrorIsHandled(P: Traits, c: Config, s: Retry, e: Status, l: Luck)
    requires Sound(s.backoff) && PolicyOk(c, s) && s.final == [] && s.queue.outstanding == map[]
    ensures Handles(P, c, s, e, l, OnCompletion(P, c, s, Err(e), l))
  {
    hide Advance, Delay, ByFactor;
    DelayIsDraw(s.backoff, l.draw);
    AdvanceIsByFactor(s.backoff);
    if AsksAgain(P, c, s, Err(e), l) && !s.queue.shutdown { RetryWaits(P, c, s, e, l); }
  }

  lemma RetryWaits(P: Traits, c: Config, s: Retry, e: Status, l: Luck)
    requires Sound(s.backoff) && s.final == [] && s.queue.outstanding == map[] && !s.queue.shutdown
    requires AsksAgain(P, c, s, Err(e), l)
    ensures Waits(s, OnCompletion(P, c, s, Err(e), l))
  {
    hide Advance, Delay, ByFactor;
    DelayIsDraw(s.backoff, l.draw);
    AdvanceIsByFactor(s.backoff);
  }

  /** A reply is recorded as it came, and a call that did not complete as cancelled. */
  lemma ReplyIsRecorded(P: Traits, c: Config, ss: seq<Retry>, es: seq<Event>, k: nat)
    requires Sound(c.backoff) && IsRun(P, c, ss, es) && k < |es| && es[k].RpcDone?
    ensures |ss[k + 1].turns| == |ss[k].turns| + 1 && ss[k].turns <= ss[k + 1].turns
    ensures var turn := ss[k + 1].turns[|ss[k].turns|];
            turn.luck == es[k].luck && turn.reply == if es[k].ok then es[k].reply else Err(Status(1, "call cancelled"))
  {
  }

  /** The value of an RPC that succeeded is the final result. */
  lemma SuccessIsFinal(P: Traits, c: Config, ss: seq<Retry>, es: seq<Event>, k: nat)
    requires Sound(c.backoff) && IsRun(P, c, ss, es) && k < |es| && es[k].RpcDone? && es[k].ok && es[k].reply.Ok?
    ensures ss[k + 1].final == [Ok(es[k].reply.value)] && ss[k + 1].queue.outstanding == map[]
  {
    UnansweredYet(P, c, ss, es, k);
    RunKeepsInv(P, c, ss, es, k + 1);
  }

  /** An RPC that failed, with its own error or because it was cancelled. */
  lemma FailureIsHandled(P: Traits, c: Config, ss: seq<Retry>, es: seq<Event>, k: nat, e: Status)
    requires Sound(c.backoff) && IsRun(P, c, ss, es) && k < |es| && es[k].RpcDone?
    requires if es[k].ok then es[k].reply == Err(e) else e == Status(1, "call cancelled")
    ensures Handles(P, c, ss[k], e, es[k].luck, ss[k + 1])
  {
    hide Handles, OnCompletion;
    UnansweredYet(P, c, ss, es, k);
    RunKeepsPolicy(P, c, ss, es, k);
    RpcWasAlone(P, c, ss, es, k);
    var s := ss[k].(queue := Completed(ss[k].queue, es[k].op, es[k].ok));
    SamePolicy(c, ss[k], s);
    ErrorIsHandled(P, c, s, e, es[k].luck);
    SameHandling(P, c, ss[k], s, e, es[k].luck, ss[k + 1]);
  }

  lemma RpcWasAlone(P: Traits, c: Config, ss: seq<Retry>, es: seq<Event>, k: nat)
    requires Sound(c.backoff) && IsRun(P, c, ss, es) && k < |es| && (es[k].RpcDone? || es[k].TimerDone?)
    ensures Completed(ss[k].queue, es[k].op, es[k].ok).outstanding == map[]
  {
    RunKeepsInv(P, c, ss, es, k);
    CompletedEmpties(ss[k].queue, es[k].op, es[k].ok);
  }

  lemma SameHandling(P: Traits, c: Config, s: Retry, r: Retry, e: Status, l: Luck, t: Retry)
    requires Handles(P, c, r, e, l, t) && r.waits == s.waits && r.backoff == s.backoff && r.calls == s.calls
    requires r.queue.shutdown == s.queue.shutdown && (r.next == s.next || s.queue.shutdown)
    ensures Handles(P, c, s, e, l, t)
  {
    hide ByFactor;
  }

  /** An attempt: async_call runs once, unless the queue refuses, which counts as a cancelled call. */
  predicate Attempts(P: Traits, c: Config, s: Retry, l: Luck, t: Retry) {
    if s.queue.shutdown then
      Handles(P, c, s, Status(1, "call cancelled"), l, t) && t.calls == s.calls
      && t.turns == s.turns + [Turn(Err(Status(1, "call cancelled")), l)]
    else
      && t.calls == s.calls + 1 && t.queue.outstanding == map[s.next := RpcOp]
      && t.final == s.final && t.turns == s.turns && t.waits == s.waits && t.backoff == s.backoff
  }

  lemma IterationAttempts(P: Traits, c: Config, s: Retry, l: Luck)
    requires Sound(s.backoff) && PolicyOk(c, s) && s.final == [] && s.queue.outstanding == map[]
    ensures Attempts(P, c, s, l, StartIteration(P, c, s, l))
  {
    if s.queue.shutdown {
      hide Handles;
      var e := Status(1, "call cancelled");
      SamePolicy(c, s, Refusing(s));
      ErrorIsHandled(P, c, Refusing(s), e, l);
      SameHandling(P, c, s, Refusing(s), e, l, StartIteration(P, c, s, l));
      RefusedIterationEnds(P, c, s, l);
    }
  }

  lemma BeginAttempts(P: Traits, c: Config, ss: seq<Retry>, es: seq<Event>, k: nat)
    requires Sound(c.backoff) && IsRun(P, c, ss, es) && k < |es| && es[k].Begin?
    ensures Attempts(P, c, ss[k], es[k].luck, ss[k + 1])
  {
    hide Attempts, StartIteration;
    UnansweredYet(P, c, ss, es, k);
    RunKeepsInv(P, c, ss, es, k);
    RunKeepsPolicy(P, c, ss, es, k);
    IterationAttempts(P, c, ss[k], es[k].luck);
  }

  /** A timer that expired leads to an attempt, one that was cancelled to a timer error. */
  lemma TimerIsHandled(P: Traits, c: Config, ss: seq<Retry>, es: seq<Event>, k: nat)
    requires Sound(c.backoff) && IsRun(P, c, ss, es) && k < |es| && es[k].TimerDone?
    ensures es[k].ok ==> Attempts(P, c, ss[k], es[k].luck, ss[k + 1])
    ensures !es[k].ok ==>
              EndsWith(c, ss[k + 1], 1, "timer error", "timer canceled") && ss[k + 1].calls == ss[k].calls
  {
    hide Attempts, StartIteration;
    UnansweredYet(P, c, ss, es, k);
    RunKeepsInv(P, c, ss, es, k);
    RunKeepsPolicy(P, c, ss, es, k);
    RpcWasAlone(P, c, ss, es, k);
    if es[k].ok {
      var s := ss[k].(queue := Completed(ss[k].queue, es[k].op, true), timers := ss[k].timers + [true]);
      SamePolicy(c, ss[k], s);
      IterationAttempts(P, c, s, es[k].luck);
      SameAttempt(P, c, ss[k], s, es[k].luck, ss[k + 1]);
    }
  }

  lemma SameAttempt(P: Traits, c: Config, s: Retry, r: Retry, l: Luck, t: Retry)
    requires Attempts(P, c, r, l, t) && r == s.(queue := r.queue, timers := r.timers)
    requires r.queue.shutdown == s.queue.shutdown
    ensures Attempts(P, c, s, l, t)
  {
    hide Handles;
    if s.queue.shutdown { SameHandling(P, c, s, r, Status(1, "call cancelled"), l, t); }
  }

  // ---- The queue under the loop ----

  /** What MakeRelativeTimer() does to the queue. */
  function TimerSteps(s: Retry): seq<Step<Kind>> {
    if s.queue.shutdown then [Refuse(s.next)] else [Start(s.next, TimerOp)]
  }

  function ReplySteps(P: Traits, c: Config, s: Retry, reply: Reply, l: Luck): seq<Step<Kind>> {
    if AsksAgain(P, c, s, reply, l) then TimerSteps(s) else []
  }

  /** What MakeUnaryRpc() does to the queue, together with the callback it runs after Shutdown(). */
  function IterationSteps(P: Traits, c: Config, s: Retry, l: Luck): seq<Step<Kind>> {
    if !s.queue.shutdown then [Start(s.next, RpcOp)]
    else [Refuse(s.next)] + ReplySteps(P, c, Refusing(s), RpcReply(false, Ok(0)), l)
  }

  /** The next operation is refused. */
  function Refusing(s: Retry): Retry {
    s.(next := s.next + 1, queue := Refused(s.queue, s.next))
  }

  function QueueSteps(P: Traits, c: Config, s: Retry, e: Event): seq<Step<Kind>>
    requires Enabled(s, e)
  {
    match e
    case Begin(l) => IterationSteps(P, c, s, l)
    case RpcDone(op, ok, reply, l) =>
      [Complete(op, ok)] + ReplySteps(P, c, s.(queue := Completed(s.queue, op, ok)), RpcReply(ok, reply), l)
    case TimerDone(op, ok, l) =>
      var s1 := s.(queue := Completed(s.queue, op, ok), timers := s.timers + [true]);
      [Complete(op, ok)] + if ok then IterationSteps(P, c, s1, l) else []
    case ShutdownQueue => [Shutdown]
  }

  lemma TimerIsAllowed(P: Traits, c: Config, s: Retry, l: Luck)
    requires Sound(s.backoff) && Numbered(s.queue, s.next)
    ensures var s1 := StartTimer(P, c, s, l);
            Path(s.queue, TimerSteps(s), s1.queue) && Numbered(s1.queue, s1.next)
  {
    if s.queue.shutdown { RefuseIsAllowed(s.queue, s.next); } else { StartIsAllowed(s.queue, s.next, TimerOp); }
  }

  lemma ReplyIsAllowed(P: Traits, c: Config, s: Retry, reply: Reply, l: Luck)
    requires Sound(s.backoff) && Numbered(s.queue, s.next)
    ensures var s1 := OnCompletion(P, c, s, reply, l);
            Path(s.queue, ReplySteps(P, c, s, reply, l), s1.queue) && Numbered(s1.queue, s1.next)
  {
    if AsksAgain(P, c, s, reply, l) { TimerIsAllowed(P, c, Waiting(s, reply, l), l); }
  }

  lemma IterationIsAllowed(P: Traits, c: Config, s: Retry, l: Luck)
    requires Sound(s.backoff) && Numbered(s.queue, s.next)
    ensures var s1 := StartIteration(P, c, s, l);
            Path(s.queue, IterationSteps(P, c, s, l), s1.queue) && Numbered(s1.queue, s1.next)
  {
    if s.queue.shutdown {
      var r, reply := Refusing(s), RpcReply(false, Ok(0));
      RefuseIsAllowed(s.queue, s.next);
      ReplyIsAllowed(P, c, r, reply, l);
      var steps := ReplySteps(P, c, r, reply, l);
      PathJoin(s.queue, [Refuse(s.next)], r.queue, steps, OnCompletion(P, c, r, reply, l).queue);
    } else {
      StartIsAllowed(s.queue, s.next, RpcOp);
    }
  }

  lemma StepIsAllowed(P: Traits, c: Config, s: Retry, e: Event)
    requires Sound(s.backoff) && Numbered(s.queue, s.next) && Enabled(s, e)
    ensures var s1 := Next(P, c, s, e);
            Path(s.queue, QueueSteps(P, c, s, e), s1.queue) && Numbered(s1.queue, s1.next)
  {
    match e
    case Begin(l) => IterationIsAllowed(P, c, s, l);
    case RpcDone(op, ok, reply, l) =>
      var s1 := s.(queue := Completed(s.queue, op, ok));
      CompleteIsAllowed(s.queue, s.next, op, ok);
      ReplyIsAllowed(P, c, s1, RpcReply(ok, reply), l);
      var steps := ReplySteps(P, c, s1, RpcReply(ok, reply), l);
      PathJoin(s.queue, [Complete(op, ok)], s1.queue, steps, Next(P, c, s, e).queue);
    case TimerDone(op, ok, l) =>
      var s1 := s.(queue := Completed(s.queue, op, ok), timers := s.timers + [true]);
      CompleteIsAllowed(s.queue, s.next, op, ok);
      if ok {
        IterationIsAllowed(P, c, s1, l);
        PathJoin(s.queue, [Complete(op, ok)], s1.queue, IterationSteps(P, c, s1, l), Next(P, c, s, e).queue);
      } else {
        var steps: seq<Step<Kind>> := [Complete(op, ok)];
        assert steps + [] == steps;
      }
    case ShutdownQueue => OneStep(s.queue, Shutdown);
  }

  lemma {:induction false} RunKeepsNumbered(P: Traits, c: Config, ss: seq<Retry>, es: seq<Event>, k: nat)
    requires IsRun(P, c, ss, es) && k < |ss|
    ensures Numbered(ss[k].queue, ss[k].next)
  {
    if k > 0 {
      RunKeepsNumbered(P, c, ss, es, k - 1);
      StepIsAllowed(P, c, ss[k - 1], es[k - 1]);
    }
  }

  /** Every step of the loop is a sequence of steps that the queue allows its clients. */
  lemma LoopUsesQueue(P: Traits, c: Config, ss: seq<Retry>, es: seq<Event>, k: nat)
    requires IsRun(P, c, ss, es) && k < |es|
    ensures Path(ss[k].queue, QueueSteps(P, c, ss[k], es[k]), ss[k + 1].queue)
  {
    RunKeepsNumbered(P, c, ss, es, k);
    StepIsAllowed(P, c, ss[k], es[k]);
  }

  // ---- The object ----

  class RetryAsyncUnaryRpc {
    const traits: Traits
    const config: Config
    var queue: Queue<Kind>
    var next: nat
    var policy: RetryPolicy
    var backoff: Backoff
    var calls: nat
    var waits: seq<nat>
    var final: seq<Reply>
    var turns: seq<Turn>
    var timers: seq<bool>

    function View(): Retry
      reads this
    {
      Retry(queue, next, policy, backoff, calls, waits, final, turns, timers)
    }

    ghost predicate Valid()
      reads this
    {
      Sound(backoff)
    }

    constructor (traits: Traits, config: Config)
      requires Sound(config.backoff)
      ensures Valid() && this.traits == traits && this.config == config && View() == New(config)
    {
      this.traits, this.config := traits, config;
      queue, next, policy, backoff := Queue(false, map[], map[]), 0, config.policy, config.backoff;
      calls, waits, final, turns, timers := 0, [], [], [], [];
    }

    method Iterate(l: Luck)
      requires Valid()
      modifies this
      ensures Valid() && View() == StartIteration(traits, config, old(View()), l)
      decreases 3
    {
      hide OnCompletion;
      var op := next;
      next := next + 1;
      if queue.shutdown {
        queue := queue.(done := queue.done[op := false]);
        HandleReply(Err(Status(CANCELLED, "call cancelled")), l);
        return;
      }
      queue := queue.(outstanding := queue.outstanding[op := RpcOp]);
      calls := calls + 1;
    }

    method HandleReply(reply: Reply, l: Luck)
      requires Valid()
      modifies this
      ensures Valid() && View() == OnCompletion(traits, config, old(View()), reply, l)
      decreases 2
    {
      turns := turns + [Turn(reply, l)];
      if reply.Ok? {
        final := final + [reply];
        return;
      }
      if !config.idempotent {
        final := final + [Err(DetailedStatus(config, "non-idempotent operation failed", reply.error))];
        return;
      }
      var permanent := traits(reply.error.code);
      var verdict := Judge(policy, permanent, l.now);
      policy := verdict.0;
      if !verdict.1 {
        var description := if permanent then "permanent failure" else "retry policy exhausted";
        final := final + [Err(DetailedStatus(config, description, reply.error))];
        return;
      }
      waits := waits + [Delay(backoff, l.draw)];
      backoff := Advance(backoff);
      var op := next;
      next := next + 1;
      if queue.shutdown {
        queue := queue.(done := queue.done[op := false]);
        HandleTimer(false, l);
        return;
      }
      queue := queue.(outstanding := queue.outstanding[op := TimerOp]);
    }

    method HandleTimer(ok: bool, l: Luck)
      requires Valid()
      modifies this
      ensures Valid() && View() == OnTimer(traits, config, old(View()), ok, l)
      decreases if ok then 4 else 1
    {
      timers := timers + [ok];
      if ok {
        Iterate(l);
      } else {
        final := final + [Err(DetailedStatus(config, "timer error", Status(CANCELLED, "timer canceled")))];
      }
    }
  }
}
