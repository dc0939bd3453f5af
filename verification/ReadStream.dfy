/** AsyncReadStreamImpl: an asynchronous streaming read RPC on a completion queue. */
module ReadStream {
  import opened Basics
  import opened OperationQueue

  datatype Kind = StartOp | ReadOp | DiscardOp | FinishOp

  /** The status given to on_finish: that of the RPC, or kCancelled when Finish() could not run. */
  datatype Status = RpcStatus(code: int) | Cancelled

  /** What happened to the stream, in order. */
  datatype Item =
    | Issue(kind: Kind)                               // StartOperation() called
    | Done(kind: Kind, ok: bool, response: int)   // Notify() called
    | CallOnRead(response: int)
    | Answer(proceed: bool)                           // the future returned by on_read is ready
    | TryCancel
    | CallOnFinish(status: Status)

  datatype Stream = Stream(
    queue: Queue<Kind>,
    next: nat,           // operations are numbered in the order they are created
    reader: bool,        // reader_ is not null
    fault: bool,         // a start function used a null reader_
    awaiting: nat,       // futures returned by on_read that are not ready
    trace: seq<Item>)

  function Note(s: Stream, x: Item): Stream {
    s.(trace := s.trace + [x])
  }

  function Rank(k: Kind, calling: bool, ok: bool): nat {
    if k.FinishOp? then (if calling then 2 else 1)
    else if calling then 4 else if ok then 5 else 3
  }

  /** StartOperation() runs the start function, which creates or uses reader_. */
  function Issued(s: Stream, k: Kind): Stream {
    Note(s.(next := s.next + 1,
            queue := Started(s.queue, s.next, k),
            reader := s.reader || k.StartOp?,
            fault := s.fault || (!k.StartOp? && !s.reader)), Issue(k))
  }

  /** cq_->StartOperation(): after Shutdown() the operation is notified at once. */
  function Begin(s: Stream, k: Kind): Stream
    decreases Rank(k, true, true)
  {
    if s.queue.shutdown then
      Notify(Note(s.(next := s.next + 1, queue := Refused(s.queue, s.next)), Issue(k)), k, false, 0, 0)
    else Issued(s, k)
  }

  /** OnStart(), OnRead(), OnDiscard() and OnFinish(). */
  function Notify(s: Stream, k: Kind, ok: bool, response: int, status: int): Stream
    decreases Rank(k, false, ok)
  {
    var s1 := Note(s, Done(k, ok, response));
    match k
    case StartOp => Begin(s1, if ok then ReadOp else FinishOp)
    case ReadOp => if ok then Note(s1.(awaiting := s.awaiting + 1), CallOnRead(response)) else Begin(s1, FinishOp)
    case DiscardOp => Begin(s1, if ok then DiscardOp else FinishOp)
    case FinishOp => Note(s1, CallOnFinish(if ok then RpcStatus(status) else Cancelled))
  }

  /** The continuation that OnRead() attaches to the future returned by on_read. */
  function Answered(s: Stream, proceed: bool): Stream
    requires s.awaiting > 0
  {
    var s1 := Note(s.(awaiting := s.awaiting - 1), Answer(proceed));
    if proceed then Begin(s1, ReadOp) else Begin(Note(s1, TryCancel), DiscardOp)
  }

  datatype Event =
    | Start
    | Completion(op: nat, ok: bool, response: int, status: int)
    | AnswerReady(proceed: bool)
    | ShutdownQueue

  const NEW: Stream := Stream(Queue(false, map[], map[]), 0, false, false, 0, [])

  predicate Enabled(s: Stream, e: Event) {
    match e
    case Start => s.trace == []
    case Completion(op, _, _, _) => op in s.queue.outstanding
    case AnswerReady(_) => s.awaiting > 0
    case ShutdownQueue => true
  }

  function Next(s: Stream, e: Event): Stream
    requires Enabled(s, e)
  {
    match e
    case Start => Begin(s, StartOp)
    case Completion(op, ok, response, status) =>
      Notify(s.(queue := Completed(s.queue, op, ok)), s.queue.outstanding[op], ok, response, status)
    case AnswerReady(proceed) => Answered(s, proceed)
    case ShutdownQueue => s.(queue := s.queue.(shutdown := true))
  }

  ghost predicate IsRun(ss: seq<Stream>, es: seq<Event>) {
    && |ss| == |es| + 1 && ss[0] == NEW
    && forall k :: 0 <= k < |es| ==> Enabled(ss[k], es[k]) && ss[k + 1] == Next(ss[k], es[k])
  }

  // ---- Histories ----

  /** The arguments of on_read. */
  function Reads(t: seq<Item>): seq<int> {
    if t == [] then [] else
    var x := t[|t| - 1];
    Reads(t[..|t| - 1]) + if x.CallOnRead? then [x.response] else []
  }

  /** The responses that gRPC delivered, whether they were read or discarded. */
  function Responses(t: seq<Item>): seq<int> {
    if t == [] then [] else
    var x := t[|t| - 1];
    Responses(t[..|t| - 1])
    + if x.Done? && x.ok && (x.kind.ReadOp? || x.kind.DiscardOp?) then [x.response] else []
  }

  /** The answers of the on_read handlers. */
  function Answers(t: seq<Item>): seq<bool> {
    if t == [] then [] else
    var x := t[|t| - 1];
    Answers(t[..|t| - 1]) + if x.Answer? then [x.proceed] else []
  }

  /** How many responses the handlers ask for: all, or up to the first false answer. */
  function Wanted(answers: seq<bool>, available: nat): nat {
    if answers == [] then available
    else if !answers[0] then 1
    else 1 + Wanted(answers[1..], if available > 0 then available - 1 else 0)
  }

  predicate Finished(t: seq<Item>) {
    t != [] && t[|t| - 1].CallOnFinish?
  }

  /** The last entry is a failed start, read or discard. */
  predicate Failed(t: seq<Item>) {
    t != [] && t[|t| - 1].Done? && !t[|t| - 1].ok && !t[|t| - 1].kind.FinishOp?
  }

  /** Nothing follows on_finish, and Finish() follows a failed start, read or discard. */
  predicate OrderOk(t: seq<Item>) {
    t == [] ||
    var u := t[..|t| - 1];
    OrderOk(u) && !Finished(u) && (t[|t| - 1] == Issue(FinishOp) ==> Failed(u))
  }

  function Bit(b: bool): nat { if b then 1 else 0 }

  /** The stream has one thing to wait for, or has finished. */
  predicate Inv(s: Stream) {
    && |s.queue.outstanding| + s.awaiting + Bit(Finished(s.trace)) + Bit(s.trace == []) == 1
    && Numbered(s.queue, s.next)
    && !s.fault && (s.trace != [] ==> s.reader || s.queue.shutdown)
    && OrderOk(s.trace)
    && HistoryOk(s)
  }

  predicate HistoryOk(s: Stream) {
    var seen, responses, answers := Reads(s.trace), Responses(s.trace), Answers(s.trace);
    && |answers| + s.awaiting == |seen| <= |responses|
    && seen == responses[..|seen|]
    && (forall k :: 0 <= k < |answers| - 1 ==> answers[k])
    && (Stopped(answers) || seen == responses)
    && (Stopped(answers) ==> s.awaiting == 0)
    && (forall op :: op in s.queue.outstanding ==> KindOk(s.queue.outstanding[op], answers))
  }

  /** Reads are discarded after a false answer, and only then. */
  predicate KindOk(k: Kind, answers: seq<bool>) {
    && (k.DiscardOp? ==> Stopped(answers))
    && (k.StartOp? || k.ReadOp? ==> !Stopped(answers))
  }

  /** The last handler answered false. */
  predicate Stopped(answers: seq<bool>) {
    answers != [] && !answers[|answers| - 1]
  }

  lemma Push(t: seq<Item>, x: Item)
    ensures Reads(t + [x]) == Reads(t) + if x.CallOnRead? then [x.response] else []
    ensures Responses(t + [x]) ==
            Responses(t) + if x.Done? && x.ok && (x.kind.ReadOp? || x.kind.DiscardOp?) then [x.response] else []
    ensures Answers(t + [x]) == Answers(t) + if x.Answer? then [x.proceed] else []
  {
    assert (t + [x])[..|t|] == t;
  }

  lemma PushOrder(t: seq<Item>, x: Item)
    requires OrderOk(t) && !Finished(t) && (x == Issue(FinishOp) ==> Failed(t))
    ensures OrderOk(t + [x])
  {
    assert (t + [x])[..|t|] == t;
  }

  // ---- Shutdown ----

  /** The entries of an operation that is refused, up to the end of the stream. */
  function Ending(k: Kind): seq<Item>
    decreases !k.FinishOp?
  {
    if k.FinishOp? then [Issue(FinishOp), Done(FinishOp, false, 0), CallOnFinish(Cancelled)]
    else [Issue(k), Done(k, false, 0)] + Ending(FinishOp)
  }

  /** After Shutdown(), the next operation the stream tries to issue ends it in the same call, and on_finish
      receives kCancelled. */
  lemma {:induction false} RefusedStreamEnds(s: Stream, k: Kind)
    requires s.queue.shutdown
    ensures Begin(s, k).trace == s.trace + Ending(k)
    ensures Begin(s, k).queue.outstanding == s.queue.outstanding && Begin(s, k).queue.shutdown
    ensures Begin(s, k).reader == s.reader && Begin(s, k).fault == s.fault && Begin(s, k).awaiting == s.awaiting
    ensures Begin(s, k).next > s.next
    ensures forall op :: op in Begin(s, k).queue.done ==> op in s.queue.done || op < Begin(s, k).next
    decreases !k.FinishOp?
  {
    var s1 := Note(s.(next := s.next + 1, queue := Refused(s.queue, s.next)), Issue(k));
    var s2 := Note(s1, Done(k, false, 0));
    assert Begin(s, k) == Notify(s1, k, false, 0, 0);
    if !k.FinishOp? {
      assert Notify(s1, k, false, 0, 0) == Begin(s2, FinishOp);
      RefusedStreamEnds(s2, FinishOp);
      assert s2.trace + Ending(FinishOp) == s.trace + Ending(k);
    } else {
      assert Note(s2, CallOnFinish(Cancelled)).trace == s.trace + Ending(k);
    }
  }

  // ---- The invariant ----

  /** s is ready to issue an operation of kind k. */
  predicate CanBegin(s: Stream, k: Kind) {
    && s.queue.outstanding == map[] && s.awaiting == 0 && !s.fault
    && Numbered(s.queue, s.next)
    && !Finished(s.trace) && OrderOk(s.trace) && HistoryOk(s)
    && (k.StartOp? <==> s.trace == [])
    && (s.trace != [] ==> s.reader || s.queue.shutdown)
    && (k.FinishOp? ==> Failed(s.trace))
    && (k.DiscardOp? ==> Stopped(Answers(s.trace)))
    && (k.StartOp? || k.ReadOp? ==> !Stopped(Answers(s.trace)))
  }

  lemma EndingKeepsInv(s: Stream, k: Kind)
    requires CanBegin(s, k) && s.queue.shutdown
    ensures Inv(Begin(s, k))
  {
    RefusedStreamEnds(s, k);
    EndingOrder(s.trace, k);
    EndingHistory(s.trace, k);
  }

  lemma {:induction false} EndingOrder(t: seq<Item>, k: Kind)
    requires OrderOk(t) && !Finished(t) && (k.FinishOp? ==> Failed(t))
    ensures OrderOk(t + Ending(k)) && Finished(t + Ending(k))
    decreases !k.FinishOp?
  {
    var t1 := t + [Issue(k)];
    var t2 := t1 + [Done(k, false, 0)];
    PushOrder(t, Issue(k));
    PushOrder(t1, Done(k, false, 0));
    if k.FinishOp? {
      PushOrder(t2, CallOnFinish(Cancelled));
      assert t2 + [CallOnFinish(Cancelled)] == t + Ending(k);
    } else {
      EndingOrder(t2, FinishOp);
      assert t2 + Ending(FinishOp) == t + Ending(k);
    }
  }

  lemma {:induction false} EndingHistory(t: seq<Item>, k: Kind)
    ensures Reads(t + Ending(k)) == Reads(t) && Responses(t + Ending(k)) == Responses(t)
    ensures Answers(t + Ending(k)) == Answers(t)
    decreases !k.FinishOp?
  {
    var t1 := t + [Issue(k)];
    var t2 := t1 + [Done(k, false, 0)];
    Push(t, Issue(k));
    Push(t1, Done(k, false, 0));
    if k.FinishOp? {
      Push(t2, CallOnFinish(Cancelled));
      assert t2 + [CallOnFinish(Cancelled)] == t + Ending(k);
    } else {
      EndingHistory(t2, FinishOp);
      assert t2 + Ending(FinishOp) == t + Ending(k);
    }
  }

  lemma IssuedHistory(s: Stream, k: Kind)
    requires CanBegin(s, k)
    ensures Issued(s, k).queue.outstanding == map[s.next := k] && HistoryOk(Issued(s, k))
  {
    Push(s.trace, Issue(k));
    assert Issued(s, k).queue.outstanding == map[s.next := k];
  }

  lemma IssuedKeepsInv(s: Stream, k: Kind)
    requires CanBegin(s, k) && !s.queue.shutdown
    ensures Inv(Issued(s, k))
  {
    IssuedHistory(s, k);
    PushOrder(s.trace, Issue(k));
    assert |map[s.next := k]| == 1;
  }

  lemma BeginKeepsInv(s: Stream, k: Kind)
    requires CanBegin(s, k)
    ensures Inv(Begin(s, k))
  {
    if s.queue.shutdown { EndingKeepsInv(s, k); } else { IssuedKeepsInv(s, k); }
  }

  /** The one outstanding operation. */
  lemma OnlyOne(m: map<nat, Kind>, op: nat)
    requires |m| == 1 && op in m
    ensures m - {op} == map[]
  {
    assert |m.Keys - {op}| == 0;
    assert (m - {op}).Keys == m.Keys - {op};
  }

  /** The kind of the operation that follows one of kind k. */
  function Following(k: Kind, ok: bool): Kind {
    if !ok then FinishOp else if k.StartOp? then ReadOp else DiscardOp
  }

  /** The state in which OnStart(), OnRead() and OnDiscard() issue the next operation. */
  function AfterDone(s: Stream, op: nat, ok: bool, response: int): Stream
    requires op in s.queue.outstanding
  {
    Note(s.(queue := Completed(s.queue, op, ok)), Done(s.queue.outstanding[op], ok, response))
  }

  lemma DoneOrder(s: Stream, op: nat, ok: bool, response: int)
    requires Inv(s) && op in s.queue.outstanding
    ensures var s1 := AfterDone(s, op, ok, response);
            s1.queue.outstanding == map[] && s1.awaiting == 0
            && !Finished(s1.trace) && OrderOk(s1.trace) && s.trace != []
  {
    assert |s.queue.outstanding| == 1 by { assert s.queue.outstanding.Keys != {}; }
    OnlyOne(s.queue.outstanding, op);
    PushOrder(s.trace, Done(s.queue.outstanding[op], ok, response));
  }

  lemma DoneHistory(s: Stream, op: nat, ok: bool, response: int)
    requires Inv(s) && op in s.queue.outstanding && s.awaiting == 0
    requires AfterDone(s, op, ok, response).queue.outstanding == map[]
    requires !ok || !s.queue.outstanding[op].ReadOp?
    ensures HistoryOk(AfterDone(s, op, ok, response))
    ensures Answers(AfterDone(s, op, ok, response).trace) == Answers(s.trace)
  {
    Push(s.trace, Done(s.queue.outstanding[op], ok, response));
  }

  lemma DoneCanBegin(s: Stream, op: nat, ok: bool, response: int)
    requires Inv(s) && op in s.queue.outstanding && !s.queue.outstanding[op].FinishOp?
    requires !ok || !s.queue.outstanding[op].ReadOp?
    ensures CanBegin(AfterDone(s, op, ok, response), Following(s.queue.outstanding[op], ok))
  {
    DoneOrder(s, op, ok, response);
    DoneHistory(s, op, ok, response);
  }

  /** A successful Read(): the handler is called. */
  lemma ReadKeepsInv(s: Stream, op: nat, response: int)
    requires Inv(s) && op in s.queue.outstanding && s.queue.outstanding[op].ReadOp?
    ensures var s1 := AfterDone(s, op, true, response);
            Inv(Note(s1.(awaiting := s1.awaiting + 1), CallOnRead(response)))
  {
    hide Reads, Responses, Answers, OrderOk;
    DoneOrder(s, op, true, response);
    var s1 := AfterDone(s, op, true, response);
    Push(s.trace, Done(ReadOp, true, response));
    Push(s1.trace, CallOnRead(response));
    PushOrder(s1.trace, CallOnRead(response));
  }

  lemma FinishHistory(s: Stream, op: nat, ok: bool, response: int, status: Status)
    requires Inv(s) && op in s.queue.outstanding && s.queue.outstanding[op].FinishOp?
    ensures HistoryOk(Note(AfterDone(s, op, ok, response), CallOnFinish(status)))
  {
    hide Reads, Responses, Answers, OrderOk;
    DoneOrder(s, op, ok, response);
    DoneHistory(s, op, ok, response);
    Push(AfterDone(s, op, ok, response).trace, CallOnFinish(status));
  }

  lemma FinishKeepsInv(s: Stream, op: nat, ok: bool, response: int, status: Status)
    requires Inv(s) && op in s.queue.outstanding && s.queue.outstanding[op].FinishOp?
    ensures Inv(Note(AfterDone(s, op, ok, response), CallOnFinish(status)))
  {
    hide HistoryOk, OrderOk;
    DoneOrder(s, op, ok, response);
    FinishHistory(s, op, ok, response, status);
    PushOrder(AfterDone(s, op, ok, response).trace, CallOnFinish(status));
  }

  lemma NotifyKeepsInv(s: Stream, op: nat, ok: bool, response: int, status: int)
    requires Inv(s) && op in s.queue.outstanding
    ensures Inv(Next(s, Completion(op, ok, response, status)))
  {
    var k := s.queue.outstanding[op];
    if k.FinishOp? {
      FinishKeepsInv(s, op, ok, response, if ok then RpcStatus(status) else Cancelled);
    } else if k.ReadOp? && ok {
      ReadKeepsInv(s, op, response);
    } else {
      DoneCanBegin(s, op, ok, response);
      BeginKeepsInv(AfterDone(s, op, ok, response), Following(k, ok));
    }
  }

  lemma AnswerHistory(s: Stream, proceed: bool)
    requires Inv(s) && s.awaiting > 0
    ensures s.queue.outstanding == map[] && s.awaiting == 1 && !Finished(s.trace) && s.trace != []
    ensures HistoryOk(Note(s.(awaiting := s.awaiting - 1), Answer(proceed)))
    ensures Answers(s.trace + [Answer(proceed)]) == Answers(s.trace) + [proceed]
  {
    hide Reads, Responses, Answers, OrderOk;
    assert s.queue.outstanding == map[] by { assert |s.queue.outstanding| == 0; }
    Push(s.trace, Answer(proceed));
  }

  lemma AnswerKeepsInv(s: Stream, proceed: bool)
    requires Inv(s) && s.awaiting > 0
    ensures Inv(Answered(s, proceed))
  {
    hide Reads, Responses, Answers, OrderOk;
    AnswerHistory(s, proceed);
    PushOrder(s.trace, Answer(proceed));
    var s1 := Note(s.(awaiting := s.awaiting - 1), Answer(proceed));
    if proceed {
      BeginKeepsInv(s1, ReadOp);
    } else {
      Push(s1.trace, TryCancel);
      PushOrder(s1.trace, TryCancel);
      BeginKeepsInv(Note(s1, TryCancel), DiscardOp);
    }
  }

  lemma StepKeepsInv(s: Stream, e: Event)
    requires Inv(s) && Enabled(s, e)
    ensures Inv(Next(s, e))
  {
    match e
    case Start =>
      assert s.queue.outstanding == map[] by { assert |s.queue.outstanding| == 0; }
      BeginKeepsInv(s, StartOp);
    case Completion(op, ok, response, status) => NotifyKeepsInv(s, op, ok, response, status);
    case AnswerReady(proceed) => AnswerKeepsInv(s, proceed);
    case ShutdownQueue =>
  }

  lemma {:induction false} RunKeepsInv(ss: seq<Stream>, es: seq<Event>, k: nat)
    requires IsRun(ss, es) && k < |ss|
    ensures Inv(ss[k])
  {
    if k > 0 {
      RunKeepsInv(ss, es, k - 1);
      StepKeepsInv(ss[k - 1], es[k - 1]);
    }
  }

  // ---- What holds in every run ----

  /** At most one gRPC operation is outstanding, and the stream is never stuck: it waits for that operation, or
      for the answer of a handler, until on_finish was called. No start function meets a null reader_. */
  lemma OneThingAtATime(ss: seq<Stream>, es: seq<Event>, k: nat)
    requires IsRun(ss, es) && k < |ss|
    ensures |ss[k].queue.outstanding| <= 1 && !ss[k].fault
    ensures ss[k].trace != [] ==> (|ss[k].queue.outstanding| + ss[k].awaiting == 1 <==> !Finished(ss[k].trace))
  {
    RunKeepsInv(ss, es, k);
  }

  /** on_read sees, in order, the responses up to and including the first whose handler answered false. */
  lemma OnReadSeesResponses(ss: seq<Stream>, es: seq<Event>, k: nat)
    requires IsRun(ss, es) && k < |ss|
    ensures var t := ss[k].trace;
            Wanted(Answers(t), |Responses(t)|) <= |Responses(t)|
            && Reads(t) == Responses(t)[..Wanted(Answers(t), |Responses(t)|)]
  {
    RunKeepsInv(ss, es, k);
    var t := ss[k].trace;
    WantedIs(Answers(t), |Responses(t)|);
  }

  lemma {:induction false} WantedIs(answers: seq<bool>, available: nat)
    requires |answers| <= available && forall k :: 0 <= k < |answers| - 1 ==> answers[k]
    ensures Wanted(answers, available) == if Stopped(answers) then |answers| else available
  {
    if answers != [] && answers[0] { WantedIs(answers[1..], available - 1); }
  }

  /** on_finish runs at most once and is the last thing that happens; Finish() is only issued right after a
      start, read or discard that failed. */
  lemma OnFinishIsLast(ss: seq<Stream>, es: seq<Event>, k: nat, p: nat)
    requires IsRun(ss, es) && k < |ss| && p < |ss[k].trace|
    ensures ss[k].trace[p].CallOnFinish? ==> p == |ss[k].trace| - 1
    ensures ss[k].trace[p] == Issue(FinishOp) ==> Failed(ss[k].trace[..p])
  {
    RunKeepsInv(ss, es, k);
    OrderAt(ss[k].trace, p);
  }

  lemma {:induction false} OrderAt(t: seq<Item>, p: nat)
    requires OrderOk(t) && p < |t|
    ensures t[p].CallOnFinish? ==> p == |t| - 1
    ensures t[p] == Issue(FinishOp) ==> Failed(t[..p])
    decreases |t|
  {
    var u := t[..|t| - 1];
    if p < |u| {
      OrderAt(u, p);
      assert u[p] == t[p] && u[..p] == t[..p];
    }
  }

  /** After Shutdown() every callback ends the stream in the same call, but for a response that is handed to
      on_read: then the answer of the handler ends it. on_finish gets kCancelled, unless Finish() had been
      issued before. */
  lemma ShutdownEndsStream(ss: seq<Stream>, es: seq<Event>, k: nat)
    requires IsRun(ss, es) && k < |es| && ss[k].queue.shutdown && !es[k].ShutdownQueue?
    ensures var e := es[k];
            var t := ss[k + 1].trace;
            if e.Completion? && ss[k].queue.outstanding[e.op].ReadOp? && e.ok then
              t == ss[k].trace + [Done(ReadOp, true, e.response), CallOnRead(e.response)]
            else
              Finished(t) && (!(e.Completion? && ss[k].queue.outstanding[e.op].FinishOp?) ==>
                                t[|t| - 1] == CallOnFinish(Cancelled))
  {
    hide Begin, Notify, Following, AfterDone;
    var s, e := ss[k], es[k];
    match e
    case Start => RefusedStreamEnds(s, StartOp);
    case Completion(op, ok, response, status) => ShutdownEndsCompletion(s, op, ok, response, status);
    case AnswerReady(proceed) =>
      var s1 := Note(s.(awaiting := s.awaiting - 1), Answer(proceed));
      RefusedStreamEnds(if proceed then s1 else Note(s1, TryCancel), if proceed then ReadOp else DiscardOp);
  }

  lemma ShutdownEndsCompletion(s: Stream, op: nat, ok: bool, response: int, status: int)
    requires s.queue.shutdown && op in s.queue.outstanding
    ensures var kind := s.queue.outstanding[op];
            var t := Next(s, Completion(op, ok, response, status)).trace;
            if kind.ReadOp? && ok then t == s.trace + [Done(ReadOp, true, response), CallOnRead(response)]
            else Finished(t) && (!kind.FinishOp? ==> t[|t| - 1] == CallOnFinish(Cancelled))
  {
    var kind := s.queue.outstanding[op];
    if !kind.FinishOp? && !(kind.ReadOp? && ok) {
      RefusedStreamEnds(AfterDone(s, op, ok, response), Following(kind, ok));
    }
  }

  // ---- What each event does ----

  /** Before Shutdown(): each event adds these entries, and leaves this operation to wait for. */
  lemma StepBeforeShutdown(ss: seq<Stream>, es: seq<Event>, k: nat)
    requires IsRun(ss, es) && k < |es| && !ss[k].queue.shutdown
    ensures var (s, t) := (ss[k], ss[k + 1]);
            match es[k]
            case Start => t.trace == s.trace + [Issue(StartOp)] && OutstandingIs(t, s.next, StartOp)
            case AnswerReady(true) =>
              t.trace == s.trace + [Answer(true), Issue(ReadOp)] && OutstandingIs(t, s.next, ReadOp)
            case AnswerReady(false) =>
              t.trace == s.trace + [Answer(false), TryCancel, Issue(DiscardOp)] && OutstandingIs(t, s.next, DiscardOp)
            case ShutdownQueue => t.trace == s.trace && t.queue.shutdown
            case Completion(_, _, _, _) => true
  {
    RunKeepsInv(ss, es, k);
    OneAwaited(ss[k]);
  }

  /** The queue holds exactly this operation. */
  predicate OutstandingIs(s: Stream, op: nat, k: Kind) {
    s.queue.outstanding == map[op := k]
  }

  lemma OneAwaited(s: Stream)
    requires Inv(s)
    ensures s.trace == [] || s.awaiting > 0 ==> s.queue.outstanding == map[]
  {
    if s.trace == [] || s.awaiting > 0 { assert |s.queue.outstanding| == 0; }
  }

  /** A completion before Shutdown(): reads go on until one fails, discards too, and Finish() comes last. */
  lemma CompletionBeforeShutdown(ss: seq<Stream>, es: seq<Event>, k: nat)
    requires IsRun(ss, es) && k < |es| && !ss[k].queue.shutdown && es[k].Completion?
    ensures var (s, t, e) := (ss[k], ss[k + 1], es[k]);
            match s.queue.outstanding[e.op]
            case StartOp =>
              if e.ok then
                t.trace == s.trace + [Done(StartOp, true, e.response), Issue(ReadOp)]
                && OutstandingIs(t, s.next, ReadOp)
              else
                t.trace == s.trace + [Done(StartOp, false, e.response), Issue(FinishOp)]
                && OutstandingIs(t, s.next, FinishOp)
            case ReadOp =>
              if e.ok then
                t.trace == s.trace + [Done(ReadOp, true, e.response), CallOnRead(e.response)]
                && t.awaiting == s.awaiting + 1 && t.queue.outstanding == map[]
              else
                t.trace == s.trace + [Done(ReadOp, false, e.response), Issue(FinishOp)]
                && OutstandingIs(t, s.next, FinishOp)
            case DiscardOp =>
              if e.ok then
                t.trace == s.trace + [Done(DiscardOp, true, e.response), Issue(DiscardOp)]
                && OutstandingIs(t, s.next, DiscardOp)
              else
                t.trace == s.trace + [Done(DiscardOp, false, e.response), Issue(FinishOp)]
                && OutstandingIs(t, s.next, FinishOp)
            case FinishOp => t.queue.outstanding == map[]
  {
    RunKeepsInv(ss, es, k);
    DoneOrder(ss[k], es[k].op, es[k].ok, es[k].response);
    hide Inv;
  }

  /** on_finish receives the status of the RPC when Finish() succeeded, and kCancelled when it could not run. */
  lemma FinishReportsStatus(ss: seq<Stream>, es: seq<Event>, k: nat)
    requires IsRun(ss, es) && k < |es| && es[k].Completion? && ss[k].queue.outstanding[es[k].op].FinishOp?
    ensures var e := es[k];
            ss[k + 1].trace == ss[k].trace + [Done(FinishOp, e.ok, e.response),
                                              CallOnFinish(if e.ok then RpcStatus(e.status) else Cancelled)]
  {
  }

  /** The entries of a failed Finish() that could not be issued. */
  lemma RefusedEntries(s: Stream, k: Kind)
    requires s.queue.shutdown
    ensures Begin(s, FinishOp).trace == s.trace + [Issue(FinishOp), Done(FinishOp, false, 0), CallOnFinish(Cancelled)]
    ensures !k.FinishOp? ==>
              Begin(s, k).trace == s.trace + [Issue(k), Done(k, false, 0), Issue(FinishOp), Done(FinishOp, false, 0),
                                              CallOnFinish(Cancelled)]
  {
    RefusedStreamEnds(s, FinishOp);
    RefusedStreamEnds(s, k);
  }

  /** After Shutdown(), each event that issues an operation adds the entries of its refusal, up to on_finish. */
  lemma StepAfterShutdown(ss: seq<Stream>, es: seq<Event>, k: nat)
    requires IsRun(ss, es) && k < |es| && ss[k].queue.shutdown
    ensures var (s, t, e) := (ss[k], ss[k + 1], es[k]);
            var last := [Issue(FinishOp), Done(FinishOp, false, 0), CallOnFinish(Cancelled)];
            match e
            case Start => t.trace == s.trace + ([Issue(StartOp), Done(StartOp, false, 0)] + last)
            case AnswerReady(true) =>
              t.trace == s.trace + ([Answer(true), Issue(ReadOp), Done(ReadOp, false, 0)] + last)
            case AnswerReady(false) =>
              t.trace == s.trace + ([Answer(false), TryCancel, Issue(DiscardOp), Done(DiscardOp, false, 0)] + last)
            case ShutdownQueue => t.trace == s.trace
            case Completion(_, _, _, _) => true
  {
    hide Begin, Notify;
    var s := ss[k];
    match es[k]
    case Start => RefusedEntries(s, StartOp);
    case AnswerReady(proceed) =>
      var s1 := Note(s.(awaiting := s.awaiting - 1), Answer(proceed));
      RefusedEntries(s1, ReadOp);
      RefusedEntries(Note(s1, TryCancel), DiscardOp);
    case _ =>
  }

  /** A failed start, read or discard after Shutdown(): Finish() is refused. */
  lemma FailureAfterShutdown(ss: seq<Stream>, es: seq<Event>, k: nat)
    requires IsRun(ss, es) && k < |es| && ss[k].queue.shutdown && es[k].Completion? && !es[k].ok
    requires !ss[k].queue.outstanding[es[k].op].FinishOp?
    ensures ss[k + 1].trace == ss[k].trace
              + ([Done(ss[k].queue.outstanding[es[k].op], false, es[k].response), Issue(FinishOp),
                  Done(FinishOp, false, 0), CallOnFinish(Cancelled)])
  {
    RefusedEntries(AfterDone(ss[k], es[k].op, false, es[k].response), FinishOp);
    hide Begin;
  }

  /** A start or discard that succeeded after Shutdown(): the operation that follows is refused, and Finish() too. */
  lemma SuccessAfterShutdown(ss: seq<Stream>, es: seq<Event>, k: nat)
    requires IsRun(ss, es) && k < |es| && ss[k].queue.shutdown && es[k].Completion? && es[k].ok
    requires ss[k].queue.outstanding[es[k].op].StartOp? || ss[k].queue.outstanding[es[k].op].DiscardOp?
    ensures var kind := ss[k].queue.outstanding[es[k].op];
            var next := if kind.StartOp? then ReadOp else DiscardOp;
            ss[k + 1].trace == ss[k].trace
              + ([Done(kind, true, es[k].response), Issue(next), Done(next, false, 0), Issue(FinishOp),
                  Done(FinishOp, false, 0), CallOnFinish(Cancelled)])
  {
    var kind := ss[k].queue.outstanding[es[k].op];
    RefusedEntries(AfterDone(ss[k], es[k].op, true, es[k].response), if kind.StartOp? then ReadOp else DiscardOp);
    hide Begin;
  }

  // ---- The queue under the stream ----

  /** What StartOperation() does to the queue, together with the callbacks it runs after Shutdown(). */
  function BeginSteps(s: Stream, k: Kind): seq<Step<Kind>> {
    if !s.queue.shutdown then [OperationQueue.Start(s.next, k)]
    else if k.FinishOp? then [Refuse(s.next)]
    else [Refuse(s.next)] + [Refuse(s.next + 1)]
  }

  function QueueSteps(s: Stream, e: Event): seq<Step<Kind>>
    requires Enabled(s, e)
  {
    match e
    case Start => BeginSteps(s, StartOp)
    case Completion(op, ok, response, status) =>
      var k := s.queue.outstanding[op];
      [Complete(op, ok)] + (if k.FinishOp? || (k.ReadOp? && ok) then []
                            else BeginSteps(AfterDone(s, op, ok, response), Following(k, ok)))
    case AnswerReady(proceed) => BeginSteps(s, if proceed then ReadOp else DiscardOp)
    case ShutdownQueue => [Shutdown]
  }

  lemma BeginIsAllowed(s: Stream, k: Kind)
    requires Numbered(s.queue, s.next)
    ensures Path(s.queue, BeginSteps(s, k), Begin(s, k).queue)
  {
    if !s.queue.shutdown {
      StartIsAllowed(s.queue, s.next, k);
    } else {
      var q := Refused(s.queue, s.next);
      RefuseIsAllowed(s.queue, s.next);
      RefusedQueue(s, k);
      if !k.FinishOp? {
        RefuseIsAllowed(q, s.next + 1);
        PathJoin(s.queue, [Refuse(s.next)], q, [Refuse(s.next + 1)], Refused(q, s.next + 1));
      }
    }
  }

  lemma {:induction false} RefusedQueue(s: Stream, k: Kind)
    requires s.queue.shutdown
    ensures var q := Refused(s.queue, s.next);
            Begin(s, k).queue == if k.FinishOp? then q else Refused(q, s.next + 1)
    decreases !k.FinishOp?
  {
    var s1 := Note(s.(next := s.next + 1, queue := Refused(s.queue, s.next)), Issue(k));
    assert Begin(s, k) == Notify(s1, k, false, 0, 0);
    if !k.FinishOp? {
      var s2 := Note(s1, Done(k, false, 0));
      assert Notify(s1, k, false, 0, 0) == Begin(s2, FinishOp);
      RefusedQueue(s2, FinishOp);
    }
  }

  lemma CompletionIsAllowed(s: Stream, op: nat, ok: bool, response: int, status: int)
    requires Numbered(s.queue, s.next) && op in s.queue.outstanding
    ensures var e := Completion(op, ok, response, status);
            Path(s.queue, QueueSteps(s, e), Next(s, e).queue)
  {
    var k := s.queue.outstanding[op];
    var q := Completed(s.queue, op, ok);
    CompleteIsAllowed(s.queue, s.next, op, ok);
    if k.FinishOp? || (k.ReadOp? && ok) {
      var steps: seq<Step<Kind>> := [Complete(op, ok)];
      assert steps + [] == steps;
    } else {
      var s1 := AfterDone(s, op, ok, response);
      BeginIsAllowed(s1, Following(k, ok));
      PathJoin(s.queue, [Complete(op, ok)], q, BeginSteps(s1, Following(k, ok)), Begin(s1, Following(k, ok)).queue);
    }
  }

  lemma AnswerIsAllowed(s: Stream, proceed: bool)
    requires Numbered(s.queue, s.next) && s.awaiting > 0
    ensures Path(s.queue, QueueSteps(s, AnswerReady(proceed)), Answered(s, proceed).queue)
  {
    hide Begin, Path;
    var s1 := Note(s.(awaiting := s.awaiting - 1), Answer(proceed));
    if proceed { BeginIsAllowed(s1, ReadOp); } else { BeginIsAllowed(Note(s1, TryCancel), DiscardOp); }
  }

  /** Every step of the stream is a sequence of steps that the queue allows its clients. */
  lemma StreamUsesQueue(ss: seq<Stream>, es: seq<Event>, k: nat)
    requires IsRun(ss, es) && k < |es|
    ensures Path(ss[k].queue, QueueSteps(ss[k], es[k]), ss[k + 1].queue)
  {
    RunKeepsInv(ss, es, k);
    hide Begin, Notify, Answered;
    var s := ss[k];
    match es[k]
    case Start => BeginIsAllowed(s, StartOp);
    case Completion(op, ok, response, status) => CompletionIsAllowed(s, op, ok, response, status);
    case AnswerReady(proceed) => AnswerIsAllowed(s, proceed);
    case ShutdownQueue => OneStep(s.queue, Shutdown);
  }

  // ---- The object ----

  class AsyncReadStreamImpl {
    var queue: Queue<Kind>
    var next: nat
    var reader: bool
    var fault: bool
    var awaiting: nat
    var trace: seq<Item>

    function View(): Stream
      reads this
    {
      Stream(queue, next, reader, fault, awaiting, trace)
    }

    constructor ()
      ensures View() == NEW
    {
      queue, next, reader, fault, awaiting, trace := Queue(false, map[], map[]), 0, false, false, 0, [];
    }

    method Start()
      modifies this
      ensures View() == Begin(old(View()), StartOp)
    {
      StartOperation(StartOp);
    }

    method StartOperation(k: Kind)
      modifies this
      ensures View() == Begin(old(View()), k)
      decreases Rank(k, true, true)
    {
      var op := next;
      next := next + 1;
      trace := trace + [Issue(k)];
      if queue.shutdown {
        queue := queue.(done := queue.done[op := false]);
        match k {
          case StartOp => OnStart(false);
          case ReadOp => OnRead(false, 0);
          case DiscardOp => OnDiscard(false, 0);
          case FinishOp => OnFinish(false, 0);
        }
        return;
      }
      queue := queue.(outstanding := queue.outstanding[op := k]);
      if k.StartOp? {
        reader := true;
      } else if !reader {
        fault := true;
      }
    }

    method OnStart(ok: bool)
      modifies this
      ensures View() == Notify(old(View()), StartOp, ok, 0, 0)
      decreases Rank(StartOp, false, ok)
    {
      trace := trace + [Done(StartOp, ok, 0)];
      if !ok {
        StartOperation(FinishOp);
        return;
      }
      StartOperation(ReadOp);
    }

    method OnRead(ok: bool, response: int)
      modifies this
      ensures View() == Notify(old(View()), ReadOp, ok, response, 0)
      ensures ok ==> trace == old(trace) + [Done(ReadOp, true, response), CallOnRead(response)]
                     && awaiting == old(awaiting) + 1
      decreases Rank(ReadOp, false, ok)
    {
      trace := trace + [Done(ReadOp, ok, response)];
      if !ok {
        StartOperation(FinishOp);
        return;
      }
      awaiting := awaiting + 1;
      trace := trace + [CallOnRead(response)];
    }

    /** The continuation of the future that on_read returned. */
    method OnAnswer(proceed: bool)
      requires awaiting > 0
      modifies this
      ensures View() == Answered(old(View()), proceed)
    {
      hide Begin, Notify;
      awaiting := awaiting - 1;
      trace := trace + [Answer(proceed)];
      if !proceed {
        trace := trace + [TryCancel];
        StartOperation(DiscardOp);
        return;
      }
      StartOperation(ReadOp);
    }

    method OnDiscard(ok: bool, response: int)
      modifies this
      ensures View() == Notify(old(View()), DiscardOp, ok, response, 0)
      decreases Rank(DiscardOp, false, ok)
    {
      trace := trace + [Done(DiscardOp, ok, response)];
      if !ok {
        StartOperation(FinishOp);
        return;
      }
      StartOperation(DiscardOp);
    }

    method OnFinish(ok: bool, status: int)
      modifies this
      ensures View() == Notify(old(View()), FinishOp, ok, 0, status)
      ensures trace == old(trace) + [Done(FinishOp, ok, 0), CallOnFinish(if ok then RpcStatus(status) else Cancelled)]
      decreases Rank(FinishOp, false, ok)
    {
      trace := trace + [Done(FinishOp, ok, 0)];
      trace := trace + [CallOnFinish(if ok then RpcStatus(status) else Cancelled)];
    }
  }
}
