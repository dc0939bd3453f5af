/** CompletionQueueImpl as one thread executes it. QueueProtocol interleaves these critical sections. */
module CompletionQueue {
  import opened Basics

  datatype NextStatus = GotEvent(tag: nat, ok: bool) | Timeout | ShutdownStatus

  datatype Failure = InsertionFailed | OperationNotFound | OperationNotRegistered

  /** An operation and the argument of its Notify(). */
  type Notification = (nat, bool)

  datatype LoopResult = LoopResult(pending: map<nat, nat>, notified: seq<Notification>, failure: Option<Failure>)

  /** The event loop over what AsyncNext() returns, one event at a time. */
  function Loop(pending: map<nat, nat>, events: seq<NextStatus>): LoopResult
    decreases |events|
  {
    if events == [] || events[0].ShutdownStatus? then LoopResult(pending, [], None)
    else if events[0].Timeout? then Loop(pending, events[1..])
    else if events[0].tag !in pending then LoopResult(pending, [], Some(OperationNotFound))
    else
      var rest := Loop(pending - {events[0].tag}, events[1..]);
      rest.(notified := [(pending[events[0].tag], events[0].ok)] + rest.notified)
  }

  /** The tags delivered before the queue reports SHUTDOWN. */
  function Delivered(events: seq<NextStatus>): seq<NextStatus>
    ensures forall e :: e in Delivered(events) ==> e.GotEvent? && e in events
  {
    if events == [] || events[0].ShutdownStatus? then []
    else if events[0].Timeout? then Delivered(events[1..])
    else [events[0]] + Delivered(events[1..])
  }

  function Tags(ds: seq<NextStatus>): seq<nat>
    requires forall e :: e in ds ==> e.GotEvent?
  {
    seq<nat>(|ds|, k requires 0 <= k < |ds| => assert ds[k] in ds; ds[k].tag)
  }

  predicate NoDuplicates(s: seq<nat>) {
    forall j, k :: 0 <= j < k < |s| ==> s[j] != s[k]
  }

  /** Each operation delivered was notified, in the order of the events and with the flag of its event. */
  predicate Matches(pending: map<nat, nat>, ds: seq<NextStatus>, notified: seq<Notification>)
    requires forall e :: e in ds ==> e.GotEvent?
  {
    && |notified| == |ds|
    && forall k :: 0 <= k < |ds| ==> Tags(ds)[k] in pending && notified[k] == (pending[Tags(ds)[k]], ds[k].ok)
  }

  /** The loop fails exactly if some tag is returned twice or is not registered; else each operation delivered
      is notified once, in the order of the events, and is unregistered. */
  lemma {:induction false} LoopNotifiesEachOnce(pending: map<nat, nat>, events: seq<NextStatus>)
    ensures var ds := Delivered(events);
            var r := Loop(pending, events);
            && (r.failure == None <==> NoDuplicates(Tags(ds)) && forall t :: t in Tags(ds) ==> t in pending)
            && (r.failure == None ==>
                  Matches(pending, ds, r.notified) && r.pending == pending - (set t | t in Tags(ds)))
    decreases |events|
  {
    var ds, r := Delivered(events), Loop(pending, events);
    if events == [] || events[0].ShutdownStatus? {
    } else if events[0].Timeout? {
      LoopNotifiesEachOnce(pending, events[1..]);
    } else {
      hide NoDuplicates, Matches;
      var t := events[0].tag;
      var dr, rr := Delivered(events[1..]), Loop(pending - {t}, events[1..]);
      LoopNotifiesEachOnce(pending - {t}, events[1..]);
      TagsOfHead(events[0], dr);
      if t in pending {
        TailOk(pending, t, Tags(dr));
        if rr.failure == None {
          MatchesHead(pending, events[0], dr, rr.notified);
          RemovedWithHead(pending, t, Tags(dr));
        }
      } else {
        assert t in Tags(ds);
      }
    }
  }

  lemma TagsOfHead(e: NextStatus, ds: seq<NextStatus>)
    requires e.GotEvent? && forall d :: d in ds ==> d.GotEvent?
    ensures forall d :: d in [e] + ds ==> d.GotEvent?
    ensures Tags([e] + ds) == [e.tag] + Tags(ds)
  {
  }

  lemma MatchesHead(pending: map<nat, nat>, e: NextStatus, ds: seq<NextStatus>, notified: seq<Notification>)
    requires e.GotEvent? && e.tag in pending && forall d :: d in ds ==> d.GotEvent?
    requires Matches(pending - {e.tag}, ds, notified)
    ensures forall d :: d in [e] + ds ==> d.GotEvent?
    ensures Matches(pending, [e] + ds, [(pending[e.tag], e.ok)] + notified)
  {
    TagsOfHead(e, ds);
    var es, ns := [e] + ds, [(pending[e.tag], e.ok)] + notified;
    forall k | 0 <= k < |es| ensures Tags(es)[k] in pending && ns[k] == (pending[Tags(es)[k]], es[k].ok) {
      if k > 0 { assert es[k] == ds[k - 1] && ns[k] == notified[k - 1] && Tags(es)[k] == Tags(ds)[k - 1]; }
    }
  }

  lemma RemovedWithHead(pending: map<nat, nat>, t: nat, rest: seq<nat>)
    ensures pending - {t} - (set u | u in rest) == pending - (set u | u in [t] + rest)
  {
  }

  lemma TailOk(pending: map<nat, nat>, t: nat, rest: seq<nat>)
    requires t in pending
    ensures (NoDuplicates(rest) && forall u :: u in rest ==> u in pending - {t}) <==>
            (NoDuplicates([t] + rest) && forall u :: u in [t] + rest ==> u in pending)
  {
    var s := [t] + rest;
    if NoDuplicates(s) && forall u :: u in s ==> u in pending {
      forall j, k | 0 <= j < k < |rest| ensures rest[j] != rest[k] { assert s[j + 1] != s[k + 1]; }
      forall u | u in rest ensures u in pending - {t} {
        var k :| 0 <= k < |rest| && rest[k] == u;
        assert s[0] != s[k + 1] && u in s;
      }
    }
    if NoDuplicates(rest) && forall u :: u in rest ==> u in pending - {t} {
      forall j, k | 0 <= j < k < |s| ensures s[j] != s[k] {
        assert s[k] == rest[k - 1] && s[k] in rest;
      }
    }
  }

  class CompletionQueueImpl {
    var shutdown: bool
    var pending: map<nat, nat>
    var started: seq<nat>             // operations whose start function ran
    var notified: seq<Notification>   // Notify() calls
    var cancelled: set<nat>           // Cancel() calls

    constructor ()
      ensures !shutdown && pending == map[] && started == [] && notified == [] && cancelled == {}
    {
      shutdown, pending, started, notified, cancelled := false, map[], [], [], {};
    }

    /** Registers and starts the operation, or tells it that it will not run. */
    method StartOperation(tag: nat, op: nat) returns (failure: Option<Failure>)
      modifies this
      ensures shutdown == old(shutdown) && cancelled == old(cancelled)
      ensures old(shutdown) ==>
                failure == None && notified == old(notified) + [(op, false)]
                && pending == old(pending) && started == old(started)
      ensures !old(shutdown) && tag in old(pending) ==>
                failure == Some(InsertionFailed) && notified == old(notified)
                && pending == old(pending) && started == old(started)
      ensures !old(shutdown) && tag !in old(pending) ==>
                failure == None && notified == old(notified)
                && pending == old(pending)[tag := op] && started == old(started) + [op]
    {
      if shutdown {
        notified := notified + [(op, false)];
        return None;
      }
      if tag in pending {
        return Some(InsertionFailed);
      }
      pending := pending[tag := op];
      started := started + [op];
      return None;
    }

    method FindOperation(tag: nat) returns (r: Result<nat, Failure>)
      ensures tag in pending ==> r == Ok(pending[tag])
      ensures tag !in pending ==> r == Err(OperationNotFound)
    {
      if tag !in pending {
        return Err(OperationNotFound);
      }
      r := Ok(pending[tag]);
    }

    method ForgetOperation(tag: nat) returns (failure: Option<Failure>)
      modifies this`pending
      ensures pending == old(pending) - {tag}
      ensures failure == if tag in old(pending) then None else Some(OperationNotRegistered)
    {
      failure := if tag in pending then None else Some(OperationNotRegistered);
      pending := pending - {tag};
    }

    method Shutdown()
      modifies this`shutdown
      ensures shutdown
    {
      shutdown := true;
    }

    /** Cancels a snapshot of the registered operations. */
    method CancelAll()
      modifies this`cancelled
      ensures cancelled == old(cancelled) + pending.Values
    {
      var rest := pending.Values;
      while rest != {}
        invariant rest <= pending.Values
        invariant cancelled == old(cancelled) + (pending.Values - rest)
        decreases rest
      {
        var op :| op in rest;
        cancelled := cancelled + {op};
        rest := rest - {op};
      }
    }

    /** Run(), on the results of AsyncNext(). All operations of the library return true from Notify(). */
    method Run(events: seq<NextStatus>) returns (failure: Option<Failure>)
      modifies this`pending, this`notified
      ensures LoopResult(pending, notified, failure) ==
              var r := Loop(old(pending), events); r.(notified := old(notified) + r.notified)
    {
      failure := None;
      var k := 0;
      while k < |events| && !events[k].ShutdownStatus?
        invariant 0 <= k <= |events| && failure == None
        invariant var r := Loop(old(pending), events);
                  r.(notified := old(notified) + r.notified)
                  == var s := Loop(pending, events[k..]); s.(notified := notified + s.notified)
        decreases |events| - k
      {
        ghost var s := Loop(pending, events[k..]);
        ghost var before := notified;
        assert events[k..][0] == events[k] && events[k..][1..] == events[k + 1..];
        if events[k].Timeout? {
          k := k + 1;
          continue;
        }
        var op := FindOperation(events[k].tag);
        if op.Err? {
          failure := Some(op.error);
          assert notified + [] == notified;
          return;
        }
        notified := notified + [(op.value, events[k].ok)];
        var unregistered := ForgetOperation(events[k].tag);
        if unregistered.Some? {
          return unregistered;
        }
        k := k + 1;
        assert before + s.notified == notified + Loop(pending, events[k..]).notified;
      }
      assert notified + [] == notified;
      assert events[k..] == [] || events[k..][0].ShutdownStatus?;
    }
  }
}
