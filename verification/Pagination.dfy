/** PaginationRange: pages of a List RPC, presented as one input range. */
module Pagination {
  import opened Basics

  /** What the page loader returns. */
  datatype Response = Page(items: seq<int>, token: string) | Failed(status: int)

  /** The loader may keep state: its answer depends on how often it was called, and on the page token. */
  type Loader = (nat, string) -> Response

  /** What an iterator obtained from GetNext() shows; End is the past-the-end iterator. */
  datatype Output = Item(value: int) | Error(status: int) | End

  datatype Range = Range(
    page: seq<int>,
    current: nat,
    nextToken: string,
    onLastPage: bool,
    requests: seq<string>,     // the page tokens of the requests made
    responses: seq<Response>)  // the answers of the loader

  const NEW: Range := Range([], 0, "", false, [], [])

  predicate Valid(r: Range) {
    r.current <= |r.page| && |r.requests| == |r.responses|
  }

  function Load(L: Loader, r: Range): Response {
    L(|r.requests|, r.nextToken)
  }

  function AfterLoad(L: Loader, r: Range): Range {
    var response := Load(L, r);
    var r1 := r.(requests := r.requests + [r.nextToken], responses := r.responses + [response], current := 0);
    match response
    case Failed(_) => r1.(nextToken := "", page := [], onLastPage := true)
    case Page(items, token) => r1.(nextToken := token, page := items, onLastPage := r.onLastPage || token == "")
  }

  /** GetNext(). */
  function Next(L: Loader, r: Range): (Range, Output)
    requires Valid(r)
  {
    if r.current < |r.page| then (r.(current := r.current + 1), Item(r.page[r.current]))
    else if r.onLastPage then (r, End)
    else
      var r1 := AfterLoad(L, r);
      if Load(L, r).Failed? then (r1, Error(Load(L, r).status))
      else if r1.page == [] then (r1, End)
      else (r1.(current := 1), Item(r1.page[0]))
  }

  /** The range and everything it showed, after n calls. */
  function Calls(L: Loader, n: nat): (c: (Range, seq<Output>))
    ensures Valid(c.0) && |c.1| == n
  {
    if n == 0 then (NEW, [])
    else
      var (r, outs) := Calls(L, n - 1);
      var (r1, o) := Next(L, r);
      (r1, outs + [o])
  }

  // ---- Reference ----

  function Items(outs: seq<Output>): seq<int> {
    if outs == [] then [] else
    var o := outs[|outs| - 1];
    Items(outs[..|outs| - 1]) + if o.Item? then [o.value] else []
  }

  /** All items the loader returned, in order. */
  function Concatenated(responses: seq<Response>): seq<int> {
    if responses == [] then [] else
    var p := responses[|responses| - 1];
    Concatenated(responses[..|responses| - 1]) + if p.Page? then p.items else []
  }

  predicate IsLast(p: Response) {
    p.Failed? || p.token == ""
  }

  /** Request k carries the token of the response before it, which was not a last page or an error. */
  predicate RequestOk(requests: seq<string>, responses: seq<Response>, k: nat)
    requires k < |requests| == |responses|
  {
    if k == 0 then requests[0] == ""
    else !IsLast(responses[k - 1]) && requests[k] == responses[k - 1].token
  }

  predicate RequestsOk(r: Range) {
    |r.requests| == |r.responses| && forall k: nat :: k < |r.requests| ==> RequestOk(r.requests, r.responses, k)
  }

  predicate RangeOk(r: Range) {
    && Valid(r) && RequestsOk(r)
    && (r.responses == [] ==> r == NEW)
    && (r.responses != [] ==>
          var p := r.responses[|r.responses| - 1];
          && r.onLastPage == IsLast(p)
          && r.nextToken == (if p.Page? then p.token else "")
          && r.page == if p.Page? then p.items else [])
  }

  lemma {:induction false} CallsKeepRangeOk(L: Loader, n: nat)
    ensures RangeOk(Calls(L, n).0)
  {
    if n > 0 {
      CallsKeepRangeOk(L, n - 1);
      var r := Calls(L, n - 1).0;
      if !r.onLastPage { LoadKeepsRangeOk(L, r); }
    }
  }

  lemma LoadKeepsRangeOk(L: Loader, r: Range)
    requires RangeOk(r) && !r.onLastPage
    ensures RangeOk(AfterLoad(L, r))
  {
    var h := AfterLoad(L, r);
    forall k: nat | k < |h.requests| ensures RequestOk(h.requests, h.responses, k) {
      if k < |r.requests| { assert RequestOk(r.requests, r.responses, k); }
    }
  }

  // ---- What holds after any number of calls ----

  function Shown(o: Output): seq<int> {
    if o.Item? then [o.value] else []
  }

  /** One call: what it shows and leaves in the page is what was left there, and what it loaded. */
  lemma NextConserves(L: Loader, r: Range)
    requires Valid(r)
    ensures var (r1, o) := Next(L, r);
            Valid(r1)
            && Shown(o) + r1.page[r1.current..] == r.page[r.current..] + Concatenated(r1.responses[|r.responses|..])
            && r.responses <= r1.responses && |r1.responses| <= |r.responses| + 1
  {
    var (r1, o) := Next(L, r);
    if r.current < |r.page| || r.onLastPage {
      assert r1.responses[|r.responses|..] == [];
    } else {
      LoadConserves(L, r);
    }
  }

  lemma LoadConserves(L: Loader, r: Range)
    requires Valid(r) && r.current == |r.page| && !r.onLastPage
    ensures var (r1, o) := Next(L, r); Shown(o) + r1.page[r1.current..] == Concatenated(r1.responses[|r.responses|..])
  {
    var (r1, o) := Next(L, r);
    var p := Load(L, r);
    assert r1.responses[|r.responses|..] == [p];
    ConcatenatedOne(p);
  }

  lemma ConcatenatedOne(p: Response)
    ensures Concatenated([p]) == if p.Page? then p.items else []
  {
    assert [p][..0] == [];
  }

  lemma ConcatenatedSnoc(responses: seq<Response>, more: seq<Response>)
    requires |more| <= 1
    ensures Concatenated(responses + more) == Concatenated(responses) + Concatenated(more)
  {
    if more != [] {
      assert (responses + more)[..|responses|] == responses && more[..0] == [];
    } else {
      assert responses + more == responses;
    }
  }

  lemma Reassociate(handed: seq<int>, shown: seq<int>, left: seq<int>, was: seq<int>, more: seq<int>)
    requires shown + left == was + more
    ensures (handed + shown) + left == (handed + was) + more
  {
    assert (handed + shown) + left == handed + (shown + left);
  }

  lemma ItemsSnoc(outs: seq<Output>, o: Output)
    ensures Items(outs + [o]) == Items(outs) + Shown(o)
  {
    assert (outs + [o])[..|outs|] == outs;
  }

  predicate Conserved(r: Range, outs: seq<Output>)
    requires Valid(r)
  {
    Items(outs) + r.page[r.current..] == Concatenated(r.responses)
  }

  lemma StepConserves(L: Loader, r: Range, outs: seq<Output>)
    requires Valid(r) && Conserved(r, outs)
    ensures var (r1, o) := Next(L, r); Valid(r1) && Conserved(r1, outs + [o])
  {
    var (r1, o) := Next(L, r);
    NextConserves(L, r);
    var more := r1.responses[|r.responses|..];
    assert r1.responses == r.responses + more;
    ConcatenatedSnoc(r.responses, more);
    ItemsSnoc(outs, o);
    Reassociate(Items(outs), Shown(o), r1.page[r1.current..], r.page[r.current..], Concatenated(more));
  }

  /** The items handed out, and those left in the current page, are the concatenation of the pages loaded. */
  lemma {:induction false} NothingLostOrRepeated(L: Loader, n: nat)
    ensures Conserved(Calls(L, n).0, Calls(L, n).1)
  {
    if n > 0 {
      NothingLostOrRepeated(L, n - 1);
      StepConserves(L, Calls(L, n - 1).0, Calls(L, n - 1).1);
    }
  }

  /** Every request carries the token of the response before it, the first an empty one; the loader is not
      called after an error or an empty token. */
  lemma RequestsFollowTokens(L: Loader, n: nat, k: nat)
    requires k < |Calls(L, n).0.requests|
    ensures var r := Calls(L, n).0;
            |r.requests| == |r.responses|
            && (k == 0 ==> r.requests[k] == "")
            && (k > 0 ==> r.responses[k - 1].Page? && r.responses[k - 1].token != ""
                          && r.requests[k] == r.responses[k - 1].token)
  {
    CallsKeepRangeOk(L, n);
    assert RequestOk(Calls(L, n).0.requests, Calls(L, n).0.responses, k);
  }

  /** The requests that were made: the loader's own answers. */
  lemma {:induction false} ResponsesAreTheLoaders(L: Loader, n: nat, k: nat)
    requires k < |Calls(L, n).0.requests|
    ensures var r := Calls(L, n).0;
            k < |r.responses| && r.responses[k] == L(k, r.requests[k])
    decreases n
  {
    if n > 0 && k < |Calls(L, n - 1).0.requests| { ResponsesAreTheLoaders(L, n - 1, k); }
  }

  /** A call shows an error exactly when it loads a page and the loader fails, and it shows the status that the
      loader returned. */
  lemma ErrorIsLoaders(L: Loader, n: nat, status: int)
    ensures var (r, outs) := Calls(L, n);
            var (r1, outs1) := Calls(L, n + 1);
            var loaded := |r.requests|;
            outs1[n] == Error(status) <==>
            |r1.requests| == loaded + 1 && L(loaded, r1.requests[loaded]) == Failed(status)
  {
    var (r, outs) := Calls(L, n);
    CallsKeepRangeOk(L, n + 1);
    assert Calls(L, n + 1).1 == outs + [Next(L, r).1];
  }

  /** After an error, only the end follows: the error is shown once. */
  lemma {:induction false} ErrorThenEnd(L: Loader, n: nat, k: nat)
    requires k < n && Calls(L, n).1[k].Error?
    ensures forall m :: k < m < n ==> Calls(L, n).1[m].End?
    ensures Calls(L, n).0.onLastPage && Calls(L, n).0.current == |Calls(L, n).0.page|
    decreases n
  {
    var (r, outs) := Calls(L, n - 1);
    if k < n - 1 {
      assert outs[k] == Calls(L, n).1[k];
      ErrorThenEnd(L, n - 1, k);
    }
  }

  /** The end is shown exactly when the current page is used up and it is the last page, or the page loaded to
      replace it is empty. All items loaded have been handed out then. */
  lemma EndIff(L: Loader, n: nat)
    ensures var (r, outs) := Calls(L, n);
            var (r1, outs1) := Calls(L, n + 1);
            && (outs1[n].End? <==>
                  r.current == |r.page|
                  && (r.onLastPage || (Load(L, r).Page? && Load(L, r).items == [])))
            && (outs1[n].End? ==> Items(outs1) == Concatenated(r1.responses))
            && (outs1[n].End? ==> r1.responses != [] && (IsLast(r1.responses[|r1.responses| - 1])
                                                         || r1.responses[|r1.responses| - 1].items == []))
  {
    NothingLostOrRepeated(L, n + 1);
    CallsKeepRangeOk(L, n);
    CallsKeepRangeOk(L, n + 1);
  }

  /** Until the end is first shown, every page loaded but the last had items: an iteration stops at the first
      empty page. */
  lemma {:induction false} NoEmptyPageBeforeEnd(L: Loader, n: nat, k: nat)
    requires forall m :: 0 <= m < n ==> !Calls(L, n).1[m].End?
    requires k < |Calls(L, n).0.responses|
    ensures Calls(L, n).0.responses[k].Failed? || Calls(L, n).0.responses[k].items != []
    decreases n
  {
    if n > 0 {
      var (r, outs) := Calls(L, n - 1);
      assert Calls(L, n).1[n - 1] == Next(L, r).1;
      forall m | 0 <= m < n - 1 ensures !outs[m].End? { assert outs[m] == Calls(L, n).1[m]; }
      if k < |r.responses| { NoEmptyPageBeforeEnd(L, n - 1, k); }
    }
  }

  // ---- The object ----

  class PaginationRange {
    const loader: Loader
    var page: seq<int>
    var current: nat
    var nextToken: string
    var onLastPage: bool
    var requests: seq<string>
    var responses: seq<Response>

    function View(): Range
      reads this
    {
      Range(page, current, nextToken, onLastPage, requests, responses)
    }

    constructor (loader: Loader)
      ensures this.loader == loader && View() == NEW
    {
      this.loader := loader;
      page, current, nextToken, onLastPage, requests, responses := [], 0, "", false, [], [];
    }

    method GetNext() returns (o: Output)
      requires Valid(View())
      modifies this
      ensures Valid(View()) && (View(), o) == Next(loader, old(View()))
    {
      if current == |page| {
        if onLastPage {
          return End;
        }
        var response := loader(|requests|, nextToken);
        requests, responses := requests + [nextToken], responses + [response];
        if response.Failed? {
          nextToken, page, onLastPage, current := "", [], true, 0;
          return Error(response.status);
        }
        nextToken, page, current := response.token, response.items, 0;
        if nextToken == "" {
          onLastPage := true;
        }
        if current == |page| {
          return End;
        }
      }
      o := Item(page[current]);
      current := current + 1;
    }

    /** A range-for loop over at most n elements: the outputs, up to the end. */
    method Iterate(n: nat) returns (outs: seq<Output>)
      requires View() == NEW
      modifies this
      ensures |outs| <= n && (View(), outs) == Calls(loader, |outs|)
      ensures |outs| < n ==> outs != [] && outs[|outs| - 1].End?
      ensures forall m :: 0 <= m < |outs| - 1 ==> !outs[m].End?
    {
      outs := [];
      while |outs| < n
        invariant |outs| <= n && (View(), outs) == Calls(loader, |outs|)
        invariant forall m :: 0 <= m < |outs| ==> !outs[m].End?
        decreases n - |outs|
      {
        var o := GetNext();
        outs := outs + [o];
        if o.End? {
          return;
        }
      }
    }
  }
}
