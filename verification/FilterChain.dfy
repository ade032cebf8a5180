/**
The filter chain of a stream: how a write goes down through the filters to the backend, and how its
completion or cancellation comes back up.  Requests are known by their number; `parent` and `subreq`
are such numbers.
*/
module FilterChains {
  import opened Basics

  /**
  What a filter does with a write: hand it on, hand on a subrequest of its own in its place (as the
  SSL filter does), or keep it for now.
  */
  datatype Kind = Pass | Encapsulate | Hold

  /** `attached`: the backend has the request and may complete it. */
  datatype Req = Req(parent: Option<nat>, subreq: Option<nat>, lastFilter: Option<nat>, attached: bool)

  datatype Step =
    | Down(filter: nat, req: nat)
    | Sent(req: nat)
    | Up(filter: nat, req: nat, err: Err)
    | SubDone(req: nat)
    | Done(req: nat, err: Err)

  // ---------------------------------------------------------------- what should happen

  /** How many of the first `k` filters make a subrequest; the n-th nested one of request `top` is number `top + n`. */
  function Subs(filters: seq<Kind>, k: nat): nat
    requires k <= |filters|
  {
    if k == 0 then 0 else Subs(filters, k - 1) + if filters[k - 1] == Encapsulate then 1 else 0
  }

  /** How many filters a write that has come to filter `k` will have reached. */
  function Depth(filters: seq<Kind>, k: nat): (d: nat)
    requires k <= |filters|
    ensures k <= d <= |filters|
    ensures d < |filters| ==> d > k && filters[d - 1] == Hold
    ensures forall j | k <= j < d - 1 :: filters[j] != Hold
    decreases |filters| - k
  {
    if k == |filters| then k else if filters[k] == Hold then k + 1 else Depth(filters, k + 1)
  }

  /** Whether it gets to the backend. */
  predicate Through(filters: seq<Kind>, k: nat)
    requires k <= |filters|
  {
    forall j | k <= j < |filters| :: filters[j] != Hold
  }

  /** From filter `k` on down. */
  function DownTrace(filters: seq<Kind>, top: nat, k: nat): seq<Step>
    requires k <= |filters|
    decreases |filters| - k
  {
    var r := top + Subs(filters, k);
    if k == |filters| then [Sent(r)]
    else [Down(k, r)] + if filters[k] == Hold then [] else DownTrace(filters, top, k + 1)
  }

  /** Back up through the first `k` filters. */
  function UpTrace(filters: seq<Kind>, top: nat, k: nat, err: Err): seq<Step>
    requires k <= |filters|
  {
    if k == 0 then [Done(top, err)]
    else
      var r := top + Subs(filters, k);
      [Up(k - 1, r, err)] + (if filters[k - 1] == Encapsulate then [SubDone(r)] else [])
      + UpTrace(filters, top, k - 1, err)
  }

  // ---------------------------------------------------------------- what that means

  /** The filters visited, in order. */
  function Visits(t: seq<Step>): seq<nat> {
    if t == [] then []
    else (if t[0].Down? || t[0].Up? then [t[0].filter] else []) + Visits(t[1..])
  }

  /** The requests completed, in order. */
  function Completed(t: seq<Step>): seq<nat> {
    if t == [] then []
    else (if t[0].SubDone? || t[0].Done? then [t[0].req] else []) + Completed(t[1..])
  }

  function Reversed(s: seq<nat>): seq<nat> {
    if s == [] then [] else Reversed(s[1..]) + [s[0]]
  }

  function UpTo(a: nat, b: nat): seq<nat>
    requires a <= b
    decreases b - a
  {
    if a == b then [] else [a] + UpTo(a + 1, b)
  }

  /** The innermost subrequest first, the request itself last. */
  function InnerToOuter(top: nat, n: nat): seq<nat> {
    if n == 0 then [top] else [top + n] + InnerToOuter(top, n - 1)
  }

  lemma {:induction false} UpToSnoc(a: nat, b: nat)
    requires a <= b
    ensures UpTo(a, b + 1) == UpTo(a, b) + [b]
    decreases b - a
  {
    if a < b {
      UpToSnoc(a + 1, b);
    }
  }

  lemma {:induction false} UpToConcat(a: nat, b: nat, c: nat)
    requires a <= b <= c
    ensures UpTo(a, b) + UpTo(b, c) == UpTo(a, c)
    decreases b - a
  {
    if a < b {
      UpToConcat(a + 1, b, c);
    }
  }

  lemma {:induction false} ReversedSnoc(s: seq<nat>, x: nat)
    ensures Reversed(s + [x]) == [x] + Reversed(s)
  {
    if s != [] {
      assert (s + [x])[1..] == s[1..] + [x];
      ReversedSnoc(s[1..], x);
    }
  }

  lemma {:induction false} VisitsAppend(s: seq<Step>, t: seq<Step>)
    ensures Visits(s + t) == Visits(s) + Visits(t)
  {
    if s == [] {
      assert s + t == t;
    } else {
      var own := if s[0].Down? || s[0].Up? then [s[0].filter] else [];
      assert (s + t)[0] == s[0] && (s + t)[1..] == s[1..] + t;
      VisitsAppend(s[1..], t);
      calc {
        Visits(s + t);
        own + (Visits(s[1..]) + Visits(t));
        (own + Visits(s[1..])) + Visits(t);
        Visits(s) + Visits(t);
      }
    }
  }

  lemma {:induction false} CompletedAppend(s: seq<Step>, t: seq<Step>)
    ensures Completed(s + t) == Completed(s) + Completed(t)
  {
    if s == [] {
      assert s + t == t;
    } else {
      var own := if s[0].SubDone? || s[0].Done? then [s[0].req] else [];
      assert (s + t)[0] == s[0] && (s + t)[1..] == s[1..] + t;
      CompletedAppend(s[1..], t);
      calc {
        Completed(s + t);
        own + (Completed(s[1..]) + Completed(t));
        (own + Completed(s[1..])) + Completed(t);
        Completed(s) + Completed(t);
      }
    }
  }

  lemma OneStep(x: Step)
    ensures Visits([x]) == if x.Down? || x.Up? then [x.filter] else []
    ensures Completed([x]) == if x.SubDone? || x.Done? then [x.req] else []
  {
    assert [x][1..] == [];
  }

  /** Down: front to back, completing nothing. */
  lemma {:induction false} DownVisits(filters: seq<Kind>, top: nat, k: nat)
    requires k <= |filters|
    ensures Visits(DownTrace(filters, top, k)) == UpTo(k, Depth(filters, k))
    ensures Completed(DownTrace(filters, top, k)) == []
    decreases |filters| - k
  {
    if k == |filters| {
      OneStep(Sent(top + Subs(filters, k)));
    } else {
      var first := [Down(k, top + Subs(filters, k))];
      OneStep(first[0]);
      if filters[k] == Hold {
        assert DownTrace(filters, top, k) == first;
        assert UpTo(k, k + 1) == [k];
      } else {
        DownVisits(filters, top, k + 1);
        VisitsAppend(first, DownTrace(filters, top, k + 1));
        CompletedAppend(first, DownTrace(filters, top, k + 1));
      }
    }
  }

  lemma OwnSteps(up: Step, ended: seq<Step>)
    requires up.Up? && (ended == [] || ended == [SubDone(up.req)])
    ensures Visits([up] + ended) == [up.filter]
    ensures Completed([up] + ended) == if ended == [] then [] else [up.req]
  {
    VisitsAppend([up], ended);
    CompletedAppend([up], ended);
    OneStep(up);
    OneStep(SubDone(up.req));
  }

  /** Up: back to front, completing every subrequest before the one it stands for. */
  lemma {:induction false} UpVisits(filters: seq<Kind>, top: nat, k: nat, err: Err)
    requires k <= |filters|
    ensures Visits(UpTrace(filters, top, k, err)) == Reversed(UpTo(0, k))
    ensures Completed(UpTrace(filters, top, k, err)) == InnerToOuter(top, Subs(filters, k))
  {
    hide Visits, Completed;
    if k == 0 {
      OneStep(Done(top, err));
    } else {
      var r := top + Subs(filters, k);
      var rest := UpTrace(filters, top, k - 1, err);
      var ended := if filters[k - 1] == Encapsulate then [SubDone(r)] else [];
      OwnSteps(Up(k - 1, r, err), ended);
      UpVisits(filters, top, k - 1, err);
      VisitsAppend([Up(k - 1, r, err)] + ended, rest);
      CompletedAppend([Up(k - 1, r, err)] + ended, rest);
      UpToSnoc(0, k - 1);
      ReversedSnoc(UpTo(0, k - 1), k - 1);
      assert UpTrace(filters, top, k, err) == [Up(k - 1, r, err)] + ended + rest;
    }
  }

  /** A completion visits exactly the filters that the write had reached, the other way round. */
  lemma ChainReversal(filters: seq<Kind>, top: nat, err: Err)
    ensures Visits(UpTrace(filters, top, Depth(filters, 0), err)) == Reversed(Visits(DownTrace(filters, top, 0)))
    ensures Completed(UpTrace(filters, top, Depth(filters, 0), err))
         == InnerToOuter(top, Subs(filters, Depth(filters, 0)))
  {
    DownVisits(filters, top, 0);
    UpVisits(filters, top, Depth(filters, 0), err);
  }

  /** Every filter and the request itself are told the error that was given. */
  lemma {:induction false} ErrorCarried(filters: seq<Kind>, top: nat, k: nat, err: Err)
    requires k <= |filters|
    ensures forall x | x in UpTrace(filters, top, k, err) :: x.Up? || x.Done? ==> x.err == err
    ensures forall x | x in UpTrace(filters, top, k, err) :: x.Up? || x.Done? || x.SubDone?
  {
    if k > 0 {
      ErrorCarried(filters, top, k - 1, err);
    }
  }

  function Times(s: seq<nat>, r: nat): nat { multiset(s)[r] }

  lemma TimesCons(x: nat, s: seq<nat>, r: nat)
    ensures Times([x] + s, r) == Times(s, r) + if r == x then 1 else 0
  {
  }

  /** So each request is completed once. */
  lemma {:induction false} EachCompletedOnce(top: nat, n: nat, r: nat)
    ensures |InnerToOuter(top, n)| == n + 1 && InnerToOuter(top, n)[n] == top
    ensures Times(InnerToOuter(top, n), r) == if top <= r <= top + n then 1 else 0
  {
    OutermostLast(top, n);
    hide Times;
    if n > 0 {
      EachCompletedOnce(top, n - 1, r);
      TimesCons(top + n, InnerToOuter(top, n - 1), r);
    } else {
      NoTimes(r);
      TimesCons(top, [], r);
      assert InnerToOuter(top, 0) == [top] + [];
    }
  }

  lemma NoTimes(r: nat)
    ensures Times([], r) == 0
  {
  }

  lemma {:induction false} OutermostLast(top: nat, n: nat)
    ensures |InnerToOuter(top, n)| == n + 1 && InnerToOuter(top, n)[n] == top
  {
    if n > 0 {
      OutermostLast(top, n - 1);
    }
  }

  // ---------------------------------------------------------------- the links between requests

  /** `top` and its `n` nested subrequests are linked to each other both ways. */
  ghost predicate Linked(requests: seq<Req>, top: nat, n: nat) {
    && top + n < |requests|
    && (forall j | top <= j <= top + n ::
          && requests[j].parent == (if j == top then None else Some(j - 1))
          && requests[j].subreq == (if j < top + n then Some(j + 1) else None)
          && (requests[j].attached ==> j == top + n))
  }

  /** Nothing of them is left. */
  ghost predicate Unlinked(requests: seq<Req>, top: nat, n: nat) {
    && top + n < |requests|
    && (forall j | top <= j <= top + n ::
          requests[j].parent == None && requests[j].subreq == None && !requests[j].attached)
  }

  /** A write has reached `d` filters and waits in the last of them, or in the backend if it was `sent` there. */
  ghost predicate Reached(filters: seq<Kind>, requests: seq<Req>, top: nat, d: nat, sent: bool)
    requires d <= |filters|
  {
    && |requests| == top + 1 + Subs(filters, d) && Linked(requests, top, Subs(filters, d))
    && (d == 0 ==> requests[top + Subs(filters, d)].lastFilter == None)
    && (d > 0 ==> requests[top + Subs(filters, d)].lastFilter == Some(d - 1))
    && (requests[top + Subs(filters, d)].attached <==> sent)
  }

  lemma {:induction false} DownOne(filters: seq<Kind>, top: nat, f: nat)
    requires f < |filters|
    ensures Subs(filters, f + 1) == Subs(filters, f) + if filters[f] == Encapsulate then 1 else 0
    ensures DownTrace(filters, top, f) ==
            [Down(f, top + Subs(filters, f))] + if filters[f] == Hold then [] else DownTrace(filters, top, f + 1)
    ensures Depth(filters, f) == if filters[f] == Hold then f + 1 else Depth(filters, f + 1)
    ensures Through(filters, f) <==> filters[f] != Hold && Through(filters, f + 1)
  {
    ThroughOne(filters, f);
    DepthOne(filters, f);
    TraceOne(filters, top, f);
    hide Through, Depth, DownTrace;
  }

  lemma {:induction false} DepthOne(filters: seq<Kind>, f: nat)
    requires f < |filters|
    ensures Depth(filters, f) == if filters[f] == Hold then f + 1 else Depth(filters, f + 1)
  {
  }

  lemma {:induction false} TraceOne(filters: seq<Kind>, top: nat, f: nat)
    requires f < |filters|
    ensures DownTrace(filters, top, f) ==
            [Down(f, top + Subs(filters, f))] + if filters[f] == Hold then [] else DownTrace(filters, top, f + 1)
  {
    hide Subs;
  }

  lemma ThroughOne(filters: seq<Kind>, f: nat)
    requires f < |filters|
    ensures Through(filters, f) <==> filters[f] != Hold && Through(filters, f + 1)
  {
  }

  lemma {:induction false} UpOne(filters: seq<Kind>, top: nat, k: nat, err: Err)
    requires k < |filters|
    ensures Subs(filters, k + 1) == Subs(filters, k) + if filters[k] == Encapsulate then 1 else 0
    ensures var r := top + Subs(filters, k + 1);
            UpTrace(filters, top, k + 1, err) ==
            [Up(k, r, err)] + (if filters[k] == Encapsulate then [SubDone(r)] else []) + UpTrace(filters, top, k, err)
  {
  }

  lemma {:induction false} DownEnd(filters: seq<Kind>, top: nat)
    ensures DownTrace(filters, top, |filters|) == [Sent(top + Subs(filters, |filters|))]
    ensures Depth(filters, |filters|) == |filters| && Through(filters, |filters|)
  {
  }

  class Chain {
    const filters: seq<Kind>
    var requests: seq<Req>
    ghost var trace: seq<Step>

    constructor (filters: seq<Kind>)
      ensures this.filters == filters && requests == [] && trace == []
    {
      this.filters, requests, trace := filters, [], [];
    }

    // ---------------------------------------------------------------- down

    /** `WriteRequest::exec` of a new request, which gets the number `top`. */
    method Exec() returns (top: nat)
      modifies this
      ensures Reached(filters, requests, top, Depth(filters, 0), Through(filters, 0))
      ensures top == |old(requests)| && requests[..top] == old(requests)
      ensures trace == old(trace) + DownTrace(filters, top, 0)
    {
      top := |requests|;
      if |filters| != 0 {
        requests := requests + [Req(None, None, Some(0), false)];
        Write(0, top, top);
      } else {
        requests := requests + [Req(None, None, None, false)];
        FinalizeWrite(top);
      }
    }

    /** `write` of filter `f`. */
    method Write(f: nat, r: nat, ghost top: nat)
      requires f < |filters| && r == top + Subs(filters, f) == |requests| - 1 && Linked(requests, top, Subs(filters, f))
      requires requests[r].lastFilter == Some(f) && !requests[r].attached
      modifies this
      ensures Reached(filters, requests, top, Depth(filters, f), Through(filters, f))
      ensures trace == old(trace) + DownTrace(filters, top, f) && requests[..top] == old(requests[..top])
      decreases |filters| - f, 2
    {
      hide Linked, Subs, DownTrace, Depth, Through;
      DownOne(filters, top, f);
      trace := trace + [Down(f, r)];
      match filters[f] {
        case Pass =>
          NextWrite(f, r, top);
        case Encapsulate =>
          SubreqWrite(f, r, top);
        case Hold =>
      }
    }

    /** `StreamFilter::write` of filter `f`: on to the next filter, or to the backend. */
    method NextWrite(f: nat, r: nat, ghost top: nat)
      requires f < |filters| && r == top + Subs(filters, f + 1) == |requests| - 1
      requires Linked(requests, top, Subs(filters, f + 1))
      requires requests[r].lastFilter == Some(f) && !requests[r].attached
      modifies this
      ensures Reached(filters, requests, top, Depth(filters, f + 1), Through(filters, f + 1))
      ensures trace == old(trace) + DownTrace(filters, top, f + 1) && requests[..top] == old(requests[..top])
      decreases |filters| - f, 0
    {
      hide Subs, DownTrace, Depth, Through;
      if f + 1 < |filters| {
        requests := requests[r := requests[r].(lastFilter := Some(f + 1))];
        Write(f + 1, r, top);
      } else {
        FinalizeWrite(r);
        DownEnd(filters, top);
      }
    }

    /** `subreq_write` with a new subrequest. */
    method SubreqWrite(f: nat, r: nat, ghost top: nat)
      requires f < |filters| && filters[f] == Encapsulate && r == top + Subs(filters, f) == |requests| - 1
      requires Linked(requests, top, Subs(filters, f)) && !requests[r].attached
      modifies this
      ensures Reached(filters, requests, top, Depth(filters, f + 1), Through(filters, f + 1))
      ensures trace == old(trace) + DownTrace(filters, top, f + 1) && requests[..top] == old(requests[..top])
      decreases |filters| - f, 1
    {
      hide DownTrace, Depth, Through, Reached;
      var sub := |requests|;
      requests := requests[r := requests[r].(subreq := Some(sub))] + [Req(Some(r), None, Some(f), false)];
      NextWrite(f, sub, top);
    }

    /** The filter that keeps a write hands it on after all. */
    method Release(r: nat, ghost top: nat, ghost d: nat)
      requires 0 < d <= |filters| && filters[d - 1] == Hold && Reached(filters, requests, top, d, false)
      requires r == top + Subs(filters, d)
      modifies this
      ensures Reached(filters, requests, top, Depth(filters, d), Through(filters, d))
      ensures trace == old(trace) + DownTrace(filters, top, d) && requests[..top] == old(requests[..top])
    {
      NextWrite(requests[r].lastFilter.value, r, top);
    }

    /** `finalize_write`.  A backend that refuses the write comes to a later `cancel` of it. */
    method FinalizeWrite(r: nat)
      requires r < |requests|
      modifies this
      ensures requests == old(requests)[r := old(requests)[r].(attached := true)]
      ensures trace == old(trace) + [Sent(r)]
    {
      requests := requests[r := requests[r].(attached := true)];
      trace := trace + [Sent(r)];
    }

    // ---------------------------------------------------------------- up

    /** `cancel` of the request `top` or of any of its subrequests: the innermost one gets the event. */
    method Cancel(r: nat, err: Err, ghost top: nat, ghost d: nat, ghost sent: bool)
      requires d <= |filters| && Reached(filters, requests, top, d, sent) && top <= r <= top + Subs(filters, d)
      modifies this
      ensures trace == old(trace) + UpTrace(filters, top, d, err)
      ensures |requests| == |old(requests)| && requests[..top] == old(requests[..top])
      ensures Unlinked(requests, top, Subs(filters, d))
      decreases |requests| - r
    {
      hide Subs, UpTrace;
      match requests[r].subreq {
        case Some(sub) =>
          Cancel(sub, err, top, d, sent);
        case None =>
          HandleEvent(r, err, top, d, sent);
      }
    }

    /** `WriteRequest::handle_event`, by `cancel` or by the backend, of the innermost request. */
    method HandleEvent(r: nat, err: Err, ghost top: nat, ghost d: nat, ghost sent: bool)
      requires d <= |filters| && Reached(filters, requests, top, d, sent) && r == top + Subs(filters, d)
      modifies this
      ensures trace == old(trace) + UpTrace(filters, top, d, err)
      ensures |requests| == |old(requests)| && requests[..top] == old(requests[..top])
      ensures Unlinked(requests, top, Subs(filters, d))
    {
      match requests[r].lastFilter {
        case Some(f) =>
          HandleWrite(f, r, err, top);
        case None =>
          FinalizeHandleWrite(r, err);
      }
    }

    /** `handle_write` of filter `f`. */
    method HandleWrite(f: nat, r: nat, err: Err, ghost top: nat)
      requires f < |filters| && r == top + Subs(filters, f + 1) && Linked(requests, top, r - top)
      modifies this
      ensures trace == old(trace) + UpTrace(filters, top, f + 1, err)
      ensures |requests| == |old(requests)| && Unlinked(requests, top, r - top)
      ensures forall j | 0 <= j < |requests| && !(top <= j <= r) :: requests[j] == old(requests[j])
      decreases f, 1
    {
      hide Subs, UpTrace;
      UpOne(filters, top, f, err);
      trace := trace + [Up(f, r, err)];
      if filters[f] == Encapsulate {
        var orig := requests[r].parent.value;
        SubreqDone(r);
        PrevHandleWrite(f, orig, err, top);
      } else {
        PrevHandleWrite(f, r, err, top);
      }
    }

    /** `StreamFilter::handle_write`: on to the previous filter, or done. */
    method PrevHandleWrite(f: nat, r: nat, err: Err, ghost top: nat)
      requires f < |filters| && r == top + Subs(filters, f) && Linked(requests, top, r - top)
      modifies this
      ensures trace == old(trace) + UpTrace(filters, top, f, err)
      ensures |requests| == |old(requests)| && Unlinked(requests, top, r - top)
      ensures forall j | 0 <= j < |requests| && !(top <= j <= r) :: requests[j] == old(requests[j])
      decreases f, 0
    {
      if f > 0 {
        HandleWrite(f - 1, r, err, top);
      } else {
        FinalizeHandleWrite(r, err);
      }
    }

    /** `subreq_done`; the source insists that the subrequest has none itself. */
    method SubreqDone(r: nat)
      requires r < |requests| && requests[r].subreq == None
      requires requests[r].parent.Some? && requests[r].parent.value < |requests| && requests[r].parent.value != r
      modifies this
      ensures var p := old(requests[r]).parent.value;
              requests == old(requests)[r := Req(None, None, None, false)][p := old(requests)[p].(subreq := None)]
      ensures trace == old(trace) + [SubDone(r)]
    {
      var p := requests[r].parent.value;
      requests := requests[r := requests[r].(attached := false)];
      requests := requests[p := requests[p].(subreq := None)];
      requests := requests[r := requests[r].(parent := None, lastFilter := None)];
      trace := trace + [SubDone(r)];
    }

    /** `finalize_handle_write`: `done` of the queue, which detaches the request. */
    method FinalizeHandleWrite(r: nat, err: Err)
      requires r < |requests|
      modifies this
      ensures requests == old(requests)[r := old(requests)[r].(attached := false)]
      ensures trace == old(trace) + [Done(r, err)]
    {
      requests := requests[r := requests[r].(attached := false)];
      trace := trace + [Done(r, err)];
    }

    // ---------------------------------------------------------------- a whole life

    /**
    A write that is kept and released any number of times, and then completed by the backend or
    cancelled: it is completed once, after each of its subrequests, and comes back through exactly
    the filters it had been in.  Afterwards the backend has nothing of it.
    */
    method WholeLife(releases: nat, byBackend: bool, err: Err) returns (top: nat, ghost d: nat, ghost down: seq<Step>)
      modifies this
      ensures top == |old(requests)| && d <= |filters|
      ensures trace == old(trace) + down + UpTrace(filters, top, d, err)
      ensures Visits(down) == UpTo(0, d) && Completed(down) == []
      ensures Visits(UpTrace(filters, top, d, err)) == Reversed(Visits(down))
      ensures Completed(UpTrace(filters, top, d, err)) == InnerToOuter(top, Subs(filters, d))
      ensures Unlinked(requests, top, Subs(filters, d)) && requests[..top] == old(requests)
      ensures d == |filters| || (d > 0 && filters[d - 1] == Hold)
    {
      hide Subs, UpTrace, DownTrace, Visits, Completed, UpTo, Linked, Unlinked;
      ghost var before := trace;
      top := Exec();
      d := Depth(filters, 0);
      down := DownTrace(filters, top, 0);
      ghost var sent := Through(filters, 0);
      DownVisits(filters, top, 0);
      for k := 0 to releases
        invariant d <= |filters| && Reached(filters, requests, top, d, sent) && requests[..top] == old(requests)
        invariant trace == before + down && Visits(down) == UpTo(0, d) && Completed(down) == []
        invariant d == |filters| || (d > 0 && filters[d - 1] == Hold)
      {
        var r := |requests| - 1;
        if requests[r].lastFilter.Some? && !requests[r].attached && filters[requests[r].lastFilter.value] == Hold {
          ghost var more := DownTrace(filters, top, d);
          Release(r, top, d);
          DownVisits(filters, top, d);
          VisitsAppend(down, more);
          CompletedAppend(down, more);
          UpToConcat(0, d, Depth(filters, d));
          sent := Through(filters, d);
          d := Depth(filters, d);
          down := down + more;
        }
      }
      var last := |requests| - 1;
      if byBackend && requests[last].attached {
        HandleEvent(last, err, top, d, sent);
      } else {
        Cancel(top, err, top, d, sent);
      }
      UpVisits(filters, top, d, err);
    }
  }
}
