/**
Requests that complete as soon as they are executed, with callbacks that do nothing: each `done` resumes
the queue, which executes the next request, which completes inside it.  What becomes of such a
queue can be said exactly, down to where `done` splits the recursion.
*/
module Cascades {
  import opened Basics
  import opened Delayers
  import opened QueueModel

  /** The head is about to complete; behind it, as far as the recursion will get, are requests that complete at once. */
  ghost predicate Chain(q: Q) {
    && q.locked == 0
    && (forall j | 0 <= j < |q.requests| ::
          q.requests[j].async && q.requests[j].delayId == 0 && q.requests[j].id < |q.h.told|)
    && (forall j | 0 <= j < |q.requests| && q.resumeRecursion + j <= SPLIT_RECURSION ::
          q.requests[j].spec.onNotify == Return)
    && (forall j | 1 <= j < |q.requests| && q.resumeRecursion + j <= SPLIT_RECURSION + 1 ::
          q.requests[j].spec.mode.Completes?)
  }

  /** Where the callback of the head has returned and `resume` is called. */
  ghost function HeadAnswered(q: Q, err: Err): Q
    requires q.requests != [] && q.requests[0].id < |q.h.told|
  {
    Opened(Answered(q, err), InResume)
  }

  lemma ChainNext(q: Q, err: Err)
    requires Chain(q) && q.requests != [] && q.resumeRecursion <= SPLIT_RECURSION
    ensures var x := HeadAnswered(q, err); x.requests != [] ==> Chain(Executed(x)) && x.requests[0].spec.mode.Completes?
    ensures q.requests[0].async && q.requests[0].spec.onNotify == Return
  {
    var x := HeadAnswered(q, err);
    assert forall j | 0 <= j < |x.requests| :: x.requests[j] == q.requests[j + 1];
  }

  /** `done` of the head of such a queue. */
  ghost function Cascaded(q: Q, err: Err): (z: Q)
    requires Chain(q) && q.requests != []
    ensures z.h.frames == q.h.frames
    decreases |q.requests|
  {
    if q.resumeRecursion > SPLIT_RECURSION then Deferred(q, err, true)
    else
      ChainNext(q, err);
      var x := HeadAnswered(q, err);
      var d := if x.requests == [] then x else Cascaded(Executed(x), x.requests[0].spec.mode.err);
      assert d.h.frames[..|q.h.frames|] == q.h.frames;
      Closed(d)
  }

  lemma CascadeSplits(q: Q, err: Err)
    requires Chain(q) && q.requests != [] && q.resumeRecursion > SPLIT_RECURSION
    ensures Cascaded(q, err) == Deferred(q, err, true)
  {
  }

  lemma {:induction false} CascadeGoesOn(q: Q, err: Err)
    requires Chain(q) && q.requests != [] && q.resumeRecursion <= SPLIT_RECURSION
    ensures q.requests[0].async && q.requests[0].spec.onNotify == Return
    ensures var x := HeadAnswered(q, err);
            && (x.requests == [] ==> Cascaded(q, err) == Closed(x))
            && (x.requests != [] ==>
                  && Chain(Executed(x)) && x.requests[0].spec.mode.Completes?
                  && Cascaded(Executed(x), x.requests[0].spec.mode.err).h.frames == x.h.frames
                  && Cascaded(q, err) == Closed(Cascaded(Executed(x), x.requests[0].spec.mode.err)))
  {
    ChainNext(q, err);
  }

  // ---------------------------------------------------------------- what it comes to

  /** Nothing behind the head has been executed. */
  ghost predicate Behind(q: Q) {
    |q.requests| <= |q.h.pushed| && forall e | e in q.h.execs :: e <= Completed(q)
  }

  /** How many more levels the recursion may go. */
  ghost function Room(q: Q): nat
    requires q.resumeRecursion <= SPLIT_RECURSION + 1
  {
    SPLIT_RECURSION + 1 - q.resumeRecursion
  }

  ghost function ErrAt(q: Q, err: Err, j: nat): Err
    requires j < |q.requests|
  {
    if j > 0 && q.requests[j].spec.mode.Completes? then q.requests[j].spec.mode.err else err
  }

  /** Everything but the two lists, the pool and the reports is as before. */
  ghost predicate SameElse(q: Q, z: Q) {
    && z.locked == q.locked && z.resumeRecursion == q.resumeRecursion && z.count == q.count
    && z.h.pushed == q.h.pushed && |z.h.told| == |q.h.told| && z.h.frames == q.h.frames && z.h.reexecs == q.h.reexecs
    && z.h.thrown == q.h.thrown
  }

  /**
  As many requests as there is room for complete at once; if there are more, the next one is split off and
  the rest waits.
  */
  ghost predicate CascadeEnds(q: Q, z: Q, err: Err)
    requires q.requests != [] && q.resumeRecursion <= SPLIT_RECURSION + 1
  {
    && SameElse(q, z) && |z.requests| <= |z.h.pushed| && (forall e | e in z.h.execs :: e < Completed(z))
    && if |q.requests| <= Room(q) then
         z.requests == [] && z.finalized == q.finalized && z.pool == q.pool && z.h.splits == q.h.splits
       else
         var r := q.requests[Room(q)];
         && z.requests == q.requests[Room(q) + 1..]
         && z.finalized == q.finalized + [r.(delayId := q.pool.lastid + 1)]
         && z.pool == q.pool.Added(Notify(r.id, ErrAt(q, err, Room(q)), true), None)
         && z.h.splits == q.h.splits + 1
  }

  lemma {:induction false} CascadeResult(q: Q, err: Err)
    requires Chain(q) && q.requests != [] && q.resumeRecursion <= SPLIT_RECURSION + 1 && Behind(q)
    ensures CascadeEnds(q, Cascaded(q, err), err)
    decreases |q.requests|
  {
    if q.resumeRecursion <= SPLIT_RECURSION {
      hide Chain, Cascaded, CascadeEnds;
      CascadeGoesOn(q, err);
      var x := HeadAnswered(q, err);
      AnsweredBehind(q, err);
      if x.requests == [] {
        LastEnds(q, err);
      } else {
        var e := x.requests[0].spec.mode.err;
        CascadeResult(Executed(x), e);
        InnerEnds(q, err, Cascaded(Executed(x), e));
      }
    }
  }

  lemma AnsweredBehind(q: Q, err: Err)
    requires Chain(q) && q.requests != [] && Behind(q)
    ensures var x := HeadAnswered(q, err);
            && Completed(x) == Completed(q) + 1 && x.pool == q.pool && x.requests == q.requests[1..]
            && (x.requests != [] ==> Behind(Executed(x)) && Executed(x).h.reexecs == q.h.reexecs)
  {
  }

  lemma LastEnds(q: Q, err: Err)
    requires Chain(q) && |q.requests| == 1 && Behind(q) && q.resumeRecursion <= SPLIT_RECURSION
    ensures CascadeEnds(q, Closed(HeadAnswered(q, err)), err)
  {
    AnsweredBehind(q, err);
    var x := HeadAnswered(q, err);
    assert x.h.frames[..|q.h.frames|] == q.h.frames;
  }

  lemma InnerEnds(q: Q, err: Err, d: Q)
    requires Chain(q) && |q.requests| > 1 && Behind(q) && q.resumeRecursion <= SPLIT_RECURSION
    requires var x := HeadAnswered(q, err);
             && x.requests != [] && x.requests[0].spec.mode.Completes? && d.h.frames == x.h.frames
             && CascadeEnds(Executed(x), d, x.requests[0].spec.mode.err)
    ensures CascadeEnds(q, Closed(d), err)
  {
    AnsweredBehind(q, err);
    var x := HeadAnswered(q, err);
    assert d.h.frames[..|q.h.frames|] == q.h.frames;
    if |q.requests| > Room(q) {
      assert x.requests[Room(q) - 1] == q.requests[Room(q)];
      assert x.requests[Room(q)..] == q.requests[Room(q) + 1..];
    }
  }

  // ---------------------------------------------------------------- filling a queue

  /** A new queue after these pushes. */
  ghost function Pile(specs: seq<Spec>): Q {
    if specs == [] then Empty() else PushDone(Pile(specs[..|specs| - 1]), specs[|specs| - 1])
  }

  ghost function Untold(n: nat): seq<seq<Err>> {
    seq(n, _ => [])
  }

  ghost function Queued(specs: seq<Spec>): seq<Request> {
    seq(|specs|, i requires 0 <= i < |specs| => Request(i, specs[i], true, 0, false))
  }

  /** A queue with these requests, of which only the first was executed. */
  ghost function Piled(specs: seq<Spec>): Q {
    Q(Queued(specs), [], 0, 0, None, 0, |specs|, Fresh(),
      NoHistory.(pushed := specs, told := Untold(|specs|), execs := [0]))
  }

  /** Behind a first request that stays in flight everything waits. */
  lemma {:induction false} PileShape(specs: seq<Spec>)
    requires specs != [] && specs[0].mode.InFlight?
    ensures Pile(specs) == Piled(specs)
  {
    var n := |specs| - 1;
    var init := specs[..n];
    assert specs == init + [specs[n]];
    if n > 0 {
      PileShape(init);
      NextPushed(init, specs[n]);
    } else {
      FirstPushed(specs[0]);
      assert init == [] && specs == [specs[0]];
    }
  }

  lemma NextPushed(init: seq<Spec>, spec: Spec)
    requires init != []
    ensures PushDone(Piled(init), spec) == Piled(init + [spec])
  {
    assert Queued(init + [spec]) == Queued(init) + [Request(|init|, spec, true, 0, false)];
    assert Untold(|init| + 1) == Untold(|init|) + [[]];
  }

  lemma FirstPushed(spec: Spec)
    requires spec.mode.InFlight?
    ensures PushDone(Empty(), spec) == Piled([spec])
  {
    var p := Pushed(Empty(), spec, false);
    assert p.h.execs == [] && !Started(p);
    assert Queued([spec]) == [Request(0, spec, true, 0, false)] && Untold(1) == [[]];
  }
}
