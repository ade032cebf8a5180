/** The request loop of `cancel`, and `cancel` as a whole. */
module CancelSteps {
  import opened Basics
  import opened Delayers
  import opened QueueModel
  import opened QueueRelations
  import opened QueueSteps

  // ---------------------------------------------------------------- one request

  /** Whether completing the head gets as far as a reset: only if its callback runs now. */
  ghost predicate HeadResets(a: Q)
    requires a.requests != []
  {
    a.resumeRecursion <= SPLIT_RECURSION && Resets(a.requests[0].spec.onNotify)
  }

  /** The head was completed under a lock, as cancelled unless it is `own`. */
  ghost predicate HeadGone(a: Q, b: Q, own: int)
    requires a.requests != []
  {
    && Inv(b) && Extends(a, b) && Under(a, b, HeadResets(a), own)
    && (!HeadResets(a) ==> Completed(b) == Completed(a) + 1 && b.cancelTill == Popped(a).cancelTill)
    && (!HeadResets(a) ==> Did(a, b, LoopDeeds(a, 1)))
  }

  /** What the callbacks of the first `k` requests do; nothing if they are delayed. */
  ghost function LoopDeeds(a: Q, k: nat): Deeds
    requires k <= |a.requests|
  {
    if a.resumeRecursion <= SPLIT_RECURSION then DoneBy(Callbacks(a.requests[..k])) else NOTHING
  }

  lemma OneDeed(a: Q)
    requires a.requests != []
    ensures a.resumeRecursion <= SPLIT_RECURSION ==> LoopDeeds(a, 1) == Does(a.requests[0].spec.onNotify)
  {
    CallbacksNext(a.requests, 0);
    assert Callbacks(a.requests[..0]) == [];
    PlusNothing(Does(a.requests[0].spec.onNotify));
  }

  lemma PlusNothing(d: Deeds)
    ensures Plus(NOTHING, d) == d
  {
  }

  lemma AnsweredFacts(a: Q, err: Err)
    requires Core(a, false) && a.requests != []
    ensures a.requests[0].id < |a.h.told|
    ensures Listed(Answered(a, err)) && ToldOnce(Answered(a, err)) && Completed(Answered(a, err)) == Completed(a) + 1
  {
    hide Timed, Serial, Counted, Marked;
    EnteredListed(a, err);
  }

  lemma AnsweredUnder(a: Q, err: Err, own: int)
    requires Core(a, false) && a.requests != [] && (a.resumeRecursion <= SPLIT_RECURSION ==> a.finalized == [])
    requires err == CancelErr(a.h, a.requests[0].id) || own == a.requests[0].id
    ensures a.requests[0].id < |a.h.told|
    ensures Under(a, Answered(a, err), false, own)
  {
    hide Timed, Serial, Counted, Marked, Ordered;
    AnsweredFacts(a, err);
    AnsweredOrdered(a, err);
  }

  lemma AnsweredOrdered(a: Q, err: Err)
    requires a.requests != [] && a.requests[0].id == Completed(a) < |a.h.told|
    requires Completed(Answered(a, err)) == Completed(a) + 1
    requires (a.resumeRecursion <= SPLIT_RECURSION ==> a.finalized == [])
    ensures Ordered(a, Answered(a, err))
  {
    assert a.h.said + Ids([]) + Span(Completed(a), 1) == a.h.said + [Completed(a)];
  }

  lemma DeferredUnder(a: Q, err: Err, own: int)
    requires Core(a, false) && a.requests != [] && a.resumeRecursion > SPLIT_RECURSION
    ensures Under(a, Deferred(a, err, true), false, own) && Completed(Deferred(a, err, true)) == Completed(a) + 1
  {
    hide Timed, Serial, Counted, Marked, ToldOnce;
  }

  lemma UnderOwn(a: Q, b: Q, swept: bool, own: int)
    requires Under(a, b, swept, -1)
    ensures Under(a, b, swept, own)
  {
  }

  lemma HeadGoneFrom(a: Q, b: Q, err: Err, own: int)
    requires Core(a, false) && a.requests != [] && a.locked > 0 && a.requests[0].id < |a.h.told|
    requires Finished(a, b, err) && (a.resumeRecursion <= SPLIT_RECURSION ==> a.finalized == [])
    requires err == CancelErr(a.h, a.requests[0].id) || own == a.requests[0].id
    ensures HeadGone(a, b, own) && a.h.thrown <= b.h.thrown
  {
    hide Core, Inv, Extends, Under, Did;
    ExtendsFacts(a, b);
    if a.resumeRecursion > SPLIT_RECURSION {
      DeferredUnder(a, err, own);
      PopLoses(a, false, err, true);
    } else {
      OneDeed(a);
      CoreAsyncHead(a);
      AnsweredFacts(a, err);
      AnsweredUnder(a, err, own);
      CoreSerial(a, false);
      var n := Answered(a, err);
      var resets := Resets(a.requests[0].spec.onNotify);
      UnderOwn(n, b, resets, own);
      ExtendsFacts(n, b);
      UnderTransitive(a, n, b, false, resets, own);
    }
  }

  lemma HeadCancels(a: Q, b: Q, own: int)
    requires a.requests != [] && HeadGone(a, b, own)
    ensures a.h.cancels <= b.h.cancels && (HeadResets(a) ==> a.h.cancels < b.h.cancels) && a.h.thrown <= b.h.thrown
  {
    hide Inv, OnlyCancelled, Ordered, Did;
  }

  /** Under a lock, and without a reset, the head's own exception is the only one. */
  lemma HeadThrown(a: Q, b: Q, own: int, threw: bool)
    requires Core(a, false) && a.requests != [] && a.locked > 0 && HeadGone(a, b, own) && Rethrows(a, threw)
    ensures b.h.cancels == a.h.cancels ==> (threw <==> a.h.thrown < b.h.thrown)
    ensures a.h.cancels <= b.h.cancels
  {
    hide Core, Inv, Extends, Under, LoopDeeds, Users;
    HeadCancels(a, b, own);
    CoreAsyncHead(a);
    OneDeed(a);
    if !HeadResets(a) {
      if a.resumeRecursion <= SPLIT_RECURSION {
        ThrowsOnce(a.requests[0].spec.onNotify);
      } else {
        assert LoopDeeds(a, 1) == NOTHING by { NoDeed(a); }
      }
    }
  }

  lemma NoDeed(a: Q)
    requires a.requests != [] && a.resumeRecursion > SPLIT_RECURSION
    ensures LoopDeeds(a, 1) == NOTHING
  {
  }

  // ---------------------------------------------------------------- the loop

  /** How many of the queued requests the loop is after. */
  ghost function Aim(a: Q): nat
    requires a.cancelTill.Some? && Completed(a) <= a.cancelTill.value
  {
    a.cancelTill.value + 1 - Completed(a)
  }

  /** Whether the loop's own callbacks get as far as a reset. */
  ghost predicate LoopResets(a: Q, k: nat)
    requires k <= |a.requests|
  {
    a.resumeRecursion <= SPLIT_RECURSION && AnyResets(a.requests[..k])
  }

  /** `k` requests have been cancelled. */
  ghost predicate Looping(a: Q, c: Q, k: nat, swept: bool, own: int)
    requires a.cancelTill.Some? && Completed(a) <= a.cancelTill.value
  {
    && Inv(c) && Extends(a, c) && Under(a, c, swept, own)
    && k <= Aim(a) <= |a.requests| && swept == LoopResets(a, k)
    && (!swept ==> Completed(c) == Completed(a) + k && c.cancelTill == if k < Aim(a) then a.cancelTill else None)
    && (!swept ==> Did(a, c, LoopDeeds(a, k)))
  }

  lemma LoopBegins(a: Q, own: int)
    requires Inv(a) && a.cancelTill.Some?
    ensures Completed(a) <= a.cancelTill.value && Looping(a, a, 0, false, own)
  {
    hide Listed, ToldOnce, Timed, Serial, Marked;
    InvFacts(a);
    ExtendsItself(a);
    CoreSerial(a, false);
    assert a.requests[..0] == [];
    assert Callbacks(a.requests[..0]) == [];
    assert Aim(a) <= |a.requests| by { LengthOf(a); }
  }

  lemma LengthOf(a: Q)
    requires Listed(a)
    ensures |a.h.pushed| == Completed(a) + |a.requests|
  {
  }

  /** The head the loop meets is the one that was queued there when it began. */
  lemma LoopHead(a: Q, c: Q, k: nat, own: int)
    requires Inv(a) && a.cancelTill.Some? && Completed(a) <= a.cancelTill.value
    requires Looping(a, c, k, false, own) && c.cancelTill.Some?
    ensures k < Aim(a) && c.requests != [] && c.requests[0].spec == a.requests[k].spec
    ensures c.requests[0].id == Completed(a) + k && c.cancelTill == a.cancelTill
    ensures c.requests[0].timedOut <==> c.requests[0].id in c.h.flagged
  {
    hide ToldOnce, Timed, Serial, Marked, Under;
  }

  lemma LoopStep(a: Q, c: Q, d: Q, k: nat, own: int)
    requires Inv(a) && a.cancelTill.Some? && Completed(a) <= a.cancelTill.value
    requires Looping(a, c, k, false, own) && c.cancelTill.Some? && c.requests != []
    requires HeadGone(c, d, own)
    ensures k < Aim(a) <= |a.requests|
    ensures Looping(a, d, k + 1, HeadResets(c), own) && c.h.thrown <= d.h.thrown
  {
    hide Inv, Extends, Under, Did, LoopDeeds;
    LoopHead(a, c, k, own);
    InvFacts(a);
    InvFacts(c);
    ExtendsFacts(a, c);
    ExtendsFacts(c, d);
    ExtendsTransitive(a, c, d);
    UnderTransitive(a, c, d, false, HeadResets(c), own);
    AnyResetsNext(a.requests, k);
    UnderFacts(a, c, false, own);
    if !HeadResets(c) {
      LoopDeed(a, c, k);
      DidTransitive(a, c, d, LoopDeeds(a, k), LoopDeeds(c, 1));
    }
  }

  lemma LoopDeed(a: Q, c: Q, k: nat)
    requires k < |a.requests| && c.requests != [] && c.requests[0].spec == a.requests[k].spec
    requires c.resumeRecursion == a.resumeRecursion
    ensures Plus(LoopDeeds(a, k), LoopDeeds(c, 1)) == LoopDeeds(a, k + 1)
  {
    hide Callbacks;
    OneDeed(c);
    CallbacksNext(a.requests, k);
  }

  lemma UnderFacts(a: Q, b: Q, swept: bool, own: int)
    requires Under(a, b, swept, own)
    ensures b.resumeRecursion == a.resumeRecursion && b.h.flagged == a.h.flagged
    ensures swept ==> b.cancelTill == None
  {
  }

  lemma LoopingFacts(a: Q, c: Q, k: nat, swept: bool, own: int)
    requires a.cancelTill.Some? && Completed(a) <= a.cancelTill.value
    requires Looping(a, c, k, swept, own)
    ensures Inv(c) && c.locked == a.locked && a.h.thrown <= c.h.thrown && Core(c, false)
    ensures swept ==> c.cancelTill == None
    ensures c.cancelTill.Some? ==> Completed(a) + k <= c.cancelTill.value
    ensures c.requests != [] ==> c.requests[0].id < |c.h.told|
    ensures c.resumeRecursion == a.resumeRecursion
    ensures (a.resumeRecursion <= SPLIT_RECURSION && a.finalized == [] ==> c.finalized == [])
  {
    hide ToldOnce, Timed, Serial;
  }

  /** After it: the target is met, or some callback reset the queue and that went further. */
  ghost predicate Looped(a: Q, b: Q, own: int)
    requires a.cancelTill.Some? && Completed(a) <= a.cancelTill.value
  {
    && Inv(b) && Extends(a, b) && b.cancelTill == None && Aim(a) <= |a.requests|
    && Under(a, b, LoopResets(a, Aim(a)), own)
    && (!LoopResets(a, Aim(a)) ==> Completed(b) == a.cancelTill.value + 1 && Did(a, b, LoopDeeds(a, Aim(a))))
  }

  lemma LoopEnds(a: Q, b: Q, k: nat, swept: bool, own: int)
    requires a.cancelTill.Some? && Completed(a) <= a.cancelTill.value
    requires Looping(a, b, k, swept, own) && b.cancelTill == None
    ensures Looped(a, b, own)
  {
    hide Inv, Extends, Under, Did, LoopDeeds;
    if swept {
      var i :| 0 <= i < k && Resets(a.requests[..k][i].spec.onNotify);
      assert a.requests[..Aim(a)][i] == a.requests[..k][i];
    }
  }

  // ---------------------------------------------------------------- cancel

  /** The action before the requests are cancelled: none, or the failure of the connect that is first. */
  datatype Pre = NoPre | FailConnect(req: nat, err: Err)

  /** The action after: tearing the stream down, or timing out the shutdown that is first by then. */
  datatype Post = Teardown | Expire(req: nat)

  ghost function Own(pre: Pre): int {
    if pre.FailConnect? then pre.req else -1
  }

  /** Everything before this position is to be cancelled. */
  ghost function Target(a: Q, till: Option<nat>): nat {
    if till.Some? then till.value + 1 else |a.h.pushed|
  }

  /** Some request in a range of positions has a callback that resets. */
  ghost predicate RangeResets(pushed: seq<Spec>, lo: nat, hi: nat) {
    exists id | lo <= id < hi && id < |pushed| :: Resets(pushed[id].onNotify)
  }

  /** The callbacks of the requests at these positions. */
  ghost function CallbacksOf(pushed: seq<Spec>, lo: nat, hi: nat): seq<Script>
    requires lo <= hi <= |pushed|
  {
    seq(hi - lo, i requires 0 <= i < hi - lo => pushed[lo + i].onNotify)
  }

  /** The callbacks a cancel that gets to position `n` runs: the delayed ones, then, with room, the queued ones. */
  ghost function CalledTo(a: Q, n: nat): seq<Script>
    requires Completed(a) <= n <= |a.h.pushed|
  {
    Callbacks(a.finalized)
    + if a.resumeRecursion <= SPLIT_RECURSION then CallbacksOf(a.h.pushed, Completed(a), n) else []
  }

  /** Whether a callback this cancel runs itself gets as far as a reset: a caller can tell beforehand. */
  ghost predicate CallbacksReset(a: Q, till: Option<nat>) {
    || AnyResets(a.finalized)
    || (a.resumeRecursion <= SPLIT_RECURSION && RangeResets(a.h.pushed, Completed(a), Target(a, till)))
  }

  /**
  A timeout of a shutdown cancels what is before it and then the shutdown; everything else is for the
  whole queue.
  */
  ghost predicate CancelAllowed(a: Q, pre: Pre, post: Post, till: Option<nat>) {
    && (pre.FailConnect? ==> a.requests != [] && pre.req == Completed(a) && till == None)
    && (post.Expire? <==> till.Some?)
    && (till.Some? ==>
          && a.locked == 0 && Completed(a) <= till.value && till.value + 1 < |a.h.pushed|
          && post.req == till.value + 1 && post.req in a.h.flagged)
  }

  lemma RangeOf(c: Q, k: nat)
    requires Listed(c) && k <= |c.requests|
    ensures AnyResets(c.requests[..k]) <==> RangeResets(c.h.pushed, Completed(c), Completed(c) + k)
  {
    var n := Completed(c);
    if AnyResets(c.requests[..k]) {
      var i :| 0 <= i < k && Resets(c.requests[..k][i].spec.onNotify);
      assert c.requests[i].spec == c.h.pushed[n + i];
    }
    if RangeResets(c.h.pushed, n, n + k) {
      var id :| n <= id < n + k && id < |c.h.pushed| && Resets(c.h.pushed[id].onNotify);
      assert c.requests[..k][id - n].spec == c.h.pushed[id];
    }
  }

  lemma CancelBegunKeeps(a: Q, till: Option<nat>)
    requires Inv(a) && (till.Some? ==> Completed(a) <= till.value < |a.h.pushed|)
    ensures Inv(CancelBegun(a, till)) && Completed(CancelBegun(a, till)) == Completed(a)
    ensures var c := CancelBegun(a, till);
            && c.locked > 0 && (c.cancelTill.Some? <==> a.requests != [])
            && (c.cancelTill.Some? ==> c.cancelTill.value + 1 == Target(a, till))
  {
    hide Listed, ToldOnce, Timed, Serial;
    var c := CancelBegun(a, till);
    FramePushed(a.h.frames, InCancel);
    LastId(a);
    assert Listed(c) && ToldOnce(c) && Serial(c) by { BegunListed(a, till); }
  }

  lemma LastId(a: Q)
    requires Inv(a)
    ensures a.requests != [] ==> a.requests[|a.requests| - 1].id == |a.h.pushed| - 1
    ensures a.requests == [] ==> Completed(a) == |a.h.pushed|
    ensures |a.h.pushed| == Completed(a) + |a.requests|
  {
    hide Timed, ToldOnce;
  }

  lemma BegunListed(a: Q, till: Option<nat>)
    requires Inv(a)
    ensures var c := CancelBegun(a, till); Listed(c) && ToldOnce(c) && Serial(c)
  {
    hide Timed;
  }

  /** After `fpre`: the failing connect, if it is still there, has been told its own error. */
  ghost predicate Prepared(b: Q, p: Q, pre: Pre) {
    if pre.FailConnect? && b.requests != [] && b.requests[0].id == pre.req then
      && HeadGone(b, p, pre.req)
      && (b.resumeRecursion <= SPLIT_RECURSION ==> pre.req < |p.h.told| && [pre.err] <= p.h.told[pre.req])
    else p == b
  }

  /** After the loop, if there was anything for it to do. */
  ghost predicate LoopedIfNeeded(p: Q, d: Q, own: int) {
    if p.requests != [] && p.cancelTill.Some? then
      Completed(p) <= p.cancelTill.value && Looped(p, d, own)
    else d == p
  }

  /** The first three phases together. */
  ghost predicate Decided(a: Q, d: Q, pre: Pre, till: Option<nat>) {
    var c := CancelBegun(a, till);
    && Inv(d) && Extends(c, d) && d.cancelTill == None
    && Under(c, d, CallbacksReset(a, till), Own(pre))
    && (d.resumeRecursion <= SPLIT_RECURSION ==> d.finalized == [])
    && Completed(a) <= Target(a, till) <= |a.h.pushed|
    && (!CallbacksReset(a, till) ==>
          Completed(d) == Target(a, till) && Did(c, d, DoneBy(CalledTo(a, Target(a, till)))))
  }

  /** What was delayed has been told first, in its order, and then everything that was completed since, in its order. */
  ghost predicate InOrder(a: Q, b: Q) {
    && Completed(a) <= Completed(b)
    && b.h.said == a.h.said + Ids(a.finalized) + Span(Completed(a), Completed(b) - Completed(a))
  }

  lemma OrderedAll(a: Q, b: Q)
    requires Ordered(a, b) && a.resumeRecursion <= SPLIT_RECURSION && b.finalized == []
    ensures InOrder(a, b)
  {
    assert a.finalized[..|a.finalized|] == a.finalized;
  }

  /** No delayed callback reset, and the cancel has got to position `n` by itself or was overtaken by a reset. */
  ghost predicate Reached(a: Q, p: Q, n: nat, own: int, till: Option<nat>) {
    var c := CancelBegun(a, till);
    var swept := a.resumeRecursion <= SPLIT_RECURSION && RangeResets(a.h.pushed, Completed(a), n);
    && Inv(p) && Extends(c, p) && Under(c, p, swept, own)
    && Completed(a) <= n <= Target(a, till) <= |a.h.pushed|
    && (p.resumeRecursion <= SPLIT_RECURSION ==> p.finalized == [])
    && (swept ==> p.cancelTill == None)
    && (!swept ==> Completed(p) == n && p.cancelTill == if n < Target(a, till) then Some(Target(a, till) - 1) else None)
    && (!swept ==> Did(c, p, DoneBy(CalledTo(a, n))))
  }

  lemma ReachedFirst(a: Q, b: Q, own: int, till: Option<nat>)
    requires Inv(a) && (till.Some? ==> Completed(a) <= till.value < |a.h.pushed|)
    requires Drained(CancelBegun(a, till), b) && !AnyResets(a.finalized)
    ensures Reached(a, b, Completed(a), own, till)
  {
    hide Inv, Extends, Under, Did;
    CancelBegunKeeps(a, till);
    LastId(a);
    UnderOwn(CancelBegun(a, till), b, false, own);
    assert CalledTo(a, Completed(a)) == Callbacks(a.finalized);
    assert !RangeResets(a.h.pushed, Completed(a), Completed(a));
  }

  lemma RangeNext(pushed: seq<Spec>, lo: nat, mid: nat, hi: nat)
    requires lo <= mid <= hi
    ensures RangeResets(pushed, lo, hi) <==> RangeResets(pushed, lo, mid) || RangeResets(pushed, mid, hi)
  {
  }

  /** Prefixes agree on a range they both have. */
  lemma RangeSame(s: seq<Spec>, t: seq<Spec>, lo: nat, hi: nat)
    requires s <= t && hi <= |s|
    ensures RangeResets(s, lo, hi) <==> RangeResets(t, lo, hi)
  {
    forall id | lo <= id < hi ensures s[id] == t[id] {}
    if RangeResets(s, lo, hi) {
      var id :| lo <= id < hi && id < |s| && Resets(s[id].onNotify);
      assert Resets(t[id].onNotify);
    }
    if RangeResets(t, lo, hi) {
      var id :| lo <= id < hi && id < |t| && Resets(t[id].onNotify);
      assert Resets(s[id].onNotify);
    }
  }

  lemma LoopRange(a: Q, p: Q, n: nat, k: nat)
    requires Listed(p) && k <= |p.requests| && a.h.pushed <= p.h.pushed && n == Completed(p) && n + k <= |a.h.pushed|
    requires p.resumeRecursion == a.resumeRecursion
    ensures LoopResets(p, k) <==> a.resumeRecursion <= SPLIT_RECURSION && RangeResets(a.h.pushed, n, n + k)
  {
    hide Listed, RangeResets, AnyResets;
    RangeOf(p, k);
    RangeSame(a.h.pushed, p.h.pushed, n, n + k);
  }

  lemma ReachedMore(a: Q, p: Q, d: Q, n: nat, k: nat, own: int, till: Option<nat>)
    requires Inv(a) && (till.Some? ==> Completed(a) <= till.value < |a.h.pushed|)
    requires Reached(a, p, n, own, till) && p.cancelTill.Some? && n + k <= Target(a, till)
    requires Inv(d) && Extends(p, d) && k <= |p.requests| && Under(p, d, LoopResets(p, k), own)
    requires LoopResets(p, k) ==> d.cancelTill == None
    requires !LoopResets(p, k) ==>
               && Completed(d) == n + k && (d.cancelTill == if n + k < Target(a, till) then p.cancelTill else None)
               && Did(p, d, LoopDeeds(p, k))
    ensures Reached(a, d, n + k, own, till)
  {
    hide Inv, Extends, Under, Did, LoopDeeds, CalledTo, CallbacksOf, LoopResets, RangeResets;
    var c := CancelBegun(a, till);
    CancelBegunKeeps(a, till);
    InvFacts(c);
    InvFacts(p);
    ExtendsFacts(c, p);
    ExtendsFacts(p, d);
    ExtendsTransitive(c, p, d);
    UnderTransitive(c, p, d, false, LoopResets(p, k), own);
    UnderFacts(c, p, false, own);
    UnderFacts(p, d, LoopResets(p, k), own);
    ExtendsPushed(c, p);
    LoopRange(a, p, n, k);
    RangeNext(a.h.pushed, Completed(a), n, n + k);
    UnderFinalized(p, d, LoopResets(p, k), own);
    if !LoopResets(p, k) {
      CalledMore(a, p, n, k);
      DidTransitive(c, p, d, DoneBy(CalledTo(a, n)), LoopDeeds(p, k));
    }
  }

  /** The first requests of a queue that got to position `n` are those pushed from there on. */
  lemma CalledMore(a: Q, p: Q, n: nat, k: nat)
    requires Listed(p) && Completed(p) == n && k <= |p.requests| && a.h.pushed <= p.h.pushed
    requires Completed(a) <= n && n + k <= |a.h.pushed| && p.resumeRecursion == a.resumeRecursion
    ensures Plus(DoneBy(CalledTo(a, n)), LoopDeeds(p, k)) == DoneBy(CalledTo(a, n + k))
  {
    hide Listed, DoneBy, Callbacks, CallbacksOf;
    if a.resumeRecursion <= SPLIT_RECURSION {
      var s := Callbacks(p.requests[..k]);
      QueuedCallbacks(p, k);
      RangeJoined(a.h.pushed, p.h.pushed, Completed(a), n, n + k);
      assert CalledTo(a, n + k) == CalledTo(a, n) + s;
      DoneByAppend(CalledTo(a, n), s);
    }
  }

  lemma QueuedCallbacks(p: Q, k: nat)
    requires Listed(p) && k <= |p.requests|
    ensures Completed(p) + k <= |p.h.pushed|
    ensures Callbacks(p.requests[..k]) == CallbacksOf(p.h.pushed, Completed(p), Completed(p) + k)
  {
  }

  lemma RangeJoined(s: seq<Spec>, t: seq<Spec>, lo: nat, mid: nat, hi: nat)
    requires s <= t && lo <= mid <= hi <= |s|
    ensures CallbacksOf(s, lo, hi) == CallbacksOf(s, lo, mid) + CallbacksOf(t, mid, hi)
  {
  }

  lemma ExtendsPushed(a: Q, b: Q)
    requires Extends(a, b)
    ensures a.h.pushed <= b.h.pushed
  {
  }

  lemma UnderFinalized(p: Q, d: Q, swept: bool, own: int)
    requires Under(p, d, swept, own)
    ensures d.resumeRecursion <= SPLIT_RECURSION && p.finalized == [] ==> d.finalized == []
  {
  }

  lemma HeadIsRange(b: Q)
    requires b.requests != []
    ensures LoopResets(b, 1) <==> HeadResets(b)
  {
    assert b.requests[..1] == [b.requests[0]];
    if Resets(b.requests[0].spec.onNotify) {
      assert Resets(b.requests[..1][0].spec.onNotify);
    }
  }

  lemma ReachedConnect(a: Q, b: Q, p: Q, pre: Pre)
    requires Inv(a) && CancelAllowed(a, pre, Teardown, None) && pre.FailConnect?
    requires Reached(a, b, Completed(a), pre.req, None) && b.requests != [] && HeadGone(b, p, pre.req)
    ensures Reached(a, p, Completed(a) + 1, pre.req, None)
  {
    hide Inv, Extends, Under, Did, LoopDeeds, CalledTo;
    LastId(a);
    InvFacts(b);
    HeadIsRange(b);
    assert !RangeResets(a.h.pushed, Completed(a), Completed(a));
    if HeadResets(b) {
      UnderFacts(b, p, true, pre.req);
    }
    assert b.requests[0].id == Completed(b);
    ReachedMore(a, b, p, Completed(a), 1, pre.req, None);
  }

  lemma ReachedEnd(a: Q, p: Q, d: Q, n: nat, own: int, till: Option<nat>)
    requires Inv(a) && (till.Some? ==> Completed(a) <= till.value < |a.h.pushed|)
    requires Reached(a, p, n, own, till) && LoopedIfNeeded(p, d, own)
    ensures Reached(a, d, Target(a, till), own, till)
  {
    hide Inv, Extends, Under, Did, LoopDeeds, CalledTo;
    InvFacts(p);
    if p.cancelTill.Some? {
      TillQueued(p);
      if LoopResets(p, Aim(p)) {
        UnderFacts(p, d, true, own);
      }
      ReachedMore(a, p, d, n, Aim(p), own, till);
    } else {
      RangeNext(a.h.pushed, Completed(a), n, Target(a, till));
      if !(a.resumeRecursion <= SPLIT_RECURSION && RangeResets(a.h.pushed, Completed(a), n)) {
        assert n == Target(a, till);
      }
    }
  }

  lemma TillQueued(p: Q)
    requires Inv(p) && p.cancelTill.Some?
    ensures p.requests != [] && Completed(p) <= p.cancelTill.value < |p.h.pushed|
  {
    hide ToldOnce, Timed, Serial, Marked;
  }

  /** A delayed callback that resets overtakes the whole cancel, and a failing connect with it. */
  lemma DrainOvertaken(a: Q, b: Q, till: Option<nat>)
    requires Inv(a) && (till.Some? ==> Completed(a) <= till.value < |a.h.pushed|)
    requires Drained(CancelBegun(a, till), b) && AnyResets(a.finalized)
    ensures b.cancelTill == None
    ensures b.requests != [] ==> b.requests[0].id >= |a.h.pushed|
  {
    hide ToldOnce, Timed, Serial, Marked, OnlyCancelled, Extends;
  }

  lemma DecidedFrom(a: Q, b: Q, p: Q, d: Q, pre: Pre, post: Post, till: Option<nat>)
    requires Inv(a) && CancelAllowed(a, pre, post, till)
    requires Drained(CancelBegun(a, till), b) && Prepared(b, p, pre) && LoopedIfNeeded(p, d, Own(pre))
    ensures Decided(a, d, pre, till)
    ensures AnyResets(a.finalized) ==> d == b
    ensures !AnyResets(a.finalized) && pre.FailConnect? ==> b.requests != [] && b.requests[0].id == pre.req
  {
    hide Inv, Extends, Under, Did, CalledTo;
    if AnyResets(a.finalized) {
      DrainOvertaken(a, b, till);
      LastId(a);
      UnderOwn(CancelBegun(a, till), b, true, Own(pre));
    } else {
      ReachedFirst(a, b, Own(pre), till);
      if pre.FailConnect? {
        LastId(a);
        ConnectFirst(a, b, pre);
        ReachedConnect(a, b, p, pre);
        ReachedEnd(a, p, d, Completed(a) + 1, Own(pre), till);
      } else {
        ReachedEnd(a, p, d, Completed(a), Own(pre), till);
      }
    }
  }

  /** When the delayed callbacks are done the failing connect is gone if and only if one of them reset the queue. */
  lemma GoneIff(a: Q, b: Q, pre: Pre)
    requires Inv(a) && CancelAllowed(a, pre, Teardown, None) && pre.FailConnect?
    requires Drained(CancelBegun(a, None), b)
    ensures (b.requests == [] || b.requests[0].id != pre.req) <==> AnyResets(a.finalized)
  {
    hide Inv, Extends, Under, Drained, AnyResets;
    if AnyResets(a.finalized) {
      DrainOvertaken(a, b, None);
      LastId(a);
    } else {
      ReachedFirst(a, b, pre.req, None);
      ConnectFirst(a, b, pre);
    }
  }

  lemma ConnectFirst(a: Q, b: Q, pre: Pre)
    requires Inv(a) && CancelAllowed(a, pre, Teardown, None) && pre.FailConnect?
    requires Reached(a, b, Completed(a), pre.req, None)
    ensures b.requests != [] && b.requests[0].id == pre.req
  {
    hide ToldOnce, Timed, Serial, Marked, OnlyCancelled;
    LastId(a);
    assert !RangeResets(a.h.pushed, Completed(a), Completed(a));
  }

  // ---------------------------------------------------------------- the end of cancel

  ghost function CancelEnded(e: Q): Q
    requires e.h.frames != []
  {
    Closed(e.(cancelTill := None))
  }

  ghost function Bumped(q: Q): Q {
    q.(cancelGen := q.cancelGen + 1)
  }

  /**
  `cancel` is about to resume.  Nothing was executed meanwhile; everything up to the target, and
  whatever was delayed, is completed and reported as cancelled; and some teardown has run.
  */
  ghost predicate Cancelled(a: Q, m: Q, pre: Pre, post: Post, till: Option<nat>) {
    && Core(m, false) && !Started(m) && Extends(a, m)
    && m.h.execs == a.h.execs && m.h.reexecs == a.h.reexecs
    && m.h.leak == a.h.leak && m.resumeRecursion == a.resumeRecursion
    && OnlyCancelled(a, m, Own(pre)) && Ordered(a, m)
    && m.cancelTill == None && a.h.cancels < m.h.cancels
    && Target(a, till) <= Completed(m)
    && (m.resumeRecursion <= SPLIT_RECURSION ==> m.finalized == [])
    && (post.Teardown? ==> TornDown(a, m, pre, till))
    && (post.Expire? ==> Expired(a, m, post.req, till))
  }

  /** Its own teardown ran if and only if no callback it ran reset the queue; then nothing further is cancelled. */
  ghost predicate TornDown(a: Q, m: Q, pre: Pre, till: Option<nat>) {
    && Under(a, m, true, Own(pre))
    && (CallbacksReset(a, till) <==> a.h.cancels + 1 < m.h.cancels)
    && Completed(a) <= Target(a, till) <= |a.h.pushed|
    && (!CallbacksReset(a, till) ==>
          && m.cancelGen == a.cancelGen + 1 && Completed(m) == Target(a, till)
          && Did(a, m, DoneBy(CalledTo(a, Target(a, till)))))
  }

  /** The shutdown is completed too; what is behind it only if some callback reset the queue. */
  ghost predicate Expired(a: Q, m: Q, req: nat, till: Option<nat>) {
    && req < Completed(m) && Completed(a) <= req < |a.h.pushed|
    && if Overtaken(a, Expire(req), till)
       then |a.h.pushed| <= Completed(m) && a.h.cancels + 1 < m.h.cancels
       else
         && Completed(m) == req + 1 && m.h.cancels == a.h.cancels + 1
         && Did(a, m, DoneBy(CalledTo(a, req + 1)))
  }

  /** Whether any callback of this cancel, that of the shutdown it times out included, resets the queue. */
  ghost predicate Overtaken(a: Q, post: Post, till: Option<nat>) {
    || CallbacksReset(a, till)
    || (post.Expire? && post.req < |a.h.pushed| && a.resumeRecursion <= SPLIT_RECURSION
        && Resets(a.h.pushed[post.req].onNotify))
  }

  /** Closing the cancel's frame after any run of phases under its lock. */
  lemma EndedKeeps(a: Q, e: Q, swept: bool, own: int, till: Option<nat>)
    requires Inv(a) && (till.Some? ==> Completed(a) <= till.value < |a.h.pushed|)
    requires Inv(e) && Extends(CancelBegun(a, till), e) && Under(CancelBegun(a, till), e, swept, own)
    requires Target(a, till) <= Completed(e)
    ensures e.h.frames != [] && e.h.frames[|e.h.frames| - 1] == InCancel && e.locked > 0
    ensures var m := CancelEnded(e);
            && Core(m, false) && !Started(m) && Extends(a, m) && Completed(m) == Completed(e)
            && OnlyCancelled(a, m, own) && Ordered(a, m)
  {
    hide Listed, ToldOnce, Timed, Serial, Marked, OnlyCancelled, Ordered;
    var c := CancelBegun(a, till);
    var m := CancelEnded(e);
    assert c.h.frames[..|a.h.frames|] == a.h.frames;
    FramePushed(a.h.frames, InCancel);
    var x := e.(cancelTill := None);
    assert Core(x, false) by { DroppedTill(e); }
    ReframedCore(x, m);
    assert !Started(m) by { EndedNotStarted(a, e, m, till); }
    assert OnlyCancelled(a, m, own) by { EndedTold(a, c, e, m, own); }
    OrderedAlike(c, e, a, m);
  }

  lemma DroppedTill(e: Q)
    requires Core(e, false)
    ensures Core(e.(cancelTill := None), false)
  {
    hide Timed;
  }

  lemma EndedTold(a: Q, c: Q, e: Q, m: Q, own: int)
    requires OnlyCancelled(c, e, own) && a.h.told == c.h.told && m.h.told == e.h.told && m.h.flagged == e.h.flagged
    requires a.resumeRecursion == c.resumeRecursion && Completed(a) == Completed(c)
    ensures OnlyCancelled(a, m, own)
  {
  }

  lemma EndedNotStarted(a: Q, e: Q, m: Q, till: Option<nat>)
    requires Inv(a) && (till.Some? ==> Completed(a) <= till.value) && m.h.execs == a.h.execs
    requires Completed(m) == Completed(e) >= Target(a, till)
    ensures Completed(m) !in m.h.execs
  {
    hide ToldOnce, Timed, Marked;
  }

  lemma CancelledTeardown(a: Q, d: Q, pre: Pre, ran: bool)
    requires Inv(a) && CancelAllowed(a, pre, Teardown, None) && Decided(a, d, pre, None)
    requires ran <==> d.cancelGen == a.cancelGen
    ensures ran <==> !CallbacksReset(a, None)
    ensures d.h.frames != [] && d.h.frames[|d.h.frames| - 1] == InCancel && d.locked > 0
    ensures Cancelled(a, CancelEnded(if ran then Bumped(d) else d), pre, Teardown, None)
  {
    hide Core, OnlyCancelled, Ordered, AnyResets, RangeResets, Did, CalledTo, NothingLost;
    EndedKeeps(a, d, CallbacksReset(a, None), Own(pre), None);
    var m, n := CancelEnded(d), CancelEnded(Bumped(d));
    assert n == Bumped(m);
    BumpedKeeps(a, m, Own(pre));
    DidEnded(a, d, DoneBy(CalledTo(a, Target(a, None))), None);
  }

  lemma DidEnded(a: Q, e: Q, d: Deeds, till: Option<nat>)
    requires e.h.frames != []
    ensures Did(CancelBegun(a, till), e, d) ==> Did(a, CancelEnded(e), d) && Did(a, CancelEnded(Bumped(e)), d)
  {
    hide Users;
  }

  lemma BumpedKeeps(a: Q, m: Q, own: int)
    requires Core(m, false) && Extends(a, m) && OnlyCancelled(a, m, own) && Ordered(a, m)
    ensures Core(Bumped(m), false) && Extends(a, Bumped(m)) && OnlyCancelled(a, Bumped(m), own) && Ordered(a, Bumped(m))
    ensures Completed(Bumped(m)) == Completed(m) && Started(Bumped(m)) == Started(m)
  {
    hide Timed;
  }

  /** With no reset on the way, the shutdown to time out is first when its turn comes. */
  lemma ExpireFirst(a: Q, d: Q, post: Post, till: Option<nat>)
    requires Inv(a) && CancelAllowed(a, NoPre, post, till) && post.Expire? && Decided(a, d, NoPre, till)
    requires d.cancelGen == a.cancelGen
    ensures !CallbacksReset(a, till)
    ensures d.requests != [] && d.requests[0].id == post.req && d.requests[0].id in d.h.flagged
    ensures d.locked > 0 && Core(d, false) && d.requests[0].id < |d.h.told|
    ensures d.resumeRecursion <= SPLIT_RECURSION ==> d.finalized == []
  {
    hide ToldOnce, Timed, Serial, Marked, OnlyCancelled, Ordered, CallbacksReset;
  }

  ghost function PostEnded(d: Q, e: Q, ran: bool, threw: bool): Q {
    if !ran then d else if threw then e else Bumped(e)
  }

  lemma CancelledExpire(a: Q, d: Q, e: Q, post: Post, till: Option<nat>, ran: bool, threw: bool)
    requires Inv(a) && CancelAllowed(a, NoPre, post, till) && post.Expire? && Decided(a, d, NoPre, till)
    requires ran <==> d.cancelGen == a.cancelGen
    requires ran ==> d.requests != [] && d.requests[0].id == post.req && HeadGone(d, e, -1)
    ensures ran <==> !CallbacksReset(a, till)
    ensures var x := PostEnded(d, e, ran, threw);
            && x.h.frames != [] && x.h.frames[|x.h.frames| - 1] == InCancel && x.locked > 0
            && Cancelled(a, CancelEnded(x), NoPre, post, till)
  {
    hide Inv, Cancelled, Decided, HeadGone, CallbacksReset;
    if ran {
      ExpireRan(a, d, e, post, till);
      assert CancelEnded(Bumped(e)) == Bumped(CancelEnded(e));
      CancelledBumped(a, CancelEnded(e), post, till);
    } else {
      ExpireOvertaken(a, d, post, till);
    }
  }

  lemma CancelledBumped(a: Q, m: Q, post: Post, till: Option<nat>)
    requires Cancelled(a, m, NoPre, post, till) && post.Expire?
    ensures Cancelled(a, Bumped(m), NoPre, post, till)
  {
    hide Core, Extends, OnlyCancelled, Ordered, CallbacksReset, Users, CalledTo;
    BumpedKeeps(a, m, -1);
  }

  /** No callback reset: the shutdown was completed as post action. */
  lemma ExpireRan(a: Q, d: Q, e: Q, post: Post, till: Option<nat>)
    requires Inv(a) && CancelAllowed(a, NoPre, post, till) && post.Expire? && Decided(a, d, NoPre, till)
    requires d.cancelGen == a.cancelGen
    requires d.requests != [] && d.requests[0].id == post.req && HeadGone(d, e, -1)
    ensures !CallbacksReset(a, till)
    ensures e.h.frames != [] && e.h.frames[|e.h.frames| - 1] == InCancel && e.locked > 0
    ensures Cancelled(a, CancelEnded(e), NoPre, post, till)
  {
    hide Core, Inv, OnlyCancelled, Ordered, AnyResets, RangeResets, Decided, HeadGone, Extends, Did, CalledTo;
    ExpireFirst(a, d, post, till);
    ExpireGone(a, d, e, post, till);
    EndedKeeps(a, e, HeadResets(d), -1, till);
    ExpireCount(a, d, e, post, till);
    if !HeadResets(d) {
      ExpireDid(a, d, e, post, till);
      DidEnded(a, e, DoneBy(CalledTo(a, post.req + 1)), till);
    }
  }

  lemma ExpireDid(a: Q, d: Q, e: Q, post: Post, till: Option<nat>)
    requires Inv(a) && CancelAllowed(a, NoPre, post, till) && post.Expire? && Decided(a, d, NoPre, till)
    requires !CallbacksReset(a, till) && d.requests != [] && HeadGone(d, e, -1) && !HeadResets(d)
    ensures Completed(a) <= post.req && Did(CancelBegun(a, till), e, DoneBy(CalledTo(a, post.req + 1)))
  {
    hide Inv, Extends, Under, Did, CalledTo, LoopDeeds, CallbacksReset;
    var c := CancelBegun(a, till);
    InvFacts(d);
    ExtendsPushed(c, d);
    UnderFacts(c, d, false, -1);
    CalledMore(a, d, post.req, 1);
    DidTransitive(c, d, e, DoneBy(CalledTo(a, post.req)), LoopDeeds(d, 1));
  }

  /** How far that went: past the shutdown, or past everything if its callback reset the queue. */
  lemma ExpireCount(a: Q, d: Q, e: Q, post: Post, till: Option<nat>)
    requires CancelAllowed(a, NoPre, post, till) && post.Expire? && Decided(a, d, NoPre, till)
    requires !CallbacksReset(a, till)
    requires d.requests != [] && HeadGone(d, e, -1) && Completed(d) == post.req
    ensures e.cancelTill == None
    ensures HeadResets(d) ==> |a.h.pushed| <= Completed(e) && a.h.cancels + 1 < e.h.cancels
    ensures !HeadResets(d) ==> Completed(e) == post.req + 1 && e.h.cancels == a.h.cancels + 1
  {
    hide Core, Inv, OnlyCancelled, Ordered, AnyResets, RangeResets, Extends;
    assert CancelBegun(a, till).h.pushed <= d.h.pushed;
  }

  /** A callback reset the queue, and that went further. */
  lemma ExpireOvertaken(a: Q, d: Q, post: Post, till: Option<nat>)
    requires Inv(a) && CancelAllowed(a, NoPre, post, till) && post.Expire? && Decided(a, d, NoPre, till)
    requires d.cancelGen != a.cancelGen
    ensures CallbacksReset(a, till)
    ensures d.h.frames != [] && d.h.frames[|d.h.frames| - 1] == InCancel && d.locked > 0
    ensures Cancelled(a, CancelEnded(d), NoPre, post, till)
  {
    hide Core, OnlyCancelled, Ordered, AnyResets, RangeResets, Extends, Did, CalledTo;
    EndedKeeps(a, d, true, -1, till);
  }

  lemma ExpireGone(a: Q, d: Q, e: Q, post: Post, till: Option<nat>)
    requires Inv(a) && CancelAllowed(a, NoPre, post, till) && post.Expire? && Decided(a, d, NoPre, till)
    requires d.cancelGen == a.cancelGen
    requires d.requests != [] && d.requests[0].id == post.req && HeadGone(d, e, -1)
    ensures var c := CancelBegun(a, till);
            Inv(e) && Extends(c, e) && Under(c, e, HeadResets(d), -1) && Completed(d) == post.req
    ensures HeadResets(d) <==> a.resumeRecursion <= SPLIT_RECURSION && Resets(a.h.pushed[post.req].onNotify)
    ensures e.resumeRecursion <= SPLIT_RECURSION ==> e.finalized == []
    ensures post.req < Completed(e)
  {
    hide Inv, Extends, Under;
    var c := CancelBegun(a, till);
    ExpireFirst(a, d, post, till);
    CancelBegunKeeps(a, till);
    InvFacts(c);
    InvFacts(d);
    ExtendsFacts(c, d);
    ExtendsFacts(d, e);
    ExtendsTransitive(c, d, e);
    UnderTransitive(c, d, e, false, HeadResets(d), -1);
    UnderFacts(c, d, false, -1);
    ExtendsPushed(c, d);
    UnderFacts(d, e, HeadResets(d), -1);
    UnderFinalized(d, e, HeadResets(d), -1);
    if HeadResets(d) {
      SweptPast(d, e);
    }
  }

  lemma SweptPast(d: Q, e: Q)
    requires Listed(d) && d.requests != [] && Under(d, e, true, -1)
    ensures Completed(d) < Completed(e)
  {
  }

  /** A whole reset, from whatever stack it was called on. */
  lemma RanReset(a: Q, m: Q, b: Q)
    requires Inv(a) && Cancelled(a, m, NoPre, Teardown, None) && Resumed(m, b)
    ensures Ran(a, b, true)
  {
    hide Inv, Extends, Under, OnlyCancelled;
    ExtendsTransitive(a, m, b);
    ExtendsFacts(a, m);
    ExtendsFacts(m, b);
  }

  /**
  The states a cancel went through: after each of its phases, and the one it resumes from.  `ran`: its
  post action did; `kept`: a callback it called threw; `escaped`: the resume at its end did.
  */
  datatype CancelLog = CancelLog(
    drained: Q, prepared: Q, decided: Q, mid: Q, ran: bool, kept: bool, escaped: bool)

  /** The position a cancel gets to, if no callback resets the queue. */
  ghost function CancelEnd(a: Q, post: Post, till: Option<nat>): nat {
    if post.Expire? then post.req + 1 else Target(a, till)
  }

  /** What a cancel has kept to throw again, when it is about to resume. */
  lemma KeptFrom(a: Q, m: Q, pre: Pre, post: Post, till: Option<nat>, kept: bool)
    requires Inv(a) && CancelAllowed(a, pre, post, till) && Cancelled(a, m, pre, post, till)
    requires m.h.cancels == a.h.cancels + 1 ==> (kept <==> a.h.thrown < m.h.thrown)
    ensures Completed(a) <= CancelEnd(a, post, till) <= |a.h.pushed|
    ensures !Overtaken(a, post, till) ==> (kept <==> AnyThrows(CalledTo(a, CancelEnd(a, post, till))))
  {
    hide Core, Extends, OnlyCancelled, Ordered, Under, Did, CalledTo, AnyThrows, AnyResets, RangeResets;
    if !Overtaken(a, post, till) {
      if post.Expire? {
        RangeOne(a.h.pushed, Completed(a), post.req);
      }
      KeptIffThrows(a, m, CancelEnd(a, post, till));
    }
  }

  lemma RangeOne(pushed: seq<Spec>, lo: nat, n: nat)
    requires lo <= n < |pushed|
    ensures RangeResets(pushed, lo, n + 1) <==> RangeResets(pushed, lo, n) || Resets(pushed[n].onNotify)
  {
  }

  /** With no reset among them, the callbacks a cancel ran have thrown exactly if one of them throws. */
  lemma KeptIffThrows(a: Q, m: Q, n: nat)
    requires Completed(a) <= n <= |a.h.pushed| && Did(a, m, DoneBy(CalledTo(a, n))) && !AnyResets(a.finalized)
    requires a.resumeRecursion <= SPLIT_RECURSION ==> !RangeResets(a.h.pushed, Completed(a), n)
    ensures a.h.thrown < m.h.thrown <==> AnyThrows(CalledTo(a, n))
  {
    var s := CalledTo(a, n);
    forall i | 0 <= i < |s| ensures !Resets(s[i]) {
      if i < |a.finalized| {
        assert s[i] == a.finalized[i].spec.onNotify;
      } else {
        assert s[i] == a.h.pushed[Completed(a) + (i - |a.finalized|)].onNotify;
      }
    }
    SomeThrows(s);
  }

  lemma DrainedFacts(a: Q, b: Q)
    requires Drained(a, b)
    ensures Inv(b) && b.locked == a.locked && a.h.thrown <= b.h.thrown && b.finalized == []
    ensures b.resumeRecursion == a.resumeRecursion && b.h.leak == a.h.leak && a.h.cancels <= b.h.cancels
  {
    hide Inv;
  }

  lemma PreparedFacts(b: Q, p: Q, pre: Pre)
    requires Inv(b) && Prepared(b, p, pre)
    ensures Inv(p) && p.locked == b.locked && b.h.thrown <= p.h.thrown && b.h.cancels <= p.h.cancels
    ensures b.finalized == [] && p.resumeRecursion <= SPLIT_RECURSION ==> p.finalized == []
  {
    hide Inv;
  }

  lemma PreparedConnect(b: Q, p: Q, pre: Pre)
    requires Inv(b) && pre.FailConnect? && b.requests != [] && b.requests[0].id == pre.req && b.locked > 0
    requires b.requests[0].id < |b.h.told| && Finished(b, p, pre.err)
    requires b.resumeRecursion <= SPLIT_RECURSION ==> b.finalized == []
    ensures Prepared(b, p, pre)
  {
    hide Core, Extends, Under, HeadGone, Finished;
    HeadGoneFrom(b, p, pre.err, pre.req);
    if b.resumeRecursion <= SPLIT_RECURSION {
      FinishedSaysSo(b, p, pre.err);
    }
  }

  /** With room, `done` reports before anything else is. */
  lemma FinishedSaysSo(b: Q, p: Q, err: Err)
    requires Inv(b) && b.requests != [] && b.requests[0].id < |b.h.told| && b.resumeRecursion <= SPLIT_RECURSION
    requires Finished(b, p, err)
    ensures b.requests[0].id < |p.h.told| && [err] <= p.h.told[b.requests[0].id]
  {
    hide Timed, Serial, Counted, Marked, Under, Quiet, Live, PoolKept, NoNewResume;
    CoreAsyncHead(b);
    var id := b.requests[0].id;
    assert Answered(b, err).h.told[id] == [err];
    assert Answered(b, err).h.told[id] <= p.h.told[id];
  }

  lemma LoopedFacts(p: Q, d: Q, own: int)
    requires Inv(p) && LoopedIfNeeded(p, d, own)
    ensures Inv(d) && d.locked == p.locked && p.h.thrown <= d.h.thrown && p.h.cancels <= d.h.cancels
  {
    hide Inv;
  }

  lemma CancelledFacts(a: Q, m: Q, pre: Pre, post: Post, till: Option<nat>)
    requires Cancelled(a, m, pre, post, till)
    ensures Core(m, false) && a.h.thrown <= m.h.thrown
  {
    hide Core;
  }

  // ---------------------------------------------------------------- what a cancel reported

  /** Request `id` was told `err`, once and nothing else. */
  ghost predicate Reported(q: Q, id: nat, err: Err) {
    id < |q.h.told| && q.h.told[id] == [err]
  }

  /** With room on the stack, everything a cancel got to has been told so by the time it resumes. */
  lemma CancelledTold(a: Q, m: Q, pre: Pre, post: Post, till: Option<nat>, id: nat)
    requires Inv(a) && Cancelled(a, m, pre, post, till) && a.resumeRecursion <= SPLIT_RECURSION
    requires id < Completed(m) && id != Own(pre) && ToldBefore(a, id) == []
    ensures Reported(m, id, if id < Completed(a) then Canceled else CancelErr(a.h, id))
  {
    hide Timed, Counted, Serial, Marked, Under;
    assert |m.h.told[id]| == 1;
  }

  lemma NotTold(a: Q, id: nat)
    requires Inv(a) && Completed(a) <= id
    ensures ToldBefore(a, id) == []
  {
    hide Timed, Counted, Serial, Marked;
  }

  lemma FinalizedNotTold(a: Q, i: nat)
    requires Inv(a) && i < |a.finalized|
    ensures a.finalized[i].id < Completed(a) && ToldBefore(a, a.finalized[i].id) == []
  {
    hide Timed, Counted, Serial, Marked;
    assert InList(a.finalized, a.finalized[i].id);
  }

  lemma NoMore(b: Q, id: nat)
    requires Inv(b) && id < |b.h.told|
    ensures |b.h.told[id]| <= 1
  {
    hide Timed, Counted, Serial, Marked, Listed;
  }

  /** Everything that had not been told was told that it is cancelled. */
  ghost predicate AllCancelled(a: Q, b: Q) {
    && |a.h.pushed| <= Completed(b)
    && (forall id | 0 <= id < |a.h.pushed| && ToldBefore(a, id) == [] ::
          Reported(b, id, if id < Completed(a) then Canceled else CancelErr(a.h, id)))
  }

  lemma ResetCancels(a: Q, m: Q, b: Q)
    requires Inv(a) && Cancelled(a, m, NoPre, Teardown, None) && a.resumeRecursion <= SPLIT_RECURSION
    requires Inv(b) && Extends(m, b)
    ensures AllCancelled(a, b)
  {
    hide Inv, Cancelled;
    CancelledReach(a, m);
    forall id | 0 <= id < |a.h.pushed| && ToldBefore(a, id) == []
      ensures Reported(b, id, if id < Completed(a) then Canceled else CancelErr(a.h, id))
    {
      CancelledTold(a, m, NoPre, Teardown, None, id);
      ReportedStays(m, b, id, if id < Completed(a) then Canceled else CancelErr(a.h, id));
    }
  }

  lemma CancelledReach(a: Q, m: Q)
    requires Cancelled(a, m, NoPre, Teardown, None)
    ensures |a.h.pushed| <= Completed(m) && a.h.cancels < m.h.cancels
  {
    hide Core, Extends, OnlyCancelled, Ordered, TornDown;
  }

  /** What was reported stays the only report. */
  lemma ReportedStays(a: Q, b: Q, id: nat, err: Err)
    requires Reported(a, id, err) && Inv(b) && Extends(a, b)
    ensures Reported(b, id, err)
  {
    hide Inv, NothingLost, PoolKept, NoNewResume;
    assert a.h.told[id] <= b.h.told[id];
    NoMore(b, id);
  }

  lemma RanThrow(a: Q)
    requires Inv(a)
    ensures Ran(a, Thrown(a), false) && Did(a, Thrown(a), Deeds([], [], 1))
  {
    hide Timed;
    NothingLostSame(a, Thrown(a));
    hide NothingLost;
  }

  lemma InvPool(a: Q)
    requires Inv(a)
    ensures a.pool.Valid()
  {
  }

  ghost function Flagged(q: Q, req: nat): Q
    requires Completed(q) <= req < Completed(q) + |q.requests|
  {
    var i := req - Completed(q);
    q.(requests := q.requests[i := q.requests[i].(timedOut := true)], h := q.h.(flagged := q.h.flagged + {req}))
  }

  lemma FlagPlace(q: Q)
    requires Inv(q)
    ensures |q.h.pushed| == Completed(q) + |q.requests| && (q.requests != [] ==> q.requests[0].id == Completed(q))
  {
    hide ToldOnce, Timed, Serial, Marked, Counted;
  }

  lemma FlaggedKeeps(q: Q, req: nat)
    requires Inv(q) && Completed(q) <= req < Completed(q) + |q.requests|
    ensures Inv(Flagged(q, req)) && Completed(Flagged(q, req)) == Completed(q)
    ensures TotalLoad(Flagged(q, req)) == TotalLoad(q)
  {
    hide Pool.Valid, Pool.Rest, Serial;
    var f := Flagged(q, req);
    LoadSameSpecs(f.requests, q.requests);
    assert Completed(f) == Completed(q);
    assert Serial(f) by { FlaggedSerial(q, f); }
  }

  lemma FlaggedSerial(q: Q, f: Q)
    requires Serial(q) && f.h == q.h.(flagged := f.h.flagged) && Completed(f) == Completed(q)
    ensures Serial(f)
  {
  }
}
