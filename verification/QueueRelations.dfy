/**
What a piece of queue code may have done between its call and its return, as relations
between the two states.  Each is closed under composition, which is what lets callbacks
push and reset at any depth.
*/
module QueueRelations {
  import opened Basics
  import opened Delayers
  import opened QueueModel

  /** The loop's pool was only added to and cleared in: no entry was run or moved. */
  ghost predicate PoolKept(a: Pool<Fn>, b: Pool<Fn>) {
    && b.pos == a.pos && |b.reserve| == |a.reserve|
    && b.calling == a.calling && b.mark == a.mark && b.fired == a.fired
    && a.lastid <= b.lastid && (a.idle ==> b.idle)
  }

  /** A resume is scheduled only where a completion is split off. */
  ghost predicate NoNewResume(a: Q, b: Q) {
    a.h.splits == b.h.splits && ResumePending(b.pool.Rest()) ==> ResumePending(a.pool.Rest())
  }

  ghost predicate HasNote(list: seq<Request>, id: nat, delayId: nat) {
    exists k | 0 <= k < |list| :: list[k].id == id && list[k].delayId == delayId
  }

  /** Of the requests before `done` only those wait for their notification that did so, and for the same one. */
  ghost predicate Kept(fa: seq<Request>, done: nat, fb: seq<Request>) {
    forall k | 0 <= k < |fb| && fb[k].id < done :: HasNote(fa, fb[k].id, fb[k].delayId)
  }

  lemma KeptTransitive(fa: seq<Request>, ca: nat, fb: seq<Request>, cb: nat, fc: seq<Request>)
    requires Kept(fa, ca, fb) && Kept(fb, cb, fc) && ca <= cb
    ensures Kept(fa, ca, fc)
  {
    forall k | 0 <= k < |fc| && fc[k].id < ca ensures HasNote(fa, fc[k].id, fc[k].delayId) {
      assert HasNote(fb, fc[k].id, fc[k].delayId);
    }
  }

  /** Delayed user code still waits, in its order, and no completed request waits anew. */
  ghost predicate NothingLost(a: Q, b: Q) {
    Users(a.pool.Rest()) <= Users(b.pool.Rest()) && Kept(a.finalized, Completed(a), b.finalized)
  }

  lemma NothingLostSame(a: Q, b: Q)
    requires b.finalized == a.finalized && b.pool == a.pool
    ensures NothingLost(a, b)
  {
    assert forall k | 0 <= k < |a.finalized| :: HasNote(a.finalized, a.finalized[k].id, a.finalized[k].delayId);
  }

  lemma NothingLostTransitive(a: Q, b: Q, c: Q)
    requires NothingLost(a, b) && NothingLost(b, c) && Completed(a) <= Completed(b)
    ensures NothingLost(a, c)
  {
    KeptTransitive(a.finalized, Completed(a), b.finalized, Completed(b), c.finalized);
  }

  lemma NothingLostAlike(a: Q, b: Q, c: Q, d: Q)
    requires NothingLost(a, b) && c.finalized == a.finalized && c.pool == a.pool && Completed(c) == Completed(a)
    requires d.finalized == b.finalized && d.pool == b.pool
    ensures NothingLost(c, d)
  {
  }

  /** Code has run that pushed, delayed and threw exactly this. */
  ghost predicate Did(a: Q, b: Q, d: Deeds) {
    && b.h.pushed == a.h.pushed + d.pushes && Users(b.pool.Rest()) == Users(a.pool.Rest()) + d.defers
    && b.h.thrown == a.h.thrown + d.throws
  }

  /** And perhaps other code after it. */
  ghost predicate DidFirst(a: Q, b: Q, d: Deeds) {
    && a.h.pushed + d.pushes <= b.h.pushed && Users(a.pool.Rest()) + d.defers <= Users(b.pool.Rest())
    && a.h.thrown + d.throws <= b.h.thrown
  }

  lemma DidTransitive(a: Q, b: Q, c: Q, d: Deeds, e: Deeds)
    requires Did(a, b, d) && Did(b, c, e)
    ensures Did(a, c, Plus(d, e))
  {
  }

  lemma DidThen(a: Q, b: Q, c: Q, d: Deeds)
    requires Did(a, b, d) && Extends(b, c)
    ensures DidFirst(a, c, d)
  {
  }

  lemma DidNothing(a: Q, b: Q)
    requires b.h.pushed == a.h.pushed && Users(b.pool.Rest()) == Users(a.pool.Rest()) && b.h.thrown == a.h.thrown
    ensures Did(a, b, NOTHING)
  {
  }

  /** Histories only grow, the stack is as it was, and only an exception leaves the recursion counter raised. */
  ghost predicate Extends(a: Q, b: Q) {
    && a.h.pushed <= b.h.pushed && |a.h.told| <= |b.h.told| && Completed(a) <= Completed(b)
    && (forall id | 0 <= id < |a.h.told| :: a.h.told[id] <= b.h.told[id])
    && a.h.execs <= b.h.execs && a.h.said <= b.h.said
    && a.h.splits <= b.h.splits && NoNewResume(a, b)
    && b.h.frames == a.h.frames && b.locked == a.locked
    && b.h.flagged == a.h.flagged
    && a.h.cancels <= b.h.cancels && a.cancelGen <= b.cancelGen
    && a.h.thrown <= b.h.thrown && a.h.leak <= b.h.leak
    && (a.h.thrown == b.h.thrown ==> a.h.leak == b.h.leak)
    && PoolKept(a.pool, b.pool) && NothingLost(a, b)
  }

  lemma ExtendsItself(a: Q)
    ensures Extends(a, a)
  {
    NothingLostSame(a, a);
  }

  lemma ExtendsTransitive(a: Q, b: Q, c: Q)
    requires Extends(a, b) && Extends(b, c)
    ensures Extends(a, c)
  {
    NothingLostTransitive(a, b, c);
    hide NothingLost;
    forall id | 0 <= id < |a.h.told| ensures a.h.told[id] <= c.h.told[id] {
      assert a.h.told[id] <= b.h.told[id] <= c.h.told[id];
    }
  }

  /** Revoking a callback, or delaying one that does not resume, schedules no resume. */
  lemma ClearedPending(p: Pool<Fn>, r: Request)
    ensures ResumePending(DelayCleared(p, r).Rest()) ==> ResumePending(p.Rest())
  {
    var c := DelayCleared(p, r);
    if ResumePending(c.Rest()) && r.delayId != 0 {
      assert c.Rest() == NullById(p.Rest(), r.delayId);
      var k :| 0 <= k < |c.Rest()| && IsNote(c.Rest()[k]) && c.Rest()[k].cb.value.resume;
      assert c.Rest()[k] == p.Rest()[k];
    }
  }

  lemma AddedPending(p: Pool<Fn>, fn: Fn)
    ensures (fn.Notify? && fn.resume) || (ResumePending(p.Added(fn, None).Rest()) ==> ResumePending(p.Rest()))
  {
    var c := p.Added(fn, None);
    assert c.Rest() == p.Rest() + [Entry(p.lastid + 1, Some(fn), None)];
    if ResumePending(c.Rest()) {
      var k :| 0 <= k < |c.Rest()| && IsNote(c.Rest()[k]) && c.Rest()[k].cb.value.resume;
      if k < |p.Rest()| {
        assert c.Rest()[k] == p.Rest()[k];
      }
    }
  }

  ghost function Ids(rs: seq<Request>): seq<nat> {
    seq(|rs|, i requires 0 <= i < |rs| => rs[i].id)
  }

  /** `k` requests in push order, from `lo` on. */
  ghost function Span(lo: nat, k: nat): seq<nat> {
    seq(k, i requires 0 <= i < k => lo + i)
  }

  /**
  Requests told in turn, between two states with these finalized requests, completed requests and
  reports: first finalized ones, from the front on, and once all of those are through the queued ones,
  from the head on.
  */
  ghost predicate InTurn(fa: seq<Request>, ca: nat, sa: seq<nat>, fb: seq<Request>, cb: nat, sb: seq<nat>) {
    && IsSuffix(fb, fa) && ca <= cb && (ca < cb ==> fb == [])
    && sb == sa + Ids(fa[..|fa| - |fb|]) + Span(ca, cb - ca)
  }

  /** With room on the stack, what was told since was told in turn. */
  ghost predicate Ordered(a: Q, b: Q) {
    a.resumeRecursion <= SPLIT_RECURSION ==>
      InTurn(a.finalized, Completed(a), a.h.said, b.finalized, Completed(b), b.h.said)
  }

  lemma OrderedSame(a: Q, b: Q)
    requires b.finalized == a.finalized && Completed(b) == Completed(a) && b.h.said == a.h.said
    ensures Ordered(a, b)
  {
    assert a.h.said + Ids([]) + Span(Completed(a), 0) == a.h.said;
    assert a.finalized[..0] == [];
  }

  /** Only the two lists, the reports and the depth matter. */
  lemma OrderedAlike(a: Q, b: Q, c: Q, d: Q)
    requires Ordered(a, b) && c.resumeRecursion == a.resumeRecursion
    requires c.finalized == a.finalized && Completed(c) == Completed(a) && c.h.said == a.h.said
    requires d.finalized == b.finalized && Completed(d) == Completed(b) && d.h.said == b.h.said
    ensures Ordered(c, d)
  {
  }

  lemma SuffixIds(a: seq<Request>, b: seq<Request>, c: seq<Request>)
    requires IsSuffix(b, a) && IsSuffix(c, b)
    ensures IsSuffix(c, a) && Ids(a[..|a| - |c|]) == Ids(a[..|a| - |b|]) + Ids(b[..|b| - |c|])
  {
    var i, j := |a| - |b|, |b| - |c|;
    assert b == a[i..] && c == b[j..] == a[i + j..];
    assert a[..i + j] == a[..i] + b[..j];
  }

  lemma SpanSplit(lo: nat, mid: nat, hi: nat)
    requires lo <= mid <= hi
    ensures Span(lo, hi - lo) == Span(lo, mid - lo) + Span(mid, hi - mid)
  {
  }

  lemma SaidJoined(s: seq<nat>, x: seq<nat>, v: seq<nat>, y: seq<nat>, w: seq<nat>)
    requires v == [] || y == []
    ensures s + x + v + y + w == s + (x + y) + (v + w)
  {
  }

  lemma InTurnTransitive(fa: seq<Request>, ca: nat, sa: seq<nat>, fb: seq<Request>, cb: nat, sb: seq<nat>,
                         fc: seq<Request>, cc: nat, sc: seq<nat>)
    requires InTurn(fa, ca, sa, fb, cb, sb) && InTurn(fb, cb, sb, fc, cc, sc)
    ensures InTurn(fa, ca, sa, fc, cc, sc)
  {
    SuffixIds(fa, fb, fc);
    SpanSplit(ca, cb, cc);
    var v, y := Span(ca, cb - ca), Ids(fb[..|fb| - |fc|]);
    assert v == [] || y == [] by {
      if ca < cb { assert fb[..|fb| - |fc|] == []; }
    }
    hide Ids, Span, IsSuffix;
    SaidJoined(sa, Ids(fa[..|fa| - |fb|]), v, y, Span(cb, cc - cb));
  }

  lemma OrderedTransitive(a: Q, b: Q, c: Q)
    requires Ordered(a, b) && Ordered(b, c) && b.resumeRecursion == a.resumeRecursion
    ensures Ordered(a, c)
  {
    hide InTurn, Completed;
    if a.resumeRecursion <= SPLIT_RECURSION {
      InTurnTransitive(a.finalized, Completed(a), a.h.said, b.finalized, Completed(b), b.h.said,
                       c.finalized, Completed(c), c.h.said);
    }
  }

  /** What cancelling request `id` reports. */
  ghost function CancelErr(h: History, id: nat): Err {
    if id in h.flagged then TimedOut else Canceled
  }

  ghost function ToldBefore(q: Q, id: nat): seq<Err> {
    if id < |q.h.told| then q.h.told[id] else []
  }

  /** Every outcome reported since, except `own`'s, is that of a cancel. */
  ghost predicate OnlyCancelled(a: Q, b: Q, own: int) {
    forall id | 0 <= id < |b.h.told| && id != own ::
      || b.h.told[id] == ToldBefore(a, id)
      || (ToldBefore(a, id) == [] && Completed(a) <= id && b.h.told[id] == [CancelErr(b.h, id)])
      || (ToldBefore(a, id) == [] && b.h.told[id] == [Canceled]
          && (a.resumeRecursion > SPLIT_RECURSION || id < Completed(a)))
  }

  /** No further cancel began. */
  ghost predicate Steady(a: Q, b: Q) {
    && b.h.cancels == a.h.cancels && b.cancelGen == a.cancelGen && b.h.bound == a.h.bound
  }

  ghost predicate IsSuffix(s: seq<Request>, t: seq<Request>) {
    |s| <= |t| && s == t[|t| - |s|..]
  }

  /** A further cancel began and has finished: everything pushed before the last of them is completed. */
  ghost predicate Swept(a: Q, b: Q) {
    && a.h.cancels < b.h.cancels && a.cancelGen < b.cancelGen
    && b.cancelTill == None
    && |a.h.pushed| <= b.h.bound == Completed(b)
    && (b.resumeRecursion <= SPLIT_RECURSION ==> b.finalized == [])
  }

  /** What code that runs under a lock may have done: nothing was executed, nothing reported but cancellations. */
  ghost predicate Under(a: Q, b: Q, swept: bool, own: int) {
    && b.h.execs == a.h.execs && b.h.reexecs == a.h.reexecs
    && b.h.leak == a.h.leak && b.resumeRecursion == a.resumeRecursion
    && b.h.flagged == a.h.flagged && a.h.pushed <= b.h.pushed && Completed(a) <= Completed(b)
    && OnlyCancelled(a, b, own) && Ordered(a, b)
    && if swept then Swept(a, b) else Steady(a, b)
  }

  /** Under a lock a callback that does not reset can only push and delay. */
  ghost predicate Quiet(a: Q, b: Q) {
    && Completed(b) == Completed(a) && b.cancelTill == a.cancelTill && b.finalized == a.finalized
    && (forall id | 0 <= id < |b.h.told| :: b.h.told[id] == ToldBefore(a, id)) && b.h.said == a.h.said
  }

  /** With room on the stack, a request completed under a lock has been told so. */
  lemma NoneLeftUntold(a: Q, b: Q, swept: bool, own: int, id: nat)
    requires Under(a, b, swept, own) && Listed(a) && ToldOnce(b)
    requires b.resumeRecursion <= SPLIT_RECURSION && id < Completed(b) && id < |b.h.told| && b.h.told[id] == []
    ensures id < Completed(a)
  {
    hide OnlyCancelled, Ids, Span;
    assert InList(b.finalized, id);
  }

  lemma OnlyCancelledTransitive(a: Q, b: Q, c: Q, s: bool, t: bool, own: int)
    requires Under(a, b, s, own) && Under(b, c, t, own)
    requires Listed(a) && ToldOnce(b) && |a.h.told| <= |b.h.told| <= |c.h.told| && Completed(b) <= |b.h.told|
    ensures OnlyCancelled(a, c, own)
  {
    hide Listed, ToldOnce, Steady, Swept, Ordered;
    forall id | 0 <= id < |c.h.told| && id != own && c.h.told[id] != ToldBefore(a, id)
      ensures ToldBefore(a, id) == []
      ensures || (Completed(a) <= id && c.h.told[id] == [CancelErr(c.h, id)])
              || (c.h.told[id] == [Canceled] && (a.resumeRecursion > SPLIT_RECURSION || id < Completed(a)))
    {
      if id < |b.h.told| && b.h.told[id] == [] && id < Completed(b) && b.resumeRecursion <= SPLIT_RECURSION {
        NoneLeftUntold(a, b, s, own, id);
      }
    }
  }

  lemma UnderTransitive(a: Q, b: Q, c: Q, s: bool, t: bool, own: int)
    requires Under(a, b, s, own) && Under(b, c, t, own)
    requires Listed(a) && ToldOnce(b) && Listed(b) && |a.h.told| <= |b.h.told| <= |c.h.told|
    requires s && !t ==> Completed(c) == Completed(b) && c.cancelTill == None
    ensures Under(a, c, s || t, own)
  {
    hide OnlyCancelled, Ordered;
    OnlyCancelledTransitive(a, b, c, s, t, own);
    OrderedTransitive(a, b, c);
    NoneFinalized(b, c);
  }

  lemma NoneFinalized(b: Q, c: Q)
    requires Ordered(b, c)
    ensures b.resumeRecursion <= SPLIT_RECURSION && b.finalized == [] ==> c.finalized == []
  {
  }

  /** A script has run to its end: all it pushes and delays was pushed and delayed, in its order. */
  ghost predicate Carried(s: Script, a: Q, b: Q) {
    && !EndsThrowing(s)
    && a.h.pushed <= b.h.pushed && Within(AllPushes(s), b.h.pushed[|a.h.pushed|..])
    && Users(a.pool.Rest()) <= Users(b.pool.Rest())
    && Within(AllDefers(s), Users(b.pool.Rest())[|Users(a.pool.Rest())|..])
  }

  lemma WithinRest<T>(xs: seq<T>, a: seq<T>, b: seq<T>, c: seq<T>)
    requires a <= b <= c && Within(xs, c[|b|..])
    ensures Within(xs, c[|a|..])
  {
    WithinLater(xs, b[|a|..], c[|b|..]);
    assert b[|a|..] + c[|b|..] == c[|a|..];
  }

  lemma WithinOneMore<T>(x: T, xs: seq<T>, a: seq<T>, c: seq<T>)
    requires a + [x] <= c && Within(xs, c[|a| + 1..])
    ensures Within([x] + xs, c[|a|..])
  {
    assert c[|a|..] == [x] + c[|a| + 1..];
    assert ([x] + xs)[1..] == xs && ([x] + c[|a| + 1..])[1..] == c[|a| + 1..];
  }

  lemma CarriedPush(s: Script, a: Q, b: Q, c: Q)
    requires s.Push? && Did(a, b, Deeds([s.spec], [], 0)) && Carried(s.next, b, c)
    ensures Carried(s, a, c)
  {
    hide Users, Within;
    WithinOneMore(s.spec, AllPushes(s.next), a.h.pushed, c.h.pushed);
  }

  lemma CarriedDefer(s: Script, a: Q, b: Q, c: Q)
    requires s.Defer? && Did(a, b, Deeds([], [s.fn], 0)) && Carried(s.next, b, c)
    ensures Carried(s, a, c)
  {
    hide Users, Within;
    WithinOneMore(s.fn, AllDefers(s.next), Users(a.pool.Rest()), Users(c.pool.Rest()));
  }

  lemma CarriedReset(s: Script, a: Q, b: Q, c: Q)
    requires s.Reset? && Extends(a, b) && Carried(s.next, b, c)
    ensures Carried(s, a, c)
  {
    hide Users, Within;
    WithinRest(AllPushes(s), a.h.pushed, b.h.pushed, c.h.pushed);
    WithinRest(AllDefers(s), Users(a.pool.Rest()), Users(b.pool.Rest()), Users(c.pool.Rest()));
  }

  lemma CarriedNothing(a: Q)
    ensures Carried(Return, a, a)
  {
  }

  /** What running a script, or any sequence of user actions, comes to. */
  ghost predicate Ran(a: Q, b: Q, resets: bool) {
    && Inv(b) && Extends(a, b) && b.h.reexecs == a.h.reexecs
    && (resets ==> |a.h.pushed| <= Completed(b) && a.h.cancels < b.h.cancels)
    && (a.locked > 0 ==> Under(a, b, resets, -1) && (!resets ==> Quiet(a, b)))
    && (a.locked == 0 ==> (Live(b) <==> Live(a) || resets))
  }

  lemma RanTransitive(a: Q, b: Q, c: Q, s: bool, t: bool)
    requires Inv(a) && Ran(a, b, s) && Ran(b, c, t)
    ensures Ran(a, c, s || t)
  {
    hide Inv, Extends, Under, Quiet, Live, Completed;
    assert Inv(b) && Inv(c) && Extends(a, b) && Extends(b, c);
    ExtendsTransitive(a, b, c);
    ExtendsFacts(a, b);
    ExtendsFacts(b, c);
    if a.locked > 0 {
      RanUnder(a, b, c, s, t);
    }
  }

  lemma ExtendsFacts(a: Q, b: Q)
    requires Extends(a, b)
    ensures b.locked == a.locked && |a.h.told| <= |b.h.told| && a.h.thrown <= b.h.thrown
    ensures a.h.cancels <= b.h.cancels && Completed(a) <= Completed(b) && |a.h.pushed| <= |b.h.pushed|
  {
  }

  lemma InvFacts(a: Q)
    requires Inv(a)
    ensures Listed(a) && ToldOnce(a) && Completed(a) <= |a.h.told|
  {
  }

  lemma RanUnder(a: Q, b: Q, c: Q, s: bool, t: bool)
    requires Inv(a) && Inv(b) && |a.h.told| <= |b.h.told| <= |c.h.told|
    requires Under(a, b, s, -1) && (!s ==> Quiet(a, b))
    requires Under(b, c, t, -1) && (!t ==> Quiet(b, c))
    ensures Under(a, c, s || t, -1) && (!(s || t) ==> Quiet(a, c))
  {
    hide Inv, Listed, ToldOnce, OnlyCancelled, Ordered;
    InvFacts(a);
    InvFacts(b);
    UnderTransitive(a, b, c, s, t, -1);
  }

  lemma RanNothing(a: Q)
    requires Inv(a)
    ensures Ran(a, a, false)
  {
    hide Inv, Ordered;
    NothingLostSame(a, a);
    hide NothingLost;
    OrderedSame(a, a);
  }

  lemma LengthFacts(a: Q, spec: Spec)
    requires Listed(a)
    ensures Completed(Pushed(a, spec, true)) == Completed(a)
  {
  }

  lemma RanPush(a: Q, spec: Spec)
    requires Inv(a) && (a.requests != [] || a.locked > 0)
    ensures Ran(a, Pushed(a, spec, true), false)
  {
    hide Core, Live, Ordered;
    PushedKeeps(a, spec, false);
    InvFacts(a);
    assert Completed(Pushed(a, spec, true)) == Completed(a) by { LengthFacts(a, spec); }
    NothingLostSame(a, Pushed(a, spec, true));
    hide NothingLost;
    OrderedSame(a, Pushed(a, spec, true));
  }

  lemma UserAdded(a: Q, fn: Script)
    ensures var b := a.(pool := a.pool.Added(User(fn), None));
            NothingLost(a, b) && Did(a, b, Deeds([], [fn], 0))
  {
    var b := a.(pool := a.pool.Added(User(fn), None));
    var e := Entry(a.pool.lastid + 1, Some(User(fn)), None);
    assert b.pool.Rest() == a.pool.Rest() + [e];
    UsersAppend(a.pool.Rest(), e);
    NothingLostSame(a, a);
  }

  lemma RanDefer(a: Q, fn: Script)
    requires Inv(a)
    ensures Ran(a, a.(pool := a.pool.Added(User(fn), None)), false)
  {
    hide Inv, Pool.Rest, ResumePending, Ordered;
    UserScheduledKeeps(a, fn);
    AddedPending(a.pool, User(fn));
    UserAdded(a, fn);
    hide NothingLost;
    OrderedSame(a, a.(pool := a.pool.Added(User(fn), None)));
  }

  // ---------------------------------------------------------------- where user code runs

  /**
  User code is called from `done`, which then has room on the stack and holds a lock, or from outside
  any resume.  So wherever it runs there is room, unless exceptions have leaked more levels than that.
  */
  ghost predicate Callable(q: Q) {
    && (q.locked == 0 ==> Resumes(q.h.frames) == 0)
    && (q.resumeRecursion <= SPLIT_RECURSION || q.h.leak > SPLIT_RECURSION)
  }

  lemma CallableKept(a: Q, b: Q, resets: bool)
    requires Callable(a) && Ran(a, b, resets)
    ensures Callable(b)
  {
    hide Listed, ToldOnce, Timed, Serial, Marked, Quiet, OnlyCancelled, Ordered, Live, Swept, Steady, PoolKept;
  }
}
