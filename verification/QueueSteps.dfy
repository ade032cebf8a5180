/** How the pieces of `done` and `cancel` fit around the user code they call. */
module QueueSteps {
  import opened Basics
  import opened Delayers
  import opened QueueModel
  import opened QueueRelations

  /** Only the stack bookkeeping differs. */
  ghost predicate Reframed(a: Q, b: Q) {
    b == a.(locked := b.locked, resumeRecursion := b.resumeRecursion,
            h := a.h.(frames := b.h.frames, leak := b.h.leak))
  }

  lemma ReframedCore(a: Q, b: Q)
    requires Core(a, false) && Reframed(a, b) && Counted(b)
    ensures Core(b, false) && Completed(b) == Completed(a) && Started(b) == Started(a)
  {
    hide Timed;
  }

  lemma HeadId(q: Q, pushing: bool)
    requires Core(q, pushing) && q.requests != []
    ensures q.requests[0].id == Completed(q) < |q.h.told| == |q.h.pushed|
  {
  }

  /** The callback of a completed request has returned: the stack below it is as it was. */
  lemma CallbackStack(a: Q, err: Err, b: Q, resets: bool)
    requires Core(a, false) && a.requests != [] && a.resumeRecursion <= SPLIT_RECURSION
    requires Ran(Entered(a, err), b, resets)
    ensures b.h.frames == a.h.frames + [InCallback(a.requests[0].id)] && b.locked == a.locked + 1
    ensures b.resumeRecursion == a.resumeRecursion && b.h.leak == a.h.leak && Under(Entered(a, err), b, resets, -1)
    ensures Inv(b)
    ensures !resets ==> Quiet(Entered(a, err), b)
  {
    hide Listed, ToldOnce, Timed, Serial, OnlyCancelled, Marked, PoolKept, NoNewResume;
    hide DelayCleared, Inv, Quiet, Swept, Steady;
    HeadId(a, false);
    EnteredCounted(a, err);
  }

  /** No cancel is under way any more, unless one was below. */
  lemma CallbackTill(a: Q, err: Err, b: Q, resets: bool)
    requires Core(a, false) && a.requests != [] && a.requests[0].id < |a.h.told|
    requires Under(Entered(a, err), b, resets, -1) && (!resets ==> Quiet(Entered(a, err), b))
    ensures b.cancelTill.Some? ==> a.locked > 0
  {
    hide Listed, ToldOnce, Timed, Serial, OnlyCancelled, Marked, Steady, DelayCleared;
  }

  lemma CallbackFrames(a: Q, err: Err, b: Q, resets: bool)
    requires Core(a, false) && a.requests != [] && a.resumeRecursion <= SPLIT_RECURSION
    requires Ran(Entered(a, err), b, resets)
    ensures b.h.frames == a.h.frames + [InCallback(a.requests[0].id)] && b.locked == a.locked + 1
    ensures Closed(b).h.frames == a.h.frames && Closed(b).locked == a.locked
    ensures b.resumeRecursion == a.resumeRecursion && Under(Entered(a, err), b, resets, -1)
    ensures !resets ==> Quiet(Entered(a, err), b)
    ensures Core(Opened(Closed(b), InResume), false) && (a.locked > 0 ==> Inv(Closed(b)))
  {
    hide Listed, ToldOnce, Timed, Serial, Marked, Ran, Under, Quiet, Entered;
    HeadId(a, false);
    CallbackStack(a, err, b, resets);
    CallbackTill(a, err, b, resets);
    var c := Closed(b);
    assert c.h.frames == a.h.frames;
    FramePushed(a.h.frames, InCallback(a.requests[0].id));
    FramePushed(a.h.frames, InResume);
    ReframedCore(b, Opened(c, InResume));
    if a.locked > 0 {
      ReframedCore(b, c);
    }
  }

  lemma CallbackExtends(a: Q, err: Err, b: Q, resets: bool)
    requires Core(a, false) && a.requests != [] && a.resumeRecursion <= SPLIT_RECURSION
    requires Ran(Entered(a, err), b, resets)
    ensures Extends(Answered(a, err), Closed(b)) && Closed(b).h.reexecs == a.h.reexecs && !Started(Closed(b))
  {
    hide Core, Inv, OnlyCancelled, Quiet, Swept, Steady, PoolKept, Pool.Cancelled, NothingLost;
    CallbackFrames(a, err, b, resets);
    HeadId(a, false);
    EnteredCounted(a, err);
    CoreSerial(a, false);
    NotStartedAfter(a, Entered(a, err), b);
    NothingLostAlike(Entered(a, err), b, Answered(a, err), Closed(b));
  }

  lemma CallbackUnder(a: Q, err: Err, b: Q, resets: bool)
    requires Core(a, false) && a.requests != [] && a.resumeRecursion <= SPLIT_RECURSION
    requires Ran(Entered(a, err), b, resets)
    ensures Under(Answered(a, err), Closed(b), resets, -1) && (!resets ==> Quiet(Answered(a, err), Closed(b)))
  {
    hide Core, Inv, Ran, Under, Quiet, Answered, Entered;
    CallbackFrames(a, err, b, resets);
    HeadId(a, false);
    EnteredReframed(a, err);
    UnderReframed(Entered(a, err), b, Answered(a, err), Closed(b), resets);
  }

  lemma EnteredReframed(a: Q, err: Err)
    requires a.requests != [] && a.requests[0].id < |a.h.told|
    ensures Reframed(Entered(a, err), Answered(a, err))
    ensures Answered(a, err).resumeRecursion == Entered(a, err).resumeRecursion
    ensures Answered(a, err).h.leak == Entered(a, err).h.leak
  {
  }

  /** What was done under a lock does not look at the stack. */
  lemma UnderReframed(a: Q, b: Q, c: Q, d: Q, resets: bool)
    requires Under(a, b, resets, -1) && (!resets ==> Quiet(a, b)) && Reframed(a, c) && Reframed(b, d)
    requires c.resumeRecursion == a.resumeRecursion && c.h.leak == a.h.leak
    requires d.resumeRecursion == b.resumeRecursion && d.h.leak == b.h.leak
    ensures Under(c, d, resets, -1) && (!resets ==> Quiet(c, d))
  {
    hide OnlyCancelled, Ordered;
    assert Completed(c) == Completed(a) && Completed(d) == Completed(b);
    SameTold(a, c, b, d);
    OrderedAlike(a, b, c, d);
  }

  lemma CallbackLeft(a: Q, err: Err, b: Q, resets: bool)
    requires Core(a, false) && a.requests != [] && a.resumeRecursion <= SPLIT_RECURSION
    requires Ran(Entered(a, err), b, resets)
    ensures b.h.frames != [] && b.h.frames[|b.h.frames| - 1].InCallback? && b.locked > 0
    ensures Core(Opened(Closed(b), InResume), false) && !Started(Closed(b))
    ensures Extends(Answered(a, err), Closed(b))
    ensures Closed(b).h.reexecs == a.h.reexecs
    ensures a.locked > 0 ==>
              && Inv(Closed(b)) && Under(Answered(a, err), Closed(b), resets, -1)
              && (!resets ==> Quiet(Answered(a, err), Closed(b)))
  {
    hide Core, Inv, Ran, Extends, Under, Quiet, Started, Entered, Answered;
    CallbackFrames(a, err, b, resets);
    CallbackExtends(a, err, b, resets);
    CallbackUnder(a, err, b, resets);
  }

  lemma CoreSerial(a: Q, pushing: bool)
    requires Core(a, pushing)
    ensures Serial(a) && Listed(a)
  {
  }

  lemma SameTold(e: Q, f: Q, b: Q, c: Q)
    requires OnlyCancelled(e, b, -1) && f.h.told == e.h.told && c.h.told == b.h.told
    requires f.resumeRecursion == e.resumeRecursion && Completed(f) == Completed(e) && c.h.flagged == b.h.flagged
    ensures OnlyCancelled(f, c, -1)
  {
  }

  /** What was executed is behind once the head is completed. */
  lemma NotStartedAfter(a: Q, e: Q, b: Q)
    requires Serial(a) && Listed(a) && a.requests != []
    requires Completed(e) == Completed(a) + 1 && e.h.execs == a.h.execs
    requires b.h.execs == e.h.execs && Completed(e) <= Completed(b)
    ensures Completed(b) !in b.h.execs
  {
  }

  /** `resume` has returned, normally or by an exception. */
  ghost function ResumeLeft(q: Q, threw: bool): Q
    requires q.h.frames != []
  {
    if threw then Unwound(q) else Closed(q)
  }

  lemma ResumeLeftKeeps(x: Q, d: Q, threw: bool)
    requires Core(Opened(x, InResume), false)
    requires Inv(d) && Extends(Opened(x, InResume), d)
    requires threw ==> x.h.thrown < d.h.thrown
    ensures d.h.frames != [] && d.h.frames[|d.h.frames| - 1] == InResume && d.resumeRecursion > 0
    ensures Inv(ResumeLeft(d, threw)) && Extends(x, ResumeLeft(d, threw))
    ensures ResumeLeft(d, threw).h.reexecs == d.h.reexecs
  {
    hide Listed, ToldOnce, Timed, Serial, Marked, Extends;
    FramePushed(x.h.frames, InResume);
    ExtendsStack(Opened(x, InResume), d);
    assert d.h.frames[..|x.h.frames|] == x.h.frames;
    var r := ResumeLeft(d, threw);
    assert r.h.frames == x.h.frames && r.locked == x.locked;
    ReframedCore(d, r);
    ExtendsReframed(Opened(x, InResume), d, x, r);
  }

  lemma ExtendsStack(a: Q, b: Q)
    requires Extends(a, b)
    ensures b.h.frames == a.h.frames && b.locked == a.locked
    ensures a.h.thrown <= b.h.thrown && a.h.leak <= b.h.leak && (a.h.thrown == b.h.thrown ==> a.h.leak == b.h.leak)
  {
  }

  /** What was extended on one stack was extended on another. */
  lemma ExtendsReframed(a: Q, b: Q, c: Q, d: Q)
    requires Extends(a, b) && Reframed(a, c) && Reframed(b, d) && d.h.frames == c.h.frames && d.locked == c.locked
    requires c.h.leak <= d.h.leak && (c.h.thrown == d.h.thrown ==> c.h.leak == d.h.leak)
    ensures Extends(c, d)
  {
    hide PoolKept, ResumePending, NothingLost;
    assert Completed(c) == Completed(a) && Completed(d) == Completed(b);
    NothingLostAlike(a, b, c, d);
  }

  // ---------------------------------------------------------------- done

  /** `done` of the head will delay its callback: the recursion is too deep, or `push` is still executing it. */
  ghost predicate PutOff(a: Q)
    requires a.requests != []
  {
    a.resumeRecursion > SPLIT_RECURSION || !a.requests[0].async
  }

  /** A callback has run, and if nothing holds the queue perhaps other code after it. */
  ghost predicate Called(a: Q, b: Q, script: Script) {
    !Resets(script) ==> if a.locked > 0 then Did(a, b, Does(script)) else DidFirst(a, b, Does(script))
  }

  /**
  What comes out of `done`: nothing if the callback was put off, and whatever the callback throws if it was
  not; under a lock nothing else.
  */
  ghost predicate Rethrows(a: Q, threw: bool)
    requires a.requests != []
  {
    var script := a.requests[0].spec.onNotify;
    if PutOff(a) then !threw
    else !Resets(script) ==> (Throws(script) ==> threw) && (a.locked > 0 && threw ==> Throws(script))
  }

  /**
  `done` has returned.  Either the outcome is delayed and nothing else happened, or it was
  reported at once and whatever user code did came after.
  */
  ghost predicate Finished(a: Q, b: Q, err: Err)
    requires a.requests != [] && a.requests[0].id < |a.h.told|
  {
    && Inv(b) && Extends(a, b) && b.h.reexecs == a.h.reexecs && (a.locked == 0 ==> Live(b))
    && if PutOff(a) then
         b == Deferred(a, err, a.resumeRecursion > SPLIT_RECURSION)
       else
         && Extends(Answered(a, err), b) && Called(a, b, a.requests[0].spec.onNotify)
         && (a.locked > 0 ==>
               var resets := Resets(a.requests[0].spec.onNotify);
               Under(Answered(a, err), b, resets, -1) && (!resets ==> Quiet(Answered(a, err), b)))
  }

  lemma CorePool(a: Q, pushing: bool)
    requires Core(a, pushing)
    ensures a.pool.Valid()
  {
  }

  lemma CoreAsync(a: Q, pushing: bool)
    requires Core(a, pushing) && a.requests != [] && a.requests[0].async
    ensures Core(a, false)
  {
  }

  lemma DoneLoad(a: Q)
    requires a.requests != [] && a.requests[0].id < |a.h.told|
    ensures forall err :: TotalLoad(Entered(a, err)) + 1 + Size(a.requests[0].spec.onNotify) == TotalLoad(a)
    ensures forall err, resume :: TotalLoad(Deferred(a, err, resume)) == TotalLoad(a)
  {
    forall err, resume ensures TotalLoad(Deferred(a, err, resume)) == TotalLoad(a) {
      LoadAppend(a.finalized, a.requests[0].(delayId := Popped(a).pool.lastid + 1));
    }
  }

  lemma ClearKept(p: Pool<Fn>, r: Request)
    ensures PoolKept(p, DelayCleared(p, r))
    ensures ResumePending(DelayCleared(p, r).Rest()) ==> ResumePending(p.Rest())
  {
    ClearedPending(p, r);
  }

  lemma PopKept(p: Pool<Fn>, r: Request, fn: Fn)
    ensures PoolKept(p, DelayCleared(p, r)) && PoolKept(p, DelayCleared(p, r).Added(fn, None))
    ensures ResumePending(DelayCleared(p, r).Rest()) ==> ResumePending(p.Rest())
    ensures (fn.Notify? && fn.resume)
            || (ResumePending(DelayCleared(p, r).Added(fn, None).Rest()) ==> ResumePending(p.Rest()))
  {
    hide ResumePending, Pool.Rest;
    ClearedPending(p, r);
    AddedPending(DelayCleared(p, r), fn);
  }

  /** Revoking what belongs to the head leaves user code alone. */
  lemma HeadUsers(requests: seq<Request>, finalized: seq<Request>, p: Pool<Fn>)
    requires Timed(requests, finalized, p) && requests != []
    ensures Users(DelayCleared(p, requests[0]).Rest()) == Users(p.Rest())
  {
    hide Pool.Valid, Pool.Rest, DelayCleared;
    HeadCleared(requests, finalized, p);
    UsersOthersCleared(p.Rest(), requests[0].delayId);
  }

  lemma AddedUsers(p: Pool<Fn>, fn: Fn)
    requires !fn.User?
    ensures Users(p.Added(fn, None).Rest()) == Users(p.Rest())
  {
    var e := Entry(p.lastid + 1, Some(fn), None);
    assert p.Added(fn, None).Rest() == p.Rest() + [e];
    UsersAppend(p.Rest(), e);
  }

  /** The head leaves the queue: nothing is lost, and no user code has run. */
  lemma PopLoses(a: Q, pushing: bool, err: Err, resume: bool)
    requires Core(a, pushing) && a.requests != []
    ensures a.requests[0].id < |a.h.told|
    ensures NothingLost(a, Deferred(a, err, resume)) && NothingLost(a, Answered(a, err))
    ensures Did(a, Deferred(a, err, resume), NOTHING) && Did(a, Answered(a, err), NOTHING)
  {
    hide ToldOnce, Serial, Counted, Marked, Timed, Pool.Added, DelayCleared, Pool.Rest;
    HeadUsers(a.requests, a.finalized, a.pool);
    AddedUsers(DelayCleared(a.pool, a.requests[0]), Notify(a.requests[0].id, err, resume));
    NothingLostSame(a, a);
  }

  lemma PopExtends(a: Q, pushing: bool, err: Err, resume: bool)
    requires Core(a, pushing) && a.requests != []
    ensures a.requests[0].id < |a.h.told|
    ensures Extends(a, Deferred(a, err, resume)) && Extends(a, Answered(a, err))
  {
    hide ToldOnce, Serial, Counted, Marked, Timed, PoolKept, Pool.Added, DelayCleared, Pool.Rest, ResumePending;
    hide NothingLost;
    PopKept(a.pool, a.requests[0], Notify(a.requests[0].id, err, resume));
    PopLoses(a, pushing, err, resume);
  }

  lemma FinishedLater(a: Q, err: Err, pushing: bool)
    requires Core(a, pushing) && a.requests != []
    requires a.resumeRecursion > SPLIT_RECURSION || !a.requests[0].async
    ensures a.requests[0].id < |a.h.told|
    ensures Finished(a, Deferred(a, err, a.resumeRecursion > SPLIT_RECURSION), err)
  {
    hide Extends, Listed, ToldOnce, Timed, Counted, Serial;
    PopExtends(a, pushing, err, a.resumeRecursion > SPLIT_RECURSION);
    DeferredKeeps(a, err, a.resumeRecursion > SPLIT_RECURSION, pushing);
  }

  /** The immediate case of `done`, with user code and a resume in the middle. */
  lemma FinishedNow(a: Q, err: Err, b: Q, d: Q, threw: bool)
    requires Core(a, false) && a.requests != [] && a.resumeRecursion <= SPLIT_RECURSION
    requires Ran(Entered(a, err), b, Resets(a.requests[0].spec.onNotify))
    requires CalledIn(a, b, err) && b.h.frames != []
    requires Resumed(Opened(Closed(b), InResume), d) && (threw ==> b.h.thrown < d.h.thrown)
    ensures a.h.thrown <= b.h.thrown <= d.h.thrown
    ensures d.h.frames != [] && d.h.frames[|d.h.frames| - 1] == InResume && d.resumeRecursion > 0
    ensures Finished(a, ResumeLeft(d, threw), err)
  {
    hide Core, Inv, Extends, Under, Quiet, Live, Started, Entered, Answered, Ran, Called, CalledIn;
    HeadId(a, false);
    RanFacts(Entered(a, err), b, Resets(a.requests[0].spec.onNotify));
    EnteredThrown(a, err);
    CallbackLeft(a, err, b, Resets(a.requests[0].spec.onNotify));
    PopExtends(a, false, err, false);
    OpenedStarted(Closed(b));
    CoreAsyncHead(a);
    var x := Closed(b);
    var o := Opened(x, InResume);
    ExtendsFacts(Answered(a, err), x);
    ExtendsFacts(o, d);
    ResumedFacts(o, d);
    ResumeLeftKeeps(x, d, threw);
    var r := ResumeLeft(d, threw);
    ExtendsTransitive(Answered(a, err), x, r);
    ExtendsTransitive(a, Answered(a, err), r);
    LeftLive(d, threw);
    CalledThen(a, b, err, r);
    if a.locked > 0 {
      OpenedClosed(x);
      assert r == x;
    }
  }

  /** The callback has returned, not having reset the queue. */
  ghost predicate CalledIn(a: Q, b: Q, err: Err)
    requires a.requests != [] && a.requests[0].id < |a.h.told|
  {
    !Resets(a.requests[0].spec.onNotify) ==> Did(Entered(a, err), b, Does(a.requests[0].spec.onNotify))
  }

  lemma CalledThen(a: Q, b: Q, err: Err, r: Q)
    requires Core(a, false) && a.requests != [] && a.requests[0].id < |a.h.told| && CalledIn(a, b, err)
    requires b.h.frames != [] && Extends(Closed(b), r) && (a.locked > 0 ==> r == Closed(b))
    ensures Called(a, r, a.requests[0].spec.onNotify)
  {
    hide Core, Extends, Users;
    PopLoses(a, false, err, false);
    if !Resets(a.requests[0].spec.onNotify) {
      var d := Does(a.requests[0].spec.onNotify);
      assert Entered(a, err).h.pushed == a.h.pushed;
      assert Did(a, Closed(b), d);
      DidThen(a, Closed(b), r, d);
    }
  }

  lemma EnteredCallable(a: Q, err: Err)
    requires a.requests != [] && a.requests[0].id < |a.h.told| && a.resumeRecursion <= SPLIT_RECURSION
    ensures Callable(Entered(a, err))
  {
  }

  lemma EnteredLeft(a: Q, err: Err)
    requires a.requests != [] && a.requests[0].id < |a.h.told|
    ensures Closed(Entered(a, err)) == Answered(a, err)
  {
    assert Entered(a, err).h.frames[..|a.h.frames|] == a.h.frames;
  }

  lemma EnteredThrown(a: Q, err: Err)
    requires a.requests != [] && a.requests[0].id < |a.h.told|
    ensures Entered(a, err).h.thrown == a.h.thrown && Answered(a, err).locked == a.locked
    ensures Answered(a, err).h.reexecs == a.h.reexecs && Popped(a).h == a.h
  {
  }

  lemma OpenedStarted(x: Q)
    ensures Started(Opened(x, InResume)) == Started(x) && Opened(x, InResume).h.reexecs == x.h.reexecs
  {
  }

  lemma LeftLive(d: Q, threw: bool)
    requires d.h.frames != []
    ensures Live(ResumeLeft(d, threw)) <==> Live(d)
  {
  }

  lemma OpenedClosed(x: Q)
    ensures Closed(Opened(x, InResume)) == x
  {
    assert Opened(x, InResume).h.frames[..|x.h.frames|] == x.h.frames;
  }

  /** Under a lock `resume` finds it. */
  lemma ResumeLocked(a: Q, err: Err, b: Q)
    requires Core(a, false) && a.requests != [] && a.requests[0].id < |a.h.told|
    requires a.resumeRecursion <= SPLIT_RECURSION
    requires Ran(Entered(a, err), b, Resets(a.requests[0].spec.onNotify)) && b.h.frames != []
    ensures Opened(Closed(b), InResume).locked == a.locked
  {
    hide Core, Inv, Extends, Under, Quiet, Ran, Entered, Started, Live;
    CallbackFrames(a, err, b, Resets(a.requests[0].spec.onNotify));
  }

  lemma CoreAsyncHead(a: Q)
    requires Core(a, false) && a.requests != []
    ensures a.requests[0].async
  {
  }

  lemma ResumedFacts(a: Q, b: Q)
    requires Resumed(a, b)
    ensures Inv(b) && Extends(a, b)
  {
  }

  // ---------------------------------------------------------------- resume

  /** `resume` has returned: it did nothing, or executed the head first of all. */
  ghost predicate Resumed(a: Q, b: Q) {
    && Inv(b) && Extends(a, b)
    && (a.locked > 0 || a.requests == [] ==> b == a)
    && (a.locked == 0 && a.requests != [] ==> ExecDone(a, b, false))
    && b.h.reexecs == a.h.reexecs + (if a.locked == 0 && Started(a) then 1 else 0)
    && (a.locked == 0 ==> Live(b))
  }

  // ---------------------------------------------------------------- exec and push

  /** `exec` of the head has returned. */
  ghost predicate ExecDone(a: Q, b: Q, pushing: bool)
    requires a.requests != []
  {
    && Core(b, pushing && b.requests != []) && Live(b) && Extends(a, b)
    && a.h.execs + [Completed(a)] <= b.h.execs
    && b.h.reexecs == a.h.reexecs + (if Started(a) then 1 else 0)
    && (pushing ==> b == ExecutedByPush(a))
    && ExecResult(a, b)
  }

  /** What executing the head does is up to its kind: nothing yet, a delayed failure, or `done` at once. */
  ghost predicate ExecResult(a: Q, b: Q)
    requires a.requests != []
  {
    match a.requests[0].spec.mode
    case InFlight => b == Executed(a)
    case FailsLater(err) => b == FailScheduled(Executed(a), err)
    case Completes(err) => a.requests[0].id < |a.h.told| && Finished(Executed(a), b, err)
  }

  ghost predicate ExecRethrows(a: Q, threw: bool)
    requires a.requests != []
  {
    if a.requests[0].spec.mode.Completes? then Rethrows(Executed(a), threw) else !threw
  }

  lemma ExecutedExtends(a: Q)
    ensures Extends(a, Executed(a)) && Did(a, Executed(a), NOTHING)
  {
    NothingLostSame(a, Executed(a));
    hide NothingLost;
  }

  lemma ExecInFlight(a: Q, pushing: bool)
    requires Core(a, pushing) && a.requests != [] && a.requests[0].spec.mode.InFlight?
    ensures ExecDone(a, Executed(a), pushing)
  {
    hide Core, Extends;
    ExecutedKeeps(a, pushing);
    ExecutedExtends(a);
  }

  lemma FailExtends(a: Q, err: Err)
    requires a.requests != [] && Timed(a.requests, a.finalized, a.pool)
    ensures Extends(a, FailScheduled(a, err)) && Did(a, FailScheduled(a, err), NOTHING)
  {
    hide Timed, Pool.Added, DelayCleared, Pool.Rest, ResumePending, PoolKept;
    PopKept(a.pool, a.requests[0], Fail(a.requests[0].id, err));
    HeadUsers(a.requests, a.finalized, a.pool);
    AddedUsers(DelayCleared(a.pool, a.requests[0]), Fail(a.requests[0].id, err));
    NothingLostSame(a, a);
  }

  lemma CoreTimed(a: Q, pushing: bool)
    requires Core(a, pushing)
    ensures Timed(a.requests, a.finalized, a.pool)
  {
  }

  lemma ExecFailsLater(a: Q, pushing: bool)
    requires Core(a, pushing) && a.requests != [] && a.requests[0].spec.mode.FailsLater?
    ensures ExecDone(a, FailScheduled(Executed(a), a.requests[0].spec.mode.err), pushing)
  {
    hide Core, Extends;
    var err := a.requests[0].spec.mode.err;
    ExecutedKeeps(a, pushing);
    ExecutedExtends(a);
    CoreTimed(Executed(a), pushing);
    FailExtends(Executed(a), err);
    FailScheduledKeeps(Executed(a), err, pushing);
    ExtendsTransitive(a, Executed(a), FailScheduled(Executed(a), err));
  }

  lemma ExtendsExecs(a: Q, b: Q)
    requires Extends(a, b)
    ensures a.h.execs <= b.h.execs
  {
  }

  lemma ExecCompletes(a: Q, b: Q, pushing: bool)
    requires Core(a, pushing) && a.requests != [] && a.requests[0].spec.mode.Completes?
    requires a.requests[0].id < |a.h.told| && Finished(Executed(a), b, a.requests[0].spec.mode.err) && a.locked == 0
    ensures ExecDone(a, b, pushing)
  {
    hide Listed, ToldOnce, Timed, Counted, Serial, Extends, Called, Did;
    ExecutedExtends(a);
    ExtendsTransitive(a, Executed(a), b);
    assert a.h.execs + [Completed(a)] == Executed(a).h.execs <= b.h.execs by { ExtendsExecs(Executed(a), b); }
    if pushing {
      assert b == ExecutedByPush(a);
    }
  }

  lemma MarkedListed(q: Q)
    requires q.requests != [] || q.finalized != []
    requires Listed(q) && ToldOnce(q)
    ensures Listed(MarkedAsync(q)) && ToldOnce(MarkedAsync(q)) && Completed(MarkedAsync(q)) == Completed(q)
  {
    var m := MarkedAsync(q);
    assert Completed(m) == Completed(q);
    assert forall k | 0 <= k < |q.finalized| :: m.finalized[k].id == q.finalized[k].id;
  }

  lemma MarkedWaiting(q: Q)
    requires q.requests != [] || q.finalized != []
    requires Timed(q.requests, q.finalized, q.pool)
    ensures Timed(MarkedAsync(q).requests, MarkedAsync(q).finalized, q.pool)
  {
    hide Pool.Valid, Pool.Rest;
  }

  lemma MarkedAsyncKeeps(q: Q)
    requires q.requests != [] || q.finalized != []
    requires Core(q, q.requests != [])
    ensures Inv(MarkedAsync(q)) && Extends(q, MarkedAsync(q))
    ensures MarkedAsync(q).h == q.h && MarkedAsync(q).locked == q.locked && (Live(q) ==> Live(MarkedAsync(q)))
  {
    hide Timed, Listed, ToldOnce, Serial, NothingLost;
    MarkedListed(q);
    MarkedWaiting(q);
    MarkedLoses(q);
    assert Serial(MarkedAsync(q)) by { MarkedSerial(q); }
  }

  lemma MarkedLoses(q: Q)
    requires q.requests != [] || q.finalized != []
    ensures NothingLost(q, MarkedAsync(q))
  {
    NothingLostSame(q, q);
  }

  lemma MarkedSerial(q: Q)
    requires q.requests != [] || q.finalized != []
    requires Serial(q)
    ensures Serial(MarkedAsync(q))
  {
  }

  lemma {:induction false} LoadSameSpecs(s: seq<Request>, t: seq<Request>)
    requires |s| == |t| && forall i | 0 <= i < |s| :: s[i].spec == t[i].spec
    ensures Load(s) == Load(t)
  {
    if s != [] {
      assert s[0].spec == t[0].spec;
      LoadSameSpecs(s[1..], t[1..]);
    }
  }

  lemma FailLoad(a: Q, err: Err)
    requires a.requests != []
    ensures TotalLoad(FailScheduled(a, err)) == TotalLoad(a)
  {
    LoadSameSpecs(FailScheduled(a, err).requests, a.requests);
  }

  lemma MarkedLoad(q: Q)
    requires q.requests != [] || q.finalized != []
    ensures TotalLoad(MarkedAsync(q)) == TotalLoad(q)
  {
    if q.requests != [] {
      LoadSameSpecs(WithLastAsync(q.requests), q.requests);
    } else {
      LoadSameSpecs(WithLastAsync(q.finalized), q.finalized);
    }
  }

  lemma PushLoad(q: Q, spec: Spec, async: bool)
    ensures TotalLoad(Pushed(q, spec, async)) == TotalLoad(q) + 1 + Size(spec.onNotify)
  {
    LoadAppend(q.requests, Request(q.count, spec, async, 0, false));
  }

  /** A `push` on an idle queue: the request is executed at once, but its callback can only come later. */
  lemma PushedIdle(a: Q, spec: Spec, b: Q)
    requires Inv(a) && a.requests == [] && a.locked == 0
    requires ExecDone(Pushed(a, spec, false), b, true)
    ensures b.requests != [] || b.finalized != []
    ensures MarkedAsync(b) == PushDone(a, spec) && Ran(a, PushDone(a, spec), false)
    ensures Did(a, PushDone(a, spec), Deeds([spec], [], 0))
  {
    hide Listed, ToldOnce, Timed, Counted, Serial;
    var p := Pushed(a, spec, false);
    assert b == ExecutedByPush(p);
    MarkedAsyncKeeps(b);
    assert Extends(a, p) by { PushExtends(a, spec, false); }
    ExtendsTransitive(a, p, b);
    ExtendsTransitive(a, b, MarkedAsync(b));
    assert !Started(p) by { IdleNotStarted(a, spec); }
    PushedKeeps(a, spec, true);
    PushDid(a, spec);
  }

  lemma PushDid(a: Q, spec: Spec)
    requires a.requests == [] && Core(Pushed(a, spec, false), true)
    ensures Did(a, MarkedAsync(ExecutedByPush(Pushed(a, spec, false))), Deeds([spec], [], 0))
  {
    hide Core, Users, Pool.Rest, DelayCleared, Pool.Added;
    var p := Pushed(a, spec, false);
    ExecutedKeeps(p, true);
    match spec.mode
    case InFlight =>
    case Completes(err) =>
      PopLoses(Executed(p), true, err, p.resumeRecursion > SPLIT_RECURSION);
    case FailsLater(err) =>
      CoreTimed(Executed(p), true);
      FailExtends(Executed(p), err);
  }

  lemma IdleNotStarted(a: Q, spec: Spec)
    requires Listed(a) && Serial(a) && a.requests == []
    ensures !Started(Pushed(a, spec, false))
  {
  }

  lemma PushExtends(a: Q, spec: Spec, async: bool)
    requires Inv(a)
    ensures Extends(a, Pushed(a, spec, async))
  {
    hide ToldOnce, Timed, Serial, Counted, Marked, NothingLost;
    NothingLostSame(a, Pushed(a, spec, async));
  }

  // ---------------------------------------------------------------- the finalized loop of cancel

  /** The callbacks of these requests. */
  ghost function Callbacks(rs: seq<Request>): seq<Script> {
    seq(|rs|, i requires 0 <= i < |rs| => rs[i].spec.onNotify)
  }

  lemma CallbacksNext(rs: seq<Request>, k: nat)
    requires k < |rs|
    ensures DoneBy(Callbacks(rs[..k + 1])) == Plus(DoneBy(Callbacks(rs[..k])), Does(rs[k].spec.onNotify))
  {
    assert Callbacks(rs[..k + 1])[..k] == Callbacks(rs[..k]);
  }

  ghost predicate AnyResets(rs: seq<Request>) {
    exists i | 0 <= i < |rs| :: Resets(rs[i].spec.onNotify)
  }

  /** The state of the loop: `k` of the requests finalized at `a` have been told. */
  ghost predicate Draining(a: Q, c: Q, k: nat, swept: bool) {
    && Inv(c) && Extends(a, c) && Under(a, c, swept, -1)
    && k <= |a.finalized| && swept == AnyResets(a.finalized[..k])
    && (!swept ==> c.finalized == a.finalized[k..] && Completed(c) == Completed(a) && c.cancelTill == a.cancelTill)
    && (!swept ==> Did(a, c, DoneBy(Callbacks(a.finalized[..k]))))
  }

  /** After it: nothing is delayed any more; the queue is untouched unless some callback reset it. */
  ghost predicate Drained(a: Q, b: Q) {
    && Inv(b) && Extends(a, b) && b.finalized == []
    && Under(a, b, AnyResets(a.finalized), -1)
    && (!AnyResets(a.finalized) ==> Completed(b) == Completed(a) && b.cancelTill == a.cancelTill)
    && (!AnyResets(a.finalized) ==> Did(a, b, DoneBy(Callbacks(a.finalized))))
  }

  lemma DrainBegins(a: Q)
    requires Inv(a)
    ensures Draining(a, a, 0, false)
  {
    hide Inv;
    ExtendsItself(a);
    assert Callbacks(a.finalized[..0]) == [];
  }

  lemma TakenUnder(c: Q)
    requires Inv(c) && c.finalized != [] && c.locked > 0
    ensures c.finalized[0].id < |c.h.told|
    ensures var t := FinalizedTaken(c);
            && Inv(t) && Extends(c, t) && Under(c, t, false, -1)
            && Completed(t) == Completed(c) && t.cancelTill == c.cancelTill
    ensures TotalLoad(FinalizedTaken(c)) + 1 + Size(c.finalized[0].spec.onNotify) == TotalLoad(c)
  {
    hide Timed, Serial, Counted, Marked, Pool.Rest, ResumePending, DelayCleared, NothingLost;
    FinalizedTakenKeeps(c);
    ClearKept(c.pool, c.finalized[0]);
    TakenLoses(c);
    assert InList(c.finalized, c.finalized[0].id);
  }

  /** Revoking the first delayed notification leaves user code alone. */
  lemma TakenLoses(c: Q)
    requires Inv(c) && c.finalized != [] && c.finalized[0].id < |c.h.told|
    ensures NothingLost(c, FinalizedTaken(c)) && Did(c, FinalizedTaken(c), NOTHING)
  {
    hide Listed, ToldOnce, Serial, Counted, Marked, Timed, Pool.Rest, DelayCleared, Users, Kept;
    CoreTimed(c, false);
    TakenUsers(c.requests, c.finalized, c.pool);
    KeptTail(c.finalized, Completed(c));
  }

  lemma KeptTail(f: seq<Request>, done: nat)
    requires f != []
    ensures Kept(f, done, f[1..])
  {
    forall k | 0 <= k < |f| - 1 ensures HasNote(f, f[1..][k].id, f[1..][k].delayId) {
      assert f[1..][k] == f[k + 1];
    }
  }

  lemma TakenUsers(requests: seq<Request>, finalized: seq<Request>, p: Pool<Fn>)
    requires Timed(requests, finalized, p) && finalized != []
    ensures Users(DelayCleared(p, finalized[0]).Rest()) == Users(p.Rest())
  {
    hide Pool.Valid, Pool.Rest;
    var id := finalized[0].delayId;
    RestNumbered(p) by { ValidShape(p); }
    NoZeroIds(p);
    NotesMember(p.Rest());
    assert Notes(p.Rest())[0] in p.Rest();
    CancelKeeps(p, id);
    UsersOthersCleared(p.Rest(), id);
  }

  lemma ValidShape(p: Pool<Fn>)
    requires p.Valid()
    ensures p.Shape()
  {
  }

  lemma DrainStep(a: Q, c: Q, d: Q, k: nat, swept: bool, resets: bool)
    requires Inv(a) && Draining(a, c, k, swept) && c.finalized != [] && c.locked > 0
    requires c.finalized[0].id < |c.h.told| && Ran(FinalizedTaken(c), d, resets)
    requires resets == Resets(c.finalized[0].spec.onNotify)
    requires !resets ==> Did(FinalizedTaken(c), d, Does(c.finalized[0].spec.onNotify))
    ensures Draining(a, d, if swept then k else k + 1, swept || resets)
  {
    hide Inv, Extends, Under, AnyResets, Did, Callbacks, Quiet;
    TakenUnder(c);
    TakenLoses(c);
    var t := FinalizedTaken(c);
    InvFacts(a);
    InvFacts(c);
    InvFacts(t);
    ExtendsTransitive(c, t, d);
    ExtendsTransitive(a, c, d);
    ExtendsFacts(a, c);
    ExtendsFacts(c, t);
    ExtendsFacts(t, d);
    if !resets {
      QuietFacts(t, d);
    }
    UnderTransitive(c, t, d, false, resets, -1);
    if swept {
      SweptFacts(a, c);
    }
    UnderTransitive(a, c, d, swept, resets, -1);
    if !swept {
      AnyResetsNext(a.finalized, k);
      if !resets {
        CallbacksNext(a.finalized, k);
        DidMore(a, c, t, d, DoneBy(Callbacks(a.finalized[..k])), Does(c.finalized[0].spec.onNotify));
      }
    }
  }

  lemma DrainingCancels(a: Q, c: Q, k: nat, swept: bool)
    requires Draining(a, c, k, swept)
    ensures a.h.cancels <= c.h.cancels && (swept ==> a.h.cancels < c.h.cancels)
  {
    hide Inv, Did, OnlyCancelled, Ordered;
  }

  /** A delayed callback that does not reset throws exactly if it counts. */
  lemma TakenThrown(c: Q, d: Q, script: Script, threw: bool)
    requires c.finalized != [] && c.finalized[0].id < |c.h.told|
    requires !Resets(script) ==> (threw <==> Throws(script)) && Did(FinalizedTaken(c), d, Does(script))
    ensures !Resets(script) ==> d.h.thrown == c.h.thrown + if threw then 1 else 0
  {
    hide Users;
    if !Resets(script) {
      ThrowsOnce(script);
    }
  }

  lemma QuietFacts(a: Q, b: Q)
    requires Quiet(a, b)
    ensures Completed(b) == Completed(a) && b.cancelTill == a.cancelTill && b.finalized == a.finalized
  {
  }

  lemma DidMore(a: Q, c: Q, t: Q, d: Q, x: Deeds, y: Deeds)
    requires Did(a, c, x) && Did(c, t, NOTHING) && Did(t, d, y)
    ensures Did(a, d, Plus(x, y))
  {
    hide Users;
  }

  lemma AnyResetsNext(rs: seq<Request>, k: nat)
    requires k < |rs|
    ensures AnyResets(rs[..k + 1]) <==> AnyResets(rs[..k]) || Resets(rs[k].spec.onNotify)
  {
    if AnyResets(rs[..k]) {
      var i :| 0 <= i < k && Resets(rs[..k][i].spec.onNotify);
      assert rs[..k + 1][i] == rs[..k][i];
    }
    assert rs[..k + 1][k] == rs[k];
    if AnyResets(rs[..k + 1]) {
      var i :| 0 <= i < k + 1 && Resets(rs[..k + 1][i].spec.onNotify);
      assert i < k ==> rs[..k][i] == rs[..k + 1][i];
    }
  }

  lemma SweptFacts(a: Q, b: Q)
    requires Under(a, b, true, -1)
    ensures b.cancelTill == None
  {
  }

  lemma DrainEnds(a: Q, b: Q, k: nat, swept: bool)
    requires Draining(a, b, k, swept) && b.finalized == []
    ensures Drained(a, b)
  {
    hide Inv, Extends, Under;
    if swept {
      var i :| 0 <= i < k && Resets(a.finalized[..k][i].spec.onNotify);
      assert a.finalized[..k][i] == a.finalized[i];
    } else {
      assert k == |a.finalized|;
      assert a.finalized[..k] == a.finalized;
    }
  }

  lemma DrainingFacts(a: Q, c: Q, k: nat, swept: bool)
    requires Draining(a, c, k, swept)
    ensures Inv(c) && c.pool.Valid() && c.resumeRecursion == a.resumeRecursion && c.h.leak == a.h.leak
    ensures a.resumeRecursion <= SPLIT_RECURSION ==> |c.finalized| <= |a.finalized|
  {
  }

  lemma RanFacts(a: Q, b: Q, resets: bool)
    requires Ran(a, b, resets)
    ensures Inv(b) && b.locked == a.locked && a.h.thrown <= b.h.thrown && Extends(a, b)
  {
    hide Inv;
  }

  /** One finalized request waits, there is room, and its callback pushes something after its last reset. */
  ghost predicate OneLeaves(q: Q) {
    q.resumeRecursion <= SPLIT_RECURSION && |q.finalized| == 1 && Leaves(q.finalized[0].spec.onNotify)
  }

  lemma TakenCallable(a: Q, c: Q)
    requires Callable(a) && a.locked > 0 && c.finalized != [] && c.finalized[0].id < |c.h.told|
    requires c.resumeRecursion == a.resumeRecursion && c.h.leak == a.h.leak && c.locked > 0
    ensures Callable(FinalizedTaken(c))
  {
  }

  lemma RanFinalized(a: Q, b: Q, resets: bool)
    requires Ran(a, b, resets) && a.locked > 0
    ensures a.resumeRecursion <= SPLIT_RECURSION && a.finalized == [] ==> b.finalized == []
  {
    hide Inv, Extends, OnlyCancelled, Quiet, Swept, Steady, Live;
    NoneFinalized(a, b);
  }

  lemma QuietKeeps(a: Q, b: Q)
    requires Ran(a, b, false) && a.locked > 0 && Inv(a)
    ensures a.requests != [] ==> b.requests != []
  {
    hide ToldOnce, Timed, Serial, Marked, Counted, OnlyCancelled, Ordered, PoolKept, Live;
  }
}
