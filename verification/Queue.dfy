/**
The request queue itself: `Queue` of `Queue.h` with the parts of `Request.h` it uses.

Methods that can throw return whether they did.  Every method that can run user code leaves
the invariant intact whenever user code gets control, at any depth.
*/
module Queues {
  import opened Basics
  import opened Delayers
  import opened QueueModel
  import opened QueueRelations
  import opened QueueSteps
  import opened CancelSteps
  import opened Cascades

  class Queue {
    var requests: seq<Request>
    var finalized: seq<Request>
    var locked: nat
    var cancelGen: nat
    var cancelTill: Option<nat>
    var resumeRecursion: nat
    var count: nat
    const delayer: Delayer<Fn>
    ghost var h: History

    ghost function S(): Q
      reads this, delayer
    {
      Q(requests, finalized, locked, cancelGen, cancelTill, resumeRecursion, count, delayer.View(), h)
    }

    constructor ()
      ensures S() == Empty() && fresh(delayer)
    {
      requests, finalized, locked, cancelGen, cancelTill, resumeRecursion, count := [], [], 0, 0, None, 0, 0;
      h := NoHistory;
      delayer := new Delayer();
    }

    /** `delay_cancel` of a request that is out of the lists. */
    method DelayCancel(r: Request)
      requires delayer.View().Valid()
      modifies delayer
      ensures delayer.View() == DelayCleared(old(delayer.View()), r) && delayer.View().Valid()
    {
      if r.delayId != 0 {
        var _ := delayer.Cancel(r.delayId);
      }
    }

    /** The head leaves the queue: the cancel target is met if it was that, and the backend is detached. */
    method PopHead()
      requires requests != [] && delayer.View().Valid()
      modifies this, delayer
      ensures S() == Popped(old(S())) && delayer.View().Valid()
    {
      var req := requests[0];
      if Some(req.id) == cancelTill {
        cancelTill := None;
      }
      DelayCancel(req);
      requests := requests[1..];
    }

    method Done(err: Err, ghost pushing: bool) returns (threw: bool)
      requires Core(S(), pushing) && requests != []
      modifies this, delayer
      ensures Finished(old(S()), S(), err) && Rethrows(old(S()), threw)
      ensures Chain(old(S())) ==> !threw && S() == Cascaded(old(S()), err)
      ensures threw ==> old(h.thrown) < h.thrown
      ensures TotalLoad(S()) <= TotalLoad(old(S()))
      ensures TotalLoad(S()) == TotalLoad(old(S())) ==> |requests| < |old(requests)|
      decreases TotalLoad(S()), 1
    {
      hide Core, Inv, Extends, Under, Quiet, Finished, Pool.Valid, Pool.Cancelled, Load, Size, Chain, Cascaded;
      ghost var a := S();
      HeadId(a, pushing);
      CorePool(a, pushing);
      DoneLoad(a);
      var req := requests[0];
      PopHead();
      if resumeRecursion > SPLIT_RECURSION {
        FinalizeLater(req, err, true);
        threw := false;
        if Chain(a) {
          CascadeSplits(a, err);
        }
        FinishedLater(a, err, pushing);
      } else if req.async {
        CoreAsync(a, pushing);
        threw := CallNow(req, err, a);
      } else {
        FinalizeLater(req, err, false);
        threw := false;
        if Chain(a) {
          CascadeGoesOn(a, err);
        }
        FinishedLater(a, err, pushing);
      }
    }

    /** The user callback runs under a lock; then what it added is executed. */
    method CallNow(req: Request, err: Err, ghost a: Q) returns (threw: bool)
      requires Core(a, false) && a.requests != [] && a.resumeRecursion <= SPLIT_RECURSION && req == a.requests[0]
      requires S() == Popped(a)
      modifies this, delayer
      ensures Finished(a, S(), err) && Rethrows(a, threw)
      ensures Chain(a) ==> !threw && S() == Cascaded(a, err)
      ensures threw ==> old(h.thrown) < h.thrown
      ensures TotalLoad(S()) < TotalLoad(a)
      decreases TotalLoad(a), 0
    {
      hide Core, Inv, Extends, Under, Quiet, Finished, Pool.Valid, TotalLoad, Size, Chain, Cascaded;
      hide Popped, Entered, Callable, Ran, Did;
      HeadId(a, false);
      CoreAsyncHead(a);
      DoneLoad(a);
      EnteredKeeps(a, err);
      EnteredCallable(a, err);
      EnteredThrown(a, err);
      if Chain(a) {
        CascadeGoesOn(a, err);
      }
      EnterCallback(req, err, a);
      threw := RunScript(req.spec.onNotify);
      RanFacts(Entered(a, err), S(), Resets(req.spec.onNotify));
      var t := LeaveCallback(err, a);
      threw := threw || t;
    }

    /** The callback has returned or thrown: the lock is given back and the queue resumed. */
    method LeaveCallback(err: Err, ghost a: Q) returns (threw: bool)
      requires Core(a, false) && a.requests != [] && a.requests[0].id < |a.h.told|
      requires a.resumeRecursion <= SPLIT_RECURSION
      requires Ran(Entered(a, err), S(), Resets(a.requests[0].spec.onNotify)) && CalledIn(a, S(), err)
      modifies this, delayer
      ensures Finished(a, S(), err) && (a.locked > 0 ==> !threw)
      ensures Chain(a) && old(S()) == Entered(a, err) ==> !threw && S() == Cascaded(a, err)
      ensures old(h.thrown) <= h.thrown && (threw ==> old(h.thrown) < h.thrown)
      ensures TotalLoad(S()) <= TotalLoad(old(S()))
      decreases TotalLoad(S()), 4
    {
      hide Core, Inv, Extends, Under, Quiet, Finished, Pool.Valid, Load, Chain, Cascaded, Ran, Entered, Answered;
      hide CalledIn, ExecDone, ExecRethrows;
      ghost var b := S();
      CallbackLeft(a, err, b, Resets(a.requests[0].spec.onNotify));
      if Chain(a) {
        EnteredLeft(a, err);
        CascadeGoesOn(a, err);
      }
      Unlock();
      BeginResume();
      ResumeLocked(a, err, b);
      threw := Resume();
      FinishedNow(a, err, b, S(), threw);
      EndResume(threw);
    }

    /** The head, which is out of the queue, is told and its callback is called. */
    method EnterCallback(req: Request, err: Err, ghost a: Q)
      requires a.requests != [] && req == a.requests[0] && req.id < |a.h.told| && S() == Popped(a)
      modifies this
      ensures S() == Entered(a, err)
    {
      h := Told(h, req.id, err);
      Lock(InCallback(req.id));
    }

    /** `++locked`, with the frame that does it. */
    method Lock(ghost f: Frame)
      requires f.InCallback? || f.InCancel?
      modifies this
      ensures S() == Opened(old(S()), f)
    {
      locked := locked + 1;
      h := h.(frames := h.frames + [f]);
    }

    method Unlock()
      requires h.frames != [] && locked > 0
      requires h.frames[|h.frames| - 1].InCallback? || h.frames[|h.frames| - 1].InCancel?
      modifies this
      ensures S() == Closed(old(S()))
    {
      locked := locked - 1;
      h := h.(frames := h.frames[..|h.frames| - 1]);
    }

    method BeginResume()
      modifies this
      ensures S() == Opened(old(S()), InResume)
    {
      resumeRecursion := resumeRecursion + 1;
      h := h.(frames := h.frames + [InResume]);
    }

    /** An exception out of `resume` jumps over the decrement. */
    method EndResume(threw: bool)
      requires h.frames != [] && h.frames[|h.frames| - 1] == InResume && resumeRecursion > 0
      modifies this
      ensures S() == ResumeLeft(old(S()), threw)
    {
      if threw {
        h := h.(frames := h.frames[..|h.frames| - 1], leak := h.leak + 1);
      } else {
        resumeRecursion := resumeRecursion - 1;
        h := h.(frames := h.frames[..|h.frames| - 1]);
      }
    }

    /** The request moves to `finalized` and its notification to the loop. */
    method FinalizeLater(req: Request, err: Err, resume: bool)
      requires delayer.View().Valid()
      modifies this, delayer
      ensures S() == old(S()).(finalized := old(finalized) + [req.(delayId := old(delayer.lastid) + 1)],
                               pool := old(delayer.View()).Added(Notify(req.id, err, resume), None),
                               h := old(h).(splits := old(h.splits) + if resume then 1 else 0))
    {
      h := h.(splits := h.splits + if resume then 1 else 0);
      var id := delayer.Add(Notify(req.id, err, resume), None);
      finalized := finalized + [req.(delayId := id)];
    }

    method Exec(ghost pushing: bool) returns (threw: bool)
      requires Core(S(), pushing) && requests != [] && locked == 0
      modifies this, delayer
      ensures ExecDone(old(S()), S(), pushing) && ExecRethrows(old(S()), threw)
      ensures old(requests)[0].spec.mode.Completes? && Chain(Executed(old(S()))) ==>
                !threw && S() == Cascaded(Executed(old(S())), old(requests)[0].spec.mode.err)
      ensures threw ==> old(h.thrown) < h.thrown
      ensures TotalLoad(S()) <= TotalLoad(old(S()))
      decreases TotalLoad(S()), 2
    {
      hide Core, Inv, Extends, Under, Quiet, Finished, ExecDone, Pool.Valid, Pool.Cancelled;
      hide Pool.Added, Load, Size, Chain, Cascaded, Rethrows;
      ghost var a := S();
      HeadId(a, pushing);
      CorePool(a, pushing);
      ExecutedKeeps(a, pushing);
      h := Executed(S()).h;
      assert S() == Executed(a);
      match requests[0].spec.mode
      case InFlight =>
        threw := false;
        ExecInFlight(a, pushing);
      case Completes(err) =>
        threw := Done(err, pushing);
        ExecCompletes(a, S(), pushing);
      case FailsLater(err) =>
        threw := false;
        ScheduleFail(err);
        FailLoad(Executed(a), err);
        ExecFailsLater(a, pushing);
    }

    /** `delay` of the head's failure. */
    method ScheduleFail(err: Err)
      requires requests != [] && delayer.View().Valid()
      modifies this, delayer
      ensures S() == FailScheduled(old(S()), err)
    {
      var r := requests[0];
      DelayCancel(r);
      var id := delayer.Add(Fail(r.id, err), None);
      requests := requests[0 := r.(delayId := id)];
    }

    method Resume() returns (threw: bool)
      requires Core(S(), false)
      modifies this, delayer
      ensures Resumed(old(S()), S())
      ensures if old(locked) == 0 && old(requests) != [] then ExecRethrows(old(S()), threw) else !threw
      ensures old(locked) == 0 && old(requests) != [] && old(requests)[0].spec.mode.Completes?
              && Chain(Executed(old(S()))) ==>
                !threw && S() == Cascaded(Executed(old(S())), old(requests)[0].spec.mode.err)
      ensures threw ==> old(h.thrown) < h.thrown
      ensures TotalLoad(S()) <= TotalLoad(old(S()))
      decreases TotalLoad(S()), 3
    {
      hide Core, Extends, Load, Size, Pool.Valid, Chain, Cascaded, ExecRethrows, ExecResult;
      threw := false;
      if requests != [] && locked == 0 {
        threw := Exec(false);
      } else {
        ExtendsItself(S());
      }
    }

    method PushRequest(spec: Spec)
      requires Inv(S())
      modifies this, delayer
      ensures S() == PushDone(old(S()), spec) && Ran(old(S()), S(), false)
      ensures Did(old(S()), S(), Deeds([spec], [], 0))
      ensures TotalLoad(S()) <= TotalLoad(old(S())) + 1 + Size(spec.onNotify)
      decreases TotalLoad(S()) + 1 + Size(spec.onNotify), 4
    {
      hide Core, Inv, Extends, Under, Quiet, Ran, ExecDone, ExecRethrows, Load, Size, ExecutedByPush, Users;
      ghost var a := S();
      PushLoad(a, spec, false);
      PushLoad(a, spec, true);
      Append(spec);
      if |requests| == 1 && locked == 0 {
        PushedKeeps(a, spec, true);
        var threw := Exec(true);
        PushedIdle(a, spec, S());
        MarkedLoad(S());
      } else {
        RanPush(a, spec);
      }
      SetAsync();
    }

    /** The request enters the queue, not yet allowed to call back. */
    method Append(spec: Spec)
      modifies this
      ensures S() == Pushed(old(S()), spec, false)
    {
      requests := requests + [Request(count, spec, false, 0, false)];
      count := count + 1;
      h := h.(pushed := h.pushed + [spec], told := h.told + [[]]);
    }

    /** The pushed request, still last in the queue or already finalized, may call back from now on. */
    method SetAsync()
      requires requests != [] || finalized != []
      modifies this
      ensures S() == MarkedAsync(old(S()))
    {
      if requests != [] {
        requests := WithLastAsync(requests);
      } else {
        finalized := WithLastAsync(finalized);
      }
    }

    /** User code. */
    method RunScript(s: Script) returns (threw: bool)
      requires Inv(S()) && Callable(S())
      modifies this, delayer
      ensures Ran(old(S()), S(), Resets(s))
      ensures s.Return? ==> !threw && S() == old(S())
      ensures s.Throw? ==> threw && S() == Thrown(old(S()))
      ensures !Resets(s) ==> (threw <==> Throws(s)) && Did(old(S()), S(), Does(s))
      ensures !threw ==> Carried(s, old(S()), S())
      ensures s.Reset? && old(resumeRecursion) <= SPLIT_RECURSION ==> AllCancelled(old(S()), S())
      ensures Leaves(s) && old(locked) > 0 ==> requests != []
      ensures threw ==> old(h.thrown) < h.thrown
      ensures TotalLoad(S()) <= TotalLoad(old(S())) + Size(s)
      decreases TotalLoad(S()) + Size(s), 4
    {
      hide Core, Inv, Extends, Under, Quiet, Ran, Load, Pool.Valid, Cancelled, Resumed, Pool.Added, Did;
      hide Carried, AllCancelled;
      ghost var a := S();
      match s
      case Return =>
        threw := false;
        RanNothing(a);
        DidNothing(a, a);
        CarriedNothing(a);
      case Throw =>
        threw := true;
        h := h.(thrown := h.thrown + 1);
        RanThrow(a);
      case Push(spec, next) =>
        PushRequest(spec);
        ghost var b := S();
        RanFacts(a, b, false);
        CallableKept(a, b, false);
        threw := RunScript(next);
        RanTransitive(a, b, S(), false, Resets(next));
        RanFacts(b, S(), Resets(next));
        if !threw {
          CarriedPush(s, a, b, S());
        }
        if !Resets(next) {
          DidTransitive(a, b, S(), Deeds([spec], [], 0), Does(next));
          if a.locked > 0 {
            QuietKeeps(b, S());
          }
        }
      case Reset(caught, next) =>
        ghost var log;
        var stray;
        threw, stray, log := Cancel(NoPre, Teardown, None);
        ghost var b := S();
        RanReset(a, log.mid, b);
        RanFacts(a, b, true);
        ResumedFacts(log.mid, b);
        if !threw || caught {
          CallableKept(a, b, true);
          threw := RunScript(next);
          RanTransitive(a, b, S(), true, Resets(next));
          RanFacts(b, S(), Resets(next));
          ExtendsTransitive(log.mid, b, S());
          if !threw {
            CarriedReset(s, a, b, S());
          }
        }
        if a.resumeRecursion <= SPLIT_RECURSION {
          ResetCancels(a, log.mid, S());
        }
      case Defer(fn, next) =>
        InvPool(a);
        var _ := delayer.Add(User(fn), None);
        ghost var b := S();
        RanDefer(a, fn);
        UserAdded(a, fn);
        RanFacts(a, b, false);
        CallableKept(a, b, false);
        threw := RunScript(next);
        RanTransitive(a, b, S(), false, Resets(next));
        RanFacts(b, S(), Resets(next));
        if !threw {
          CarriedDefer(s, a, b, S());
        }
        if !Resets(next) {
          DidTransitive(a, b, S(), Deeds([], [fn], 0), Does(next));
        }
    }

    /** `++locked` and the target: not what is added while callbacks run. */
    method BeginCancel(till: Option<nat>)
      modifies this
      ensures S() == CancelBegun(old(S()), till)
    {
      cancelTill :=
        if till.Some? then till else if requests == [] then None else Some(requests[|requests| - 1].id);
      h := h.(cancels := h.cancels + 1, bound := if till.Some? then till.value + 1 else |h.pushed|);
      Lock(InCancel);
    }

    method EndCancel()
      requires h.frames != [] && h.frames[|h.frames| - 1] == InCancel && locked > 0
      modifies this
      ensures S() == CancelEnded(old(S()))
    {
      cancelTill := None;
      Unlock();
    }

    /**
    `fpre`: `done` of the connect.  If a delayed callback has cancelled that already the program calls
    `done` all the same, for a request that is gone; here it is reported as `stray`.
    */
    method RunPre(pre: Pre) returns (threw: bool, stray: bool)
      requires Inv(S()) && locked > 0 && (resumeRecursion <= SPLIT_RECURSION ==> finalized == [])
      modifies this, delayer
      ensures stray <==> pre.FailConnect? && (old(requests) == [] || old(requests)[0].id != pre.req)
      ensures stray ==> S() == old(S())
      ensures Prepared(old(S()), S(), pre)
      ensures threw ==> old(h.thrown) < h.thrown
      ensures h.cancels == old(h.cancels) ==> (threw <==> old(h.thrown) < h.thrown)
      ensures TotalLoad(S()) <= TotalLoad(old(S()))
      decreases TotalLoad(S()), 2
    {
      hide Core, Extends, Under, Load, Size, HeadGone, Finished, Rethrows;
      threw := false;
      stray := pre.FailConnect? && (requests == [] || requests[0].id != pre.req);
      if pre.FailConnect? && !stray {
        ghost var a := S();
        HeadId(a, false);
        threw := Done(pre.err, false);
        PreparedConnect(a, S(), pre);
        HeadThrown(a, S(), pre.req, threw);
      }
    }

    method LoopIfNeeded(ghost own: int) returns (failed: bool)
      requires Inv(S()) && locked > 0 && (resumeRecursion <= SPLIT_RECURSION ==> finalized == [])
      modifies this, delayer
      ensures LoopedIfNeeded(old(S()), S(), own)
      ensures failed ==> old(h.thrown) < h.thrown
      ensures h.cancels == old(h.cancels) ==> (failed <==> old(h.thrown) < h.thrown)
      ensures TotalLoad(S()) <= TotalLoad(old(S()))
      decreases TotalLoad(S()), 5
    {
      hide Inv, Extends, Under, Load, Size, Looped;
      failed := false;
      if |requests| > 0 && cancelTill.Some? {
        TillQueued(S());
        failed := CancelLoop(own);
      }
    }

    /** `fpost` and the generation it completes. */
    method RunPost(post: Post, ran: bool, ghost a: Q, ghost pre: Pre, ghost till: Option<nat>) returns (threw: bool)
      requires Inv(a) && CancelAllowed(a, pre, post, till) && Decided(a, S(), pre, till)
      requires ran <==> cancelGen == a.cancelGen
      modifies this, delayer
      ensures ran <==> !CallbacksReset(a, till)
      ensures h.frames != [] && h.frames[|h.frames| - 1] == InCancel && locked > 0
      ensures Cancelled(a, CancelEnded(S()), pre, post, till)
      ensures post.Teardown? ==> S() == if ran then Bumped(old(S())) else old(S())
      ensures old(h.thrown) <= h.thrown && (threw ==> old(h.thrown) < h.thrown)
      ensures old(h.cancels) <= h.cancels
      ensures h.cancels == old(h.cancels) ==> (threw <==> old(h.thrown) < h.thrown)
      ensures TotalLoad(S()) <= TotalLoad(old(S()))
      decreases TotalLoad(S()), 3
    {
      hide Core, Inv, Extends, Under, Load, Size, Cancelled, Decided, CallbacksReset, HeadGone, Pool.Valid, Rethrows;
      ghost var d := S();
      threw := false;
      match post
      case Teardown =>
        if ran {
          cancelGen := cancelGen + 1;
        }
        CancelledTeardown(a, d, pre, ran);
      case Expire(req) =>
        if ran {
          ExpireFirst(a, d, post, till);
          threw := Done(TimedOut, false);
          ghost var e := S();
          HeadGoneFrom(d, e, TimedOut, -1);
          HeadThrown(d, e, -1, threw);
          if !threw {
            cancelGen := cancelGen + 1;
          }
          CancelledExpire(a, d, e, post, till, ran, threw);
        } else {
          CancelledExpire(a, d, d, post, till, ran, threw);
        }
    }

    /**
    `cancel`.  The log holds the states it went through; `threw` reports an exception of `resume`
    or the first one kept from the callbacks.  `stray`: it got to `done` of a connect that is gone,
    and nothing is claimed from there on.
    */
    method Cancel(pre: Pre, post: Post, till: Option<nat>) returns (threw: bool, stray: bool, ghost log: CancelLog)
      requires Inv(S()) && Callable(S()) && CancelAllowed(S(), pre, post, till)
      modifies this, delayer
      ensures stray <==> pre.FailConnect? && AnyResets(old(finalized))
      ensures Drained(CancelBegun(old(S()), till), log.drained) && (stray ==> S() == log.drained)
      ensures stray && OneLeaves(old(S())) ==> requests != []
      ensures !stray ==> Cancelled(old(S()), log.mid, pre, post, till) && Resumed(log.mid, S())
      ensures !stray ==> (log.ran <==> !CallbacksReset(old(S()), till))
      ensures !stray ==> Prepared(log.drained, log.prepared, pre)
      ensures !stray ==> LoopedIfNeeded(log.prepared, log.decided, Own(pre))
      ensures !stray ==> Decided(old(S()), log.decided, pre, till)
      ensures !stray && post.Teardown? ==>
                && log.decided.h.frames != []
                && log.mid == CancelEnded(if log.ran then Bumped(log.decided) else log.decided)
      ensures !stray ==> (threw <==> log.kept || log.escaped)
      ensures !stray && log.escaped ==> log.mid.h.thrown < h.thrown && log.mid.locked == 0 && log.mid.requests != []
      ensures !stray && !Overtaken(old(S()), post, till) ==>
                (log.kept <==> AnyThrows(CalledTo(old(S()), CancelEnd(old(S()), post, till))))
      ensures threw ==> old(h.thrown) < h.thrown
      ensures TotalLoad(S()) <= TotalLoad(old(S()))
      decreases TotalLoad(S()), 7
    {
      hide Core, Inv, Extends, Under, OnlyCancelled, Load, Size, Pool.Valid, Completed;
      hide Cancelled, Resumed, Drained, Prepared, Decided, LoopedIfNeeded, CallbacksReset, AnyResets;
      hide Overtaken, AnyThrows, CalledTo, ExecRethrows;
      ghost var a := S();
      CancelBegunKeeps(a, till);
      BeginCancel(till);
      var gen := cancelGen;
      var failed := DrainFinalized();
      ghost var b := S();
      DrainedFacts(CancelBegun(a, till), b);
      if pre.FailConnect? {
        GoneIff(a, b, pre);
      }
      var t;
      t, stray := RunPre(pre);
      if stray {
        threw := false;
        log := CancelLog(b, b, b, b, false, false, false);
        return;
      }
      PreparedFacts(b, S(), pre);
      threw, log := CancelRest(gen, failed || t, pre, post, till, a, b);
    }

    /** `cancel` from its second loop on. */
    method CancelRest(gen: nat, kept: bool, pre: Pre, post: Post, ghost till: Option<nat>, ghost a: Q, ghost b: Q)
      returns (threw: bool, ghost log: CancelLog)
      requires Inv(a) && CancelAllowed(a, pre, post, till) && gen == a.cancelGen
      requires Drained(CancelBegun(a, till), b) && Prepared(b, S(), pre) && Inv(S()) && locked > 0
      requires resumeRecursion <= SPLIT_RECURSION ==> finalized == []
      requires a.h.thrown <= h.thrown && (kept ==> a.h.thrown < h.thrown) && a.h.cancels + 1 <= h.cancels
      requires h.cancels == a.h.cancels + 1 ==> (kept <==> a.h.thrown < h.thrown)
      modifies this, delayer
      ensures log.drained == b && log.prepared == old(S())
      ensures Cancelled(a, log.mid, pre, post, till) && Resumed(log.mid, S())
      ensures log.ran <==> !CallbacksReset(a, till)
      ensures LoopedIfNeeded(log.prepared, log.decided, Own(pre)) && Decided(a, log.decided, pre, till)
      ensures post.Teardown? ==>
                && log.decided.h.frames != []
                && log.mid == CancelEnded(if log.ran then Bumped(log.decided) else log.decided)
      ensures threw <==> log.kept || log.escaped
      ensures log.escaped ==> log.mid.h.thrown < h.thrown && log.mid.locked == 0 && log.mid.requests != []
      ensures !Overtaken(a, post, till) ==> (log.kept <==> AnyThrows(CalledTo(a, CancelEnd(a, post, till))))
      ensures threw ==> a.h.thrown < h.thrown
      ensures TotalLoad(S()) <= TotalLoad(old(S()))
      decreases TotalLoad(S()), 6
    {
      hide Core, Inv, Extends, Under, OnlyCancelled, Load, Size, Pool.Valid, Completed;
      hide Cancelled, Resumed, Drained, Prepared, Decided, LoopedIfNeeded, CallbacksReset, AnyResets;
      hide Overtaken, AnyThrows, CalledTo, ExecRethrows, Target, CancelEnd, CancelBegun, CancelAllowed;
      ghost var p := S();
      var t := LoopIfNeeded(Own(pre));
      var failed := kept || t;
      ghost var d := S();
      LoopedFacts(p, d, Own(pre));
      DecidedFrom(a, b, p, d, pre, post, till);
      var ran := gen == cancelGen;
      t := RunPost(post, ran, a, pre, till);
      failed := failed || t;
      ghost var m, escaped;
      threw, m, escaped := CloseCancel(failed, pre, post, till, a);
      log := CancelLog(b, p, d, m, ran, failed, escaped);
    }

    /** The lock is given back, the queue resumed, and what was kept thrown again. */
    method CloseCancel(kept: bool, ghost pre: Pre, post: Post, ghost till: Option<nat>, ghost a: Q)
      returns (threw: bool, ghost m: Q, ghost escaped: bool)
      requires Inv(a) && CancelAllowed(a, pre, post, till)
      requires h.frames != [] && h.frames[|h.frames| - 1] == InCancel && locked > 0
      requires Cancelled(a, CancelEnded(S()), pre, post, till)
      requires (kept ==> a.h.thrown < h.thrown) && (h.cancels == a.h.cancels + 1 ==> (kept <==> a.h.thrown < h.thrown))
      modifies this, delayer
      ensures m == CancelEnded(old(S())) && Resumed(m, S())
      ensures threw <==> kept || escaped
      ensures escaped ==> m.h.thrown < h.thrown && m.locked == 0 && m.requests != []
      ensures Completed(a) <= CancelEnd(a, post, till) <= |a.h.pushed|
      ensures !Overtaken(a, post, till) ==> (kept <==> AnyThrows(CalledTo(a, CancelEnd(a, post, till))))
      ensures threw ==> a.h.thrown < h.thrown
      ensures TotalLoad(S()) <= TotalLoad(old(S()))
      decreases TotalLoad(S()), 5
    {
      hide Core, Inv, Extends, Load, Size, Cancelled, Resumed, CallbacksReset, CancelAllowed;
      hide Overtaken, AnyThrows, CalledTo, ExecRethrows;
      EndCancel();
      m := S();
      CancelledFacts(a, m, pre, post, till);
      KeptFrom(a, m, pre, post, till, kept);
      threw := Resume();
      escaped := threw;
      ResumedFacts(m, S());
      ExtendsFacts(m, S());
      if !threw {
        threw := kept;
      }
    }

    /** `finalized` loses its first request, whose delayed callback is revoked and which is told it is cancelled. */
    method TakeFinalized()
      requires finalized != [] && delayer.View().Valid() && finalized[0].id < |h.told|
      modifies this, delayer
      ensures S() == FinalizedTaken(old(S()))
    {
      var cur := finalized[0];
      finalized := finalized[1..];
      DelayCancel(cur);
      h := Told(h, cur.id, Canceled);
    }

    /** The first loop of `cancel`. */
    method DrainFinalized() returns (failed: bool)
      requires Inv(S()) && Callable(S()) && locked > 0
      modifies this, delayer
      ensures Drained(old(S()), S())
      ensures OneLeaves(old(S())) ==> requests != []
      ensures failed ==> old(h.thrown) < h.thrown
      ensures h.cancels == old(h.cancels) ==> (failed <==> old(h.thrown) < h.thrown)
      ensures TotalLoad(S()) <= TotalLoad(old(S()))
      decreases TotalLoad(S()), 5
    {
      hide Core, Inv, Extends, Under, Quiet, Ran, Load, Size, Pool.Valid, Draining, Drained, Did;
      ghost var a := S();
      ghost var k, swept := 0, false;
      DrainBegins(a);
      failed := false;
      while finalized != []
        invariant Draining(a, S(), k, swept) && locked > 0
        invariant OneLeaves(a) ==> S() == a || (finalized == [] && requests != [])
        invariant a.h.thrown <= h.thrown && (failed ==> a.h.thrown < h.thrown)
        invariant a.h.cancels <= h.cancels && (swept ==> a.h.cancels < h.cancels)
        invariant !swept ==> (failed <==> a.h.thrown < h.thrown)
        invariant TotalLoad(S()) <= TotalLoad(a)
        decreases TotalLoad(S())
      {
        ghost var c := S();
        DrainingFacts(a, c, k, swept);
        TakenUnder(c);
        var cur := finalized[0];
        TakeFinalized();
        TakenCallable(a, c);
        var threw := RunScript(cur.spec.onNotify);
        failed := failed || threw;
        DrainStep(a, c, S(), k, swept, Resets(cur.spec.onNotify));
        RanFinalized(FinalizedTaken(c), S(), Resets(cur.spec.onNotify));
        RanFacts(FinalizedTaken(c), S(), Resets(cur.spec.onNotify));
        TakenThrown(c, S(), cur.spec.onNotify, threw);
        k := if swept then k else k + 1;
        swept := swept || Resets(cur.spec.onNotify);
        DrainingCancels(a, S(), k, swept);
      }
      DrainEnds(a, S(), k, swept);
    }

    /** `cancel` of the head during a cancel: `done` with the error its kind calls for. */
    method CancelHead(ghost own: int) returns (threw: bool)
      requires Core(S(), false) && requests != [] && locked > 0
      requires requests[0].timedOut <==> requests[0].id in h.flagged
      requires resumeRecursion <= SPLIT_RECURSION ==> finalized == []
      modifies this, delayer
      ensures HeadGone(old(S()), S(), own)
      ensures threw ==> old(h.thrown) < h.thrown
      ensures h.cancels == old(h.cancels) ==> (threw <==> old(h.thrown) < h.thrown)
      ensures TotalLoad(S()) <= TotalLoad(old(S()))
      ensures TotalLoad(S()) == TotalLoad(old(S())) ==> |requests| < |old(requests)|
      decreases TotalLoad(S()), 2
    {
      hide Core, Inv, Extends, Under, Load, Size, HeadGone, Finished, Rethrows;
      ghost var a := S();
      HeadId(a, false);
      var err := if requests[0].timedOut then TimedOut else Canceled;
      threw := Done(err, false);
      HeadGoneFrom(a, S(), err, own);
      HeadThrown(a, S(), own, threw);
    }

    /** The second loop of `cancel`. */
    method CancelLoop(ghost own: int) returns (failed: bool)
      requires Inv(S()) && locked > 0 && cancelTill.Some? && Completed(S()) <= cancelTill.value
      requires resumeRecursion <= SPLIT_RECURSION ==> finalized == []
      modifies this, delayer
      ensures Looped(old(S()), S(), own)
      ensures failed ==> old(h.thrown) < h.thrown
      ensures h.cancels == old(h.cancels) ==> (failed <==> old(h.thrown) < h.thrown)
      ensures TotalLoad(S()) <= TotalLoad(old(S()))
      decreases TotalLoad(S()), 4
    {
      hide Core, Inv, Extends, Under, Load, Size, HeadGone, Looping, Looped, Completed;
      ghost var a := S();
      ghost var k, swept := 0, false;
      LoopBegins(a, own);
      failed := false;
      var again := true;
      while again
        invariant Looping(a, S(), k, swept, own) && locked > 0
        invariant again <==> cancelTill.Some?
        invariant again ==> !swept
        invariant a.h.thrown <= h.thrown && (failed ==> a.h.thrown < h.thrown)
        invariant a.h.cancels <= h.cancels
        invariant h.cancels == a.h.cancels ==> (failed <==> a.h.thrown < h.thrown)
        invariant TotalLoad(S()) <= TotalLoad(a)
        decreases TotalLoad(S()), |requests|
      {
        ghost var c := S();
        LoopHead(a, c, k, own);
        LoopingFacts(a, c, k, swept, own);
        var cur := requests[0].id;
        var threw := CancelHead(own);
        failed := failed || threw;
        HeadCancels(c, S(), own);
        LoopStep(a, c, S(), k, own);
        swept := HeadResets(c);
        k := k + 1;
        LoopingFacts(a, S(), k, swept, own);
        again := cancelTill.Some? && Some(cur) != cancelTill;
      }
      LoopEnds(a, S(), k, swept, own);
    }

    /** `timed_out` of a queued shutdown is set. */
    method FlagTimedOut(req: nat)
      requires Inv(S()) && Completed(S()) <= req < |h.pushed|
      modifies this
      ensures S() == Flagged(old(S()), req)
    {
      hide Inv;
      FlagPlace(S());
      var i := req - requests[0].id;
      h := h.(flagged := h.flagged + {req});
      requests := requests[i := requests[i].(timedOut := true)];
    }

    /** The closure of a delayed notification starts. */
    method TakeNote(err: Err, resume: bool)
      requires finalized != [] && finalized[0].id < |h.told|
      modifies this
      ensures S() == NoteFired(old(S()), err, resume)
    {
      h := Told(h, finalized[0].id, err);
      h := h.(frames := h.frames + [InDelayed(resume)]);
      finalized := finalized[1..];
    }

    ghost method LeaveNote()
      requires h.frames != [] && h.frames[|h.frames| - 1].InDelayed?
      modifies this
      ensures S() == Closed(old(S()))
    {
      h := h.(frames := h.frames[..|h.frames| - 1]);
    }
  }
}
