/**
The events that drive a stream's queue from the loop: delayed callbacks, completions by the
backend, a failing connect, the timer of a shutdown, and calls of user code.
*/
module Streams {
  import opened Basics
  import opened Delayers
  import opened QueueModel
  import opened QueueRelations
  import opened QueueSteps
  import opened CancelSteps
  import opened Cascades
  import opened Queues

  /** No queue code is on the stack, and no shutdown that timed out is still queued. */
  ghost predicate Top(q: Q) {
    Inv(q) && q.h.frames == [] && (forall id | id in q.h.flagged :: id < Completed(q)) && Unsplit(q)
  }

  /** Until a completion is split off, no resume is scheduled and nothing was executed twice. */
  ghost predicate Unsplit(q: Q) {
    q.h.splits == 0 ==> q.h.reexecs == 0 && !ResumePending(q.pool.Rest())
  }

  /** Between two events of the loop. */
  ghost predicate Settled(q: Q) {
    Top(q) && !q.pool.calling
  }

  /** What an event may do to the history: what was reported or executed stays so. */
  ghost predicate Grows(a: Q, b: Q) {
    && a.h.pushed <= b.h.pushed && |a.h.told| <= |b.h.told| && Completed(a) <= Completed(b)
    && (forall id | 0 <= id < |a.h.told| :: a.h.told[id] <= b.h.told[id])
    && a.h.execs <= b.h.execs && a.h.said <= b.h.said && a.h.splits <= b.h.splits && a.h.thrown <= b.h.thrown
    && (a.h.thrown == b.h.thrown ==> a.h.leak == b.h.leak)
    && Kept(a.finalized, Completed(a), b.finalized)
  }

  /** And a run without exceptions loses no wakeup. */
  ghost predicate Advances(a: Q, b: Q) {
    Grows(a, b) && (a.h.thrown == b.h.thrown && Live(a) ==> Live(b))
  }

  lemma AdvancesTransitive(a: Q, b: Q, c: Q)
    requires Advances(a, b) && Advances(b, c)
    ensures Advances(a, c)
  {
    hide Live;
    GrowsTransitive(a, b, c);
  }

  lemma GrowsTransitive(a: Q, b: Q, c: Q)
    requires Grows(a, b) && Grows(b, c)
    ensures Grows(a, c)
  {
    KeptTransitive(a.finalized, Completed(a), b.finalized, Completed(b), c.finalized);
    hide Kept;
    forall id | 0 <= id < |a.h.told| ensures a.h.told[id] <= c.h.told[id] {
      assert a.h.told[id] <= b.h.told[id] <= c.h.told[id];
    }
  }

  lemma ExtendsGrows(a: Q, b: Q)
    requires Extends(a, b)
    ensures Grows(a, b)
  {
  }

  lemma TopFacts(q: Q)
    requires Top(q)
    ensures q.locked == 0 && q.cancelTill == None && q.resumeRecursion == q.h.leak
    ensures q.requests != [] ==> q.requests[0].id == Completed(q) < |q.h.told|
    ensures |q.h.pushed| == Completed(q) + |q.requests| && Callable(q)
  {
    hide Timed, ToldOnce, Serial;
  }

  lemma TopExtends(a: Q, b: Q)
    requires Top(a) && Inv(b) && Extends(a, b) && b.h.reexecs == a.h.reexecs
    ensures Top(b)
  {
    hide Inv, ResumePending;
  }

  // ---------------------------------------------------------------- a delayed callback fires

  /** Taking the first waiting callback: a notification is that of the first finalized request. */
  lemma WaitingStepped(requests: seq<Request>, finalized: seq<Request>, rest: seq<Entry<Fn>>, lastid: nat)
    requires Waiting(requests, finalized, rest, lastid) && rest != []
    ensures IsNote(rest[0]) ==>
              && finalized != [] && finalized[0].id == rest[0].cb.value.req
              && Waiting(requests, finalized[1..], rest[1..], lastid)
    ensures !IsNote(rest[0]) ==> Waiting(requests, finalized, rest[1..], lastid)
    ensures IsFail(rest[0]) ==>
              && requests != [] && requests[0].id == rest[0].cb.value.req
              && requests[0].spec.mode == FailsLater(rest[0].cb.value.err)
    ensures ResumePending(rest) ==> ResumePending(rest[1..]) || (IsNote(rest[0]) && rest[0].cb.value.resume)
  {
    var tail := rest[1..];
    assert Notes(rest) == (if IsNote(rest[0]) then [rest[0]] else []) + Notes(tail);
    var left := if IsNote(rest[0]) then finalized[1..] else finalized;
    if IsNote(rest[0]) {
      assert Notes(tail) == Notes(rest)[1..];
    } else {
      assert Notes(tail) == Notes(rest);
    }
    assert NotesFor(Notes(tail), left);
    WaitingTail(requests, finalized, rest, lastid, left);
    if ResumePending(rest) {
      var k :| 0 <= k < |rest| && IsNote(rest[k]) && rest[k].cb.value.resume;
      assert k > 0 ==> tail[k - 1] == rest[k];
    }
  }

  lemma WaitingTail(requests: seq<Request>, finalized: seq<Request>, rest: seq<Entry<Fn>>, lastid: nat,
                    left: seq<Request>)
    requires Waiting(requests, finalized, rest, lastid) && rest != [] && NotesFor(Notes(rest[1..]), left)
    ensures Waiting(requests, left, rest[1..], lastid)
  {
    hide NotesFor, Notes;
    forall k | 0 <= k < |rest[1..]| ensures rest[1..][k] == rest[k + 1] && rest[k + 1].guard == None {}
  }

  ghost function StepTaken(q: Q): Q
    requires q.pool.pos < |q.pool.reserve|
  {
    q.(pool := q.pool.Stepped({}))
  }

  /** The entry the loop looks at next. */
  ghost function Next(q: Q): Entry<Fn>
    requires q.pool.pos < |q.pool.reserve|
  {
    q.pool.reserve[q.pool.pos]
  }

  ghost predicate CanStep(q: Q) {
    Inv(q) && q.pool.calling && q.pool.pos < |q.pool.reserve|
  }

  lemma StepFacts(q: Q)
    requires CanStep(q)
    ensures StepTaken(q).pool.Valid() && q.pool.Rest() != [] && q.pool.Rest()[0] == Next(q)
    ensures StepTaken(q).pool.Rest() == q.pool.Rest()[1..] && StepTaken(q).pool.lastid == q.pool.lastid
    ensures q.pool.Runs({}) <==> Next(q).cb.Some?
  {
    hide Pool.Valid, Listed, ToldOnce, Counted, Serial, Marked;
    StepKeeps(q.pool, {});
  }

  lemma PoolApart(q: Q, p: Pool<Fn>)
    requires Core(q, false)
    ensures var s := q.(pool := p);
            Listed(s) && ToldOnce(s) && Counted(s) && Serial(s) && Marked(s, false) && Started(s) == Started(q)
  {
    hide Timed;
  }

  /** Nothing of the queue's: it was revoked, or it is user code. */
  lemma StepOther(q: Q)
    requires CanStep(q) && !IsNote(Next(q)) && !IsFail(Next(q))
    ensures Inv(StepTaken(q))
  {
    hide Pool.Valid, Waiting, Listed, ToldOnce, Counted, Serial, Marked, Pool.Stepped;
    StepFacts(q);
    PoolApart(q, StepTaken(q).pool);
    WaitingStepped(q.requests, q.finalized, q.pool.Rest(), q.pool.lastid);
  }

  lemma StepFail(q: Q)
    requires CanStep(q) && IsFail(Next(q))
    ensures Inv(StepTaken(q)) && q.requests != [] && q.requests[0].id == Next(q).cb.value.req
    ensures q.requests[0].spec.mode == FailsLater(Next(q).cb.value.err)
  {
    hide Pool.Valid, Waiting, Listed, ToldOnce, Counted, Serial, Marked, Pool.Stepped;
    StepFacts(q);
    PoolApart(q, StepTaken(q).pool);
    WaitingStepped(q.requests, q.finalized, q.pool.Rest(), q.pool.lastid);
  }

  lemma StepNote(q: Q)
    requires CanStep(q) && IsNote(Next(q))
    ensures q.finalized != [] && q.finalized[0].id == Next(q).cb.value.req < |q.h.told|
    ensures q.h.told[q.finalized[0].id] == []
    ensures Inv(NoteFired(StepTaken(q), Next(q).cb.value.err, Next(q).cb.value.resume))
  {
    hide Pool.Valid, Waiting, Listed, ToldOnce, Serial, Pool.Stepped;
    var note := Next(q).cb.value;
    StepFacts(q);
    WaitingStepped(q.requests, q.finalized, q.pool.Rest(), q.pool.lastid);
    FiredListed(q, note.err, note.resume);
    FramePushed(q.h.frames, InDelayed(note.resume));
    var n := NoteFired(StepTaken(q), note.err, note.resume);
    assert n.h.frames == q.h.frames + [InDelayed(note.resume)];
  }

  lemma FiredListed(q: Q, err: Err, resume: bool)
    requires CanStep(q) && q.finalized != []
    ensures q.finalized[0].id < |q.h.told| && q.h.told[q.finalized[0].id] == []
    ensures var n := NoteFired(StepTaken(q), err, resume);
            Listed(n) && ToldOnce(n) && Serial(n) && Completed(n) == Completed(q)
  {
    hide Timed, Counted, Serial, Marked, Listed, ToldOnce, Pool.Stepped;
    TakenListed(q);
    FinalizedNotTold(q, 0);
    TakenSerial(q);
    SameLists(FinalizedTaken(q), NoteFired(StepTaken(q), err, resume));
  }

  lemma TakenSerial(q: Q)
    requires Inv(q) && q.finalized != [] && q.finalized[0].id < |q.h.told|
    ensures Serial(FinalizedTaken(q)) && Completed(FinalizedTaken(q)) == Completed(q)
  {
    hide Timed, ToldOnce, Listed, Counted, Marked;
  }

  /** These parts of the invariant look at the lists and at how much was reported, not at what. */
  lemma SameLists(a: Q, b: Q)
    requires b.requests == a.requests && b.finalized == a.finalized && b.count == a.count
    requires b.h.pushed == a.h.pushed && b.h.flagged == a.h.flagged && b.h.execs == a.h.execs
    requires b.h.reexecs == a.h.reexecs
    requires |b.h.told| == |a.h.told| && forall id | 0 <= id < |a.h.told| :: |b.h.told[id]| == |a.h.told[id]|
    ensures Listed(a) && ToldOnce(a) ==> Listed(b) && ToldOnce(b)
    ensures Serial(a) ==> Serial(b)
    ensures Completed(b) == Completed(a)
  {
    assert Completed(b) == Completed(a);
  }

  lemma NoteLeftKeeps(b: Q, resume: bool)
    requires Inv(b) && b.h.frames == [InDelayed(resume)]
    ensures Inv(Closed(b)) && Closed(b).h.frames == [] && (Live(Closed(b)) <==> Live(b))
  {
    hide Timed;
    var c := Closed(b);
    FramePushed([], InDelayed(resume));
    assert [] + [InDelayed(resume)] == [InDelayed(resume)];
    ReframedCore(b, c);
  }

  /** The next callback resets the queue or completes its head. */
  ghost predicate Wakes(q: Q) {
    && q.pool.pos < |q.pool.reserve|
    && var e := Next(q);
    || IsFail(e)
    || (IsNote(e) && q.finalized != [] && Resets(q.finalized[0].spec.onNotify))
    || (e.cb.Some? && e.cb.value.User? && Resets(e.cb.value.script))
  }

  /**
  The next callback is to resume the queue but will throw, which it does without resetting it; somebody
  waits and was not started, and no other resume is scheduled.
  */
  ghost predicate Loses(q: Q) {
    && q.pool.pos < |q.pool.reserve|
    && IsNote(Next(q)) && Next(q).cb.value.resume && q.finalized != []
    && Throws(q.finalized[0].spec.onNotify) && !Resets(q.finalized[0].spec.onNotify)
    && q.requests != [] && !Started(q) && !ResumePending(StepTaken(q).pool.Rest())
  }

  /** The next callback leaves somebody waiting whom nobody will start. */
  ghost predicate Sleeps(q: Q) {
    Loses(q) || (!Live(q) && !Wakes(q))
  }

  /** `fired` are the states in which `handle_idle`, begun in `a`, called one callback after the other. */
  ghost predicate Trace(a: Q, fired: seq<Q>) {
    && (forall i | 0 <= i < |fired| :: CanStep(fired[i]) && Top(fired[i]) && fired[i].pool.pos == i)
    && (forall i | 0 <= i < |fired| :: Live(fired[i]) <==> LiveAfter(a, fired[..i]))
    && (fired != [] ==> fired[0] == a.(pool := a.pool.Begun()))
  }

  /** Nobody waits in vain when they are through. */
  ghost predicate LiveAfter(a: Q, fired: seq<Q>) {
    if fired == [] then Live(a) else !Sleeps(fired[|fired| - 1])
  }

  lemma TraceMore(a: Q, fired: seq<Q>, q: Q)
    requires Trace(a, fired) && CanStep(q) && Top(q) && q.pool.pos == |fired| && (Live(q) <==> LiveAfter(a, fired))
    requires fired == [] ==> q == a.(pool := a.pool.Begun())
    ensures Trace(a, fired + [q])
  {
    hide CanStep, Top, Live, Sleeps, Pool.Begun;
    var more := fired + [q];
    forall i | 0 <= i < |more| ensures Live(more[i]) <==> LiveAfter(a, more[..i]) {
      assert more[..i] == if i < |fired| then fired[..i] else fired;
    }
  }

  lemma TraceBegins(a: Q)
    ensures Trace(a, [])
  {
  }

  lemma BegunFacts(p: Pool<Fn>)
    ensures p.Begun().pos == 0 && p.Begun().calling && p.Begun().lastid == p.lastid
    ensures |p.Begun().reserve| == |p.callbacks| && p.Begun().mark == p.lastid
  {
  }

  /** From a state in which nobody waits in vain only a lost wakeup leads to one in which somebody does. */
  lemma AwakeUnless(a: Q, fired: seq<Q>)
    requires fired != [] ==> Live(a) ==> Live(fired[|fired| - 1])
    ensures Live(a) ==> (!LiveAfter(a, fired) <==> fired != [] && Loses(fired[|fired| - 1]))
  {
    hide Live, Loses, Wakes;
  }

  lemma TraceFacts(a: Q, fired: seq<Q>)
    requires Trace(a, fired)
    ensures forall i | 0 <= i < |fired| :: CanStep(fired[i]) && Top(fired[i])
  {
  }

  /** A notification has been taken, and its callback and the resume behind it have run. */
  lemma NoteSleeps(q: Q, n: Q, called: Q, failed: bool, after: Q)
    requires CanStep(q) && IsNote(Next(q)) && q.finalized != [] && q.finalized[0].id < |q.h.told|
    requires n == NoteFired(StepTaken(q), Next(q).cb.value.err, Next(q).cb.value.resume)
    requires var script := q.finalized[0].spec.onNotify;
             && (Live(called) <==> Live(n) || Resets(script)) && (!Resets(script) ==> (failed <==> Throws(script)))
    requires if Next(q).cb.value.resume && !failed then Live(after) else after == called
    ensures !Live(after) <==> Sleeps(q)
  {
    hide Inv, Pool.Stepped, Pool.Rest, ResumePending;
    StepPending(q);
    assert n.requests == q.requests && Started(n) == Started(q);
  }

  // ---------------------------------------------------------------- what a cancel reported

  /**
  A connect fails at the top of the stack, seen from the states of the cancel it starts.  The delayed
  callbacks come first; then its own error; then everything queued behind it; then the teardown; and
  only then is anything executed.
  */
  ghost predicate ConnectFailed(a: Q, log: CancelLog, err: Err) {
    var req := Completed(a);
    && Completed(log.drained) == req && Reported(log.prepared, req, err) && Reported(log.mid, req, err)
    && log.mid.h.execs == a.h.execs && a.cancelGen < log.mid.cancelGen
    && |a.h.pushed| <= Completed(log.mid)
    && (forall id | req < id < |a.h.pushed| :: Reported(log.mid, id, Canceled))
    && (forall i | 0 <= i < |a.finalized| :: Reported(log.mid, a.finalized[i].id, Canceled))
    && InOrder(a, log.mid)
    && (log.ran <==> !CallbacksReset(a, None))
    && (log.ran ==>
          && Completed(log.mid) == |a.h.pushed|
          && req <= |a.h.pushed| && Did(a, log.mid, DoneBy(CalledTo(a, |a.h.pushed|))))
  }

  /** What `Cancel` ensures of the states it logs. */
  ghost predicate Logged(a: Q, log: CancelLog, pre: Pre) {
    && Cancelled(a, log.mid, pre, Teardown, None)
    && Drained(CancelBegun(a, None), log.drained) && Prepared(log.drained, log.prepared, pre)
    && LoopedIfNeeded(log.prepared, log.decided, Own(pre)) && Decided(a, log.decided, pre, None)
    && log.decided.h.frames != []
    && log.mid == CancelEnded(if log.ran then Bumped(log.decided) else log.decided)
    && (log.ran <==> !CallbacksReset(a, None))
  }

  lemma OwnToldOnce(m: Q, id: nat)
    requires Core(m, false) && m.finalized == [] && id < Completed(m)
    ensures id < |m.h.told| && |m.h.told[id]| == 1
  {
    hide Timed, Counted, Serial, Marked;
  }

  /** A delayed callback reset the stream first: the connect has been told it is cancelled, and is gone. */
  lemma ConnectOvertaken(a: Q, b: Q)
    requires Top(a) && a.requests != [] && AnyResets(a.finalized) && a.h.leak <= SPLIT_RECURSION
    requires Drained(CancelBegun(a, None), b)
    ensures Reported(b, Completed(a), Canceled) && Completed(a) < Completed(b)
  {
    hide Timed, Counted, Serial, Marked;
    TopFacts(a);
    var c := CancelBegun(a, None);
    assert OnlyCancelled(c, b, -1);
    assert ToldBefore(c, Completed(a)) == [];
    assert |b.h.told[Completed(a)]| == 1;
  }

  lemma LoopKeepsTold(p: Q, d: Q, own: int, id: nat)
    requires LoopedIfNeeded(p, d, own) && id < |p.h.told|
    ensures id < |d.h.told| && p.h.told[id] <= d.h.told[id]
  {
    hide Inv, Under;
  }

  lemma ConnectTold(a: Q, log: CancelLog, err: Err)
    requires Top(a) && a.requests != [] && a.resumeRecursion <= SPLIT_RECURSION && !AnyResets(a.finalized)
    requires Logged(a, log, FailConnect(Completed(a), err))
    ensures Completed(log.drained) == Completed(a)
    ensures Reported(log.prepared, Completed(a), err) && Reported(log.mid, Completed(a), err)
  {
    hide Core, Inv, Extends, Under, LoopedIfNeeded, Decided, OnlyCancelled, CallbacksReset;
    var req := Completed(a);
    var pre := FailConnect(req, err);
    TopFacts(a);
    DecidedFrom(a, log.drained, log.prepared, log.decided, pre, Teardown, None);
    OwnToldOnce(log.mid, req);
    BegunRecursion(a, log.drained);
    LoopKeepsTold(log.prepared, log.decided, req, req);
  }

  lemma BegunRecursion(a: Q, b: Q)
    requires Drained(CancelBegun(a, None), b) && !AnyResets(a.finalized)
    ensures b.resumeRecursion == a.resumeRecursion && Completed(b) == Completed(CancelBegun(a, None)) == Completed(a)
  {
    hide Inv;
  }

  lemma ConnectFailure(a: Q, log: CancelLog, err: Err)
    requires Top(a) && a.requests != [] && a.h.leak <= SPLIT_RECURSION && !AnyResets(a.finalized)
    requires Logged(a, log, FailConnect(Completed(a), err))
    ensures ConnectFailed(a, log, err)
  {
    hide Core, Extends, Drained, Prepared, LoopedIfNeeded, Decided, OnlyCancelled;
    hide Ordered, AnyResets, CallbacksReset, Under;
    hide InOrder, Did, CalledTo;
    var pre := FailConnect(Completed(a), err);
    TopFacts(a);
    ConnectTold(a, log, err);
    forall id | Completed(a) < id < |a.h.pushed| ensures Reported(log.mid, id, Canceled) {
      NotTold(a, id);
      CancelledTold(a, log.mid, pre, Teardown, None, id);
    }
    forall i | 0 <= i < |a.finalized| ensures Reported(log.mid, a.finalized[i].id, Canceled) {
      FinalizedNotTold(a, i);
      CancelledTold(a, log.mid, pre, Teardown, None, a.finalized[i].id);
    }
    TornDownFacts(a, log.mid, pre);
    CancelledInOrder(a, log.mid, pre, Teardown, None);
  }

  lemma ConnectReports(a: Q, log: CancelLog, err: Err)
    requires ConnectFailed(a, log, err)
    ensures Reported(log.mid, Completed(a), err)
  {
  }

  lemma TornDownFacts(a: Q, m: Q, pre: Pre)
    requires Cancelled(a, m, pre, Teardown, None)
    ensures a.cancelGen < m.cancelGen
    ensures !CallbacksReset(a, None) ==>
              && Completed(m) == |a.h.pushed| && Completed(a) <= |a.h.pushed|
              && Did(a, m, DoneBy(CalledTo(a, |a.h.pushed|)))
  {
    hide Core, Extends, OnlyCancelled, Ordered, CallbacksReset, Did, CalledTo;
  }

  lemma CancelledInOrder(a: Q, m: Q, pre: Pre, post: Post, till: Option<nat>)
    requires Cancelled(a, m, pre, post, till) && a.resumeRecursion <= SPLIT_RECURSION
    ensures InOrder(a, m)
  {
    hide Core, Extends, OnlyCancelled, Ordered, CallbacksReset, TornDown, Expired, InOrder;
    OrderedAll(a, m);
  }

  /**
  The timer of a queued shutdown fired: what is before it is cancelled and the shutdown itself timed
  out, even if a callback resets the stream on the way; what is behind it is cancelled only in that case.
  */
  ghost predicate ShutdownExpired(a: Q, m: Q, req: nat) {
    && m.h.execs == a.h.execs
    && (forall id | Completed(a) <= id < req :: Reported(m, id, Canceled))
    && Reported(m, req, TimedOut)
    && (if AnyResets(a.finalized) || RangeResets(a.h.pushed, Completed(a), req + 1)
        then |a.h.pushed| <= Completed(m)
        else
          && Completed(m) == req + 1 && Completed(a) <= req < |a.h.pushed|
          && Did(a, m, DoneBy(CalledTo(a, req + 1))))
    && InOrder(a, m)
  }

  lemma ShutdownTimeout(a: Q, m: Q, req: nat)
    requires Top(a) && a.h.leak <= SPLIT_RECURSION && Completed(a) < req < |a.h.pushed|
    requires Completed(a) <= req < Completed(a) + |a.requests|
    requires Cancelled(Flagged(a, req), m, NoPre, Expire(req), Some(req - 1))
    ensures ShutdownExpired(a, m, req)
  {
    hide Core, Extends, OnlyCancelled, Ordered, AnyResets, RangeResets, Listed, ToldOnce, DoneBy, Users;
    TopFacts(a);
    var f := Flagged(a, req);
    assert CalledTo(f, req + 1) == CalledTo(a, req + 1);
    FlaggedKeeps(a, req);
    RangeNext(a.h.pushed, Completed(a), req, req + 1);
    assert RangeResets(a.h.pushed, req, req + 1) <==> Resets(a.h.pushed[req].onNotify) by {
      OneInRange(a.h.pushed, req);
    }
    forall id | Completed(a) <= id < req ensures Reported(m, id, Canceled) {
      NotTold(f, id);
      CancelledTold(f, m, NoPre, Expire(req), Some(req - 1), id);
    }
    NotTold(f, req);
    CancelledTold(f, m, NoPre, Expire(req), Some(req - 1), req);
    CancelledInOrder(f, m, NoPre, Expire(req), Some(req - 1));
    assert InOrder(a, m);
  }

  lemma FlaggedCallable(a: Q, req: nat)
    requires Callable(a) && Completed(a) <= req < Completed(a) + |a.requests|
    ensures Callable(Flagged(a, req))
  {
  }

  lemma OneInRange(pushed: seq<Spec>, id: nat)
    requires id < |pushed|
    ensures RangeResets(pushed, id, id + 1) <==> Resets(pushed[id].onNotify)
  {
  }

  // ---------------------------------------------------------------- back at the top

  lemma CancelResumed(a: Q, m: Q, b: Q, pre: Pre, post: Post, till: Option<nat>)
    requires Cancelled(a, m, pre, post, till) && Resumed(m, b)
    ensures Inv(b) && Extends(a, b) && Extends(m, b) && b.h.reexecs == a.h.reexecs && (a.locked == 0 ==> Live(b))
  {
    hide Inv, Core, Under, OnlyCancelled, Ordered, Extends, Live;
    ExtendsTransitive(a, m, b);
    ExtendsFacts(a, m);
  }

  lemma LoggedFrom(a: Q, log: CancelLog, pre: Pre)
    requires Cancelled(a, log.mid, pre, Teardown, None)
    requires Drained(CancelBegun(a, None), log.drained) && Prepared(log.drained, log.prepared, pre)
    requires LoopedIfNeeded(log.prepared, log.decided, Own(pre)) && Decided(a, log.decided, pre, None)
    requires log.decided.h.frames != []
    requires log.mid == CancelEnded(if log.ran then Bumped(log.decided) else log.decided)
    requires log.ran <==> !CallbacksReset(a, None)
    ensures Logged(a, log, pre)
  {
  }

  lemma FinishedTop(a: Q, b: Q, err: Err)
    requires Top(a) && a.requests != [] && a.requests[0].id < |a.h.told| && Finished(a, b, err)
    ensures Inv(b) && Extends(a, b) && b.h.reexecs == a.h.reexecs && Live(b)
    ensures a.resumeRecursion <= SPLIT_RECURSION ==>
              Reported(b, Completed(a), err) && Called(a, b, a.requests[0].spec.onNotify)
  {
    hide Timed, Serial, Live, Called;
    TopFacts(a);
    if a.resumeRecursion <= SPLIT_RECURSION {
      var n := Answered(a, err);
      assert n.h.told[Completed(a)] == [err];
      assert n.h.told[Completed(a)] <= b.h.told[Completed(a)];
    }
  }

  lemma ExtendsPool(a: Q, b: Q)
    requires Extends(a, b)
    ensures PoolKept(a.pool, b.pool)
  {
  }

  lemma PoolKeptTransitive(a: Pool<Fn>, b: Pool<Fn>, c: Pool<Fn>)
    requires PoolKept(a, b) && PoolKept(b, c)
    ensures PoolKept(a, c)
  {
  }

  lemma ExpiredTop(a: Q, m: Q, b: Q, req: nat)
    requires Top(a) && Completed(a) < req < Completed(a) + |a.requests|
    requires Cancelled(Flagged(a, req), m, NoPre, Expire(req), Some(req - 1))
    requires Inv(b) && Extends(Flagged(a, req), b) && Extends(m, b)
    requires b.h.reexecs == a.h.reexecs
    ensures Top(b) && Grows(a, b) && PoolKept(a.pool, b.pool)
  {
    hide Core, OnlyCancelled, CallbacksReset, ResumePending;
  }

  lemma EmptyWaiting()
    ensures Waiting([], [], [], 0)
  {
    assert Notes([]) == [];
  }

  lemma EmptyListed()
    ensures Listed(Empty()) && ToldOnce(Empty()) && Serial(Empty())
  {
  }

  lemma UnusedCounted(q: Q)
    requires q.h.frames == [] && q.requests == [] && q.cancelTill == None
    requires q.locked == 0 && q.resumeRecursion == 0 && q.h.leak == 0
    ensures Counted(q) && Marked(q, false) && Live(q)
  {
  }

  lemma EmptySettled()
    ensures Settled(Empty()) && Live(Empty())
  {
    hide Pool.Valid, Pool.Rest, Waiting, Listed, ToldOnce, Counted, Serial, Marked;
    FreshValid<Fn>();
    EmptyWaiting();
    EmptyListed();
    UnusedCounted(Empty());
  }

  /** What the first waiting callback means for the queue, when it is a notification. */
  lemma NoteFacts(q: Q)
    requires CanStep(q) && IsNote(Next(q))
    ensures q.finalized != [] && q.finalized[0].id == Next(q).cb.value.req < |q.h.told|
    ensures var n := NoteFired(StepTaken(q), Next(q).cb.value.err, Next(q).cb.value.resume);
            Inv(n) && n.h.thrown == q.h.thrown
  {
    hide Inv;
    StepNote(q);
  }

  /** The callback of a delayed notification has returned. */
  lemma NoteRan(q: Q, b: Q, resets: bool)
    requires CanStep(q) && Top(q) && IsNote(Next(q))
    requires q.finalized != [] && q.finalized[0].id == Next(q).cb.value.req < |q.h.told|
    requires Ran(NoteFired(StepTaken(q), Next(q).cb.value.err, Next(q).cb.value.resume), b, resets)
    ensures Inv(b) && b.h.frames == [InDelayed(Next(q).cb.value.resume)] && b.locked == 0
    ensures var n := NoteFired(StepTaken(q), Next(q).cb.value.err, Next(q).cb.value.resume);
            Live(b) <==> Live(n) || resets
    ensures Reported(b, Next(q).cb.value.req, Next(q).cb.value.err)
    ensures b.h.reexecs == q.h.reexecs && (!Next(q).cb.value.resume ==> Unsplit(b))
    ensures Next(q).cb.value.resume ==> b.h.splits > 0
    ensures Grows(q, b) && PoolKept(StepTaken(q).pool, b.pool) && (forall id | id in b.h.flagged :: id < Completed(b))
  {
    hide Core, Under, Quiet, Pool.Stepped, PoolKept, Live;
    StepNote(q);
    var note := Next(q).cb.value;
    var n := NoteFired(StepTaken(q), note.err, note.resume);
    TopFacts(q);
    assert Completed(n) == Completed(q);
    assert n.h.told[note.req] == [note.err];
    assert n.h.told[note.req] <= b.h.told[note.req];
    NoMore(b, note.req);
    NoteSplits(q, b);
  }

  lemma NoteSplits(q: Q, b: Q)
    requires CanStep(q) && Unsplit(q) && IsNote(Next(q)) && q.h.splits <= b.h.splits && b.h.reexecs == q.h.reexecs
    requires b.h.splits == q.h.splits && ResumePending(b.pool.Rest()) ==> ResumePending(StepTaken(q).pool.Rest())
    ensures Unsplit(b) && (Next(q).cb.value.resume ==> b.h.splits > 0)
  {
    hide Inv, Pool.Stepped, Pool.Rest;
    StepPending(q);
  }

  /** The entry taken may have been a scheduled resume; the others still wait. */
  lemma StepPending(q: Q)
    requires CanStep(q)
    ensures ResumePending(StepTaken(q).pool.Rest()) ==> ResumePending(q.pool.Rest())
    ensures IsNote(Next(q)) && Next(q).cb.value.resume ==> ResumePending(q.pool.Rest())
    ensures !(IsNote(Next(q)) && Next(q).cb.value.resume) && ResumePending(q.pool.Rest()) ==>
              ResumePending(StepTaken(q).pool.Rest())
  {
    hide Inv, Pool.Stepped, Pool.Rest;
    StepFacts(q);
    var rest := q.pool.Rest();
    if ResumePending(rest) {
      var k :| 0 <= k < |rest| && IsNote(rest[k]) && rest[k].cb.value.resume;
      assert k > 0 ==> rest[1..][k - 1] == rest[k];
    }
    if ResumePending(rest[1..]) {
      var k :| 0 <= k < |rest[1..]| && IsNote(rest[1..][k]) && rest[1..][k].cb.value.resume;
      assert rest[k + 1] == rest[1..][k];
    }
  }

  lemma NoteClosed(q: Q, b: Q, req: nat, err: Err, resume: bool)
    requires Inv(b) && b.h.frames == [InDelayed(resume)]
    requires Grows(q, b) && (if resume then b.h.splits > 0 else Unsplit(b))
    requires forall id | id in b.h.flagged :: id < Completed(b)
    requires Reported(b, req, err)
    ensures var c := Closed(b);
            && Top(c) && Core(c, false) && Grows(q, c) && Reported(c, req, err) && (Live(c) <==> Live(b))
            && c.h.reexecs == b.h.reexecs && c.pool == b.pool && c.locked == b.locked && c.h.thrown == b.h.thrown
            && q.h.thrown <= c.h.thrown && (resume ==> c.h.splits > 0)
  {
    hide Core, Live;
    NoteLeftKeeps(b, resume);
  }

  lemma NoteResumed(q: Q, c: Q, d: Q, req: nat, err: Err)
    requires Top(c) && Grows(q, c) && Reported(c, req, err) && Resumed(c, d) && c.locked == 0 && c.h.splits > 0
    ensures Top(d) && Grows(q, d) && Reported(d, req, err) && PoolKept(c.pool, d.pool) && Live(d)
    ensures d.h.reexecs == c.h.reexecs + if Started(c) then 1 else 0
  {
    hide Core, Live;
    ExtendsGrows(c, d);
    GrowsTransitive(q, c, d);
    NoMore(d, req);
    assert c.h.told[req] <= d.h.told[req];
  }

  lemma ResumedInFlight(a: Q, b: Q, threw: bool)
    requires Resumed(a, b) && a.locked == 0 && a.requests != [] && a.requests[0].spec.mode.InFlight?
    requires ExecRethrows(a, threw)
    ensures !threw && b == Executed(a)
  {
    hide Inv, Extends;
  }

  lemma FiredCallable(q: Q, err: Err, resume: bool)
    requires Top(q) && CanStep(q) && q.finalized != [] && q.finalized[0].id < |q.h.told|
    ensures Callable(NoteFired(StepTaken(q), err, resume))
  {
    hide Inv, Pool.Stepped;
    TopFacts(q);
    FramePushed([], InDelayed(resume));
    assert [] + [InDelayed(resume)] == [InDelayed(resume)];
  }

  /** The loop may rearrange its pool as long as the same callbacks wait in the same order. */
  lemma PoolRearranged(q: Q, p: Pool<Fn>)
    requires Top(q) && p.Valid() && p.Rest() == q.pool.Rest() && p.lastid == q.pool.lastid
    ensures Top(q.(pool := p)) && Grows(q, q.(pool := p)) && (Live(q.(pool := p)) <==> Live(q))
  {
    hide Listed, ToldOnce, Counted, Serial, Marked, Waiting, Pool.Valid, Pool.Rest;
    PoolApart(q, p);
  }

  lemma StepTop(q: Q)
    requires CanStep(q) && Top(q)
    ensures !IsNote(Next(q)) ==> Top(StepTaken(q)) && Grows(q, StepTaken(q))
    ensures IsFail(Next(q)) ==> q.requests != []
  {
    hide Inv, Pool.Stepped, ResumePending, Pool.Rest;
    StepPending(q);
    if IsFail(Next(q)) {
      StepFail(q);
    } else if !IsNote(Next(q)) {
      StepOther(q);
    }
  }

  lemma PoolKeptItself(a: Pool<Fn>)
    ensures PoolKept(a, a)
  {
  }

  lemma CallingKept(a: Pool<Fn>, b: Pool<Fn>)
    requires PoolKept(a, b)
    ensures b.calling == a.calling
  {
  }

  lemma GrowsItself(a: Q)
    ensures Grows(a, a)
  {
  }

  lemma GrowsFacts(a: Q, b: Q)
    requires Grows(a, b)
    ensures a.h.thrown <= b.h.thrown
  {
  }

  lemma TopPool(q: Q)
    requires Top(q)
    ensures q.pool.Valid() && q.pool.pos <= |q.pool.reserve| && Inv(q)
  {
  }

  lemma CountIs(q: Q)
    requires Top(q)
    ensures q.count == |q.h.pushed|
  {
  }

  lemma AfterStep(q: Q, b: Q)
    requires q.pool.pos < |q.pool.reserve| && Grows(q, StepTaken(q)) && Extends(StepTaken(q), b)
    ensures Grows(q, b) && PoolKept(StepTaken(q).pool, b.pool) && q.h.thrown == StepTaken(q).h.thrown
  {
    hide Pool.Stepped;
    ExtendsGrows(StepTaken(q), b);
    GrowsTransitive(q, StepTaken(q), b);
  }

  lemma FireMoved(q: Q, b: Q)
    requires q.pool.pos < |q.pool.reserve| && PoolKept(StepTaken(q).pool, b.pool)
    ensures b.pool.pos == q.pool.pos + 1 && |b.pool.reserve| == |q.pool.reserve| && b.pool.calling == q.pool.calling
    ensures b.pool.mark == q.pool.mark
  {
  }

  /** A failing connect at the head meets a delayed callback that resets the stream. */
  ghost predicate Strays(q: Q, err: Err) {
    q.requests != [] && q.requests[0].spec.kind.Connect? && err != Ok && AnyResets(q.finalized)
  }

  /** The next callback is the failure of such a connect. */
  ghost predicate StraysNext(q: Q) {
    q.pool.pos < |q.pool.reserve| && IsFail(Next(q)) && Strays(q, Next(q).cb.value.err)
  }

  /** The next callback is a notification that resumes, of a request whose own callback is `script`. */
  ghost predicate Resuming(q: Q, script: Script)
    requires q.pool.pos < |q.pool.reserve|
  {
    && IsNote(Next(q)) && Next(q).cb.value.resume
    && q.finalized != [] && q.finalized[0].id < |q.h.told| && q.finalized[0].spec.onNotify == script
  }

  /** Taking a callback that is no notification changes nothing for whoever waits. */
  lemma StepLive(q: Q)
    requires CanStep(q) && !IsNote(Next(q))
    ensures Live(StepTaken(q)) <==> Live(q)
  {
    hide Inv, Pool.Stepped, Pool.Rest, ResumePending;
    StepPending(q);
  }

  /** The event resets the queue or completes a request of it. */
  ghost predicate Rouses(q: Q, event: Event) {
    match event
    case Call(script) => Resets(script)
    case HeadDone(_) => true
    case ShutdownTimer(req) => Completed(q) <= req < |q.h.pushed|
    case Idle => false
  }

  lemma NoneWaits(q: Q)
    ensures q.requests == [] ==> Live(q)
  {
  }

  lemma TopCanStep(q: Q)
    requires Top(q) && q.pool.calling && q.pool.pos < |q.pool.reserve|
    ensures CanStep(q)
  {
  }

  lemma AdvancesItself(a: Q)
    ensures Advances(a, a)
  {
  }

  lemma EventOver(a: Q, b: Q)
    requires Extends(a, b)
    ensures Grows(a, b) && b.pool.calling == a.pool.calling
  {
  }

  // ---------------------------------------------------------------- what an event has done

  /** What a callback that was next in `q` was to do has been done by `b`. */
  ghost predicate FiredRight(q: Q, b: Q) {
    q.pool.pos < |q.pool.reserve| ==>
      var e := Next(q);
      && (IsNote(e) || (IsFail(e) && q.h.leak <= SPLIT_RECURSION) ==> Reported(b, e.cb.value.req, e.cb.value.err))
      && (IsNote(e) && q.finalized != [] ==> Pushes(q, b, q.finalized[0].spec.onNotify))
      && (IsUser(e) ==> Pushes(q, b, e.cb.value.script))
  }

  /** User code that does not reset has run since: what it pushes is there. */
  ghost predicate Pushes(q: Q, b: Q, script: Script) {
    !Resets(script) ==> q.h.pushed + Does(script).pushes <= b.h.pushed
  }

  lemma NoteDid(q: Q, err: Err, resume: bool, b: Q, script: Script)
    requires q.pool.pos < |q.pool.reserve| && q.finalized != [] && q.finalized[0].id < |q.h.told|
    requires b.h.frames != []
    requires !Resets(script) ==> Did(NoteFired(StepTaken(q), err, resume), b, Does(script))
    ensures !Resets(script) ==> Did(StepTaken(q), Closed(b), Does(script))
  {
    hide Users, Pool.Stepped, Pool.Rest;
  }

  lemma NoteRight(q: Q, called: Q, b: Q, script: Script)
    requires q.pool.pos < |q.pool.reserve| && IsNote(Next(q)) && q.finalized != []
    requires script == q.finalized[0].spec.onNotify && Reported(b, Next(q).cb.value.req, Next(q).cb.value.err)
    requires (!Resets(script) ==> Did(StepTaken(q), called, Does(script))) && called.h.pushed <= b.h.pushed
    ensures FiredRight(q, b)
  {
    hide Users, Pool.Stepped, Pool.Rest;
  }

  /** The callback of a notification has run. */
  ghost predicate Notified(a: Q, called: Q, script: Script, threw: bool) {
    !Resets(script) ==> Did(a, called, Does(script)) && (Throws(script) ==> threw)
  }

  lemma FailRight(q: Q, b: Q)
    requires CanStep(q) && IsFail(Next(q))
    requires q.h.leak <= SPLIT_RECURSION ==> Reported(b, Completed(StepTaken(q)), Next(q).cb.value.err)
    ensures FiredRight(q, b)
  {
    hide Reported, Pool.Stepped;
    StepFail(q);
    HeadId(q, false);
  }

  lemma UserRight(q: Q, b: Q, threw: bool)
    requires q.pool.pos < |q.pool.reserve| && IsUser(Next(q))
    requires Accomplished(StepTaken(q), Event.Call(Next(q).cb.value.script), b, threw)
    ensures FiredRight(q, b)
  {
    hide Users, Pool.Stepped, Pool.Rest, Carried, AllCancelled;
  }

  /** A callback that was revoked does nothing. */
  lemma RevokedRight(q: Q, b: Q)
    requires q.pool.pos < |q.pool.reserve| && Next(q).cb.None?
    ensures FiredRight(q, b)
  {
  }

  lemma ResumedPushed(a: Q, b: Q)
    requires Resumed(a, b)
    ensures a.h.pushed <= b.h.pushed
  {
    hide Inv, ExecDone;
  }

  lemma FiredStays(q: Q, b: Q, c: Q)
    requires FiredRight(q, b) && Grows(b, c) && Inv(c)
    ensures FiredRight(q, c)
  {
    hide Inv;
    if q.pool.pos < |q.pool.reserve| && (IsNote(Next(q)) || IsFail(Next(q))) {
      var note := Next(q).cb.value;
      if Reported(b, note.req, note.err) {
        assert b.h.told[note.req] <= c.h.told[note.req];
        NoMore(c, note.req);
      }
    }
  }

  lemma AllFiredStay(fired: seq<Q>, b: Q, c: Q)
    requires (forall i | 0 <= i < |fired| :: FiredRight(fired[i], b)) && Grows(b, c) && Inv(c)
    ensures forall i | 0 <= i < |fired| :: FiredRight(fired[i], c)
  {
    hide Inv, Grows, FiredRight;
    forall i | 0 <= i < |fired| ensures FiredRight(fired[i], c) {
      FiredStays(fired[i], b, c);
    }
  }

  /** Everything that waited has been dealt with, and everybody whose notification waited has been told. */
  ghost predicate Drains(a: Q, b: Q) {
    && (forall id | 1 <= id <= a.pool.lastid :: (id in b.pool.fired) != (id in b.pool.dropped))
    && (forall i | 0 <= i < |a.finalized| :: a.finalized[i].id < |b.h.told| && |b.h.told[a.finalized[i].id]| == 1)
  }

  /** A delayed notification has an id that was handed out. */
  lemma NotesHandedOut(q: Q, k: nat)
    requires Inv(q) && k < |q.finalized|
    ensures exists j | 0 <= j < |q.pool.Rest()| :: q.pool.Rest()[j].id == q.finalized[k].delayId
    ensures q.finalized[k].delayId <= q.pool.lastid
  {
    hide Listed, ToldOnce, Counted, Serial, Marked, Pool.Valid;
    NoZeroIds(q.pool);
    NotesMember(q.pool.Rest());
    assert Notes(q.pool.Rest())[k] in q.pool.Rest();
  }

  /** At the end of a call that did not throw only what was added since it began still waits. */
  lemma DrainsAll(a: Q, b: Q)
    requires Top(a) && Top(b) && Grows(a, b)
    requires b.pool.calling && b.pool.pos == |b.pool.reserve| && b.pool.mark == a.pool.lastid
    ensures Drains(a, b)
  {
    hide Inv, Unsplit;
    TopPool(b);
    NormalCallDrains(b.pool);
    forall i | 0 <= i < |a.finalized|
      ensures a.finalized[i].id < |b.h.told| && |b.h.told[a.finalized[i].id]| == 1
    {
      FinalizedNotTold(a, i);
      NoneStillWaits(a, b, a.finalized[i].id);
      ToldIfGone(b, a.finalized[i].id);
    }
  }

  /** Ending the call changes nothing of that. */
  lemma DrainsEnded(a: Q, b: Q, fired: seq<Q>)
    requires b.pool.pos <= |b.pool.reserve|
    ensures Drains(a, b) ==> Drains(a, b.(pool := b.pool.Ended().Settled()))
    ensures (forall i | 0 <= i < |fired| :: FiredRight(fired[i], b)) ==>
              && (forall i | 0 <= i < |fired| :: FiredRight(fired[i], b.(pool := b.pool.Ended())))
              && (forall i | 0 <= i < |fired| :: FiredRight(fired[i], b.(pool := b.pool.Ended().Settled())))
  {
  }

  /** The pool after a call. */
  ghost function CallEnded(p: Pool<Fn>, threw: bool): Pool<Fn>
    requires p.pos <= |p.reserve|
  {
    if threw then p.Ended() else p.Ended().Settled()
  }

  lemma IdleEnds(a: Q, b: Q, fired: seq<Q>, threw: bool)
    requires Top(a) && Top(b) && Grows(a, b) && b.pool.calling && b.pool.pos <= |b.pool.reserve|
    requires b.pool.mark == a.pool.lastid && (!threw ==> b.pool.pos == |b.pool.reserve|)
    requires forall i | 0 <= i < |fired| :: FiredRight(fired[i], b)
    ensures var c := b.(pool := CallEnded(b.pool, threw));
            && Settled(c) && Grows(a, c) && (Live(c) <==> Live(b)) && (!threw ==> Drains(a, c))
            && (forall i | 0 <= i < |fired| :: FiredRight(fired[i], c))
  {
    hide Top, Grows, Live, Drains, FiredRight, Pool.Valid, Pool.Rest;
    TopPool(b);
    EndKeeps(b.pool);
    PoolRearranged(b, b.pool.Ended());
    PoolRearranged(b, b.pool.Ended().Settled());
    GrowsTransitive(a, b, b.(pool := b.pool.Ended()));
    GrowsTransitive(a, b, b.(pool := b.pool.Ended().Settled()));
    if !threw {
      DrainsAll(a, b);
    }
    DrainsEnded(a, b, fired);
  }

  lemma ToldIfGone(b: Q, id: nat)
    requires Inv(b) && id < Completed(b) && !InList(b.finalized, id)
    ensures id < |b.h.told| && |b.h.told[id]| == 1
  {
    hide Timed, Counted, Serial, Marked;
  }

  /** A notification that waits when the call is through was added since it began. */
  lemma AddedSince(b: Q, k: nat)
    requires Inv(b) && k < |b.finalized| && b.pool.calling && b.pool.pos == |b.pool.reserve|
    ensures b.finalized[k].delayId > b.pool.mark
  {
    hide Listed, ToldOnce, Counted, Serial, Marked, Waiting;
    NotesHandedOut(b, k);
    assert b.pool.Rest() == b.pool.callbacks;
  }

  lemma HandedOut(a: Q, id: nat, delayId: nat)
    requires Inv(a) && HasNote(a.finalized, id, delayId)
    ensures delayId <= a.pool.lastid
  {
    hide Inv;
    var i :| 0 <= i < |a.finalized| && a.finalized[i].id == id && a.finalized[i].delayId == delayId;
    NotesHandedOut(a, i);
  }

  lemma NoneStillWaits(a: Q, b: Q, id: nat)
    requires Inv(a) && Inv(b) && Kept(a.finalized, Completed(a), b.finalized) && id < Completed(a)
    requires b.pool.calling && b.pool.pos == |b.pool.reserve| && b.pool.mark == a.pool.lastid
    ensures !InList(b.finalized, id)
  {
    hide Inv, HasNote;
    forall k | 0 <= k < |b.finalized| ensures b.finalized[k].id != id {
      AddedSince(b, k);
      if HasNote(a.finalized, b.finalized[k].id, b.finalized[k].delayId) {
        HandedOut(a, b.finalized[k].id, b.finalized[k].delayId);
      }
    }
  }

  /** With nothing waiting there is nothing to do. */
  lemma DrainsNothing(a: Q)
    requires Settled(a) && !a.pool.idle
    ensures a.pool.callbacks == [] && Drains(a, a)
  {
    hide Listed, ToldOnce, Counted, Serial, Marked, Unsplit;
    assert a.pool.Rest() == [];
    assert Notes([]) == [];
  }

  /** What an event that did not go astray has done; where reports are claimed there was room for them. */
  ghost predicate Accomplished(a: Q, event: Event, b: Q, threw: bool) {
    match event
    case Call(script) =>
      && (!Resets(script) ==> Did(a, b, Does(script)) && (threw <==> Throws(script)))
      && (!threw ==> Carried(script, a, b))
      && (script.Reset? && a.h.leak <= SPLIT_RECURSION ==> AllCancelled(a, b))
    case HeadDone(err) =>
      if a.requests == [] then b == a && !threw
      else a.h.leak <= SPLIT_RECURSION ==> Reported(b, Completed(a), err)
    case ShutdownTimer(req) =>
      if !(Completed(a) <= req < |a.h.pushed|) then b == a && !threw
      else a.h.leak <= SPLIT_RECURSION ==>
             Reported(b, req, TimedOut) && forall id | Completed(a) <= id < req :: Reported(b, id, Canceled)
    case Idle =>
      !threw ==> Drains(a, b)
  }

  /** `states` are those between the first events of a run, each of which did what it is for. */
  ghost predicate Lived(a: Q, events: seq<Event>, states: seq<Q>, threw: seq<bool>) {
    && |states| == |threw| + 1 && |threw| <= |events| && states[0] == a
    && (forall i | 0 <= i < |states| :: Settled(states[i]))
    && (forall i | 0 <= i < |threw| ::
          Advances(states[i], states[i + 1]) && Accomplished(states[i], events[i], states[i + 1], threw[i]))
  }

  lemma LivedBegins(a: Q, events: seq<Event>)
    requires Settled(a)
    ensures Lived(a, events, [a], [])
  {
  }

  lemma LivedOn(a: Q, events: seq<Event>, states: seq<Q>, threw: seq<bool>, b: Q, thrown: bool)
    requires Lived(a, events, states, threw) && |threw| < |events| && Settled(b)
    requires Advances(states[|threw|], b) && Accomplished(states[|threw|], events[|threw|], b, thrown)
    ensures Lived(a, events, states + [b], threw + [thrown])
  {
    hide Settled, Advances, Accomplished;
    var s, t := states + [b], threw + [thrown];
    forall i | 0 <= i < |t| ensures Advances(s[i], s[i + 1]) && Accomplished(s[i], events[i], s[i + 1], t[i]) {
      if i < |threw| {
        assert s[i] == states[i] && s[i + 1] == states[i + 1] && t[i] == threw[i];
      } else {
        assert s[i] == states[i] && s[i + 1] == b && t[i] == thrown;
      }
    }
  }

  lemma ShutdownReports(a: Q, mid: Q, b: Q, req: nat)
    requires ShutdownExpired(a, mid, req) && Resumed(mid, b)
    ensures Reported(b, req, TimedOut) && forall id | Completed(a) <= id < req :: Reported(b, id, Canceled)
  {
    hide Inv, Extends, InOrder, AnyResets, RangeResets, Did, CalledTo, Reported, ExecDone;
    ReportedStays(mid, b, req, TimedOut);
    forall id | Completed(a) <= id < req ensures Reported(b, id, Canceled) {
      ReportedStays(mid, b, id, Canceled);
    }
  }

  // ---------------------------------------------------------------- the stream

  datatype Event =
    | Call(script: Script)
    | HeadDone(err: Err)
    | ShutdownTimer(req: nat)
    | Idle

  class Stream {
    const queue: Queue

    constructor ()
      ensures queue.S() == Empty() && Settled(queue.S()) && Live(queue.S())
      ensures fresh(queue) && fresh(queue.delayer)
    {
      hide Settled, Live;
      queue := new Queue();
      EmptySettled();
    }

    /** User code calls the stream from outside any callback of it. */
    method Call(script: Script) returns (threw: bool)
      requires Top(queue.S())
      modifies queue, queue.delayer
      ensures Top(queue.S()) && Extends(old(queue.S()), queue.S())
      ensures threw ==> old(queue.h.thrown) < queue.h.thrown
      ensures queue.h.reexecs == old(queue.h.reexecs)
      ensures Live(queue.S()) <==> Live(old(queue.S())) || Resets(script)
      ensures Accomplished(old(queue.S()), Event.Call(script), queue.S(), threw)
    {
      hide Core, Inv, Extends, Under, Quiet, Live, Did, Carried, AllCancelled;
      ghost var a := queue.S();
      TopFacts(a);
      threw := queue.RunScript(script);
      TopExtends(a, queue.S());
    }

    /**
    `finalize_handle_connect`: a connect that fails outside a cancel cancels the whole queue, but
    reports its own error first.  It goes astray if and only if a delayed callback, which the cancel
    runs before that, resets the stream.
    */
    method FinalizeHandleConnect(err: Err) returns (threw: bool, stray: bool, ghost log: CancelLog)
      requires Top(queue.S()) && queue.requests != []
      modifies queue, queue.delayer
      ensures stray <==> err != Ok && AnyResets(old(queue.finalized))
      ensures stray ==> Drained(CancelBegun(old(queue.S()), None), queue.S())
      ensures stray && OneLeaves(old(queue.S())) ==> queue.requests != []
      ensures stray && old(queue.h.leak) <= SPLIT_RECURSION ==>
                Reported(queue.S(), Completed(old(queue.S())), Canceled)
      ensures !stray ==> Top(queue.S()) && Extends(old(queue.S()), queue.S())
      ensures threw ==> old(queue.h.thrown) < queue.h.thrown
      ensures !stray ==> queue.h.reexecs == old(queue.h.reexecs) && Live(queue.S())
      ensures !stray && old(queue.h.leak) <= SPLIT_RECURSION ==>
                Reported(queue.S(), Completed(old(queue.S())), err)
      ensures err != Ok && !stray ==> (threw <==> log.kept || log.escaped)
      ensures err != Ok && !stray && !CallbacksReset(old(queue.S()), None) ==>
                (log.kept <==> AnyThrows(CalledTo(old(queue.S()), |old(queue.h.pushed)|)))
      ensures err != Ok && !stray ==> Resumed(log.mid, queue.S())
      ensures err != Ok && !stray && old(queue.h.leak) <= SPLIT_RECURSION ==>
                ConnectFailed(old(queue.S()), log, err)
    {
      hide Core, Inv, Extends, Under, Logged, ConnectFailed, Resumed, Cancelled;
      hide CallbacksReset, Drained, Reported, AnyResets, Live, AnyThrows, CalledTo;
      ghost var a := queue.S();
      TopFacts(a);
      stray := false;
      if err == Ok || queue.cancelTill.Some? {
        threw := HeadCompletes(err);
        log := CancelLog(a, a, a, a, false, false, false);
      } else {
        ghost var pre := FailConnect(queue.requests[0].id, err);
        threw, stray, log := queue.Cancel(FailConnect(queue.requests[0].id, err), Teardown, None);
        if stray {
          if a.resumeRecursion <= SPLIT_RECURSION {
            ConnectOvertaken(a, queue.S());
          }
          return;
        }
        CancelResumed(a, log.mid, queue.S(), pre, Teardown, None);
        TopExtends(a, queue.S());
        if a.resumeRecursion <= SPLIT_RECURSION {
          assert Logged(a, log, pre) by { LoggedFrom(a, log, pre); }
          ConnectFailure(a, log, err);
          assert Reported(log.mid, Completed(a), err) by { ConnectReports(a, log, err); }
          ReportedStays(log.mid, queue.S(), Completed(a), err);
        }
      }
    }

    /** The backend completes the head. */
    method HeadCompletes(err: Err) returns (threw: bool)
      requires Top(queue.S()) && queue.requests != []
      modifies queue, queue.delayer
      ensures Top(queue.S()) && Extends(old(queue.S()), queue.S())
      ensures threw ==> old(queue.h.thrown) < queue.h.thrown
      ensures queue.h.reexecs == old(queue.h.reexecs) && Live(queue.S())
      ensures old(queue.h.leak) <= SPLIT_RECURSION ==>
                && Reported(queue.S(), Completed(old(queue.S())), err)
                && Called(old(queue.S()), queue.S(), old(queue.requests)[0].spec.onNotify)
      ensures Rethrows(old(queue.S()), threw)
      ensures Chain(old(queue.S())) ==> !threw && queue.S() == Cascaded(old(queue.S()), err)
    {
      hide Core, Extends, Under, Reported, Finished, Chain, Cascaded, Live, Called, Rethrows;
      ghost var a := queue.S();
      TopFacts(a);
      threw := queue.Done(err, false);
      FinishedTop(a, queue.S(), err);
      TopExtends(a, queue.S());
    }

    /** The timer `shutdown` set up. */
    method ShutdownTimer(req: nat) returns (threw: bool, ghost mid: Q)
      requires Top(queue.S()) && Completed(queue.S()) <= req < |queue.h.pushed|
      modifies queue, queue.delayer
      ensures Top(queue.S()) && Grows(old(queue.S()), queue.S())
      ensures PoolKept(old(queue.S()).pool, queue.S().pool)
      ensures threw ==> old(queue.h.thrown) < queue.h.thrown
      ensures queue.h.reexecs == old(queue.h.reexecs) && Live(queue.S())
      ensures old(queue.h.leak) <= SPLIT_RECURSION ==>
                if Completed(old(queue.S())) < req
                then ShutdownExpired(old(queue.S()), mid, req) && Resumed(mid, queue.S())
                else Reported(queue.S(), req, TimedOut)
      ensures Accomplished(old(queue.S()), Event.ShutdownTimer(req), queue.S(), threw)
    {
      hide Core, Inv, Extends, Under, Cancelled, Resumed, ShutdownExpired, Reported, Live, Called, Rethrows;
      ghost var a := queue.S();
      mid := a;
      TopFacts(a);
      if queue.requests[0].id == req {
        threw := HeadCompletes(TimedOut);
        ExtendsGrows(a, queue.S());
        assert PoolKept(a.pool, queue.S().pool) by { ExtendsPool(a, queue.S()); }
      } else {
        FlaggedKeeps(a, req);
        queue.FlagTimedOut(req);
        ghost var f := queue.S();
        FlaggedCallable(a, req);
        ghost var log;
        var stray;
        threw, stray, log := queue.Cancel(NoPre, Expire(req), Some(req - 1));
        mid := log.mid;
        CancelResumed(f, mid, queue.S(), NoPre, Expire(req), Some(req - 1));
        ExpiredTop(a, mid, queue.S(), req);
        if a.resumeRecursion <= SPLIT_RECURSION {
          ShutdownTimeout(a, mid, req);
          ShutdownReports(a, mid, queue.S(), req);
        }
      }
    }

    /**
    A delayed notification fires, for the request at the front of `finalized`.  If it was split off a
    deep recursion it resumes the queue, but not when its callback throws.  So it executes a request
    again exactly if it resumes and finds it running, and whether it leaves somebody waiting in vain is
    decided by the state it finds; `called` is the state the callback leaves.
    */
    method FireNote(req: nat, err: Err, resume: bool, ghost q: Q) returns (threw: bool, failed: bool, ghost called: Q)
      requires CanStep(q) && Top(q) && Next(q).cb == Some(Notify(req, err, resume)) && queue.S() == StepTaken(q)
      modifies queue, queue.delayer
      ensures Top(queue.S()) && Grows(q, queue.S()) && PoolKept(StepTaken(q).pool, queue.S().pool)
      ensures q.finalized != [] && q.finalized[0].id == req && Reported(queue.S(), req, err)
      ensures (threw ==> q.h.thrown < queue.h.thrown) && (failed ==> threw)
      ensures var script := q.finalized[0].spec.onNotify; !Resets(script) ==> (failed <==> Throws(script))
      ensures var script := q.finalized[0].spec.onNotify; !Resets(script) ==> Did(StepTaken(q), called, Does(script))
      ensures FiredRight(q, queue.S())
      ensures called.h.reexecs == q.h.reexecs && called.locked == 0
      ensures queue.h.reexecs == q.h.reexecs + if resume && !failed && Started(called) then 1 else 0
      ensures !Live(queue.S()) <==> Sleeps(q)
      ensures !resume || failed ==> queue.S() == called
      ensures resume && !failed && called.requests != [] && called.requests[0].spec.mode.InFlight? ==>
                !threw && queue.S() == Executed(called)
      ensures q.finalized[0].spec.onNotify == Return && req < |q.h.told| ==>
                called == Closed(NoteFired(StepTaken(q), err, resume))
      ensures q.finalized[0].spec.onNotify == Throw && req < |q.h.told| ==>
                called == Closed(Thrown(NoteFired(StepTaken(q), err, resume)))
    {
      hide Core, Inv, Extends, Under, Quiet, Ran, Resumed, Top, Grows, Pool.Stepped;
      hide PoolKept, Reported, Unsplit, Live, Sleeps;
      hide Started, Thrown, Callable, Did, FiredRight, Carried, AllCancelled, ExecRethrows;
      hide NoteFired, Closed, Executed;
      TopFacts(q);
      NoteFacts(q);
      assert Next(q).cb.value == Notify(req, err, resume);
      FiredCallable(q, err, resume);
      var r := queue.finalized[0];
      queue.TakeNote(err, resume);
      ghost var n := queue.S();
      failed := queue.RunScript(r.spec.onNotify);
      threw := failed;
      ghost var b := queue.S();
      NoteRan(q, b, Resets(r.spec.onNotify));
      queue.LeaveNote();
      called := queue.S();
      NoteClosed(q, b, req, err, resume);
      NoteDid(q, err, resume, b, r.spec.onNotify);
      if resume && !failed {
        threw := queue.Resume();
        NoteResumed(q, called, queue.S(), req, err);
        ResumedPushed(called, queue.S());
        if called.requests != [] && called.requests[0].spec.mode.InFlight? {
          ResumedInFlight(called, queue.S(), threw);
        }
        PoolKeptTransitive(StepTaken(q).pool, called.pool, queue.S().pool);
      }
      NoteSleeps(q, n, called, failed, queue.S());
      NoteRight(q, called, queue.S(), r.spec.onNotify);
    }

    /** The head's own event: a connect goes through `finalize_handle_connect`, anything else is done. */
    method HeadEvent(err: Err) returns (threw: bool, stray: bool)
      requires Top(queue.S()) && queue.requests != []
      modifies queue, queue.delayer
      ensures stray <==> Strays(old(queue.S()), err)
      ensures !stray ==> Top(queue.S()) && Extends(old(queue.S()), queue.S()) && queue.h.reexecs == old(queue.h.reexecs)
      ensures !stray ==> Live(queue.S())
      ensures !stray && old(queue.h.leak) <= SPLIT_RECURSION ==>
                Reported(queue.S(), Completed(old(queue.S())), err)
      ensures !stray && !old(queue.requests)[0].spec.kind.Connect? ==> Rethrows(old(queue.S()), threw)
      ensures threw ==> old(queue.h.thrown) < queue.h.thrown
    {
      hide Top, Extends, AnyResets, Live, Reported, Called, Rethrows, ConnectFailed, Resumed;
      if queue.requests[0].spec.kind.Connect? {
        ghost var log;
        threw, stray, log := FinalizeHandleConnect(err);
      } else {
        stray := false;
        threw := HeadCompletes(err);
      }
    }

    /** One waiting callback of the loop. */
    method Fire(ghost q: Q) returns (threw: bool, stray: bool, ghost called: Q)
      requires CanStep(q) && Top(q) && queue.S() == q
      modifies queue, queue.delayer
      ensures stray <==> StraysNext(q)
      ensures !stray ==> Top(queue.S()) && Grows(q, queue.S()) && PoolKept(StepTaken(q).pool, queue.S().pool)
      ensures threw ==> q.h.thrown < queue.h.thrown
      ensures !stray ==> FiredRight(q, queue.S())
      ensures IsUser(Next(q)) ==> Accomplished(StepTaken(q), Event.Call(Next(q).cb.value.script), queue.S(), threw)
      ensures IsNote(Next(q)) ==>
                && q.finalized != [] && q.finalized[0].id == Next(q).cb.value.req
                && Notified(StepTaken(q), called, q.finalized[0].spec.onNotify, threw)
      ensures !stray ==> (!Live(queue.S()) <==> Sleeps(q))
      ensures Loses(q) ==> threw
      ensures !stray && !(IsNote(Next(q)) && Next(q).cb.value.resume) ==> queue.h.reexecs == q.h.reexecs
      ensures Resuming(q, Return) ==> queue.h.reexecs == q.h.reexecs + if Started(called) then 1 else 0
      ensures Resuming(q, Return) && called.requests != [] && called.requests[0].spec.mode.InFlight? ==>
                !threw && queue.S() == Executed(called)
      ensures Resuming(q, Return) ==> called == Closed(NoteFired(StepTaken(q), Next(q).cb.value.err, true))
      ensures Resuming(q, Throw) ==>
                queue.S() == called == Closed(Thrown(NoteFired(StepTaken(q), Next(q).cb.value.err, true)))
    {
      hide Core, Inv, Extends, Under, Top, Grows, Pool.Valid, Pool.Stepped, PoolKept, AnyResets, Started, Thrown, Live;
      hide FiredRight, Accomplished, Did, Reported, Rethrows;
      TopPool(q);
      StepFacts(q);
      StepTop(q);
      PoolKeptItself(StepTaken(q).pool);
      ghost var id;
      var fn;
      fn, id := queue.delayer.Step({});
      assert queue.S() == StepTaken(q);
      threw, stray, called := false, false, q;
      if fn.Some? && fn.value.Notify? {
        NoteFacts(q);
        var failed;
        threw, failed, called := FireNote(fn.value.req, fn.value.err, fn.value.resume, q);
        return;
      }
      StepLive(q);
      if fn.Some? {
        match fn.value
        case Fail(req, err) =>
          threw, stray := HeadEvent(err);
          if !stray {
            AfterStep(q, queue.S());
            FailRight(q, queue.S());
          }
        case User(script) =>
          threw := Call(script);
          AfterStep(q, queue.S());
          UserRight(q, queue.S(), threw);
      } else {
        RevokedRight(q, queue.S());
      }
    }

    /**
    `handle_idle`: everything that waited when the call began, up to an exception.  `fired` are the
    states in which the callbacks were called.
    */
    method HandleIdle() returns (threw: bool, stray: bool, ghost fired: seq<Q>)
      requires Settled(queue.S()) && queue.delayer.idle
      modifies queue, queue.delayer
      ensures !stray ==> Settled(queue.S()) && Advances(old(queue.S()), queue.S())
      ensures threw ==> old(queue.h.thrown) < queue.h.thrown && fired != []
      ensures !stray && !threw ==> |fired| == |old(queue.delayer.callbacks)| && Drains(old(queue.S()), queue.S())
      ensures !stray ==> forall i | 0 <= i < |fired| :: FiredRight(fired[i], queue.S())
      ensures Trace(old(queue.S()), fired)
      ensures !stray ==> (Live(queue.S()) <==> LiveAfter(old(queue.S()), fired))
      ensures !stray && Live(old(queue.S())) ==> (!Live(queue.S()) <==> fired != [] && Loses(fired[|fired| - 1]))
      ensures stray ==> fired != [] && StraysNext(fired[|fired| - 1])
    {
      hide Core, Inv, Extends, Under, Top, Grows, Pool.Valid, Pool.Rest, Pool.Stepped;
      hide Pool.Begun, PoolKept, Live, Sleeps, Loses;
      hide CanStep, Trace, StraysNext, FiredRight, Accomplished, Notified, Drains;
      ghost var a := queue.S();
      TopPool(a);
      BeginKeeps(a.pool);
      BegunFacts(a.pool);
      PoolRearranged(a, a.pool.Begun());
      queue.delayer.Begin();
      threw, stray, fired := false, false, [];
      assert Trace(a, []) by { TraceBegins(a); }
      while !threw && queue.delayer.pos < |queue.delayer.reserve|
        invariant Top(queue.S()) && Grows(a, queue.S()) && queue.delayer.calling
        invariant queue.delayer.pos <= |queue.delayer.reserve| && |fired| == queue.delayer.pos
        invariant |queue.delayer.reserve| == |a.pool.callbacks| && queue.delayer.mark == a.pool.lastid
        invariant threw ==> a.h.thrown < queue.h.thrown && fired != []
        invariant forall i | 0 <= i < |fired| :: FiredRight(fired[i], queue.S())
        invariant Trace(a, fired) && (Live(queue.S()) <==> LiveAfter(a, fired))
        invariant fired == [] ==> queue.S() == a.(pool := a.pool.Begun())
        invariant Live(a) && fired != [] ==> Live(fired[|fired| - 1])
        invariant fired != [] && Loses(fired[|fired| - 1]) ==> threw
        decreases |queue.delayer.reserve| - queue.delayer.pos
      {
        ghost var q := queue.S();
        TopPool(q);
        assert CanStep(q) by { TopCanStep(q); }
        TraceMore(a, fired, q);
        AwakeUnless(a, fired);
        ghost var called;
        threw, stray, called := Fire(q);
        GrowsFacts(a, q);
        fired := fired + [q];
        if stray {
          return;
        }
        FireMoved(q, queue.S());
        GrowsTransitive(a, q, queue.S());
        TopPool(queue.S());
        AllFiredStay(fired[..|fired| - 1], q, queue.S());
      }
      AwakeUnless(a, fired);
      ghost var b := queue.S();
      TopPool(b);
      IdleEnds(a, b, fired, threw);
      queue.delayer.End(threw);
    }

    /**
    One event of the loop, if it can happen; `fired` are the states in which delayed callbacks were
    called, and `mid` is the one from which a shutdown that timed out resumed the queue.
    */
    method Handle(event: Event) returns (threw: bool, stray: bool, ghost fired: seq<Q>, ghost mid: Q)
      requires Settled(queue.S())
      modifies queue, queue.delayer
      ensures !stray ==> Settled(queue.S()) && Advances(old(queue.S()), queue.S())
      ensures !event.Idle? ==>
                (stray <==> event.HeadDone? && old(queue.requests) != [] && Strays(old(queue.S()), event.err))
      ensures forall i | 0 <= i < |fired| :: CanStep(fired[i]) && Top(fired[i])
      ensures !event.Idle? ==> fired == []
      ensures stray && event.Idle? ==> fired != [] && StraysNext(fired[|fired| - 1])
      ensures !stray && !event.Idle? ==> (Live(queue.S()) <==> Live(old(queue.S())) || Rouses(old(queue.S()), event))
      ensures !stray && event.Idle? && Live(old(queue.S())) ==>
                (!Live(queue.S()) <==> fired != [] && Loses(fired[|fired| - 1]))
      ensures !stray && !event.Idle? ==> queue.h.reexecs == old(queue.h.reexecs)
      ensures !stray ==> Accomplished(old(queue.S()), event, queue.S(), threw)
      ensures !stray ==> forall i | 0 <= i < |fired| :: FiredRight(fired[i], queue.S())
      ensures !stray && event.Idle? && !threw ==> |fired| == |old(queue.delayer.callbacks)|
      ensures threw ==> old(queue.h.thrown) < queue.h.thrown && (event.Idle? ==> fired != [])
      ensures event.ShutdownTimer? && Completed(old(queue.S())) < event.req < |old(queue.h.pushed)|
              && old(queue.h.leak) <= SPLIT_RECURSION ==>
                ShutdownExpired(old(queue.S()), mid, event.req) && Resumed(mid, queue.S())
    {
      hide Core, Inv, Extends, Under, Grows, PoolKept, AnyResets, Unsplit, Top, Live;
      hide Loses, Sleeps, CanStep, Trace, LiveAfter, StraysNext, FiredRight, Drains, Reported;
      hide Did, Carried, AllCancelled, ShutdownExpired, Resumed, Rethrows, Strays;
      ghost var a := queue.S();
      threw, stray, fired, mid := false, false, [], a;
      TopFacts(a);
      GrowsItself(a);
      NoneWaits(a);
      match event
      case Call(script) =>
        threw := Call(script);
        EventOver(a, queue.S());
      case HeadDone(err) =>
        if queue.requests != [] {
          threw, stray := HeadEvent(err);
          if !stray {
            EventOver(a, queue.S());
          }
        }
      case ShutdownTimer(req) =>
        CountIs(a);
        if queue.requests != [] && queue.requests[0].id <= req < queue.count {
          threw, mid := ShutdownTimer(req);
          CallingKept(a.pool, queue.S().pool);
        }
      case Idle =>
        if queue.delayer.idle {
          threw, stray, fired := HandleIdle();
          TraceFacts(a, fired);
        } else {
          DrainsNothing(a);
        }
    }

    /**
    Any run of the loop, from a new stream on.  It ends early only where a failing connect goes astray;
    `losses` are the states in which a callback was called that lost a wakeup, `states` those between the
    events, and `threw` says which of these let an exception out.
    */
    method Run(events: seq<Event>)
      returns (stray: bool, ghost losses: seq<Q>, ghost states: seq<Q>, ghost threw: seq<bool>)
      requires Settled(queue.S())
      modifies queue, queue.delayer
      ensures !stray ==> Settled(queue.S()) && Advances(old(queue.S()), queue.S())
      ensures forall i | 0 <= i < |losses| :: CanStep(losses[i]) && Top(losses[i]) && Loses(losses[i])
      ensures !stray && losses == [] && Live(old(queue.S())) ==> Live(queue.S())
      ensures Lived(old(queue.S()), events, states, threw)
      ensures !stray ==> |threw| == |events| && states[|events|] == queue.S()
    {
      hide Settled, Advances, Live, CanStep, Top, Loses, Rouses, Strays, Accomplished, FiredRight, Lived;
      hide ShutdownExpired, Resumed;
      ghost var a := queue.S();
      stray, losses, states, threw := false, [], [a], [];
      AdvancesItself(a);
      LivedBegins(a, events);
      for i := 0 to |events|
        invariant !stray && Settled(queue.S()) && Advances(a, queue.S())
        invariant forall i | 0 <= i < |losses| :: CanStep(losses[i]) && Top(losses[i]) && Loses(losses[i])
        invariant losses == [] && Live(a) ==> Live(queue.S())
        invariant Lived(a, events, states, threw) && |threw| == i && |states| == i + 1 && states[i] == queue.S()
      {
        ghost var b := queue.S();
        ghost var fired, mid;
        var thrown;
        thrown, stray, fired, mid := Handle(events[i]);
        if stray {
          return;
        }
        if fired != [] && Loses(fired[|fired| - 1]) {
          losses := losses + [fired[|fired| - 1]];
        }
        AdvancesTransitive(a, b, queue.S());
        LivedOn(a, events, states, threw, queue.S(), thrown);
        states, threw := states + [queue.S()], threw + [thrown];
      }
    }
  }
}
