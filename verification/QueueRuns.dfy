/**
Runs of the stream itself: a queue so deep that `done` splits its recursion, and what a push or an
exception makes of that; and a failing connect that goes astray.
*/
module QueueRuns {
  import opened Basics
  import opened Delayers
  import opened QueueModel
  import opened QueueRelations
  import opened QueueSteps
  import opened CancelSteps
  import opened Cascades
  import opened Queues
  import opened Streams
  import opened QueueTheorems

  function InFlightSpec(): Spec { Spec(Plain, InFlight, Return) }

  function AtOnce(onNotify: Script): Spec { Spec(Plain, Completes(Ok), onNotify) }

  /** One request in flight, and `n` behind it that complete at once. */
  function Deep(n: nat): seq<Spec> {
    [InFlightSpec()] + seq(n, _ => AtOnce(Return))
  }

  lemma SettledFacts(q: Q)
    requires Settled(q)
    ensures Top(q) && Inv(q) && !q.pool.calling
  {
  }

  /** Pushing from outside. */
  method PushAll(s: Stream, specs: seq<Spec>)
    requires s.queue.S() == Empty() && Settled(s.queue.S())
    modifies s.queue, s.queue.delayer
    ensures s.queue.S() == Pile(specs) && Settled(s.queue.S())
  {
    hide Settled, Top, Inv, Ran, PushDone;
    assert specs[..0] == [];
    for k := 0 to |specs|
      invariant s.queue.S() == Pile(specs[..k]) && Settled(s.queue.S())
    {
      ghost var a := s.queue.S();
      SettledFacts(a);
      s.queue.PushRequest(specs[k]);
      PushSettled(a, s.queue.S());
      assert specs[..k + 1][..k] == specs[..k];
    }
    assert specs[..|specs|] == specs;
  }

  lemma PushSettled(a: Q, b: Q)
    requires Settled(a) && Ran(a, b, false)
    ensures Settled(b)
  {
    hide Inv, Under, Quiet, Extends;
    TopExtends(a, b);
    ExtendsPool(a, b);
  }

  /** A pile like this, however deep, is what the recursion in `done` works through. */
  lemma {:induction false} PileChain(specs: seq<Spec>)
    requires specs != [] && specs[0].mode.InFlight?
    requires forall j | 0 <= j < |specs| && j <= SPLIT_RECURSION :: specs[j].onNotify == Return
    requires forall j | 1 <= j < |specs| && j <= SPLIT_RECURSION + 1 :: specs[j].mode.Completes?
    ensures var q := Pile(specs); Chain(q) && q.requests != [] && Behind(q) && q.resumeRecursion == 0
    ensures CascadeEnds(Pile(specs), Cascaded(Pile(specs), Ok), Ok)
  {
    PileShape(specs);
    PiledChain(specs);
    hide Chain, Behind, Piled, Pile, Cascaded, CascadeEnds;
    CascadeResult(Pile(specs), Ok);
  }

  lemma {:induction false} PiledChain(specs: seq<Spec>)
    requires specs != []
    requires forall j | 0 <= j < |specs| && j <= SPLIT_RECURSION :: specs[j].onNotify == Return
    requires forall j | 1 <= j < |specs| && j <= SPLIT_RECURSION + 1 :: specs[j].mode.Completes?
    ensures var q := Piled(specs); Chain(q) && q.requests != [] && Behind(q) && q.resumeRecursion == 0
  {
  }

  /** All that waits in the loop is a notification that resumes. */
  ghost predicate OneNote(q: Q, script: Script) {
    && |q.pool.callbacks| == 1 && q.pool.idle
    && IsNote(q.pool.callbacks[0]) && q.pool.callbacks[0].cb.value.resume
    && q.finalized != [] && q.finalized[0].id < |q.h.told| && q.finalized[0].spec.onNotify == script
  }

  /** The loop has begun to call it. */
  ghost function Calling(q: Q): Q {
    q.(pool := q.pool.Begun())
  }

  lemma CallingFacts(q: Q, script: Script)
    requires Settled(q) && OneNote(q, script)
    ensures var b := Calling(q);
            && CanStep(b) && Top(b) && Resuming(b, script) && |b.pool.reserve| == 1 && b.pool.pos == 0
            && StepTaken(b).pool.Rest() == [] && Next(b) == q.pool.callbacks[0] && b.h == q.h
  {
    hide Core, Pool.Accounted;
    SettledFacts(q);
    TopPool(q);
    BeginKeeps(q.pool);
    PoolRearranged(q, q.pool.Begun());
    StepPending(Calling(q));
  }

  /** What the queue looks like when the callback of that notification has returned, or thrown. */
  ghost function AfterNote(q: Q, threw: bool): Q
    requires |q.pool.callbacks| == 1 && IsNote(q.pool.callbacks[0]) && q.finalized != []
    requires q.finalized[0].id < |q.h.told|
  {
    var n := NoteFired(StepTaken(Calling(q)), q.pool.callbacks[0].cb.value.err, true);
    Closed(if threw then Thrown(n) else n)
  }

  /** `handle_idle` with that one notification. */
  method FireOne(s: Stream, ghost script: Script) returns (threw: bool)
    requires Settled(s.queue.S()) && OneNote(s.queue.S(), script) && (script == Return || script == Throw)
    modifies s.queue, s.queue.delayer
    ensures Settled(s.queue.S()) && (!Live(s.queue.S()) <==> Sleeps(Calling(old(s.queue.S()))))
    ensures var c := AfterNote(old(s.queue.S()), script == Throw);
            && (script == Return && c.requests != [] && c.requests[0].spec.mode.InFlight? ==>
                  && s.queue.h == Executed(c).h
                  && s.queue.h.reexecs == old(s.queue.h.reexecs) + if Started(c) then 1 else 0)
            && (script == Throw ==> s.queue.h == c.h)
  {
    hide Core, Inv, Top, Live, Sleeps, Loses, Pool.Valid, Pool.Rest, Pool.Stepped, Pool.Begun, PoolKept, Grows, Extends;
    hide NoteFired, Closed, Thrown, Started, StraysNext;
    ghost var a := s.queue.S();
    SettledFacts(a);
    TopPool(a);
    CallingFacts(a, script);
    s.queue.delayer.Begin();
    ghost var q := s.queue.S();
    assert q == Calling(a);
    var stray;
    ghost var called;
    threw, stray, called := s.Fire(q);
    assert !stray by { NoteNotStray(q); }
    assert called == AfterNote(a, script == Throw);
    FireMoved(q, s.queue.S());
    ghost var b := s.queue.S();
    TopPool(b);
    EndKeeps(b.pool);
    PoolRearranged(b, b.pool.Ended());
    PoolRearranged(b, b.pool.Ended().Settled());
    s.queue.delayer.End(threw);
  }

  lemma NoteNotStray(q: Q)
    requires q.pool.pos < |q.pool.reserve| && IsNote(Next(q))
    ensures !StraysNext(q)
  {
  }

  // ---------------------------------------------------------------- the runs

  /** The state after the head of a pile has completed. */
  lemma {:induction false} PileDone(specs: seq<Spec>, z: Q)
    requires |specs| > SPLIT_RECURSION + 1 && specs[0].mode.InFlight?
    requires forall j | 0 <= j < |specs| && j <= SPLIT_RECURSION :: specs[j].onNotify == Return
    requires forall j | 1 <= j < |specs| && j <= SPLIT_RECURSION + 1 :: specs[j].mode.Completes?
    requires Chain(Pile(specs)) && Pile(specs).requests != [] && z == Cascaded(Pile(specs), Ok)
    ensures |z.requests| == |specs| - SPLIT_RECURSION - 2 && OneNote(z, specs[SPLIT_RECURSION + 1].onNotify)
    ensures forall j | 0 <= j < |z.requests| :: z.requests[j].spec == specs[SPLIT_RECURSION + 2 + j]
    ensures z.h.thrown == 0 && z.h.reexecs == 0 && z.locked == 0 && z.count == |specs| && z.h.frames == []
    ensures |z.requests| <= |z.h.pushed| && (forall e | e in z.h.execs :: e < Completed(z)) && |z.h.told| == |specs|
    ensures z.pool.reserve == []
  {
    hide Cascaded, Chain;
    PileShape(specs);
    PileChain(specs);
  }

  /** A request pushed onto an empty queue is running, and the notification still waits. */
  lemma PushedRuns(z: Q, spec: Spec)
    requires z.requests == [] && z.locked == 0 && spec.mode.InFlight? && OneNote(z, Return)
    ensures var p := PushDone(z, spec);
            && OneNote(p, Return) && p.requests != [] && p.requests[0].spec == spec && Started(p)
            && p.h.thrown == z.h.thrown
  {
  }

  lemma StillRunning(p: Q)
    requires OneNote(p, Return) && p.requests != [] && Started(p)
    ensures var c := AfterNote(p, false);
            c.requests == p.requests && Started(c) && c.h.thrown == p.h.thrown && Executed(c).h.thrown == p.h.thrown
  {
  }

  /**
  Too many requests complete inside one another, nobody throws, and a request is pushed before the
  delayed resume: that request is executed twice.
  */
  method ExecutedTwice() returns (s: Stream)
    ensures fresh(s.queue) && fresh(s.queue.delayer)
    ensures Settled(s.queue.S()) && s.queue.h.thrown == 0 && !Distinct(s.queue.h.execs)
  {
    hide Core, Inv, Top, Settled, Chain, Cascaded, Pile, PushDone, OneNote, AfterNote, Started, Extends;
    s := new Stream();
    var specs := Deep(SPLIT_RECURSION + 1);
    PushAll(s, specs);
    ghost var a := s.queue.S();
    PileChain(specs);
    SettledFacts(a);
    var _ := s.HeadCompletes(Ok);
    ghost var z := s.queue.S();
    PileDone(specs, z);
    assert Settled(z) by { StillSettled(a, z); }
    SettledFacts(z);
    s.queue.PushRequest(InFlightSpec());
    ghost var p := s.queue.S();
    assert Settled(p) by { PushSettled(z, p); }
    PushedRuns(z, InFlightSpec());
    StillRunning(p);
    var _ := FireOne(s, Return);
    SettledFacts(s.queue.S());
    RepeatsCounted(s.queue.S());
  }

  lemma StillSettled(a: Q, b: Q)
    requires Settled(a) && Top(b) && Extends(a, b)
    ensures Settled(b)
  {
    hide Top;
  }

  /** What waits in the loop after a push onto an empty queue with nothing waiting: the request's own outcome. */
  lemma PushedWaits(a: Q, spec: Spec)
    requires Settled(a) && a.requests == [] && a.pool.callbacks == [] && !spec.mode.InFlight?
    requires a.h.leak <= SPLIT_RECURSION
    ensures var p := PushDone(a, spec);
            && |p.pool.callbacks| == 1 && p.pool.idle && p.h.leak == a.h.leak
            && var e := p.pool.callbacks[0];
            && (IsNote(e) || IsFail(e)) && e.cb.value.req == |a.h.pushed| && e.cb.value.err == spec.mode.err
  {
    hide Timed, ToldOnce, Serial, Marked;
    TopFacts(a);
    CountIs(a);
  }

  lemma FirstFired(p: Q, fired: seq<Q>, b: Q)
    requires Trace(p, fired) && fired != [] && FiredRight(fired[0], b) && |p.pool.callbacks| == 1
    requires p.h.leak <= SPLIT_RECURSION && (IsNote(p.pool.callbacks[0]) || IsFail(p.pool.callbacks[0]))
    ensures Reported(b, p.pool.callbacks[0].cb.value.req, p.pool.callbacks[0].cb.value.err)
  {
    hide CanStep, Top, Live, LiveAfter, Reported, Pushes;
  }

  /** A request that completes or fails as soon as it is pushed is told that very outcome by the next idle call. */
  method PushedThenTold(s: Stream, spec: Spec) returns (threw: bool, stray: bool)
    requires Settled(s.queue.S()) && s.queue.requests == [] && s.queue.delayer.callbacks == []
    requires !spec.mode.InFlight? && s.queue.h.leak <= SPLIT_RECURSION
    modifies s.queue, s.queue.delayer
    ensures !stray ==> Settled(s.queue.S()) && Reported(s.queue.S(), |old(s.queue.h.pushed)|, spec.mode.err)
  {
    hide Core, Inv, Top, Settled, Ran, PushDone, Advances, Live, Trace, FiredRight, Drains, Reported, LiveAfter, Loses;
    ghost var a := s.queue.S();
    SettledFacts(a);
    s.queue.PushRequest(spec);
    ghost var p := s.queue.S();
    assert Settled(p) by { PushSettled(a, p); }
    PushedWaits(a, spec);
    ghost var fired;
    threw, stray, fired := s.HandleIdle();
    if !stray {
      FirstFired(p, fired, s.queue.S());
    }
  }

  /**
  One request in flight, as many behind it as complete inside one another, one more whose callback throws,
  and one that waits.
  */
  function TooDeep(): seq<Spec> {
    Deep(SPLIT_RECURSION) + [AtOnce(Throw), InFlightSpec()]
  }

  lemma LosesNext(z: Q)
    requires Settled(z) && OneNote(z, Throw) && z.requests != [] && (forall e | e in z.h.execs :: e < Completed(z))
    ensures Loses(Calling(z))
  {
    hide Core, Pool.Accounted;
    CallingFacts(z, Throw);
  }

  lemma ThrownOnce(z: Q)
    requires OneNote(z, Throw)
    ensures AfterNote(z, true).h.thrown == z.h.thrown + 1
  {
  }

  /**
  Too many requests complete inside one another, and the callback of the one split off throws, the only
  exception of the run: the next request waits for ever.
  */
  method LostWakeup() returns (s: Stream)
    ensures fresh(s.queue) && fresh(s.queue.delayer)
    ensures Settled(s.queue.S()) && !Live(s.queue.S()) && s.queue.h.thrown == 1
  {
    hide Core, Inv, Top, Settled, Chain, Cascaded, Pile, OneNote, AfterNote, Live, Loses, Extends;
    s := new Stream();
    var specs := TooDeep();
    PushAll(s, specs);
    ghost var a := s.queue.S();
    PileChain(specs);
    SettledFacts(a);
    var _ := s.HeadCompletes(Ok);
    ghost var z := s.queue.S();
    PileDone(specs, z);
    assert Settled(z) by { StillSettled(a, z); }
    LosesNext(z);
    ThrownOnce(z);
    var _ := FireOne(s, Throw);
  }

  /**
  A request completes while it is pushed, so its callback is delayed; a connect behind it fails before
  that; and the callback, which the failing connect is to cancel first, resets the stream and pushes
  another request.  The connect, request 1, has been told so when its own failure is to be reported, and
  `done` takes out the other request instead: that one is never told, and the connect is told twice.
  */
  method ConnectAstray() returns (s: Stream, stray: bool)
    ensures stray && Inv(s.queue.S()) && s.queue.requests != [] && Reported(s.queue.S(), 1, Canceled)
    ensures var z := StrayDone(s.queue.S(), 1, Failed(1));
            var other := s.queue.requests[0].id;
            && z.h.told[1] == [Canceled, Failed(1)]
            && other < |z.h.told| && z.h.told[other] == [] && !InList(z.requests, other) && !InList(z.finalized, other)
  {
    hide Reported, Completed;
    hide Core, Inv, Top, Settled, Pile, Extends;
    s := new Stream();
    var resets := AtOnce(Reset(true, Push(InFlightSpec(), Return)));
    var connect := Spec(Connect, InFlight, Return);
    PushAll(s, [resets, connect]);
    AstrayShape(resets, connect);
    SettledFacts(s.queue.S());
    var threw;
    ghost var log;
    ghost var a := s.queue.S();
    threw, stray, log := s.FinalizeHandleConnect(Failed(1));
    DrainedFacts(CancelBegun(a, None), s.queue.S());
    DrainedPast(a, s.queue.S());
    StrayBreaks(s.queue.S(), 1, Failed(1));
  }

  lemma DrainedPast(a: Q, b: Q)
    requires Top(a) && a.requests != [] && AnyResets(a.finalized) && a.h.leak <= SPLIT_RECURSION
    requires Drained(CancelBegun(a, None), b)
    ensures Completed(a) < Completed(b)
  {
    hide Top, Drained;
    ConnectOvertaken(a, b);
  }

  lemma AstrayShape(r: Spec, c: Spec)
    requires r.mode.Completes? && c.mode.InFlight? && Resets(r.onNotify)
    ensures Pile([r, c]).requests != [] && AnyResets(Pile([r, c]).finalized)
    ensures Pile([r, c]).resumeRecursion == 0 && Completed(Pile([r, c])) == 1 && Pile([r, c]).h.leak == 0
    ensures Leaves(r.onNotify) ==> OneLeaves(Pile([r, c]))
  {
    assert [r, c][..1] == [r] && [r][..0] == [];
    var a := PushDone(Empty(), r);
    assert Pile([r]) == a;
    assert Pile([r, c]) == PushDone(a, c);
    assert a.requests == [] && |a.finalized| == 1 && a.finalized[0].spec == r && a.locked == 0;
  }
}
