/**
What the invariant means: the promises of the request queue, for every state in which user
code can find it and for every run of the loop.
*/
module QueueTheorems {
  import opened Basics
  import opened Delayers
  import opened QueueModel
  import opened QueueRelations
  import opened QueueSteps
  import opened CancelSteps
  import opened Streams

  function Indicator(b: bool): nat { if b then 1 else 0 }

  /** Every pushed request is in exactly one of three places: queued, finalized, or told, and then told once. */
  lemma ExactlyOnce(q: Q, id: nat)
    requires Inv(q) && id < |q.h.pushed|
    ensures id < |q.h.told|
    ensures Indicator(InList(q.requests, id)) + Indicator(InList(q.finalized, id)) + |q.h.told[id]| == 1
  {
    hide Timed, Counted, Serial, Marked;
    if Completed(q) <= id {
      assert q.requests[id - Completed(q)].id == id;
    }
  }

  /** A list of callbacks that waits with a notification has it among its notes. */
  lemma {:induction false} NoteListed(list: seq<Entry<Fn>>, k: nat)
    requires k < |list| && IsNote(list[k])
    ensures list[k] in Notes(list)
  {
    if k > 0 {
      NoteListed(list[1..], k - 1);
    }
  }

  /** Once a request has been told, at once or by a cancel, nothing that waits in the loop will tell it again. */
  lemma NoLateCallback(q: Q, id: nat)
    requires Inv(q) && id < |q.h.told| && q.h.told[id] != []
    ensures forall k | 0 <= k < |q.pool.Rest()| && IsNote(q.pool.Rest()[k]) :: q.pool.Rest()[k].cb.value.req != id
  {
    hide Pool.Valid, Counted, Serial, Marked;
    var rest := q.pool.Rest();
    forall k | 0 <= k < |rest| && IsNote(rest[k]) ensures rest[k].cb.value.req != id {
      NoteListed(rest, k);
      var j :| 0 <= j < |Notes(rest)| && Notes(rest)[j] == rest[k];
      assert InList(q.finalized, q.finalized[j].id);
    }
  }

  /**
  No lost wakeup: a delayed callback leaves somebody waiting in vain exactly if it was to resume the
  queue after a split and throws instead, while somebody waits whom nobody else will start.  Then nobody
  waited in vain before.  `Stream.Fire` is proved to end as `Sleeps` says.
  */
  lemma NoLostWakeup(q: Q)
    requires Top(q) && CanStep(q)
    ensures Live(q) ==> (Sleeps(q) <==> Loses(q))
    ensures Loses(q) ==> Live(q) && q.h.splits > 0
  {
    hide Inv, Pool.Rest, Pool.Stepped, ResumePending;
    StepPending(q);
  }

  /** Requests run in push order, one at a time, and what was pushed is what was completed and what is queued. */
  lemma SerialExecution(q: Q)
    requires Inv(q)
    ensures forall i, j | 0 <= i < j < |q.h.execs| :: q.h.execs[i] <= q.h.execs[j]
    ensures forall id | id in q.h.execs :: id < Completed(q) || (q.requests != [] && id == q.requests[0].id)
    ensures q.h.pushed[Completed(q)..] == seq(|q.requests|, i requires 0 <= i < |q.requests| => q.requests[i].spec)
  {
    hide Timed, ToldOnce, Counted, Marked;
  }

  /** What `reexecs` counts. */
  lemma RepeatsCounted(q: Q)
    requires Inv(q)
    ensures Distinct(q.h.execs) <==> q.h.reexecs == 0
  {
    hide Timed, ToldOnce, Counted, Marked;
    if Distinct(q.h.execs) {
      assert Increasing(q.h.execs);
    }
  }

  /** In a run in which no completion was split off, each request is executed at most once. */
  lemma OnceUnlessSplit(q: Q)
    requires Top(q) && q.h.splits == 0
    ensures Distinct(q.h.execs) && !ResumePending(q.pool.Rest())
  {
    hide Inv;
    RepeatsCounted(q);
  }

  /**
  What a reset, or a failing connect, cancels: everything that was queued, as cancelled, and nothing
  that was pushed after the last reset began; that stays queued in order and has not been executed.  If no
  callback resets, what stays queued is exactly what the cancelled callbacks pushed, in order.
  The delayed ones are told first and then the queued ones, each in order, however callbacks reset.
  Wherever user code runs there is room for this, unless exceptions have leaked more than 300 levels.
  */
  lemma CancelSnapshot(a: Q, m: Q, pre: Pre)
    requires Inv(a) && Callable(a) && a.h.leak <= SPLIT_RECURSION && Cancelled(a, m, pre, Teardown, None)
    ensures |a.h.pushed| <= m.h.bound == Completed(m) <= |m.h.pushed| == |m.h.told|
    ensures !CallbacksReset(a, None) ==> m.h.bound == |a.h.pushed|
    ensures InOrder(a, m)
    ensures forall id | Completed(a) <= id < m.h.bound && id != Own(pre) :: Reported(m, id, CancelErr(a.h, id))
    ensures forall i | 0 <= i < |a.finalized| && a.finalized[i].id != Own(pre) ::
              Reported(m, a.finalized[i].id, Canceled)
    ensures forall id | m.h.bound <= id < |m.h.pushed| :: m.h.told[id] == [] && id !in m.h.execs
    ensures m.h.pushed[m.h.bound..] == seq(|m.requests|, i requires 0 <= i < |m.requests| => m.requests[i].spec)
    ensures Completed(a) <= |a.h.pushed|
    ensures !CallbacksReset(a, None) ==> m.h.pushed[m.h.bound..] == DoneBy(CalledTo(a, |a.h.pushed|)).pushes
  {
    hide Inv, Extends, OnlyCancelled, Under, CallbacksReset, Cancelled, InOrder, CalledTo;
    CancelledCore(a, m, pre);
    LastId(a);
    TornDownFacts(a, m, pre);
    CancelledInOrder(a, m, pre, Teardown, None);
    Survivors(m);
    forall id | Completed(a) <= id < m.h.bound && id != Own(pre) ensures Reported(m, id, CancelErr(a.h, id)) {
      NotTold(a, id);
      CancelledTold(a, m, pre, Teardown, None, id);
    }
    forall i | 0 <= i < |a.finalized| && a.finalized[i].id != Own(pre)
      ensures Reported(m, a.finalized[i].id, Canceled)
    {
      FinalizedNotTold(a, i);
      CancelledTold(a, m, pre, Teardown, None, a.finalized[i].id);
    }
  }

  lemma CancelledCore(a: Q, m: Q, pre: Pre)
    requires Cancelled(a, m, pre, Teardown, None)
    ensures Core(m, false) && !Started(m) && |a.h.pushed| <= m.h.bound == Completed(m)
    ensures !CallbacksReset(a, None) ==> m.h.bound == |a.h.pushed|
  {
    hide Core, Extends, OnlyCancelled, CallbacksReset;
  }

  /** What is queued and was never executed. */
  lemma Survivors(m: Q)
    requires Core(m, false) && !Started(m)
    ensures Completed(m) <= |m.h.pushed| == |m.h.told|
    ensures forall id | Completed(m) <= id < |m.h.pushed| :: m.h.told[id] == [] && id !in m.h.execs
    ensures m.h.pushed[Completed(m)..] == seq(|m.requests|, i requires 0 <= i < |m.requests| => m.requests[i].spec)
  {
    hide Timed, Counted, Marked;
  }

  /** The counters on a stack of open frames, wherever user code is called from. */
  lemma StackAccounting(q: Q)
    requires Inv(q)
    ensures q.locked == Locks(q.h.frames)
    ensures q.resumeRecursion == Resumes(q.h.frames) + q.h.leak <= SPLIT_RECURSION + 1
    ensures q.h.frames == [] ==> q.locked == 0 && q.cancelTill == None
    ensures q.h.thrown == 0 ==> q.h.leak == 0 && (Callable(q) ==> q.resumeRecursion <= SPLIT_RECURSION)
  {
    hide Timed, ToldOnce, Serial, Marked, Listed;
  }

  /**
  Every run of the loop from a new stream on that no failing connect led astray.  If no completion was
  split off, each request was executed at most once.  If no user code threw, the recursion counter is
  back at zero, and the head is running or about to be resumed.
  */
  lemma EveryRun(q: Q)
    requires Settled(q) && Advances(Empty(), q)
    ensures q.locked == 0 && q.cancelTill == None
    ensures forall id | 0 <= id < |q.h.pushed| ::
              Indicator(InList(q.requests, id)) + Indicator(InList(q.finalized, id)) + |q.h.told[id]| == 1
    ensures q.h.splits == 0 ==> Distinct(q.h.execs)
    ensures q.h.thrown == 0 ==> q.resumeRecursion == 0
    ensures q.h.thrown == 0 ==> Live(q)
  {
    hide Inv;
    TopFacts(q);
    forall id | 0 <= id < |q.h.pushed|
      ensures id < |q.h.told|
      ensures Indicator(InList(q.requests, id)) + Indicator(InList(q.finalized, id)) + |q.h.told[id]| == 1
    {
      ExactlyOnce(q, id);
    }
    if q.h.splits == 0 {
      OnceUnlessSplit(q);
    }
  }

  /** Over a run states only grow. */
  lemma {:induction false} LivedGrows(a: Q, events: seq<Event>, states: seq<Q>, threw: seq<bool>, i: nat, j: nat)
    requires Lived(a, events, states, threw) && i <= j < |states|
    ensures Grows(states[i], states[j])
    decreases j - i
  {
    hide Settled, Live, Accomplished, Grows;
    if i == j {
      GrowsItself(states[i]);
    } else {
      LivedGrows(a, events, states, threw, i, j - 1);
      assert Advances(states[j - 1], states[j]);
      GrowsTransitive(states[i], states[j - 1], states[j]);
    }
  }

  /**
  What an event reports: a completed head is told its outcome; a shutdown that timed out is told so, and
  whatever was queued before it that it is cancelled; and so is everything when the user resets the stream.
  */
  ghost predicate Reports(a: Q, event: Event, b: Q) {
    match event
    case Call(script) => script.Reset? ==> AllCancelled(a, b)
    case HeadDone(err) => a.requests != [] ==> Reported(b, Completed(a), err)
    case ShutdownTimer(req) =>
      Completed(a) <= req < |a.h.pushed| ==>
        Reported(b, req, TimedOut) && forall id | Completed(a) <= id < req :: Reported(b, id, Canceled)
    case Idle => true
  }

  lemma ReportsStay(a: Q, event: Event, b: Q, c: Q)
    requires Reports(a, event, b) && Grows(b, c) && Inv(c)
    ensures Reports(a, event, c)
  {
    hide Inv, Grows, Reported, Completed;
    assert Completed(b) <= Completed(c) by { GrowsCompleted(b, c); }
    match event
    case Call(script) =>
      forall id, err | Reported(b, id, err) ensures Reported(c, id, err) {
        ToldStays(b, c, id, err);
      }
    case HeadDone(err) =>
      if a.requests != [] {
        ToldStays(b, c, Completed(a), err);
      }
    case ShutdownTimer(req) =>
      forall id, err | Reported(b, id, err) ensures Reported(c, id, err) {
        ToldStays(b, c, id, err);
      }
    case Idle =>
  }

  lemma AccomplishedReports(a: Q, event: Event, b: Q, threw: bool)
    requires Accomplished(a, event, b, threw) && a.h.leak <= SPLIT_RECURSION
    ensures Reports(a, event, b)
  {
    hide Reported, AllCancelled, Did, Carried, Drains;
  }

  /** What an event reports, and it does, stands for the rest of the run: nobody is told anything else ever. */
  lemma ReportsStand(a: Q, events: seq<Event>, states: seq<Q>, threw: seq<bool>, i: nat, j: nat)
    requires Lived(a, events, states, threw) && i < j < |states| && states[i].h.leak <= SPLIT_RECURSION
    ensures Reports(states[i], events[i], states[j])
  {
    hide Reports, Accomplished, Grows, Lived, Inv;
    LivedLengths(a, events, states, threw);
    LivedGrows(a, events, states, threw, i + 1, j);
    LivedAt(a, events, states, threw, i, j);
    AccomplishedReports(states[i], events[i], states[i + 1], threw[i]);
    ReportsStay(states[i], events[i], states[i + 1], states[j]);
  }

  lemma LivedLengths(a: Q, events: seq<Event>, states: seq<Q>, threw: seq<bool>)
    requires Lived(a, events, states, threw)
    ensures |states| == |threw| + 1 <= |events| + 1
  {
  }

  lemma LivedAt(a: Q, events: seq<Event>, states: seq<Q>, threw: seq<bool>, i: nat, j: nat)
    requires Lived(a, events, states, threw) && i < j < |states|
    ensures Accomplished(states[i], events[i], states[i + 1], threw[i]) && Inv(states[j])
  {
    hide Accomplished, Advances, Unsplit;
  }

  lemma GrowsCompleted(b: Q, c: Q)
    requires Grows(b, c)
    ensures Completed(b) <= Completed(c)
  {
  }

  lemma ToldStays(b: Q, c: Q, id: nat, err: Err)
    requires Reported(b, id, err) && Grows(b, c) && Inv(c)
    ensures Reported(c, id, err)
  {
    hide Inv;
    assert b.h.told[id] <= c.h.told[id];
    NoMore(c, id);
  }

  // ---------------------------------------------------------------- a stray completion

  /** What `done` for request `req` does where another one is first: that one leaves, and `req` is told. */
  ghost function StrayDone(b: Q, req: nat, err: Err): Q
    requires b.requests != [] && req < |b.h.told|
  {
    var p := Popped(b);
    p.(h := Told(p.h, req, err))
  }

  /** Then `req` has been told twice, and the other request is nowhere and was not told. */
  lemma StrayBreaks(b: Q, req: nat, err: Err)
    requires Inv(b) && b.requests != [] && req < Completed(b) && Reported(b, req, Canceled)
    ensures var z := StrayDone(b, req, err);
            var other := b.requests[0].id;
            && z.h.told[req] == [Canceled, err]
            && other < |z.h.told| && z.h.told[other] == [] && !InList(z.requests, other) && !InList(z.finalized, other)
            && !Inv(z)
  {
    hide Timed, Counted, Serial, Marked;
    HeadId(b, false);
    var z := StrayDone(b, req, err);
    var other := b.requests[0].id;
    assert forall k | 0 <= k < |z.requests| :: z.requests[k] == b.requests[k + 1];
    if Inv(z) {
      ExactlyOnce(z, other);
    }
  }
}
