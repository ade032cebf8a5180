/** The resolver itself: `Resolver` and `Resolver::Worker`, and the events of the loop that drive them. */
module Resolvers {
  import opened Basics
  import opened ResolverModel

  /** How a call ends.  `Broken`: a worker was handed a request while it had one; nothing is claimed from there on. */
  datatype Exit = Normal | Threw | Broken

  /** What scheduler code may have done between its call and its return; `but` are workers it may serve. */
  ghost predicate Later(a: R, b: R, but: set<nat>) {
    && b.cfg == a.cfg && b.now == a.now && b.depth == a.depth
    && |a.reqs| <= |b.reqs| && |a.told| <= |b.told| && |a.workers| <= |b.workers|
    && (forall i | 0 <= i < |a.reqs| :: b.reqs[i].spec == a.reqs[i].spec && (b.reqs[i].running ==> a.reqs[i].running))
    && (forall i | 0 <= i < |a.told| :: a.told[i] <= b.told[i])
    && b.found == a.found && a.starts <= b.starts && a.inner <= b.inner
    && (a.depth > 0 ==> b.inner - a.inner == |b.reqs| - |a.reqs|)
    && (|b.reqs| == |a.reqs| ==> |b.workers| == |a.workers| && StillIdle(a.workers, b.workers, but))
  }

  /** Only a new lookup makes an idle worker busy. */
  ghost predicate StillIdle(s: seq<Option<nat>>, t: seq<Option<nat>>, but: set<nat>) {
    |s| <= |t| && forall w | 0 <= w < |s| && s[w] == None && w !in but :: t[w] == None
  }

  lemma LaterTransitive(a: R, b: R, c: R, x: set<nat>, y: set<nat>)
    requires Later(a, b, x) && Later(b, c, y)
    ensures Later(a, c, x + y)
  {
    forall i | 0 <= i < |a.told| ensures a.told[i] <= c.told[i] {
      assert a.told[i] <= b.told[i] <= c.told[i];
    }
  }

  lemma LaterThen(a: R, b: R, c: R, but: set<nat>)
    requires Later(a, b, but) && Later(b, c, {})
    ensures Later(a, c, but)
  {
    hide Later;
    LaterTransitive(a, b, c, but, {});
    assert but + {} == but;
  }

  lemma LaterItself(a: R)
    ensures Later(a, a, {})
  {
  }

  lemma LaterBusy(a: R, b: R, but: set<nat>)
    requires Later(a, b, but) && forall w | w in but && w < |a.workers| :: a.workers[w].Some?
    ensures Later(a, b, {})
  {
  }

  lemma LaterWeaker(a: R, b: R, x: set<nat>, y: set<nat>)
    requires Later(a, b, x) && x <= y
    ensures Later(a, b, y)
  {
  }

  lemma StoppedLater(a: R, i: nat, answer: Answer, moved: bool)
    requires i < |a.reqs| == |a.told|
    ensures Later(a, Stopped(a, i, answer, moved), {})
  {
  }

  lemma DispatchedFacts(r: R, i: nat)
    requires i < |r.reqs|
    ensures var d := Dispatched(r, i);
            && d == r.(workers := d.workers, reqs := d.reqs, roll := d.roll, queue := d.queue, starts := d.starts,
                       lapsed := d.lapsed)
            && |d.workers| >= |r.workers| && |d.reqs| == |r.reqs| && d.reqs == r.reqs[i := d.reqs[i]]
            && d.reqs[i].spec == r.reqs[i].spec && r.starts <= d.starts && d.lapsed <= r.lapsed
  {
  }

  lemma ResolvedLater(a: R, spec: Spec)
    ensures Later(a, Resolved(a, spec), {})
    ensures |Resolved(a, spec).reqs| == |a.reqs| + 1 && Resolved(a, spec).lapsed <= a.lapsed
  {
    hide Dispatched, Looked, Find;
    var i := |a.reqs|;
    var s := Started(a, spec);
    LookedReqs(s, spec.key);
    DispatchedFacts(Timed(s, i), i);
    DispatchedFacts(Timed(Looked(s, spec.key), i), i);
  }

  lemma ResolvedSpec(a: R, spec: Spec)
    ensures |Resolved(a, spec).reqs| == |a.reqs| + 1 && Resolved(a, spec).reqs[|a.reqs|].spec == spec
  {
    hide Dispatched, Looked, Find;
    var i := |a.reqs|;
    var s := Started(a, spec);
    LookedReqs(s, spec.key);
    DispatchedFacts(Timed(s, i), i);
    DispatchedFacts(Timed(Looked(s, spec.key), i), i);
  }

  /** A call that may run user code has returned. */
  ghost predicate Returned(a: R, b: R, owed: set<nat>, but: set<nat>, exit: Exit) {
    && (exit.Broken? ==> a.inner < b.inner)
    && (!exit.Broken? ==> Inv(b, owed) && Later(a, b, but))
    && (exit.Normal? ==> b.lapsed <= a.lapsed)
  }

  lemma InvFacts(r: R, owed: set<nat>)
    requires Inv(r, owed)
    ensures |r.told| == |r.reqs|
    ensures forall i | 0 <= i < |r.reqs| :: |r.told[i]| == if r.reqs[i].running then 0 else 1
    ensures forall w | 0 <= w < |r.workers| && r.workers[w].Some? :: r.workers[w].value < |r.reqs|
    ensures forall w | 0 <= w < |r.workers| && r.workers[w].Some? ::
              r.reqs[r.workers[w].value].running && r.reqs[r.workers[w].value].worker == Some(w)
    ensures forall i | 0 <= i < |r.reqs| && (r.reqs[i].delayed.Some? || r.reqs[i].timer) :: r.reqs[i].running
    ensures forall i | i in r.queue :: i < |r.reqs| && r.reqs[i].running && r.reqs[i].worker == None
    ensures forall i | 0 <= i < |r.reqs| && r.reqs[i].running && r.reqs[i].worker.Some? ::
              r.reqs[i].worker.value < |r.workers| && r.workers[r.reqs[i].worker.value] == Some(i)
  {
    forall i | 0 <= i < |r.reqs| && r.reqs[i].running && r.reqs[i].worker.Some?
      ensures r.reqs[i].worker.value < |r.workers| && r.workers[r.reqs[i].worker.value] == Some(i)
    {
      assert Placed(r, i);
    }
  }

  lemma LaterFacts(a: R, b: R, but: set<nat>)
    requires Later(a, b, but)
    ensures |a.reqs| <= |b.reqs| && |a.workers| <= |b.workers| && a.inner <= b.inner
    ensures forall i | 0 <= i < |a.reqs| :: b.reqs[i].spec == a.reqs[i].spec
    ensures forall i | 0 <= i < |a.reqs| && b.reqs[i].running :: a.reqs[i].running
    ensures forall i | 0 <= i < |a.told| :: i < |b.told| && a.told[i] <= b.told[i]
    ensures b.found == a.found
    ensures a.depth > 0 && b.inner == a.inner ==> StillIdle(a.workers, b.workers, but) && |b.reqs| == |a.reqs|
  {
  }

  /** The end of `finish_resolve`: its callback ran from `s` to `b`, its worker was served from `b` to `c`. */
  lemma FinishedFacts(a: R, b: R, c: R, i: nat, answer: Answer, moved: bool, owed: set<nat>, exit: Exit)
    requires Inv(a, owed) && i < |a.reqs| == |a.told| && a.reqs[i].running && !exit.Broken?
    requires Later(Stopped(a, i, answer, moved), b, {}) && Later(b, c, Slot(a, i)) && Inv(c, owed)
    ensures Later(a, c, {}) && i < |c.reqs| && !c.reqs[i].running && i < |c.told| && c.told[i] == [answer]
  {
    hide Inv, Later, Stored, Detached;
    var s := Stopped(a, i, answer, moved);
    InvFacts(a, owed);
    InvFacts(c, owed);
    StoppedLater(a, i, answer, moved);
    StoppedAt(a, i, answer, moved);
    LaterThen(a, s, b, {});
    LaterTransitive(s, b, c, {}, Slot(a, i));
    LaterTransitive(a, b, c, {}, Slot(a, i));
    LaterBusy(a, c, {} + Slot(a, i));
    LaterFacts(s, c, {} + Slot(a, i));
  }

  lemma StoppedAt(a: R, i: nat, answer: Answer, moved: bool)
    requires i < |a.reqs| == |a.told|
    ensures var s := Stopped(a, i, answer, moved);
            |s.reqs| == |a.reqs| == |s.told| && !s.reqs[i].running && s.told[i] == a.told[i] + [answer]
            && s.reqs[i].spec == a.reqs[i].spec && s.inner == a.inner && s.lapsed == a.lapsed
  {
  }

  lemma RollLater(a: R, w: nat)
    ensures Later(a, a.(roll := false), {w})
  {
  }

  lemma LookedLater(a: R, c: R, key: Key, but: set<nat>)
    requires Later(a, c, but)
    ensures Later(a, Looked(c, key), but)
  {
    hide Looked, Find;
    LookedReqs(c, key);
  }

  lemma ServedLater(a: R, d: R, w: nat)
    requires Later(a, d, {w}) && d.queue != [] && w < |d.workers| && d.queue[0] < |d.reqs|
    ensures Later(a, Served(d, w), {w})
  {
    var s := Served(d, w);
    assert forall v | 0 <= v < |d.workers| && v != w :: s.workers[v] == d.workers[v];
  }

  /** The queue-serving loop is about to run the callback of request `i`. */
  ghost function InnerOpened(r: R, i: nat): R
    requires i < |r.reqs|
  {
    CacheOff(r, i).(depth := r.depth + 1)
  }

  /** That callback has returned; had it thrown, worker `w` stays idle. */
  ghost function InnerClosed(r: R, threw: bool, w: nat): R {
    r.(depth := if r.depth > 0 then r.depth - 1 else 0, lapsed := if threw then Lapsed(r, w) else r.lapsed)
  }

  lemma InnerOpenedKeeps(c: R, i: nat, owed: set<nat>)
    requires Inv(c, owed) && i < |c.reqs|
    ensures Inv(InnerOpened(c, i), owed) && Load(InnerOpened(c, i).reqs) == Load(c.reqs)
    ensures InnerOpened(c, i).inner == c.inner && InnerOpened(c, i).lapsed == c.lapsed
    ensures |InnerOpened(c, i).reqs| == |c.reqs| && InnerOpened(c, i).reqs[i].running == c.reqs[i].running
    ensures !InnerOpened(c, i).reqs[i].useCache
  {
    hide Inv, Load;
    CacheOffKeeps(c, i, owed);
    DepthApart(CacheOff(c, i), owed, c.depth + 1);
  }

  lemma InnerClosedLater(c: R, i: nat, e: R, threw: bool, w: nat)
    requires i < |c.reqs| && Later(InnerOpened(c, i), e, {})
    ensures e.depth > 0 && Later(c, InnerClosed(e, threw, w), {})
    ensures c.inner == e.inner ==> StillIdle(c.workers, e.workers, {})
  {
    var d := InnerOpened(c, i);
    assert forall j | 0 <= j < |c.reqs| :: d.reqs[j].spec == c.reqs[j].spec && d.reqs[j].running == c.reqs[j].running;
  }

  lemma InnerClosedKeeps(e: R, threw: bool, w: nat, owed: set<nat>)
    requires Inv(e, owed + {w}) && e.depth > 0
    ensures var z := InnerClosed(e, threw, w);
            && Inv(z, if threw then owed else owed + {w})
            && z.reqs == e.reqs && z.workers == e.workers && z.inner == e.inner
            && (if threw then z.lapsed == Lapsed(z, w) else z.lapsed == e.lapsed)
  {
    hide Inv;
    DepthApart(e, owed + {w}, e.depth - 1);
    OwedLapsed(e.(depth := e.depth - 1), owed, w);
  }

  /** The worker has a request the cache cannot answer, or nobody waits. */
  ghost predicate ServedRight(r: R, w: nat) {
    && w < |r.workers|
    && (r.workers[w] == None ==> r.queue == [])
    && (r.workers[w].Some? ==>
          var i := r.workers[w].value;
          i < |r.reqs| && (r.reqs[i].useCache ==> Find(r, r.reqs[i].spec.key) == None))
  }

  lemma ServedMiss(r: R, w: nat)
    requires r.queue != [] && w < |r.workers| && r.queue[0] < |r.reqs|
    requires r.reqs[r.queue[0]].useCache ==> Find(r, r.reqs[r.queue[0]].spec.key) == None
    ensures ServedRight(Served(r, w), w)
  {
  }

  lemma NobodyWaits(r: R, w: nat)
    requires w < |r.workers| && r.queue == []
    ensures r.workers[w] == None ==> ServedRight(r, w)
  {
  }

  lemma LookedMiss(r: R, key: Key)
    ensures Find(r, key) == None ==> Find(Looked(r, key), key) == None
  {
  }

  /** At the head of the loop that serves the queue for worker `w`; the loop began in `a`. */
  ghost predicate Serving(a: R, s: R, w: nat, owed: set<nat>) {
    && Inv(s, owed + {w}) && Later(a, s, {w}) && w < |s.workers|
    && s.lapsed <= a.lapsed && a.inner <= s.inner
    && (s.inner == a.inner ==> s.workers[w] == None)
    && Load(s.reqs) <= Load(a.reqs)
  }

  lemma ServingBegins(a: R, w: nat, owed: set<nat>)
    requires Inv(a, owed + {w}) && w < |a.workers| && a.workers[w] == None
    ensures Serving(a, a, w, owed)
  {
    hide Inv, Later;
    LaterItself(a);
    LaterWeaker(a, a, {}, {w});
  }

  lemma ServingFront(a: R, s: R, w: nat, owed: set<nat>)
    requires Serving(a, s, w, owed)
    ensures w < |s.workers| && (s.workers[w].Some? ==> a.inner < s.inner) && Inv(s, owed + {w}) && a.inner <= s.inner
    ensures s.queue != [] ==> s.queue[0] < |s.reqs| && s.reqs[s.queue[0]].running
    ensures Load(s.reqs) <= Load(a.reqs)
  {
    hide Inv, Later;
    InvFacts(s, owed + {w});
    assert s.queue != [] ==> s.queue[0] in s.queue;
  }

  lemma ServingLooked(a: R, c: R, key: Key, w: nat, owed: set<nat>)
    requires Serving(a, c, w, owed)
    ensures Serving(a, Looked(c, key), w, owed) && Looked(c, key) == c.(cache := Looked(c, key).cache)
    ensures Find(c, key).Some? ==> Looked(c, key) == c
  {
    hide Inv, Later, Looked, Find;
    LookedReqs(c, key);
    LookedKeeps(c, key, owed + {w});
    LookedLater(a, c, key, {w});
  }

  lemma ServingAnswered(a: R, c: R, s: R, w: nat, owed: set<nat>)
    requires Serving(a, c, w, owed) && Later(c, s, {}) && Load(s.reqs) < Load(c.reqs)
    ensures Later(a, s, {w}) && Load(s.reqs) <= Load(a.reqs)
    ensures (Inv(s, owed + {w}) && s.lapsed <= c.lapsed && (s.inner == c.inner ==> StillIdle(c.workers, s.workers, {})))
            ==> Serving(a, s, w, owed)
  {
    hide Inv, Later;
    LaterThen(a, c, s, {w});
    LaterFacts(c, s, {});
  }

  /** The worker got nothing, and if anybody waits it is one that an exception left idle. */
  ghost predicate LeftIdle(r: R, w: nat) {
    w < |r.workers| && r.workers[w] == None && (r.queue != [] ==> w in r.lapsed)
  }

  lemma ServingThrew(a: R, c: R, s: R, w: nat, owed: set<nat>)
    requires Serving(a, c, w, owed) && Later(c, s, {}) && s.lapsed == Lapsed(s, w)
    requires s.inner == c.inner ==> StillIdle(c.workers, s.workers, {})
    ensures s.inner == a.inner ==> LeftIdle(s, w)
  {
    hide Inv;
  }

  lemma ServingServed(a: R, d: R, w: nat, owed: set<nat>)
    requires Serving(a, d, w, owed) && d.queue != [] && d.workers[w] == None
    ensures d.queue[0] < |d.reqs| && Returned(a, Served(d, w), owed, {w}, Normal)
    ensures Load(Served(d, w).reqs) <= Load(a.reqs)
  {
    hide Inv, Later, Load;
    ServedKeeps(d, w, owed);
    ServedLater(a, d, w);
  }

  lemma ServingEnds(a: R, s: R, w: nat, owed: set<nat>)
    requires Serving(a, s, w, owed) && s.queue == []
    ensures Returned(a, s, owed, {w}, Normal) && Load(s.reqs) <= Load(a.reqs)
  {
    hide Inv, Later, Load;
    OwedSettled(s, owed, w);
  }

  /** What the event loop and the user do to a resolver from outside. */
  datatype Event =
    | User(script: Script)
    | WorkerAnswers(worker: nat, answer: Answer)
    | DelayedFires(req: nat)
    | TimerFires(req: nat)
    | SetLimit(limit: nat)
    | SetExpiration(seconds: nat)
    | MarkBad(key: Key, sockaddr: nat)
    | Tick(elapsed: nat)

  /** The request an event completes, and the answer it is to get. */
  ghost function Due(r: R, e: Event): Option<(nat, Answer)> {
    match e
    case WorkerAnswers(w, answer) =>
      if && w < |r.workers| && r.workers[w].Some? && r.workers[w].value < |r.reqs|
         && r.reqs[r.workers[w].value].delayed == None
      then Some((r.workers[w].value, answer)) else None
    case DelayedFires(i) =>
      if i < |r.reqs| && r.reqs[i].delayed.Some? then Some((i, r.reqs[i].delayed.value)) else None
    case TimerFires(i) =>
      if i < |r.reqs| && r.reqs[i].timer then Some((i, Bad(TimedOut))) else None
    case _ => None
  }

  /** What is found after an event: one thing more if it completes a request that is with a worker. */
  ghost function Finds(r: R, e: Event): set<Found> {
    var d := Due(r, e);
    if d.Some? && !e.TimerFires? && d.value.0 < |r.reqs| && r.reqs[d.value.0].worker.Some?
    then WorkerFound(r, d.value.0, d.value.1).found else r.found
  }

  /** Over a run reports are only added, and requests only join those handed to workers. */
  ghost predicate Grew(a: R, b: R) {
    && |a.told| <= |b.told| && (forall i | 0 <= i < |a.told| :: a.told[i] <= b.told[i])
    && a.starts <= b.starts && a.inner <= b.inner && b.depth == a.depth && a.found <= b.found
  }

  lemma GrewTransitive(a: R, b: R, c: R)
    requires Grew(a, b) && Grew(b, c)
    ensures Grew(a, c)
  {
    forall i | 0 <= i < |a.told| ensures a.told[i] <= c.told[i] {
      assert a.told[i] <= b.told[i] <= c.told[i];
    }
  }

  lemma GrewItself(a: R)
    ensures Grew(a, a)
  {
  }

  lemma GrewInner(a: R, b: R)
    requires Grew(a, b)
    ensures a.inner <= b.inner
  {
  }

  lemma LaterGrew(a: R, b: R, but: set<nat>)
    requires Later(a, b, but)
    ensures Grew(a, b)
  {
  }

  lemma FoundGrew(a: R, i: nat, answer: Answer, c: R)
    requires i < |a.reqs| && Later(WorkerFound(a, i, answer), c, {})
    ensures Grew(a, c) && c.found == WorkerFound(a, i, answer).found
  {
  }

  lemma StartedFacts(a: R, spec: Spec)
    ensures |Started(a, spec).reqs| == |a.reqs| + 1 && Started(a, spec).reqs[|a.reqs|].spec == spec
    ensures Started(a, spec).cfg == a.cfg
  {
  }

  // ---------------------------------------------------------------- what callbacks asked for

  /** The lookups started between two states. */
  ghost function New(a: R, b: R): seq<Spec>
    requires |a.reqs| <= |b.reqs|
  {
    seq(|b.reqs| - |a.reqs|, k requires 0 <= k < |b.reqs| - |a.reqs| => b.reqs[|a.reqs| + k].spec)
  }

  /**
  User code ran.  If nothing was thrown it did all it was to do; and all that throws is what itself throws,
  unless it cancels, which runs other callbacks.
  */
  ghost predicate Carried(s: Script, a: R, b: R, exit: Exit) {
    && (exit.Normal? ==> !Throws(s))
    && (!exit.Broken? ==> |a.reqs| <= |b.reqs| && (exit.Normal? ==> Within(Asked(s), New(a, b))))
    && (!Cancels(s) ==> exit == (if Throws(s) then Threw else Normal) && New(a, b) == Asked(s))
  }

  /** A request was told, and its callback ran. */
  ghost predicate CalledBack(q: Req, a: R, b: R, exit: Exit) {
    && (exit.Normal? ==> !Throws(q.spec.onResolve))
    && (!exit.Broken? ==>
          && |a.reqs| <= |b.reqs|
          && (exit.Normal? || !Cancels(q.spec.onResolve) ==> Within(Asked(q.spec.onResolve), New(a, b)))
          && (q.worker == None && !Cancels(q.spec.onResolve) ==>
                (exit.Threw? <==> Throws(q.spec.onResolve)) && New(a, b) == Asked(q.spec.onResolve)))
  }

  lemma NewAppend(a: R, b: R, c: R, x: set<nat>, y: set<nat>)
    requires Later(a, b, x) && Later(b, c, y)
    ensures |a.reqs| <= |b.reqs| <= |c.reqs| && New(a, c) == New(a, b) + New(b, c)
  {
  }

  lemma NewNone(a: R, b: R, c: R)
    requires |a.reqs| == |b.reqs| <= |c.reqs|
    ensures New(a, c) == New(b, c)
  {
  }

  lemma NewOne(a: R, spec: Spec, c: R, x: set<nat>)
    requires Later(Resolved(a, spec), c, x)
    ensures |a.reqs| < |c.reqs| && New(a, c) == [spec] + New(Resolved(a, spec), c)
  {
    hide Resolved;
    ResolvedSpec(a, spec);
  }

  lemma CarriedOn(s: Script, a: R, b: R, c: R, exit: Exit, x: set<nat>)
    requires s.Cancel? && Later(a, b, x) && Carried(s.next, b, c, exit)
    requires !exit.Broken? ==> Later(b, c, {})
    ensures Carried(s, a, c, exit)
  {
    hide Later, New;
    if !exit.Broken? {
      NewAppend(a, b, c, x, {});
      if exit.Normal? {
        WithinLater(Asked(s), New(a, b), New(b, c));
      }
    }
  }

  lemma CarriedResolve(s: Script, a: R, c: R, exit: Exit)
    requires s.Resolve? && Carried(s.next, Resolved(a, s.spec), c, exit)
    requires !exit.Broken? ==> Later(Resolved(a, s.spec), c, {})
    ensures Carried(s, a, c, exit)
  {
    hide Later, New, Resolved;
    if !exit.Broken? {
      NewOne(a, s.spec, c, {});
      assert ([s.spec] + New(Resolved(a, s.spec), c))[1..] == New(Resolved(a, s.spec), c);
      assert Asked(s)[1..] == Asked(s.next);
    }
  }

  lemma CarriedStopped(s: Script, a: R, b: R, exit: Exit)
    requires s.Cancel? && !exit.Normal? && (!exit.Broken? ==> Later(a, b, {}))
    ensures Carried(s, a, b, exit)
  {
  }

  lemma CarriedEnd(s: Script, a: R)
    requires s.Return? || s.Throw?
    ensures Carried(s, a, a, if s.Throw? then Threw else Normal)
  {
  }

  /** The callback of `finish_resolve` ran from `s`, with the requests of `a`, to `b`; then its worker was served. */
  lemma CalledBackThen(q: Req, a: R, s: R, b: R, c: R, e: Exit, exit: Exit, y: set<nat>)
    requires |s.reqs| == |a.reqs| && !e.Broken? && Carried(q.spec.onResolve, s, b, e)
    requires Later(s, b, {})
    requires !exit.Broken? ==> Later(b, c, y)
    requires exit.Normal? ==> e.Normal?
    requires q.worker == None ==> exit == e && c == b
    ensures CalledBack(q, a, c, exit)
  {
    hide Later, New;
    if !exit.Broken? {
      NewAppend(s, b, c, {}, y);
      NewNone(a, s, c);
      WithinItself(Asked(q.spec.onResolve));
      if exit.Normal? || !Cancels(q.spec.onResolve) {
        WithinLonger(Asked(q.spec.onResolve), New(s, b), New(b, c));
      }
      if q.worker == None {
        assert New(b, c) == [] by { NewSelf(b); }
      }
    }
  }

  lemma CalledBackBroken(q: Req, a: R, b: R)
    ensures CalledBack(q, a, b, Broken)
  {
  }

  lemma CalledBackFrom(q: Req, a: R, b: R, c: R, exit: Exit)
    requires |a.reqs| == |b.reqs| && CalledBack(q, b, c, exit)
    ensures CalledBack(q, a, c, exit)
  {
    if !exit.Broken? {
      NewNone(a, b, c);
    }
  }

  lemma NewSelf(a: R)
    ensures New(a, a) == []
  {
  }

  class Resolver {
    var cfg: Config
    var workers: seq<Option<nat>>
    var queue: seq<nat>
    var cacheDelayed: seq<nat>
    var reqs: seq<Req>
    var cache: map<Key, Cached>
    var roll: bool
    var now: nat
    ghost var told: seq<seq<Answer>>
    ghost var found: set<Found>
    ghost var starts: seq<nat>
    ghost var inner: nat
    ghost var lapsed: set<nat>
    ghost var depth: nat

    ghost function S(): R
      reads this
    {
      R(cfg, workers, queue, cacheDelayed, reqs, cache, roll, now, told, found, starts, inner, lapsed, depth)
    }

    /** One worker to begin with, which needs room for one. */
    constructor (cfg: Config)
      requires cfg.workers >= 1
      ensures S() == R(cfg, [None], [], [], [], map[], false, 0, [], {}, [], 0, {}, 0) && Inv(S(), {})
    {
      this.cfg, workers, queue, cacheDelayed, reqs, cache, roll, now := cfg, [None], [], [], [], map[], false, 0;
      told, found, starts, inner, lapsed, depth := [], {}, [], 0, {}, 0;
    }

    /** `find`: a stale entry is erased. */
    method FindCached(key: Key) returns (hit: Option<AddrInfo>)
      modifies this
      ensures hit == Find(old(S()), key) && S() == Looked(old(S()), key)
    {
      hit := None;
      if key in cache {
        var entry := cache[key];
        var limit := Min(entry.info.list[entry.info.cur].ttl, cfg.expiration);
        if !Expired(entry, now, limit) {
          return Some(entry.info);
        }
        cache := cache - {key};
      }
    }

    /** `Worker::resolve`. */
    method StartWorker(w: nat, i: nat)
      requires w < |workers| && i < |reqs|
      modifies this
      ensures S() == Assigned(old(S()), w, i)
    {
      workers := workers[w := Some(i)];
      starts := starts + [i];
      lapsed := lapsed - {w};
      reqs := reqs[i := reqs[i].(worker := Some(w), delayed := reqs[i].spec.sync)];
    }

    /** The part of `resolve` after the cache. */
    method Dispatch(i: nat)
      requires i < |reqs|
      modifies this
      ensures S() == Dispatched(old(S()), i)
    {
      ghost var a := S();
      if |queue| == 0 {
        var w := 0;
        while w < |workers|
          invariant w <= |workers| && S() == a
          invariant FirstIdle(workers, 0) == FirstIdle(workers, w)
        {
          if workers[w] == None {
            if !roll {
              roll := true;
            }
            StartWorker(w, i);
            return;
          }
          w := w + 1;
        }
        if |workers| < cfg.workers {
          workers := workers + [None];
          StartWorker(|workers| - 1, i);
          return;
        }
      }
      reqs := reqs[i := reqs[i].(queued := true)];
      queue := queue + [i];
    }

    /** A new request, which has no place yet. */
    method Begin(spec: Spec)
      modifies this
      ensures S() == Started(old(S()), spec)
    {
      reqs := reqs + [Req(spec, None, false, true, spec.useCache, None, false)];
      told := told + [[]];
      inner := inner + if depth > 0 then 1 else 0;
    }

    /** The newest request is answered from the cache, later. */
    method DelayHit(answer: Answer)
      requires reqs != []
      modifies this
      ensures S() == HitDelayed(old(S()), answer)
    {
      var i := |reqs| - 1;
      reqs := reqs[i := reqs[i].(useCache := false, delayed := Some(answer))];
      cacheDelayed := cacheDelayed + [i];
    }

    /** `resolve`. */
    method Resolve(spec: Spec)
      modifies this
      ensures S() == Resolved(old(S()), spec)
    {
      hide Find, Looked, Dispatched, Started, HitDelayed;
      ghost var a := S();
      var i := |reqs|;
      Begin(spec);
      StartedFacts(a, spec);
      LookedReqs(S(), spec.key);
      if spec.useCache && cfg.limit != 0 {
        var hit := FindCached(spec.key);
        if hit.Some? {
          DelayHit(Good(hit.value));
          return;
        }
      }
      reqs := reqs[i := reqs[i].(timer := spec.timeout)];
      Dispatch(i);
    }

    /** Where a request is taken out of, by the fields that say so. */
    method Detach(i: nat, moved: bool)
      requires i < |reqs|
      modifies this
      ensures S() == Detached(old(S()), i, moved)
    {
      var q := reqs[i];
      if q.worker.Some? {
        if q.worker.value < |workers| {
          workers := workers[q.worker.value := None];
        }
      } else if q.queued {
        queue := Without(queue, i);
      } else {
        cacheDelayed := Without(cacheDelayed, i);
      }
      reqs := reqs[i := q.(worker := if moved then q.worker else None, queued := false, running := false,
                           delayed := None, timer := false)];
    }

    method Store(i: nat, answer: Answer)
      requires i < |reqs|
      modifies this
      ensures S() == Stored(old(S()), i, answer)
    {
      var q := reqs[i];
      if answer.Good? && q.useCache && cfg.limit != 0 {
        if |cache| >= cfg.limit {
          cache := map[];
        }
        if q.spec.key !in cache {
          cache := cache[q.spec.key := Cached(answer.info, now)];
        }
      }
    }

    method Stop(i: nat, answer: Answer, moved: bool)
      requires i < |reqs| && |told| == |reqs|
      modifies this
      ensures S() == Stopped(old(S()), i, answer, moved)
    {
      Store(i, answer);
      Detach(i, moved);
      told := told[i := told[i] + [answer]];
    }

    /**
    `finish_resolve`: the request leaves its place and its event fires; then its worker, if that is
    idle still, takes the next one.
    */
    method FinishResolve(i: nat, answer: Answer, moved: bool, ghost owed: set<nat>) returns (exit: Exit)
      requires Inv(S(), owed) && i < |reqs| && Backed(S(), i, answer)
      modifies this
      ensures Returned(old(S()), S(), owed, {}, exit)
      ensures !exit.Broken? && old(reqs[i].running) ==>
                i < |reqs| && !reqs[i].running && i < |told| && told[i] == [answer]
      ensures !old(reqs[i].running) ==> S() == old(S()) && exit == Normal
      ensures old(reqs[i].running) ==> CalledBack(old(reqs)[i], old(S()), S(), exit)
      ensures !exit.Broken? ==> Load(reqs) <= Load(old(reqs))
      ensures !exit.Broken? && old(reqs[i].running) ==> Load(reqs) < Load(old(reqs))
      decreases Load(reqs), 1
    {
      hide Inv, Later, Load, Size, Stopped, Carried, CalledBack;
      ghost var a := S();
      exit := Normal;
      LaterItself(a);
      if !reqs[i].running {
        return;
      }
      var worker := reqs[i].worker;
      InvFacts(a, owed);
      StoppedKeeps(a, i, answer, moved, owed);
      StoppedAt(a, i, answer, moved);
      StoppedLater(a, i, answer, moved);
      Stop(i, answer, moved);
      exit := RunScript(reqs[i].spec.onResolve, owed + Slot(a, i));
      ghost var b, ran := S(), exit;
      if exit.Broken? {
        CalledBackBroken(a.reqs[i], a, b);
        return;
      }
      LaterFacts(Stopped(a, i, answer, moved), b, {});
      LaterItself(b);
      LaterWeaker(b, b, {}, Slot(a, i));
      if worker.Some? {
        var e := AfterWorker(worker.value, owed);
        exit := if e.Normal? then exit else e;
      } else {
        assert owed + Slot(a, i) == owed;
      }
      CalledBackThen(a.reqs[i], a, Stopped(a, i, answer, moved), b, S(), ran, exit, Slot(a, i));
      if !exit.Broken? {
        FinishedFacts(a, b, S(), i, answer, moved, owed, exit);
      }
    }

    /** The guard of `finish_resolve`, when the request had a worker. */
    method AfterWorker(w: nat, ghost owed: set<nat>) returns (exit: Exit)
      requires Inv(S(), owed + {w}) && w < |workers|
      modifies this
      ensures Returned(old(S()), S(), owed, {w}, exit)
      ensures old(workers[w]).Some? ==> S() == old(S())
      ensures old(workers[w]).None? && old(queue) == [] ==>
                S() == if Busy(old(S())) then old(S()) else old(S()).(roll := false)
      ensures !exit.Broken? ==> Load(reqs) <= Load(old(reqs))
      decreases Load(reqs), 4
    {
      hide Inv, Later, Load;
      ghost var a := S();
      LaterItself(a);
      LaterWeaker(a, a, {}, {w});
      if workers[w].Some? {
        OwedSettled(a, owed, w);
        return Normal;
      }
      if |queue| == 0 {
        OwedSettled(a, owed, w);
        var busy := AnyBusy();
        if !busy {
          RollStopped(a, owed);
          RollLater(a, w);
          roll := false;
        }
        return Normal;
      }
      exit := ServeQueue(w, owed);
    }

    method AnyBusy() returns (busy: bool)
      ensures busy <==> Busy(S())
    {
      busy := false;
      for v := 0 to |workers|
        invariant busy <==> exists u | 0 <= u < v :: workers[u].Some?
      {
        if workers[v].Some? {
          busy := true;
        }
      }
    }

    /** Waiting requests in order: those the cache can answer by now are finished, the first other one is started. */
    method ServeQueue(w: nat, ghost owed: set<nat>) returns (exit: Exit)
      requires Inv(S(), owed + {w}) && w < |workers| && workers[w] == None
      modifies this
      ensures Returned(old(S()), S(), owed, {w}, exit)
      ensures exit.Normal? && inner == old(inner) ==> ServedRight(S(), w)
      ensures exit.Threw? && inner == old(inner) ==> LeftIdle(S(), w)
      ensures !exit.Broken? ==> Load(reqs) <= Load(old(reqs))
      decreases Load(reqs), 3
    {
      hide Inv, Later, Load, Size, Serving, Looked, Find, Served, ServedRight, LeftIdle, Lapsed;
      ghost var a := S();
      exit := Normal;
      ServingBegins(a, w, owed);
      while |queue| != 0
        invariant Serving(a, S(), w, owed) && exit == Normal && Load(reqs) <= Load(a.reqs)
        decreases Load(reqs)
      {
        ghost var c := S();
        ServingFront(a, c, w, owed);
        var i := queue[0];
        if reqs[i].useCache {
          ServingLooked(a, c, reqs[i].spec.key, w, owed);
          LookedMiss(c, reqs[i].spec.key);
          var hit := FindCached(reqs[i].spec.key);
          if hit.Some? {
            exit := AnswerFromCache(i, hit.value, w, owed);
            if exit.Broken? {
              return;
            }
            ServingAnswered(a, c, S(), w, owed);
            if exit.Threw? {
              ServingThrew(a, c, S(), w, owed);
              return;
            }
            continue;
          }
        }
        if workers[w].Some? {
          return Broken;
        }
        ServingServed(a, S(), w, owed);
        ServedMiss(S(), w);
        ServeFront(w);
        return;
      }
      ServingEnds(a, S(), w, owed);
      ServingFront(a, S(), w, owed);
      assert inner == a.inner ==> ServedRight(S(), w) by { NobodyWaits(S(), w); }
    }

    method ServeFront(w: nat)
      requires queue != [] && queue[0] < |reqs| && w < |workers|
      modifies this
      ensures S() == Served(old(S()), w)
    {
      var i := queue[0];
      queue := queue[1..];
      StartWorker(w, i);
    }

    /** The front of the queue, found in the cache; its callback runs inside the loop that serves the queue. */
    method AnswerFromCache(i: nat, info: AddrInfo, w: nat, ghost owed: set<nat>) returns (exit: Exit)
      requires Inv(S(), owed + {w}) && i < |reqs| && reqs[i].running && w < |workers|
      modifies this
      ensures exit.Broken? ==> old(inner) < inner
      ensures !exit.Broken? ==> Later(old(S()), S(), {}) && Load(reqs) < Load(old(reqs))
      ensures !exit.Broken? ==> i < |told| && told[i] == [Good(info)]
      ensures exit.Normal? ==> Inv(S(), owed + {w}) && lapsed <= old(lapsed)
      ensures !exit.Broken? && inner == old(inner) ==> StillIdle(old(workers), workers, {})
      ensures exit.Threw? ==> Inv(S(), owed) && lapsed == Lapsed(S(), w)
      decreases Load(reqs), 2
    {
      hide Inv, Later, Load, Size, InnerOpened, InnerClosed;
      ghost var c := S();
      InnerOpenedKeeps(c, i, owed + {w});
      OpenInner(i);
      exit := FinishResolve(i, Good(info), false, owed + {w});
      if exit.Broken? {
        return;
      }
      ghost var e := S();
      InnerClosedLater(c, i, e, exit.Threw?, w);
      InnerClosedKeeps(e, exit.Threw?, w, owed);
      CloseInner(exit.Threw?, w);
    }

    method OpenInner(i: nat)
      requires i < |reqs|
      modifies this
      ensures S() == InnerOpened(old(S()), i)
    {
      reqs := reqs[i := reqs[i].(useCache := false)];
      depth := depth + 1;
    }

    ghost method CloseInner(threw: bool, w: nat)
      requires depth > 0
      modifies `depth, `lapsed
      ensures S() == InnerClosed(old(S()), threw, w)
    {
      depth := depth - 1;
      lapsed := if threw then Lapsed(S(), w) else lapsed;
    }

    /** What a callback does. */
    method RunScript(s: Script, ghost owed: set<nat>) returns (exit: Exit)
      requires Inv(S(), owed)
      modifies this
      ensures Returned(old(S()), S(), owed, {}, exit)
      ensures Carried(s, old(S()), S(), exit)
      ensures !exit.Broken? ==> Load(reqs) <= Load(old(reqs)) + Size(s)
      ensures !exit.Broken? && s.Resolve? ==> |old(reqs)| < |reqs| && reqs[|old(reqs)|].spec == s.spec
      ensures !exit.Broken? && s.Cancel? && s.req < |old(reqs)| && old(reqs)[s.req].running
              ==> s.req < |told| && told[s.req] == [Bad(Canceled)]
      decreases Load(reqs) + Size(s), 2
    {
      hide Inv, Later, Load, Resolved, Carried, CalledBack;
      ghost var a := S();
      LaterItself(a);
      match s {
        case Return =>
          CarriedEnd(s, a);
          return Normal;
        case Throw =>
          CarriedEnd(s, a);
          return Threw;
        case Resolve(spec, next) =>
          ResolvedKeeps(a, spec, owed);
          ResolvedLater(a, spec);
          LaterFacts(a, Resolved(a, spec), {});
          ResolvedSpec(a, spec);
          Resolve(spec);
          exit := RunScript(next, owed);
          CarriedResolve(s, a, S(), exit);
          if !exit.Broken? {
            LaterThen(a, Resolved(a, spec), S(), {});
            LaterFacts(Resolved(a, spec), S(), {});
          }
        case Cancel(i, next) =>
          if i < |reqs| {
            exit := FinishResolve(i, Bad(Canceled), false, owed);
            if !exit.Normal? {
              CarriedStopped(s, a, S(), exit);
              return;
            }
          }
          ghost var b := S();
          LaterFacts(a, b, {});
          exit := RunScript(next, owed);
          CarriedOn(s, a, b, S(), exit, {});
          if !exit.Broken? {
            LaterThen(a, b, S(), {});
            LaterFacts(b, S(), {});
            InvFacts(S(), owed);
          }
      }
    }

    /** `Worker::finish_resolve`, for an answer that comes now or was delayed. */
    method WorkerFinish(i: nat, answer: Answer) returns (exit: Exit)
      requires Inv(S(), {}) && i < |reqs| && reqs[i].running
      modifies this
      ensures !exit.Broken? ==> Inv(S(), {}) && Grew(old(S()), S()) && i < |told| && told[i] == [answer]
      ensures !exit.Broken? ==> found == WorkerFound(old(S()), i, answer).found
      ensures CalledBack(old(reqs)[i], old(S()), S(), exit)
      ensures exit.Normal? ==> lapsed <= old(lapsed)
      ensures exit.Broken? ==> old(inner) < inner
    {
      hide Inv, Later, Load, CalledBack;
      ghost var a := S();
      WorkerFoundKeeps(a, i, answer, {});
      found := WorkerFound(a, i, answer).found;
      ghost var b := S();
      assert b == WorkerFound(a, i, answer);
      exit := FinishResolve(i, answer, true, {});
      CalledBackFrom(a.reqs[i], a, b, S(), exit);
      if !exit.Broken? {
        FoundGrew(a, i, answer, S());
      }
    }

    /** One event.  What a callback throws goes to the loop and changes nothing here. */
    method Handle(e: Event) returns (exit: Exit)
      requires Inv(S(), {})
      modifies this
      ensures !exit.Broken? ==> Inv(S(), {}) && Grew(old(S()), S())
      ensures exit.Normal? ==> lapsed <= old(lapsed)
      ensures exit.Broken? ==> old(inner) < inner
      ensures var d := Due(old(S()), e);
              d.Some? && !exit.Broken? ==> d.value.0 < |told| && told[d.value.0] == [d.value.1]
      ensures var d := Due(old(S()), e); d.Some? ==> CalledBack(old(reqs)[d.value.0], old(S()), S(), exit)
      ensures e.User? ==> Carried(e.script, old(S()), S(), exit)
      ensures !exit.Broken? ==> found == Finds(old(S()), e)
      ensures Due(old(S()), e) == None && (e.WorkerAnswers? || e.DelayedFires? || e.TimerFires?) ==> S() == old(S())
    {
      hide Inv, Later, Load, Marked, Limited, Carried, CalledBack;
      ghost var a := S();
      exit := Normal;
      InvFacts(a, {});
      GrewItself(a);
      match e {
        case User(script) =>
          exit := RunScript(script, {});
          if !exit.Broken? {
            LaterFacts(a, S(), {});
            LaterGrew(a, S(), {});
          }
        case WorkerAnswers(w, answer) =>
          if w < |workers| && workers[w].Some? && reqs[workers[w].value].delayed == None {
            exit := WorkerFinish(workers[w].value, answer);
          }
        case DelayedFires(i) =>
          if i < |reqs| && reqs[i].delayed.Some? {
            if reqs[i].worker.Some? {
              exit := WorkerFinish(i, reqs[i].delayed.value);
            } else {
              DelayedBacked(a, i, {});
              exit := FinishResolve(i, reqs[i].delayed.value, false, {});
              if !exit.Broken? {
                LaterFacts(a, S(), {});
                LaterGrew(a, S(), {});
              }
            }
          }
        case TimerFires(i) =>
          if i < |reqs| && reqs[i].timer {
            exit := FinishResolve(i, Bad(TimedOut), false, {});
            if !exit.Broken? {
              LaterFacts(a, S(), {});
              LaterGrew(a, S(), {});
            }
          }
        case _ =>
          Configure(e);
      }
    }

    /** The cache from outside, and the clock. */
    method Configure(e: Event)
      requires Inv(S(), {}) && (e.SetLimit? || e.SetExpiration? || e.MarkBad? || e.Tick?)
      modifies this
      ensures S() == match e
                     case SetLimit(limit) => Limited(old(S()), limit)
                     case SetExpiration(seconds) => old(S()).(cfg := old(cfg).(expiration := seconds))
                     case MarkBad(key, sockaddr) => Marked(old(S()), key, sockaddr)
                     case Tick(elapsed) => old(S()).(now := old(now) + elapsed)
                     case _ => S()
      ensures Inv(S(), {}) && Grew(old(S()), S()) && lapsed == old(lapsed) && found == old(found)
    {
      hide Inv;
      ghost var a := S();
      match e {
        case SetLimit(limit) =>
          LimitedKeeps(a, limit, {});
          cfg := cfg.(limit := limit);
          if |cache| > limit {
            cache := map[];
          }
        case SetExpiration(seconds) =>
          ExpirationKeeps(a, seconds, {});
          cfg := cfg.(expiration := seconds);
        case MarkBad(key, sockaddr) =>
          MarkedKeeps(a, key, sockaddr, {});
          if key in cache {
            var info := cache[key].info;
            if info.list[info.cur].sockaddr == sockaddr {
              cache := cache[key := cache[key].(info := Rotated(info))];
            }
          }
        case Tick(elapsed) =>
          TickKeeps(a, elapsed, {});
          now := now + elapsed;
      }
    }

    /** Any run; it ends early only where a worker was handed a second request. */
    method Run(events: seq<Event>) returns (broken: bool, ghost threw: bool)
      requires Inv(S(), {})
      modifies this
      ensures !broken ==> Inv(S(), {}) && Grew(old(S()), S())
      ensures !broken && !threw ==> lapsed <= old(lapsed)
      ensures broken ==> old(inner) < inner
    {
      hide Inv, Grew;
      ghost var a := S();
      broken, threw := false, false;
      GrewItself(a);
      for k := 0 to |events|
        invariant !broken && Inv(S(), {}) && Grew(a, S()) && a.inner <= inner
        invariant !threw ==> lapsed <= a.lapsed
      {
        ghost var b := S();
        var exit := Handle(events[k]);
        if exit.Broken? {
          return true, threw;
        }
        GrewTransitive(a, b, S());
        GrewInner(b, S());
        threw := threw || exit.Threw?;
      }
    }
  }
}
