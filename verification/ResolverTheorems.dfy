/** What the invariant of the resolver says in every state between two events, and where the code falls short. */
module ResolverTheorems {
  import opened Basics
  import opened ResolverModel
  import opened Resolvers

  ghost function Slots(r: R, i: nat): set<nat> {
    set w | 0 <= w < |r.workers| && r.workers[w] == Some(i)
  }

  /** In how many places a request is. */
  ghost function Places(r: R, i: nat): nat {
    |Slots(r, i)| + multiset(r.queue)[i] + multiset(r.cacheDelayed)[i]
  }

  lemma {:induction false} DistinctCount(s: seq<nat>, i: nat)
    requires Distinct(s)
    ensures multiset(s)[i] == if i in s then 1 else 0
  {
    if s != [] {
      assert s == [s[0]] + s[1..];
      assert forall k, l | 0 <= k < l < |s| - 1 :: s[1..][k] == s[k + 1] && s[1..][l] == s[l + 1];
      DistinctCount(s[1..], i);
    }
  }

  /** A running request is in exactly one place, any other in none. */
  lemma ExactlyOnePlace(r: R, owed: set<nat>, i: nat)
    requires Inv(r, owed) && i < |r.reqs|
    ensures Places(r, i) == if r.reqs[i].running then 1 else 0
  {
    hide Conserving, CacheOk, InOrder, ToldOnce;
    DistinctCount(r.queue, i);
    DistinctCount(r.cacheDelayed, i);
    if r.reqs[i].running {
      assert Placed(r, i);
      if r.reqs[i].worker.Some? {
        assert Slots(r, i) == {r.reqs[i].worker.value};
      } else {
        assert Slots(r, i) == {};
      }
    } else {
      assert Slots(r, i) == {};
    }
  }

  /** What a request was told never changes, and it was told once exactly when it is over. */
  lemma ToldExactlyOnce(a: R, b: R, i: nat)
    requires Inv(a, {}) && Inv(b, {}) && Grew(a, b) && i < |a.reqs|
    ensures i < |b.reqs| && |a.told[i]| <= 1
    ensures |b.told[i]| == if b.reqs[i].running then 0 else 1
    ensures !a.reqs[i].running ==> !b.reqs[i].running && b.told[i] == a.told[i]
  {
  }

  /** While anybody waits, the idle workers are exactly those that an exception left so and that got nothing since. */
  lemma WorkConserving(r: R)
    requires Inv(r, {})
    ensures |r.workers| <= r.cfg.workers
    ensures r.queue != [] ==>
              |r.workers| == r.cfg.workers && forall w | 0 <= w < |r.workers| :: r.workers[w].Some? || w in r.lapsed
    ensures forall w | w in r.lapsed :: w < |r.workers| && r.workers[w] == None
    ensures forall w | 0 <= w < |r.workers| && r.workers[w].Some? :: r.roll
  {
  }

  /**
  Between two states of a run the requests started are later than all started before, in the order they
  were made.
  */
  lemma FirstComeFirstServed(a: R, b: R, k: nat, l: nat)
    requires Inv(b, {}) && Grew(a, b) && k < l < |b.starts|
    ensures b.starts[k] < b.starts[l]
    ensures k < |a.starts| ==> b.starts[k] == a.starts[k]
    ensures forall q | q in b.queue :: b.starts[l] < q
  {
    assert b.starts[l] in b.starts;
  }

  /** The cache may answer a lookup: the entry of its key is no older than its own limit and the general one. */
  ghost predicate Hits(r: R, spec: Spec) {
    && spec.useCache && r.cfg.limit != 0 && spec.key in r.cache
    && var c := r.cache[spec.key];
    && r.now <= c.updated + c.info.list[c.info.cur].ttl && r.now <= c.updated + r.cfg.expiration
  }

  /** Some worker is idle, or one more may be made. */
  ghost predicate Room(r: R) {
    |r.workers| < r.cfg.workers || exists w | 0 <= w < |r.workers| :: r.workers[w] == None
  }

  /** With the worker that comes first among the idle ones, or with a new one. */
  ghost predicate TakenBy(r: R, s: R, i: nat, w: nat) {
    && w < |s.workers| && (w < |r.workers| ==> r.workers[w] == None)
    && (forall v | 0 <= v < w :: v < |r.workers| && r.workers[v].Some?)
    && s.workers == (if w < |r.workers| then r.workers[w := Some(i)] else r.workers + [Some(i)])
    && i < |s.reqs| && s.reqs[i].worker == Some(w)
  }

  /** What one lookup comes to: a delayed answer from the cache and no timer, or a worker or the queue and its timer. */
  lemma LookupOutcome(r: R, spec: Spec, owed: set<nat>)
    requires Inv(r, owed)
    ensures var s, i := Resolved(r, spec), |r.reqs|;
            && |s.reqs| == i + 1 && s.reqs[..i] == r.reqs && s.told == r.told + [[]]
            && s.reqs[i].spec == spec && s.reqs[i].running
            && (Hits(r, spec) ==>
                  && s.cacheDelayed == r.cacheDelayed + [i] && s.workers == r.workers && s.queue == r.queue
                  && s.reqs[i].delayed == Some(Good(r.cache[spec.key].info)) && !s.reqs[i].timer && s.cache == r.cache)
            && (!Hits(r, spec) ==>
                  && s.cacheDelayed == r.cacheDelayed && s.reqs[i].timer == spec.timeout
                  && s.cache == (if spec.useCache && r.cfg.limit != 0 then r.cache - {spec.key} else r.cache)
                  && (if r.queue == [] && Room(r)
                      then s.reqs[i].delayed == spec.sync && s.queue == [] && exists w :: TakenBy(r, s, i, w)
                      else s.queue == r.queue + [i] && s.workers == r.workers && s.reqs[i].queued))
  {
    hide Inv, Dispatched, Looked;
    var i := |r.reqs|;
    var s := Started(r, spec);
    assert s.reqs[..i] == r.reqs;
    FindMeans(s, spec.key);
    if !Hits(r, spec) {
      var t := if spec.useCache && r.cfg.limit != 0 then Looked(s, spec.key) else s;
      DispatchOutcome(Timed(t, i), i);
      assert Timed(t, i).reqs[..i] == r.reqs;
      if r.queue == [] && Room(r) {
        var w :| TakenBy(Timed(t, i), Resolved(r, spec), i, w);
        assert TakenBy(r, Resolved(r, spec), i, w);
      }
    }
  }

  lemma FindMeans(r: R, key: Key)
    ensures Looked(r, key) == r.(cache := Looked(r, key).cache)
    ensures var live := key in r.cache && (var c := r.cache[key];
                        r.now <= c.updated + c.info.list[c.info.cur].ttl && r.now <= c.updated + r.cfg.expiration);
            && Find(r, key) == (if live then Some(r.cache[key].info) else None)
            && Looked(r, key).cache == (if live then r.cache else r.cache - {key})
  {
  }

  lemma DispatchOutcome(r: R, i: nat)
    requires i + 1 == |r.reqs|
    ensures var s := Dispatched(r, i);
            && |s.reqs| == |r.reqs| && s.reqs[..i] == r.reqs[..i] && s.told == r.told
            && s.cacheDelayed == r.cacheDelayed && s.cache == r.cache
            && s.reqs[i].spec == r.reqs[i].spec && s.reqs[i].running == r.reqs[i].running
            && s.reqs[i].timer == r.reqs[i].timer
            && (if r.queue == [] && Room(r)
                then s.reqs[i].delayed == r.reqs[i].spec.sync && s.queue == [] && exists w :: TakenBy(r, s, i, w)
                else s.queue == r.queue + [i] && s.workers == r.workers && s.reqs[i].queued)
  {
    var w := FirstIdle(r.workers, 0);
    if r.queue == [] && w < |r.workers| {
      assert TakenBy(r, Dispatched(r, i), i, w);
    } else if r.queue == [] && |r.workers| < r.cfg.workers {
      assert TakenBy(r, Dispatched(r, i), i, |r.workers|);
    }
  }

  /** Every running request has an event that completes it, or a place in the queue; and its timer if it wants one. */
  lemma EachHasItsEvent(r: R, owed: set<nat>, i: nat, answer: Answer)
    requires Inv(r, owed) && i < |r.reqs| && r.reqs[i].running
    ensures var q := r.reqs[i];
            if i in r.cacheDelayed then q.delayed.Some? && Due(r, DelayedFires(i)) == Some((i, q.delayed.value))
            else
              && (q.spec.timeout ==> Due(r, TimerFires(i)) == Some((i, Bad(TimedOut))))
              && (i !in r.queue ==>
                    && q.worker.Some?
                    && if q.spec.sync.Some? then Due(r, DelayedFires(i)) == Some((i, q.spec.sync.value))
                       else Due(r, WorkerAnswers(q.worker.value, answer)) == Some((i, answer)))
    ensures Due(r, TimerFires(i)).Some? ==> r.reqs[i].spec.timeout
  {
    assert Placed(r, i);
  }

  /**
  What a lookup in the cache returns was found by a worker for this very key, no longer ago than both
  limits allow.
  */
  lemma CacheAgreement(r: R, key: Key)
    requires Inv(r, {})
    ensures |r.cache| <= r.cfg.limit
    ensures Find(r, key).Some? ==>
              var info := Find(r, key).value;
              && key in r.cache && info.cur < |info.list| && Found(key, info.list, r.cache[key].updated) in r.found
              && r.cache[key].updated <= r.now
              && r.now - r.cache[key].updated <= info.list[info.cur].ttl
              && r.now - r.cache[key].updated <= r.cfg.expiration
    ensures key in r.cache && Find(r, key).None? ==> key !in Looked(r, key).cache
  {
    if Find(r, key).Some? {
      assert Found(key, r.cache[key].info.list, r.cache[key].updated) in r.found;
    }
  }

  /**
  A good answer that may be cached is found again, by itself or under an entry of the same key that was there
  before, until one of its limits is over.
  */
  lemma AnswerFoundAgain(r: R, i: nat, answer: Answer, later: nat)
    requires i < |r.reqs| && answer.Good? && r.reqs[i].useCache && r.cfg.limit != 0
    ensures var s, key := Stored(r, i, answer).(now := r.now + later), r.reqs[i].spec.key;
            && key in s.cache
            && (key !in r.cache || |r.cache| >= r.cfg.limit ==>
                  && s.cache[key] == Cached(answer.info, r.now)
                  && (Find(s, key) == Some(answer.info) <==>
                        later <= answer.info.list[answer.info.cur].ttl && later <= r.cfg.expiration))
            && (key in r.cache && |r.cache| < r.cfg.limit ==> s.cache == r.cache)
            && (forall k | k != key :: k in s.cache <==> k in r.cache && |r.cache| < r.cfg.limit)
            && (forall k | k in s.cache && k != key :: s.cache[k] == r.cache[k])
  {
  }

  /** A bad answer, or one for a request that is not to be cached, changes nothing in the cache. */
  lemma OthersNotStored(r: R, i: nat, answer: Answer)
    requires i < |r.reqs| && (answer.Bad? || !r.reqs[i].useCache || r.cfg.limit == 0)
    ensures Stored(r, i, answer) == r
  {
  }

  /** Marking the address a cached list offers makes it offer the next; any other address changes nothing. */
  lemma MarkMovesOn(r: R, key: Key, sockaddr: nat)
    ensures var m := Marked(r, key, sockaddr);
            && m.cache.Keys == r.cache.Keys
            && (forall k | k in r.cache && k != key :: m.cache[k] == r.cache[k])
            && (key in r.cache ==>
                  var c, d := r.cache[key], m.cache[key];
                  && d.updated == c.updated && d.info.list == c.info.list
                  && d.info.cur == (if c.info.list[c.info.cur].sockaddr != sockaddr then c.info.cur
                                    else (c.info.cur + 1) % |c.info.list|))
  {
    hide Rotated;
    if key in r.cache {
      RotatedNext(r.cache[key].info);
    }
    assert Marked(r, key, sockaddr).cache.Keys == r.cache.Keys;
  }

  lemma RotatedNext(a: AddrInfo)
    ensures Rotated(a) == AddrList(a.list, (a.cur + 1) % |a.list|)
  {
  }

  function Spun(a: AddrInfo, n: nat): AddrInfo {
    if n == 0 then a else Rotated(Spun(a, n - 1))
  }

  /** Marking bad one address after the other, each of the list gets its turn before the first one does again. */
  lemma {:induction false} RotationCycles(a: AddrInfo, n: nat)
    requires n <= |a.list|
    ensures Spun(a, n).list == a.list
    ensures Spun(a, n).cur == if a.cur + n < |a.list| then a.cur + n else a.cur + n - |a.list|
  {
    if n > 0 {
      RotationCycles(a, n - 1);
    }
  }

  /**
  The queue-serving loop hands the front of the queue to its worker without looking whether that is
  idle still.  All is well exactly if it is; otherwise the request it had is running but nowhere.
  */
  lemma ServedIffIdle(r: R, w: nat, owed: set<nat>)
    requires Inv(r, owed + {w}) && r.queue != [] && w < |r.workers|
    ensures r.queue[0] < |r.reqs|
    ensures Partition(Served(r, w)) <==> r.workers[w] == None
    ensures r.workers[w].Some? ==>
              var d := r.workers[w].value;
              d < |r.reqs| && Served(r, w).reqs[d].running && Places(Served(r, w), d) == 0
  {
    hide Conserving, CacheOk, InOrder, ToldOnce;
    assert r.queue[0] in r.queue;
    if r.workers[w] == None {
      ServedPartition(r, w);
    } else {
      var d := r.workers[w].value;
      var s := Served(r, w);
      DistinctCount(s.queue, d);
      DistinctCount(s.cacheDelayed, d);
      assert Slots(s, d) == {};
      assert s.reqs[d].running && !Placed(s, d);
    }
  }

  // ---------------------------------------------------------------- two runs that go wrong

  const START := R(Config(1000, 10, 1), [None], [], [], [], map[], false, 0, [], {}, [], 0, {}, 0)

  const ANSWER := Good(AddrList([Addr(1, 60)], 0))

  function Lookup(key: Key, onResolve: Script): Spec {
    Spec(key, true, false, None, onResolve)
  }

  function Waiting(spec: Spec): Req {
    Req(spec, None, true, true, true, None, false)
  }

  function OnWorker(spec: Spec): Req {
    Req(spec, Some(0), false, true, true, None, false)
  }

  function Over(spec: Spec, worker: Option<nat>, useCache: bool): Req {
    Req(spec, worker, false, false, useCache, None, false)
  }

  /** One worker, busy with request 0; request 1, for the same name, waits. */
  function Pair(f: Script, g: Script): R {
    START.(workers := [Some(0)], queue := [1], roll := true, told := [[], []], starts := [0],
           reqs := [OnWorker(Lookup(7, f)), Waiting(Lookup(7, g))])
  }

  /** Request 0 has been answered. */
  function First(f: Script, g: Script): R {
    Pair(f, g).(workers := [None], told := [[ANSWER], []], cache := map[7 := Cached(ANSWER.info, 0)],
                found := {Found(7, ANSWER.info.list, 0)},
                reqs := [Over(Lookup(7, f), Some(0), true), Waiting(Lookup(7, g))])
  }

  lemma PairReached(f: Script, g: Script)
    ensures Resolved(Resolved(START, Lookup(7, f)), Lookup(7, g)) == Pair(f, g)
  {
    var a := Resolved(START, Lookup(7, f));
    assert FirstIdle(START.workers, 0) == 0;
    assert a == START.(workers := [Some(0)], roll := true, told := [[]], starts := [0],
                       reqs := [OnWorker(Lookup(7, f))]);
    assert FirstIdle(a.workers, 0) == 1;
  }

  lemma FirstReached(f: Script, g: Script)
    ensures Due(Pair(f, g), WorkerAnswers(0, ANSWER)) == Some((0, ANSWER))
    ensures Stopped(WorkerFound(Pair(f, g), 0, ANSWER), 0, ANSWER, true) == First(f, g)
    ensures Find(First(f, g), 7) == Some(ANSWER.info)
  {
    assert [] + [ANSWER] == [ANSWER];
    var a := WorkerFound(Pair(f, g), 0, ANSWER);
    var s := Stored(a, 0, ANSWER);
    assert s.cache == First(f, g).cache && s.found == First(f, g).found;
    var d := Detached(s, 0, true);
    assert d.workers == [None] && d.reqs == First(f, g).reqs;
  }

  /**
  A third request has joined the queue, and the second has been answered from the cache inside the queue-
  serving loop.
  */
  function Stalled(f: Script): R {
    First(f, Throw).(queue := [2], told := [[ANSWER], [ANSWER], []], lapsed := {0},
                     reqs := [Over(Lookup(7, f), Some(0), true), Over(Lookup(7, Throw), None, false),
                              Waiting(Lookup(9, Return))])
  }

  /**
  Request 0 starts request 2 when it is answered; request 1 throws when it is answered from the
  cache.  The worker is left idle, and no event of the loop is due any more: request 2 waits until
  the user acts.
  */
  lemma ThrowStallsQueue()
    ensures var f := Resolve(Lookup(9, Return), Return);
            var a := First(f, Throw);
            && Resolved(Resolved(START, Lookup(7, f)), Lookup(7, Throw)) == Pair(f, Throw)
            && a == Stopped(WorkerFound(Pair(f, Throw), 0, ANSWER), 0, ANSWER, true)
            && Resolved(a, Lookup(9, Return)) == Trio(f) && Find(Trio(f), 7) == Some(ANSWER.info)
            && InnerClosed(Stopped(InnerOpened(Trio(f), 1), 1, ANSWER, false), true, 0) == Stalled(f)
    ensures forall f :: Stalled(f).workers == [None] && Stalled(f).reqs[2].running && Stalled(f).queue == [2]
    ensures forall f, e: Event :: Due(Stalled(f), e) == None
  {
    hide Stopped, Resolved, Find;
    var f := Resolve(Lookup(9, Return), Return);
    PairReached(f, Throw);
    FirstReached(f, Throw);
    TrioReached(f);
    StalledReached(f);
  }

  function Trio(f: Script): R {
    First(f, Throw).(queue := [1, 2], told := [[ANSWER], [], []],
                     reqs := [Over(Lookup(7, f), Some(0), true), Waiting(Lookup(7, Throw)), Waiting(Lookup(9, Return))])
  }

  lemma TrioReached(f: Script)
    ensures Resolved(First(f, Throw), Lookup(9, Return)) == Trio(f) && Find(Trio(f), 7) == Some(ANSWER.info)
  {
  }

  lemma StalledReached(f: Script)
    ensures InnerClosed(Stopped(InnerOpened(Trio(f), 1), 1, ANSWER, false), true, 0) == Stalled(f)
  {
    assert [] + [ANSWER] == [ANSWER];
    assert Without([1, 2], 1) == [2] by {
      assert [1, 2][1..] == [2] && [2][1..] == [];
      assert Without([2], 1) == [2] + Without([], 1);
    }
  }

  /** The callback of request 1 is about to run, inside the queue-serving loop. */
  function Told(g: Script): R {
    First(Return, g).(queue := [], depth := 1, told := [[ANSWER], [ANSWER]],
                      reqs := [Over(Lookup(7, Return), Some(0), true), Over(Lookup(7, g), None, false)])
  }

  lemma ToldReached(g: Script)
    ensures Stopped(InnerOpened(First(Return, g), 1), 1, ANSWER, false) == Told(g)
  {
    assert [1][1..] == [] && [] + [ANSWER] == [ANSWER];
  }

  /** The callback of request 1 has started requests 2 and 3. */
  function Second(g: Script): R {
    First(Return, g).(workers := [Some(2)], queue := [3], told := [[ANSWER], [ANSWER], [], []], starts := [0, 2],
                      inner := 2,
                      reqs := [Over(Lookup(7, Return), Some(0), true), Over(Lookup(7, g), None, false),
                               OnWorker(Lookup(8, Return)), Waiting(Lookup(9, Return))])
  }

  /**
  Request 1, answered from the cache, starts requests 2 and 3.  The worker takes request 2, and
  then request 3 as well: request 2 is running but nowhere.
  */
  lemma CallbackLosesRequest()
    ensures var g := Resolve(Lookup(8, Return), Resolve(Lookup(9, Return), Return));
            && Resolved(Resolved(START, Lookup(7, Return)), Lookup(7, g)) == Pair(Return, g)
            && First(Return, g) == Stopped(WorkerFound(Pair(Return, g), 0, ANSWER), 0, ANSWER, true)
            && Find(First(Return, g), 7) == Some(ANSWER.info)
            && Stopped(InnerOpened(First(Return, g), 1), 1, ANSWER, false) == Told(g)
            && InnerClosed(Resolved(Resolved(Told(g), Lookup(8, Return)), Lookup(9, Return)), false, 0) == Second(g)
    ensures forall g :: Find(Second(g), 9) == None
    ensures forall g ::
              var z := Served(Second(g), 0);
              z.workers == [Some(3)] && z.queue == [] && z.reqs[2].running && Places(z, 2) == 0
  {
    hide Stopped, Resolved, Find;
    var g := Resolve(Lookup(8, Return), Resolve(Lookup(9, Return), Return));
    PairReached(Return, g);
    FirstReached(Return, g);
    ToldReached(g);
    SecondReached(g);
    forall g ensures Find(Second(g), 9) == None {
      NotCached(g);
    }
    forall g ensures Places(Served(Second(g), 0), 2) == 0 {
      assert Slots(Served(Second(g), 0), 2) == {};
    }
  }

  lemma NotCached(g: Script)
    ensures Find(Second(g), 9) == None
  {
  }

  lemma SecondReached(g: Script)
    ensures InnerClosed(Resolved(Resolved(Told(g), Lookup(8, Return)), Lookup(9, Return)), false, 0) == Second(g)
  {
    var c := Told(g);
    assert FirstIdle(c.workers, 0) == 0;
    var x := Resolved(c, Lookup(8, Return));
    assert x == c.(workers := [Some(2)], told := [[ANSWER], [ANSWER], []], starts := [0, 2], inner := 1,
                   reqs := c.reqs + [OnWorker(Lookup(8, Return))]);
    assert FirstIdle(x.workers, 0) == 1;
  }
}
