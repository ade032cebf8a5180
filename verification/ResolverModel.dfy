/**
The scheduler of `Resolver.cc` as a value: a bounded pool of workers, a queue of requests that
wait for one, requests answered from the cache whose event is delayed, and the cache.

c-ares is an oracle: a lookup either answers while it is being started (`Spec.sync`) or some
later event of the loop answers it.  A request is known by the order in which it was started.
*/
module ResolverModel {
  import opened Basics

  type Key = nat

  datatype Addr = Addr(sockaddr: nat, ttl: nat)

  /** A list of addresses with a position in it: `AddrInfo` without its memory management. */
  datatype AddrList = AddrList(list: seq<Addr>, cur: nat)

  type AddrInfo = a: AddrList | a.cur < |a.list| witness AddrList([Addr(0, 0)], 0)

  datatype Answer = Good(info: AddrInfo) | Bad(err: Err)

  datatype Cached = Cached(info: AddrInfo, updated: nat)

  datatype Config = Config(expiration: nat, limit: nat, workers: nat)

  /** What a callback, run once, happens to do. */
  datatype Script =
    | Return
    | Throw
    | Resolve(spec: Spec, next: Script)
    | Cancel(req: nat, next: Script)

  datatype Spec = Spec(key: Key, useCache: bool, timeout: bool, sync: Option<Answer>, onResolve: Script)

  /** `delayed` is the closure handed to the loop, if one is pending. */
  datatype Req = Req(
    spec: Spec, worker: Option<nat>, queued: bool, running: bool, useCache: bool,
    delayed: Option<Answer>, timer: bool)

  /** A successful answer of a worker, and when it came. */
  datatype Found = Found(key: Key, list: seq<Addr>, at: nat)

  /**
  `told[i]` lists what was reported to request `i`, `found` every successful answer of a worker,
  `starts` the requests handed to a worker, in that order;
  `inner` counts the lookups started from a callback that the queue-serving loop ran, `lapsed` are
  the workers that loop left idle because such a callback threw and that got nothing since, and
  `depth` how many such callbacks are open.
  */
  datatype R = R(
    cfg: Config, workers: seq<Option<nat>>, queue: seq<nat>, cacheDelayed: seq<nat>, reqs: seq<Req>,
    cache: map<Key, Cached>, roll: bool, now: nat,
    told: seq<seq<Answer>>, found: set<Found>, starts: seq<nat>, inner: nat, lapsed: set<nat>, depth: nat)

  // ---------------------------------------------------------------- user code

  function Size(s: Script): nat {
    match s
    case Return => 0
    case Throw => 1
    case Resolve(spec, next) => 2 + Size(spec.onResolve) + Size(next)
    case Cancel(_, next) => 1 + Size(next)
  }

  /** The script ends in an exception, unless one stops it earlier. */
  predicate Throws(s: Script) {
    match s
    case Return => false
    case Throw => true
    case Resolve(_, next) => Throws(next)
    case Cancel(_, next) => Throws(next)
  }

  /** Whether it cancels, and so may run other callbacks. */
  predicate Cancels(s: Script) {
    match s
    case Return => false
    case Throw => false
    case Resolve(_, next) => Cancels(next)
    case Cancel(_, _) => true
  }

  /** The lookups it starts, in order. */
  function Asked(s: Script): seq<Spec> {
    match s
    case Return => []
    case Throw => []
    case Resolve(spec, next) => [spec] + Asked(next)
    case Cancel(_, next) => Asked(next)
  }

  function Weight(r: Req): nat {
    if r.running then 1 + Size(r.spec.onResolve) else 0
  }

  function Load(reqs: seq<Req>): nat {
    if reqs == [] then 0 else Weight(reqs[0]) + Load(reqs[1..])
  }

  lemma {:induction false} LoadAppend(reqs: seq<Req>, r: Req)
    ensures Load(reqs + [r]) == Load(reqs) + Weight(r)
  {
    if reqs != [] {
      assert (reqs + [r])[1..] == reqs[1..] + [r];
      LoadAppend(reqs[1..], r);
    }
  }

  lemma {:induction false} LoadUpdate(reqs: seq<Req>, i: nat, r: Req)
    requires i < |reqs|
    ensures Load(reqs[i := r]) + Weight(reqs[i]) == Load(reqs) + Weight(r)
  {
    if i == 0 {
      assert reqs[i := r][1..] == reqs[1..];
    } else {
      assert reqs[i := r][1..] == reqs[1..][i - 1 := r];
      LoadUpdate(reqs[1..], i - 1, r);
    }
  }

  // ---------------------------------------------------------------- the cache

  function Min(a: nat, b: nat): nat { if a <= b then a else b }

  predicate Expired(c: Cached, now: nat, limit: nat) {
    c.updated + limit < now
  }

  /** Whether `find` returns the entry, which it otherwise erases. */
  predicate Usable(c: Cached, now: nat, expiration: nat) {
    !Expired(c, now, Min(c.info.list[c.info.cur].ttl, expiration))
  }

  function Find(r: R, key: Key): Option<AddrInfo> {
    if key in r.cache && Usable(r.cache[key], r.now, r.cfg.expiration) then Some(r.cache[key].info) else None
  }

  /** The cache after `find`. */
  function Looked(r: R, key: Key): R {
    if key in r.cache && Find(r, key).None? then r.(cache := r.cache - {key}) else r
  }

  /** Each entry is what some worker has found for its key, at the time it carries. */
  ghost predicate CacheOk(r: R) {
    && |r.cache| <= r.cfg.limit
    && (forall k | k in r.cache :: Found(k, r.cache[k].info.list, r.cache[k].updated) in r.found)
    && (forall f | f in r.found :: f.at <= r.now)
  }

  // ---------------------------------------------------------------- the invariant

  /** Where a running request is, as its own fields have it, and what it waits for there. */
  ghost predicate Placed(r: R, i: nat)
    requires i < |r.reqs|
  {
    var q := r.reqs[i];
    if q.worker.Some? then
      && q.worker.value < |r.workers| && r.workers[q.worker.value] == Some(i)
      && q.timer == q.spec.timeout && q.delayed == q.spec.sync
    else if q.queued then i in r.queue && q.timer == q.spec.timeout
    else i in r.cacheDelayed && q.delayed.Some? && !q.timer
  }

  /** Every running request is where its fields say, and the places hold nothing else. */
  ghost predicate Partition(r: R) {
    && (forall i | 0 <= i < |r.reqs| && r.reqs[i].running :: Placed(r, i))
    && SlotsOk(r) && QueueOk(r) && DelayedOk(r)
  }

  ghost predicate SlotsOk(r: R) {
    forall w | 0 <= w < |r.workers| && r.workers[w].Some? ::
      var i := r.workers[w].value;
      i < |r.reqs| && r.reqs[i].running && r.reqs[i].worker == Some(w)
  }

  ghost predicate QueueOk(r: R) {
    && Increasing(r.queue)
    && (forall i | i in r.queue ::
          && i < |r.reqs| && r.reqs[i].running && r.reqs[i].worker == None && r.reqs[i].queued
          && r.reqs[i].delayed == None)
  }

  ghost predicate DelayedOk(r: R) {
    && Distinct(r.cacheDelayed)
    && (forall i | i in r.cacheDelayed ::
          i < |r.reqs| && r.reqs[i].running && r.reqs[i].worker == None && !r.reqs[i].queued && !r.reqs[i].useCache)
  }

  /** A request is told once, when it stops running; nothing of it is left in the loop then. */
  ghost predicate ToldOnce(r: R) {
    && |r.told| == |r.reqs|
    && (forall i | 0 <= i < |r.reqs| :: |r.told[i]| == if r.reqs[i].running then 0 else 1)
    && (forall i | 0 <= i < |r.reqs| && !r.reqs[i].running :: r.reqs[i].delayed == None && !r.reqs[i].timer)
  }

  ghost predicate Busy(r: R) {
    exists w | 0 <= w < |r.workers| :: r.workers[w].Some?
  }

  /** Nobody waits while a worker is idle, except for workers whose completion is still on the stack. */
  ghost predicate Conserving(r: R, owed: set<nat>) {
    && 1 <= |r.workers| <= r.cfg.workers
    && (r.queue != [] ==>
          && |r.workers| == r.cfg.workers
          && (forall w | 0 <= w < |r.workers| :: r.workers[w].Some? || w in owed || w in r.lapsed))
    && (Busy(r) || r.queue != [] ==> r.roll)
    && (forall w | w in r.lapsed :: w < |r.workers| && r.workers[w] == None)
  }

  /** Requests reach the workers in the order in which they were made; whoever waits comes later still. */
  ghost predicate InOrder(r: R) {
    && Increasing(r.starts)
    && (forall k | k in r.starts :: k < |r.reqs|)
    && (forall q, k | q in r.queue && k in r.starts :: k < q)
  }

  ghost predicate Inv(r: R, owed: set<nat>) {
    Partition(r) && ToldOnce(r) && Conserving(r, owed) && InOrder(r) && CacheOk(r)
  }

  // ---------------------------------------------------------------- the pieces of the scheduler

  function Without(s: seq<nat>, i: nat): seq<nat> {
    if s == [] then [] else (if s[0] == i then [] else [s[0]]) + Without(s[1..], i)
  }

  lemma {:induction false} WithoutMember(s: seq<nat>, i: nat)
    ensures forall x :: x in Without(s, i) <==> x in s && x != i
    ensures |Without(s, i)| <= |s|
  {
    if s != [] {
      WithoutMember(s[1..], i);
    }
  }

  lemma {:induction false} WithoutOrder(s: seq<nat>, i: nat)
    ensures Increasing(s) ==> Increasing(Without(s, i))
    ensures Distinct(s) ==> Distinct(Without(s, i))
  {
    if s != [] {
      WithoutOrder(s[1..], i);
      WithoutMember(s[1..], i);
      TailOrder(s);
      var t := Without(s[1..], i);
      if Increasing(s) {
        ConsIncreasing(s[0], t);
      }
      if Distinct(s) {
        ConsDistinct(s[0], t);
      }
      assert [] + t == t;
      hide Increasing, Distinct;
    }
  }

  lemma TailOrder(s: seq<nat>)
    requires s != []
    ensures Increasing(s) ==> Increasing(s[1..]) && forall x | x in s[1..] :: s[0] < x
    ensures Distinct(s) ==> Distinct(s[1..]) && s[0] !in s[1..]
  {
  }

  lemma ConsIncreasing(x: nat, t: seq<nat>)
    requires Increasing(t) && forall y | y in t :: x < y
    ensures Increasing([x] + t)
  {
    forall i, j | 0 <= i < j < |t| + 1 ensures ([x] + t)[i] < ([x] + t)[j] {
      assert t[j - 1] in t;
    }
  }

  lemma ConsDistinct(x: nat, t: seq<nat>)
    requires Distinct(t) && x !in t
    ensures Distinct([x] + t)
  {
    forall i, j | 0 <= i < j < |t| + 1 ensures ([x] + t)[i] != ([x] + t)[j] {
      assert t[j - 1] in t;
    }
  }

  /** `Worker::resolve`: an answer that comes at once is delayed. */
  function Assigned(r: R, w: nat, i: nat): R
    requires w < |r.workers| && i < |r.reqs|
  {
    r.(workers := r.workers[w := Some(i)], starts := r.starts + [i], lapsed := r.lapsed - {w},
       reqs := r.reqs[i := r.reqs[i].(worker := Some(w), delayed := r.reqs[i].spec.sync)])
  }

  function Stored(r: R, i: nat, answer: Answer): R
    requires i < |r.reqs|
  {
    var q := r.reqs[i];
    if answer.Good? && q.useCache && r.cfg.limit != 0 then
      var base := if |r.cache| >= r.cfg.limit then map[] else r.cache;
      if q.spec.key in base then r.(cache := base)
      else r.(cache := base[q.spec.key := Cached(answer.info, r.now)])
    else r
  }

  /** The request leaves its place; `moved` if its worker had let go of it already. */
  function Detached(r: R, i: nat, moved: bool): R
    requires i < |r.reqs|
  {
    var q := r.reqs[i];
    r.(workers := if q.worker.Some? && q.worker.value < |r.workers|
                  then r.workers[q.worker.value := None] else r.workers,
       queue := if q.worker.None? && q.queued then Without(r.queue, i) else r.queue,
       cacheDelayed := if q.worker.None? && !q.queued then Without(r.cacheDelayed, i) else r.cacheDelayed,
       reqs := r.reqs[i := q.(worker := if moved then q.worker else None, queued := false, running := false,
                              delayed := None, timer := false)])
  }

  /** `finish_resolve` up to and including the report. */
  function Stopped(r: R, i: nat, answer: Answer, moved: bool): R
    requires i < |r.reqs| == |r.told|
  {
    var d := Detached(Stored(r, i, answer), i, moved);
    d.(told := d.told[i := d.told[i] + [answer]])
  }

  function Started(r: R, spec: Spec): R {
    r.(reqs := r.reqs + [Req(spec, None, false, true, spec.useCache, None, false)], told := r.told + [[]],
       inner := r.inner + if r.depth > 0 then 1 else 0)
  }

  // ---------------------------------------------------------------- each keeps the invariant

  ghost function Slot(r: R, i: nat): set<nat>
    requires i < |r.reqs|
  {
    if r.reqs[i].worker.Some? then {r.reqs[i].worker.value} else {}
  }

  lemma KeyAdded(m: map<Key, Cached>, k: Key, c: Cached)
    requires k !in m
    ensures |m[k := c]| == |m| + 1
  {
    assert m[k := c].Keys == m.Keys + {k};
  }

  /** An answer that may go into the cache is one a worker has just found. */
  ghost predicate Backed(r: R, i: nat, answer: Answer)
    requires i < |r.reqs|
  {
    answer.Good? && r.reqs[i].useCache ==> Found(r.reqs[i].spec.key, answer.info.list, r.now) in r.found
  }

  /** `Worker::finish_resolve`: the only place where anything is found. */
  ghost function WorkerFound(r: R, i: nat, answer: Answer): R
    requires i < |r.reqs|
  {
    if answer.Good? then r.(found := r.found + {Found(r.reqs[i].spec.key, answer.info.list, r.now)}) else r
  }

  lemma WorkerFoundKeeps(r: R, i: nat, answer: Answer, owed: set<nat>)
    requires Inv(r, owed) && i < |r.reqs|
    ensures Inv(WorkerFound(r, i, answer), owed) && Backed(WorkerFound(r, i, answer), i, answer)
  {
    SamePlaces(r, WorkerFound(r, i, answer));
  }

  /** A delayed answer that came out of the cache does not go back into it. */
  lemma DelayedBacked(r: R, i: nat, owed: set<nat>)
    requires Inv(r, owed) && i < |r.reqs| && r.reqs[i].delayed.Some? && r.reqs[i].worker == None
    ensures Backed(r, i, r.reqs[i].delayed.value)
  {
    if r.reqs[i].running {
      assert Placed(r, i);
    }
  }

  lemma StoredKeeps(r: R, i: nat, answer: Answer)
    requires CacheOk(r) && i < |r.reqs| && Backed(r, i, answer)
    ensures CacheOk(Stored(r, i, answer))
  {
    var q := r.reqs[i];
    var base := if |r.cache| >= r.cfg.limit then map[] else r.cache;
    if answer.Good? && q.spec.key !in base {
      KeyAdded(base, q.spec.key, Cached(answer.info, r.now));
    }
  }

  lemma DetachedSlots(r: R, i: nat, moved: bool)
    requires Partition(r) && i < |r.reqs| && r.reqs[i].running
    ensures SlotsOk(Detached(r, i, moved))
  {
    hide QueueOk, DelayedOk;
    assert Placed(r, i);
  }

  lemma DetachedQueue(r: R, i: nat, moved: bool)
    requires Partition(r) && i < |r.reqs| && r.reqs[i].running
    ensures QueueOk(Detached(r, i, moved))
  {
    hide SlotsOk, DelayedOk;
    WithoutMember(r.queue, i);
    WithoutOrder(r.queue, i);
  }

  lemma DetachedDelayed(r: R, i: nat, moved: bool)
    requires Partition(r) && i < |r.reqs| && r.reqs[i].running
    ensures DelayedOk(Detached(r, i, moved))
  {
    hide SlotsOk, QueueOk;
    WithoutMember(r.cacheDelayed, i);
    WithoutOrder(r.cacheDelayed, i);
  }

  lemma DetachedPartition(r: R, i: nat, moved: bool)
    requires Partition(r) && i < |r.reqs| && r.reqs[i].running
    ensures Partition(Detached(r, i, moved))
  {
    hide SlotsOk, QueueOk, DelayedOk;
    DetachedSlots(r, i, moved);
    DetachedQueue(r, i, moved);
    DetachedDelayed(r, i, moved);
    WithoutMember(r.queue, i);
    WithoutMember(r.cacheDelayed, i);
    assert Placed(r, i);
    var d := Detached(r, i, moved);
    forall j | 0 <= j < |d.reqs| && d.reqs[j].running ensures Placed(d, j) {
      assert Placed(r, j);
    }
  }

  lemma StoredPartition(r: R, i: nat, answer: Answer)
    requires Partition(r) && i < |r.reqs|
    ensures Partition(Stored(r, i, answer))
  {
    hide QueueOk, DelayedOk, SlotsOk;
    var t := Stored(r, i, answer);
    assert t == r.(cache := t.cache);
    assert QueueOk(t) && DelayedOk(t) && SlotsOk(t) by { SamePlaces(r, t); }
    forall j | 0 <= j < |t.reqs| && t.reqs[j].running ensures Placed(t, j) {
      assert Placed(r, j);
    }
  }

  lemma SamePlaces(r: R, t: R)
    requires t.workers == r.workers && t.queue == r.queue && t.cacheDelayed == r.cacheDelayed && t.reqs == r.reqs
    ensures SlotsOk(r) ==> SlotsOk(t)
    ensures QueueOk(r) ==> QueueOk(t)
    ensures DelayedOk(r) ==> DelayedOk(t)
    ensures Partition(r) ==> Partition(t)
  {
    forall j | 0 <= j < |r.reqs| && Placed(r, j) ensures Placed(t, j) {}
  }

  lemma StoppedConserves(r: R, i: nat, answer: Answer, moved: bool, owed: set<nat>)
    requires Conserving(r, owed) && i < |r.reqs| == |r.told|
    ensures Conserving(Stopped(r, i, answer, moved), owed + Slot(r, i))
  {
    WithoutMember(r.queue, i);
    var s := Stopped(r, i, answer, moved);
    assert forall w | 0 <= w < |s.workers| :: s.workers[w].Some? ==> r.workers[w].Some?;
    assert forall w | 0 <= w < |s.workers| && w !in Slot(r, i) :: s.workers[w] == r.workers[w];
  }

  lemma StoppedInOrder(r: R, i: nat, answer: Answer, moved: bool)
    requires InOrder(r) && i < |r.reqs| == |r.told|
    ensures InOrder(Stopped(r, i, answer, moved))
  {
    WithoutMember(r.queue, i);
  }

  /** A request later than every one started, and earlier than every one that waits, may be started. */
  lemma AssignedInOrder(r: R, w: nat, i: nat)
    requires InOrder(r) && w < |r.workers| && i < |r.reqs|
    requires forall k | k in r.starts :: k < i
    requires forall q | q in r.queue :: i < q
    ensures InOrder(Assigned(r, w, i))
  {
    assert forall k | 0 <= k < |r.starts| :: r.starts[k] in r.starts;
  }

  lemma StoppedTold(r: R, i: nat, answer: Answer, moved: bool)
    requires Partition(r) && ToldOnce(r) && i < |r.reqs| && r.reqs[i].running
    ensures ToldOnce(Stopped(r, i, answer, moved))
    ensures var s := Stopped(r, i, answer, moved); forall w | w in Slot(r, i) :: w < |s.workers| && s.workers[w] == None
    ensures Load(Stopped(r, i, answer, moved).reqs) + 1 + Size(r.reqs[i].spec.onResolve) == Load(r.reqs)
  {
    hide SlotsOk, QueueOk, DelayedOk, Without, Load;
    assert Placed(r, i);
    LoadUpdate(r.reqs, i, Stopped(r, i, answer, moved).reqs[i]);
  }

  lemma StoppedPartition(r: R, i: nat, answer: Answer, moved: bool)
    requires Partition(r) && CacheOk(r) && i < |r.reqs| == |r.told| && r.reqs[i].running && Backed(r, i, answer)
    ensures Partition(Stopped(r, i, answer, moved)) && CacheOk(Stopped(r, i, answer, moved))
  {
    hide Partition;
    StoredKeeps(r, i, answer);
    StoredPartition(r, i, answer);
    var t := Stored(r, i, answer);
    DetachedPartition(t, i, moved);
    SamePlaces(Detached(t, i, moved), Stopped(r, i, answer, moved));
  }

  lemma StoppedKeeps(r: R, i: nat, answer: Answer, moved: bool, owed: set<nat>)
    requires Inv(r, owed) && i < |r.reqs| && r.reqs[i].running && Backed(r, i, answer)
    ensures Inv(Stopped(r, i, answer, moved), owed + Slot(r, i))
    ensures var s := Stopped(r, i, answer, moved); forall w | w in Slot(r, i) :: w < |s.workers| && s.workers[w] == None
    ensures Load(Stopped(r, i, answer, moved).reqs) + 1 + Size(r.reqs[i].spec.onResolve) == Load(r.reqs)
  {
    hide Partition, Conserving, CacheOk, InOrder, Load, Stored, Detached;
    StoppedTold(r, i, answer, moved);
    StoppedPartition(r, i, answer, moved);
    StoppedConserves(r, i, answer, moved, owed);
    StoppedInOrder(r, i, answer, moved);
  }

  // ---------------------------------------------------------------- starting a lookup

  /** A worker takes a running request that is nowhere else. */
  lemma AssignedPartition(r: R, w: nat, i: nat)
    requires SlotsOk(r) && QueueOk(r) && DelayedOk(r)
    requires forall j | 0 <= j < |r.reqs| && r.reqs[j].running && j != i :: Placed(r, j)
    requires w < |r.workers| && r.workers[w] == None
    requires i < |r.reqs| && r.reqs[i].running && r.reqs[i].worker == None && i !in r.queue && i !in r.cacheDelayed
    requires r.reqs[i].timer == r.reqs[i].spec.timeout
    ensures Partition(Assigned(r, w, i))
  {
    var a := Assigned(r, w, i);
    forall j | 0 <= j < |a.reqs| && a.reqs[j].running ensures Placed(a, j) {
      if j != i { assert Placed(r, j); }
    }
  }

  /** The first idle worker, as the loop in `resolve` finds it. */
  function FirstIdle(workers: seq<Option<nat>>, from: nat): (w: nat)
    requires from <= |workers|
    ensures from <= w <= |workers| && (w < |workers| ==> workers[w] == None)
    ensures forall k | from <= k < w :: workers[k].Some?
    decreases |workers| - from
  {
    if from == |workers| || workers[from] == None then from else FirstIdle(workers, from + 1)
  }

  /** `resolve` after the cache has been asked in vain and the timer of the request set up. */
  function Dispatched(r: R, i: nat): R
    requires i < |r.reqs|
  {
    var w := FirstIdle(r.workers, 0);
    if r.queue == [] && w < |r.workers| then Assigned(r.(roll := true), w, i)
    else if r.queue == [] && |r.workers| < r.cfg.workers then
      Assigned(r.(workers := r.workers + [None]), |r.workers|, i)
    else r.(queue := r.queue + [i], reqs := r.reqs[i := r.reqs[i].(queued := true)])
  }

  /** The whole of `resolve`. */
  function Resolved(r: R, spec: Spec): R {
    var i := |r.reqs|;
    var s := Started(r, spec);
    if spec.useCache && r.cfg.limit != 0 then
      var hit := Find(s, spec.key);
      if hit.Some? then HitDelayed(s, Good(hit.value))
      else
        Dispatched(Timed(Looked(s, spec.key), i), i)
    else Dispatched(Timed(s, i), i)
  }

  function Timed(r: R, i: nat): R
    requires i < |r.reqs|
  {
    r.(reqs := r.reqs[i := r.reqs[i].(timer := r.reqs[i].spec.timeout)])
  }

  /** A request that has been started but has no place yet is the last one. */
  ghost predicate Newest(r: R, owed: set<nat>) {
    && r.reqs != [] && |r.told| == |r.reqs|
    && var i := |r.reqs| - 1;
    && SlotsOk(r) && QueueOk(r) && DelayedOk(r)
    && (forall j | 0 <= j < i && r.reqs[j].running :: Placed(r, j))
    && i !in r.queue && i !in r.cacheDelayed
    && r.reqs[i].running && r.reqs[i].worker == None && !r.reqs[i].queued && r.reqs[i].delayed == None
    && ToldOnce(r) && Conserving(r, owed) && CacheOk(r) && InOrder(r) && i !in r.starts
  }

  lemma StartedNewest(r: R, spec: Spec, owed: set<nat>)
    requires Inv(r, owed)
    ensures Newest(Started(r, spec), owed)
    ensures Load(Started(r, spec).reqs) == Load(r.reqs) + 1 + Size(spec.onResolve)
  {
    var s := Started(r, spec);
    LoadAppend(r.reqs, s.reqs[|r.reqs|]);
    forall j | 0 <= j < |r.reqs| && r.reqs[j].running ensures Placed(s, j) {
      assert Placed(r, j);
    }
  }

  lemma LookedCache(r: R, key: Key)
    requires CacheOk(r)
    ensures CacheOk(Looked(r, key))
  {
    if key in r.cache {
      assert (r.cache - {key}).Keys == r.cache.Keys - {key};
    }
  }

  lemma NewestLooked(r: R, key: Key, owed: set<nat>)
    requires Newest(r, owed)
    ensures Newest(Looked(r, key), owed)
  {
    hide CacheOk;
    LookedCache(r, key);
    var t := Looked(r, key);
    SamePlaces(r, t);
    forall j | 0 <= j < |r.reqs| - 1 && r.reqs[j].running ensures Placed(t, j) {
      assert Placed(r, j);
    }
  }

  /** Only fields of the newest request that do not place it differ. */
  ghost predicate NewestTouched(r: R, t: R) {
    && r.reqs != [] && |t.reqs| == |r.reqs|
    && var i := |r.reqs| - 1;
    && t == r.(reqs := t.reqs) && t.reqs == r.reqs[i := t.reqs[i]]
    && t.reqs[i] == r.reqs[i].(timer := t.reqs[i].timer, useCache := t.reqs[i].useCache)
  }

  lemma NewestTouchedKeeps(r: R, t: R, owed: set<nat>)
    requires Newest(r, owed) && NewestTouched(r, t)
    ensures Newest(t, owed) && Load(t.reqs) == Load(r.reqs)
  {
    hide SlotsOk, QueueOk, DelayedOk, Load, Conserving, CacheOk;
    LoadUpdate(r.reqs, |r.reqs| - 1, t.reqs[|r.reqs| - 1]);
    TouchedPlaces(r, t);
    assert Conserving(t, owed) && CacheOk(t) by { TouchedApart(r, t, owed); }
    forall j | 0 <= j < |r.reqs| - 1 && r.reqs[j].running ensures Placed(t, j) {
      assert Placed(r, j);
    }
  }

  lemma TouchedApart(r: R, t: R, owed: set<nat>)
    requires Conserving(r, owed) && CacheOk(r) && t == r.(reqs := t.reqs)
    ensures Conserving(t, owed) && CacheOk(t)
  {
  }

  lemma TouchedPlaces(r: R, t: R)
    requires NewestTouched(r, t) && SlotsOk(r) && QueueOk(r) && DelayedOk(r)
    requires |r.reqs| - 1 !in r.cacheDelayed
    ensures SlotsOk(t) && QueueOk(t) && DelayedOk(t)
  {
  }

  /** The newest request has its timer, if it wants one. */
  ghost predicate TimerSet(r: R)
    requires r.reqs != []
  {
    r.reqs[|r.reqs| - 1].timer == r.reqs[|r.reqs| - 1].spec.timeout
  }

  /** The newest request, found in the cache, waits for its delayed event. */
  function HitDelayed(r: R, answer: Answer): R
    requires r.reqs != []
  {
    var i := |r.reqs| - 1;
    r.(reqs := r.reqs[i := r.reqs[i].(useCache := false, delayed := Some(answer))],
       cacheDelayed := r.cacheDelayed + [i])
  }

  lemma HitPartition(r: R, owed: set<nat>, answer: Answer)
    requires Newest(r, owed) && !r.reqs[|r.reqs| - 1].timer
    ensures Partition(HitDelayed(r, answer))
  {
    hide Conserving, CacheOk, ToldOnce, InOrder;
    var i := |r.reqs| - 1;
    var h := HitDelayed(r, answer);
    forall j | 0 <= j < |h.reqs| && h.reqs[j].running ensures Placed(h, j) {
      if j < i { assert Placed(r, j); }
    }
  }

  lemma HitKeeps(r: R, owed: set<nat>, answer: Answer)
    requires Newest(r, owed) && !r.reqs[|r.reqs| - 1].timer
    ensures Inv(HitDelayed(r, answer), owed) && Load(HitDelayed(r, answer).reqs) == Load(r.reqs)
  {
    hide Partition, SlotsOk, QueueOk, DelayedOk, Placed, Load;
    HitPartition(r, owed, answer);
    LoadUpdate(r.reqs, |r.reqs| - 1, HitDelayed(r, answer).reqs[|r.reqs| - 1]);
  }

  /** The newest request joins the queue. */
  function Queued(r: R): R
    requires r.reqs != []
  {
    var i := |r.reqs| - 1;
    r.(queue := r.queue + [i], reqs := r.reqs[i := r.reqs[i].(queued := true)])
  }

  lemma QueuedPartition(r: R, owed: set<nat>)
    requires Newest(r, owed) && TimerSet(r)
    ensures Partition(Queued(r))
  {
    hide Conserving, CacheOk, ToldOnce, InOrder;
    var i := |r.reqs| - 1;
    var h := Queued(r);
    forall j | 0 <= j < |h.reqs| && h.reqs[j].running ensures Placed(h, j) {
      if j < i { assert Placed(r, j); }
    }
    assert forall k | 0 <= k < |r.queue| :: r.queue[k] in r.queue && r.queue[k] < i;
  }

  lemma QueuedKeeps(r: R, owed: set<nat>)
    requires Newest(r, owed) && TimerSet(r)
    requires r.queue != [] || (|r.workers| == r.cfg.workers && forall w | 0 <= w < |r.workers| :: r.workers[w].Some?)
    ensures Inv(Queued(r), owed) && Load(Queued(r).reqs) == Load(r.reqs)
  {
    hide Partition, SlotsOk, QueueOk, DelayedOk, Placed, Load;
    QueuedPartition(r, owed);
    NewestInOrder(r, owed);
    LoadUpdate(r.reqs, |r.reqs| - 1, Queued(r).reqs[|r.reqs| - 1]);
    if r.queue == [] {
      assert r.workers[0].Some?;
    }
  }

  lemma NewestInOrder(r: R, owed: set<nat>)
    requires Newest(r, owed)
    ensures InOrder(r) && forall k | k in r.starts :: k < |r.reqs| - 1
  {
  }

  lemma NewestAssigned(r: R, w: nat, owed: set<nat>)
    requires Newest(r, owed) && TimerSet(r)
    requires w < |r.workers| && r.workers[w] == None && r.roll && r.queue == []
    ensures Inv(Assigned(r, w, |r.reqs| - 1), owed) && Load(Assigned(r, w, |r.reqs| - 1).reqs) == Load(r.reqs)
  {
    var i := |r.reqs| - 1;
    var a := Assigned(r, w, i);
    hide InOrder;
    AssignedPartition(r, w, i);
    NewestInOrder(r, owed);
    AssignedInOrder(r, w, i);
    LoadUpdate(r.reqs, i, a.reqs[i]);
  }

  lemma DispatchedKeeps(r: R, owed: set<nat>)
    requires Newest(r, owed) && TimerSet(r)
    ensures Inv(Dispatched(r, |r.reqs| - 1), owed) && Load(Dispatched(r, |r.reqs| - 1).reqs) == Load(r.reqs)
  {
    hide ToldOnce, CacheOk, Load, SlotsOk, QueueOk, DelayedOk;
    var w := FirstIdle(r.workers, 0);
    if r.queue == [] && w < |r.workers| {
      var t := r.(roll := true);
      NewestRolling(r, owed);
      NewestAssigned(t, w, owed);
    } else if r.queue == [] && |r.workers| < r.cfg.workers {
      NewestGrown(r, owed);
      NewestAssigned(r.(workers := r.workers + [None]), |r.workers|, owed);
    } else {
      QueuedKeeps(r, owed);
    }
  }

  lemma NewestRolling(r: R, owed: set<nat>)
    requires Newest(r, owed)
    ensures Newest(r.(roll := true), owed)
  {
    var t := r.(roll := true);
    SamePlaces(r, t);
    forall j | 0 <= j < |r.reqs| - 1 && r.reqs[j].running ensures Placed(t, j) {
      assert Placed(r, j);
    }
  }

  /** Every worker was busy, so the roll timer runs already. */
  lemma NewestGrown(r: R, owed: set<nat>)
    requires Newest(r, owed) && r.queue == [] && |r.workers| < r.cfg.workers
    requires forall w | 0 <= w < |r.workers| :: r.workers[w].Some?
    ensures r.roll && Newest(r.(workers := r.workers + [None]), owed)
  {
    assert r.workers[0].Some?;
    var t := r.(workers := r.workers + [None]);
    forall j | 0 <= j < |r.reqs| - 1 && r.reqs[j].running ensures Placed(t, j) {
      assert Placed(r, j);
    }
  }

  lemma ResolvedKeeps(r: R, spec: Spec, owed: set<nat>)
    requires Inv(r, owed)
    ensures Inv(Resolved(r, spec), owed)
    ensures Load(Resolved(r, spec).reqs) == Load(r.reqs) + 1 + Size(spec.onResolve)
  {
    hide Newest, Inv, Load, Dispatched, Looked;
    var i := |r.reqs|;
    var s := Started(r, spec);
    StartedNewest(r, spec, owed);
    if spec.useCache && r.cfg.limit != 0 && Find(s, spec.key).Some? {
      HitKeeps(s, owed, Good(Find(s, spec.key).value));
    } else {
      var t := if spec.useCache && r.cfg.limit != 0 then Looked(s, spec.key) else s;
      NewestLooked(s, spec.key, owed);
      LookedReqs(s, spec.key);
      NewestTouchedKeeps(t, Timed(t, i), owed);
      DispatchedKeeps(Timed(t, i), owed);
    }
  }

  lemma LookedReqs(r: R, key: Key)
    ensures Looked(r, key) == r.(cache := Looked(r, key).cache)
    ensures Find(r, key).Some? ==> Looked(r, key) == r
  {
  }

  // ---------------------------------------------------------------- serving the queue

  lemma LookedKeeps(r: R, key: Key, owed: set<nat>)
    requires Inv(r, owed)
    ensures Inv(Looked(r, key), owed)
  {
    hide Partition, CacheOk, Looked;
    LookedCache(r, key);
    LookedReqs(r, key);
    SamePlaces(r, Looked(r, key));
  }

  /** `use_cache` of a request is switched off. */
  function CacheOff(r: R, i: nat): R
    requires i < |r.reqs|
  {
    r.(reqs := r.reqs[i := r.reqs[i].(useCache := false)])
  }

  lemma CacheOffKeeps(r: R, i: nat, owed: set<nat>)
    requires Inv(r, owed) && i < |r.reqs|
    ensures Inv(CacheOff(r, i), owed) && Load(CacheOff(r, i).reqs) == Load(r.reqs)
  {
    var t := CacheOff(r, i);
    LoadUpdate(r.reqs, i, t.reqs[i]);
    forall j | 0 <= j < |r.reqs| && r.reqs[j].running ensures Placed(t, j) {
      assert Placed(r, j);
    }
  }

  /** The first waiting request goes to worker `w`. */
  function Served(r: R, w: nat): R
    requires r.queue != [] && w < |r.workers| && r.queue[0] < |r.reqs|
  {
    Assigned(r.(queue := r.queue[1..]), w, r.queue[0])
  }

  lemma ServedKeeps(r: R, w: nat, owed: set<nat>)
    requires Inv(r, owed + {w}) && r.queue != [] && w < |r.workers| && r.workers[w] == None
    ensures r.queue[0] < |r.reqs|
    ensures Inv(Served(r, w), owed) && Load(Served(r, w).reqs) == Load(r.reqs)
  {
    var i := r.queue[0];
    assert i in r.queue;
    ServedPartition(r, w);
    AssignedInOrder(r.(queue := r.queue[1..]), w, i);
    var s := Served(r, w);
    LoadUpdate(r.reqs, i, s.reqs[i]);
    assert forall v | 0 <= v < |s.workers| && v != w :: s.workers[v] == r.workers[v];
  }

  lemma ServedPartition(r: R, w: nat)
    requires Partition(r) && r.queue != [] && w < |r.workers| && r.workers[w] == None && r.queue[0] < |r.reqs|
    ensures Partition(Served(r, w))
  {
    var i := r.queue[0];
    assert i in r.queue;
    var t := r.(queue := r.queue[1..]);
    assert forall x | x in t.queue :: x in r.queue && x > i;
    assert forall x | x in r.queue && x != i :: x in t.queue;
    forall j | 0 <= j < |r.reqs| && r.reqs[j].running && j != i ensures Placed(t, j) {
      assert Placed(r, j);
    }
    assert i !in r.cacheDelayed;
    AssignedPartition(t, w, i);
  }

  /** A worker that is busy again, or that nobody waits for, is no longer owed. */
  lemma OwedSettled(r: R, owed: set<nat>, w: nat)
    requires Inv(r, owed + {w}) && w < |r.workers| && (r.workers[w].Some? || r.queue == [])
    ensures Inv(r, owed)
  {
  }

  /** A worker is left by an exception: idle, if it is and somebody waits. */
  ghost function Lapsed(r: R, w: nat): set<nat> {
    if w < |r.workers| && r.workers[w] == None && r.queue != [] then r.lapsed + {w} else r.lapsed
  }

  lemma OwedLapsed(r: R, owed: set<nat>, w: nat)
    requires Inv(r, owed + {w})
    ensures Inv(r.(lapsed := Lapsed(r, w)), owed)
  {
    SamePlaces(r, r.(lapsed := Lapsed(r, w)));
  }

  lemma DepthApart(r: R, owed: set<nat>, depth: nat)
    requires Inv(r, owed)
    ensures Inv(r.(depth := depth), owed)
  {
    SamePlaces(r, r.(depth := depth));
  }

  /** The loop's clock moves on. */
  lemma TickKeeps(r: R, seconds: nat, owed: set<nat>)
    requires Inv(r, owed)
    ensures Inv(r.(now := r.now + seconds), owed)
  {
    SamePlaces(r, r.(now := r.now + seconds));
  }

  /** The `cache_limit` setter. */
  function Limited(r: R, limit: nat): R {
    r.(cfg := r.cfg.(limit := limit), cache := if |r.cache| > limit then map[] else r.cache)
  }

  lemma LimitedKeeps(r: R, limit: nat, owed: set<nat>)
    requires Inv(r, owed)
    ensures Inv(Limited(r, limit), owed)
  {
    SamePlaces(r, Limited(r, limit));
  }

  lemma ExpirationKeeps(r: R, seconds: nat, owed: set<nat>)
    requires Inv(r, owed)
    ensures Inv(r.(cfg := r.cfg.(expiration := seconds)), owed)
  {
    SamePlaces(r, r.(cfg := r.cfg.(expiration := seconds)));
  }

  /** `mark_bad_address`: the next address of the list, or again the first. */
  function Rotated(a: AddrInfo): AddrInfo {
    AddrList(a.list, if a.cur + 1 < |a.list| then a.cur + 1 else 0)
  }

  function Marked(r: R, key: Key, sockaddr: nat): R {
    if key in r.cache && r.cache[key].info.list[r.cache[key].info.cur].sockaddr == sockaddr
    then r.(cache := r.cache[key := r.cache[key].(info := Rotated(r.cache[key].info))])
    else r
  }

  lemma MarkedKeeps(r: R, key: Key, sockaddr: nat, owed: set<nat>)
    requires Inv(r, owed)
    ensures Inv(Marked(r, key, sockaddr), owed)
  {
    hide Partition;
    var m := Marked(r, key, sockaddr);
    SamePlaces(r, m);
    assert m.cache.Keys == r.cache.Keys;
    assert |m.cache| == |m.cache.Keys| && |r.cache| == |r.cache.Keys|;
  }

  lemma RollStopped(r: R, owed: set<nat>)
    requires Inv(r, owed) && r.queue == [] && !Busy(r)
    ensures Inv(r.(roll := false), owed)
  {
    SamePlaces(r, r.(roll := false));
  }
}
