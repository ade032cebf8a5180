/**
The pool of one-shot callbacks behind `Loop::delay`: `backend/Delayer.h` together with
the idle handle that `UVDelayer.h` starts and stops around it.

`Pool` is the pool as a value, with two history fields (`fired`, `dropped`) that the
program does not have.  `Delayer` is the object itself: its methods edit the two vectors
in place and compute with offsets, and each is proved to perform one `Pool` operation.
User code runs between two `Step`s of a call, so every claim about "any run" is a claim
about an arbitrary list of operations.
*/
module Delayers {
  import opened Basics

  datatype Entry<+T> = Entry(id: nat, cb: Option<T>, guard: Option<nat>)

  /** `base + 1, base + 2, ...`: the numbering the offset arithmetic of `cancel` relies on. */
  predicate Numbered<T>(list: seq<Entry<T>>, base: int) {
    forall k | 0 <= k < |list| :: list[k].id == base + 1 + k
  }

  function Nulled<T>(e: Entry<T>, id: nat): Entry<T> {
    if e.id == id then e.(cb := None) else e
  }

  /** Cancelling by search: every entry carrying `id` loses its callback. */
  function NullById<T>(list: seq<Entry<T>>, id: nat): (r: seq<Entry<T>>)
    ensures |r| == |list|
    ensures forall k | 0 <= k < |list| :: r[k] == Nulled(list[k], id)
  {
    seq(|list|, k requires 0 <= k < |list| => Nulled(list[k], id))
  }

  ghost predicate HasId<T>(list: seq<Entry<T>>, id: nat) {
    exists k | 0 <= k < |list| :: list[k].id == id
  }

  ghost predicate HasLive<T>(list: seq<Entry<T>>, id: nat) {
    exists k | 0 <= k < |list| :: list[k].id == id && list[k].cb.Some?
  }

  /**
  `callbacks` and `reserve` are the two vectors; `pos` is the index `i` of the loop in
  `call`, which has to be state because callbacks re-enter the pool; `calling` says a call
  is on the stack and `mark` is the last id handed out before it began.
  */
  datatype Pool<T> = Pool(
    callbacks: seq<Entry<T>>, reserve: seq<Entry<T>>, pos: nat, lastid: nat, idle: bool,
    calling: bool, mark: nat, fired: seq<nat>, dropped: set<nat>)
  {
    /** What has not been looked at yet, in the order in which it will be. */
    ghost function Rest(): seq<Entry<T>> {
      if pos <= |reserve| then reserve[pos..] + callbacks else callbacks
    }

    ghost predicate Shape() {
      && pos <= |reserve|
      && |reserve| + |callbacks| <= lastid
      && Numbered(callbacks, lastid - |callbacks|)
      && Numbered(reserve, lastid - |callbacks| - |reserve|)
      && (calling ==> mark == lastid - |callbacks|)
      && (!calling ==> reserve == [])
      && (calling || callbacks != [] ==> idle)
    }

    /** Ids handed out so far whose entry has been looked at by some call. */
    ghost function Seen(): int {
      lastid - |Rest()|
    }

    /** Every id is in exactly one of three places: fired, dropped, or still to come with a callback. */
    ghost predicate Accounted() requires Shape() {
      && Increasing(fired)
      && (forall k | 0 <= k < |fired| :: 1 <= fired[k] <= Seen())
      && (forall id | 1 <= id <= Seen() :: (id in fired) != (id in dropped))
      && (forall id | id in dropped :: 1 <= id <= lastid)
      && (forall k | 0 <= k < |Rest()| :: Rest()[k].cb.None? <==> Rest()[k].id in dropped)
    }

    ghost predicate Valid() { Shape() && Accounted() }

    ghost function Added(cb: T, guard: Option<nat>): Pool<T> {
      this.(callbacks := callbacks + [Entry(lastid + 1, Some(cb), guard)], lastid := lastid + 1, idle := true)
    }

    ghost function Cancelled(id: nat): Pool<T> {
      this.(callbacks := NullById(callbacks, id), reserve := NullById(reserve, id),
            dropped := if HasLive(Rest(), id) then dropped + {id} else dropped)
    }

    ghost function Begun(): Pool<T> {
      this.(callbacks := [], reserve := callbacks, pos := 0, calling := true, mark := lastid)
    }

    /** The entry at `pos` will be run, unless it was cancelled or its guard is among the `dead`. */
    ghost predicate Runs(dead: set<nat>)
      requires pos < |reserve|
    {
      reserve[pos].cb.Some? && !(reserve[pos].guard.Some? && reserve[pos].guard.value in dead)
    }

    ghost function Stepped(dead: set<nat>): Pool<T>
      requires pos < |reserve|
    {
      var e := reserve[pos];
      if Runs(dead) then this.(pos := pos + 1, fired := fired + [e.id])
      else this.(pos := pos + 1, dropped := dropped + {e.id})
    }

    ghost function Ended(): Pool<T>
      requires pos <= |reserve|
    {
      this.(callbacks := reserve[pos..] + callbacks, reserve := [], pos := 0, calling := false)
    }

    /** `handle_idle` after a call that did not throw. */
    ghost function Settled(): Pool<T> {
      this.(idle := callbacks != [])
    }
  }

  ghost function Fresh<T>(): Pool<T> {
    Pool([], [], 0, 0, false, false, 0, [], {})
  }

  lemma FreshValid<T>()
    ensures Fresh<T>().Valid() && Fresh<T>().Rest() == []
  {
  }

  datatype Op<T> =
    | Add(cb: T, guard: Option<nat>)
    | Cancel(id: nat)
    | Begin
    | Step(dead: set<nat>)
    | End(threw: bool)

  /**
  The idle handle starts a call, which asserts that it is not nested; a step needs an entry left; a normal
  end has none left.
  */
  ghost predicate Enabled<T>(p: Pool<T>, op: Op<T>)
    requires p.Shape()
  {
    match op
    case Add(_, _) => true
    case Cancel(_) => true
    case Begin => p.idle && !p.calling
    case Step(_) => p.calling && p.pos < |p.reserve|
    case End(threw) => p.calling && (threw || p.pos == |p.reserve|)
  }

  ghost function Apply<T>(p: Pool<T>, op: Op<T>): Pool<T>
    requires p.Shape() && Enabled(p, op)
  {
    match op
    case Add(cb, guard) => p.Added(cb, guard)
    case Cancel(id) => p.Cancelled(id)
    case Begin => p.Begun()
    case Step(dead) => p.Stepped(dead)
    case End(threw) => if threw then p.Ended() else p.Ended().Settled()
  }

  lemma RestNumbered<T>(p: Pool<T>)
    requires p.Shape()
    ensures Numbered(p.Rest(), p.Seen()) && 0 <= p.Seen() <= p.lastid
  {
  }

  lemma AddKeeps<T>(p: Pool<T>, cb: T, guard: Option<nat>)
    requires p.Valid()
    ensures p.Added(cb, guard).Valid()
    ensures p.Added(cb, guard).Rest() == p.Rest() + [Entry(p.lastid + 1, Some(cb), guard)]
  {
    RestNumbered(p);
    AddShape(p, cb, guard);
    hide Pool.Rest, Pool.Shape, Numbered;
    var rest := p.Rest();
    assert forall k | 0 <= k < |rest| :: p.Added(cb, guard).Rest()[k] == rest[k];
  }

  lemma AddShape<T>(p: Pool<T>, cb: T, guard: Option<nat>)
    requires p.Shape()
    ensures p.Added(cb, guard).Shape()
    ensures p.Added(cb, guard).Rest() == p.Rest() + [Entry(p.lastid + 1, Some(cb), guard)]
  {
    assert p.Added(cb, guard).Rest() == p.Rest() + [Entry(p.lastid + 1, Some(cb), guard)];
  }

  lemma BeginKeeps<T>(p: Pool<T>)
    requires p.Valid() && p.idle && !p.calling
    ensures p.Begun().Valid() && p.Begun().Rest() == p.Rest()
  {
    RestNumbered(p);
    assert p.Begun().Rest() == p.Rest();
  }

  lemma EndKeeps<T>(p: Pool<T>)
    requires p.Valid() && p.calling
    ensures p.Ended().Valid() && p.Ended().Rest() == p.Rest()
    ensures p.Ended().Settled().Valid() && p.Ended().Settled().Rest() == p.Rest()
  {
    RestNumbered(p);
    assert p.Ended().Rest() == p.Rest();
    assert p.Ended().Settled().Rest() == p.Rest();
  }

  lemma CancelKeeps<T>(p: Pool<T>, id: nat)
    requires p.Valid()
    ensures p.Cancelled(id).Valid()
    ensures p.Cancelled(id).Rest() == NullById(p.Rest(), id)
  {
    RestNumbered(p);
    CancelShape(p, id);
    hide Pool.Rest, Pool.Shape;
    CancelAccounted(p, id);
  }

  lemma CancelShape<T>(p: Pool<T>, id: nat)
    requires p.Shape()
    ensures p.Cancelled(id).Shape() && p.Cancelled(id).Rest() == NullById(p.Rest(), id)
  {
    assert p.Cancelled(id).Rest() == NullById(p.Rest(), id);
  }

  lemma CancelAccounted<T>(p: Pool<T>, id: nat)
    requires p.Valid() && Numbered(p.Rest(), p.Seen()) && 0 <= p.Seen() && p.Cancelled(id).Shape()
    requires p.Cancelled(id).Rest() == NullById(p.Rest(), id)
    ensures p.Cancelled(id).Accounted()
  {
    hide Pool.Rest, Pool.Shape, NullById;
    var q, rest := p.Cancelled(id), p.Rest();
    forall k | 0 <= k < |rest| ensures q.Rest()[k].cb.None? <==> q.Rest()[k].id in q.dropped {
      assert q.Rest()[k] == Nulled(rest[k], id);
      assert rest[k].id == id && rest[k].cb.Some? ==> HasLive(rest, id);
    }
    if HasLive(rest, id) {
      var k :| 0 <= k < |rest| && rest[k].id == id && rest[k].cb.Some?;
      assert p.Seen() < id <= p.lastid;
    }
  }

  lemma StepKeeps<T>(p: Pool<T>, dead: set<nat>)
    requires p.Valid() && p.calling && p.pos < |p.reserve|
    ensures p.Stepped(dead).Valid()
    ensures p.Rest() == [p.reserve[p.pos]] + p.Stepped(dead).Rest()
  {
    RestNumbered(p);
    StepShape(p, dead);
    hide Pool.Rest, Pool.Shape;
    StepAccounted(p, dead);
  }

  /** The next entry is called exactly if it was not cancelled and its guard is alive; otherwise it never will be. */
  lemma StepFires<T>(p: Pool<T>, dead: set<nat>)
    requires p.Valid() && p.calling && p.pos < |p.reserve|
    ensures var e, q := p.reserve[p.pos], p.Stepped(dead);
            && e.id !in p.fired
            && (e.id in q.fired <==> e.cb.Some? && (e.guard.Some? ==> e.guard.value !in dead))
            && (e.id in q.dropped <==> e.id !in q.fired)
            && (forall id | id != e.id :: (id in q.fired <==> id in p.fired) && (id in q.dropped <==> id in p.dropped))
  {
    RestNumbered(p);
    assert p.Rest()[0] == p.reserve[p.pos];
    hide Numbered, Pool.Shape;
  }

  /** A callback is dropped only by cancelling it, or when its turn comes and its guard is dead. */
  lemma WhyDropped<T>(p: Pool<T>, op: Op<T>, id: nat)
    requires p.Valid() && Enabled(p, op)
    ensures id in Apply(p, op).dropped && id !in p.dropped <==>
            || (op == Cancel(id) && HasLive(p.Rest(), id))
            || (op.Step? && p.reserve[p.pos].id == id && p.reserve[p.pos].cb.Some?
                && p.reserve[p.pos].guard.Some? && p.reserve[p.pos].guard.value in op.dead)
  {
    RestNumbered(p);
    if op.Step? {
      assert p.Rest()[0] == p.reserve[p.pos];
      StepFires(p, op.dead);
    } else if op.Cancel? && HasLive(p.Rest(), op.id) {
      var k :| 0 <= k < |p.Rest()| && p.Rest()[k].id == op.id && p.Rest()[k].cb.Some?;
    }
  }

  lemma StepShape<T>(p: Pool<T>, dead: set<nat>)
    requires p.Shape() && p.calling && p.pos < |p.reserve|
    ensures p.Stepped(dead).Shape() && p.Rest() == [p.reserve[p.pos]] + p.Stepped(dead).Rest()
  {
    assert p.Rest() == [p.reserve[p.pos]] + p.Stepped(dead).Rest();
  }

  lemma StepAccounted<T>(p: Pool<T>, dead: set<nat>)
    requires p.Valid() && p.pos < |p.reserve| && Numbered(p.Rest(), p.Seen()) && 0 <= p.Seen()
    requires p.Stepped(dead).Shape()
    requires p.Rest() == [p.reserve[p.pos]] + p.Stepped(dead).Rest()
    ensures p.Stepped(dead).Accounted()
  {
    hide Pool.Rest, Pool.Shape;
    var q := p.Stepped(dead);
    assert p.Rest()[0] == p.reserve[p.pos];
    forall k | 0 <= k < |q.Rest()| ensures q.Rest()[k].cb.None? <==> q.Rest()[k].id in q.dropped {
      assert q.Rest()[k] == p.Rest()[k + 1];
    }
    forall i | 1 <= i <= q.Seen() ensures (i in q.fired) != (i in q.dropped) {
      if i == q.Seen() { assert i == p.reserve[p.pos].id; }
    }
  }

  lemma ApplyKeeps<T>(p: Pool<T>, op: Op<T>)
    requires p.Valid() && Enabled(p, op)
    ensures Apply(p, op).Valid()
    ensures p.fired <= Apply(p, op).fired && p.dropped <= Apply(p, op).dropped
  {
    hide Numbered;
    match op
    case Add(cb, guard) => AddKeeps(p, cb, guard);
    case Cancel(id) => CancelKeeps(p, id);
    case Begin => BeginKeeps(p);
    case Step(dead) => StepKeeps(p, dead);
    case End(threw) => EndKeeps(p);
  }

  /** A run: the operations in order, each enabled where it happens. */
  ghost predicate Reaches<T>(p: Pool<T>, ops: seq<Op<T>>, q: Pool<T>)
    requires p.Shape()
    decreases |ops|
  {
    if ops == [] then p == q
    else Enabled(p, ops[0]) && Apply(p, ops[0]).Shape() && Reaches(Apply(p, ops[0]), ops[1..], q)
  }

  /**
  In every run the pool stays consistent: nothing that fired fires again or is forgotten,
  whatever is added or cancelled inside callbacks and whichever of them throw.
  */
  lemma {:induction false} RunsStayValid<T>(p: Pool<T>, ops: seq<Op<T>>, q: Pool<T>)
    requires p.Valid() && Reaches(p, ops, q)
    ensures q.Valid()
    ensures p.fired <= q.fired && p.dropped <= q.dropped && p.lastid <= q.lastid
    decreases |ops|
  {
    if ops != [] {
      ApplyKeeps(p, ops[0]);
      RunsStayValid(Apply(p, ops[0]), ops[1..], q);
    }
  }

  /**
  Order and at-most-once for the whole life of a pool: ids are handed out in add order, and
  the ids that fired form a strictly increasing list.  Whatever did not fire was dropped or is
  still waiting, so no callback is lost; in particular an exception leaves the unprocessed ones,
  older than anything added since, at the front.
  */
  lemma FiresInOrderOnce<T>(ops: seq<Op<T>>, q: Pool<T>)
    requires Reaches(Fresh(), ops, q)
    ensures Increasing(q.fired)
    ensures forall id | 1 <= id <= q.lastid && id !in q.fired && id !in q.dropped :: HasLive(q.Rest(), id)
    ensures forall id | id in q.fired :: id !in q.dropped && !HasLive(q.Rest(), id)
  {
    hide Reaches, Pool.Valid, HasLive;
    FreshValid<T>();
    RunsStayValid(Fresh(), ops, q);
    NoneForgotten(q);
  }

  /** An id handed out has fired, was dropped, or is still to come. */
  lemma NoneForgotten<T>(q: Pool<T>)
    requires q.Valid()
    ensures Increasing(q.fired)
    ensures forall id | 1 <= id <= q.lastid && id !in q.fired && id !in q.dropped :: HasLive(q.Rest(), id)
    ensures forall id | id in q.fired :: id !in q.dropped && !HasLive(q.Rest(), id)
  {
    RestNumbered(q);
    hide Pool.Rest, Pool.Shape;
    forall id | 1 <= id <= q.lastid && id !in q.fired && id !in q.dropped ensures HasLive(q.Rest(), id) {
      assert q.Rest()[id - q.Seen() - 1].id == id;
    }
  }

  /** While a call is on the stack it only ever runs ids handed out before it began. */
  lemma NeverInTheSameCall<T>(p: Pool<T>, dead: set<nat>, q: Pool<T>)
    requires p.Valid() && Enabled(p, Step(dead)) && q == p.Stepped(dead) && q.fired != p.fired
    ensures q.fired[|q.fired| - 1] <= p.mark
    ensures forall k | 0 <= k < |p.callbacks| :: p.mark < p.callbacks[k].id
  {
    assert p.reserve[p.pos].id <= p.mark;
  }

  /**
  A call that ends without throwing has dealt with everything that was waiting when it began:
  each id up to `mark` has fired or was dropped.
  */
  lemma NormalCallDrains<T>(p: Pool<T>)
    requires p.Valid() && Enabled(p, End(false))
    ensures forall id | 1 <= id <= p.mark :: (id in p.fired) != (id in p.dropped)
    ensures Apply(p, End(false)).idle <==> Apply(p, End(false)).callbacks != []
  {
    assert p.Rest() == p.callbacks;
  }

  /** Cancelling drops exactly the id asked for, and only if it is still to come. */
  lemma CancelDropsOnlyItsId<T>(p: Pool<T>, id: nat)
    requires p.Valid()
    ensures p.Cancelled(id).dropped - p.dropped <= {id}
    ensures id in p.Cancelled(id).dropped - p.dropped <==> p.Seen() < id <= p.lastid && id !in p.dropped
    ensures forall k | 0 <= k < |p.Rest()| && p.Rest()[k].id != id :: p.Cancelled(id).Rest()[k] == p.Rest()[k]
  {
    RestNumbered(p);
    CancelKeeps(p, id);
    if p.Seen() < id <= p.lastid && id !in p.dropped {
      assert p.Rest()[id - p.Seen() - 1].id == id;
    }
  }

  /** `Delayer` with the idle handle of `UVDelayer`; `idle` is whether that handle is active. */
  class Delayer<T> {
    var callbacks: seq<Entry<T>>
    var reserve: seq<Entry<T>>
    var pos: nat
    var lastid: nat
    var idle: bool
    ghost var calling: bool
    ghost var mark: nat
    ghost var fired: seq<nat>
    ghost var dropped: set<nat>

    ghost function View(): Pool<T>
      reads this
    {
      Pool(callbacks, reserve, pos, lastid, idle, calling, mark, fired, dropped)
    }

    constructor ()
      ensures View() == Fresh() && View().Valid()
    {
      callbacks, reserve, pos, lastid, idle := [], [], 0, 0, false;
      calling, mark, fired, dropped := false, 0, [], {};
    }

    method Add(cb: T, guard: Option<nat>) returns (id: nat)
      requires View().Valid()
      modifies this
      ensures View() == old(View()).Added(cb, guard) && View().Valid()
      ensures id == lastid == old(lastid) + 1
    {
      ApplyKeeps(View(), Op.Add(cb, guard));
      if |callbacks| == 0 {
        idle := true;
      }
      lastid := lastid + 1;
      callbacks := callbacks + [Entry(lastid, Some(cb), guard)];
      id := lastid;
    }

    /** The offset form of `_delayer_cancel` on one vector. */
    static method CancelIn(list: seq<Entry<T>>, id: nat, ghost base: int) returns (ok: bool, r: seq<Entry<T>>)
      requires Numbered(list, base)
      ensures ok <==> HasId(list, id)
      ensures r == NullById(list, id)
    {
      r := list;
      ok := false;
      if |list| == 0 || id < list[0].id {
        return;
      }
      var idx := id - list[0].id;
      if idx >= |list| {
        return;
      }
      assert list[idx].id == id;
      r := list[idx := list[idx].(cb := None)];
      ok := true;
    }

    /** Looks in one vector and then the other by offset, which comes to a search of both by id. */
    method Cancel(id: nat) returns (ok: bool)
      requires View().Valid()
      modifies this
      ensures View() == old(View()).Cancelled(id) && View().Valid()
      ensures ok <==> HasId(old(callbacks), id) || HasId(old(reserve), id)
    {
      ghost var p := View();
      CancelKeeps(p, id);
      ok, callbacks := CancelIn(callbacks, id, lastid - |callbacks|);
      if !ok {
        ok, reserve := CancelIn(reserve, id, lastid - |callbacks| - |reserve|);
      } else {
        assert reserve == NullById(reserve, id);
      }
      dropped := p.Cancelled(id).dropped;
    }

    /** The swap at the start of `call`. */
    method Begin()
      requires View().Valid() && idle && !calling
      modifies this
      ensures View() == old(View()).Begun() && View().Valid()
    {
      ApplyKeeps(View(), Op.Begin);
      callbacks, reserve, pos := reserve, callbacks, 0;
      calling, mark := true, lastid;
    }

    /** One turn of the loop in `call`, up to but not including the call of the callback. */
    method Step(dead: set<nat>) returns (fn: Option<T>, ghost id: nat)
      requires View().Valid() && calling && pos < |reserve|
      modifies this
      ensures View() == old(View()).Stepped(dead) && View().Valid()
      ensures fn == if old(View()).Runs(dead) then old(reserve[pos]).cb else None
      ensures id == old(reserve[pos]).id
    {
      StepKeeps(View(), dead);
      var row := reserve[pos];
      pos := pos + 1;
      id := row.id;
      if row.cb.None? || (row.guard.Some? && row.guard.value in dead) {
        dropped := dropped + {row.id};
        return None, id;
      }
      fired := fired + [row.id];
      fn := row.cb;
    }

    /** The guard of `call`: what was not reached goes back in front. */
    method End(threw: bool)
      requires View().Valid() && calling && (threw || pos == |reserve|)
      modifies this
      ensures View() == Apply(old(View()), Op.End(threw)) && View().Valid()
    {
      ApplyKeeps(View(), Op.End(threw));
      if pos < |reserve| {
        callbacks := reserve[pos..] + callbacks;
      } else {
        assert reserve[pos..] + callbacks == callbacks;
      }
      reserve := [];
      pos := 0;
      calling := false;
      if !threw && |callbacks| == 0 {
        idle := false;
      }
    }
  }
}
