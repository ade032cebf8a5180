/**
The request queue of `Queue.h` as a value, with the history and the ghost call stack its
properties are stated over.  `Queues` holds the object itself.

A request object is known by the number `count` had when it was pushed.  User code is a `Script`: what
one callback, run once, happens to do.  Scripts are arbitrary finite trees, so a claim for
all scripts is a claim for all user code that terminates.
*/
module QueueModel {
  import opened Basics
  import opened Delayers

  const SPLIT_RECURSION: nat := 300

  datatype Kind = Plain | Connect | Shutdown

  /** What `exec` does: leave the request with the backend, complete it at once, or delay its failure. */
  datatype Mode = InFlight | Completes(err: Err) | FailsLater(err: Err)

  datatype Spec = Spec(kind: Kind, mode: Mode, onNotify: Script)

  datatype Script =
    | Return
    | Throw
    | Push(spec: Spec, next: Script)
    | Reset(caught: bool, next: Script)
    | Defer(fn: Script, next: Script)

  datatype Request = Request(id: nat, spec: Spec, async: bool, delayId: nat, timedOut: bool)

  /** The closures the queue hands to the loop's delayer, and those of user code. */
  datatype Fn =
    | Notify(req: nat, err: Err, resume: bool)
    | Fail(req: nat, err: Err)
    | User(script: Script)

  /** A piece of queue code that is on the stack while user code or another request runs. */
  datatype Frame = InCallback(req: nat) | InCancel | InResume | InDelayed(resumes: bool)

  /**
  `told[id]` lists what was reported to request `id`'s callback and `said` the requests told, in
  order; `execs` lists the executed requests and `reexecs` how many of those were running already;
  `splits` counts the completions put off for being too deep; `cancels` counts cancels begun and
  `bound` is where the last of them stops; `thrown` counts exceptions of user code, `leak` the levels
  of `resume_recursion` they left behind.
  */
  datatype History = History(
    pushed: seq<Spec>, told: seq<seq<Err>>, said: seq<nat>, execs: seq<nat>, reexecs: nat, splits: nat,
    flagged: set<nat>, cancels: nat, bound: nat, thrown: nat, leak: nat, frames: seq<Frame>)

  datatype Q = Q(
    requests: seq<Request>, finalized: seq<Request>, locked: nat, cancelGen: nat,
    cancelTill: Option<nat>, resumeRecursion: nat, count: nat, pool: Pool<Fn>, h: History)

  ghost const NoHistory: History := History([], [], [], [], 0, 0, {}, 0, 0, 0, 0, [])

  ghost function Empty(): Q {
    Q([], [], 0, 0, None, 0, 0, Fresh(), NoHistory)
  }

  // ---------------------------------------------------------------- user code

  function Size(s: Script): nat {
    match s
    case Return => 0
    case Throw => 1
    case Push(spec, next) => 2 + Size(spec.onNotify) + Size(next)
    case Reset(_, next) => 1 + Size(next)
    case Defer(_, next) => 1 + Size(next)
  }

  /** Whether running `s` under a lock gets as far as a reset. */
  predicate Resets(s: Script) {
    match s
    case Return => false
    case Throw => false
    case Push(_, next) => Resets(next)
    case Reset(_, _) => true
    case Defer(_, next) => Resets(next)
  }

  /** Whether running `s`, if it does not reset, ends in an exception. */
  predicate Throws(s: Script) {
    match s
    case Return => false
    case Throw => true
    case Push(_, next) => Throws(next)
    case Reset(_, _) => false
    case Defer(_, next) => Throws(next)
  }

  /** Whether running `s` pushes something after its last reset. */
  predicate Leaves(s: Script) {
    match s
    case Return => false
    case Throw => false
    case Push(_, next) => Leaves(next) || !Resets(next)
    case Reset(caught, next) => caught && Leaves(next)
    case Defer(_, next) => Leaves(next)
  }

  /** What running code comes to, if it does not reset: what it pushes and delays, in order, and how often it throws. */
  datatype Deeds = Deeds(pushes: seq<Spec>, defers: seq<Script>, throws: nat)

  const NOTHING := Deeds([], [], 0)

  function Plus(d: Deeds, e: Deeds): Deeds {
    Deeds(d.pushes + e.pushes, d.defers + e.defers, d.throws + e.throws)
  }

  function Does(s: Script): Deeds {
    match s
    case Return => NOTHING
    case Throw => Deeds([], [], 1)
    case Push(spec, next) => Plus(Deeds([spec], [], 0), Does(next))
    case Reset(_, _) => NOTHING
    case Defer(fn, next) => Plus(Deeds([], [fn], 0), Does(next))
  }

  /** All that a script pushes, if nothing stops it. */
  function AllPushes(s: Script): seq<Spec> {
    match s
    case Return => []
    case Throw => []
    case Push(spec, next) => [spec] + AllPushes(next)
    case Reset(_, next) => AllPushes(next)
    case Defer(_, next) => AllPushes(next)
  }

  /** All that it delays. */
  function AllDefers(s: Script): seq<Script> {
    match s
    case Return => []
    case Throw => []
    case Push(_, next) => AllDefers(next)
    case Reset(_, next) => AllDefers(next)
    case Defer(fn, next) => [fn] + AllDefers(next)
  }

  /** Whether its last act is to throw. */
  predicate EndsThrowing(s: Script) {
    match s
    case Return => false
    case Throw => true
    case Push(_, next) => EndsThrowing(next)
    case Reset(_, next) => EndsThrowing(next)
    case Defer(_, next) => EndsThrowing(next)
  }

  /** One callback after the other. */
  function DoneBy(scripts: seq<Script>): Deeds {
    if scripts == [] then NOTHING else Plus(DoneBy(scripts[..|scripts| - 1]), Does(scripts[|scripts| - 1]))
  }

  lemma ThrowsOnce(s: Script)
    requires !Resets(s)
    ensures Does(s).throws == if Throws(s) then 1 else 0
  {
  }

  lemma {:induction false} DoneByAppend(s: seq<Script>, t: seq<Script>)
    ensures DoneBy(s + t) == Plus(DoneBy(s), DoneBy(t))
    decreases |t|
  {
    if t == [] {
      assert s + t == s;
    } else {
      var n := |t| - 1;
      assert (s + t)[..|s + t| - 1] == s + t[..n];
      DoneByAppend(s, t[..n]);
      PlusAssociative(DoneBy(s), DoneBy(t[..n]), Does(t[n]));
    }
  }

  lemma PlusAssociative(c: Deeds, d: Deeds, e: Deeds)
    ensures Plus(Plus(c, d), e) == Plus(c, Plus(d, e))
  {
  }

  /** Some of these callbacks throws. */
  ghost predicate AnyThrows(scripts: seq<Script>) {
    exists i | 0 <= i < |scripts| :: Throws(scripts[i])
  }

  lemma AnyThrowsLast(scripts: seq<Script>)
    requires scripts != []
    ensures var n := |scripts| - 1; AnyThrows(scripts) <==> AnyThrows(scripts[..n]) || Throws(scripts[n])
  {
    var n := |scripts| - 1;
    if AnyThrows(scripts[..n]) {
      var i :| 0 <= i < n && Throws(scripts[..n][i]);
      assert Throws(scripts[i]);
    }
    if AnyThrows(scripts) {
      var i :| 0 <= i < |scripts| && Throws(scripts[i]);
      assert i < n ==> Throws(scripts[..n][i]);
    }
  }

  /** An exception comes of callbacks that do not reset exactly if one of them throws. */
  lemma {:induction false} SomeThrows(scripts: seq<Script>)
    requires forall i | 0 <= i < |scripts| :: !Resets(scripts[i])
    ensures DoneBy(scripts).throws > 0 <==> AnyThrows(scripts)
  {
    hide AnyThrows, Throws, Does;
    if scripts == [] {
      NoneThrows();
    } else {
      var n := |scripts| - 1;
      SomeThrows(scripts[..n]);
      ThrowsOnce(scripts[n]);
      AnyThrowsLast(scripts);
    }
  }

  lemma NoneThrows()
    ensures !AnyThrows([])
  {
  }

  function Load(rs: seq<Request>): nat {
    if rs == [] then 0 else 1 + Size(rs[0].spec.onNotify) + Load(rs[1..])
  }

  lemma {:induction false} LoadAppend(rs: seq<Request>, r: Request)
    ensures Load(rs + [r]) == Load(rs) + 1 + Size(r.spec.onNotify)
  {
    if rs != [] {
      assert (rs + [r])[1..] == rs[1..] + [r];
      LoadAppend(rs[1..], r);
    }
  }

  ghost function TotalLoad(q: Q): nat {
    Load(q.requests) + Load(q.finalized)
  }

  // ---------------------------------------------------------------- the call stack

  ghost function Locks(frames: seq<Frame>): nat {
    if frames == [] then 0
    else
      var f := frames[|frames| - 1];
      Locks(frames[..|frames| - 1]) + if f.InCallback? || f.InCancel? then 1 else 0
  }

  ghost function Resumes(frames: seq<Frame>): nat {
    if frames == [] then 0
    else Resumes(frames[..|frames| - 1]) + if frames[|frames| - 1].InResume? then 1 else 0
  }

  // ---------------------------------------------------------------- delayed callbacks

  predicate IsNote(e: Entry<Fn>) { e.cb.Some? && e.cb.value.Notify? }
  predicate IsFail(e: Entry<Fn>) { e.cb.Some? && e.cb.value.Fail? }

  /** The delayed notifications among `list`, in firing order. */
  ghost function Notes(list: seq<Entry<Fn>>): seq<Entry<Fn>> {
    if list == [] then []
    else (if IsNote(list[0]) then [list[0]] else []) + Notes(list[1..])
  }

  lemma {:induction false} NotesAppend(list: seq<Entry<Fn>>, e: Entry<Fn>)
    ensures Notes(list + [e]) == Notes(list) + if IsNote(e) then [e] else []
  {
    if list != [] {
      assert (list + [e])[1..] == list[1..] + [e];
      NotesAppend(list[1..], e);
    } else {
      assert (list + [e])[1..] == [];
    }
  }

  /** Clearing something that is not a notification leaves the notifications alone. */
  lemma {:induction false} NotesOthersCleared(list: seq<Entry<Fn>>, id: nat)
    requires forall k | 0 <= k < |list| && list[k].id == id :: !IsNote(list[k])
    ensures Notes(NullById(list, id)) == Notes(list)
  {
    if list != [] {
      assert NullById(list, id)[1..] == NullById(list[1..], id);
      NotesOthersCleared(list[1..], id);
    }
  }

  /** Clearing the first notification leaves the others. */
  lemma {:induction false} NotesFirstCleared(list: seq<Entry<Fn>>, base: int)
    requires Numbered(list, base) && Notes(list) != []
    ensures Notes(NullById(list, Notes(list)[0].id)) == Notes(list)[1..]
  {
    var id := Notes(list)[0].id;
    assert NullById(list, id)[1..] == NullById(list[1..], id);
    if IsNote(list[0]) {
      NotesOthersCleared(list[1..], id);
    } else {
      NotesFirstCleared(list[1..], base + 1);
      NotesMember(list[1..]);
    }
  }

  lemma {:induction false} NotesMember(list: seq<Entry<Fn>>)
    ensures forall k | 0 <= k < |Notes(list)| :: Notes(list)[k] in list && IsNote(Notes(list)[k])
  {
    if list != [] {
      NotesMember(list[1..]);
    }
  }

  predicate IsUser(e: Entry<Fn>) { e.cb.Some? && e.cb.value.User? }

  /** The delayed user code among `list`, in firing order. */
  ghost function Users(list: seq<Entry<Fn>>): seq<Script> {
    if list == [] then []
    else (if IsUser(list[0]) then [list[0].cb.value.script] else []) + Users(list[1..])
  }

  lemma {:induction false} UsersAppend(list: seq<Entry<Fn>>, e: Entry<Fn>)
    ensures Users(list + [e]) == Users(list) + if IsUser(e) then [e.cb.value.script] else []
  {
    if list != [] {
      assert (list + [e])[1..] == list[1..] + [e];
      UsersAppend(list[1..], e);
    } else {
      assert (list + [e])[1..] == [];
    }
  }

  /** Clearing something that is not user code leaves the user code alone. */
  lemma {:induction false} UsersOthersCleared(list: seq<Entry<Fn>>, id: nat)
    requires forall k | 0 <= k < |list| && list[k].id == id :: !IsUser(list[k])
    ensures Users(NullById(list, id)) == Users(list)
  {
    if list != [] {
      assert NullById(list, id)[1..] == NullById(list[1..], id);
      UsersOthersCleared(list[1..], id);
    }
  }

  // ---------------------------------------------------------------- the invariant

  ghost function Completed(q: Q): nat {
    if |q.requests| <= |q.h.pushed| then |q.h.pushed| - |q.requests| else 0
  }

  ghost predicate Started(q: Q) {
    q.requests != [] && Completed(q) in q.h.execs
  }

  ghost predicate InList(list: seq<Request>, id: nat) {
    exists k | 0 <= k < |list| :: list[k].id == id
  }

  /** `requests` is what was pushed and not completed, in order; `finalized` are completed ones, in order. */
  ghost predicate Listed(q: Q) {
    && |q.requests| <= |q.h.pushed| == |q.h.told| == q.count
    && (forall i | 0 <= i < |q.requests| ::
          q.requests[i].id == Completed(q) + i && q.requests[i].spec == q.h.pushed[Completed(q) + i])
    && (forall i | 0 <= i < |q.requests| :: q.requests[i].timedOut <==> q.requests[i].id in q.h.flagged)
    && (forall id | id in q.h.flagged :: id < |q.h.pushed|)
    && (forall i | 0 <= i < |q.finalized| :: q.finalized[i].id < Completed(q))
    && (forall i, j | 0 <= i < j < |q.finalized| :: q.finalized[i].id < q.finalized[j].id)
  }

  /** A completed request was told its outcome exactly once, unless that is still delayed. */
  ghost predicate ToldOnce(q: Q) {
    forall id | 0 <= id < |q.h.told| ::
      |q.h.told[id]| == if id < Completed(q) && !InList(q.finalized, id) then 1 else 0
  }

  /**
  What waits in the loop: notifications exactly for `finalized`, in that order, and a failure only of the
  head, with the error it was executed to fail with.
  */
  ghost predicate Waiting(requests: seq<Request>, finalized: seq<Request>, rest: seq<Entry<Fn>>, lastid: nat) {
    && NotesFor(Notes(rest), finalized)
    && (forall k | 0 <= k < |rest| :: rest[k].guard == None)
    && (forall k | 0 <= k < |rest| && IsFail(rest[k]) ::
          && requests != [] && rest[k].id == requests[0].delayId && rest[k].cb.value.req == requests[0].id
          && requests[0].spec.mode == FailsLater(rest[k].cb.value.err))
    && (forall k | 0 <= k < |rest| && requests != [] && rest[k].id == requests[0].delayId && rest[k].cb.Some? ::
          IsFail(rest[k]))
    && (requests != [] ==> requests[0].delayId <= lastid)
    && (forall i | 1 <= i < |requests| :: requests[i].delayId == 0)
  }

  ghost predicate NotesFor(notes: seq<Entry<Fn>>, finalized: seq<Request>) {
    && |notes| == |finalized|
    && (forall k | 0 <= k < |finalized| ::
          && IsNote(notes[k])
          && notes[k].id == finalized[k].delayId
          && notes[k].cb.value.req == finalized[k].id)
  }

  ghost predicate Timed(requests: seq<Request>, finalized: seq<Request>, pool: Pool<Fn>) {
    pool.Valid() && Waiting(requests, finalized, pool.Rest(), pool.lastid)
  }

  /** The counters agree with the stack, and the stack is bounded. */
  ghost predicate Counted(q: Q) {
    && q.locked == Locks(q.h.frames)
    && q.resumeRecursion == Resumes(q.h.frames) + q.h.leak
    && q.resumeRecursion <= SPLIT_RECURSION + 1
    && (q.h.thrown == 0 ==> q.h.leak == 0)
    && (q.cancelTill.Some? ==> q.locked > 0 && Completed(q) <= q.cancelTill.value < |q.h.pushed|)
  }

  /** Requests are executed in push order and only while first; each once, unless a resume met a running one. */
  ghost predicate Serial(q: Q) {
    && (forall i | 0 <= i < |q.h.execs| :: q.h.execs[i] <= Completed(q) && q.h.execs[i] < |q.h.pushed|)
    && (forall i, j | 0 <= i < j < |q.h.execs| :: q.h.execs[i] <= q.h.execs[j])
    && (q.h.reexecs == 0 <==> Increasing(q.h.execs))
  }

  ghost predicate ResumePending(rest: seq<Entry<Fn>>) {
    exists k | 0 <= k < |rest| :: IsNote(rest[k]) && rest[k].cb.value.resume
  }

  /** Whoever waits has been started, or a resume is scheduled. */
  ghost predicate Live(q: Q) {
    q.requests != [] ==> Started(q) || ResumePending(q.pool.Rest())
  }

  /** `pushing`: the only request is the one a `push` on the stack is still executing. */
  ghost predicate Marked(q: Q, pushing: bool) {
    && (pushing ==> |q.requests| == 1 && q.locked == 0)
    && (forall i | 0 <= i < |q.requests| :: q.requests[i].async <==> !pushing)
  }

  ghost predicate Core(q: Q, pushing: bool) {
    && Listed(q) && ToldOnce(q) && Timed(q.requests, q.finalized, q.pool)
    && Counted(q) && Serial(q) && Marked(q, pushing)
  }

  ghost predicate Inv(q: Q) { Core(q, false) }

  // ---------------------------------------------------------------- the pieces of queue code

  ghost function Pushed(q: Q, spec: Spec, async: bool): Q {
    q.(requests := q.requests + [Request(q.count, spec, async, 0, false)], count := q.count + 1,
       h := q.h.(pushed := q.h.pushed + [spec], told := q.h.told + [[]]))
  }

  ghost function Executed(q: Q): Q {
    q.(h := q.h.(execs := q.h.execs + [Completed(q)], reexecs := q.h.reexecs + if Started(q) then 1 else 0))
  }

  ghost function DelayCleared(p: Pool<Fn>, r: Request): Pool<Fn> {
    if r.delayId != 0 then p.Cancelled(r.delayId) else p
  }

  ghost function FailScheduled(q: Q, err: Err): Q
    requires q.requests != []
  {
    var r := q.requests[0];
    var p := DelayCleared(q.pool, r);
    q.(requests := q.requests[0 := r.(delayId := p.lastid + 1)], pool := p.Added(Fail(r.id, err), None))
  }

  /** All that `exec` does when a `push` called it: no user code can run. */
  ghost function ExecutedByPush(q: Q): Q
    requires q.requests != []
  {
    var e := Executed(q);
    match q.requests[0].spec.mode
    case InFlight => e
    case Completes(err) => Deferred(e, err, q.resumeRecursion > SPLIT_RECURSION)
    case FailsLater(err) => FailScheduled(e, err)
  }

  function WithLastAsync(rs: seq<Request>): seq<Request>
    requires rs != []
  {
    rs[|rs| - 1 := rs[|rs| - 1].(async := true)]
  }

  ghost function MarkedAsync(q: Q): Q
    requires q.requests != [] || q.finalized != []
  {
    if q.requests != [] then q.(requests := WithLastAsync(q.requests))
    else q.(finalized := WithLastAsync(q.finalized))
  }

  /** The whole of `push`. */
  ghost function PushDone(q: Q, spec: Spec): Q {
    if q.requests == [] && q.locked == 0 then MarkedAsync(ExecutedByPush(Pushed(q, spec, false)))
    else Pushed(q, spec, true)
  }

  ghost function Popped(q: Q): Q
    requires q.requests != []
  {
    var r := q.requests[0];
    q.(cancelTill := if q.cancelTill == Some(r.id) then None else q.cancelTill,
       pool := DelayCleared(q.pool, r), requests := q.requests[1..])
  }

  /** The head is completed and its notification delayed. */
  ghost function Deferred(q: Q, err: Err, resume: bool): Q
    requires q.requests != []
  {
    var r := q.requests[0];
    var p := Popped(q);
    p.(finalized := p.finalized + [r.(delayId := p.pool.lastid + 1)],
       pool := p.pool.Added(Notify(r.id, err, resume), None),
       h := p.h.(splits := p.h.splits + if resume then 1 else 0))
  }

  ghost function Told(h: History, id: nat, err: Err): History
    requires id < |h.told|
  {
    h.(told := h.told[id := h.told[id] + [err]], said := h.said + [id])
  }

  ghost function Opened(q: Q, f: Frame): Q {
    q.(locked := if f.InCallback? || f.InCancel? then q.locked + 1 else q.locked,
       resumeRecursion := if f.InResume? then q.resumeRecursion + 1 else q.resumeRecursion,
       h := q.h.(frames := q.h.frames + [f]))
  }

  /** The head is completed and told `err`. */
  ghost function Answered(q: Q, err: Err): Q
    requires q.requests != [] && q.requests[0].id < |q.h.told|
  {
    var p := Popped(q);
    p.(h := Told(p.h, q.requests[0].id, err))
  }

  /** The same with its callback on the stack. */
  ghost function Entered(q: Q, err: Err): Q
    requires q.requests != [] && q.requests[0].id < |q.h.told|
  {
    Opened(Answered(q, err), InCallback(q.requests[0].id))
  }

  /** The innermost frame returns. */
  ghost function Closed(q: Q): Q
    requires q.h.frames != []
  {
    var n := |q.h.frames| - 1;
    var f := q.h.frames[n];
    q.(locked := if (f.InCallback? || f.InCancel?) && q.locked > 0 then q.locked - 1 else q.locked,
       resumeRecursion := if f.InResume? && q.resumeRecursion > 0 then q.resumeRecursion - 1 else q.resumeRecursion,
       h := q.h.(frames := q.h.frames[..n]))
  }

  /** The innermost frame, a resume, is unwound by an exception. */
  ghost function Unwound(q: Q): Q
    requires q.h.frames != []
  {
    q.(h := q.h.(frames := q.h.frames[..|q.h.frames| - 1], leak := q.h.leak + 1))
  }

  ghost function CancelBegun(q: Q, till: Option<nat>): Q {
    var p := Opened(q, InCancel);
    p.(cancelTill := if till.Some? then till
                     else if q.requests == [] then None
                     else Some(q.requests[|q.requests| - 1].id),
       h := p.h.(cancels := q.h.cancels + 1, bound := if till.Some? then till.value + 1 else |q.h.pushed|))
  }

  /** A finalized request is taken out by a cancel and told so. */
  ghost function FinalizedTaken(q: Q): Q
    requires q.finalized != [] && q.finalized[0].id < |q.h.told|
  {
    var r := q.finalized[0];
    q.(finalized := q.finalized[1..], pool := DelayCleared(q.pool, r), h := Told(q.h, r.id, Canceled))
  }

  /** The delayed notification has started: its request is told. */
  ghost function NoteFired(s: Q, err: Err, resume: bool): Q
    requires s.finalized != [] && s.finalized[0].id < |s.h.told|
  {
    Opened(s.(finalized := s.finalized[1..], h := Told(s.h, s.finalized[0].id, err)), InDelayed(resume))
  }

  /** User code throws. */
  ghost function Thrown(q: Q): Q {
    q.(h := q.h.(thrown := q.h.thrown + 1))
  }

  // ---------------------------------------------------------------- each piece keeps the invariant

  lemma FramePushed(frames: seq<Frame>, f: Frame)
    ensures Locks(frames + [f]) == Locks(frames) + if f.InCallback? || f.InCancel? then 1 else 0
    ensures Resumes(frames + [f]) == Resumes(frames) + if f.InResume? then 1 else 0
  {
    assert (frames + [f])[..|frames|] == frames;
  }

  lemma PushedKeeps(q: Q, spec: Spec, pushing: bool)
    requires Inv(q)
    requires pushing ==> q.requests == [] && q.locked == 0
    ensures Core(Pushed(q, spec, !pushing), pushing)
    ensures q.requests != [] ==> (Live(Pushed(q, spec, !pushing)) <==> Live(q))
  {
    hide ToldOnce, Waiting, Pool.Valid;
    NoZeroIds(q.pool);
    PushedTold(q, spec, pushing);
    var r := Pushed(q, spec, !pushing).requests[|q.requests|];
    PushedWaiting(q.requests, q.finalized, q.pool.Rest(), q.pool.lastid, r);
  }

  lemma PushedTold(q: Q, spec: Spec, pushing: bool)
    requires Listed(q) && ToldOnce(q)
    ensures ToldOnce(Pushed(q, spec, !pushing))
  {
    assert Completed(Pushed(q, spec, !pushing)) == Completed(q);
  }

  lemma PushedWaiting(requests: seq<Request>, finalized: seq<Request>, rest: seq<Entry<Fn>>, lastid: nat, r: Request)
    requires Waiting(requests, finalized, rest, lastid) && r.delayId == 0
    requires forall k | 0 <= k < |rest| :: 0 < rest[k].id
    ensures Waiting(requests + [r], finalized, rest, lastid)
  {
  }

  lemma ExecutedListed(q: Q, pushing: bool)
    requires Core(q, pushing)
    ensures Listed(Executed(q)) && ToldOnce(Executed(q))
  {
    hide Timed, Serial, Counted;
  }

  lemma ExecutedSerial(q: Q, pushing: bool)
    requires Core(q, pushing) && q.requests != []
    ensures Serial(Executed(q))
  {
    hide Timed, ToldOnce, Counted;
    var e, n := Executed(q), |q.h.execs|;
    assert e.h.execs[n] == Completed(q) && e.h.execs[..n] == q.h.execs;
    if Started(q) {
      var i :| 0 <= i < n && q.h.execs[i] == Completed(q);
      assert e.h.execs[i] == e.h.execs[n];
    } else {
      assert forall i | 0 <= i < n :: e.h.execs[i] < e.h.execs[n];
    }
    if Increasing(e.h.execs) {
      assert forall i, j | 0 <= i < j < n :: e.h.execs[i] == q.h.execs[i] && e.h.execs[j] == q.h.execs[j];
    }
  }

  lemma ExecutedKeeps(q: Q, pushing: bool)
    requires Core(q, pushing) && q.requests != []
    ensures Core(Executed(q), pushing) && Started(Executed(q))
  {
    hide Timed, ToldOnce, Listed, Serial;
    ExecutedListed(q, pushing);
    ExecutedSerial(q, pushing);
    assert Executed(q).h.execs[|q.h.execs|] == Completed(q);
  }

  /** Clearing the head's own delay takes away its delayed failure and nothing else. */
  lemma WaitingPopped(requests: seq<Request>, finalized: seq<Request>, rest: seq<Entry<Fn>>, lastid: nat)
    requires Waiting(requests, finalized, rest, lastid) && requests != []
    requires forall k | 0 <= k < |rest| :: 0 < rest[k].id
    ensures Waiting(requests[1..], finalized, NullById(rest, requests[0].delayId), lastid)
    ensures forall k | 0 <= k < |rest| :: !IsFail(NullById(rest, requests[0].delayId)[k])
    ensures ResumePending(rest) ==> ResumePending(NullById(rest, requests[0].delayId))
  {
    var id := requests[0].delayId;
    var cleared := NullById(rest, id);
    NotesOthersCleared(rest, id);
    if ResumePending(rest) {
      var k :| 0 <= k < |rest| && IsNote(rest[k]) && rest[k].cb.value.resume;
      assert cleared[k] == rest[k];
    }
  }

  lemma HeadCleared(requests: seq<Request>, finalized: seq<Request>, p: Pool<Fn>)
    requires Timed(requests, finalized, p) && requests != []
    ensures var c := DelayCleared(p, requests[0]);
            c.Valid() && c.lastid == p.lastid && c.Rest() == NullById(p.Rest(), requests[0].delayId)
  {
    hide Waiting, Pool.Shape, Pool.Accounted;
    var id := requests[0].delayId;
    if id != 0 {
      CancelKeeps(p, id);
    } else {
      NoZeroIds(p);
      assert NullById(p.Rest(), id) == p.Rest();
    }
  }

  lemma NoZeroIds(p: Pool<Fn>)
    requires p.Valid()
    ensures forall k | 0 <= k < |p.Rest()| :: 0 < p.Rest()[k].id <= p.lastid
  {
    RestNumbered(p);
  }

  lemma WaitingAdded(requests: seq<Request>, finalized: seq<Request>, rest: seq<Entry<Fn>>, lastid: nat, e: Entry<Fn>)
    requires Waiting(requests, finalized, rest, lastid)
    requires e.id == lastid + 1 && e.guard == None && e.cb.Some? && e.cb.value.User?
    ensures Waiting(requests, finalized, rest + [e], lastid + 1)
    ensures ResumePending(rest) ==> ResumePending(rest + [e])
  {
    NotesAppend(rest, e);
    if ResumePending(rest) {
      var k :| 0 <= k < |rest| && IsNote(rest[k]) && rest[k].cb.value.resume;
      assert (rest + [e])[k] == rest[k];
    }
  }

  /** A delayed user callback changes nothing the queue cares about. */
  lemma UserScheduledKeeps(q: Q, fn: Script)
    requires Inv(q)
    ensures Inv(q.(pool := q.pool.Added(User(fn), None)))
    ensures ResumePending(q.pool.Rest()) ==> ResumePending(q.pool.Added(User(fn), None).Rest())
  {
    hide Pool.Accounted, Pool.Shape, Waiting;
    AddKeeps(q.pool, User(fn), None);
    WaitingAdded(q.requests, q.finalized, q.pool.Rest(), q.pool.lastid, Entry(q.pool.lastid + 1, Some(User(fn)), None));
  }

  lemma WaitingFail(requests: seq<Request>, finalized: seq<Request>, rest: seq<Entry<Fn>>, lastid: nat, err: Err)
    requires requests != [] && Waiting(requests[1..], finalized, rest, lastid)
    requires requests[0].spec.mode == FailsLater(err)
    requires forall i | 1 <= i < |requests| :: requests[i].delayId == 0
    requires forall k | 0 <= k < |rest| :: !IsFail(rest[k]) && rest[k].id <= lastid
    ensures var e := Entry(lastid + 1, Some(Fail(requests[0].id, err)), None);
            Waiting(requests[0 := requests[0].(delayId := lastid + 1)], finalized, rest + [e], lastid + 1)
  {
    NotesAppend(rest, Entry(lastid + 1, Some(Fail(requests[0].id, err)), None));
  }

  lemma FailScheduledKeeps(q: Q, err: Err, pushing: bool)
    requires Core(q, pushing) && q.requests != [] && q.requests[0].spec.mode == FailsLater(err)
    ensures Core(FailScheduled(q, err), pushing)
    ensures Started(q) ==> Started(FailScheduled(q, err))
  {
    hide Timed, Listed, ToldOnce, Serial, Counted, Marked;
    FailScheduledListed(q, err, pushing);
    FailScheduledTimed(q, err);
  }

  lemma FailScheduledTimed(q: Q, err: Err)
    requires Timed(q.requests, q.finalized, q.pool) && q.requests != [] && q.requests[0].spec.mode == FailsLater(err)
    ensures var s := FailScheduled(q, err); Timed(s.requests, s.finalized, s.pool)
  {
    hide Pool.Valid, Pool.Rest;
    var r := q.requests[0];
    HeadCleared(q.requests, q.finalized, q.pool);
    NoZeroIds(q.pool);
    WaitingPopped(q.requests, q.finalized, q.pool.Rest(), q.pool.lastid);
    var p := DelayCleared(q.pool, r);
    NoZeroIds(p);
    AddKeeps(p, Fail(r.id, err), None);
    WaitingFail(q.requests, q.finalized, p.Rest(), p.lastid, err);
  }

  lemma FailScheduledListed(q: Q, err: Err, pushing: bool)
    requires Core(q, pushing) && q.requests != []
    ensures var s := FailScheduled(q, err); Listed(s) && ToldOnce(s) && Counted(s) && Serial(s) && Marked(s, pushing)
    ensures Started(q) ==> Started(FailScheduled(q, err))
  {
    hide Timed, DelayCleared, Pool.Added;
    var s := FailScheduled(q, err);
    assert Completed(s) == Completed(q);
    assert forall i | 0 <= i < |q.requests| :: s.requests[i] == q.requests[i].(delayId := s.requests[i].delayId);
  }

  lemma WaitingNoted(requests: seq<Request>, finalized: seq<Request>, rest: seq<Entry<Fn>>, lastid: nat,
                     r: Request, err: Err, resume: bool)
    requires Waiting(requests, finalized, rest, lastid)
    ensures var e := Entry(lastid + 1, Some(Notify(r.id, err, resume)), None);
            && Waiting(requests, finalized + [r.(delayId := lastid + 1)], rest + [e], lastid + 1)
            && (resume ==> ResumePending(rest + [e]))
  {
    var e := Entry(lastid + 1, Some(Notify(r.id, err, resume)), None);
    NotesAppend(rest, e);
    assert (rest + [e])[|rest|] == e;
  }

  lemma DeferredKeeps(q: Q, err: Err, resume: bool, pushing: bool)
    requires Core(q, pushing) && q.requests != []
    ensures Inv(Deferred(q, err, resume)) && (resume || pushing ==> Live(Deferred(q, err, resume)))
  {
    hide Pool.Accounted, Pool.Shape, Waiting, Listed, ToldOnce, Counted, Serial;
    var r := q.requests[0];
    HeadCleared(q.requests, q.finalized, q.pool);
    NoZeroIds(q.pool);
    WaitingPopped(q.requests, q.finalized, q.pool.Rest(), q.pool.lastid);
    var p := DelayCleared(q.pool, r);
    AddKeeps(p, Notify(r.id, err, resume), None);
    WaitingNoted(q.requests[1..], q.finalized, p.Rest(), p.lastid, r, err, resume);
    DeferredListed(q, err, resume, pushing);
    DeferredCounted(q, err, resume, pushing);
  }

  lemma DeferredListed(q: Q, err: Err, resume: bool, pushing: bool)
    requires Core(q, pushing) && q.requests != []
    ensures var s := Deferred(q, err, resume); Listed(s) && ToldOnce(s)
  {
    hide Timed, Counted, Serial, Marked;
    var s := Deferred(q, err, resume);
    assert Completed(s) == Completed(q) + 1;
    assert s.finalized[|q.finalized|].id == Completed(q);
    forall id | 0 <= id < |s.h.told|
      ensures InList(s.finalized, id) <==> InList(q.finalized, id) || id == Completed(q)
    {
      if InList(q.finalized, id) {
        var k :| 0 <= k < |q.finalized| && q.finalized[k].id == id;
        assert s.finalized[k].id == id;
      }
    }
  }

  lemma DeferredCounted(q: Q, err: Err, resume: bool, pushing: bool)
    requires Core(q, pushing) && q.requests != []
    ensures var s := Deferred(q, err, resume); Counted(s) && Serial(s)
  {
    hide Timed, ToldOnce;
    var s := Deferred(q, err, resume);
    assert Completed(s) == Completed(q) + 1;
  }

  lemma EnteredKeeps(q: Q, err: Err)
    requires Core(q, false) && q.requests != []
    ensures Inv(Entered(q, err))
  {
    hide Pool.Accounted, Pool.Shape, Waiting, Counted, Serial;
    HeadCleared(q.requests, q.finalized, q.pool);
    NoZeroIds(q.pool);
    WaitingPopped(q.requests, q.finalized, q.pool.Rest(), q.pool.lastid);
    EnteredListed(q, err);
    EnteredCounted(q, err);
  }

  lemma EnteredListed(q: Q, err: Err)
    requires Core(q, false) && q.requests != []
    ensures Listed(Entered(q, err)) && ToldOnce(Entered(q, err))
  {
    hide Timed, Counted, Serial, Marked;
    assert Completed(Entered(q, err)) == Completed(q) + 1;
    assert !InList(q.finalized, q.requests[0].id);
  }

  lemma EnteredCompleted(q: Q, err: Err)
    requires Listed(q) && q.requests != [] && q.requests[0].id < |q.h.told|
    ensures Completed(Entered(q, err)) == Completed(q) + 1
  {
  }

  lemma EnteredSerial(q: Q, err: Err)
    requires Listed(q) && Serial(q) && q.requests != [] && q.requests[0].id < |q.h.told|
    ensures Serial(Entered(q, err))
  {
    EnteredCompleted(q, err);
    hide Listed;
  }

  lemma EnteredCounted(q: Q, err: Err)
    requires Core(q, false) && q.requests != []
    ensures Counted(Entered(q, err)) && Serial(Entered(q, err)) && Entered(q, err).locked == q.locked + 1
    ensures Completed(Entered(q, err)) == Completed(q) + 1
  {
    hide Timed, ToldOnce, Serial, Marked, Counted, Entered;
    EnteredCompleted(q, err);
    EnteredSerial(q, err);
    EnteredFrames(q, err);
  }

  lemma EnteredFrames(q: Q, err: Err)
    requires Counted(q) && q.requests != [] && q.requests[0].id == Completed(q) < |q.h.told|
    requires Completed(Entered(q, err)) == Completed(q) + 1
    ensures Counted(Entered(q, err)) && Entered(q, err).locked == q.locked + 1
  {
    hide DelayCleared, Completed, Locks, Resumes;
    FramePushed(q.h.frames, InCallback(q.requests[0].id));
  }

  lemma WaitingTaken(requests: seq<Request>, finalized: seq<Request>, rest: seq<Entry<Fn>>, lastid: nat, base: int)
    requires Waiting(requests, finalized, rest, lastid) && Numbered(rest, base) && finalized != []
    ensures Waiting(requests, finalized[1..], NullById(rest, finalized[0].delayId), lastid)
    ensures finalized[0].delayId in set e | e in rest :: e.id
  {
    NotesFirstCleared(rest, base);
    NotesMember(rest);
    assert Notes(rest)[0] in rest;
  }

  lemma FinalizedTakenKeeps(q: Q)
    requires Inv(q) && q.finalized != [] && q.locked > 0
    ensures Inv(FinalizedTaken(q))
  {
    hide Pool.Accounted, Pool.Shape, Waiting, Listed, ToldOnce;
    var r := q.finalized[0];
    RestNumbered(q.pool);
    NoZeroIds(q.pool);
    WaitingTaken(q.requests, q.finalized, q.pool.Rest(), q.pool.lastid, q.pool.Seen());
    CancelKeeps(q.pool, r.delayId);
    TakenListed(q);
  }

  lemma TakenListed(q: Q)
    requires Inv(q) && q.finalized != []
    ensures q.finalized[0].id < |q.h.told|
    ensures Listed(FinalizedTaken(q)) && ToldOnce(FinalizedTaken(q))
  {
    hide Timed, Counted, Serial, Marked;
    var r := q.finalized[0];
    var s := FinalizedTaken(q);
    forall id | 0 <= id < |s.h.told| ensures InList(q.finalized, id) <==> InList(s.finalized, id) || id == r.id {
      if InList(q.finalized, id) && id != r.id {
        var k :| 0 <= k < |q.finalized| && q.finalized[k].id == id;
        assert s.finalized[k - 1].id == id;
      }
      if InList(s.finalized, id) {
        var k :| 0 <= k < |s.finalized| && s.finalized[k].id == id;
        assert q.finalized[k + 1].id == id;
      }
    }
  }
}
