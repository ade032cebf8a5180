# UniEvent, verified models of its request machinery

UniEvent is an event loop library.  What is hard about it is not the wrapping of libuv but code that
user callbacks re-enter at any depth.  This project models four such components and proves what they
promise, for every input, every run and every user callback that terminates:

- the **request queue** of a stream (`Queue.h`), with the stream requests that drive it: pushes, resets,
  failing connects and shutdown timers, from inside any callback and out of the loop;
- the **delayer**, the pool of one-shot callbacks behind `Loop::delay`, on which the queue relies;
- the **resolver's scheduler**: a bounded pool of workers, a queue, delayed answers from the cache,
  timeouts, and the cache itself;
- the **streamer** from file to file with its flow control, and the **filter chain** of a stream.

## How the models are made

Objects that the program updates in place are classes; their fields are the program's fields and a few
ghost fields that record history.  A ghost function (`S`, `View`, `State`) takes a snapshot of an object as a
value, and every method is proved to perform one function, or to keep one relation, of snapshots.  The
properties are lemmas about those.

User code is a `Script`, an arbitrary finite tree of what one callback, run once, happens to do: push,
reset, delay something, resolve, cancel, throw.  A claim for all scripts is a claim for all user code
that terminates.  libuv, c-ares and the file system are oracles: `exec` of a request leaves it in flight,
completes it at once or delays its failure; a lookup answers at once or later; a file request completes
with any outcome.  Methods that can throw return whether they did.

| file | what it holds |
|---|---|
| `Basics.dfy` | vocabulary shared by all |
| `Delayer.dfy` | the delayer: value, runs, object |
| `QueueModel.dfy` | the queue as a value, its invariant, its pieces and that each keeps the invariant |
| `QueueRelations.dfy`, `QueueSteps.dfy`, `CancelSteps.dfy` | what `done`, `exec`, `resume` and `cancel` may have done around the user code they call |
| `Queue.dfy`, `Stream.dfy` | the queue object, and the events of the loop that drive it |
| `Cascade.dfy` | requests that complete inside one another, worked out exactly |
| `QueueTheorems.dfy`, `QueueRuns.dfy` | the promises of the queue, and runs that show its limits |
| `ResolverModel.dfy`, `Resolver.dfy`, `ResolverTheorems.dfy` | the resolver: value and invariant, object, promises |
| `StreamerModel.dfy`, `Streamer.dfy`, `StreamerTheorems.dfy`, `StreamerReads.dfy` | the streamer: value and invariant, objects, promises, when it reads |
| `FilterChain.dfy` | the filter chain |

## Where the code falls short

The code is modelled as it is.  Where a property one would expect does not hold, a run or a lemma shows it,
and the condition under which it holds is proved.

- *A request can be executed twice.*  Over the recursion limit `done` delays the callback together with a
  `resume`; if a request is pushed onto the empty queue before that, the `resume` finds it running
  (`QueueRuns.ExecutedTwice`, without any exception).  A delayed resume repeats an execution exactly if it meets a
  running head (`Streams.Stream.FireNote`); in runs that never split, each request is executed at most once
  (`QueueTheorems.OnceUnlessSplit`).
- *A wakeup can be lost.*  If that delayed callback throws, its `resume` is skipped (`QueueRuns.LostWakeup`, with one
  exception).  Whether a callback loses a wakeup can be told before it is called: it does exactly if it is to resume,
  its own code throws without resetting the stream, a request waits that was not started, and no other resume is
  scheduled (`Streams.Loses`; `Streams.Stream.FireNote` and `Fire`).  Nothing else loses one (`Handle`, `Run`).
- *`resume_recursion` is not decremented when `resume` throws.*  It equals the nested resumes on the stack plus
  those leaks, and never exceeds 301 (`QueueTheorems.StackAccounting`); without exceptions it is back at 0 (`EveryRun`).
- *A failing connect can go astray.*  `cancel` runs the delayed callbacks first; if one of them resets the stream,
  the connect has been told `operation_canceled` and is gone when `done` is called for it.  The program's assertion
  fails there; without assertions the connect is told twice and another request never (`QueueTheorems.StrayBreaks`).
  This happens if and only if a connect fails while a finalized request has a callback that resets
  (`Streams.Stream.Handle`, `Fire`), and `QueueRuns.ConnectAstray` is a run that gets there.  Nothing is claimed from
  there on.
- *A worker of the resolver can be given a second request while it has one.*  A callback answered from the
  cache inside the loop that serves the queue may have started a lookup on that worker
  (`ResolverTheorems.CallbackLosesRequest`).  All is well exactly if the worker is idle (`ServedIffIdle`); a run
  that starts no lookup from such a callback never gets there (`Resolvers.Resolver.Run`).
- *A callback that throws inside that loop leaves the worker idle while requests wait*
  (`ResolverTheorems.ThrowStallsQueue`).  No other worker is idle while anybody waits (`WorkConserving`).
- *A streamer started again may report success without having copied anything*
  (`StreamerTheorems.StaleRestart`), because `FileOutput::stop` keeps its buffers.  What was acknowledged is
  determined exactly by what the start found (`SuccessMeansDelivery`).
- *A streamer may read on after the end.*  A short read that reaches the limit pauses reading; when the buffers have
  drained `start_reading` reads again, and if the file has grown the last read before a success is not a short one
  (`StreamerReads.ReadsAfterEnd`).  From a clean start this is possible if and only if the limit is above one chunk and
  not a whole number of them (`LastReadShortIff`).
- *A streamer started again may get stuck.*  `FileInput::stop` keeps `pause`, even after a success
  (`StreamerTheorems.SuccessMayLeavePause`); `FileOutput` keeps its buffers, and after a failed write goes on
  writing and counting (`FailureLeavesCount`).  A start can get stuck if and only if it finds one of these
  (`StuckIff`).

## Model

| member | source | states |
|---|---|---|
| `QueueTheorems.ExactlyOnce` | src/panda/unievent/Queue.h:34-121 | wherever user code is called, each pushed request is in exactly one of queued, finalized, told, and in the last case was told once; a failing connect that goes astray leaves such states, see `StrayBreaks` |
| `QueueTheorems.NoLateCallback` | src/panda/unievent/Queue.h:91-96 | a request told, at once or by a cancel, has no delayed callback left that would tell it again |
| `QueueTheorems.NoLostWakeup` | src/panda/unievent/Queue.h:49-61 | while nobody waits in vain, a delayed callback ends that exactly if it is a notification that was split off and is to resume, its callback throws without resetting, somebody waits who was not started, and no other resume is scheduled: a condition on the state before the callback; without a split it cannot happen |
| `QueueTheorems.SerialExecution` | src/panda/unievent/Queue.h:34-76 | what was pushed is what was completed followed by `requests`; executions are in push order and only of the head |
| `QueueTheorems.OnceUnlessSplit` | src/panda/unievent/Queue.h:56-61 | in a run in which `done` never took the split branch no resume is scheduled and each request is executed at most once |
| `QueueTheorems.CancelSnapshot` | src/panda/unievent/Queue.h:82-121 | a reset or failing connect completes everything queued at entry as cancelled, and nothing pushed after the last nested cancel began: that survives in order, untold and not executed, and if no callback resets it is exactly what the cancelled callbacks pushed, one callback after the other; the delayed requests are told first and then the queued ones, each in order, however callbacks cancel recursively; from wherever user code runs, unless exceptions have leaked more than 300 levels |
| `QueueTheorems.StackAccounting` | src/panda/unievent/Queue.h:56-71 | `locked` is the number of open callbacks and cancels, `resume_recursion` that of open resumes plus leaks, at most SPLIT_RECURSION + 1; without exceptions nothing leaks, and wherever user code runs there is room for one more level |
| `QueueTheorems.EveryRun` | src/panda/unievent/Queue.h:31-139 | after any run from a new stream on that did not go astray: unlocked, no cancel under way, every request accounted for; without splits each executed at most once; without exceptions the recursion counter is 0 and no wakeup is lost |
| `QueueTheorems.ReportsStand` | src/panda/unievent/Queue.h:31-139 | over any run, what an event reports is reported by it and never anything else later: a completed head its own outcome, a shutdown that timed out and those before it, everything when the user resets the stream |
| `QueueRuns.PushedThenTold` | src/panda/unievent/Queue.h:34-76 | a request that completes or fails as soon as it is pushed, onto an empty queue with nothing waiting in the loop, is told exactly that outcome by the next idle call |
| `Streams.ConnectFailure` | src/panda/unievent/Stream.cc:134-163 | a failing connect reports its own error once, after the delayed callbacks, before everything queued behind it is cancelled, all in order however callbacks reset the stream, before the teardown, before anything is executed |
| `Streams.ShutdownTimeout` | src/panda/unievent/Stream.cc:264-290 | when the timer fires everything before the shutdown is cancelled and the shutdown times out exactly once, all in order, even if callbacks reset the stream; what is behind it is cancelled only in that case, and otherwise joined by exactly what the callbacks pushed |
| `Cascades.CascadeResult` | src/panda/unievent/Queue.h:56-71 | requests that complete at once, any number of them: exactly as many as SPLIT_RECURSION leaves room for are told in one recursion; if there are more, the next one is split off with a delayed resume and the rest waits untouched |
| `QueueRuns.ExecutedTwice` | src/panda/unievent/Queue.h:56-61 | a run of the stream, without an exception, after which a request has been executed twice |
| `QueueRuns.LostWakeup` | src/panda/unievent/Queue.h:58-61 | a run of the stream, with exactly one exception, after which a request waits that nobody will start |
| `QueueRuns.ConnectAstray` | src/panda/unievent/Stream.cc:150-162 | a run of the stream in which a failing connect goes astray after having been told that it is cancelled, with another request first in its place: `done` then tells the connect a second time and loses the other one |
| `QueueTheorems.StrayBreaks` | src/panda/unievent/Stream.cc:155-159 | what `done` does for a connect that is gone: it is told twice, and the request that is first in its place is never told and is nowhere |
| `Queues.Queue.Cancel` | src/panda/unievent/Queue.h:81-121 | terminates; drains the finalized requests, then the pre action, then the requests, all in order, then the post action if and only if no callback reset the queue, then resumes; nothing is executed before; throws if and only if it kept an exception of a callback or the resume threw, and unless a callback resets it kept one if and only if the callback of a request finalized at entry or cancelled by it throws; goes astray if and only if a connect fails while a delayed callback resets |
| `Queues.Queue.RunScript` | src/panda/unievent/Queue.h:34-121 | any user code keeps the invariant and terminates; under a lock it executes nothing and reports nothing but cancellations, in order; without one it leaves somebody waiting in vain exactly if somebody did and it does not reset; without a reset it pushes and delays exactly what it says, in order, and throws exactly if it says so; if it does not throw all it says was done, in order; a reset first tells everybody who waits that they are cancelled |
| `Streams.Stream.FireNote` | src/panda/unievent/Queue.h:49-61 | a delayed notification tells the front of `finalized_requests` its outcome, once, runs its callback, and resumes the queue unless that threw; it repeats an execution exactly if it resumes and finds the head running; whether it leaves somebody waiting in vain is decided by the state it finds (`Sleeps`, `Loses`) |
| `Streams.Stream.Run` | src/panda/unievent/Queue.h:31-139 | every run keeps the invariant, unless it goes astray, and every event of it does what it is for (`Accomplished`); a run without exceptions loses no wakeup, and no run loses one unless some callback was called in a state that `Loses` describes |
| `Delayers.RunsStayValid` | src/panda/unievent/backend/Delayer.h:12-62 | in every run of adds, cancels, calls, throwing callbacks the pool stays consistent: numbering, accounting, idle handle active while anything waits |
| `Delayers.FiresInOrderOnce` | src/panda/unievent/backend/Delayer.h:34-52 | over the whole life of a pool ids fire in the order of their adds, each at most once; whatever neither fired nor was dropped is still to come |
| `Delayers.NeverInTheSameCall` | src/panda/unievent/backend/Delayer.h:34-47 | a call runs only ids handed out before it began |
| `Delayers.NormalCallDrains` | backend-uv/src/UVDelayer.h:25-28 | a call that does not throw deals with everything that waited when it began; the idle handle stays active if and only if something was added |
| `Delayers.CancelDropsOnlyItsId` | src/panda/unievent/backend/Delayer.h:17-19 | a cancel drops exactly its id, and that if and only if it is still to come; a stale id touches nothing |
| `Delayers.StepFires` | src/panda/unievent/backend/Delayer.h:41-47 | the next entry is called if and only if it was not cancelled and its guard is alive; otherwise it never will be; no other entry is touched |
| `Delayers.WhyDropped` | src/panda/unievent/backend/Delayer.h:17-47 | of all operations a callback is dropped only by cancelling it before its turn, or in its turn if its guard is dead |
| `Delayers.Delayer.Cancel` | src/panda/unievent/backend/Delayer.h:17-19 | looking in one vector and then the other by offset is the search of both by id; returns whether the id was in either |
| `ResolverTheorems.ExactlyOnePlace` | src/panda/unievent/Resolver.cc:213-266 | a running request is in exactly one of one worker, the queue, the delayed list, and there once; any other in none |
| `ResolverTheorems.ToldExactlyOnce` | src/panda/unievent/Resolver.cc:314-346 | over any run a request is told exactly once, when it stops running, and never again |
| `ResolverTheorems.WorkConserving` | src/panda/unievent/Resolver.cc:348-379 | between events, while anybody waits, the pool is full and its idle workers are among those that an exception left idle and that got nothing since; a busy worker means the roll timer is active |
| `ResolverTheorems.FirstComeFirstServed` | src/panda/unievent/Resolver.cc:247-265 | requests reach the workers in the order in which they were made, over the whole run, and whoever waits is later than all of them |
| `ResolverTheorems.CacheAgreement` | src/panda/unievent/Resolver.cc:409-423 | the cache is within its limit; a lookup returns only what a worker found for the same key, no longer ago than its time to live and the expiration time; anything else is erased |
| `ResolverTheorems.LookupOutcome` | src/panda/unievent/Resolver.cc:213-266 | a lookup that may use the cache and whose entry is within both limits gets exactly that entry as delayed answer and no timer; any other gets its timer if it wants one and goes to the first idle worker or a new one, with the answer that came at once delayed, or behind the others if there is no room or somebody waits; a stale entry is erased; nothing else changes |
| `ResolverTheorems.EachHasItsEvent` | src/panda/unievent/Resolver.cc:239-245 | in every state a running request that is not answered from the cache has a timer exactly if it wants one; one with a worker completes by the answer of the worker, delayed if it came at once; one answered from the cache by its delayed event |
| `ResolverTheorems.AnswerFoundAgain` | src/panda/unievent/Resolver.cc:337-343 | a good answer that may be cached is in the cache afterwards, unless its key was there already and the cache was not full; it is found again if and only if both limits allow; the other entries stay, or all go if the cache was full |
| `ResolverTheorems.OthersNotStored` | src/panda/unievent/Resolver.cc:337-343 | bad answers, and those for requests that are not to be cached, change nothing in the cache |
| `ResolverTheorems.MarkMovesOn` | src/panda/unievent/Resolver.cc:425-442 | marking the address a cached list offers makes it offer the next, or again the first; marking any other changes nothing |
| `ResolverTheorems.ServedIffIdle` | src/panda/unievent/Resolver.cc:375-376 | starting the front of the queue keeps the partition if and only if the worker is idle; otherwise the request it had is running but nowhere |
| `ResolverTheorems.ThrowStallsQueue` | src/panda/unievent/Resolver.cc:363-378 | a run after which a request waits, the worker is idle and no event is due |
| `ResolverTheorems.CallbackLosesRequest` | src/panda/unievent/Resolver.cc:363-378 | a run after which a request is running but nowhere |
| `Resolvers.Resolver.FinishResolve` | src/panda/unievent/Resolver.cc:314-380 | a running request is told its answer exactly once, its callback is run, then its worker is served; all the lookups the callback asks for are started, in order, and what it throws comes out; one that is not running is left alone; invariant kept at any nesting, terminates |
| `Resolvers.Resolver.Run` | src/panda/unievent/Resolver.cc:107-380 | every run keeps the invariant; reports only grow; it goes wrong only if a callback run by the queue-serving loop started a lookup |
| `StreamerTheorems.SuccessMeansDelivery` | src/panda/unievent/Streamer.cc:43-59 | over any run since a start, a finish without an error means that no read and no opening failed, that some read was short, and that the acknowledged chunks are, exactly, those the reads returned, behind what the start had found buffered and short of what it had found counted; from a clean start, all of them |
| `StreamerTheorems.ErrorEnds` | src/panda/unievent/Streamer.cc:30-44 | while streaming, a read or an opening of the input that fails finishes it with that very error as read error, an opening of the output or a write that fails with that error as write error |
| `StreamerReads.LastReadShortIff` | src/panda/unievent/streamer/File.cc:16-36 | from a clean start every success comes after a last read that was short if and only if the limit is a whole number of chunks, or not above one, or `pause` is set; otherwise reading may go on after a short read that reached the limit |
| `StreamerReads.LastReadShort` | src/panda/unievent/streamer/File.cc:16-36 | where that holds; without a limit after any start |
| `StreamerReads.ReadsAfterEnd` | src/panda/unievent/streamer/File.cc:32-36 | where it does not, for every such limit and chunk size a run that sees the end, reads a whole chunk after it and succeeds |
| `StreamerReads.PausesAndResumes` | src/panda/unievent/Streamer.cc:37-53 | reading pauses exactly when what a read returned brings the buffers to the limit, and goes on exactly when an acknowledged write brings them to two thirds of it |
| `StreamerTheorems.AtMostOneFinish` | src/panda/unievent/Streamer.cc:61-72 | at most one finish per start, none while streaming |
| `StreamerTheorems.BoundedBuffer` | src/panda/unievent/Streamer.cc:30-41 | the buffers hold at most the limit less one and one chunk, if the start found less than the limit in them |
| `StreamerTheorems.StuckIff` | src/panda/unievent/streamer/File.cc:25-30 | whether a start can get stuck is decided by what it finds: chunks still buffered or counted as written, or `pause` set and chunks that do not fill the buffers |
| `StreamerTheorems.PausedResumes` | src/panda/unievent/Streamer.cc:49-53 | from any paused state acknowledged writes alone, at most as many as are buffered, make it read again or finish |
| `StreamerTheorems.EveryRun` | src/panda/unievent/Streamer.cc:13-72 | the invariant holds in every run |
| `FilterChains.ChainReversal` | src/panda/unievent/StreamFilter.cc:82-89 | for any chain a completion visits exactly the filters reached, in reverse |
| `FilterChains.ErrorCarried` | src/panda/unievent/StreamFilter.cc:87-89 | every filter on the way back and the request itself are told the error that was given |
| `FilterChains.EachCompletedOnce` | src/panda/unievent/StreamFilter.cc:46-52 | each request of a nest of subrequests is completed exactly once, the outermost last |
| `FilterChains.Chain.Cancel` | src/panda/unievent/Request.h:49-52 | cancelling the request or any of its subrequests completes the innermost one first and then the others, each once, through exactly the filters reached, and leaves no links |
| `FilterChains.Chain.WholeLife` | src/panda/unievent/Stream.cc:208-240 | kept and released any number of times, then completed or cancelled: out and back through the same filters, each request completed once, nothing left with the backend |
| `Delayers.AddKeeps` | src/panda/unievent/backend/Delayer.h:12-15 | adding keeps the pool consistent in every state, also inside a call, and the new callback comes last in firing order |
| `Delayers.CancelKeeps` | src/panda/unievent/backend/Delayer.h:17-19 | cancelling keeps the pool consistent and comes to clearing every entry with that id in what is still to come |
| `Delayers.BeginKeeps` | src/panda/unievent/backend/Delayer.h:34-39 | the swap at the start of a call loses nothing and keeps the order |
| `Delayers.StepKeeps` | src/panda/unievent/backend/Delayer.h:41-47 | one turn of the loop takes exactly the first waiting entry; ids stay consecutive across both vectors, every id is in exactly one of fired, dropped, still to come |
| `Delayers.EndKeeps` | src/panda/unievent/backend/Delayer.h:48-51 | after a call, also one cut short by an exception, the remainder is in front of what was added meanwhile |
| `Delayers.ApplyKeeps` | src/panda/unievent/backend/Delayer.h:12-62 | every operation keeps the invariant, and what has fired or was dropped stays so |
| `Delayers.Delayer.CancelIn` | src/panda/unievent/backend/Delayer.h:55-62 | on a consecutively numbered vector the offset computation finds an id if and only if it is there and clears exactly that entry, as a search by id would |
| `Delayers.Delayer.Add` | backend-uv/src/UVDelayer.h:10-16 | performs the add, starts the idle handle if nothing waited, returns the new id |
| `Delayers.Delayer.Begin` | src/panda/unievent/backend/Delayer.h:35-39 | the swap |
| `Delayers.Delayer.Step` | src/panda/unievent/backend/Delayer.h:42-46 | takes the next entry and hands out its callback unless it was cancelled or its guard is dead |
| `Delayers.Delayer.End` | src/panda/unievent/backend/Delayer.h:48-51 | puts the remainder back in front, normally or after an exception, and stops the idle handle after a normal end if nothing waits |
| `QueueModel.PushedKeeps` | src/panda/unievent/Queue.h:34-39 | a pushed request enters at the end; all invariants hold |
| `QueueModel.DeferredKeeps` | src/panda/unievent/Queue.h:56-75 | moving a completed request to `finalized_requests` with a delayed notification keeps the invariant: notifications wait exactly for the finalized requests, in their order |
| `QueueModel.EnteredKeeps` | src/panda/unievent/Queue.h:43-65 | when a callback is called from `done` the invariant holds: the request is out of the queue, told once, nothing of it waits in the loop |
| `QueueModel.FinalizedTakenKeeps` | src/panda/unievent/Queue.h:91-96 | a finalized request told by `cancel` loses its delayed notification and no other |
| `QueueModel.FailScheduledKeeps` | src/panda/unievent/Request.h:15-26 | `delay` replaces the head's own delayed callback and touches no other; a delayed failure carries the error its request was executed to fail with |
| `QueueRelations.UnderTransitive` | src/panda/unievent/Queue.h:82-121 | what may happen under a lock (nothing executed, nothing reported but cancellations, those in order, every nested cancel sweeps what was pushed before it) is closed under composition, so it holds at any nesting |
| `QueueRelations.RanTransitive` | src/panda/unievent/Queue.h:34-126 | what user code may do to the queue is closed under composition |
| `QueueSteps.FinishedNow` | src/panda/unievent/Queue.h:62-71 | callback under the lock, unlock, resume, with exceptions out of either: the outcome is reported at once, lock and stack are restored, and nobody waits in vain if no lock is held |
| `QueueSteps.ResumeLeftKeeps` | src/panda/unievent/Queue.h:66-71 | leaving the guard's resume restores the counter, or leaks one level if it threw, and keeps the invariant |
| `QueueSteps.DrainStep` | src/panda/unievent/Queue.h:91-96 | one turn of the first loop of `cancel`, whatever the callback does, also recursive cancels; the finalized requests are told in their order |
| `CancelSteps.LoopStep` | src/panda/unievent/Queue.h:101-107 | one turn of the second loop of `cancel`: the head it meets is the one queued there at entry and is told next, unless a callback reset the queue, and then the loop ends |
| `CancelSteps.DecidedFrom` | src/panda/unievent/Queue.h:85-107 | the phases of `cancel` together: everything up to the target is completed, and a recursive cancel ran if and only if a callback `cancel` runs itself gets as far as a reset; without one the callbacks of the delayed and then of the queued requests have run, one after the other, and nothing else |
| `CancelSteps.CancelledTeardown` | src/panda/unievent/Queue.h:109-116 | the post action runs if and only if no callback run by this cancel reset the queue, so of nested resets the innermost tears down; then exactly what was queued at entry is cancelled and exactly what its callbacks pushed is queued |
| `CancelSteps.CancelledExpire` | src/panda/unievent/Queue.h:109-116 | the same for a shutdown timing out as post action, which then is the head |
| `CancelSteps.RanReset` | src/panda/unievent/Stream.cc:354-357 | a whole reset, from any stack, is something user code may do |
| `CancelSteps.FlaggedKeeps` | src/panda/unievent/Stream.cc:276-281 | setting `timed_out` of a queued shutdown keeps the invariant |
| `CancelSteps.GoneIff` | src/panda/unievent/Stream.cc:154-159 | when the delayed callbacks are done the failing connect is gone if and only if one of them reset the queue |
| `QueueRelations.OrderedTransitive` | src/panda/unievent/Queue.h:91-107 | the order of reports (finalized requests from the front on, then queued ones from the head on) is kept across any nesting of cancels |
| `Cascades.PileShape` | src/panda/unievent/Queue.h:34-39 | behind a request in flight any number of pushes just wait, in order |
| `Queues.Queue.PopHead` | src/panda/unievent/Queue.h:43-47 | the head leaves, the cancel target is met if it was that, its delayed callback is revoked |
| `Queues.Queue.Done` | src/panda/unievent/Queue.h:41-76 | the outcome is reported at once, or delayed over the recursion limit and for a request still being pushed; told at once, the callback runs: what it pushes and delays is there, in order, and its exception comes out, under a lock no other; invariant and stack are as before; a chain of requests that complete at once ends exactly as `Cascaded` says |
| `Queues.Queue.CallNow` | src/panda/unievent/Queue.h:62-71 | the immediate case with the user's callback in the middle |
| `Queues.Queue.Exec` | src/panda/unievent/Queue.h:37 | executes the head, never under a lock, and by its kind leaves it in flight, schedules its failure or completes it; from `push` no user code runs |
| `Queues.Queue.Resume` | src/panda/unievent/Queue.h:123-126 | nothing under a lock or on an empty queue, else the head is executed first of all; nobody waits in vain afterwards |
| `Queues.Queue.PushRequest` | src/panda/unievent/Queue.h:34-39 | the new request is last; it is executed if and only if the queue was empty and not locked, and its callback does not run before `push` returns; nothing else is pushed, delayed or thrown |
| `Queues.Queue.DrainFinalized` | src/panda/unievent/Queue.h:91-96 | the first loop: every finalized request is told it is cancelled, in order, and whatever a recursive cancel completes after that, in order; without a reset an exception is kept if and only if one of their callbacks threw |
| `Queues.Queue.CancelLoop` | src/panda/unievent/Queue.h:100-107 | the second loop terminates with the target met or overtaken by a recursive cancel; without a reset an exception is kept if and only if a callback threw |
| `Queues.Queue.CancelHead` | src/panda/unievent/Stream.cc:313-319 | cancelling the head completes it, with `timed_out` for a shutdown whose timer fired and `operation_canceled` otherwise |
| `Queues.Queue.RunPre` | src/panda/unievent/Stream.cc:155-159 | the failing connect is told its own error; stray exactly if it is gone |
| `Queues.Queue.RunPost` | src/panda/unievent/Queue.h:109-113 | the post action and the generation it completes |
| `Queues.Queue.LeaveCallback` | src/panda/unievent/Queue.h:66-71 | the guard of that: unlock, resume, and the counter restored unless `resume` threw |
| `Queues.Queue.CancelRest` | src/panda/unievent/Queue.h:98-120 | the same from the second loop on, with what was kept until then |
| `Queues.Queue.CloseCancel` | src/panda/unievent/Queue.h:115-120 | the lock is given back and the queue resumed; throws if and only if something was kept or the resume threw |
| `CancelSteps.KeptIffThrows` | src/panda/unievent/Queue.h:89-107 | without a reset the callbacks a cancel ran have thrown if and only if one of them throws |
| `CancelSteps.ResetCancels` | src/panda/unievent/Stream.cc:354-357 | after a reset everybody who had not been told is told that they are cancelled, once, and everything pushed before it is completed |
| `Streams.WaitingStepped` | src/panda/unievent/Queue.h:49-54 | a delayed notification that fires belongs to the front of `finalized_requests` |
| `Streams.StepNote` | src/panda/unievent/Queue.h:49-54 | and that request has not been told before |
| `CancelSteps.CancelledTold` | src/panda/unievent/Queue.h:82-121 | with room on the stack everything a cancel got to has been told its cancellation exactly once when it resumes |
| `Streams.Stream.Call` | src/panda/unievent/Queue.h:34-121 | user code called from outside keeps everything, and does what `RunScript` says |
| `Streams.Stream.FinalizeHandleConnect` | src/panda/unievent/Stream.cc:134-163 | performs that; the connect is told its own outcome, once; goes astray if and only if the connect fails and a delayed callback resets the stream |
| `Streams.Stream.HeadCompletes` | src/panda/unievent/Stream.cc:228-240 | the head is told its outcome, once, and its callback runs |
| `Streams.Stream.HeadEvent` | src/panda/unievent/Stream.cc:228-240 | whatever kind the head is, it is told the outcome of its own event, once |
| `Streams.Stream.ShutdownTimer` | src/panda/unievent/Stream.cc:272-285 | performs the above; a shutdown that is first just times out |
| `Streams.Stream.Fire` | src/panda/unievent/backend/Delayer.h:42-47 | one waiting callback of the loop: the request a notification or a delayed failure is for is told its error, once, and user code runs as it says; executes nothing twice unless it is a notification that resumes; leaves somebody waiting in vain exactly if the state before says so; goes astray exactly if it is the failure of a connect that meets a delayed callback that resets |
| `Streams.Stream.HandleIdle` | backend-uv/src/UVDelayer.h:25-28 | everything that waited, up to an exception: without one as many callbacks as waited were looked at, each id up to the last one handed out before has fired or was dropped, and every request whose notification waited has been told exactly once; the state in which each callback was called decides whether anybody waits in vain after it, and the last one whether anybody does at the end |
| `Streams.DrainsAll` | backend-uv/src/UVDelayer.h:25-28 | at the end of a call that did not throw only notifications added since it began still wait, so everybody whose notification waited before has been told |
| `Streams.Stream.Handle` | src/panda/unievent/Stream.cc:123-326 | every event keeps the invariant, does what it is for and what was reported stays so: a completed head is told its outcome, a shutdown that timed out and those before it are told so, an idle event drains what waited, user code runs as it says; completions, timers and resets only ever wake; an idle event loses a wakeup exactly if its last callback was called in a state that `Loses` describes; going astray has its exact condition |
| `Streams.ConnectOvertaken` | src/panda/unievent/Stream.cc:150-162 | if a delayed callback resets the stream first, the connect has been told that it is cancelled and is gone |
| `ResolverModel.StoppedKeeps` | src/panda/unievent/Resolver.cc:314-346 | taking a request out of its place keeps the partition, tells it once, leaves none of its delayed calls or timers, and leaves at most its own worker idle |
| `ResolverModel.ResolvedKeeps` | src/panda/unievent/Resolver.cc:213-266 | a new lookup goes to exactly one place; to the queue only if every worker is busy or others wait; whoever is with a worker or waits has its timer |
| `ResolverModel.ServedKeeps` | src/panda/unievent/Resolver.cc:375-376 | handing the front of the queue to an idle worker keeps everything and settles what that worker owed |
| `ResolverModel.StoredKeeps` | src/panda/unievent/Resolver.cc:337-343 | storing an answer keeps the cache within its limit, and stores only what a worker has just found |
| `ResolverModel.LookedKeeps` | src/panda/unievent/Resolver.cc:409-423 | erasing a stale entry keeps everything |
| `ResolverModel.LimitedKeeps` | src/panda/unievent/Resolver.h:116-119 | changing the limit keeps the cache within it |
| `ResolverModel.MarkedKeeps` | src/panda/unievent/Resolver.cc:425-442 | marking an address bad keeps each entry within its own list of addresses |
| `ResolverModel.WorkerFoundKeeps` | src/panda/unievent/Resolver.cc:163-167 | what is found is found by workers only |
| `ResolverModel.DelayedBacked` | src/panda/unievent/Resolver.cc:221-232 | an answer delayed out of the cache does not go back into it |
| `Resolvers.Resolver.FindCached` | src/panda/unievent/Resolver.cc:409-423 | returns a usable entry, else erases it |
| `Resolvers.Resolver.Dispatch` | src/panda/unievent/Resolver.cc:247-265 | first idle worker, else a new one, else the queue |
| `Resolvers.Resolver.Resolve` | src/panda/unievent/Resolver.cc:213-266 | performs what `LookupOutcome` states, from the cache or not |
| `Resolvers.Resolver.Detach` | src/panda/unievent/Resolver.cc:318-335 | out of the worker, the queue or the delayed list, as its fields say |
| `Resolvers.Resolver.Store` | src/panda/unievent/Resolver.cc:337-343 | a good answer is cached, after clearing a full cache |
| `Resolvers.Resolver.AfterWorker` | src/panda/unievent/Resolver.cc:350-361 | nothing if the worker was used again; if nobody waits the roll timer is stopped exactly when nobody is busy; else the queue is served |
| `Resolvers.Resolver.ServeQueue` | src/panda/unievent/Resolver.cc:363-378 | ends with the worker on a request the cache cannot answer, or with nobody waiting; if a callback threw, with the worker idle, and stalled if anybody waits; each in queue order; goes wrong only if a callback it ran has started a lookup |
| `Resolvers.Resolver.AnswerFromCache` | src/panda/unievent/Resolver.cc:366-372 | the front of the queue is told what the cache has |
| `Resolvers.Resolver.RunScript` | src/panda/unievent/Resolver.cc:382-384 | any user code keeps the invariant; if it does not throw all the lookups it asks for were started, in order; without a cancel it starts exactly those and throws exactly if it says so; a cancelled request is told `operation_canceled` |
| `Resolvers.Resolver.Handle` | src/panda/unievent/Resolver.cc:130-153 | an answer, a delayed answer, a timeout each tell exactly the request they are due for and run its callback; user code runs as it says; only answers of workers add to what was found; settings and clock keep the invariant |
| `Resolvers.Resolver.WorkerFinish` | src/panda/unievent/Resolver.cc:163-167 | the request is told, and exactly its answer joins what was found |
| `ResolverTheorems.RotationCycles` | src/panda/unievent/Resolver.cc:440-441 | marking addresses bad goes through the whole list before it comes back to one |
| `StreamerModel.ReadDoneKeeps` | src/panda/unievent/streamer/File.cc:16-23 | a completed read keeps all invariants: counts, order of chunks, flow control |
| `StreamerModel.WriteDoneKeeps` | src/panda/unievent/streamer/File.cc:62-69 | so does a completed write, also one that fails, also after the streamer has finished |
| `StreamerModel.InputOpenedKeeps` | src/panda/unievent/streamer/File.cc:5-14 | so does opening the input |
| `StreamerModel.OutputOpenedKeeps` | src/panda/unievent/streamer/File.cc:44-53 | so does opening the output |
| `StreamerModel.StartedKeeps` | src/panda/unievent/Streamer.cc:13-24 | so does a start, whatever the last one left behind |
| `StreamerModel.FinishedKeeps` | src/panda/unievent/Streamer.cc:61-72 | so does a finish, from within any completion |
| `Streamers.FileInput.Stop` | src/panda/unievent/streamer/File.cc:25-30 | no request, closed, `pause` as it was |
| `Streamers.FileInput.StartReading` | src/panda/unievent/streamer/File.cc:32-36 | reads unless a request is outstanding; it needs to have had one |
| `Streamers.FileOutput.Write` | src/panda/unievent/streamer/File.cc:55-60 | appended; written at once only if the file is open and nothing else is buffered |
| `Streamers.FileOutput.Stop` | src/panda/unievent/streamer/File.cc:71-76 | no request, closed, buffers as they were |
| `Streamers.Streamer.Start` | src/panda/unievent/Streamer.cc:13-24 | both ends opening |
| `Streamers.Streamer.Stop` | src/panda/unievent/Streamer.cc:26-28 | finishes as cancelled if started |
| `Streamers.Streamer.Finish` | src/panda/unievent/Streamer.cc:61-72 | reports once, and only if started |
| `Streamers.Streamer.HandleRead` | src/panda/unievent/Streamer.cc:30-41 | the chunk is passed on; pauses at the limit |
| `Streamers.Streamer.HandleWrite` | src/panda/unievent/Streamer.cc:43-54 | finishes when the end was seen and all is written; resumes at the threshold |
| `Streamers.Streamer.HandleEof` | src/panda/unievent/Streamer.cc:56-59 | finishes at once or remembers the end |
| `Streamers.Streamer.InputOpened` | src/panda/unievent/streamer/File.cc:7-12 | first read, or finish with the error |
| `Streamers.Streamer.ReadDone` | src/panda/unievent/streamer/File.cc:17-22 | passes data and end on, reads further unless paused; a read that fails finishes the stream with its error (`ErrorEnds`) |
| `Streamers.Streamer.OutputOpened` | src/panda/unievent/streamer/File.cc:46-51 | writes what is buffered, or finishes with the error |
| `Streamers.Streamer.WriteDone` | src/panda/unievent/streamer/File.cc:63-68 | acknowledges the front and writes the next |
| `Streamers.Streamer.Run` | src/panda/unievent/Streamer.cc:13-72 | any sequence of events performs exactly the run of the model and keeps the invariant |
| `Streamers.FileInput.DoRead` | src/panda/unievent/streamer/File.cc:16-23 | a read is issued only when no request is outstanding, so there is at most one |
| `Streamers.FileOutput.DoWrite` | src/panda/unievent/streamer/File.cc:62-69 | a write is issued only when no other is outstanding |
| `StreamerTheorems.FinishStands` | src/panda/unievent/Streamer.cc:61-72 | until the next start nothing changes how it finished |
| `StreamerTheorems.NeverStuck` | src/panda/unievent/Streamer.cc:43-54 | with none of that found a request is outstanding whenever it is streaming |
| `StreamerTheorems.SuccessMayLeavePause` | src/panda/unievent/Streamer.cc:43-59 | a run that succeeds and leaves `pause` set |
| `StreamerTheorems.StaleRestart` | src/panda/unievent/streamer/File.cc:71-76 | two starts after which success is reported and no chunk read was acknowledged |
| `StreamerTheorems.StuckForGood` | src/panda/unievent/Streamer.cc:13-72 | a streamer that is stuck stays as it is until it is stopped |
| `StreamerTheorems.StaleCountsStick` | src/panda/unievent/Streamer.cc:43-59 | a start that finds chunks buffered or counted gets stuck at the end of an empty file |
| `StreamerTheorems.StalePauseSticks` | src/panda/unievent/streamer/File.cc:16-23 | a start that finds `pause` set gets stuck after a whole chunk |
| `StreamerTheorems.FailureLeavesCount` | src/panda/unievent/streamer/File.cc:62-69 | a run that fails, goes on writing, and leaves `nwrite` at 1 |
| `StreamerTheorems.PausedWaitsForWrite` | src/panda/unievent/Streamer.cc:36-40 | while paused a write is outstanding, or the opening that leads to one |
| `FilterChains.DownVisits` | src/panda/unievent/StreamFilter.cc:82-85 | a write visits filters front to back as far as none keeps it, and completes nothing |
| `FilterChains.UpVisits` | src/panda/unievent/StreamFilter.cc:87-89 | a completion visits filters back to front and completes every subrequest before the request it stands for |
| `FilterChains.Chain.Exec` | src/panda/unievent/Stream.cc:208-220 | a write goes down to a filter that keeps it or to the backend, with its subrequests linked both ways |
| `FilterChains.Chain.Write` | src/panda/unievent/StreamFilter.cc:82-85 | the same from any filter on |
| `FilterChains.Chain.NextWrite` | src/panda/unievent/StreamFilter.cc:82-85 | on to the next filter or to the backend |
| `FilterChains.Chain.SubreqWrite` | src/panda/unievent/StreamFilter.cc:38-44 | a subrequest goes on in place of its parent |
| `FilterChains.Chain.Release` | src/panda/unievent/StreamFilter.cc:82-85 | a write that was kept goes on |
| `FilterChains.Chain.HandleEvent` | src/panda/unievent/Stream.cc:228-233 | the same for a completion by the backend |
| `FilterChains.Chain.HandleWrite` | src/panda/unievent/ssl/SslFilter.cc:318-327 | an encapsulating filter ends its subrequest and passes the original on; any other passes on what it gets |
| `FilterChains.Chain.PrevHandleWrite` | src/panda/unievent/StreamFilter.cc:87-89 | on to the previous filter or to the stream |
| `FilterChains.Chain.SubreqDone` | src/panda/unievent/StreamFilter.cc:46-52 | the subrequest is detached and unlinked; it has none itself |

## Left out

- Foreign code: libuv, c-ares, OpenSSL, the panda library, reference counts.  Oracles and sequences stand for them.
- Requests are records in the lists that hold them, not objects: the model does not capture that one request object could be used twice.
- Machine integers: ids, `cancel_gen`, counters, times and `max_buf * 2 / 3` are unbounded; they do not wrap at 32 or 64 bits.
- Post actions of `cancel` that throw, `RunInOrderRequest` and disconnect requests, the filters a request has passed when its queue entry is completed, connection flags and `_wq_size`.
- Queues.Queue.Cancel: claims nothing after it went astray; a `till` is modelled only for the shutdown timer, which fires with no queue code on the stack.
- Streams.Stream.Run: claims nothing after a failing connect went astray, see above.
- QueueTheorems.CancelSnapshot: not claimed once exceptions have leaked more than 300 levels of `resume_recursion`; then reports are delayed like any other completion over the limit.
- Streams.ConnectFailure: the same.
- Streams.ShutdownTimeout: the same.
- An order between delayed callbacks and later completions, which the code does not keep.
- `Resolver::reset`, the Windows branch for `localhost`, the query timeout, the hash of cache keys (keys are numbers), and the start of the roll timer's period.
- Resolvers.Resolver.Run: claims nothing after a worker was handed a second request.
- ResolverTheorems.WorkConserving: leaves out workers idle since a callback run by the queue-serving loop threw, see above.
- StreamInput and StreamOutput, and errors returned by `start`, `write` and `start_reading`, which the file ends never return.
- File requests that are cancelled do not call back.  In the program a cancel may complete the request at once, inside `stop`, or fail to stop it.
- StreamerReads.LastReadShortIff: not claimed for a start that finds chunks buffered or counted; what it may read last then depends on the sizes of those.
- Which of several exceptions kept by a cancel is thrown again: exceptions have no identity here.
- Streamers.Streamer.Start: not modelled while started, while a write of the last run is outstanding, or from inside the finish event.
- Other ways through the filters: connects, reads, end of file, accepted connections; shutdown takes the same way as a write.
- Cancelling a write that the SSL filter has failed to encrypt, and whatever user code does inside a filter.
- Fs, FsPoll, Udp, Tcp, Pipe, Tty, Timer, Signal, Poll, Idle, Prepare, Check, Async, the error tables and utilities: wrappers that would only add easy members.
