/** What holds over every run of a file-to-file streamer, and what a second start may run into. */
module StreamerTheorems {
  import opened Basics
  import opened StreamerModel

  datatype Event =
    | Start
    | Stop
    | InputOpens(err: Err)
    | Reads(data: Chunk, err: Err)
    | OutputOpens(err: Err)
    | Writes(err: Err)

  /** A completion needs its request; no read returns more than it asked for. */
  predicate Enabled(s: S, e: Event) {
    match e
    case Start => !s.started && s.output.req != Busy
    case Stop => true
    case InputOpens(_) => s.input.req == Opening
    case Reads(data, _) => s.input.req == Busy && |data| <= s.input.chunkSize
    case OutputOpens(_) => s.output.req == Opening
    case Writes(_) => s.output.req == Busy && s.output.bufs != [] && |s.output.bufs[0]| <= s.output.bufsz
  }

  function Step(s: S, e: Event): S
    requires Enabled(s, e)
  {
    match e
    case Start => Started(s)
    case Stop => Finished(s, Stopped)
    case InputOpens(err) => InputOpened(s, err)
    case Reads(data, err) => ReadDone(s, data, err)
    case OutputOpens(err) => OutputOpened(s, err)
    case Writes(err) => WriteDone(s, err)
  }

  /** A run; what is not enabled does not happen. */
  function Run(s: S, events: seq<Event>): S
    decreases |events|
  {
    if events == [] then s
    else Run(if Enabled(s, events[0]) then Step(s, events[0]) else s, events[1..])
  }

  lemma StepKeeps(s: S, e: Event)
    requires Inv(s) && Enabled(s, e)
    ensures Inv(Step(s, e))
  {
    hide Inv, Started, Finished, InputOpened, ReadDone, OutputOpened, WriteDone;
    match e
    case Start => StartedKeeps(s);
    case Stop => StoppedKeeps(s);
    case InputOpens(err) => InputOpenedKeeps(s, err);
    case Reads(data, err) => ReadDoneKeeps(s, data, err);
    case OutputOpens(err) => OutputOpenedKeeps(s, err);
    case Writes(err) => WriteDoneKeeps(s, err);
  }

  lemma {:induction false} EveryRun(s: S, events: seq<Event>)
    requires Inv(s)
    ensures Inv(Run(s, events))
    decreases |events|
  {
    hide Inv, Step, Enabled;
    if events != [] {
      if Enabled(s, events[0]) {
        StepKeeps(s, events[0]);
      }
      EveryRun(if Enabled(s, events[0]) then Step(s, events[0]) else s, events[1..]);
    }
  }

  // ---------------------------------------------------------------- what a run was told

  /** The events of a run that happened. */
  function Taken(s: S, events: seq<Event>): seq<Event>
    decreases |events|
  {
    if events == [] then []
    else if Enabled(s, events[0]) then [events[0]] + Taken(Step(s, events[0]), events[1..])
    else Taken(s, events[1..])
  }

  /** A completion that failed. */
  predicate Fails(e: Event) {
    (e.InputOpens? || e.Reads? || e.OutputOpens? || e.Writes?) && e.err != Ok
  }

  /** A read that succeeded and returned less than it asked for: the end of the file. */
  predicate Short(e: Event, chunkSize: nat) {
    e.Reads? && e.err == Ok && |e.data| < chunkSize
  }

  /** No read and no opening failed. */
  predicate Sound(es: seq<Event>) {
    forall e | e in es :: Fails(e) ==> e.Writes?
  }

  /** Some read was short. */
  ghost predicate SawEnd(es: seq<Event>, chunkSize: nat) {
    exists e | e in es :: Short(e, chunkSize)
  }

  lemma OneMore(e: Event, es: seq<Event>, chunkSize: nat)
    ensures Sound([e] + es) <==> (Fails(e) ==> e.Writes?) && Sound(es)
    ensures SawEnd([e] + es, chunkSize) <==> Short(e, chunkSize) || SawEnd(es, chunkSize)
    ensures DataOf([e] + es) == DataOf([e]) + DataOf(es)
  {
    hide Fails, Short;
    assert ([e] + es)[1..] == es && [e][1..] == [];
    assert e in [e] + es;
  }

  /** What the reads of a run returned. */
  function DataOf(es: seq<Event>): seq<Chunk> {
    if es == [] then []
    else (if es[0].Reads? && es[0].err == Ok && es[0].data != "" then [es[0].data] else []) + DataOf(es[1..])
  }

  function LastRead(es: seq<Event>): Option<Event> {
    if es == [] then None
    else if LastRead(es[1..]).Some? then LastRead(es[1..])
    else if es[0].Reads? then Some(es[0]) else None
  }

  /** The last read of a run was short. */
  predicate EndsShort(es: seq<Event>, chunkSize: nat) {
    LastRead(es).Some? && Short(LastRead(es).value, chunkSize)
  }

  /** A completion that fails finishes the stream with its own error, and nothing else happens. */
  lemma ErrorEnds(s: S, e: Event)
    requires Inv(s) && Enabled(s, e) && s.started && Fails(e)
    ensures var t := Step(s, e);
            && !t.started && t.h.read == s.h.read && t.h.acked == s.h.acked
            && t.h.finishes == [if e.Reads? || e.InputOpens? then ReadError(e.err) else WriteError(e.err)]
  {
  }

  /** After a finish nothing is read or opened, and the finish stands. */
  lemma {:induction false} NothingAfterFinish(s: S, events: seq<Event>)
    requires Inv(s) && !s.started && NoStart(events)
    ensures !Run(s, events).started && Run(s, events).h == s.h
    ensures forall e | e in Taken(s, events) :: e.Stop? || e.Writes?
    ensures LastRead(Taken(s, events)) == None && DataOf(Taken(s, events)) == []
    decreases |events|
  {
    hide Step, Inv;
    if events != [] {
      var e := events[0];
      TailNoStart(events);
      if Enabled(s, e) {
        StepKeeps(s, e);
        NotReading(s, e);
        FinishStands(s, e);
        NothingAfterFinish(Step(s, e), events[1..]);
      } else {
        NothingAfterFinish(s, events[1..]);
      }
    }
  }

  lemma NotReading(s: S, e: Event)
    requires Inv(s) && !s.started && Enabled(s, e) && !e.Start?
    ensures e.Stop? || e.Writes?
  {
  }

  lemma TailNoStart(events: seq<Event>)
    requires NoStart(events) && events != []
    ensures NoStart(events[1..]) && !events[0].Start?
  {
    assert forall k | 0 <= k < |events| - 1 :: events[1..][k] == events[k + 1];
  }

  /** What one event adds to what was read, and how the end comes to be seen. */
  lemma ReadsNoted(s: S, e: Event)
    requires Inv(s) && Enabled(s, e) && s.started
    ensures Step(s, e).h.read == s.h.read + DataOf([e])
    ensures Step(s, e).h.ended <==> s.h.ended || Short(e, s.input.chunkSize)
    ensures Step(s, e).input.chunkSize == s.input.chunkSize
  {
    hide ReadDone, WriteDone;
    match e
    case Reads(data, err) => ReadNoted(s, data, err);
    case Writes(err) => WriteNotesNoRead(s, err);
    case _ =>
  }

  lemma ReadNoted(s: S, data: Chunk, err: Err)
    requires s.started
    ensures var t := ReadDone(s, data, err);
            && t.h.read == s.h.read + (if err == Ok && data != "" then [data] else [])
            && (t.h.ended <==> s.h.ended || (err == Ok && |data| < s.input.chunkSize))
            && t.input.chunkSize == s.input.chunkSize
  {
  }

  lemma WriteNotesNoRead(s: S, err: Err)
    requires s.output.bufs != [] && |s.output.bufs[0]| <= s.output.bufsz
    ensures var t := WriteDone(s, err);
            t.h.read == s.h.read && t.h.ended == s.h.ended && t.input.chunkSize == s.input.chunkSize
  {
  }

  /** Nothing failed on the way to a success; the end of the file was seen, and all that was read is counted. */
  lemma {:induction false} SuccessHeard(s: S, events: seq<Event>)
    requires Inv(s) && s.started && NoStart(events)
    ensures var t, es := Run(s, events), Taken(s, events);
            && t.h.read == s.h.read + DataOf(es)
            && (Success in t.h.finishes ==>
                  Sound(es) && (s.h.ended || SawEnd(es, s.input.chunkSize)))
    decreases |events|
  {
    hide Step, Enabled, Inv, Sound, SawEnd, Short, DataOf;
    if events == [] {
      NoEvents();
      FinishedEnded(s);
    } else {
      var e := events[0];
      TailNoStart(events);
      if !Enabled(s, e) {
        SuccessHeard(s, events[1..]);
      } else {
        var u := Step(s, e);
        StepKeeps(s, e);
        ReadsNoted(s, e);
        if u.started {
          SuccessHeard(u, events[1..]);
        } else {
          NothingAfterFinish(u, events[1..]);
          OnlyWrites(Taken(u, events[1..]));
          FinishedEnded(u);
        }
        if Fails(e) {
          ErrorEnds(s, e);
        }
        OneMore(e, Taken(u, events[1..]), s.input.chunkSize);
      }
    }
  }

  lemma NoEvents()
    ensures Sound([]) && DataOf([]) == []
  {
  }

  lemma OnlyWrites(es: seq<Event>)
    requires forall e | e in es :: e.Stop? || e.Writes?
    ensures Sound(es)
  {
  }

  lemma FinishedEnded(s: S)
    requires Inv(s)
    ensures s.started ==> s.h.finishes == []
    ensures Success in s.h.finishes ==> s.h.ended
  {
  }

  /**
  A finish without an error, over any run since the start.  No read and no opening failed, some read was
  short, and exactly the chunks that the reads returned were acknowledged, after what the start had found
  in the buffers and short of what it had found in `nwrite`.  So the copy is complete exactly if what was
  buffered before does not show.
  */
  lemma SuccessMeansDelivery(s: S, events: seq<Event>)
    requires Inv(s) && !s.started && s.output.req != Busy && NoStart(events)
    requires Success in Run(Started(s), events).h.finishes
    ensures var t, es := Run(Started(s), events), Taken(Started(s), events);
            && Sound(es) && SawEnd(es, s.input.chunkSize)
            && t.h.read == DataOf(es)
            && s.nwrite <= |DataOf(es)|
            && t.h.acked == (s.output.bufs + DataOf(es))[..|DataOf(es)| - s.nwrite]
            && (s.nwrite == 0 && s.output.bufs == [] ==> t.h.acked == DataOf(es))
            && (t.h.acked == DataOf(es) <==> s.nwrite == 0 && DataOf(es) <= s.output.bufs + DataOf(es))
  {
    hide Step, Enabled, Run, Taken;
    StartedKeeps(s);
    EveryRun(Started(s), events);
    SuccessHeard(Started(s), events);
    RunSameStart(Started(s), events);
    DeliveredFacts(Run(Started(s), events));
  }

  lemma DeliveredFacts(s: S)
    requires Inv(s) && Success in s.h.finishes
    ensures s.h.before <= |s.h.read| && s.h.acked == (s.h.base + s.h.read)[..|s.h.read| - s.h.before]
    ensures Orderly(s) ==> s.h.acked == s.h.read
    ensures s.h.acked == s.h.read <==> s.h.before == 0 && s.h.read <= s.h.base + s.h.read
  {
    if Orderly(s) {
      assert s.h.base + s.h.read == s.h.read;
    }
  }

  /** At most one finish since the last start, none while streaming. */
  lemma AtMostOneFinish(s: S)
    requires Inv(s)
    ensures |s.h.finishes| <= 1 && (s.started ==> s.h.finishes == [])
  {
  }

  /** How a stream finished stays as it is until it is started again. */
  lemma FinishStands(s: S, e: Event)
    requires Inv(s) && Enabled(s, e) && !e.Start? && !s.started
    ensures Step(s, e).h == s.h && !Step(s, e).started
  {
  }

  /** With a limit the buffers hold less than the limit and one chunk, if less than the limit was left in them. */
  lemma BoundedBuffer(s: S)
    requires Inv(s) && s.started && s.maxBuf > 0 && Total(s.h.base) < s.maxBuf
    ensures Total(s.output.bufs) <= s.maxBuf - 1 + s.input.chunkSize
    ensures s.input.req == Busy ==> Total(s.output.bufs) < s.maxBuf
  {
  }

  /** Streaming, but nothing is outstanding: only the user can go on. */
  predicate Stuck(s: S) {
    && s.started
    && s.input.req != Opening && s.input.req != Busy && s.output.req != Opening && s.output.req != Busy
  }

  /** Whatever the loop does, a streamer that is stuck stays as it is. */
  lemma {:induction false} StuckForGood(s: S, events: seq<Event>)
    requires Stuck(s) && forall k | 0 <= k < |events| :: !events[k].Stop?
    ensures Run(s, events) == s
    decreases |events|
  {
    if events != [] {
      assert forall k | 0 <= k < |events| - 1 :: events[1..][k] == events[k + 1];
      StuckForGood(s, events[1..]);
    }
  }

  /** While paused a write is outstanding, or the opening that leads to one. */
  lemma PausedWaitsForWrite(s: S)
    requires Inv(s) && s.started && !s.inread
    ensures s.output.bufs != [] && (s.output.req == Opening || s.output.req == Busy)
  {
  }

  function Acks(n: nat): seq<Event> {
    seq(n, _ => Writes(Ok))
  }

  /** However much is buffered, acknowledged writes alone make a paused streamer read again, or finish. */
  lemma {:induction false} PausedResumes(s: S) returns (n: nat)
    requires Inv(s) && s.started && !s.inread && s.output.req == Busy
    ensures 0 < n <= |s.output.bufs|
    ensures var t := Run(s, Acks(n)); t.inread && (t.started ==> t.input.req == Busy && !t.input.pause)
    decreases |s.output.bufs|
  {
    var t := Step(s, Writes(Ok));
    WriteDoneKeeps(s, Ok);
    assert Enabled(s, Writes(Ok));
    assert Acks(1)[1..] == [];
    assert Run(s, Acks(1)) == Run(t, []);
    if t.inread {
      n := 1;
    } else {
      AckedLeavesPaused(s);
      var m := PausedResumes(t);
      n := m + 1;
      assert Acks(n)[1..] == Acks(m);
    }
  }

  lemma AckedLeavesPaused(s: S)
    requires Inv(s) && s.started && !s.inread && s.output.req == Busy && Enabled(s, Writes(Ok))
    ensures var t := Step(s, Writes(Ok));
            !t.inread ==> t.started && t.output.req == Busy && |t.output.bufs| < |s.output.bufs|
  {
    WriteDoneKeeps(s, Ok);
  }

  // ---------------------------------------------------------------- starting again

  /** Both files are open, and the first read is under way. */
  function Opened(s: S): S {
    InputOpened(OutputOpened(Started(s), Ok), Ok)
  }

  /**
  What a start may find that lets it get stuck: chunks left in the buffers or counted as written,
  which make the counts disagree at the end of the file; or `pause` still set, which ends reading
  after a whole chunk that does not fill the buffers.
  */
  predicate CanStick(s: S) {
    || (s.input.chunkSize > 0 && (s.nwrite > 0 || s.output.bufs != []))
    || (s.input.pause && !Fills(s))
  }

  /** The same as seen from the history of a run. */
  ghost predicate Sticky(s: S) {
    || (s.input.chunkSize > 0 && (s.h.before > 0 || s.h.base != []))
    || (s.h.paused && !Fills(s))
  }

  predicate NoStart(events: seq<Event>) {
    forall k | 0 <= k < |events| :: !events[k].Start?
  }

  lemma NeverStuck(s: S)
    requires Inv(s) && !Sticky(s)
    ensures !Stuck(s)
  {
    if s.started && s.input.req == Done && s.inread && s.h.ended {
      assert s.h.acked + s.output.bufs == s.h.base + s.h.read;
    }
  }

  lemma StepSameStart(s: S, e: Event)
    requires Inv(s) && Enabled(s, e) && !e.Start?
    ensures SameStart(s, Step(s, e))
  {
    hide ReadDone, WriteDone;
    if e.Reads? {
      ReadDoneSameStart(s, e.data, e.err);
    } else if e.Writes? {
      WriteDoneSameStart(s, e.err);
    }
  }

  lemma {:induction false} RunSameStart(s: S, events: seq<Event>)
    requires Inv(s) && NoStart(events)
    ensures SameStart(s, Run(s, events))
    decreases |events|
  {
    hide Inv, Step, Enabled;
    if events != [] {
      TailNoStart(events);
      if Enabled(s, events[0]) {
        StepKeeps(s, events[0]);
        StepSameStart(s, events[0]);
      }
      RunSameStart(if Enabled(s, events[0]) then Step(s, events[0]) else s, events[1..]);
    }
  }

  lemma {:induction false} RunNotStuck(s: S, events: seq<Event>)
    requires Inv(s) && !Sticky(s) && NoStart(events)
    ensures !Stuck(Run(s, events))
    decreases |events|
  {
    hide Inv, Step, Enabled, Stuck;
    if events == [] {
      NeverStuck(s);
    } else {
      var e := events[0];
      assert NoStart(events[1..]) by {
        assert forall k | 0 <= k < |events| - 1 :: events[1..][k] == events[k + 1];
      }
      if Enabled(s, e) {
        StepKeeps(s, e);
        StepSameStart(s, e);
      }
      RunNotStuck(if Enabled(s, e) then Step(s, e) else s, events[1..]);
    }
  }

  lemma RunStep(s: S, e: Event, rest: seq<Event>)
    requires Enabled(s, e)
    ensures Run(s, [e] + rest) == Run(Step(s, e), rest)
  {
    assert ([e] + rest)[1..] == rest;
  }

  /** Acknowledging all that was buffered before anything is read. */
  lemma {:induction false} DrainRun(s: S, rest: seq<Event>)
    requires Inv(s) && s.started && s.input.req == Opening && s.output.isOpen && !s.eof
    ensures exists t :: Drained(s, t) && Run(s, Acks(|s.output.bufs|) + rest) == Run(t, rest)
    decreases |s.output.bufs|
  {
    if s.output.bufs == [] {
      assert Acks(0) + rest == rest;
      assert Drained(s, s);
    } else {
      WriteDoneKeeps(s, Ok);
      var u := Step(s, Writes(Ok));
      assert Enabled(s, Writes(Ok));
      assert Acks(|s.output.bufs|) + rest == [Writes(Ok)] + (Acks(|s.output.bufs| - 1) + rest);
      RunStep(s, Writes(Ok), Acks(|s.output.bufs| - 1) + rest);
      DrainRun(u, rest);
      var t :| Drained(u, t) && Run(u, Acks(|u.output.bufs|) + rest) == Run(t, rest);
      assert Drained(s, t);
    }
  }

  ghost predicate Drained(s: S, t: S) {
    && Inv(t) && t.started && t.input == s.input && t.maxBuf == s.maxBuf && t.output.isOpen && t.output.bufs == []
    && t.nread == s.nread && t.nwrite == s.nwrite + |s.output.bufs| && !t.eof
  }

  /** The end of the file, or the first empty read if chunks are empty, meets counts that differ or a stale `pause`. */
  lemma StaleCountsStick(s: S)
    requires Inv(s) && !s.started && s.output.req != Busy
    requires if s.input.chunkSize > 0 then s.nwrite + |s.output.bufs| > 0 else s.input.pause
    ensures exists events :: NoStart(events) && Stuck(Run(Started(s), events))
  {
    hide Stuck;
    StartedKeeps(s);
    OutputOpenedKeeps(Started(s), Ok);
    var a := Step(Started(s), OutputOpens(Ok));
    var last := [InputOpens(Ok), Reads("", Ok)];
    DrainRun(a, last);
    var t :| Drained(a, t) && Run(a, Acks(|a.output.bufs|) + last) == Run(t, last);
    var events := [OutputOpens(Ok)] + (Acks(|a.output.bufs|) + last);
    RunStep(Started(s), OutputOpens(Ok), Acks(|a.output.bufs|) + last);
    EmptyFileSticks(t);
    assert Stuck(Run(Started(s), events));
    assert NoStart(events);
  }

  /** Everything was written, the counts differ or `pause` is set, and the first read finds nothing. */
  lemma EmptyFileSticks(t: S)
    requires Inv(t) && t.started && t.input.req == Opening && t.output.isOpen && t.output.bufs == [] && !t.eof
    requires if t.input.chunkSize > 0 then t.nwrite != t.nread else t.input.pause
    ensures Stuck(Run(t, [InputOpens(Ok), Reads("", Ok)]))
  {
    assert [InputOpens(Ok), Reads("", Ok)] == [InputOpens(Ok)] + [Reads("", Ok)];
    assert [Reads("", Ok)] == [Reads("", Ok)] + [];
    RunStep(t, InputOpens(Ok), [Reads("", Ok)]);
    var o := Step(t, InputOpens(Ok));
    RunStep(o, Reads("", Ok), []);
    assert Stuck(Step(o, Reads("", Ok)));
  }

  /**
  `FileInput` does not forget that it was paused: it reads one whole chunk, and gets stuck when that has
  been written.
  */
  lemma StalePauseSticks(s: S)
    requires Inv(s) && !s.started && s.output.req != Busy && s.output.bufs == [] && s.nwrite == 0
    requires s.input.pause && !Fills(s) && s.input.chunkSize > 0
    ensures exists events :: NoStart(events) && Stuck(Run(Started(s), events))
  {
    var data := seq(s.input.chunkSize, _ => 'x');
    var a, e0 := Started(s), OutputOpens(Ok);
    var b, e1 := Step(a, e0), InputOpens(Ok);
    var c, e2 := Step(b, e1), Reads(data, Ok);
    var d, e3 := Step(c, e2), Writes(Ok);
    assert d.output.bufs == [data];
    var events := [e0] + ([e1] + ([e2] + ([e3] + [])));
    RunStep(a, e0, [e1] + ([e2] + ([e3] + [])));
    RunStep(b, e1, [e2] + ([e3] + []));
    RunStep(c, e2, [e3] + []);
    RunStep(d, e3, []);
    assert Stuck(Step(d, e3));
    assert Stuck(Run(Started(s), events));
    assert NoStart(events);
  }

  /** Whether a start can get stuck is decided by what it finds. */
  lemma StuckIff(s: S)
    requires Inv(s) && !s.started && s.output.req != Busy
    ensures (exists events :: NoStart(events) && Stuck(Run(Started(s), events))) <==> CanStick(s)
  {
    hide Stuck, Run;
    if CanStick(s) {
      if s.input.chunkSize > 0 && s.nwrite + |s.output.bufs| == 0 {
        StalePauseSticks(s);
      } else {
        StaleCountsStick(s);
      }
    } else {
      StartedKeeps(s);
      forall events | NoStart(events) ensures !Stuck(Run(Started(s), events)) {
        RunNotStuck(Started(s), events);
      }
    }
  }

  /** The end of a file may be seen while paused; the finish without an error then leaves `pause` set. */
  lemma SuccessMayLeavePause()
    ensures var c := ReadDone(ReadDone(Opened(Fresh(6, 7)), "abcdef", Ok), "ghijk", Ok);
            && c.output.bufs == ["abcdef", "ghijk"] && c.output.bufsz == 11
            && var d := WriteDone(c, Ok);
            && d.output.bufs == ["ghijk"] && d.output.bufsz == 5
            && var t := WriteDone(d, Ok);
            && t.h.finishes == [Success] && !t.started && t.input.pause
            && t.output.bufs == [] && t.output.req == NoRequest && t.nwrite == 0
  {
    var a := Opened(Fresh(6, 7));
    var b := ReadDone(a, "abcdef", Ok);
    assert b.output.bufs == ["abcdef"] && b.input.req == Busy;
    var c := ReadDone(b, "ghijk", Ok);
    assert c.output.bufs == ["abcdef", "ghijk"] && c.output.bufsz == 11 && c.input.pause && c.eof && !c.inread;
    var d := WriteDone(c, Ok);
    assert d.output.bufs == ["ghijk"] && d.output.bufsz == 5 && d.input.pause && d.started && d.output.req == Busy;
    var t := WriteDone(d, Ok);
  }

  /** Stopping leaves in the buffers what was not written; the next start writes that first and counts it as its own. */
  lemma StaleRestart()
    ensures var a := Finished(ReadDone(InputOpened(Started(Fresh(2, 0)), Ok), "ab", Ok), Stopped);
            && Inv(a) && a.output.bufs == ["ab"]
            && var b := ReadDone(Opened(a), "c", Ok);
            && b.output.bufs == ["ab", "c"] && b.output.bufsz == 3
            && var t := WriteDone(b, Ok);
            && t.h.finishes == [Success] && t.h.read == ["c"] && t.h.acked == ["ab"]
  {
    var a := Finished(ReadDone(InputOpened(Started(Fresh(2, 0)), Ok), "ab", Ok), Stopped);
    assert Total(["ab"]) == 2;
    var b := ReadDone(Opened(a), "c", Ok);
    assert b.output.bufs == ["ab", "c"];
  }

  /**
  A write that fails finishes the stream but not the writing; what is acknowledged then is counted for the
  next start.
  */
  lemma FailureLeavesCount()
    ensures var a := OutputOpened(ReadDone(ReadDone(InputOpened(Started(Fresh(2, 0)), Ok), "ab", Ok), "cd", Ok), Ok);
            && a.output.bufs == ["ab", "cd"] && a.output.bufsz == 4
            && var b := WriteDone(a, Failed(1));
            && b.h.finishes == [WriteError(Failed(1))]
            && b.output.bufs == ["cd"] && b.output.bufsz == 2 && b.output.req == Busy
            && var t := WriteDone(b, Ok);
            && !t.started && t.nwrite == 1 && t.output.bufs == []
            && !t.input.pause && t.output.req != Busy && CanStick(t)
  {
    var a := OutputOpened(ReadDone(ReadDone(InputOpened(Started(Fresh(2, 0)), Ok), "ab", Ok), "cd", Ok), Ok);
    assert a.output.bufs == ["ab", "cd"];
    var b := WriteDone(a, Failed(1));
    assert b.output.bufs == ["cd"];
  }
}
