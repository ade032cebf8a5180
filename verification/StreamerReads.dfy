/** When a file-to-file streamer reads: what pauses it, what resumes it, and whether it reads on after the end. */
module StreamerReads {
  import opened Basics
  import opened StreamerModel
  import opened StreamerTheorems

  /**
  Reading pauses exactly when what a read returned brings the buffers to the limit, and goes on exactly
  when an acknowledged write brings them to two thirds of it.
  */
  lemma PausesAndResumes(s: S, e: Event)
    requires Inv(s) && Enabled(s, e) && s.started && Step(s, e).started
    ensures var t := Step(s, e);
            && (s.inread && !t.inread <==>
                  e.Reads? && e.data != "" && 0 < s.maxBuf <= Total(s.output.bufs) + |e.data|)
            && (!s.inread && t.inread <==>
                  e.Writes? && !s.inread && 3 * (Total(s.output.bufs) - |s.output.bufs[0]|) <= 2 * s.maxBuf)
            && (!s.inread && t.inread ==> t.input.req == Busy && !t.input.pause)
  {
    hide ReadDone, WriteDone, Inv;
    match e
    case Reads(data, err) =>
      ErrorFinishes(s, e);
      ReadPauses(s, data);
    case Writes(err) =>
      ErrorFinishes(s, e);
      WriteResumes(s);
    case _ =>
  }

  lemma ErrorFinishes(s: S, e: Event)
    requires Inv(s) && Enabled(s, e) && s.started && Step(s, e).started
    ensures !Fails(e)
  {
    if Fails(e) {
      ErrorEnds(s, e);
    }
  }

  lemma ReadPauses(s: S, data: Chunk)
    requires Inv(s) && s.started && s.input.req == Busy && ReadDone(s, data, Ok).started
    ensures s.inread
    ensures !ReadDone(s, data, Ok).inread <==> data != "" && 0 < s.maxBuf <= Total(s.output.bufs) + |data|
  {
  }

  lemma WriteResumes(s: S)
    requires Inv(s) && s.started && s.output.req == Busy && s.output.bufs != [] && |s.output.bufs[0]| <= s.output.bufsz
    requires WriteDone(s, Ok).started
    ensures var t := WriteDone(s, Ok);
            && (s.inread ==> t.inread)
            && (!s.inread ==>
                  (t.inread <==> 3 * (Total(s.output.bufs) - |s.output.bufs[0]|) <= 2 * s.maxBuf)
                  && (t.inread ==> t.input.req == Busy && !t.input.pause))
  {
  }

  // ---------------------------------------------------------------- reading on after the end

  /**
  Whether a start that finds nothing buffered and nothing counted may read again after a short read: the
  limit is not a whole number of chunks, so that a short one can reach it behind others.
  */
  predicate GoesBack(s: S) {
    !s.input.pause && 0 < s.input.chunkSize < s.maxBuf && s.maxBuf % s.input.chunkSize != 0
  }

  /** Every buffer holds a whole chunk. */
  ghost predicate Whole(s: S) {
    forall k | 0 <= k < |s.output.bufs| :: |s.output.bufs[k]| == s.input.chunkSize
  }

  lemma {:induction false} WholeTotal(bufs: seq<Chunk>, c: nat)
    requires forall k | 0 <= k < |bufs| :: |bufs[k]| == c
    ensures Total(bufs) == |bufs| * c
  {
    if bufs != [] {
      WholeTotal(bufs[1..], c);
      assert |bufs| * c == c + (|bufs| - 1) * c;
    }
  }

  /** Where no short read can be followed by another: nothing is read after the end, and nothing will be. */
  ghost predicate Once(s: S) {
    s.started ==> (s.h.ended ==> s.input.req == Done) && (s.maxBuf > 0 ==> Limited(s))
  }

  ghost predicate Limited(s: S) {
    && Orderly(s)
    && (s.h.ended ==> s.inread || |s.output.bufs| == 1)
    && (if s.h.paused && !Fills(s) then s.inread && s.input.pause && (s.input.req != Done ==> s.h.read == [])
        else !s.h.ended ==> Whole(s))
  }

  /** A short read after whole chunks does not reach the limit, unless it is alone. */
  lemma ShortOfLimit(c: nat, max: nat, n: nat, k: nat)
    requires 0 < c && n < c && k * c < max
    requires c >= max || max % c == 0
    ensures k == 0 || k * c + n < max
  {
    if c >= max {
      if k > 0 {
        TimesMonotone(1, k, c);
      }
    } else if k < max / c {
      TimesMonotone(k + 1, max / c, c);
    } else {
      TimesMonotone(max / c, k, c);
    }
  }

  lemma TimesMonotone(a: nat, b: nat, c: nat)
    requires a <= b
    ensures a * c <= b * c
  {
  }

  /** `GoesBack`, as seen from the history of a run. */
  predicate Returns(s: S) {
    !s.h.paused && 0 < s.input.chunkSize < s.maxBuf && s.maxBuf % s.input.chunkSize != 0
  }

  lemma OnceRead(s: S, data: Chunk)
    requires Inv(s) && Once(s) && !Returns(s) && s.started && s.input.req == Busy && |data| <= s.input.chunkSize
    ensures Once(ReadDone(s, data, Ok))
  {
    hide EofHandled;
    var t := s.(input := s.input.(req := Done));
    var u := if |data| > 0 then ReadHandled(t, data) else t;
    if |data| < s.input.chunkSize {
      OnceShort(s, data);
      OnceEnded(u);
    } else if s.maxBuf > 0 && s.h.paused && !Fills(s) {
      assert s.output.bufs == [];
    }
  }

  /** What a short read leaves behind. */
  lemma OnceShort(s: S, data: Chunk)
    requires Inv(s) && Once(s) && !Returns(s) && s.started && s.input.req == Busy && |data| < s.input.chunkSize
    ensures var t := s.(input := s.input.(req := Done));
            var u := if |data| > 0 then ReadHandled(t, data) else t;
            u.started && u.input.req == Done && (u.maxBuf > 0 ==> Ending(u))
  {
    if s.maxBuf > 0 {
      if s.h.paused && !Fills(s) {
        assert s.output.bufs == [];
      } else {
        WholeTotal(s.output.bufs, s.input.chunkSize);
        ShortOfLimit(s.input.chunkSize, s.maxBuf, |data|, |s.output.bufs|);
      }
    }
  }

  ghost predicate Ending(u: S) {
    && Orderly(u) && (u.inread || |u.output.bufs| == 1)
    && (u.h.paused && !Fills(u) ==> u.inread && u.input.pause)
  }

  lemma OnceEnded(u: S)
    requires u.started && u.input.req == Done && (u.maxBuf > 0 ==> Ending(u))
    ensures Once(EofHandled(u))
  {
  }

  lemma OnceWritten(s: S)
    requires Inv(s) && Once(s) && s.started && s.output.req == Busy && |s.output.bufs[0]| <= s.output.bufsz
    ensures Once(WriteDone(s, Ok))
  {
    assert |s.h.acked| + |s.output.bufs| == |s.h.base| + |s.h.read| by {
      assert |s.h.acked + s.output.bufs| == |s.h.base + s.h.read|;
    }
  }

  lemma OnceStep(s: S, e: Event)
    requires Inv(s) && Once(s) && !Returns(s) && Enabled(s, e) && !e.Start? && s.started
    ensures Once(Step(s, e))
    ensures s.h.ended ==> !e.Reads? && Step(s, e).h.ended
    ensures e.Reads? && Step(s, e).h.ended ==> Short(e, s.input.chunkSize)
    ensures Step(s, e).h.ended && !e.Reads? ==> s.h.ended
  {
    hide ReadDone, WriteDone, Inv;
    BusyUnended(s);
    ReadsNoted(s, e);
    if Fails(e) {
      ErrorEnds(s, e);
    } else if e.Reads? {
      OnceRead(s, e.data);
    } else if e.Writes? {
      OnceWritten(s);
    }
  }

  lemma BusyUnended(s: S)
    requires Inv(s) && Once(s) && s.started
    ensures s.input.req == Busy ==> !s.h.ended
  {
  }

  /** The last read before a success was short. */
  lemma {:induction false} EndIsLast(s: S, events: seq<Event>)
    requires Inv(s) && Once(s) && !Returns(s) && s.started && NoStart(events)
    ensures var t, es := Run(s, events), Taken(s, events);
            && (s.h.ended ==> LastRead(es) == None)
            && (t.h.ended && !s.h.ended ==> EndsShort(es, s.input.chunkSize))
    decreases |events|
  {
    hide Step, Enabled, Inv, Once;
    if events != [] {
      var e, rest := events[0], events[1..];
      TailNoStart(events);
      if !Enabled(s, e) {
        EndIsLast(s, rest);
      } else {
        var u := Step(s, e);
        StepKeeps(s, e);
        StepSameStart(s, e);
        OnceStep(s, e);
        assert Taken(s, events)[1..] == Taken(u, rest);
        if u.started {
          EndIsLast(u, rest);
        } else {
          NothingAfterFinish(u, rest);
        }
      }
    }
  }

  // ---------------------------------------------------------------- a run that reads on

  lemma {:induction false} RunAppend(s: S, a: seq<Event>, b: seq<Event>)
    ensures Run(s, a + b) == Run(Run(s, a), b)
    ensures Taken(s, a + b) == Taken(s, a) + Taken(Run(s, a), b)
    decreases |a|
  {
    hide Step, Enabled;
    if a == [] {
      assert a + b == b;
    } else {
      assert (a + b)[1..] == a[1..] + b;
      RunAppend(if Enabled(s, a[0]) then Step(s, a[0]) else s, a[1..], b);
    }
  }

  lemma {:induction false} LastReadAppend(a: seq<Event>, b: seq<Event>)
    ensures LastRead(a + b) == if LastRead(b).Some? then LastRead(b) else LastRead(a)
  {
    if a == [] {
      assert a + b == b;
    } else {
      assert (a + b)[1..] == a[1..] + b;
      LastReadAppend(a[1..], b);
    }
  }

  function Full(c: nat): (r: Chunk)
    ensures |r| == c
  {
    seq(c, _ => 'x')
  }

  /** `n` whole chunks are read. */
  function WholeReads(c: nat, n: nat): seq<Event> {
    seq(n, _ => Reads(Full(c), Ok))
  }

  /** `i` whole chunks were read and none is written, in a run since a clean start. */
  ghost predicate Filling(s: S, i: nat) {
    && Inv(s) && s.started && Orderly(s) && !s.h.paused && !s.h.ended && s.input.req == Busy && s.inread
    && s.output.isOpen && |s.output.bufs| == i && Whole(s)
  }

  lemma FillStep(s: S, i: nat)
    requires Filling(s, i) && 0 < s.input.chunkSize && (i + 1) * s.input.chunkSize < s.maxBuf
    ensures Enabled(s, Reads(Full(s.input.chunkSize), Ok))
    ensures var t := Step(s, Reads(Full(s.input.chunkSize), Ok)); Filling(t, i + 1) && SameStart(s, t)
  {
    var e := Reads(Full(s.input.chunkSize), Ok);
    StepKeeps(s, e);
    StepSameStart(s, e);
    WholeTotal(s.output.bufs, s.input.chunkSize);
  }

  lemma {:induction false} FillRun(s: S, i: nat, n: nat)
    requires Filling(s, i) && 0 < s.input.chunkSize && (i + n) * s.input.chunkSize < s.maxBuf
    ensures var t := Run(s, WholeReads(s.input.chunkSize, n)); Filling(t, i + n) && SameStart(s, t)
    decreases n
  {
    hide Filling, Step, Enabled;
    if n > 0 {
      var c := s.input.chunkSize;
      TimesMonotone(i + 1, i + n, c);
      FillStep(s, i);
      assert WholeReads(c, n)[1..] == WholeReads(c, n - 1);
      FillRun(Step(s, Reads(Full(c), Ok)), i + 1, n - 1);
    }
  }

  /** After the end; once reading goes on it does so until the next finish. */
  ghost predicate Returning(s: S) {
    && Inv(s) && s.started && Orderly(s) && s.h.ended && s.output.isOpen && s.output.bufs != []
    && (s.inread ==> s.input.req == Busy)
  }

  lemma ReturnStep(s: S)
    requires Returning(s) && |s.output.bufs| > 1
    ensures Enabled(s, Writes(Ok))
    ensures var t := Step(s, Writes(Ok)); Returning(t) && SameStart(s, t) && t.output.bufs == s.output.bufs[1..]
  {
    assert |s.h.acked| + |s.output.bufs| == |s.h.read| by {
      assert |s.h.acked + s.output.bufs| == |s.h.base + s.h.read|;
    }
    StepKeeps(s, Writes(Ok));
    StepSameStart(s, Writes(Ok));
  }

  lemma {:induction false} ReturnRun(s: S)
    requires Returning(s)
    ensures var t := Run(s, Acks(|s.output.bufs| - 1));
            Returning(t) && SameStart(s, t) && t.output.bufs == s.output.bufs[|s.output.bufs| - 1..]
    decreases |s.output.bufs|
  {
    hide Returning, Step, Enabled;
    assert s.output.bufs != [] by { ReturningFacts(s); }
    var n := |s.output.bufs| - 1;
    if n > 0 {
      ReturnStep(s);
      assert Acks(n)[1..] == Acks(n - 1);
      ReturnRun(Step(s, Writes(Ok)));
    }
  }

  lemma ReturningFacts(s: S)
    requires Returning(s)
    ensures s.output.bufs != []
  {
  }

  /** A start that finds nothing buffered and nothing counted. */
  ghost predicate CleanStart(s: S) {
    Inv(s) && !s.started && s.output.req != Busy && s.nwrite == 0 && s.output.bufs == []
  }

  lemma StartsFilling(s: S)
    requires CleanStart(s) && !s.input.pause
    ensures var t := Run(Started(s), [OutputOpens(Ok)] + ([InputOpens(Ok)] + []));
            Filling(t, 0) && SameStart(Started(s), t)
  {
    var a := Started(s);
    StartedKeeps(s);
    OutputOpenedKeeps(a, Ok);
    InputOpenedKeeps(Step(a, OutputOpens(Ok)), Ok);
    RunStep(a, OutputOpens(Ok), [InputOpens(Ok)] + []);
    RunStep(Step(a, OutputOpens(Ok)), InputOpens(Ok), []);
  }

  /** A short read reaches the limit behind whole chunks. */
  lemma ShortReachesLimit(s: S, k: nat, r: nat)
    requires Filling(s, k) && 0 < k && 0 < r < s.input.chunkSize && k * s.input.chunkSize + r == s.maxBuf
    ensures Enabled(s, Reads(Full(r), Ok))
    ensures var t := Step(s, Reads(Full(r), Ok));
            Returning(t) && SameStart(s, t) && t.output.bufs == s.output.bufs + [Full(r)]
  {
    WholeTotal(s.output.bufs, s.input.chunkSize);
    assert |s.h.acked| + |s.output.bufs| == |s.h.read| by {
      assert |s.h.acked + s.output.bufs| == |s.h.base + s.h.read|;
    }
    StepKeeps(s, Reads(Full(r), Ok));
    StepSameStart(s, Reads(Full(r), Ok));
  }

  /** With only the short chunk left a whole one is read. */
  lemma ReadsOn(s: S, c: nat)
    requires Returning(s) && !s.h.paused && |s.output.bufs| == 1 && c == s.input.chunkSize > 0
    requires 2 * |s.output.bufs[0]| < s.maxBuf
    ensures Enabled(s, Reads(Full(c), Ok))
    ensures var t := Step(s, Reads(Full(c), Ok)); Returning(t) && |t.output.bufs| == 2
  {
    assert s.output.bufs[1..] == [];
    assert Total(s.output.bufs) == |s.output.bufs[0]| + Total([]);
    assert s.input.req == Busy;
    assert |s.h.acked| + |s.output.bufs| == |s.h.read| by {
      assert |s.h.acked + s.output.bufs| == |s.h.base + s.h.read|;
    }
    StepKeeps(s, Reads(Full(c), Ok));
  }

  lemma LastAck(s: S)
    requires Returning(s) && |s.output.bufs| == 1
    ensures Enabled(s, Writes(Ok)) && Step(s, Writes(Ok)).h.finishes == [Success]
  {
    assert |s.h.acked| + |s.output.bufs| == |s.h.read| by {
      assert |s.h.acked + s.output.bufs| == |s.h.base + s.h.read|;
    }
  }

  /** From after the end to a success, with a whole chunk read on the way. */
  lemma ReadsOnAndFinishes(s: S, c: nat) returns (events: seq<Event>)
    requires Returning(s) && !s.h.paused && c == s.input.chunkSize > 0
    requires 2 * |s.output.bufs[|s.output.bufs| - 1]| < s.maxBuf
    ensures NoStart(events) && Run(s, events).h.finishes == [Success]
    ensures LastRead(Taken(s, events)) == Some(Reads(Full(c), Ok))
  {
    hide Returning, Step, Enabled;
    assert s.output.bufs != [] by { ReturningFacts(s); }
    var e := Reads(Full(c), Ok);
    var back := Acks(|s.output.bufs| - 1);
    ReturnRun(s);
    var t := Run(s, back);
    ReadsOn(t, c);
    var u := Step(t, e);
    ReturnRun(u);
    var v := Run(u, Acks(1));
    LastAck(v);
    var close := Acks(1) + [Writes(Ok)];
    RunAppend(u, Acks(1), [Writes(Ok)]);
    RunStep(v, Writes(Ok), []);
    assert [Writes(Ok)] == [Writes(Ok)] + [];
    RunStep(t, e, close);
    RunAppend(s, back, [e] + close);
    events := back + ([e] + close);
    assert ([e] + close)[1..] == close;
    AcksRead(u, close);
    LastReadAppend(Taken(s, back), Taken(t, [e] + close));
    assert Taken(t, [e] + close)[1..] == Taken(u, close);
  }

  /** Acknowledged writes read nothing. */
  lemma {:induction false} AcksRead(s: S, events: seq<Event>)
    requires forall k | 0 <= k < |events| :: events[k].Writes?
    ensures LastRead(Taken(s, events)) == None
    decreases |events|
  {
    hide Step, Enabled;
    if events != [] {
      var u := if Enabled(s, events[0]) then Step(s, events[0]) else s;
      AcksRead(u, events[1..]);
      assert Enabled(s, events[0]) ==> Taken(s, events)[1..] == Taken(u, events[1..]);
    }
  }

  /** The end was seen, more was read, and the finish is a success whose last read was not short. */
  lemma ReadsAfterEnd(s: S) returns (events: seq<Event>)
    requires CleanStart(s) && GoesBack(s)
    ensures NoStart(events) && Run(Started(s), events).h.finishes == [Success]
    ensures !EndsShort(Taken(Started(s), events), s.input.chunkSize)
  {
    hide Filling, Returning, Step, Enabled, CleanStart;
    var c, max := s.input.chunkSize, s.maxBuf;
    var k, r := max / c, max % c;
    assert k > 0 && k * c + r == max && 2 * r < max by { LimitSplit(c, max); }
    var first := [OutputOpens(Ok)] + ([InputOpens(Ok)] + []);
    var a := Run(Started(s), first);
    StartsFilling(s);
    FillRun(a, 0, k);
    var b := Run(a, WholeReads(c, k));
    ShortReachesLimit(b, k, r);
    var e := Reads(Full(r), Ok);
    var rest := ReadsOnAndFinishes(Step(b, e), c);
    RunStep(b, e, rest);
    RunAppend(a, WholeReads(c, k), [e] + rest);
    RunAppend(Started(s), first, WholeReads(c, k) + ([e] + rest));
    events := first + (WholeReads(c, k) + ([e] + rest));
    LastReadAppend(Taken(Started(s), first), Taken(a, WholeReads(c, k) + ([e] + rest)));
    LastReadAppend(Taken(a, WholeReads(c, k)), Taken(b, [e] + rest));
    assert ([e] + rest)[1..] == rest;
    LastReadAppend([e], Taken(Step(b, e), rest));
  }

  lemma LimitSplit(c: nat, max: nat)
    requires 0 < c < max
    ensures max / c > 0 && max / c * c + max % c == max && 2 * (max % c) < max
  {
    TimesMonotone(1, max / c, c);
  }

  /** What a clean start may read last before it reports success is decided by the limit and the chunk size. */
  lemma LastReadShortIff(s: S)
    requires CleanStart(s)
    ensures (forall events | NoStart(events) && Success in Run(Started(s), events).h.finishes ::
               EndsShort(Taken(Started(s), events), s.input.chunkSize))
            <==> !GoesBack(s)
  {
    hide Run, Taken, EndsShort, Once;
    if GoesBack(s) {
      var events := ReadsAfterEnd(s);
      assert Success in Run(Started(s), events).h.finishes;
    } else {
      forall events | NoStart(events) && Success in Run(Started(s), events).h.finishes
        ensures EndsShort(Taken(Started(s), events), s.input.chunkSize)
      {
        LastReadShort(s, events);
      }
    }
  }

  /** The last read before a success was short, without a limit also if the start had found something. */
  lemma LastReadShort(s: S, events: seq<Event>)
    requires Inv(s) && !s.started && s.output.req != Busy && NoStart(events)
    requires s.maxBuf == 0 || (CleanStart(s) && !GoesBack(s))
    requires Success in Run(Started(s), events).h.finishes
    ensures EndsShort(Taken(Started(s), events), s.input.chunkSize)
  {
    hide Run, Taken, EndsShort, Once;
    StartedKeeps(s);
    assert Once(Started(s)) && !Returns(Started(s)) by { StartedOnce(s); }
    EndIsLast(Started(s), events);
    EveryRun(Started(s), events);
    FinishedEnded(Run(Started(s), events));
  }

  lemma StartedOnce(s: S)
    requires s.maxBuf == 0 || (CleanStart(s) && !GoesBack(s))
    ensures Once(Started(s)) && !Returns(Started(s))
  {
  }
}
