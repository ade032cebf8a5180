/**
A streamer that copies a file to a file: `Streamer.cc` with the two ends of `streamer/File.cc`, as a value.

The file system is an oracle: each request handed to it is answered by one later event.  A request
that is cancelled does not call back.
*/
module StreamerModel {
  import opened Basics

  type Chunk = string

  datatype Request = NoRequest | Opening | Busy | Done

  /** `FileInput`: `req` is its `fsreq`, `Busy` while a read is outstanding. */
  datatype Input = Input(chunkSize: nat, isOpen: bool, pause: bool, req: Request)

  /** `FileOutput`: `Busy` while a write is outstanding. */
  datatype Output = Output(isOpen: bool, bufs: seq<Chunk>, bufsz: nat, req: Request)

  datatype Outcome = Success | ReadError(err: Err) | WriteError(err: Err) | Stopped

  /**
  What happened since the last start: the chunks read and those acknowledged, whether the end was
  seen, how it finished, and what the start had found in the buffers, in `nwrite` and in `pause`.
  */
  datatype History = History(
    read: seq<Chunk>, acked: seq<Chunk>, ended: bool, finishes: seq<Outcome>,
    base: seq<Chunk>, before: nat, paused: bool)

  datatype S = S(
    input: Input, output: Output, maxBuf: nat,
    nread: nat, nwrite: nat, started: bool, inread: bool, eof: bool, h: History)
  {
    function ThrBuf(): nat { maxBuf * 2 / 3 }
  }

  function Total(bufs: seq<Chunk>): nat {
    if bufs == [] then 0 else |bufs[0]| + Total(bufs[1..])
  }

  lemma {:induction false} TotalAppend(bufs: seq<Chunk>, c: Chunk)
    ensures Total(bufs + [c]) == Total(bufs) + |c|
  {
    if bufs != [] {
      assert (bufs + [c])[1..] == bufs[1..] + [c];
      TotalAppend(bufs[1..], c);
    }
  }

  // ---------------------------------------------------------------- the two ends

  function InputStopped(i: Input): Input {
    i.(req := NoRequest, isOpen := false)
  }

  function ReadingStarted(i: Input): Input {
    i.(pause := false, req := if i.req == Opening || i.req == Busy then i.req else Busy)
  }

  function Written(o: Output, data: Chunk): Output {
    o.(bufsz := o.bufsz + |data|, bufs := o.bufs + [data],
       req := if o.bufs == [] && o.isOpen then Busy else o.req)
  }

  /** The acknowledged chunk leaves the buffers. */
  function Popped(o: Output): Output
    requires o.bufs != [] && |o.bufs[0]| <= o.bufsz
  {
    o.(bufsz := o.bufsz - |o.bufs[0]|, bufs := o.bufs[1..], req := Done)
  }

  function OutputStopped(o: Output): Output {
    o.(req := NoRequest, isOpen := false)
  }

  /** `do_write`, if anything is left. */
  function WriteMore(o: Output): Output {
    if o.bufs != [] then o.(req := Busy) else o
  }

  // ---------------------------------------------------------------- the streamer

  function Started(s: S): S {
    s.(started := true, input := s.input.(req := Opening), output := s.output.(req := Opening),
       h := History([], [], false, [], s.output.bufs, s.nwrite, s.input.pause))
  }

  function Finished(s: S, how: Outcome): S {
    if !s.started then s
    else s.(input := InputStopped(s.input), output := OutputStopped(s.output),
            started := false, inread := true, eof := false, nread := 0, nwrite := 0,
            h := s.h.(finishes := s.h.finishes + [how]))
  }

  function ReadHandled(s: S, data: Chunk): S {
    var w := s.(nread := s.nread + 1, output := Written(s.output, data), h := s.h.(read := s.h.read + [data]));
    if s.maxBuf != 0 && w.output.bufsz >= s.maxBuf
    then w.(input := w.input.(pause := true), inread := false) else w
  }

  function EofHandled(s: S): S {
    var t := s.(h := s.h.(ended := true));
    if s.nwrite == s.nread then Finished(t, Success) else t.(eof := true)
  }

  /** `handle_write` without an error. */
  function WriteHandled(s: S): S {
    var t := s.(nwrite := s.nwrite + 1);
    if t.eof && t.nwrite == t.nread then Finished(t, Success)
    else if !t.inread && t.output.bufsz <= t.ThrBuf()
    then t.(input := ReadingStarted(t.input), inread := true) else t
  }

  // ---------------------------------------------------------------- completions of file requests

  function InputOpened(s: S, err: Err): S {
    var t := s.(input := s.input.(req := Done));
    if err != Ok then Finished(t, ReadError(err))
    else t.(input := t.input.(isOpen := true, req := Busy))
  }

  function ReadDone(s: S, data: Chunk, err: Err): S {
    var t := s.(input := s.input.(req := Done));
    if err != Ok then Finished(t, ReadError(err)) else
    var u := if |data| > 0 then ReadHandled(t, data) else t;
    if |data| < s.input.chunkSize then EofHandled(u)
    else if !u.input.pause then u.(input := u.input.(req := Busy))
    else u
  }

  function OutputOpened(s: S, err: Err): S {
    var t := s.(output := s.output.(req := Done));
    if err != Ok then Finished(t, WriteError(err))
    else t.(output := WriteMore(t.output.(isOpen := true)))
  }

  /** The chunk is acknowledged, unless the write failed or nobody is streaming any more. */
  function Acked(s: S, err: Err): S
    requires s.output.bufs != [] && |s.output.bufs[0]| <= s.output.bufsz
  {
    s.(output := Popped(s.output),
       h := if s.started && err == Ok then s.h.(acked := s.h.acked + [s.output.bufs[0]]) else s.h)
  }

  function WriteDone(s: S, err: Err): S
    requires s.output.bufs != [] && |s.output.bufs[0]| <= s.output.bufsz
  {
    var t := Acked(s, err);
    var u := if err != Ok then Finished(t, WriteError(err)) else WriteHandled(t);
    u.(output := WriteMore(u.output))
  }

  // ---------------------------------------------------------------- the invariant

  /** The buffers, and at most one outstanding write, of their front. */
  ghost predicate OutputOk(s: S) {
    && s.output.bufsz == Total(s.output.bufs)
    && (s.output.req == Busy ==> s.output.bufs != [])
    && (s.started ==>
          if s.output.isOpen then s.output.req == (if s.output.bufs == [] then Done else Busy)
          else s.output.req == Opening)
    && (!s.started ==> !s.output.isOpen && s.output.req != Opening)
  }

  ghost predicate InputOk(s: S) {
    if s.started
    then if s.input.isOpen then s.input.req == Busy || s.input.req == Done else s.input.req == Opening
    else !s.input.isOpen && s.input.req == NoRequest
  }

  /** The start found nothing that the last one had left unwritten or miscounted. */
  ghost predicate Orderly(s: S) {
    s.h.before == 0 && s.h.base == []
  }

  /** What was read is what was acknowledged and what is buffered, behind what the start had found buffered. */
  ghost predicate Counted(s: S) {
    if s.started
    then
      && s.nread == |s.h.read| && s.nwrite == s.h.before + |s.h.acked|
      && s.h.acked + s.output.bufs == s.h.base + s.h.read
      && (s.eof <==> s.h.ended)
      && (s.eof && Orderly(s) ==> |s.h.acked| < |s.h.read|)
      && s.h.finishes == []
    else
      && s.nread == 0 && s.inread && !s.eof
      && |s.h.finishes| <= 1
      && (Success in s.h.finishes ==> Delivered(s.h))
  }

  /** What a finish without an error amounts to. */
  ghost predicate Delivered(h: History) {
    && h.ended
    && h.before + |h.acked| == |h.read|
    && h.acked <= h.base + h.read
  }

  /**
  Flow control.  A `pause` that `inread` does not know of was there at the start; it ends reading
  after one chunk, unless that chunk is short or fills the buffers.
  */
  ghost predicate FlowOk(s: S) {
    s.started ==>
      && (s.input.req == Busy || s.input.req == Opening ==> s.inread)
      && (!s.inread ==> s.input.pause && s.maxBuf != 0 && s.output.bufsz > s.ThrBuf())
      && (s.inread && s.input.pause ==> s.h.paused)
      && (s.input.req == Done && s.inread ==> s.h.ended || (s.input.pause && !Fills(s)))
      && (s.input.chunkSize == 0 ==> s.inread && !s.h.ended)
      && (s.maxBuf != 0 && Total(s.h.base) < s.maxBuf ==> Bounded(s))
  }

  /** Whether a whole chunk fills the buffers. */
  predicate Fills(s: S) {
    0 < s.maxBuf <= s.input.chunkSize
  }

  ghost predicate Bounded(s: S) {
    (s.inread ==> s.output.bufsz < s.maxBuf) && s.output.bufsz <= s.maxBuf - 1 + s.input.chunkSize
  }

  ghost predicate Inv(s: S) {
    OutputOk(s) && InputOk(s) && Counted(s) && FlowOk(s)
  }

  /** A streamer not yet started. */
  function Fresh(chunkSize: nat, maxBuf: nat): S {
    S(Input(chunkSize, false, false, NoRequest), Output(false, [], 0, NoRequest), maxBuf, 0, 0, false, true, false,
      History([], [], false, [], [], 0, false))
  }

  lemma StartedKeeps(s: S)
    requires Inv(s) && !s.started && s.output.req != Busy
    ensures Inv(Started(s))
  {
  }

  /** A finish from within a completion, whatever requests are outstanding. */
  lemma FinishedKeeps(s: S, how: Outcome)
    requires s.started && s.h.finishes == [] && s.output.bufsz == Total(s.output.bufs)
    requires how == Success ==> Delivered(s.h)
    ensures Inv(Finished(s, how)) && Finished(s, how).output.req == NoRequest
  {
  }

  lemma StoppedKeeps(s: S)
    requires Inv(s)
    ensures Inv(Finished(s, Stopped))
  {
    if s.started {
      FinishedKeeps(s, Stopped);
    }
  }

  lemma InputOpenedKeeps(s: S, err: Err)
    requires Inv(s) && s.input.req == Opening
    ensures Inv(InputOpened(s, err))
  {
    if err != Ok {
      FinishedKeeps(s.(input := s.input.(req := Done)), ReadError(err));
    }
  }

  /** In the callback of a read of `n` bytes, after the data was passed on. */
  ghost predicate JustRead(u: S, n: nat) {
    && u.started && OutputOk(u) && Counted(u) && u.input.isOpen && u.input.req == Done && n <= u.input.chunkSize
    && (n > 0 && Orderly(u) ==> |u.h.acked| < |u.h.read|)
    && (!u.inread ==> u.input.pause && u.maxBuf != 0 && u.output.bufsz > u.ThrBuf())
    && (u.inread && u.input.pause ==> u.h.paused)
    && (u.inread && Fills(u) ==> n < u.input.chunkSize)
    && (u.input.chunkSize == 0 ==> u.inread && !u.h.ended)
    && (u.maxBuf != 0 && Total(u.h.base) < u.maxBuf ==> Bounded(u))
  }

  lemma ReadHandledKeeps(s: S, data: Chunk)
    requires Inv(s) && s.input.req == Busy && |data| <= s.input.chunkSize
    ensures var t := s.(input := s.input.(req := Done));
            JustRead(if |data| > 0 then ReadHandled(t, data) else t, |data|)
  {
    TotalAppend(s.output.bufs, data);
    assert s.h.acked + (s.output.bufs + [data]) == s.h.acked + s.output.bufs + [data];
    assert s.h.base + (s.h.read + [data]) == s.h.base + s.h.read + [data];
  }

  lemma EofKeeps(u: S, n: nat)
    requires JustRead(u, n) && n < u.input.chunkSize
    ensures Inv(EofHandled(u))
  {
    assert u.h.acked <= u.h.base + u.h.read;
    if u.nwrite == u.nread {
      FinishedKeeps(u.(h := u.h.(ended := true)), Success);
    }
  }

  lemma NextReadKeeps(u: S, n: nat)
    requires JustRead(u, n) && n == u.input.chunkSize
    ensures Inv(if !u.input.pause then u.(input := u.input.(req := Busy)) else u)
  {
  }

  lemma ReadDoneKeeps(s: S, data: Chunk, err: Err)
    requires Inv(s) && s.input.req == Busy && |data| <= s.input.chunkSize
    ensures Inv(ReadDone(s, data, err))
  {
    hide ReadHandled, EofHandled, JustRead;
    var t := s.(input := s.input.(req := Done));
    if err != Ok {
      FinishedKeeps(t, ReadError(err));
    } else {
      ReadHandledKeeps(s, data);
      ReadHandledFacts(t, data);
      var u := if |data| > 0 then ReadHandled(t, data) else t;
      if |data| < s.input.chunkSize {
        EofKeeps(u, |data|);
      } else {
        NextReadKeeps(u, |data|);
      }
    }
  }

  lemma ReadHandledFacts(t: S, data: Chunk)
    ensures ReadHandled(t, data).input == t.input.(pause := ReadHandled(t, data).input.pause)
    ensures ReadHandled(t, data).maxBuf == t.maxBuf && SameStart(t, ReadHandled(t, data))
  {
  }

  /** Both states belong to the same start. */
  ghost predicate SameStart(s: S, t: S) {
    && t.h.base == s.h.base && t.h.before == s.h.before && t.h.paused == s.h.paused
    && t.input.chunkSize == s.input.chunkSize && t.maxBuf == s.maxBuf
  }

  lemma ReadDoneSameStart(s: S, data: Chunk, err: Err)
    ensures SameStart(s, ReadDone(s, data, err))
  {
    hide ReadHandled, EofHandled, Finished;
    var t := s.(input := s.input.(req := Done));
    ReadHandledFacts(t, data);
    FinishedSameStart(t, ReadError(err));
    EofSameStart(if |data| > 0 then ReadHandled(t, data) else t);
  }

  lemma FinishedSameStart(s: S, how: Outcome)
    ensures SameStart(s, Finished(s, how))
  {
  }

  lemma EofSameStart(s: S)
    ensures SameStart(s, EofHandled(s))
  {
  }

  lemma FinishedFacts(t: S, how: Outcome)
    requires t.output.req != Busy
    ensures Finished(t, how).output.req != Busy
  {
  }

  lemma WriteHandledFacts(t: S)
    requires t.output.req != Busy
    ensures WriteHandled(t).output.req != Busy && SameStart(t, WriteHandled(t))
  {
  }

  lemma WriteDoneSameStart(s: S, err: Err)
    requires s.output.bufs != [] && |s.output.bufs[0]| <= s.output.bufsz
    ensures SameStart(s, WriteDone(s, err))
  {
    hide WriteHandled;
    WriteHandledFacts(Acked(s, err));
  }

  lemma OutputOpenedKeeps(s: S, err: Err)
    requires Inv(s) && s.output.req == Opening
    ensures Inv(OutputOpened(s, err))
  {
    if err != Ok {
      FinishedKeeps(s.(output := s.output.(req := Done)), WriteError(err));
    }
  }

  lemma AckedKeeps(s: S)
    requires Inv(s) && s.output.req == Busy && s.started
    ensures s.output.bufs != [] && |s.output.bufs[0]| <= s.output.bufsz
    ensures var t := Acked(s, Ok).(nwrite := s.nwrite + 1);
            && t.nread == |t.h.read| && t.nwrite == t.h.before + |t.h.acked| && t.output.bufsz == Total(t.output.bufs)
            && t.h.acked + t.output.bufs == t.h.base + t.h.read && t.h.acked <= t.h.base + t.h.read
            && (Orderly(t) ==> |t.h.acked| <= |t.h.read|)
  {
    assert s.h.acked + [s.output.bufs[0]] + s.output.bufs[1..] == s.h.acked + s.output.bufs;
  }

  lemma WriteDoneKeeps(s: S, err: Err)
    requires Inv(s) && s.output.req == Busy
    ensures s.output.bufs != [] && |s.output.bufs[0]| <= s.output.bufsz
    ensures Inv(WriteDone(s, err))
  {
    if s.started {
      AckedKeeps(s);
      var t := Acked(s, Ok).(nwrite := s.nwrite + 1);
      if err == Ok && t.eof && t.nwrite == t.nread {
        FinishedKeeps(t, Success);
      } else if err != Ok {
        FailedAck(s, err);
      }
    }
  }

  /** A failed write finishes the stream; its chunk is out of the buffers, the others are still written. */
  lemma FailedAck(s: S, err: Err)
    requires Inv(s) && s.output.req == Busy && s.started && err != Ok
    ensures s.output.bufs != [] && |s.output.bufs[0]| <= s.output.bufsz
    ensures Inv(WriteDone(s, err))
  {
  }

  /** While paused `FileInput` has a request to look at. */
  lemma PausedHasRequest(s: S)
    requires Inv(s)
    ensures !s.inread ==> s.started && s.input.req != NoRequest
  {
  }

  /** With nothing buffered no write is outstanding. */
  lemma IdleOutput(s: S)
    requires Inv(s)
    ensures s.output.bufs == [] ==> s.output.req != Busy
  {
  }
}
