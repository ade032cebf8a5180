/** `Streamer`, `FileInput` and `FileOutput`, and the completions of file requests that drive them. */
module Streamers {
  import opened Basics
  import M = StreamerModel
  import T = StreamerTheorems

  class FileInput {
    const chunkSize: nat
    var isOpen: bool
    var pause: bool
    var req: M.Request

    ghost function State(): M.Input
      reads this
    {
      M.Input(chunkSize, isOpen, pause, req)
    }

    constructor (chunkSize: nat)
      ensures State() == M.Input(chunkSize, false, false, M.NoRequest)
    {
      this.chunkSize, isOpen, pause, req := chunkSize, false, false, M.NoRequest;
    }

    method Start()
      modifies this
      ensures State() == old(State()).(req := M.Opening)
    {
      req := M.Opening;
    }

    /** Only when no other request is outstanding. */
    method DoRead()
      requires req == M.Done
      modifies this
      ensures State() == old(State()).(req := M.Busy)
    {
      req := M.Busy;
    }

    method Stop()
      modifies this
      ensures State() == M.InputStopped(old(State()))
    {
      req := M.NoRequest;
      if isOpen {
        isOpen := false;
      }
    }

    /** Looks at its request, so there has to be one. */
    method StartReading()
      requires req != M.NoRequest
      modifies this
      ensures State() == M.ReadingStarted(old(State()))
    {
      pause := false;
      if req != M.Opening && req != M.Busy {
        DoRead();
      }
    }

    method StopReading()
      modifies this
      ensures State() == old(State()).(pause := true)
    {
      pause := true;
    }
  }

  class FileOutput {
    var isOpen: bool
    var bufs: seq<M.Chunk>
    var bufsz: nat
    var req: M.Request

    ghost function State(): M.Output
      reads this
    {
      M.Output(isOpen, bufs, bufsz, req)
    }

    constructor ()
      ensures State() == M.Output(false, [], 0, M.NoRequest)
    {
      isOpen, bufs, bufsz, req := false, [], 0, M.NoRequest;
    }

    method Start()
      modifies this
      ensures State() == old(State()).(req := M.Opening)
    {
      req := M.Opening;
    }

    method Write(data: M.Chunk)
      requires isOpen && bufs == [] ==> req != M.Busy
      modifies this
      ensures State() == M.Written(old(State()), data)
    {
      bufsz := bufsz + |data|;
      bufs := bufs + [data];
      if |bufs| == 1 && isOpen {
        DoWrite();
      }
    }

    /** Writes the front of the buffers, so there has to be one, and no other write outstanding. */
    method DoWrite()
      requires bufs != [] && req != M.Busy
      modifies this
      ensures State() == old(State()).(req := M.Busy)
    {
      req := M.Busy;
    }

    method DropFront()
      requires bufs != [] && |bufs[0]| <= bufsz
      modifies this
      ensures State() == M.Popped(old(State()))
    {
      req := M.Done;
      bufsz := bufsz - |bufs[0]|;
      bufs := bufs[1..];
    }

    method Stop()
      modifies this
      ensures State() == M.OutputStopped(old(State()))
    {
      req := M.NoRequest;
      if isOpen {
        isOpen := false;
      }
    }
  }

  class Streamer {
    const input: FileInput
    const output: FileOutput
    const maxBuf: nat
    const thrBuf: nat
    var nread: nat
    var nwrite: nat
    var started: bool
    var inread: bool
    var eof: bool
    ghost var h: M.History

    ghost function S(): M.S
      reads this, input, output
    {
      M.S(input.State(), output.State(), maxBuf, nread, nwrite, started, inread, eof, h)
    }

    ghost predicate Valid()
      reads this, input, output
    {
      thrBuf == maxBuf * 2 / 3 && M.Inv(S())
    }

    constructor (input: FileInput, output: FileOutput, maxBuf: nat)
      requires input.State() == M.Input(input.chunkSize, false, false, M.NoRequest)
      requires output.State() == M.Output(false, [], 0, M.NoRequest)
      ensures this.input == input && this.output == output && S() == M.Fresh(input.chunkSize, maxBuf) && Valid()
    {
      this.input, this.output, this.maxBuf, thrBuf := input, output, maxBuf, maxBuf * 2 / 3;
      nread, nwrite, started, inread, eof := 0, 0, false, true, false;
      h := M.History([], [], false, [], [], 0, false);
    }

    method Start()
      requires Valid() && !started && output.req != M.Busy
      modifies this, input, output
      ensures S() == M.Started(old(S())) && Valid()
    {
      ghost var a := S();
      M.StartedKeeps(a);
      h := M.History([], [], false, [], output.bufs, nwrite, input.pause);
      input.Start();
      output.Start();
      started := true;
    }

    method Stop()
      requires Valid()
      modifies this, input, output
      ensures S() == M.Finished(old(S()), M.Stopped) && Valid()
    {
      M.StoppedKeeps(S());
      Finish(M.Stopped);
    }

    method Finish(how: M.Outcome)
      modifies this, input, output
      ensures S() == M.Finished(old(S()), how)
    {
      if !started {
        return;
      }
      input.Stop();
      output.Stop();
      started := false;
      inread := true;
      eof := false;
      nread := 0;
      nwrite := 0;
      h := h.(finishes := h.finishes + [how]);
    }

    method HandleRead(data: M.Chunk)
      requires output.isOpen && output.bufs == [] ==> output.req != M.Busy
      modifies this, input, output
      ensures S() == M.ReadHandled(old(S()), data)
    {
      nread := nread + 1;
      h := h.(read := h.read + [data]);
      output.Write(data);
      if maxBuf != 0 && output.bufsz >= maxBuf {
        input.StopReading();
        inread := false;
      }
    }

    method HandleEof()
      modifies this, input, output
      ensures S() == M.EofHandled(old(S()))
    {
      h := h.(ended := true);
      if nwrite == nread {
        Finish(M.Success);
        return;
      }
      eof := true;
    }

    method HandleWrite()
      requires thrBuf == maxBuf * 2 / 3 && (!inread ==> input.req != M.NoRequest)
      modifies this, input, output
      ensures S() == M.WriteHandled(old(S()))
    {
      nwrite := nwrite + 1;
      if eof && nwrite == nread {
        Finish(M.Success);
        return;
      }
      if !inread && output.bufsz <= thrBuf {
        input.StartReading();
        inread := true;
      }
    }

    // ---------------------------------------------------------------- completions

    method InputOpened(err: Err)
      requires Valid() && input.req == M.Opening
      modifies this, input, output
      ensures S() == M.InputOpened(old(S()), err) && Valid()
    {
      hide M.Inv, M.Finished;
      M.InputOpenedKeeps(S(), err);
      input.req := M.Done;
      if err != Ok {
        Finish(M.ReadError(err));
        return;
      }
      input.isOpen := true;
      input.DoRead();
    }

    method ReadDone(data: M.Chunk, err: Err)
      requires Valid() && input.req == M.Busy && |data| <= input.chunkSize
      modifies this, input, output
      ensures S() == M.ReadDone(old(S()), data, err) && Valid()
    {
      hide M.Inv, M.Finished, M.ReadHandled, M.EofHandled;
      M.ReadDoneKeeps(S(), data, err);
      M.IdleOutput(S());
      input.req := M.Done;
      if err != Ok {
        Finish(M.ReadError(err));
        return;
      }
      if |data| != 0 {
        M.ReadHandledFacts(S(), data);
        HandleRead(data);
      }
      if |data| < input.chunkSize {
        HandleEof();
        return;
      }
      if !input.pause {
        input.DoRead();
      }
    }

    method OutputOpened(err: Err)
      requires Valid() && output.req == M.Opening
      modifies this, input, output
      ensures S() == M.OutputOpened(old(S()), err) && Valid()
    {
      hide M.Inv, M.Finished;
      M.OutputOpenedKeeps(S(), err);
      output.req := M.Done;
      if err != Ok {
        Finish(M.WriteError(err));
        return;
      }
      output.isOpen := true;
      if |output.bufs| != 0 {
        output.DoWrite();
      }
    }

    method WriteDone(err: Err)
      requires Valid() && output.req == M.Busy
      modifies this, input, output
      ensures old(output.bufs) != [] && |old(output.bufs)[0]| <= old(output.bufsz)
      ensures S() == M.WriteDone(old(S()), err) && Valid()
    {
      hide M.Inv, M.Finished, M.WriteHandled;
      ghost var a := S();
      M.WriteDoneKeeps(a, err);
      M.PausedHasRequest(a);
      h := if started && err == Ok then h.(acked := h.acked + [output.bufs[0]]) else h;
      output.DropFront();
      assert S() == M.Acked(a, err);
      if err != Ok {
        M.FinishedFacts(S(), M.WriteError(err));
        Finish(M.WriteError(err));
      } else {
        M.WriteHandledFacts(S());
        HandleWrite();
      }
      if |output.bufs| != 0 {
        output.DoWrite();
      }
    }

    /** Any run: a completion that has no request is skipped. */
    method Run(events: seq<T.Event>)
      requires Valid()
      modifies this, input, output
      ensures S() == T.Run(old(S()), events) && Valid()
    {
      hide M.Inv, M.Started, M.Finished, M.InputOpened, M.ReadDone, M.OutputOpened, M.WriteDone;
      for k := 0 to |events|
        invariant Valid() && T.Run(S(), events[k..]) == T.Run(old(S()), events)
      {
        assert events[k..][0] == events[k] && events[k..][1..] == events[k + 1..];
        Handle(events[k]);
      }
      assert events[|events|..] == [];
    }

    method Handle(e: T.Event)
      requires Valid()
      modifies this, input, output
      ensures S() == (if T.Enabled(old(S()), e) then T.Step(old(S()), e) else old(S())) && Valid()
    {
      hide M.Inv, M.Started, M.Finished, M.InputOpened, M.ReadDone, M.OutputOpened, M.WriteDone;
      match e {
        case Start =>
          if !started && output.req != M.Busy {
            Start();
          }
        case Stop =>
          Stop();
        case InputOpens(err) =>
          if input.req == M.Opening {
            InputOpened(err);
          }
        case Reads(data, err) =>
          if input.req == M.Busy && |data| <= input.chunkSize {
            ReadDone(data, err);
          }
        case OutputOpens(err) =>
          if output.req == M.Opening {
            OutputOpened(err);
          }
        case Writes(err) =>
          if output.req == M.Busy {
            WriteDone(err);
          }
      }
    }
  }
}
