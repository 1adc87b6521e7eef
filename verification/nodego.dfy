/**
 * The duplex pipe of the root package (pipes.go, and duplex_pipe.go, which
 * differs only in the open flags): a name search of its own for an in and
 * an out FIFO, a constructor that makes both FIFOs, and a handle that
 * reads from the in FIFO, writes to the out FIFO and closes the out FIFO
 * first, then the in FIFO.
 */
module Nodego {
  import opened Os
  import opened RandomNames
  import opened StreamPaths
  import opened FifoPipes

  /** `fileIsNotExist`: `os.Stat` fails with a does-not-exist error. It is
      the test of `filesAreValid` without the emptiness check, and every
      path the file system does not list passes it. */
  predicate FileIsNotExist(fs: FileSystem, file: Path): (notExist: bool)
    ensures file != [] ==> (notExist <==> ValidPath(file, fs))
    ensures file !in fs.entries ==> notExist
  {
    Stat(fs, file).Missing?
  }

  /** One attempt of the pair search: the token's in and out paths are
      returned when both are free, otherwise the search goes on. */
  lemma PairAttempt(state: Uint32, i: nat, tmpDir: Path, fs: FileSystem, reseed: Clock)
    requires i < Attempts
    ensures var next := NextState(state, Reading(reseed, i));
            var pipeIn := Join(tmpDir, Token(next) + InSuffix);
            var pipeOut := Join(tmpDir, Token(next) + OutSuffix);
            var o := SearchFrom(state, i, StreamPatterns, tmpDir, fs, reseed);
            var rest := SearchFrom(next, i + 1, StreamPatterns, tmpDir, fs, reseed);
            && (FileIsNotExist(fs, pipeIn) && FileIsNotExist(fs, pipeOut) ==>
                  o.result == Ok([pipeIn, pipeOut]) && o.state == next)
            && (!(FileIsNotExist(fs, pipeIn) && FileIsNotExist(fs, pipeOut)) ==>
                  o.result == rest.result && o.state == rest.state)
  {
    var next := NextState(state, Reading(reseed, i));
    SearchFromStep(state, i, StreamPatterns, tmpDir, fs, reseed);
    StreamCandidates(tmpDir, Token(next));
    PairValid(InPath(tmpDir, Token(next)), OutPath(tmpDir, Token(next)), fs);
  }

  /** One pass of the loop body of `getRandomPipeNames`: draw a token and
      probe its in and out paths. */
  method DrawPair(g: Generator, i: nat, tmpDir: Path, fs: FileSystem, reseed: Clock)
    returns (pipeIn: Path, pipeOut: Path, free: bool)
    requires i < Attempts
    modifies g
    ensures g.state == NextState(old(g.state), Reading(reseed, i))
    ensures pipeIn == InPath(tmpDir, Token(g.state)) && pipeOut == OutPath(tmpDir, Token(g.state))
    ensures var o := SearchFrom(old(g.state), i, StreamPatterns, tmpDir, fs, reseed);
            var rest := SearchFrom(g.state, i + 1, StreamPatterns, tmpDir, fs, reseed);
            && (free ==> o.result == Ok([pipeIn, pipeOut]) && o.state == g.state)
            && (!free ==> o.result == rest.result && o.state == rest.state)
  {
    ghost var before := g.state;
    var randName := g.Next(Reading(reseed, i));
    pipeIn := Join(tmpDir, randName + InSuffix);
    pipeOut := Join(tmpDir, randName + OutSuffix);
    PairAttempt(before, i, tmpDir, fs, reseed);
    free := FileIsNotExist(fs, pipeIn) && FileIsNotExist(fs, pipeOut);
  }

  /**
   * `getRandomPipeNames` of the root package: a loop of its own, with
   * `break` on the first token whose in and out paths are both free, that
   * finds exactly what the generic temp-file search finds for the patterns
   * `*.in.pipe` and `*.out.pipe`, and leaves the generator in the same
   * state; its errors come back with two empty names.
   */
  method GetRandomPipeNames(g: Generator, tmpDir: Path, dirStat: StatResult, fs: FileSystem, reseed: Clock)
    returns (names: PipeNames)
    modifies g
    ensures var o := TempFiles(old(g.state), StreamPatterns, tmpDir, dirStat, fs, reseed);
            g.state == o.state && names == NamesOf(o.result)
  {
    if !dirStat.Exists? {
      return PipeNames("", "", Some(dirStat.err));
    }
    ghost var goal := SearchFrom(g.state, 0, StreamPatterns, tmpDir, fs, reseed);
    assert goal == TempFiles(old(g.state), StreamPatterns, tmpDir, dirStat, fs, reseed);
    var pipeIn, pipeOut := "", "";
    var i := 0;
    while i < Attempts
      invariant 0 <= i <= Attempts
      invariant SearchFrom(g.state, i, StreamPatterns, tmpDir, fs, reseed).result == goal.result
      invariant SearchFrom(g.state, i, StreamPatterns, tmpDir, fs, reseed).state == goal.state
    {
      var free;
      pipeIn, pipeOut, free := DrawPair(g, i, tmpDir, fs, reseed);
      if free {
        break;
      }
      i := i + 1;
    }
    if i >= Attempts {
      assert goal.result == Err(ErrExhausted);
      return PipeNames("", "", Some(ErrExhausted));
    }
    return PipeNames(pipeIn, pipeOut, None);
  }

  /** The open flags of the in and the out FIFO. */
  datatype DuplexFlags = DuplexFlags(inFlag: Flag, outFlag: Flag)

  /** pipes.go: the in FIFO with O_CREATE alone, the out FIFO write-only, create, append. */
  const PipesFlags := DuplexFlags(O_CREATE, O_WRONLY | O_CREATE | O_APPEND)

  /** duplex_pipe.go: the in FIFO read-only, the out FIFO write-only, append. */
  const DuplexPipeFlags := DuplexFlags(O_RDONLY, O_WRONLY | O_APPEND)

  /** The duplex handle: two FIFO handles it owns, one per direction. */
  class DuplexPipe {
    const inPipe: FifoPipe
    const outPipe: FifoPipe

    /** The two directions are separate handles (the struct holds copies). */
    ghost predicate Valid()
      reads this
    {
      inPipe != outPipe
    }

    constructor (inPipe: FifoPipe, outPipe: FifoPipe)
      requires inPipe != outPipe
      ensures this.inPipe == inPipe && this.outPipe == outPipe && Valid()
    {
      this.inPipe := inPipe;
      this.outPipe := outPipe;
    }

    /** `Write` goes to the out FIFO; the in FIFO is untouched. */
    method Write(os: Trace, data: seq<bv8>, open: Result<File>, io: IoResult) returns (r: IoResult)
      requires Valid()
      modifies outPipe`file, os
      ensures outPipe.TransferStep(os, WriteOut(data), open, io, r)
      ensures inPipe.file == old(inPipe.file)
    {
      r := outPipe.Write(os, data, open, io);
    }

    /** `Read` comes from the in FIFO; the out FIFO is untouched. */
    method Read(os: Trace, room: nat, open: Result<File>, io: IoResult) returns (r: IoResult)
      requires Valid()
      modifies inPipe`file, os
      ensures inPipe.TransferStep(os, ReadInto(room), open, io, r)
      ensures outPipe.file == old(outPipe.file)
    {
      r := inPipe.Read(os, room, open, io);
    }

    /**
     * `Close`: the out FIFO is closed and removed first, then the in FIFO;
     * the in FIFO's error wins over the out FIFO's.
     */
    method Close(os: Trace, outFileClose: Option<Error>, outRemove: Option<Error>,
                 inFileClose: Option<Error>, inRemove: Option<Error>)
      returns (err: Option<Error>)
      modifies os
      ensures os.calls == old(os.calls) + outPipe.CloseCalls() + inPipe.CloseCalls()
      ensures var outErr := outPipe.CloseError(outFileClose, outRemove);
              var inErr := inPipe.CloseError(inFileClose, inRemove);
              err == if inErr.Some? then inErr else outErr
    {
      err := outPipe.Close(os, outFileClose, outRemove);
      var e := inPipe.Close(os, inFileClose, inRemove);
      if e.Some? {
        err := e;
      }
    }
  }

  /**
   * `NewDuplexPipe`: find the pair of names, make the in FIFO, then the out
   * FIFO, each with its flag. A failure at any step is returned with no
   * handle; the in FIFO made before a failed out FIFO is left behind.
   */
  method NewDuplexPipe(os: Trace, g: Generator, flags: DuplexFlags, tmpDir: Path, dirStat: StatResult,
                       fs: FileSystem, reseed: Clock, mkfifoIn: Option<Error>, mkfifoOut: Option<Error>)
    returns (d: DuplexPipe?, err: Option<Error>)
    modifies os, g
    ensures var o := TempFiles(old(g.state), StreamPatterns, tmpDir, dirStat, fs, reseed);
            var names := NamesOf(o.result);
            && g.state == o.state
            && (names.err.Some? ==> d == null && err == names.err && os.calls == old(os.calls))
            && (names.err.None? && mkfifoIn.Some? ==>
                  d == null && err == mkfifoIn && os.calls == old(os.calls) + [Mkfifo(names.pipeIn, OwnerOnly)])
            && (names.err.None? && mkfifoIn.None? ==>
                  os.calls == old(os.calls) + [Mkfifo(names.pipeIn, OwnerOnly), Mkfifo(names.pipeOut, OwnerOnly)])
            && (names.err.None? && mkfifoIn.None? && mkfifoOut.Some? ==> d == null && err == mkfifoOut)
            && (names.err.None? && mkfifoIn.None? && mkfifoOut.None? ==>
                  && err == None && d != null && fresh(d) && d.Valid()
                  && fresh(d.inPipe) && d.inPipe.name == names.pipeIn && d.inPipe.flag == flags.inFlag
                  && fresh(d.outPipe) && d.outPipe.name == names.pipeOut && d.outPipe.flag == flags.outFlag
                  && d.inPipe.file == None && d.inPipe.Unopened()
                  && d.outPipe.file == None && d.outPipe.Unopened())
  {
    var names := GetRandomPipeNames(g, tmpDir, dirStat, fs, reseed);
    if names.err.Some? {
      return null, names.err;
    }
    var inPipe, inErr := NewFifoPipe(os, names.pipeIn, flags.inFlag, mkfifoIn);
    if inErr.Some? {
      return null, inErr;
    }
    var outPipe, outErr := NewFifoPipe(os, names.pipeOut, flags.outFlag, mkfifoOut);
    if outErr.Some? {
      return null, outErr;
    }
    d := new DuplexPipe(inPipe, outPipe);
    err := None;
  }
}
