/**
 * A named FIFO on the file system wrapped as a read-write-close handle
 * (pipes/fifopipe_unix.go; pipes/fifopipe.go and the `pipe` type of
 * pipes.go carry the same fields and method bodies). The FIFO is created
 * by the constructor function; the file itself is opened lazily by the
 * first Read or Write.
 *
 * As written, no method ever sets `opened` or `closed`: they stay false for
 * the life of a handle, so every Read and Write opens the FIFO again, and
 * the "can't be reopened" and "already closed" errors are unreachable
 * through Read, Write and Close.
 */
module FifoPipes {
  import opened Os
  import opened Pipe
  import opened RandomNames
  import opened StreamPaths

  const ErrCannotReopen := Msg("Pipes can't be reopened")

  /** One data transfer on the file: a Read with room for `room` bytes or a Write of `data`. */
  datatype Transfer = ReadInto(room: nat) | WriteOut(data: seq<bv8>)

  /** The OS call a transfer makes on an open file. */
  function TransferCall(t: Transfer, f: File): Call {
    match t
    case ReadInto(room) => FileRead(f, room)
    case WriteOut(data) => FileWrite(f, data)
  }

  class FifoPipe {
    const name: Path
    const flag: Flag
    var file: Option<File>
    var isOpened: bool
    var isClosed: bool

    /** The state every handle starts in and, as written, keeps. */
    predicate Unopened()
      reads this
    {
      !isOpened && !isClosed
    }

    /** The struct literal of `NewFifoPipe`: no file yet, neither flag set. */
    constructor (name: Path, flag: Flag)
      ensures this.name == name && this.flag == flag
      ensures file == None && Unopened()
    {
      this.name := name;
      this.flag := flag;
      file := None;
      isOpened := false;
      isClosed := false;
    }

    /** `Name`: the one path serves as both the in and the out stream. */
    function Name(): (names: StreamNames)
      reads this
      ensures names.inPath == name && names.outPath == name
    {
      StreamNames(name, name)
    }

    /**
     * `Open`: refused once the handle is marked opened; otherwise the FIFO
     * is opened with the handle's flag and the file (nil on error)
     * replaces whatever file the handle held. `open` is what
     * `os.OpenFile` returns.
     */
    method Open(os: Trace, open: Result<File>) returns (err: Option<Error>)
      modifies this`file, os
      ensures isOpened ==> err == Some(ErrCannotReopen) && file == old(file) && os.calls == old(os.calls)
      ensures !isOpened ==>
        && err == ErrorOf(open)
        && file == ValueOrNil(open)
        && os.calls == old(os.calls) + [OpenFile(name, flag)]
    {
      if isOpened {
        return Some(ErrCannotReopen);
      }
      os.calls := os.calls + [OpenFile(name, flag)];
      file := ValueOrNil(open);
      err := ErrorOf(open);
    }

    /** `tryOpen`: open when not marked opened, else fail when marked closed. */
    method TryOpen(os: Trace, open: Result<File>) returns (err: Option<Error>)
      modifies this`file, os
      ensures !isOpened ==>
        && err == ErrorOf(open)
        && file == ValueOrNil(open)
        && os.calls == old(os.calls) + [OpenFile(name, flag)]
      ensures isOpened ==>
        && err == (if isClosed then Some(ErrAlreadyClosed) else None)
        && file == old(file) && os.calls == old(os.calls)
    {
      if !isOpened {
        err := Open(os, open);
      } else if isClosed {
        err := Some(ErrAlreadyClosed);
      } else {
        err := None;
      }
    }

    /**
     * The effect of a Read or Write: `tryOpen` first, then the transfer on
     * the file. A nil file answers `os.ErrInvalid` without an OS call; `io`
     * is what the transfer on an open file returns.
     */
    twostate predicate TransferStep(os: Trace, t: Transfer, open: Result<File>, io: IoResult, r: IoResult)
      reads this, os
    {
      if !isOpened then
        && file == ValueOrNil(open)
        && match open
           case Err(e) =>
             r == IoResult(0, Some(e)) && os.calls == old(os.calls) + [OpenFile(name, flag)]
           case Ok(f) =>
             r == io && os.calls == old(os.calls) + [OpenFile(name, flag), TransferCall(t, f)]
      else
        && file == old(file)
        && if isClosed then r == IoResult(0, Some(ErrAlreadyClosed)) && os.calls == old(os.calls)
           else match old(file)
                case None => r == IoResult(0, Some(Invalid)) && os.calls == old(os.calls)
                case Some(f) => r == io && os.calls == old(os.calls) + [TransferCall(t, f)]
    }

    /** The transfer on the file itself (`pipe.file.Read` / `pipe.file.Write`). */
    method FileTransfer(os: Trace, t: Transfer, io: IoResult) returns (r: IoResult)
      modifies os
      ensures file.None? ==> r == IoResult(0, Some(Invalid)) && os.calls == old(os.calls)
      ensures file.Some? ==> r == io && os.calls == old(os.calls) + [TransferCall(t, file.value)]
    {
      if file.None? {
        return IoResult(0, Some(Invalid));
      }
      os.calls := os.calls + [TransferCall(t, file.value)];
      r := io;
    }

    /** `Read`: `tryOpen`, then read from the file into a buffer of `room` bytes. */
    method Read(os: Trace, room: nat, open: Result<File>, io: IoResult) returns (r: IoResult)
      modifies this`file, os
      ensures TransferStep(os, ReadInto(room), open, io, r)
    {
      var err := TryOpen(os, open);
      if err.Some? {
        return IoResult(0, err);
      }
      r := FileTransfer(os, ReadInto(room), io);
    }

    /** `Write`: `tryOpen`, then write `data` to the file. */
    method Write(os: Trace, data: seq<bv8>, open: Result<File>, io: IoResult) returns (r: IoResult)
      modifies this`file, os
      ensures TransferStep(os, WriteOut(data), open, io, r)
    {
      var err := TryOpen(os, open);
      if err.Some? {
        return IoResult(0, err);
      }
      r := FileTransfer(os, WriteOut(data), io);
    }

    /** The OS calls of `Close`: close the file if there is one, then remove the FIFO. */
    function CloseCalls(): (calls: seq<Call>)
      reads this
      ensures |calls| == if file.Some? then 2 else 1
      ensures calls[|calls| - 1] == Remove(name)
    {
      (if file.Some? then [FileClose(file.value)] else []) + [Remove(name)]
    }

    /**
     * The error `Close` reports, given what closing the file and removing
     * the FIFO return: the removal's error wins; without one, the file's
     * close error, which for a handle never opened is `os.ErrInvalid`.
     */
    function CloseError(fileClose: Option<Error>, remove: Option<Error>): (err: Option<Error>)
      reads this
      ensures remove.Some? ==> err == remove
      ensures remove.None? && file.Some? ==> err == fileClose
      ensures remove.None? && file.None? ==> err == Some(Invalid)
    {
      var closeErr := if file.Some? then fileClose else Some(Invalid);
      LastErrorOfTwo(closeErr, remove);
      LastError([closeErr, remove])
    }

    /** `Close`: both steps are attempted even when the first fails. */
    method Close(os: Trace, fileClose: Option<Error>, remove: Option<Error>) returns (err: Option<Error>)
      modifies os
      ensures os.calls == old(os.calls) + CloseCalls()
      ensures err == CloseError(fileClose, remove)
    {
      var closeErr: Option<Error>;
      if file.None? {
        closeErr := Some(Invalid);
      } else {
        os.calls := os.calls + [FileClose(file.value)];
        closeErr := fileClose;
      }
      os.calls := os.calls + [Remove(name)];
      err := closeErr;
      if remove.Some? {
        err := remove;
      }
    }
  }

  /**
   * `NewFifoPipe`: make the FIFO with permissions 0600 and wrap it; a
   * failed mkfifo is returned with no handle. `mkfifo` is what
   * `unix.Mkfifo` returns.
   */
  method NewFifoPipe(os: Trace, name: Path, flag: Flag, mkfifo: Option<Error>)
    returns (p: FifoPipe?, err: Option<Error>)
    modifies os
    ensures os.calls == old(os.calls) + [Mkfifo(name, OwnerOnly)]
    ensures err == mkfifo
    ensures mkfifo.Some? ==> p == null
    ensures mkfifo.None? ==>
      p != null && fresh(p) && p.name == name && p.flag == flag && p.file == None && p.Unopened()
  {
    os.calls := os.calls + [Mkfifo(name, OwnerOnly)];
    if mkfifo.Some? {
      return null, mkfifo;
    }
    p := new FifoPipe(name, flag);
    err := None;
  }

  const TempFlag: Flag := O_RDWR | O_APPEND

  /**
   * `TempFifoPipe`: draw a free `<token>.pipe` path in the temp directory
   * and make a FIFO there opened read-write in append mode; a failed
   * search is returned without touching the file system.
   */
  method TempFifoPipe(os: Trace, g: Generator, tmpDir: Path, dirStat: StatResult, fs: FileSystem,
                      reseed: Clock, mkfifo: Option<Error>)
    returns (p: FifoPipe?, err: Option<Error>)
    modifies os, g
    ensures var o := TempFiles(old(g.state), [TempPattern], tmpDir, dirStat, fs, reseed);
            && g.state == o.state
            && (o.result.Err? ==> p == null && err == Some(o.result.error) && os.calls == old(os.calls))
            && (o.result.Ok? ==>
                  var path := Join(tmpDir, Token(g.state) + ".pipe");
                  && Stat(fs, path).Missing?
                  && os.calls == old(os.calls) + [Mkfifo(path, OwnerOnly)]
                  && err == mkfifo
                  && (mkfifo.None? ==> p != null && fresh(p) && p.name == path && p.flag == TempFlag
                                       && p.file == None && p.Unopened())
                  && (mkfifo.Some? ==> p == null))
  {
    ghost var o := TempFiles(g.state, [TempPattern], tmpDir, dirStat, fs, reseed);
    var pipeNames := GetRandomTempFiles(g, [TempPattern], tmpDir, dirStat, fs, reseed);
    if pipeNames.Err? {
      return null, Some(pipeNames.error);
    }
    SingleCandidate(tmpDir, Token(g.state));
    assert ValidPath(pipeNames.value[0], fs);
    p, err := NewFifoPipe(os, pipeNames.value[0], O_RDWR | O_APPEND, mkfifo);
  }
}
