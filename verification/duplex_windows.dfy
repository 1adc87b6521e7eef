/**
 * The Windows duplex pipe (pipes/duplex_pipe_windows.go): one named pipe
 * path, an out connection dialled by the first Write and an in connection
 * accepted by a Read, and a Close that closes both connections and removes
 * the path. A method called on a nil connection panics.
 */
module WindowsDuplex {
  import opened Os
  import opened Pipe
  import opened RandomNames
  import opened StreamPaths

  /** What `Close` reports on a pipe marked closed. */
  const ErrClosedTwice := Msg("Pipe is already closed")

  class DuplexPipe {
    const name: Path
    var inConn: Option<Conn>
    var outConn: Option<Conn>
    var isClosed: bool

    /** The struct literal of `NewNamedDuplexPipe`: no connections, not closed. */
    constructor (name: Path)
      ensures this.name == name && inConn == None && outConn == None && !isClosed
    {
      this.name := name;
      inConn := None;
      outConn := None;
      isClosed := false;
    }

    /** `Name`: the one path serves as both the in and the out stream. */
    function Name(): (names: StreamNames)
      reads this
      ensures names.inPath == name && names.outPath == name
    {
      StreamNames(name, name)
    }

    /** `Open`: connections are made lazily, so there is nothing to open. */
    function Open(): (err: Option<Error>)
      ensures err.None?
    {
      None
    }

    /**
     * `Write`: refused on a pipe marked closed; otherwise the out
     * connection is dialled when there is none (a failed dial is returned
     * and leaves none), then `data` goes to it. `dial` is what
     * `winio.DialPipe` returns.
     */
    method Write(os: Trace, data: seq<bv8>, dial: Result<Conn>, io: IoResult) returns (r: IoResult)
      modifies this`outConn, os
      ensures isClosed ==>
        r == IoResult(0, Some(ErrAlreadyClosed)) && outConn == old(outConn) && os.calls == old(os.calls)
      ensures !isClosed && old(outConn).Some? ==>
        && outConn == old(outConn) && r == io
        && os.calls == old(os.calls) + [ConnWrite(old(outConn).value, data)]
      ensures !isClosed && old(outConn).None? ==>
        && outConn == ValueOrNil(dial)
        && match dial
           case Err(e) => r == IoResult(0, Some(e)) && os.calls == old(os.calls) + [DialPipe(name)]
           case Ok(c) => r == io && os.calls == old(os.calls) + [DialPipe(name), ConnWrite(c, data)]
    {
      if isClosed {
        return IoResult(0, Some(ErrAlreadyClosed));
      }
      if outConn.None? {
        os.calls := os.calls + [DialPipe(name)];
        outConn := ValueOrNil(dial);
        if dial.Err? {
          return IoResult(0, Some(dial.error));
        }
      }
      os.calls := os.calls + [ConnWrite(outConn.value, data)];
      r := io;
    }

    /**
     * `Read` as written: refused on a pipe marked closed; otherwise, when
     * there is no OUT connection, listen on the path and accept the in
     * connection (a failed listen or accept is returned), then read from
     * the in connection. `listen` and `accept` are what
     * `winio.ListenPipe` and `Accept` return. After a Write has dialled
     * the out connection, no in connection is ever accepted and the read
     * on the nil in connection panics.
     */
    method Read(os: Trace, room: nat, listen: Option<Error>, accept: Result<Conn>, io: IoResult)
      returns (o: Outcome<IoResult>)
      modifies this`inConn, os
      ensures isClosed ==>
        o == Returned(IoResult(0, Some(ErrAlreadyClosed))) && inConn == old(inConn) && os.calls == old(os.calls)
      ensures !isClosed && outConn.None? && listen.Some? ==>
        && o == Returned(IoResult(0, listen)) && inConn == old(inConn)
        && os.calls == old(os.calls) + [ListenPipe(name)]
      ensures !isClosed && outConn.None? && listen.None? ==>
        && inConn == ValueOrNil(accept)
        && match accept
           case Err(e) =>
             o == Returned(IoResult(0, Some(e))) && os.calls == old(os.calls) + [ListenPipe(name), Accept(name)]
           case Ok(c) =>
             o == Returned(io) && os.calls == old(os.calls) + [ListenPipe(name), Accept(name), ConnRead(c, room)]
      ensures !isClosed && outConn.Some? ==>
        && inConn == old(inConn)
        && (old(inConn).None? ==> o == Panic && os.calls == old(os.calls))
        && (old(inConn).Some? ==> o == Returned(io) && os.calls == old(os.calls) + [ConnRead(old(inConn).value, room)])
    {
      if isClosed {
        return Returned(IoResult(0, Some(ErrAlreadyClosed)));
      }
      if outConn.None? {
        os.calls := os.calls + [ListenPipe(name)];
        if listen.Some? {
          return Returned(IoResult(0, listen));
        }
        os.calls := os.calls + [Accept(name)];
        inConn := ValueOrNil(accept);
        if accept.Err? {
          return Returned(IoResult(0, Some(accept.error)));
        }
      }
      if inConn.None? {
        return Panic;
      }
      os.calls := os.calls + [ConnRead(inConn.value, room)];
      o := Returned(io);
    }

    /**
     * `Read` with the guard on the in connection, as its comment intends:
     * it never panics, listens and accepts only while there is no in
     * connection, and otherwise reads from the one it has.
     */
    method ReadChecked(os: Trace, room: nat, listen: Option<Error>, accept: Result<Conn>, io: IoResult)
      returns (o: Outcome<IoResult>)
      modifies this`inConn, os
      ensures o.Returned?
      ensures isClosed ==>
        o == Returned(IoResult(0, Some(ErrAlreadyClosed))) && inConn == old(inConn) && os.calls == old(os.calls)
      ensures !isClosed && old(inConn).Some? ==>
        && inConn == old(inConn) && o == Returned(io)
        && os.calls == old(os.calls) + [ConnRead(old(inConn).value, room)]
      ensures !isClosed && old(inConn).None? && listen.Some? ==>
        o == Returned(IoResult(0, listen)) && inConn == None && os.calls == old(os.calls) + [ListenPipe(name)]
      ensures !isClosed && old(inConn).None? && listen.None? ==>
        && inConn == ValueOrNil(accept)
        && match accept
           case Err(e) =>
             o == Returned(IoResult(0, Some(e))) && os.calls == old(os.calls) + [ListenPipe(name), Accept(name)]
           case Ok(c) =>
             o == Returned(io) && os.calls == old(os.calls) + [ListenPipe(name), Accept(name), ConnRead(c, room)]
    {
      if isClosed {
        return Returned(IoResult(0, Some(ErrAlreadyClosed)));
      }
      if inConn.None? {
        os.calls := os.calls + [ListenPipe(name)];
        if listen.Some? {
          return Returned(IoResult(0, listen));
        }
        os.calls := os.calls + [Accept(name)];
        inConn := ValueOrNil(accept);
        if accept.Err? {
          return Returned(IoResult(0, Some(accept.error)));
        }
      }
      os.calls := os.calls + [ConnRead(inConn.value, room)];
      o := Returned(io);
    }

    /**
     * `Close`: refused on a pipe marked closed (and, as written, no Close
     * ever marks it). Otherwise the in connection is closed, then the out
     * connection, then the path is removed, the last error winning; a nil
     * connection panics at its step, after the steps before it ran.
     */
    method Close(os: Trace, inClose: Option<Error>, outClose: Option<Error>, remove: Option<Error>)
      returns (o: Outcome<Option<Error>>)
      modifies os
      ensures isClosed ==> o == Returned(Some(ErrClosedTwice)) && os.calls == old(os.calls)
      ensures !isClosed && inConn.None? ==> o == Panic && os.calls == old(os.calls)
      ensures !isClosed && inConn.Some? && outConn.None? ==>
        o == Panic && os.calls == old(os.calls) + [ConnClose(inConn.value)]
      ensures !isClosed && inConn.Some? && outConn.Some? ==>
        && os.calls == old(os.calls) + [ConnClose(inConn.value), ConnClose(outConn.value), Remove(name)]
        && o == Returned(LastError([inClose, outClose, remove]))
        && o.value == if remove.Some? then remove else if outClose.Some? then outClose else inClose
    {
      if isClosed {
        return Returned(Some(ErrClosedTwice));
      }
      if inConn.None? {
        return Panic;
      }
      os.calls := os.calls + [ConnClose(inConn.value)];
      var err := inClose;
      if outConn.None? {
        return Panic;
      }
      os.calls := os.calls + [ConnClose(outConn.value)];
      if outClose.Some? {
        err := outClose;
      }
      os.calls := os.calls + [Remove(name)];
      if remove.Some? {
        err := remove;
      }
      LastErrorOfThree(inClose, outClose, remove);
      o := Returned(err);
    }
  }

  /** `NewNamedDuplexPipe`: the second argument is ignored; nothing can fail. */
  method NewNamedDuplexPipe(name: Path, ignored: Path) returns (p: DuplexPipe, err: Option<Error>)
    ensures fresh(p) && p.name == name && p.inConn == None && p.outConn == None && !p.isClosed
    ensures err == None
  {
    p := new DuplexPipe(name);
    err := None;
  }

  /**
   * `NewDuplexPipe`: draw a free `<token>.pipe` path in the temp directory
   * and name the pipe after it; a failed search is returned with no pipe.
   */
  method NewDuplexPipe(g: Generator, tmpDir: Path, dirStat: StatResult, fs: FileSystem, reseed: Clock)
    returns (p: DuplexPipe?, err: Option<Error>)
    modifies g
    ensures var o := TempFiles(old(g.state), [TempPattern], tmpDir, dirStat, fs, reseed);
            && g.state == o.state
            && (o.result.Err? ==> p == null && err == Some(o.result.error))
            && (o.result.Ok? ==>
                  && err == None && p != null && fresh(p)
                  && p.name == Join(tmpDir, Token(g.state) + ".pipe") && Stat(fs, p.name).Missing?
                  && p.inConn == None && p.outConn == None && !p.isClosed)
  {
    var pipeNames := GetRandomTempFiles(g, [TempPattern], tmpDir, dirStat, fs, reseed);
    if pipeNames.Err? {
      return null, Some(pipeNames.error);
    }
    SingleCandidate(tmpDir, Token(g.state));
    assert ValidPath(pipeNames.value[0], fs);
    p, err := NewNamedDuplexPipe(pipeNames.value[0], "");
  }

  /** A Write followed by a Read on a new pipe, with every OS call succeeding:
      as written, the Read panics. */
  method WriteThenRead(name: Path, data: seq<bv8>, room: nat, out: Conn, inbound: Conn,
                       written: IoResult, read: IoResult)
    returns (o: Outcome<IoResult>)
    ensures o == Panic
  {
    var os := new Trace();
    var p := new DuplexPipe(name);
    var w := p.Write(os, data, Ok(out), written);
    o := p.Read(os, room, None, Ok(inbound), read);
  }

  /** The same sequence with the intended guard: the Read accepts the in
      connection and returns what the read on it returns. */
  method WriteThenReadChecked(name: Path, data: seq<bv8>, room: nat, out: Conn, inbound: Conn,
                              written: IoResult, read: IoResult)
    returns (o: Outcome<IoResult>)
    ensures o == Returned(read)
  {
    var os := new Trace();
    var p := new DuplexPipe(name);
    var w := p.Write(os, data, Ok(out), written);
    o := p.ReadChecked(os, room, None, Ok(inbound), read);
  }
}
