/**
 * The operating system as the pipe code sees it. Every OS or library call
 * (mkfifo, open, stat, remove, dial, listen, accept, read, write, close) is
 * replaced by the value it returns, which the caller passes in, and by an
 * entry in a ghost log of the calls that were made. Go's error values and
 * its runtime panics are ordinary values here.
 */
module Os {

  datatype Option<+T> = None | Some(value: T)

  /** An error value: one returned by an OS call (an opaque code), the
      `os.ErrInvalid` that a method called on a nil `*os.File` returns, or
      one built with `errors.New` from a message. */
  datatype Error = Sys(code: nat) | Invalid | Msg(text: string)

  /** A Go `(value, error)` pair whose value is meaningful only without error. */
  datatype Result<+T> = Ok(value: T) | Err(error: Error)

  /** A Go call either returns or panics (a nil slice index, a method
      called on a nil interface value). */
  datatype Outcome<+T> = Returned(value: T) | Panic

  type Path = string

  /** What `os.Stat` reports about a path: no error, an error for which
      `os.IsNotExist` holds, or any other error. */
  datatype StatResult = Exists | Missing(err: Error) | StatFailed(err: Error)

  /** The error `os.Stat` returns for a path that does not exist. */
  const ErrNotExist := Sys(2)

  /** The file system as `os.Stat` sees it at the time of the calls: what
      it reports for the listed paths; every other path does not exist. */
  datatype FileSystem = FileSystem(entries: map<Path, StatResult>)

  /** `os.Stat` of a path: only a listed path can exist or fail to stat. */
  function Stat(fs: FileSystem, path: Path): (r: StatResult)
    ensures path !in fs.entries ==> r == Missing(ErrNotExist)
    ensures r.Exists? || r.StatFailed? ==> path in fs.entries
  {
    if path in fs.entries then fs.entries[path] else Missing(ErrNotExist)
  }

  /** The value half of a Go `(value, error)` pair: the file or connection
      a call hands back, nil when it fails. */
  function ValueOrNil<T>(r: Result<T>): (v: Option<T>)
    ensures v.Some? <==> r.Ok?
    ensures v.Some? ==> v.value == r.value
  {
    match r
    case Ok(value) => Some(value)
    case Err(_) => None
  }

  /** The error half of a Go `(value, error)` pair: nil exactly on success. */
  function ErrorOf<T>(r: Result<T>): (e: Option<Error>)
    ensures e.None? <==> r.Ok?
    ensures e.Some? ==> e.value == r.error
  {
    match r
    case Ok(_) => None
    case Err(err) => Some(err)
  }

  /** What `Read` or `Write` on an open file or connection returns. */
  datatype IoResult = IoResult(n: nat, err: Option<Error>)

  /** Handles the OS gives out. */
  datatype File = File(id: nat)
  datatype Conn = Conn(id: nat)

  /** Open flags, with their Linux values. */
  type Flag = bv32
  const O_RDONLY: Flag := 0x0
  const O_WRONLY: Flag := 0x1
  const O_RDWR: Flag := 0x2
  const O_CREATE: Flag := 0x40
  const O_APPEND: Flag := 0x400

  /** Permission bits 0600: read and write for the owner only. */
  const OwnerOnly: nat := 0x180

  /** The calls that reach the operating system. */
  datatype Call =
    | Mkfifo(path: Path, perm: nat)
    | OpenFile(path: Path, flag: Flag)
    | FileRead(file: File, room: nat)
    | FileWrite(file: File, data: seq<bv8>)
    | FileClose(file: File)
    | Remove(path: Path)
    | DialPipe(path: Path)
    | ListenPipe(path: Path)
    | Accept(path: Path)
    | ConnRead(conn: Conn, room: nat)
    | ConnWrite(conn: Conn, data: seq<bv8>)
    | ConnClose(conn: Conn)

  /** The log of the calls made on the operating system, oldest first. */
  class Trace {
    ghost var calls: seq<Call>

    constructor ()
      ensures calls == []
    {
      calls := [];
    }
  }

  /** `filepath.Join` of a directory and a file name, without the path
      cleaning: empty elements are dropped and the rest joined by '/'. */
  function Join(dir: Path, name: Path): (r: Path)
    ensures r == [] <==> dir == [] && name == []
    ensures |name| <= |r|
  {
    if dir == [] then name
    else if name == [] then dir
    else dir + "/" + name
  }

  /**
   * The error policy of every Close in the library: each cleanup step is
   * attempted in order, and the error reported is the one of the LAST step
   * that failed, or none when no step failed.
   */
  function LastError(steps: seq<Option<Error>>): (r: Option<Error>)
    ensures r.None? <==> forall k :: 0 <= k < |steps| ==> steps[k].None?
    ensures r.Some? ==> exists k :: 0 <= k < |steps| && steps[k] == r &&
                                    forall j :: k < j < |steps| ==> steps[j].None?
  {
    if steps == [] then None
    else
      var n := |steps| - 1;
      if steps[n].Some? then steps[n]
      else
        var init := steps[..n];
        assert forall k :: 0 <= k < n ==> init[k] == steps[k];
        LastError(init)
  }

  /** With two steps, the second step's error wins over the first. */
  lemma LastErrorOfTwo(first: Option<Error>, second: Option<Error>)
    ensures LastError([first, second]) == if second.Some? then second else first
  {
    assert [first, second][..1] == [first];
    assert [first][..0] == [];
  }

  /** With three steps, the latest step that failed decides. */
  lemma LastErrorOfThree(first: Option<Error>, second: Option<Error>, third: Option<Error>)
    ensures LastError([first, second, third])
         == if third.Some? then third else if second.Some? then second else first
  {
    assert [first, second, third][..2] == [first, second];
    LastErrorOfTwo(first, second);
  }
}
