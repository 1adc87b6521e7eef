/**
 * The Unix name search for a pair of streams (pipes/duplex_pipe_unix.go):
 * one call of the temp-file search with the patterns `*.in.pipe` and
 * `*.out.pipe`, whose two paths are handed back. The code indexes the
 * returned slice before looking at the error, and the search returns a
 * nil slice with every error, so a failed search panics.
 */
module UnixDuplex {
  import opened Os
  import opened RandomNames
  import opened StreamPaths

  /** `return pipes[0], pipes[1], err`: indexing a nil slice panics. */
  function SplitNames(r: Result<seq<Path>>): (o: Outcome<PipeNames>)
    requires r.Ok? ==> |r.value| >= 2
    ensures o.Panic? <==> r.Err?
    ensures o.Returned? ==> o.value == NamesOf(r) && o.value.err.None?
  {
    match r
    case Ok(files) => Returned(PipeNames(files[0], files[1], None))
    case Err(_) => Panic
  }

  /** `getRandomPipeNames` as written: a panic in place of every error. */
  method GetRandomPipeNames(g: Generator, tmpDir: Path, dirStat: StatResult, fs: FileSystem, reseed: Clock)
    returns (o: Outcome<PipeNames>)
    modifies g
    ensures var search := TempFiles(old(g.state), StreamPatterns, tmpDir, dirStat, fs, reseed);
            g.state == search.state && o == SplitNames(search.result)
  {
    var pipes := GetRandomTempFiles(g, StreamPatterns, tmpDir, dirStat, fs, reseed);
    if pipes.Err? {
      return Panic;
    }
    return Returned(PipeNames(pipes.value[0], pipes.value[1], None));
  }

  /** A temp directory whose stat fails makes the as-written search panic
      instead of returning the stat error. */
  lemma StatFailurePanics(state: Uint32, tmpDir: Path, e: Error, fs: FileSystem, reseed: Clock)
    ensures SplitNames(TempFiles(state, StreamPatterns, tmpDir, StatFailed(e), fs, reseed).result) == Panic
  {
  }

  /** `getRandomPipeNames` with the error returned, as the rest of the
      library does: two empty names and the search's error. */
  method GetRandomPipeNamesChecked(g: Generator, tmpDir: Path, dirStat: StatResult, fs: FileSystem,
                                   reseed: Clock)
    returns (names: PipeNames)
    modifies g
    ensures var search := TempFiles(old(g.state), StreamPatterns, tmpDir, dirStat, fs, reseed);
            g.state == search.state && names == NamesOf(search.result)
  {
    var pipes := GetRandomTempFiles(g, StreamPatterns, tmpDir, dirStat, fs, reseed);
    if pipes.Err? {
      return PipeNames("", "", Some(pipes.error));
    }
    return PipeNames(pipes.value[0], pipes.value[1], None);
  }
}
