/**
 * The temp-file patterns the pipe constructors ask for and the paths they
 * yield: one `<token>.pipe` for a single pipe, and `<token>.in.pipe` with
 * `<token>.out.pipe` for a pair of streams.
 */
module StreamPaths {
  import opened Os
  import opened RandomNames

  const TempPattern := "*.pipe"
  const InSuffix := ".in.pipe"
  const OutSuffix := ".out.pipe"
  const StreamPatterns := ["*.in.pipe", "*.out.pipe"]

  /** The path of the in stream for a token. */
  function InPath(tmpDir: Path, token: string): Path {
    Join(tmpDir, token + InSuffix)
  }

  /** The path of the out stream for a token. */
  function OutPath(tmpDir: Path, token: string): Path {
    Join(tmpDir, token + OutSuffix)
  }

  /** The one-pattern candidate set: `<token>.pipe` in the directory. */
  lemma SingleCandidate(tmpDir: Path, token: string)
    ensures Candidates(tmpDir, [TempPattern], token) == [Join(tmpDir, token + ".pipe")]
  {
    assert [TempPattern][..0] == [];
    SubstituteLeadingStar(TempPattern, token);
  }

  /** The two-pattern candidate set: the in path, then the out path. */
  lemma StreamCandidates(tmpDir: Path, token: string)
    ensures Candidates(tmpDir, StreamPatterns, token) == [InPath(tmpDir, token), OutPath(tmpDir, token)]
  {
    assert StreamPatterns[..1] == ["*.in.pipe"];
    assert StreamPatterns[..1][..0] == [];
    SubstituteLeadingStar("*.in.pipe", token);
    SubstituteLeadingStar("*.out.pipe", token);
  }

  /** A pair of paths passes the test exactly when each of them does. */
  lemma PairValid(first: Path, second: Path, fs: FileSystem)
    ensures AllValid([first, second], fs) <==> ValidPath(first, fs) && ValidPath(second, fs)
  {
    assert [first, second][0] == first && [first, second][1] == second;
  }

  /** The in and out paths of one token never coincide: the out suffix is one character longer. */
  lemma StreamPathsDistinct(tmpDir: Path, token: string)
    ensures InPath(tmpDir, token) != OutPath(tmpDir, token)
  {
    assert |OutPath(tmpDir, token)| == |InPath(tmpDir, token)| + 1;
  }

  /** The names a pair search reports: `pipeIn`, `pipeOut` and an error. */
  datatype PipeNames = PipeNames(pipeIn: Path, pipeOut: Path, err: Option<Error>)

  /** The names of a pair search that does not panic: the two paths found,
      or two empty names with the error. */
  function NamesOf(r: Result<seq<Path>>): (names: PipeNames)
    requires r.Ok? ==> |r.value| >= 2
    ensures names.err.None? <==> r.Ok?
  {
    match r
    case Ok(files) => PipeNames(files[0], files[1], None)
    case Err(e) => PipeNames("", "", Some(e))
  }

  /**
   * What a search for a stream pair finds: on success, the in and out
   * paths of the token of the final generator state, distinct and both
   * missing from the file system; on failure, two empty names with the
   * temp directory's stat error, or with the exhaustion error after all
   * attempts.
   */
  lemma {:induction false} PairSearch(state: Uint32, tmpDir: Path, dirStat: StatResult,
                                      fs: FileSystem, reseed: Clock)
    ensures var o := TempFiles(state, StreamPatterns, tmpDir, dirStat, fs, reseed);
            var names := NamesOf(o.result);
            && (names.err.None? ==>
                  && names.pipeIn == InPath(tmpDir, Token(o.state))
                  && names.pipeOut == OutPath(tmpDir, Token(o.state))
                  && names.pipeIn != names.pipeOut
                  && Stat(fs, names.pipeIn).Missing?
                  && Stat(fs, names.pipeOut).Missing?)
            && (names.err.Some? ==>
                  && names.pipeIn == "" && names.pipeOut == ""
                  && names.err == Some(if dirStat.Exists? then ErrExhausted else dirStat.err))
  {
    var o := TempFiles(state, StreamPatterns, tmpDir, dirStat, fs, reseed);
    if o.result.Ok? {
      var token := Token(o.state);
      StreamCandidates(tmpDir, token);
      StreamPathsDistinct(tmpDir, token);
      assert ValidPath(o.result.value[0], fs) && ValidPath(o.result.value[1], fs);
    } else if dirStat.Exists? {
      assert o == SearchFrom(state, 0, StreamPatterns, tmpDir, fs, reseed);
    }
  }
}
