# nodego pipes, modelled in Dafny

nodego talks to a child process over named pipes. Its `pipes` package
and its root package do four things, and each is modelled here:

- **Temp name search** (`pipes/utils.go`; its copies in `pipes.go` and `duplex_pipe.go`).
  - A process-wide 32-bit linear-congruential generator, reseeded from the clock plus the process id while its state is 0, yields a nine-digit token.
  - The token replaces the last `*` of every requested pattern. Each result is joined with the temp directory.
  - A candidate set is accepted only when every path is non-empty and `os.Stat` reports it as not existing.
  - After ten rejected sets the search gives up.
- **FIFO handle** (`pipes/fifopipe_unix.go`). `pipes/fifopipe.go` and the `pipe` type of `pipes.go` have the same fields and method bodies.
  - The constructor makes the FIFO with mode 0600.
  - Read and Write open the file lazily through `tryOpen`.
  - Close closes the file and removes the FIFO. Both steps are attempted, and the later error wins.
- **Unix duplex pipe** (`pipes.go`, `duplex_pipe.go`).
  - It owns an in FIFO and an out FIFO, found by a pair search for `<token>.in.pipe` and `<token>.out.pipe`.
  - Write goes to the out FIFO and Read comes from the in FIFO.
  - Close closes the out FIFO, then the in FIFO. The in FIFO's error wins.
  - `pipes.go` and `duplex_pipe.go` differ only in the open flags. This is `PipesFlags` versus `DuplexPipeFlags` in module `Nodego`.
- **Windows duplex pipe** (`pipes/duplex_pipe_windows.go`).
  - It uses one pipe path. Write dials the out connection, and Read listens and accepts the in connection.
  - Close closes both connections, then removes the path. The last error wins.

How the model is put together:

- **Go's error values** become `Os.Error`. A Go runtime panic, such as indexing a nil slice or calling a method on a nil `net.Conn`, becomes the `Panic` alternative of `Os.Outcome`.
- **A nil `*os.File`** answers `os.ErrInvalid` (`Os.Invalid`) without reaching the operating system.
- **Calls into the operating system** (`unix.Mkfifo`, `os.OpenFile`, `os.Stat`, `os.Remove`, reads, writes, closes, `winio.DialPipe`, `ListenPipe`, `Accept`):
  - the caller passes in what each call returns, as a parameter;
  - methods record every call they make, in order, in the ghost log `Os.Trace.calls`.
- **`os.Stat` during a name search** is a fixed map, `Os.FileSystem`.
- **The values `reseed` would return** (the clock in nanoseconds plus the process id, truncated to 32 bits) during a search are an input, `RandomNames.Clock`.
- **The temp directory** (`tempDir()`, `os.TempDir()`) and **the stat result of that directory** are parameters.

The main modules:

- `RandomNames` states the generator and search, both as specification functions (`SearchFrom`, `TempFiles`) and as the loops that the source runs (`GetRandomTempFiles`, `FillNames`, `FilesAreValid`).
- `Nodego.GetRandomPipeNames` is the root package's own loop. It is proved to find exactly what the generic search finds.
- The handles are classes whose fields the methods update: `FifoPipes.FifoPipe`, `Nodego.DuplexPipe` and `WindowsDuplex.DuplexPipe`.

Where the prose around the code and the code disagree, the model follows the code:

- **No method ever sets `opened` or `closed`.**
  - Every Read and Write opens the FIFO again.
  - The "can't be reopened" and "already been closed" errors are reachable only from a handle built in that state.
  - The Windows `closed` flag is never set either.
  - The guard properties are therefore stated conditionally on the flags.
- **Close on a handle never opened** reports `os.ErrInvalid`, unless the removal fails.
- **No cleanup on a failed constructor.** When the out FIFO of `NewDuplexPipe` cannot be made, the in FIFO already made is left on disk.
- **`duplex_pipe.go` does not match its package.**
  - Its `duplexPipe` struct has fields of type `fifopipe`, which `package nodego` does not declare. `fifopipe` lives in `package pipes` (pipes/fifopipe.go:10).
  - It calls `makePipe`, which pipes.go:99 declares in the same package. `makePipe` returns a `*pipe`, where a `fifopipe` field is expected.
  - It also redeclares `nextRandom`, `getRandomPipeNames`, `NewDuplexPipe` and `duplexPipe` beside pipes.go in the same package.
  - The model reads both field types as the one FIFO handle and `makePipe` as `NewFifoPipe`. It gives the second `NewDuplexPipe` its own flag pair.

## Model

| member | source | states |
|---|---|---|
| `Os.Stat` | pipes/utils.go:74 | The `os.Stat` oracle: a path the file system does not list does not exist, with the not-exist error. Only a listed path can exist or fail with another error. |
| `Os.ValueOrNil` | pipes/fifopipe_unix.go:77 | The file (`os.OpenFile`) or connection (`winio.DialPipe`, `Accept`) a call hands back: present exactly when the call succeeds, and then the value it returned. |
| `Os.ErrorOf` | pipes/fifopipe_unix.go:77 | The error half of a `(value, error)` pair: nil exactly when the call succeeded, otherwise its error. |
| `Os.Join` | pipes/utils.go:57 | The joined path is empty only when both parts are empty, and it is at least as long as the file name. |
| `Os.LastError` | pipes/fifopipe_unix.go:91-97 | No error is reported exactly when every cleanup step succeeded. Otherwise the error reported is that of a failed step after which every step succeeded. |
| `Os.LastErrorOfTwo` | pipes/fifopipe_unix.go:92-95 | With two steps, the second step's error overrides the first step's. |
| `Os.LastErrorOfThree` | pipes/duplex_pipe_windows.go:102-109 | With three steps (in close, out close, remove), the last failed step decides. |
| `Decimal.Itoa` | pipes/utils.go:33 | `strconv.Itoa` of a non-negative number is a non-empty string of decimal digits. |
| `Decimal.ItoaValue` | pipes/utils.go:33 | Reading the rendering of `n` back as a decimal number gives `n`. |
| `Decimal.ItoaLeadingOne` | pipes/utils.go:33 | A number in [10^k, 2*10^k) renders as k+1 digits that start with '1'. |
| `Decimal.PaddedValue` | pipes/utils.go:33 | The w-digit zero-padded rendering of n denotes n mod 10^w. |
| `Decimal.ValueOfInjective` | pipes/utils.go:33 | Two digit strings of equal length that denote the same number are equal. |
| `Decimal.ValueOfHead` | pipes/utils.go:33 | The leading digit weighs 10 to the power of the remaining length. |
| `RandomNames.LcgBijective` | pipes/utils.go:30 | The step `r*1664525 + 1013904223 mod 2^32` is undone by its inverse in both orders, so no two states share a successor. |
| `RandomNames.Token` | pipes/utils.go:33 | A token has exactly nine characters, all decimal digits. |
| `RandomNames.TokenValue` | pipes/utils.go:30-33 | The token, read as a decimal number, equals the state mod 1e9, with leading zeros kept. |
| `RandomNames.DropLeadingOne` | pipes/utils.go:33 | `Itoa(1e9 + x)` has ten characters. Without its first character it denotes x. |
| `RandomNames.ItoaTrick` | pipes/utils.go:33 | `strconv.Itoa(int(1e9 + r%1e9))[1:]` is exactly the nine-digit token of r. |
| `RandomNames.TokenInjective` | pipes/utils.go:33 | Two states give the same token exactly when they agree mod 1e9. |
| `RandomNames.NextState` | pipes/utils.go:26-30 | A zero state is replaced by the seed, then stepped. The inverse step recovers the state that was stepped, so the step loses nothing. |
| `RandomNames.Generator.constructor` | pipes/utils.go:17 | The process-wide state starts at 0 (unseeded). |
| `RandomNames.Generator.Next` | pipes/utils.go:24-34 | The new state is `(s*1664525 + 1013904223) mod 2^32`, where s is the old state, or the seed when the old state is 0. The token returned is the nine-digit token of the new state. |
| `RandomNames.LastIndex` | pipes/utils.go:52 | Returns -1 exactly when the character is absent. Otherwise it returns a position holding it, with no occurrence after it. |
| `RandomNames.Substitute` | pipes/utils.go:51-57 | The file name for one pattern: a pattern without '*' gets the token appended, and the name is never shorter than the token. Its full shape is stated by `SubstituteShape`. |
| `RandomNames.SubstituteShape` | pipes/utils.go:51-57 | A pattern without '*' gets the token appended. Otherwise the token replaces a '*' after which there is no other '*'. |
| `RandomNames.SubstituteLeadingStar` | pipes/utils.go:51-57 | A pattern `*suffix` with no other '*' yields token + suffix. |
| `RandomNames.Candidates` | pipes/utils.go:48-58 | The candidate set has one path per pattern. |
| `RandomNames.CandidateAt` | pipes/utils.go:50-57 | Entry k is pattern k with the one token substituted, joined to the temp directory. |
| `RandomNames.CandidatesNonEmpty` | pipes/utils.go:57-70 | With a non-empty token, no candidate path is empty, so the length test never rejects one. |
| `RandomNames.CandidatesExtend` | pipes/utils.go:50-57 | One more pattern adds its path at the end of the set. |
| `RandomNames.CandidatesFrom` | pipes/utils.go:48-58 | A slice that holds each pattern's path in its own slot is exactly the candidate set. |
| `RandomNames.FillNames` | pipes/utils.go:48-58 | The slice filled in place, slot by slot, is exactly the candidate set of the token. |
| `RandomNames.FilesAreValid` | pipes/utils.go:66-79 | True exactly when every path is non-empty and probes as not existing. One empty path, existing path or probe error rejects the set. |
| `RandomNames.SearchFrom` | pipes/utils.go:47-63 | From attempt i on: a success is the candidate set of the token of the final state and passes the test. A failure is the exhaustion error after drawing the remaining attempts. At most 10 - i tokens are drawn. |
| `RandomNames.SearchFromStep` | pipes/utils.go:47-62 | A passing set ends the search after one draw. A failing set hands over to the next attempt with one more draw. |
| `RandomNames.SearchFromState` | pipes/utils.go:47-62 | The generator ends exactly as many steps on as tokens were drawn. |
| `RandomNames.TempFiles` | pipes/utils.go:38-64 | A failed stat of the temp directory is returned at once, with no draw. Otherwise 1 to 10 tokens are drawn. On success there is one path per pattern, all with the final token, and all passing the test. |
| `RandomNames.GetRandomTempFiles` | pipes/utils.go:38-64 | The loop returns what `TempFiles` specifies and leaves the generator in the state it specifies. |
| `StreamPaths.SingleCandidate` | pipes/fifopipe_unix.go:24 | The pattern `*.pipe` yields the single path `<tmpDir>/<token>.pipe`. |
| `StreamPaths.StreamCandidates` | pipes/duplex_pipe_unix.go:7 | The patterns `*.in.pipe` and `*.out.pipe` yield the in path, then the out path, with the same token. |
| `StreamPaths.PairValid` | pipes.go:59 | A pair passes the all-paths test exactly when each path passes. |
| `StreamPaths.StreamPathsDistinct` | pipes/duplex_pipe_unix.go:7 | The in and out paths of one token differ. |
| `StreamPaths.NamesOf` | pipes.go:50-66 | The reported error is nil exactly when the search succeeded. |
| `StreamPaths.PairSearch` | pipes.go:45-67 | On success: the in and out paths of the final token, distinct and both missing. On failure: two empty names with the stat error or the exhaustion error. |
| `FifoPipes.FifoPipe.constructor` | pipes/fifopipe_unix.go:38-43 | The handle has the given name and flag, no file, and neither flag set. |
| `FifoPipes.FifoPipe.Name` | pipes/fifopipe_unix.go:82-87 | In and Out are both the FIFO's name. |
| `FifoPipes.FifoPipe.Open` | pipes/fifopipe_unix.go:73-79 | On an opened handle: the "can't be reopened" error, with the file and the OS untouched. Otherwise one OpenFile with the handle's flag, whose file (nil on error) and error are taken over. |
| `FifoPipes.FifoPipe.TryOpen` | pipes/fifopipe_unix.go:47-54 | Not opened: `Open`. Opened and closed: the "already been closed" error, with no open. Opened and not closed: nil, and nothing changes. |
| `FifoPipes.FifoPipe.FileTransfer` | pipes/fifopipe_unix.go:61 | On a nil file: `os.ErrInvalid`, with no OS call. Otherwise one read or write on the file. |
| `FifoPipes.FifoPipe.Write` | pipes/fifopipe_unix.go:57-62 | `tryOpen`, then the write. A failed `tryOpen` returns 0 and its error, with no file I/O. |
| `FifoPipes.FifoPipe.Read` | pipes/fifopipe_unix.go:65-70 | `tryOpen`, then the read. A failed `tryOpen` returns 0 and its error, with no file I/O. |
| `FifoPipes.FifoPipe.CloseCalls` | pipes/fifopipe_unix.go:92-93 | The file is closed if there is one, and the removal always comes last. |
| `FifoPipes.FifoPipe.CloseError` | pipes/fifopipe_unix.go:91-97 | A removal error wins. Without one, the file-close error is reported, which is `os.ErrInvalid` for a handle with no file. |
| `FifoPipes.FifoPipe.Close` | pipes/fifopipe_unix.go:91-97 | Both steps are attempted, in order, even when the first fails. The result is `CloseError`. |
| `FifoPipes.NewFifoPipe` | pipes/fifopipe_unix.go:33-44 | Exactly one mkfifo with mode 0600. If it fails: nil and its error. Otherwise a fresh unopened handle with the name and flag. |
| `FifoPipes.TempFifoPipe` | pipes/fifopipe_unix.go:23-29 | A failed search returns its error with no OS call. Otherwise one mkfifo at the free `<token>.pipe` path. On success the handle is unopened and carries the flag O_RDWR plus O_APPEND; the open happens at the first Read or Write. |
| `UnixDuplex.SplitNames` | pipes/duplex_pipe_unix.go:8 | Panics exactly when the search failed. Otherwise it returns the first path as in and the second as out. |
| `UnixDuplex.GetRandomPipeNames` | pipes/duplex_pipe_unix.go:6-9 | As written: one search for `*.in.pipe` and `*.out.pipe`, then `SplitNames` of its result, so every error panics. |
| `UnixDuplex.StatFailurePanics` | pipes/duplex_pipe_unix.go:8 | A failed stat of the temp directory panics instead of returning the error. |
| `UnixDuplex.GetRandomPipeNamesChecked` | pipes/duplex_pipe_unix.go:6-9 | Corrected: the search's paths, or two empty names with exactly the search's error. |
| `Nodego.FileIsNotExist` | pipes.go:39-42 | `fileIsNotExist`: for a non-empty path, it agrees with the per-path test of `filesAreValid`. Every path the file system does not list passes it. |
| `Nodego.PairAttempt` | pipes.go:55-62 | One loop pass: both paths free gives the pair and stops. Otherwise the search goes on. |
| `Nodego.DrawPair` | pipes.go:56-59 | Draws one token, builds `<token>.in.pipe` and `<token>.out.pipe`, and probes both. |
| `Nodego.GetRandomPipeNames` | pipes.go:45-67 | The root package's own loop returns exactly the names and error of the generic search for the two patterns, and leaves the generator in the same state. |
| `Nodego.DuplexPipe.constructor` | pipes.go:93-96 | The handle owns two separate FIFO handles. |
| `Nodego.DuplexPipe.Write` | pipes.go:121-123 | A write on the out FIFO. The in FIFO's file is untouched. |
| `Nodego.DuplexPipe.Read` | pipes.go:125-127 | A read on the in FIFO. The out FIFO's file is untouched. |
| `Nodego.DuplexPipe.Close` | pipes.go:129-135 | The out FIFO's close steps, then the in FIFO's. The in FIFO's error wins over the out FIFO's. |
| `Nodego.NewDuplexPipe` | pipes.go:71-97 | A naming error returns with no OS call. Then: mkfifo for in, then for out, each failure returned with no handle. On success, two fresh unopened handles with the found names and the package's flags. |
| `WindowsDuplex.DuplexPipe.constructor` | pipes/duplex_pipe_windows.go:26-31 | The given name, no connections, not closed. |
| `WindowsDuplex.DuplexPipe.Name` | pipes/duplex_pipe_windows.go:88-93 | In and Out are both the pipe's name. |
| `WindowsDuplex.DuplexPipe.Open` | pipes/duplex_pipe_windows.go:83-85 | Always nil. |
| `WindowsDuplex.DuplexPipe.Write` | pipes/duplex_pipe_windows.go:41-56 | Closed: an error with no dial or I/O. With an out connection: it is reused. Without one: a dial, and a failed dial returns its error without writing. |
| `WindowsDuplex.DuplexPipe.Read` | pipes/duplex_pipe_windows.go:59-80 | As written: closed gives an error with no I/O. It listens and accepts exactly when there is no out connection. With an out connection and no in connection, it panics. |
| `WindowsDuplex.DuplexPipe.ReadChecked` | pipes/duplex_pipe_windows.go:59-80 | Corrected guard on the in connection: it never panics and accepts only when there is no in connection. |
| `WindowsDuplex.DuplexPipe.Close` | pipes/duplex_pipe_windows.go:97-110 | Closed: an error with no cleanup. Otherwise: in close, out close and remove, in that order, with the last error returned. A nil connection panics at its step. |
| `WindowsDuplex.NewNamedDuplexPipe` | pipes/duplex_pipe_windows.go:25-32 | No connections, not closed, the given name. The second argument is ignored and no error is possible. |
| `WindowsDuplex.NewDuplexPipe` | pipes/duplex_pipe_windows.go:15-21 | One search for `*.pipe`. Its error is propagated; otherwise the pipe is named by the free path found. |
| `WindowsDuplex.WriteThenRead` | pipes/duplex_pipe_windows.go:65-79 | On a new pipe, a successful Write followed by a Read panics. |
| `WindowsDuplex.WriteThenReadChecked` | pipes/duplex_pipe_windows.go:65-79 | With the corrected guard, the same sequence returns what the read on the accepted connection returns. |

## Left out

- `filepath.Join` path cleaning (`.`/`..` elements and repeated separators): `Os.Join` only drops empty elements and joins with '/'.
- The mutex around the generator, and concurrency in general: every operation is one sequential step.
- `reseed()`: its readings (clock plus process id) are an input. Attempts past the last supplied reading read 0, which matters only while the state is 0.
- `tempDir()` and `os.TempDir()`: the directory and its stat result are parameters.
- Probes made at different times: every `os.Stat` in one search sees one fixed file system, so a file that appears between two probes is not modelled.
- `os.Stat` calls are not entered in the call log. Their effect is entirely in the `FileSystem` value.
- The bytes moved by Read and Write: a transfer is one logged call, and its result is a parameter.
- `fmt.Println` of the two pipe names in `NewDuplexPipe` (pipes.go:77-79, duplex_pipe.go:75-77): output only.
- The `os.ModeNamedPipe` mode argument of `os.OpenFile`: constant, not recorded.
- The listener returned by `winio.ListenPipe` is never closed by the source. The model does not track listeners.
- Flag values are the Linux ones. Other platforms differ in the numbers only.
- SearchFrom: does not also state that every set drawn before the accepted one was rejected. That is implied by the recursion, but it is left unproved.

## Findings

| source | as written | input that shows it | evidently intended | confidence | as-written member | corrected member |
|---|---|---|---|---|---|---|
| pipes/duplex_pipe_windows.go:65 | `Read` listens and accepts only when `out == nil`. | A Write on a new pipe dials `out`. The following Read skips the accept and calls `Read` on the nil `in`, which panics. | Guard on `in == nil`, as the comment "Open the read pipe" says. | not executed | `WindowsDuplex.WriteThenRead` | `WindowsDuplex.WriteThenReadChecked` |
| pipes/duplex_pipe_unix.go:8 | `pipes[0]` and `pipes[1]` are evaluated before the error is looked at. | A failed stat of the temp directory, or ten rejected sets: `getRandomTempFiles` returns a nil slice, and indexing it panics. | Return two empty names and the error, as the root package's `getRandomPipeNames` does. | not executed | `UnixDuplex.StatFailurePanics` | `UnixDuplex.GetRandomPipeNamesChecked` |
