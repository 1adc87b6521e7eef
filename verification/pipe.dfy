/** The record a pipe reports as its identity on the file system. */
module Pipe {
  import opened Os

  /** The paths of the two directions of a pipe; a single bidirectional
      pipe reports its one path for both. */
  datatype StreamNames = StreamNames(inPath: Path, outPath: Path)

  /** What Read and Write on a closed pipe report. */
  const ErrAlreadyClosed := Msg("Pipe has already been closed")
}
