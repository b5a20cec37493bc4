/** Values shared by the page concatenation and the file-list model of PDFJoin. */
module JoinTypes {

  /** A file path as the file dialog returns it; paths are compared as plain strings. */
  type Path = string

  datatype Option<+T> = None | Some(value: T)

  datatype Result<+R, +E> = Success(value: R) | Failure(error: E)

  /** The two ways a join can fail: an input that cannot be opened or parsed as a PDF,
      and an output that cannot be opened or written. */
  datatype JoinError = ReadError(path: Path) | WriteError
}
