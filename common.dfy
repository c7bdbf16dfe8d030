/** Values shared by the release client and the command pipeline: optional
    values, results, the errors the core can return and Go's int64. */
module Common {

  datatype Option<+T> = None | Some(value: T) {
    function GetOr(default: T): T {
      match this
      case Some(v) => v
      case None => default
    }
  }

  datatype Result<+T, +E> = Success(value: T) | Failure(error: E)

  /** Go's int64. */
  newtype int64 = x: int | -0x8000_0000_0000_0000 <= x < 0x8000_0000_0000_0000

  /** The values rand.Int63 can return: a non-negative int64, zero included. */
  type Int63 = x: int64 | 0 <= x

  /** The errors of the core. `External` stands for an error produced by a
      collaborator the model does not see (the hosting API, the file system,
      a pipeline phase); its `id` only tells such errors apart. */
  datatype Error =
    | External(id: nat)
    | UnsupportedType
    | MissingToken(envVar: string)
    | UnexpectedStatus(status: int)
    | ReleaseIdMismatch(stored: int64, given: int64)
    | NilFile
      /** Go's `TemporaryError{error}`; its embedded error may be nil, which is
          what the zero value `TemporaryError{}` holds. */
    | TemporaryError(inner: Option<Error>)
}
