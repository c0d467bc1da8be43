/** Outcome types shared by the decoder model. */
module Wrappers {

  /** A value that may be absent; for an output parameter, `None` means "left untouched". */
  datatype Option<+T> = None | Some(value: T)

  /** Either a result or the error the C++ code raises with `KALDI_ERR`. */
  datatype Result<+T, +E> = Ok(value: T) | Err(error: E)
}
