/** Small failure-compatible datatypes shared by the model, and Go's `error`. */
module Wrappers {

  datatype Option<+T> = None | Some(value: T)

  /** A Go `error` value. `text` is what `err.Error()` returns; `alreadyExist`
      says whether `errors.Is(err, sbom.IsAlreadyExist())` holds for it. */
  datatype Error = Error(text: string, alreadyExist: bool)

  /** A Go function returning `(T, error)`. */
  datatype Result<+T> = Ok(value: T) | Failure(err: Error)

  /** `fmt.Errorf(text)` for a text with no formatting verbs, so that the
      text is the message as it stands, and no wrapped error. */
  function Errorf(text: string): (e: Error)
    ensures e.text == text && !e.alreadyExist
  {
    Error(text, false)
  }
}
