/** Option and Result values used for JavaScript's `undefined`/`null` and for thrown errors. */
module Wrappers {

  datatype Option<+T> = None | Some(value: T) {
    function GetOr(default: T): T {
      match this
      case Some(v) => v
      case None => default
    }
  }

  /** The errors the modelled code throws or rethrows. */
  datatype Error =
    | NoMoreParts              // "No more parts to generate"
    | NoCharacter              // "No character to finalize"
    | ParseFailure             // "Failed to parse LLM response as JSON"
    | Gateway(message: string) // network, authentication or HTTP failure of an LLM call
    | TypeError(message: string) // a property read on `undefined` or `null`

  datatype Result<+T> = Success(value: T) | Failure(error: Error)
}
