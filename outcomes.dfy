/** Failure values shared by every stage of the panoptic input pipeline. */
module Outcomes {

  datatype Option<+T> = None | Some(value: T)

  /** The ways an example can fail to load; every one of them is fatal for the stream. */
  datatype Error =
    | MalformedIdentifier(id: string)   // the `_`-split of an identifier does not leave exactly three tokens
    | FileNotFound(path: string)        // a read of an image, label or box file that does not exist
    | BadToken(token: string)           // a box-file token that is not an int32 literal
    | RaggedBoxTable(tokenCount: nat)   // the box-file token count is not a multiple of 7
    | EmptyResize                       // a resize from or to a raster with no rows or no columns
    | InvalidBatchSize                  // a batch size below one

  datatype Result<+T> = Ok(value: T) | Err(error: Error) {
    predicate IsFailure() { Err? }
    function PropagateFailure<U>(): Result<U> requires Err? { Err(error) }
    function Extract(): T requires Ok? { value }
  }
}
