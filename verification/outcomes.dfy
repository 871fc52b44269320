/** Results shared by the three stages of the pipeline (lexer, parser, evaluator). */
module Outcomes {

  /** The conventional optional value. */
  datatype Option<+T> = None | Some(value: T)

  /** What a stage hands back to its caller.
      - Ok carries the stage's value;
      - Err carries an error the stage returns (an `Err` of the source's `Result`);
      - Panic stands for an abort of the whole program: an `unwrap` of an `Err`, an index
        into an empty token queue, an `expect` that fails, or a `todo!`. */
  datatype Outcome<+T, +E> = Ok(value: T) | Err(error: E) | Panic(reason: string)
}
