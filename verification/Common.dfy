/** Small types shared by the modules of the model. */
module Common {

  datatype Option<+T> = None | Some(value: T)

  /** How a worker goroutine returns: nil, an error for which
      errors.Is(err, context.Canceled) holds, or any other error. */
  datatype RunError = NoError | Canceled | Broken(message: string) {

    /** The supervisor and the worker treat only this kind as a failure. */
    predicate Real() {
      Broken?
    }
  }

  /** The state after the first n moves. */
  function After<S, M>(step: (S, M) -> S, s: S, moves: seq<M>, n: nat): S
    requires n <= |moves|
  {
    if n == 0 then s else step(After(step, s, moves, n - 1), moves[n - 1])
  }
}
