/** Vocabulary shared by all modules. */
module Common {

  /** Identifiers and versions. Only equality and the order of the database
      collation matter; zero stands for the empty string. */
  type Id = nat

  /** Instants and durations in nanoseconds; zero stands for the unset time. */
  type Time = int
  type Duration = int

  datatype Option<+T> = None | Some(value: T)

  datatype Result<+T> = Ok(value: T) | Err(error: Failure)

  datatype Failure =
    | InvalidInput
    | InvalidPrediction
    | PredictionFailed

  function Min(a: int, b: int): int {
    if a <= b then a else b
  }

  function MinReal(a: real, b: real): real {
    if a <= b then a else b
  }

  function MaxReal(a: real, b: real): real {
    if a >= b then a else b
  }

  function Abs(a: real): real {
    if a >= 0.0 then a else -a
  }
}
