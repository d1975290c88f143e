/** Failure-compatible wrappers shared by every module, and the Python
    exceptions the modelled code can raise. */
module Base {

  datatype Option<+T> = None | Some(value: T)

  /** The exceptions raised by the modelled code.
      - KeyError: a missing column, table or dictionary key (row["X"], dataframes["x"], doc["type"]).
      - ValueError: a wrong number of parts when unpacking a split, a non-digit string given to int(),
        int() of NaN, an unknown encounter id, sampling from an empty table.
      - AttributeError: .split() on a numeric cell.
      - IndexError: .iloc[0] on an empty selection.
      - ValidationError: a pydantic model rejecting a field (None for a required date, a non-string
        for a string field). */
  datatype Error =
    | KeyError(key: string)
    | ValueError
    | AttributeError
    | IndexError
    | ValidationError

  datatype Result<+T> = Ok(value: T) | Err(error: Error) {
    predicate IsFailure() { Err? }

    function PropagateFailure<U>(): Result<U>
      requires Err?
    {
      Err(error)
    }

    function Extract(): T
      requires Ok?
    {
      value
    }
  }
}
