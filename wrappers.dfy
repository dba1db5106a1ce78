/** The Python exceptions the composition engine can raise, and a result
    type that carries either a value or one of them. */
module Wrappers {

  /** KeyError: unknown chord quality; IndexError: list index out of range
      (including `motive[-1]` on an empty motive); ValueError: `list.index`
      of a value that is not in the list. */
  datatype Error = KeyError | IndexError | ValueError

  datatype Option<+T> = None | Some(value: T)

  datatype Result<+T> = Ok(value: T) | Err(error: Error) {
    predicate IsFailure() { Err? }

    function PropagateFailure<U>(): Result<U>
      requires Err?
    {
      Err(error)
    }

    function Extract(): T
      requires Ok?
    {
      value
    }
  }
}
