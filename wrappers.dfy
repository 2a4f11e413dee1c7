/** Python's `None`-or-value, and a value-or-exception for the operations
    that raise. */
module Wrappers {

  datatype Option<T> = None | Some(value: T)

  /** The outcome of a call that may raise: its value, or the text of the
      exception (`str(e)`). */
  datatype Result<T> = Ok(value: T) | Err(error: string)

  /** Python's `not value` for an optional text: `None` or the empty string. */
  predicate Falsy(o: Option<string>)
  {
    o.None? || o.value == []
  }

  /** `str(value)` (or `f"{value}"`) for an optional text. */
  function PyStr(o: Option<string>): string
  {
    if o.None? then "None" else o.value
  }
}
