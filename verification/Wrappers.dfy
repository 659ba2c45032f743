/** What the models share: an optional value, a success or an error, and a Python slice. */
module Wrappers {
  datatype Option<+T> = None | Some(value: T)

  datatype Result<+T, +E> = Ok(value: T) | Err(error: E)

  /** `s[from:to]`: empty when its ends cross. */
  function Slice(s: string, from: nat, to: nat): string
    requires to <= |s|
  {
    if from <= to then s[from..to] else ""
  }
}
