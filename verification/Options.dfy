/** Shared failure-carrying values. */
module Options {

  datatype Option<+T> = None | Some(value: T)

  /** A stored boolean.  An enumeration keeps large records cheap to compare. */
  datatype Flag = No | Yes

  function Flagged(b: bool): Flag {
    if b then Yes else No
  }

  datatype Result<+T, +E> = Ok(value: T) | Err(error: E)
}
