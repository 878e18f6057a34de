/** Small value types shared by every part of the booking client model. */
module Common {

  /** A value that may be missing: JavaScript's `undefined`/`null` versus a present value. */
  datatype Option<+T> = None | Some(value: T)

  /** What a numeric `<input>` hands its change handler: the empty string, or a numeral read as an integer. */
  datatype NumberText = EmptyText | Numeral(n: int)

  function Min(a: int, b: int): int { if a <= b then a else b }

  function Max(a: int, b: int): int { if a <= b then b else a }
}
