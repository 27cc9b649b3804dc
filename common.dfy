/** Small value helpers shared by the other modules. */
module Common {

  datatype Option<T> = None | Some(value: T)

  function Min(a: int, b: int): int { if a <= b then a else b }

  function Max(a: int, b: int): int { if a <= b then b else a }

  /** Python's `int(b)` for a boolean. */
  function BoolToInt(b: bool): (r: int)
    ensures r == 0 || r == 1
    ensures (r == 1) == b
  {
    if b then 1 else 0
  }
}
