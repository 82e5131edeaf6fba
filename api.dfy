/** What the API routes share: the errors storage throws and `Math.max`. */
module Api {
  import opened Wrappers

  /** A thrown storage error; its `message` may be missing. */
  datatype StorageError = StorageError(message: Option<string>)

  /** `Math.max(a, b)` on integers. */
  function Max(a: int, b: int): (m: int)
    ensures m >= a && m >= b
    ensures m == a || m == b
  {
    if a >= b then a else b
  }
}
