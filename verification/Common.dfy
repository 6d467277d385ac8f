/** What every component shares: bytes, and values that may be missing. */
module Common {
  type byte = x: int | 0 <= x < 256

  datatype Option<+T> = None | Some(value: T)
}
