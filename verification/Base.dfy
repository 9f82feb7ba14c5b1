/** Types shared by every model in this project. */
module Base {
  datatype Option<+T> = None | Some(value: T)

  /** One byte of a downloaded file. */
  type Byte = b: int | 0 <= b < 256

  function Min(a: int, b: int): int {
    if a <= b then a else b
  }

  function Max(a: int, b: int): int {
    if a >= b then a else b
  }
}
