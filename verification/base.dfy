/** Small shared vocabulary: optional values, results and Go's fixed-width integers. */
module Base {

  /** A value that may be absent (a Go nil pointer, an unset optional field). */
  datatype Option<+T> = None | Some(value: T) {
    function GetOr(default: T): T {
      match this
      case Some(v) => v
      case None => default
    }
  }

  /** Either a value or an error. */
  datatype Result<+T, +E> = Ok(value: T) | Err(error: E)

  /** Go's uint64. */
  type U64 = x: int | 0 <= x < 0x1_0000_0000_0000_0000

  /** Go's int on a 64-bit platform. */
  type Int64 = x: int | -0x8000_0000_0000_0000 <= x < 0x8000_0000_0000_0000

  /** Go's uint32. */
  type U32 = x: int | 0 <= x < 0x1_0000_0000

  /** The conversion `uint32(x)` of a Go int: two's-complement truncation to the low 32 bits. */
  function ToUint32(x: int): (r: U32)
    ensures 0 <= x < 0x1_0000_0000 ==> r == x
    ensures (r - x) % 0x1_0000_0000 == 0
  {
    x % 0x1_0000_0000
  }
}
