/** Shared value types of the clipboard model. */
module Common {

  datatype Option<+T> = None | Some(value: T)

  /** An octet of clipboard data or of a packet. */
  newtype byte = x: int | 0 <= x < 256

  /** C's 32-bit `unsigned`, used for sizes and for time stamps. */
  const U32_LIMIT: int := 0x1_0000_0000
  type u32 = x: int | 0 <= x < 0x1_0000_0000

  /** The sizes sendData and recvData take are C's 32-bit `int`: from here on they turn negative. */
  const INT_LIMIT: int := 0x8000_0000

  function Min(a: int, b: int): (m: int)
    ensures m <= a && m <= b && (m == a || m == b)
  {
    if a > b then b else a
  }
}
