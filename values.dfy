/**
 * Value types shared by the binding: fixed-width unsigned integers as Go
 * declares them, the Option/Result wrappers that stand for Go's
 * `(value, error)` returns, and the Node handle.
 */
module Values {

  type u8 = x: int | 0 <= x < 0x100
  type u16 = x: int | 0 <= x < 0x1_0000
  type u32 = x: int | 0 <= x < 0x1_0000_0000
  type u64 = x: int | 0 <= x < 0x1_0000_0000_0000_0000

  /** Go's uint32 arithmetic: the low 32 bits of a sum or a conversion. */
  function Wrap32(x: int): (r: u32)
    ensures 0 <= x < 0x1_0000_0000 ==> r == x
  {
    x % 0x1_0000_0000
  }

  datatype Option<+T> = None | Some(value: T)

  /** A value or the text of the Go error that replaced it. */
  datatype Result<+T> = Ok(value: T) | Err(message: string)

  /**
   * A node handle: the guest address of a 24-byte node descriptor. The
   * session reference that Go's Node also carries is left implicit; the
   * zero value `Node{}` is `Node(0)`.
   */
  datatype Node = Node(handle: u64)

  const ZeroNode := Node(0)
}
