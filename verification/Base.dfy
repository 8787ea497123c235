/** Types shared by every part of the model. */
module Base {

  const U32: int := 0x1_0000_0000
  const U64: int := 0x1_0000_0000_0000_0000

  /** The C types `uint32_t` and `uint64_t`. */
  type Word32 = x: int | 0 <= x < 0x1_0000_0000
  type Word64 = x: int | 0 <= x < 0x1_0000_0000_0000_0000

  /** A request id. */
  type Req = Word32

  datatype Option<+T> = None | Some(value: T)
}
