/** Small result types shared by the models. */
module Common {
  datatype Option<+T> = None | Some(value: T)

  /** The outcome of an operation that panics on a bad index. */
  datatype Outcome<+T> = Panicked | Returned(value: T)

  const U32_MAX := 0xFFFF_FFFF
  const U64_MAX := 0xFFFF_FFFF_FFFF_FFFF
  const TWO_TO_64 := 0x1_0000_0000_0000_0000

  type U32 = x: nat | x <= U32_MAX
}
