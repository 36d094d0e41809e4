/**
 * The machine widths both core files rely on: the 32- and 64-bit unsigned
 * words of C's `uint32_t`/`uint64_t` and of the generator's `.quad` packing,
 * and the largest value of a 32-bit C `int`.
 */
module MachineWords {
  const Two32: nat := 0x1_0000_0000
  const Two64: nat := 0x1_0000_0000_0000_0000

  type U32 = x: nat | x < 0x1_0000_0000
  type U64 = x: nat | x < 0x1_0000_0000_0000_0000

  /** `INT_MAX` for a 32-bit `int`. */
  const IntMax: int := 0x7FFF_FFFF
}
