/**
 * The record shared by the firmware and the host: one slider reading.
 * Fixed-width integers are subset types of `int`.
 */
module GainLib {
  type u8 = x: int | 0 <= x < 0x100
  type u16 = x: int | 0 <= x < 0x1_0000
  type u32 = x: int | 0 <= x < 0x1_0000_0000

  /** A slider event: the channel id and its conditioned 10-bit value. */
  datatype Slider = Slider(id: u8, value: u16)

  type byte = x: int | 0 <= x < 0x100
}
