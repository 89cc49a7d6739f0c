/** Value types shared by the modules of the framework model. */
module Common {

  /** `std::optional<T>` and the scanner's "maybe an address". */
  datatype Option<+T> = None | Some(value: T)

  /** One octet of memory (`uint8_t`, or a `char` read as raw bits). */
  type Byte = b: int | 0 <= b < 0x100

  /** `unsigned int` on the target (32 bits). */
  type U32 = x: int | 0 <= x < 0x1_0000_0000

  /** `uint64_t`. */
  type U64 = x: int | 0 <= x < 0x1_0000_0000_0000_0000

  /** A pointer into the game's address space; `Null` is `nullptr`. */
  type Ptr = nat

  const Null: Ptr := 0
}
