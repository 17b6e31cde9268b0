/**
 * The fixed-width C++ integer types the runtime's value types are built from,
 * and an Option type for lookups that a C++ compiler would reject.
 */
module Primitives {

  /** `int8_t` */
  newtype int8 = x: int | -0x80 <= x < 0x80

  /** `uint8_t`, also the element type of a scalar's raw storage */
  newtype uint8 = x: int | 0 <= x < 0x100

  /** `int32_t` */
  newtype int32 = x: int | -0x8000_0000 <= x < 0x8000_0000

  /** `int64_t` */
  newtype int64 = x: int | -0x8000_0000_0000_0000 <= x < 0x8000_0000_0000_0000

  /** `uint32_t` */
  newtype uint32 = x: int | 0 <= x < 0x1_0000_0000

  /** True when `x` fits in an `int32_t`, i.e. a signed 32-bit operation yielding `x` is defined. */
  predicate InInt32(x: int)
  {
    -0x8000_0000 <= x < 0x8000_0000
  }

  datatype Option<+T> = None | Some(value: T)
}
