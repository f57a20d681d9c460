/**
 * Shared vocabulary: the optional value that stands for a nullable C++
 * pointer, and the fixed-width unsigned integer ranges used on the wire.
 */
module Common {

  /** A nullable pointer or an absent argument: None is nullptr. */
  datatype Option<+T> = None | Some(value: T)

  /** unsigned char */
  type uint8 = x: int | 0 <= x < 0x100

  /** unsigned short */
  type uint16 = x: int | 0 <= x < 0x1_0000

  /** int (32 bits), the result of base::Number::getInt() */
  type int32 = x: int | -0x8000_0000 <= x < 0x8000_0000

  /** unsigned int (32 bits) */
  type uint32 = x: int | 0 <= x < 0x1_0000_0000
}
