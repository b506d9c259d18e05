/** Small shared vocabulary: optional values and the fixed-width integer
    types the C++ code passes around (`char` bytes of a QByteArray, quint16). */
module Basics {

  /** Stands in for a value that may be absent, such as a null reply. */
  datatype Option<+T> = None | Some(value: T)

  /** One element of a QByteArray. */
  type byte = x: int | 0 <= x < 0x100

  /** A quint16, as used for transport ports. */
  type uint16 = x: int | 0 <= x < 0x1_0000

  /** An unsigned 8-bit code, as carried in the code field of a message. */
  type uint8 = x: int | 0 <= x < 0x100
}
