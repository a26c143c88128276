/** Bytes, as every stream of the relay carries them. */
module Bytes {
  newtype Byte = b: int | 0 <= b < 0x100
}
