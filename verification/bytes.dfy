/** The bytes of a buffer. */
module Bytes {
  type byte = b: int | 0 <= b < 256
}
