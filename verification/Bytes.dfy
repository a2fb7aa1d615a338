/** Raw bytes: Redis keys and field values are binary-safe. */
module Bytes {
  type Byte = x: int | 0 <= x < 256
}
