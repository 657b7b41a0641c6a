/** Bytes as the small integers they are. */
module Bytes {
  type byte = x: int | 0 <= x < 256
  type Bytes = seq<byte>
}
