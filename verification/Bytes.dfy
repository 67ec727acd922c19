/** Bytes, for the audio files and the wire. */
module Bytes {
  type Byte = x: int | 0 <= x < 256
}
