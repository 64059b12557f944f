/** The unit of the queue storage and of the stream buffers. */
module Octets {

  newtype byte = x: int | 0 <= x < 256
}
