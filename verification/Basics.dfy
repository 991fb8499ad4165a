/** What several parts of the client share. */
module Basics {

  /** A server, by its position in the pool. */
  type ServerId = nat

  const MAX_KEY_LEN := 250

  type Byte = b: nat | b < 0x100 witness 0
}
