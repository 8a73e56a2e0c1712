/** The channel a server keeps for each child. */
module Channels {
  // How many envelopes it holds when full.
  const CAPACITY := 16
}
