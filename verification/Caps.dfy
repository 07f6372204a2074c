/** The frozen version-1 protocol constants. */
module Caps {
  import opened Basics

  const PEX_VERSION: u32 := 1
  const PEX_MAX_ADDED: nat := 50
  const PEX_MAX_DROPPED: nat := 50
  const PEX_MAX_SNAPSHOT: nat := 200
  const PEX_MAX_ADDRESSES: nat := 8
  const PEX_MAX_FLAGS: nat := 8
  const PEX_MAX_FLAG_LEN: nat := 32
  const PEX_MAX_FRAME: nat := 262_144
  const PEX_MIN_INTERVAL: u32 := 30
  const PEX_MAX_INTERVAL: u32 := 3600
  const PEX_ARRIVAL_GRACE: u32 := 5
  const PEX_MAX_ENTRY_AGE: nat := 1800
  const PEX_VIOLATION_LIMIT: nat := 3
  const PEX_MAX_RECEIVED_PER_LINK: nat := 4096
  const PEX_MAX_HINTS: nat := 16_384
  const PEX_MAX_PAYMENT_ADDRESS_LEN: nat := 128
  const PEX_MAX_PAYMENT_SPKI_LEN: nat := 512
  const PEX_MAX_PAYMENT_SIG_LEN: nat := 256

  predicate FrameWithinBound(len: nat) { len <= PEX_MAX_FRAME }
}
