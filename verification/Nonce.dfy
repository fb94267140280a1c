/**
  The nonce counter (crates/execution-agent/src/nonce.rs).
 */
module Nonce {
  import opened Types
  import opened Reference

  class NonceManager {
    var nonce: U64

    constructor (initial: U64)
      ensures nonce == initial
    {
      nonce := initial;
    }

    method Next() returns (taken: U64)
      modifies this
      ensures taken == old(nonce) && nonce == NextNonce(old(nonce))
    {
      taken := nonce;
      nonce := (nonce + 1) % U64_RANGE;
    }

    method Sync(chainNonce: U64)
      modifies this
      ensures nonce == chainNonce
    {
      nonce := chainNonce;
    }
  }
}
