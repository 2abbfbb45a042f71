/** Keys, and the capabilities peers use to prove that they know a key. */
module Handshake {
  import opened Wrappers
  import opened Compact

  /** 32 bytes: keys, discovery keys, public keys and capabilities. */
  type Key = b: seq<byte> | |b| == 32 witness seq(32, _ => 0)

  /**
   The two keyed hashes, as unknown functions: the discovery key of a key, and the capability that the
   given role (true for the initiator) shows for a key over a connection with the given handshake hash.
   */
  datatype Crypto = Crypto(discovery: Key -> Key, capability: (bool, Key, Bytes) -> Key) {
    /** No two keys share a discovery key. */
    ghost predicate Injective() {
      forall k, l :: discovery(k) == discovery(l) ==> k == l
    }
  }

  /** What one side knows once the connection is encrypted. */
  datatype HandshakeResult = HandshakeResult(initiator: bool, hash: Bytes) {
    function Capability(crypto: Crypto, key: Key): Key {
      crypto.capability(initiator, key, hash)
    }

    function RemoteCapability(crypto: Crypto, key: Key): Key {
      crypto.capability(!initiator, key, hash)
    }

    predicate Verify(crypto: Crypto, capability: Option<Bytes>, key: Key) {
      capability == Some(RemoteCapability(crypto, key))
    }
  }

  /** Two sides of one connection accept each other's capabilities for the same key. */
  lemma MutualAcceptance(crypto: Crypto, mine: HandshakeResult, theirs: HandshakeResult, key: Key)
    requires mine.hash == theirs.hash && mine.initiator != theirs.initiator
    ensures mine.Verify(crypto, Some(theirs.Capability(crypto, key)), key)
    ensures theirs.Verify(crypto, Some(mine.Capability(crypto, key)), key)
  {
    assert !theirs.initiator == mine.initiator;
  }
}
