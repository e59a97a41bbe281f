/**
 The cryptography the node calls, idealised: SHA-256 is an injective function, the length of whose results plays no
 part, and ED25519 is a relation between a public key, a byte string and a signature.
 */
module Crypto {
  import opened ByteStrings

  type Id = Bytes
  type Key = Bytes

  const PUBLIC_KEY_SIZE := 32
  const PRIVATE_KEY_SIZE := 64
  const SIGNATURE_SIZE := 64

  datatype Primitives = Primitives(
    sha256: Bytes -> Bytes,
    publicKey: Bytes -> Key,
    sign: (Bytes, Bytes) -> Bytes,
    verify: (Key, Bytes, Bytes) -> bool)

  ghost predicate Injective(f: Bytes -> Bytes) {
    forall x, y :: f(x) == f(y) ==> x == y
  }

  /** What the theorems assume of the primitives; `verify` is otherwise an arbitrary relation. */
  ghost predicate Ideal(c: Primitives) {
    && Injective(c.sha256)
    && (forall priv, data :: c.verify(c.publicKey(priv), data, c.sign(priv, data)))
    && (forall priv, data :: |c.sign(priv, data)| == SIGNATURE_SIZE)
    && (forall priv :: |c.publicKey(priv)| == PUBLIC_KEY_SIZE)
  }

  /** A node id is the hexadecimal hash of the node's public key. */
  function NodeIdOf(c: Primitives, key: Key): (id: Id) {
    HexEncode(c.sha256(key))
  }

  /** `key` has the size of a public key and `id` is derived from it. */
  predicate BoundTo(c: Primitives, key: Key, id: Id) {
    |key| == PUBLIC_KEY_SIZE && NodeIdOf(c, key) == id
  }

  /** Self-certification: an id has at most one key bound to it. */
  lemma NodeIdDeterminesKey(c: Primitives, k1: Key, k2: Key)
    requires Injective(c.sha256)
    requires NodeIdOf(c, k1) == NodeIdOf(c, k2)
    ensures k1 == k2
  {
    HexRoundTrip(c.sha256(k1));
    HexRoundTrip(c.sha256(k2));
  }
}
