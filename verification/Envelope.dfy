/** The signed envelope (pkg/proto/envelope.go). */
module Envelopes {
  import opened ByteStrings
  import opened Crypto

  datatype Envelope = Envelope(
    messageId: Id,
    senderId: Id,
    lamportTs: uint64,
    hopCount: uint32,
    msgType: uint32,
    payload: Bytes,
    signature: Bytes,
    senderPubkey: Bytes)

  function SignData(env: Envelope): (data: Bytes) {
    env.messageId + env.senderId + BigEndian(env.lamportTs, 8) + BigEndian(env.msgType, 4) + env.payload
  }

  /** The buffer is built by appending field after field. */
  method EnvelopeSignData(env: Envelope) returns (buf: Bytes)
    ensures buf == SignData(env)
  {
    buf := [];
    buf := buf + env.messageId;
    buf := buf + env.senderId;
    buf := buf + BigEndian(env.lamportTs, 8);
    buf := buf + BigEndian(env.msgType, 4);
    buf := buf + env.payload;
  }

  /** A private key of the wrong size clears the signature. */
  function Signed(c: Primitives, env: Envelope, priv: Bytes): (r: Envelope) {
    env.(signature := if |priv| != PRIVATE_KEY_SIZE then [] else c.sign(priv, SignData(env)))
  }

  predicate Verifies(c: Primitives, env: Envelope, key: Key) {
    |key| == PUBLIC_KEY_SIZE && |env.signature| == SIGNATURE_SIZE
    && c.verify(key, SignData(env), env.signature)
  }

  method SignEnvelope(c: Primitives, env: Envelope, priv: Bytes) returns (r: Envelope)
    ensures r == Signed(c, env, priv)
  {
    if |priv| != PRIVATE_KEY_SIZE {
      return env.(signature := []);
    }
    var data := EnvelopeSignData(env);
    r := env.(signature := c.sign(priv, data));
  }

  method VerifyEnvelope(c: Primitives, env: Envelope, key: Key) returns (ok: bool)
    ensures ok <==> Verifies(c, env, key)
  {
    if |key| != PUBLIC_KEY_SIZE {
      return false;
    }
    if |env.signature| != SIGNATURE_SIZE {
      return false;
    }
    var data := EnvelopeSignData(env);
    ok := c.verify(key, data, env.signature);
  }

  /** An envelope signed with a usable private key verifies under its public key; with any other it never does. */
  lemma SignThenVerify(c: Primitives, env: Envelope, priv: Bytes)
    requires Ideal(c)
    ensures Verifies(c, Signed(c, env, priv), c.publicKey(priv)) <==> |priv| == PRIVATE_KEY_SIZE
  {
    assert SignData(Signed(c, env, priv)) == SignData(env);
  }

  /**
   What a relay may change: after any change of hop count and sender key the envelope verifies under
   exactly the same keys as before.
   */
  lemma RelayingKeepsSignature(c: Primitives, env: Envelope, hops: uint32, pubkey: Bytes, key: Key)
    ensures Verifies(c, env.(hopCount := hops, senderPubkey := pubkey), key) <==> Verifies(c, env, key)
  {
    assert SignData(env.(hopCount := hops, senderPubkey := pubkey)) == SignData(env);
  }

  predicate SameSignedFields(a: Envelope, b: Envelope) {
    a.messageId == b.messageId && a.senderId == b.senderId && a.lamportTs == b.lamportTs
    && a.msgType == b.msgType && a.payload == b.payload
  }

  /**
   The sign data has no length prefixes: two envelopes with equal sign data agree in every signed field
   if and only if their two identifiers have the same lengths.
   */
  lemma SignDataDeterminesFields(a: Envelope, b: Envelope)
    requires SignData(a) == SignData(b)
    ensures SameSignedFields(a, b) <==> |a.messageId| == |b.messageId| && |a.senderId| == |b.senderId|
  {
    if |a.messageId| == |b.messageId| && |a.senderId| == |b.senderId| {
      var i, j := |a.messageId|, |a.messageId| + |a.senderId|;
      var da, db := SignData(a), SignData(b);
      assert da[..i] == a.messageId && db[..i] == b.messageId;
      assert da[i..j] == a.senderId && db[i..j] == b.senderId;
      assert da[j..j + 8] == BigEndian(a.lamportTs, 8) && db[j..j + 8] == BigEndian(b.lamportTs, 8);
      assert da[j + 8..j + 12] == BigEndian(a.msgType, 4) && db[j + 8..j + 12] == BigEndian(b.msgType, 4);
      assert da[j + 12..] == a.payload && db[j + 12..] == b.payload;
      Powers();
      BigEndianRoundTrip(a.lamportTs, 8);
      BigEndianRoundTrip(b.lamportTs, 8);
      BigEndianRoundTrip(a.msgType, 4);
      BigEndianRoundTrip(b.msgType, 4);
    }
  }

  /** The boundary between the two identifiers is not signed: moving a byte across it keeps the sign data. */
  lemma SignDataBoundaryMoves(env: Envelope)
    requires env.messageId != []
    ensures var last := |env.messageId| - 1;
            var moved := env.(messageId := env.messageId[..last], senderId := [env.messageId[last]] + env.senderId);
            SignData(moved) == SignData(env) && !SameSignedFields(moved, env)
  {
    var last := |env.messageId| - 1;
    assert env.messageId[..last] + ([env.messageId[last]] + env.senderId) == env.messageId + env.senderId;
  }

  // ---------- what a verified envelope proves ----------

  /**
   Nobody forges: what verifies under the public key of `priv` is the sign data, written out, of an envelope in
   `signed`, whatever the signature.
   */
  ghost predicate OnlySigned(c: Primitives, priv: Bytes, signed: set<Envelope>) {
    forall data, sig :: c.verify(c.publicKey(priv), data, sig) ==>
      exists e :: e in signed
        && data == e.messageId + e.senderId + BigEndian(e.lamportTs, 8) + BigEndian(e.msgType, 4) + e.payload
  }

  /** Identifiers of fixed lengths: all those signed are as long as those of `env`. */
  ghost predicate SameLengths(signed: set<Envelope>, env: Envelope) {
    forall e :: e in signed ==> |e.messageId| == |env.messageId| && |e.senderId| == |env.senderId|
  }

  /** An envelope that passes under a key carries, in every signed field, what the key's owner has signed. */
  lemma VerifiedMeansSigned(c: Primitives, priv: Bytes, signed: set<Envelope>, env: Envelope) returns (e: Envelope)
    requires OnlySigned(c, priv, signed) && SameLengths(signed, env)
    requires Verifies(c, env, c.publicKey(priv))
    ensures |env.signature| == 64 && |c.publicKey(priv)| == 32
    ensures e in signed && e.messageId == env.messageId && e.senderId == env.senderId
    ensures e.lamportTs == env.lamportTs && e.msgType == env.msgType && e.payload == env.payload
  {
    e :| e in signed && SignData(env)
                        == e.messageId + e.senderId + BigEndian(e.lamportTs, 8) + BigEndian(e.msgType, 4) + e.payload;
    assert SignData(e) == SignData(env);
    SignDataDeterminesFields(e, env);
  }

  /**
   An envelope with the id and the signature of a signed one, both ids being of fixed lengths and no two signed
   envelopes sharing an id, verifies exactly if payload, type, timestamp and sender id are the signed ones too.
   */
  lemma AlteredIsRefused(c: Primitives, priv: Bytes, signed: set<Envelope>, original: Envelope, env: Envelope)
    requires Ideal(c) && |priv| == PRIVATE_KEY_SIZE
    requires OnlySigned(c, priv, signed) && SameLengths(signed, env)
    requires forall a, b :: a in signed && b in signed && a.messageId == b.messageId ==> a == b
    requires original in signed && env.messageId == original.messageId
    requires env.signature == c.sign(priv, SignData(original))
    ensures Verifies(c, env, c.publicKey(priv)) <==>
              env.payload == original.payload && env.msgType == original.msgType
              && env.lamportTs == original.lamportTs && env.senderId == original.senderId
  {
    if Verifies(c, env, c.publicKey(priv)) {
      var e := VerifiedMeansSigned(c, priv, signed, env);
      assert e == original;
    }
    if SameSignedFields(env, original) {
      assert SignData(env) == SignData(original);
    }
  }
}
