/**
 The encrypted connection and the frame functions over it as objects (internal/transport/noise.go,
 internal/transport/frame.go).
 */
module NoiseConns {
  import opened Options
  import opened ByteStrings
  import opened Frames

  /** Stores the low `w` bytes of `v` at `at`, most significant first. */
  method PutBigEndian(a: array<byte>, at: nat, v: nat, w: nat)
    requires at + w <= a.Length
    modifies a
    ensures a[at..at + w] == BigEndian(v, w)
    ensures a[..at] == old(a[..at]) && a[at + w..] == old(a[at + w..])
  {
    var i, x := w, v;
    while i > 0
      invariant 0 <= i <= w
      invariant BigEndian(v, w) == BigEndian(x, i) + a[at + i..at + w]
      invariant a[..at] == old(a[..at]) && a[at + w..] == old(a[at + w..])
    {
      i := i - 1;
      ghost var low := a[at + i + 1..at + w];
      a[at + i] := x % 256;
      assert a[at + i..at + w] == [x % 256] + low;
      x := x / 256;
    }
  }

  class NoiseConn {
    const cipher: Cipher
    /** Bytes still to arrive before the stream ends, and bytes written so far. */
    var incoming: Bytes
    var outgoing: Bytes
    var sendCounter: nat
    var recvCounter: nat
    var readBuf: Bytes

    function Receiver(): (r: Reader)
      reads this
    {
      Reader(readBuf, incoming, recvCounter)
    }

    constructor (cipher: Cipher, incoming: Bytes)
      ensures this.cipher == cipher && outgoing == [] && sendCounter == 0
      ensures Receiver() == Reader([], incoming, 0)
    {
      this.cipher := cipher;
      this.incoming, this.outgoing := incoming, [];
      sendCounter, recvCounter := 0, 0;
      readBuf := [];
    }

    /** Seals the plaintext as one message: the length, then the ciphertext. */
    method Write(p: Bytes)
      modifies this`outgoing, this`sendCounter
      ensures outgoing == old(outgoing) + Record(cipher, old(sendCounter), p)
      ensures sendCounter == old(sendCounter) + 1
    {
      var ciphertext := cipher.seal(sendCounter, p);
      sendCounter := sendCounter + 1;
      var lenBuf := new byte[4];
      PutBigEndian(lenBuf, 0, |ciphertext|, 4);
      assert lenBuf[0..4] == lenBuf[..];
      outgoing := outgoing + lenBuf[..];
      outgoing := outgoing + ciphertext;
    }

    /** Returns what is left of the previous message, or opens the next one and keeps what does not fit. */
    method ReadSome(room: nat) returns (got: Option<Bytes>)
      modifies this`incoming, this`recvCounter, this`readBuf
      ensures (got, Receiver()) == Read(cipher, old(Receiver()), room)
    {
      if readBuf != [] {
        var n := if room < |readBuf| then room else |readBuf|;
        got := Some(readBuf[..n]);
        readBuf := readBuf[n..];
        return;
      }
      if |incoming| < 4 {
        incoming := [];
        return None;
      }
      var msgLen := FromBigEndian(incoming[..4]);
      incoming := incoming[4..];
      if msgLen > MAX_NOISE_MSG {
        return None;
      }
      if |incoming| < msgLen {
        incoming := [];
        return None;
      }
      var ciphertext := incoming[..msgLen];
      incoming := incoming[msgLen..];
      var plaintext := cipher.open(recvCounter, ciphertext);
      if plaintext.None? {
        return None;
      }
      recvCounter := recvCounter + 1;
      var n := if room < |plaintext.value| then room else |plaintext.value|;
      got := Some(plaintext.value[..n]);
      if n < |plaintext.value| {
        readBuf := plaintext.value[n..];
      }
    }

    /** io.ReadFull into a slice of `k` bytes. */
    method ReadExactly(k: nat) returns (data: Option<Bytes>)
      modifies this`incoming, this`recvCounter, this`readBuf
      ensures (data, Receiver()) == ReadFull(cipher, old(Receiver()), k)
    {
      hide Read, ReadFull;
      var filled: Bytes := [];
      ghost var all := ReadFull(cipher, Receiver(), k).0;
      assert all.Some? ==> filled + all.value == all.value;
      while |filled| < k
        invariant |filled| <= k
        invariant var (more, end) := ReadFull(cipher, Receiver(), k - |filled|);
                  ReadFull(cipher, old(Receiver()), k) == (if more.None? then None else Some(filled + more.value), end)
        decreases |incoming|, |readBuf|
      {
        ReadMakesProgress(cipher, Receiver(), k - |filled|);
        ghost var before := Receiver();
        var got := ReadSome(k - |filled|);
        if got.None? {
          ReadFullAfterFailure(cipher, before, k - |filled|, Receiver());
          return None;
        }
        ReadFullAfterRead(cipher, before, k - |filled|, got.value, Receiver());
        ghost var more := ReadFull(cipher, Receiver(), k - |filled| - |got.value|).0;
        if more.Some? {
          assert filled + (got.value + more.value) == (filled + got.value) + more.value;
        }
        filled := filled + got.value;
      }
      ReadNothing(cipher, Receiver());
      assert filled + [] == filled;
      data := Some(filled);
    }

    /** The whole frame goes out in one Write; a payload over the limit is refused and nothing is written. */
    method WriteFrame(payload: Bytes) returns (ok: bool)
      modifies this`outgoing, this`sendCounter
      ensures ok <==> |payload| <= 1048576
      ensures ok ==> outgoing == old(outgoing) + Record(cipher, old(sendCounter), FrameBytes(payload))
                     && sendCounter == old(sendCounter) + 1
      ensures !ok ==> outgoing == old(outgoing) && sendCounter == old(sendCounter)
    {
      if |payload| > MAX_PAYLOAD {
        return false;
      }
      var buf := new byte[HEADER_SIZE + |payload|];
      PutBigEndian(buf, 0, MAGIC, 2);
      PutBigEndian(buf, 2, VERSION, 2);
      assert buf[0..2] == buf[..2];
      PutBigEndian(buf, 4, |payload|, 4);
      assert buf[..4] == buf[0..2] + buf[2..4];
      ghost var hdr := buf[..8];
      assert hdr == buf[..4] + buf[4..8] == Header(|payload|);
      for i := 0 to |payload|
        modifies buf
        invariant buf[..8] == hdr
        invariant buf[8..8 + i] == payload[..i]
      {
        buf[8 + i] := payload[i];
        assert buf[8..8 + i + 1] == buf[8..8 + i] + [payload[i]];
      }
      assert payload[..|payload|] == payload;
      assert buf[..] == buf[..8] + buf[8..8 + |payload|] == FrameBytes(payload);
      Write(buf[..]);
      return true;
    }

    method NextFrame() returns (payload: Option<Bytes>)
      modifies this`incoming, this`recvCounter, this`readBuf
      ensures (payload, Receiver()) == ReadFrame(cipher, old(Receiver()))
    {
      hide ReadFull;
      var hdr := ReadExactly(HEADER_SIZE);
      if hdr.None? {
        return None;
      }
      var magic := FromBigEndian(hdr.value[0..2]);
      if magic != MAGIC {
        return None;
      }
      var version := FromBigEndian(hdr.value[2..4]);
      if version != VERSION {
        return None;
      }
      var length := FromBigEndian(hdr.value[4..8]);
      if length > MAX_PAYLOAD {
        return None;
      }
      payload := ReadExactly(length);
    }
  }
}
