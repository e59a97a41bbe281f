/**
 Frames over the encrypted record layer (internal/transport/frame.go, internal/transport/noise.go), as functions of
 what is buffered and what is on the wire.
 */
module Frames {
  import opened Arithmetic
  import opened Options
  import opened ByteStrings

  const MAGIC := 0x4D49
  const VERSION := 1
  const MAX_PAYLOAD := 0x10_0000
  const HEADER_SIZE := 8
  const TAG_SIZE := 16
  const MAX_NOISE_MSG := MAX_PAYLOAD + HEADER_SIZE + TAG_SIZE

  function Header(length: nat): (bs: Bytes)
    ensures |bs| == HEADER_SIZE
  {
    BigEndian(MAGIC, 2) + BigEndian(VERSION, 2) + BigEndian(length, 4)
  }

  function FrameBytes(payload: Bytes): (bs: Bytes)
    ensures |bs| == HEADER_SIZE + |payload|
  {
    Header(|payload|) + payload
  }

  /** The bytes on the wire: "MI", version 1, the length with its most significant byte first, the payload. */
  lemma FrameLayout(payload: Bytes)
    ensures var n, bs := |payload|, FrameBytes(payload);
            && bs[0] == 'M' as int && bs[1] == 'I' as int && bs[2] == 0 && bs[3] == 1
            && bs[4] == n / 0x100_0000 % 256 && bs[5] == n / 0x1_0000 % 256 && bs[6] == n / 0x100 % 256
            && bs[7] == n % 256
            && bs[8..] == payload
  {
    FourBytes(|payload|);
    TwoBytes(MAGIC);
    TwoBytes(VERSION);
    var bs := FrameBytes(payload);
    assert bs[0..2] == BigEndian(MAGIC, 2) && bs[2..4] == BigEndian(VERSION, 2) && bs[4..8] == BigEndian(|payload|, 4);
  }

  lemma TwoBytes(v: nat)
    ensures BigEndian(v, 2) == [v / 0x100 % 256, v % 256]
  {
    assert BigEndian(v / 256, 1) == BigEndian(v / 256 / 256, 0) + [v / 256 % 256];
  }

  lemma FourBytes(v: nat)
    ensures BigEndian(v, 4) == [v / 0x100_0000 % 256, v / 0x1_0000 % 256, v / 0x100 % 256, v % 256]
  {
    TwoBytes(v / 0x1_0000);
    assert BigEndian(v, 4) == BigEndian(v / 256 / 256, 2) + [v / 256 % 256, v % 256];
  }

  /** The length a header announces, if magic, version and bound are right. */
  function ParseHeader(hdr: Bytes): (length: Option<nat>)
    requires |hdr| == HEADER_SIZE
  {
    if FromBigEndian(hdr[0..2]) != MAGIC then None
    else if FromBigEndian(hdr[2..4]) != VERSION then None
    else if FromBigEndian(hdr[4..8]) > MAX_PAYLOAD then None
    else Some(FromBigEndian(hdr[4..8]))
  }

  /** Exactly the headers WriteFrame writes are accepted, each for the length it was written for. */
  lemma HeaderIsExact(hdr: Bytes, length: nat)
    requires |hdr| == HEADER_SIZE
    ensures ParseHeader(hdr) == Some(length) <==> length <= MAX_PAYLOAD && hdr == Header(length)
  {
    Powers();
    BigEndianRoundTrip(MAGIC, 2);
    BigEndianRoundTrip(VERSION, 2);
    BigEndianRoundTrip(length, 4);
    FromBigEndianRoundTrip(hdr[0..2]);
    FromBigEndianRoundTrip(hdr[2..4]);
    FromBigEndianRoundTrip(hdr[4..8]);
    assert hdr == hdr[0..2] + hdr[2..4] + hdr[4..8];
    var h := Header(length);
    assert h[0..2] == BigEndian(MAGIC, 2) && h[2..4] == BigEndian(VERSION, 2) && h[4..8] == BigEndian(length, 4);
  }

  // ---------- the record layer ----------

  /** One direction of the transport cipher: the n-th message is sealed and opened with counter n. */
  datatype Cipher = Cipher(seal: (nat, Bytes) -> Bytes, open: (nat, Bytes) -> Option<Bytes>)

  ghost predicate Ideal(c: Cipher) {
    && (forall n, p :: c.open(n, c.seal(n, p)) == Some(p))
    && (forall n, p :: |c.seal(n, p)| == |p| + TAG_SIZE)
  }

  /** One Write: the length of the ciphertext, then the ciphertext. */
  function Record(c: Cipher, n: nat, p: Bytes): (bs: Bytes) {
    BigEndian(|c.seal(n, p)|, 4) + c.seal(n, p)
  }

  /** A record: four bytes of length, most significant first, for the ciphertext with its tag, and the ciphertext. */
  lemma RecordLayout(c: Cipher, n: nat, p: Bytes)
    requires Ideal(c)
    ensures var ct, k, bs := c.seal(n, p), |p| + 16, Record(c, n, p);
            && |bs| == 4 + k
            && bs[0] == k / 0x100_0000 % 256 && bs[1] == k / 0x1_0000 % 256 && bs[2] == k / 0x100 % 256
            && bs[3] == k % 256
            && bs[4..] == ct
  {
    FourBytes(|c.seal(n, p)|);
  }

  /** The reader: plaintext left over, bytes still to arrive before the stream ends, and the receive counter. */
  datatype Reader = Reader(buf: Bytes, wire: Bytes, counter: nat)

  /** One Read into a slice of `room` bytes; None is an error, after which the connection is of no use. */
  function Read(c: Cipher, r: Reader, room: nat): (res: (Option<Bytes>, Reader)) {
    if r.buf != [] then
      var n := Min(room, |r.buf|);
      (Some(r.buf[..n]), r.(buf := r.buf[n..]))
    else if |r.wire| < 4 then (None, r.(wire := []))
    else
      var len, rest := FromBigEndian(r.wire[..4]), r.wire[4..];
      if len > MAX_NOISE_MSG then (None, r.(wire := rest))
      else if |rest| < len then (None, r.(wire := []))
      else match c.open(r.counter, rest[..len])
        case None => (None, r.(wire := rest[len..]))
        case Some(p) =>
          var n := Min(room, |p|);
          (Some(p[..n]), Reader(p[n..], rest[len..], r.counter + 1))
  }

  lemma ReadMakesProgress(c: Cipher, r: Reader, room: nat)
    requires room > 0
    ensures var (got, r') := Read(c, r, room);
            got.Some? ==> |got.value| <= room && (|r'.wire| < |r.wire| || (r'.wire == r.wire && |r'.buf| < |r.buf|))
  {
  }

  /** io.ReadFull: reads again until the slice is full or a read fails. */
  function ReadFull(c: Cipher, r: Reader, k: nat): (res: (Option<Bytes>, Reader))
    ensures res.0.Some? ==> |res.0.value| == k
    decreases |r.wire|, |r.buf|
  {
    if k == 0 then (Some([]), r)
    else
      ReadMakesProgress(c, r, k);
      match Read(c, r, k)
      case (None, r') => (None, r')
      case (Some(got), r') =>
        match ReadFull(c, r', k - |got|)
        case (None, r'') => (None, r'')
        case (Some(more), r'') => (Some(got + more), r'')
  }

  function ReadFrame(c: Cipher, r: Reader): (res: (Option<Bytes>, Reader)) {
    match ReadFull(c, r, HEADER_SIZE)
    case (None, r') => (None, r')
    case (Some(hdr), r') =>
      match ParseHeader(hdr)
      case None => (None, r')
      case Some(length) => ReadFull(c, r', length)
  }

  // ---------- one frame per record ----------

  lemma RecordReads(c: Cipher, n: nat, p: Bytes, tail: Bytes, room: nat)
    requires Ideal(c) && |p| + TAG_SIZE <= MAX_NOISE_MSG
    ensures Read(c, Reader([], Record(c, n, p) + tail, n), room)
            == (Some(p[..Min(room, |p|)]), Reader(p[Min(room, |p|)..], tail, n + 1))
  {
    var ct, wire := c.seal(n, p), Record(c, n, p) + tail;
    Powers();
    BigEndianRoundTrip(|ct|, 4);
    assert wire[..4] == BigEndian(|ct|, 4) && wire[4..] == ct + tail;
    assert (ct + tail)[..|ct|] == ct && (ct + tail)[|ct|..] == tail;
  }

  /** The cap on records rejects exactly the plaintexts longer than any frame. */
  lemma RecordCapIsExact(c: Cipher, n: nat, p: Bytes, tail: Bytes, room: nat)
    requires Ideal(c) && |p| + TAG_SIZE < 0x1_0000_0000
    ensures Read(c, Reader([], Record(c, n, p) + tail, n), room).0.Some? <==> |p| <= MAX_PAYLOAD + HEADER_SIZE
  {
    if |p| <= MAX_PAYLOAD + HEADER_SIZE {
      RecordReads(c, n, p, tail, room);
    } else {
      var ct, wire := c.seal(n, p), Record(c, n, p) + tail;
      Powers();
      BigEndianRoundTrip(|ct|, 4);
      assert wire[..4] == BigEndian(|ct|, 4);
    }
  }

  lemma ReadFromBuffer(c: Cipher, r: Reader, k: nat)
    requires k <= |r.buf|
    ensures ReadFull(c, r, k) == (Some(r.buf[..k]), r.(buf := r.buf[k..]))
  {
    if k > 0 {
      assert r.buf[..k] + [] == r.buf[..k];
      var r' := r.(buf := r.buf[k..]);
      assert ReadFull(c, r', 0) == (Some([]), r');
    } else {
      assert r.buf[..0] == [] && r.(buf := r.buf[0..]) == r;
    }
  }

  /** A frame written as one record is read back whole, and nothing is left in the buffer. */
  lemma FrameRoundTrip(c: Cipher, n: nat, payload: Bytes, tail: Bytes)
    requires Ideal(c) && |payload| <= MAX_PAYLOAD
    ensures ReadFrame(c, Reader([], Record(c, n, FrameBytes(payload)) + tail, n))
            == (Some(payload), Reader([], tail, n + 1))
  {
    var frame, hdr := FrameBytes(payload), Header(|payload|);
    var r0 := Reader([], Record(c, n, frame) + tail, n);
    var r1 := Reader(payload, tail, n + 1);
    RecordReads(c, n, frame, tail, HEADER_SIZE);
    assert frame[..HEADER_SIZE] == hdr && frame[HEADER_SIZE..] == payload;
    assert Read(c, r0, HEADER_SIZE) == (Some(hdr), r1);
    assert ReadFull(c, r1, 0) == (Some([]), r1);
    assert hdr + [] == hdr;
    assert ReadFull(c, r0, HEADER_SIZE) == (Some(hdr), r1);
    HeaderIsExact(hdr, |payload|);
    ReadFromBuffer(c, r1, |payload|);
    assert payload[..|payload|] == payload && payload[|payload|..] == [];
  }

  /** What the writer puts on the wire for a sequence of payloads. */
  function FramedWire(c: Cipher, n: nat, payloads: seq<Bytes>): (wire: Bytes)
    decreases |payloads|
  {
    if payloads == [] then [] else Record(c, n, FrameBytes(payloads[0])) + FramedWire(c, n + 1, payloads[1..])
  }

  /** Reads `k` frames; the readers after each one are collected, the last is the state reached. */
  function ReadFrames(c: Cipher, r: Reader, k: nat): (res: (Option<seq<Bytes>>, seq<Reader>))
    decreases k
  {
    if k == 0 then (Some([]), [])
    else match ReadFrame(c, r)
      case (None, r') => (None, [r'])
      case (Some(p), r') =>
        match ReadFrames(c, r', k - 1)
        case (None, rs) => (None, [r'] + rs)
        case (Some(ps), rs) => (Some([p] + ps), [r'] + rs)
  }

  /**
   Any payloads of at most 1 MB, zero-length ones included, come back as the same sequence, with an empty buffer
   and counters in step after every frame.
   */
  lemma {:induction false} FramesRoundTrip(c: Cipher, n: nat, payloads: seq<Bytes>, tail: Bytes)
    requires Ideal(c) && forall i :: 0 <= i < |payloads| ==> |payloads[i]| <= MAX_PAYLOAD
    ensures var (got, readers) := ReadFrames(c, Reader([], FramedWire(c, n, payloads) + tail, n), |payloads|);
            && got == Some(payloads) && |readers| == |payloads|
            && (forall i :: 0 <= i < |readers| ==> readers[i].buf == [] && readers[i].counter == n + i + 1)
            && (payloads != [] ==> readers[|readers| - 1].wire == tail)
    decreases |payloads|
  {
    hide ReadFrame, Record, FrameBytes, Ideal;
    if payloads != [] {
      var first, rest := payloads[0], payloads[1..];
      var more := FramedWire(c, n + 1, rest) + tail;
      assert FramedWire(c, n, payloads) + tail == Record(c, n, FrameBytes(first)) + more;
      FrameRoundTrip(c, n, first, more);
      FramesRoundTrip(c, n + 1, rest, tail);
      assert payloads == [first] + rest;
      if rest == [] {
        assert more == tail;
      }
    }
  }

  // ---------- any chunking of the stream ----------

  function Concat(chunks: seq<Bytes>): (bs: Bytes)
    decreases |chunks|
  {
    if chunks == [] then [] else chunks[0] + Concat(chunks[1..])
  }

  function Records(c: Cipher, n: nat, chunks: seq<Bytes>): (wire: Bytes)
    decreases |chunks|
  {
    if chunks == [] then [] else Record(c, n, chunks[0]) + Records(c, n + 1, chunks[1..])
  }

  ghost predicate Fits(chunks: seq<Bytes>) {
    forall i :: 0 <= i < |chunks| ==> |chunks[i]| <= MAX_PAYLOAD + HEADER_SIZE
  }

  /** A reader at some point of a stream that a peer cut into records as it liked. */
  function At(c: Cipher, buf: Bytes, n: nat, chunks: seq<Bytes>): (r: Reader) {
    Reader(buf, Records(c, n, chunks), n)
  }

  /** The plaintext still to come. */
  function Pending(buf: Bytes, chunks: seq<Bytes>): (bs: Bytes) {
    buf + Concat(chunks)
  }

  /** A read of `got` leaves the rest of the slice to the reads after it. */
  lemma ReadFullAfterRead(c: Cipher, r: Reader, k: nat, got: Bytes, r': Reader)
    requires k > 0 && Read(c, r, k) == (Some(got), r')
    ensures |got| <= k
    ensures var (more, r'') := ReadFull(c, r', k - |got|);
            ReadFull(c, r, k) == (if more.None? then None else Some(got + more.value), r'')
  {
    ReadMakesProgress(c, r, k);
  }

  lemma ReadFullAfterFailure(c: Cipher, r: Reader, k: nat, r': Reader)
    requires k > 0 && Read(c, r, k) == (None, r')
    ensures ReadFull(c, r, k) == (None, r')
  {
  }

  lemma ReadNothing(c: Cipher, r: Reader)
    ensures ReadFull(c, r, 0) == (Some([]), r)
  {
  }

  lemma TakeInTwo(s: Bytes, m: nat, k: nat)
    requires m <= k <= |s|
    ensures s[..m] + s[m..][..k - m] == s[..k] && s[m..][k - m..] == s[k..]
  {
  }

  /** From `r`, ReadFull takes `k` bytes of `s` and ends at `end`, the others pending, or fails if there are fewer. */
  ghost predicate Follows(c: Cipher, r: Reader, k: nat, s: Bytes, end: Reader, pending: Bytes) {
    if k <= |s| then ReadFull(c, r, k) == (Some(s[..k]), end) && pending == s[k..]
    else ReadFull(c, r, k).0.None?
  }

  lemma FollowsAfterRead(c: Cipher, r: Reader, k: nat, s: Bytes, m: nat, r': Reader, end: Reader, pending: Bytes)
    requires k > 0 && m <= |s| && Read(c, r, k) == (Some(s[..m]), r') && m <= k
    requires Follows(c, r', k - m, s[m..], end, pending)
    ensures Follows(c, r, k, s, end, pending)
  {
    hide Read, ReadFull;
    ReadFullAfterRead(c, r, k, s[..m], r');
    if k <= |s| {
      TakeInTwo(s, m, k);
    }
  }

  lemma ReadFromStreamBuffer(c: Cipher, buf: Bytes, n: nat, chunks: seq<Bytes>, k: nat)
    requires buf != []
    ensures var m, s := Min(k, |buf|), Pending(buf, chunks);
            m <= |s| && Read(c, At(c, buf, n, chunks), k) == (Some(s[..m]), At(c, buf[m..], n, chunks))
            && Pending(buf[m..], chunks) == s[m..]
  {
    assert Pending(buf, chunks)[..Min(k, |buf|)] == buf[..Min(k, |buf|)];
  }

  lemma ReadFromStreamRecord(c: Cipher, n: nat, chunks: seq<Bytes>, k: nat)
    requires Ideal(c) && Fits(chunks) && chunks != []
    ensures var p := chunks[0];
            var m, s := Min(k, |p|), Pending([], chunks);
            m <= |s| && Read(c, At(c, [], n, chunks), k) == (Some(s[..m]), At(c, p[m..], n + 1, chunks[1..]))
            && Pending(p[m..], chunks[1..]) == s[m..]
  {
    hide Read, Record, Ideal, Min;
    var p, rest := chunks[0], chunks[1..];
    RecordReads(c, n, p, Records(c, n + 1, rest), k);
    assert Pending([], chunks) == p + Concat(rest);
    var m := Min(k, |p|);
    MinIsSmaller(k, |p|);
    PrefixOfJoin(p, Concat(rest), m);
  }

  lemma MinIsSmaller(a: nat, b: nat)
    ensures Min(a, b) <= b
  {
  }

  lemma PrefixOfJoin(p: Bytes, rest: Bytes, m: nat)
    requires m <= |p|
    ensures (p + rest)[..m] == p[..m] && (p + rest)[m..] == p[m..] + rest
  {
  }

  /** ReadFull takes the next bytes of the stream wherever records end, and fails on too short a stream. */
  lemma {:induction false} ReadFullFollowsStream(c: Cipher, buf: Bytes, n: nat, chunks: seq<Bytes>, k: nat)
    returns (buf': Bytes, n': nat, chunks': seq<Bytes>)
    requires Ideal(c) && Fits(chunks)
    ensures Fits(chunks')
    ensures Follows(c, At(c, buf, n, chunks), k, Pending(buf, chunks), At(c, buf', n', chunks'), Pending(buf', chunks'))
    decreases |chunks|, |buf|
  {
    var s := Pending(buf, chunks);
    var r := At(c, buf, n, chunks);
    buf', n', chunks' := buf, n, chunks;
    if k == 0 {
      assert s[..0] == [] && s[0..] == s;
    } else if buf != [] {
      hide Follows, Pending, At, Read;
      ReadFromStreamBuffer(c, buf, n, chunks, k);
      var m := Min(k, |buf|);
      buf', n', chunks' := ReadFullFollowsStream(c, buf[m..], n, chunks, k - m);
      FollowsAfterRead(c, r, k, s, m, At(c, buf[m..], n, chunks), At(c, buf', n', chunks'), Pending(buf', chunks'));
    } else if chunks != [] {
      hide Follows, Pending, At, Read;
      ReadFromStreamRecord(c, n, chunks, k);
      var p := chunks[0];
      var m := Min(k, |p|);
      buf', n', chunks' := ReadFullFollowsStream(c, p[m..], n + 1, chunks[1..], k - m);
      FollowsAfterRead(c, r, k, s, m, At(c, p[m..], n + 1, chunks[1..]), At(c, buf', n', chunks'),
                       Pending(buf', chunks'));
    } else {
      assert s == [] && r.wire == [];
    }
  }

  /**
   ReadFrame accepts exactly the frames: it returns a payload if and only if the stream, however cut into records,
   goes on with that payload's frame, and then it has taken that frame and no more.
   */
  lemma ReadFrameIsExact(c: Cipher, buf: Bytes, n: nat, chunks: seq<Bytes>, payload: Bytes)
    returns (buf': Bytes, n': nat, chunks': seq<Bytes>)
    requires Ideal(c) && Fits(chunks)
    ensures Fits(chunks')
    ensures var s := Pending(buf, chunks);
            var (got, r) := ReadFrame(c, At(c, buf, n, chunks));
            && (got == Some(payload) <==> |payload| <= MAX_PAYLOAD && FrameBytes(payload) <= s)
            && (got == Some(payload) ==>
                  r == At(c, buf', n', chunks') && s == FrameBytes(payload) + Pending(buf', chunks'))
  {
    hide Read, ReadFull, Records, Concat, ParseHeader, Header;
    var s := Pending(buf, chunks);
    var r := At(c, buf, n, chunks);
    var b1, n1, c1 := ReadFullFollowsStream(c, buf, n, chunks, HEADER_SIZE);
    buf', n', chunks' := b1, n1, c1;
    if |s| >= HEADER_SIZE {
      var hdr, body := s[..HEADER_SIZE], s[HEADER_SIZE..];
      assert s == hdr + body;
      HeaderIsExact(hdr, |payload|);
      if FrameBytes(payload) <= s {
        assert hdr == FrameBytes(payload)[..HEADER_SIZE] == Header(|payload|);
        assert body[..|payload|] == payload;
      }
      match ParseHeader(hdr)
      case None =>
      case Some(length) =>
        HeaderIsExact(hdr, length);
        buf', n', chunks' := ReadFullFollowsStream(c, b1, n1, c1, length);
        if length <= |body| {
          assert s == (hdr + body[..length]) + body[length..];
        }
    }
  }

  function FrameStream(payloads: seq<Bytes>): (bs: Bytes)
    decreases |payloads|
  {
    if payloads == [] then [] else FrameBytes(payloads[0]) + FrameStream(payloads[1..])
  }

  /** The frames come back in order however the peer cuts their bytes into records. */
  lemma {:induction false} AnyChunkingReadsBack(c: Cipher, buf: Bytes, n: nat, chunks: seq<Bytes>, payloads: seq<Bytes>)
    requires Ideal(c) && Fits(chunks) && forall i :: 0 <= i < |payloads| ==> |payloads[i]| <= MAX_PAYLOAD
    requires Pending(buf, chunks) == FrameStream(payloads)
    ensures ReadFrames(c, At(c, buf, n, chunks), |payloads|).0 == Some(payloads)
    decreases |payloads|
  {
    hide ReadFrame, FrameBytes, Pending, At, Ideal, Fits;
    if payloads != [] {
      var first, rest := payloads[0], payloads[1..];
      var s := Pending(buf, chunks);
      assert FrameBytes(first) <= s && s[|FrameBytes(first)|..] == FrameStream(rest);
      var buf', n', chunks' := ReadFrameIsExact(c, buf, n, chunks, first);
      assert s == FrameBytes(first) + Pending(buf', chunks');
      assert Pending(buf', chunks') == s[|FrameBytes(first)|..];
      AnyChunkingReadsBack(c, buf', n', chunks', rest);
      assert payloads == [first] + rest;
    }
  }
}
