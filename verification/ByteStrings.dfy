/**
 Byte strings, big-endian integers and lower-case hexadecimal text.
 Identifiers are Go strings, that is, byte strings too: their length is counted in bytes.
 */
module ByteStrings {
  import opened Arithmetic
  import opened Options

  type byte = b: int | 0 <= b < 256
  type Bytes = seq<byte>
  type uint32 = x: int | 0 <= x < 0x1_0000_0000
  type uint64 = x: int | 0 <= x < 0x1_0000_0000_0000_0000

  // ---------- big-endian integers ----------

  /** The low `w` bytes of `v`, most significant first. */
  function BigEndian(v: nat, w: nat): (bs: Bytes)
    ensures |bs| == w
  {
    if w == 0 then [] else BigEndian(v / 256, w - 1) + [v % 256]
  }

  function FromBigEndian(bs: Bytes): (v: nat) {
    if bs == [] then 0 else 256 * FromBigEndian(bs[..|bs| - 1]) + bs[|bs| - 1]
  }

  /** Reading back a fixed-width integer returns its value modulo the width. */
  lemma {:induction false} BigEndianRoundTrip(v: nat, w: nat)
    ensures v < Power(256, w) ==> FromBigEndian(BigEndian(v, w)) == v
  {
    if w > 0 {
      BigEndianRoundTrip(v / 256, w - 1);
      var bs := BigEndian(v, w);
      assert bs[..w - 1] == BigEndian(v / 256, w - 1);
    }
  }

  /** Every byte string of width `w` is the encoding of exactly the integer it decodes to. */
  lemma {:induction false} FromBigEndianRoundTrip(bs: Bytes)
    ensures FromBigEndian(bs) < Power(256, |bs|)
    ensures BigEndian(FromBigEndian(bs), |bs|) == bs
  {
    if bs != [] {
      var hi, lo := bs[..|bs| - 1], bs[|bs| - 1];
      FromBigEndianRoundTrip(hi);
      var v := FromBigEndian(bs);
      assert v / 256 == FromBigEndian(hi) && v % 256 == lo;
      assert bs == hi + [lo];
    }
  }

  lemma DivideTwice(v: nat, p: nat)
    requires p > 0
    ensures v / 256 / p == v / (256 * p)
  {
    var q, r := v / 256 / p, v / 256 % p;
    var rest := 256 * r + v % 256;
    assert v == 256 * (p * q + r) + v % 256;
    assert 256 * (p * q) == 256 * p * q;
    assert v == 256 * p * q + rest && 0 <= rest < 256 * p;
    DivisionIsUnique(v, 256 * p, q, rest);
  }

  lemma DivisionIsUnique(v: nat, d: nat, q: nat, r: nat)
    requires v == d * q + r && r < d
    ensures v / d == q
  {
    assert v == d * (v / d) + v % d;
    var gap := q - v / d;
    assert d * gap == d * q - d * (v / d);
    MultipleIsLarge(d, gap);
  }

  lemma MultipleIsLarge(d: nat, k: int)
    ensures k >= 1 ==> d * k >= d
    ensures k <= -1 ==> d * k + d <= 0
  {
    if k >= 1 {
      assert d * k == d + d * (k - 1);
    } else if k <= -1 {
      assert d * k + d == d * (k + 1);
    }
  }

  /** The most significant byte comes first: place `i` holds the digit of weight 256^(w - 1 - i). */
  lemma {:induction false} BigEndianAt(v: nat, w: nat, i: nat)
    requires i < w
    ensures Power(256, w - 1 - i) > 0 && BigEndian(v, w)[i] == v / Power(256, w - 1 - i) % 256
  {
    if i == w - 1 {
      assert Power(256, 0) == 1;
    } else {
      BigEndianAt(v / 256, w - 1, i);
      DivideTwice(v, Power(256, w - 2 - i));
    }
  }

  lemma Powers()
    ensures Power(256, 2) == 0x1_0000 && Power(256, 4) == 0x1_0000_0000
    ensures Power(256, 8) == 0x1_0000_0000_0000_0000
  {
    assert Power(256, 2) == 256 * Power(256, 1);
    assert Power(256, 4) == 256 * Power(256, 3) && Power(256, 3) == 256 * Power(256, 2);
    assert Power(256, 8) == 256 * Power(256, 7) && Power(256, 7) == 256 * Power(256, 6);
    assert Power(256, 6) == 256 * Power(256, 5) && Power(256, 5) == 256 * Power(256, 4);
  }

  // ---------- hexadecimal text ----------

  function HexDigit(n: nat): (c: byte)
    requires n < 16
  {
    if n < 10 then 48 + n else 87 + n
  }

  /** Both letter cases are read; anything else is not a digit. */
  function HexValue(c: byte): (n: Option<nat>)
    ensures n.Some? ==> n.value < 16
  {
    if 48 <= c <= 57 then Some(c - 48)
    else if 97 <= c <= 102 then Some(c - 87)
    else if 65 <= c <= 70 then Some(c - 55)
    else None
  }

  function HexEncode(bs: Bytes): (text: Bytes)
    ensures |text| == 2 * |bs|
  {
    if bs == [] then [] else [HexDigit(bs[0] / 16), HexDigit(bs[0] % 16)] + HexEncode(bs[1..])
  }

  function HexDecode(text: Bytes): (bs: Option<Bytes>) {
    if text == [] then Some([])
    else if |text| == 1 then None
    else match (HexValue(text[0]), HexValue(text[1]), HexDecode(text[2..]))
      case (Some(hi), Some(lo), Some(rest)) => Some([16 * hi + lo] + rest)
      case _ => None
  }

  lemma {:induction false} HexRoundTrip(bs: Bytes)
    ensures HexDecode(HexEncode(bs)) == Some(bs)
  {
    if bs != [] {
      HexRoundTrip(bs[1..]);
      var text := HexEncode(bs);
      assert text[2..] == HexEncode(bs[1..]);
      assert bs == [bs[0]] + bs[1..];
    }
  }

  const HEX_DIGITS := "0123456789abcdef"

  /** Each byte becomes two digits, the high one first. */
  lemma {:induction false} HexDigitsAt(bs: Bytes, i: nat)
    requires i < |bs|
    ensures HexEncode(bs)[2 * i] == HEX_DIGITS[bs[i] / 16] as int
    ensures HexEncode(bs)[2 * i + 1] == HEX_DIGITS[bs[i] % 16] as int
  {
    if i == 0 {
      DigitIsListed(bs[0] / 16);
      DigitIsListed(bs[0] % 16);
    } else {
      HexDigitsAt(bs[1..], i - 1);
      var text := HexEncode(bs);
      assert text[2..] == HexEncode(bs[1..]);
      assert text[2..][2 * (i - 1)] == text[2 * i] && text[2..][2 * (i - 1) + 1] == text[2 * i + 1];
    }
  }

  lemma DigitIsListed(n: nat)
    requires n < 16
    ensures HexDigit(n) == HEX_DIGITS[n] as int
  {
    assert 'f' as int == 102 && '0' as int == 48;
  }
}
