/** Bytes, words and the fixed-width integer encodings shared by the media
    transport: big-endian fields of the RTP header and little-endian words of
    the ChaCha state. A Java `int` is modelled by the unsigned value of its bit
    pattern, a natural number below 2^32. */
module Bytes {

  datatype Option<+T> = None | Some(value: T)

  type byte = bv8

  const TWO_16: nat := 0x1_0000
  const TWO_32: nat := 0x1_0000_0000

  /** `n` zero bytes, as a freshly allocated Java `byte[n]` holds. */
  function Zeros(n: nat): (r: seq<byte>)
    ensures |r| == n && forall i :: 0 <= i < n ==> r[i] == 0
  {
    seq(n, _ => 0)
  }

  /** The two bytes of a 16-bit value, most significant first. */
  function BE16(x: nat): (r: seq<byte>)
    requires x < TWO_16
    ensures |r| == 2
  {
    [(x / 0x100) as byte, (x % 0x100) as byte]
  }

  function ReadBE16(s: seq<byte>, off: nat): (v: nat)
    requires off + 2 <= |s|
    ensures v < TWO_16
  {
    s[off] as nat * 0x100 + s[off + 1] as nat
  }

  /** The four bytes of a 32-bit value, most significant first. */
  function BE32(x: nat): (r: seq<byte>)
    requires x < TWO_32
    ensures |r| == 4
  {
    BE16(x / TWO_16) + BE16(x % TWO_16)
  }

  function ReadBE32(s: seq<byte>, off: nat): (v: nat)
    requires off + 4 <= |s|
    ensures v < TWO_32
  {
    ReadBE16(s, off) * TWO_16 + ReadBE16(s, off + 2)
  }

  /** A value below 256 survives the trip through a byte. */
  lemma ByteValue(n: nat)
    requires n < 0x100
    ensures (n as byte) as nat == n
  {
    assert n % 0x100 == n;
  }

  lemma BE16RoundTrip(x: nat)
    requires x < TWO_16
    ensures ReadBE16(BE16(x), 0) == x
  {
    ByteValue(x / 0x100);
    ByteValue(x % 0x100);
    var b := BE16(x);
    assert b[0] as nat == x / 0x100 && b[1] as nat == x % 0x100;
  }

  lemma BE32RoundTrip(x: nat)
    requires x < TWO_32
    ensures ReadBE32(BE32(x), 0) == x
  {
    var hi, lo := BE16(x / TWO_16), BE16(x % TWO_16);
    ReadBE16At([], x / TWO_16, lo);
    ReadBE16At(hi, x % TWO_16, []);
    assert hi + lo == [] + hi + lo == hi + lo + [];
  }

  /** Reading a big-endian field back out of a longer buffer. */
  lemma ReadBE16At(prefix: seq<byte>, x: nat, suffix: seq<byte>)
    requires x < TWO_16
    ensures ReadBE16(prefix + BE16(x) + suffix, |prefix|) == x
  {
    var s := prefix + BE16(x) + suffix;
    assert s[|prefix|] == BE16(x)[0] && s[|prefix| + 1] == BE16(x)[1];
    BE16RoundTrip(x);
  }

  lemma ReadBE32At(prefix: seq<byte>, x: nat, suffix: seq<byte>)
    requires x < TWO_32
    ensures ReadBE32(prefix + BE32(x) + suffix, |prefix|) == x
  {
    var s := prefix + BE32(x) + suffix;
    var b := BE32(x);
    assert s[|prefix|] == b[0] && s[|prefix| + 1] == b[1];
    assert s[|prefix| + 2] == b[2] && s[|prefix| + 3] == b[3];
    BE32RoundTrip(x);
  }

  /** The four bytes of a 32-bit word, least significant first. */
  function LE32(v: bv32): (r: seq<byte>)
    ensures |r| == 4
  {
    [(v & 0xFF) as byte, ((v >> 8) & 0xFF) as byte,
     ((v >> 16) & 0xFF) as byte, ((v >> 24) & 0xFF) as byte]
  }

  /** The little-endian word held at `s[off..off + 4]`. */
  function ReadLE32(s: seq<byte>, off: nat): bv32
    requires off + 4 <= |s|
  {
    (s[off] as bv32) | ((s[off + 1] as bv32) << 8)
      | ((s[off + 2] as bv32) << 16) | ((s[off + 3] as bv32) << 24)
  }

  lemma LE32RoundTrip(v: bv32)
    ensures ReadLE32(LE32(v), 0) == v
  {
  }

  lemma LE32OfRead(s: seq<byte>, off: nat)
    requires off + 4 <= |s|
    ensures LE32(ReadLE32(s, off)) == s[off..off + 4]
  {
  }

  /** Reading a little-endian word back out of a longer buffer. */
  lemma ReadLE32At(prefix: seq<byte>, v: bv32, suffix: seq<byte>)
    ensures ReadLE32(prefix + LE32(v) + suffix, |prefix|) == v
  {
    var s := prefix + LE32(v) + suffix;
    var w := LE32(v);
    assert s[|prefix|] == w[0] && s[|prefix| + 1] == w[1];
    assert s[|prefix| + 2] == w[2] && s[|prefix| + 3] == w[3];
    LE32RoundTrip(v);
  }

  lemma AppendAssoc<T>(a: seq<T>, b: seq<T>, c: seq<T>)
    ensures a + (b + c) == (a + b) + c
  {
  }

  /** Java's `System.arraycopy`: copies `n` bytes as if through a temporary
      buffer, so source and destination may be the same array. */
  method ArrayCopy(src: array<byte>, srcPos: nat, dst: array<byte>, dstPos: nat, n: nat)
    requires srcPos + n <= src.Length && dstPos + n <= dst.Length
    modifies dst
    ensures dst[..] == old(dst[..dstPos]) + old(src[srcPos..srcPos + n]) + old(dst[dstPos + n..])
  {
    var tmp := src[srcPos..srcPos + n];
    forall i | 0 <= i < n {
      dst[dstPos + i] := tmp[i];
    }
    assert dst[..] == old(dst[..dstPos]) + tmp + old(dst[dstPos + n..]);
  }
}
