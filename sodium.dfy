/** The XChaCha20-Poly1305 construction the voice and video transports
    encrypt with: an HChaCha20 subkey derived from the first 16 nonce bytes
    (section 2.2 of draft-irtf-cfrg-xchacha), then the IETF ChaCha20-Poly1305
    AEAD of RFC 8439 under that subkey and a 12-byte nonce built from the last
    8 nonce bytes. The AEAD itself belongs to a library and is a parameter. */
module Sodium {
  import opened Bytes

  const KEY_LEN: nat := 32
  const NONCE24_LEN: nat := 24
  const TAG_LEN: nat := 16

  /** The ChaCha constants "expand 32-byte k" as little-endian words. */
  const SIGMA: seq<bv32> := [0x61707865, 0x3320646e, 0x79622d32, 0x6b206574]

  // ---------------------------------------------------------------------
  // Reference definitions (RFC 8439)

  /** Java `int` addition: wraps modulo 2^32. */
  function Add(x: bv32, y: bv32): bv32 { x + y }

  function Xor(x: bv32, y: bv32): bv32 { x ^ y }

  /** `Integer.rotateLeft` for a distance between 1 and 31. */
  function Rotl(x: bv32, n: bv32): bv32
    requires 0 < n < 32
  {
    (x << n) | (x >> (32 - n))
  }

  /** The quarter round of section 2.1 of RFC 8439 on four words. */
  function QuarterRound(a: bv32, b: bv32, c: bv32, d: bv32): (bv32, bv32, bv32, bv32)
  {
    var a1 := Add(a, b);
    var d1 := Rotl(Xor(d, a1), 16);
    var c1 := Add(c, d1);
    var b1 := Rotl(Xor(b, c1), 12);
    var a2 := Add(a1, b1);
    var d2 := Rotl(Xor(d1, a2), 8);
    var c2 := Add(c1, d2);
    var b2 := Rotl(Xor(b1, c2), 7);
    (a2, b2, c2, d2)
  }

  /** The test vector of section 2.1.1 of RFC 8439. */
  lemma QuarterRoundVector()
    ensures QuarterRound(0x11111111, 0x01020304, 0x9b8d6f43, 0x01234567)
            == (0xea2a92f4, 0xcb1cf8ce, 0x4581472e, 0x5881c4bb)
  {
  }

  /** QUARTERROUND(a, b, c, d) on the state, section 2.2 of RFC 8439. */
  function QuarterRoundAt(s: seq<bv32>, a: nat, b: nat, c: nat, d: nat): (r: seq<bv32>)
    requires a < |s| && b < |s| && c < |s| && d < |s|
    ensures |r| == |s|
  {
    var q := QuarterRound(s[a], s[b], s[c], s[d]);
    s[a := q.0][b := q.1][c := q.2][d := q.3]
  }

  /** Four column rounds, then four diagonal rounds (section 2.3 of RFC 8439). */
  function DoubleRound(s: seq<bv32>): (r: seq<bv32>)
    requires |s| == 16
    ensures |r| == 16
  {
    var c := QuarterRoundAt(QuarterRoundAt(QuarterRoundAt(QuarterRoundAt(s,
               0, 4, 8, 12), 1, 5, 9, 13), 2, 6, 10, 14), 3, 7, 11, 15);
    QuarterRoundAt(QuarterRoundAt(QuarterRoundAt(QuarterRoundAt(c,
      0, 5, 10, 15), 1, 6, 11, 12), 2, 7, 8, 13), 3, 4, 9, 14)
  }

  /** `n` double rounds. */
  function Rounds(s: seq<bv32>, n: nat): (r: seq<bv32>)
    requires |s| == 16
    ensures |r| == 16
  {
    if n == 0 then s else DoubleRound(Rounds(s, n - 1))
  }

  /** The input block of HChaCha20: constants, key words, nonce words. */
  function InitialState(key: seq<byte>, nonce: seq<byte>): (r: seq<bv32>)
    requires |key| >= KEY_LEN && |nonce| >= 16
    ensures |r| == 16 && r[..4] == SIGMA
    ensures forall j :: 0 <= j < 8 ==> r[4 + j] == ReadLE32(key, 4 * j)
    ensures forall j :: 0 <= j < 4 ==> r[12 + j] == ReadLE32(nonce, 4 * j)
  {
    SIGMA + KeyWords(key) + NonceWords(nonce)
  }

  /** The key read as eight little-endian words. */
  function KeyWords(key: seq<byte>): (r: seq<bv32>)
    requires |key| >= KEY_LEN
    ensures |r| == 8 && forall j :: 0 <= j < 8 ==> r[j] == ReadLE32(key, 4 * j)
  {
    seq(8, j requires 0 <= j < 8 => ReadLE32(key, 4 * j))
  }

  /** Nonce bytes 0-15 read as four little-endian words. */
  function NonceWords(nonce: seq<byte>): (r: seq<bv32>)
    requires |nonce| >= 16
    ensures |r| == 4
  {
    [ReadLE32(nonce, 0), ReadLE32(nonce, 4), ReadLE32(nonce, 8), ReadLE32(nonce, 12)]
  }

  /** Words serialised little-endian, one after the other. */
  function LEWords(ws: seq<bv32>): (r: seq<byte>)
    ensures |r| == 4 * |ws|
  {
    if |ws| == 0 then [] else LEWords(ws[..|ws| - 1]) + LE32(ws[|ws| - 1])
  }

  /** Serialising two word sequences one after the other. */
  lemma {:induction false} LEWordsAppend(a: seq<bv32>, b: seq<bv32>)
    ensures LEWords(a + b) == LEWords(a) + LEWords(b)
    decreases |b|
  {
    if |b| > 0 {
      var init := b[..|b| - 1];
      LEWordsAppend(a, init);
      assert (a + b)[..|a + b| - 1] == a + init;
      assert (a + b)[|a + b| - 1] == b[|b| - 1];
      AppendAssoc(LEWords(a), LEWords(init), LE32(b[|b| - 1]));
    } else {
      assert a + b == a;
    }
  }

  /** Word `i` comes back out of its serialisation. */
  lemma {:induction false} LEWordsRead(ws: seq<bv32>, i: nat)
    requires i < |ws|
    ensures ReadLE32(LEWords(ws), 4 * i) == ws[i]
  {
    var init := ws[..|ws| - 1];
    if i == |ws| - 1 {
      ReadLE32At(LEWords(init), ws[i], []);
      assert LEWords(ws) == LEWords(init) + LE32(ws[i]) + [];
    } else {
      LEWordsRead(init, i);
      var s := LEWords(ws);
      assert s[4 * i..4 * i + 4] == LEWords(init)[4 * i..4 * i + 4];
      assert ReadLE32(s, 4 * i) == ReadLE32(LEWords(init), 4 * i);
    }
  }

  /** HChaCha20 makes ten double rounds, twenty rounds in all. */
  const DOUBLE_ROUNDS: nat := 10

  /** HChaCha20 (section 2.2 of draft-irtf-cfrg-xchacha): twenty rounds
      without the final addition, then words 0-3 and 12-15. */
  function HChaCha20Spec(key: seq<byte>, nonce: seq<byte>): (r: seq<byte>)
    requires |key| >= KEY_LEN && |nonce| >= 16
    ensures |r| == KEY_LEN
  {
    var w := Rounds(InitialState(key, nonce), DOUBLE_ROUNDS);
    LEWords(w[..4] + w[12..])
  }

  /** The subkey carries words 0-3 and 12-15 of the final state. */
  lemma SubkeyWords(key: seq<byte>, nonce: seq<byte>, i: nat)
    requires |key| >= KEY_LEN && |nonce| >= 16 && i < 8
    ensures var w := Rounds(InitialState(key, nonce), DOUBLE_ROUNDS);
            ReadLE32(HChaCha20Spec(key, nonce), 4 * i) == if i < 4 then w[i] else w[8 + i]
  {
    var w := Rounds(InitialState(key, nonce), DOUBLE_ROUNDS);
    LEWordsRead(w[..4] + w[12..], i);
  }

  // ---------------------------------------------------------------------
  // The implementation, as the source computes it in place

  /** The twelve single-word updates of `qr`, in order, with each one
      reading the state the previous one left; coinciding indices therefore
      see each other's writes. */
  function QrSteps(s: seq<bv32>, a: nat, b: nat, c: nat, d: nat): (r: seq<bv32>)
    requires a < |s| && b < |s| && c < |s| && d < |s|
    ensures |r| == |s|
  {
    var s1 := AddAt(s, a, b);    var s2 := XorAt(s1, d, a);    var s3 := RotAt(s2, d, 16);
    var s4 := AddAt(s3, c, d);   var s5 := XorAt(s4, b, c);    var s6 := RotAt(s5, b, 12);
    var s7 := AddAt(s6, a, b);   var s8 := XorAt(s7, d, a);    var s9 := RotAt(s8, d, 8);
    var s10 := AddAt(s9, c, d);  var s11 := XorAt(s10, b, c);  RotAt(s11, b, 7)
  }

  /** `s[x] += s[y]` with 32-bit wrap-around. */
  function AddAt(s: seq<bv32>, x: nat, y: nat): (r: seq<bv32>)
    requires x < |s| && y < |s|
    ensures |r| == |s|
  {
    s[x := Add(s[x], s[y])]
  }

  /** `s[x] ^= s[y]`. */
  function XorAt(s: seq<bv32>, x: nat, y: nat): (r: seq<bv32>)
    requires x < |s| && y < |s|
    ensures |r| == |s|
  {
    s[x := Xor(s[x], s[y])]
  }

  /** `s[x] = Integer.rotateLeft(s[x], n)`. */
  function RotAt(s: seq<bv32>, x: nat, n: bv32): (r: seq<bv32>)
    requires x < |s| && 0 < n < 32
    ensures |r| == |s|
  {
    s[x := Rotl(s[x], n)]
  }

  /** `qr`: the twelve in-place updates of the quarter round on `s`. On
      distinct indices it is the quarter round of RFC 8439; it writes no other
      word. */
  method Qr(s: array<bv32>, a: nat, b: nat, c: nat, d: nat)
    requires a < s.Length && b < s.Length && c < s.Length && d < s.Length
    modifies s
    ensures s[..] == QrSteps(old(s[..]), a, b, c, d)
  {
    s[a] := Add(s[a], s[b]); s[d] := Xor(s[d], s[a]); s[d] := Rotl(s[d], 16);
    s[c] := Add(s[c], s[d]); s[b] := Xor(s[b], s[c]); s[b] := Rotl(s[b], 12);
    s[a] := Add(s[a], s[b]); s[d] := Xor(s[d], s[a]); s[d] := Rotl(s[d], 8);
    s[c] := Add(s[c], s[d]); s[b] := Xor(s[b], s[c]); s[b] := Rotl(s[b], 7);
  }

  /** On four distinct indices the in-place updates are the quarter round of
      RFC 8439 on those words, and no other word changes. */
  lemma QrStepsIsQuarterRound(s: seq<bv32>, a: nat, b: nat, c: nat, d: nat)
    requires a < |s| && b < |s| && c < |s| && d < |s|
    requires a != b && a != c && a != d && b != c && b != d && c != d
    ensures QrSteps(s, a, b, c, d) == QuarterRoundAt(s, a, b, c, d)
  {
  }

  /** Whatever the indices, the updates write only words a, b, c and d. */
  lemma QrStepsFrame(s: seq<bv32>, a: nat, b: nat, c: nat, d: nat, i: nat)
    requires a < |s| && b < |s| && c < |s| && d < |s| && i < |s|
    requires i != a && i != b && i != c && i != d
    ensures QrSteps(s, a, b, c, d)[i] == s[i]
  {
  }

  /** `writeLeInt`: stores `v` little-endian at `b[off..off + 4]`. */
  method WriteLeInt(b: array<byte>, off: nat, v: bv32)
    requires off + 4 <= b.Length
    modifies b
    ensures b[..] == old(b[..off]) + LE32(v) + old(b[off + 4..])
  {
    b[off] := (v & 0xFF) as byte;
    b[off + 1] := ((v >> 8) & 0xFF) as byte;
    b[off + 2] := ((v >> 16) & 0xFF) as byte;
    b[off + 3] := ((v >> 24) & 0xFF) as byte;
    assert b[..] == old(b[..off]) + LE32(v) + old(b[off + 4..]);
  }

  /** One iteration of the round loop: the eight `qr` calls. */
  method DoubleRoundInPlace(w: array<bv32>)
    requires w.Length == 16
    modifies w
    ensures w[..] == DoubleRound(old(w[..]))
  {
    ghost var s0 := w[..];
    Qr(w, 0, 4, 8, 12); QrStepsIsQuarterRound(s0, 0, 4, 8, 12);
    ghost var s1 := w[..];
    Qr(w, 1, 5, 9, 13); QrStepsIsQuarterRound(s1, 1, 5, 9, 13);
    ghost var s2 := w[..];
    Qr(w, 2, 6, 10, 14); QrStepsIsQuarterRound(s2, 2, 6, 10, 14);
    ghost var s3 := w[..];
    Qr(w, 3, 7, 11, 15); QrStepsIsQuarterRound(s3, 3, 7, 11, 15);
    ghost var s4 := w[..];
    Qr(w, 0, 5, 10, 15); QrStepsIsQuarterRound(s4, 0, 5, 10, 15);
    ghost var s5 := w[..];
    Qr(w, 1, 6, 11, 12); QrStepsIsQuarterRound(s5, 1, 6, 11, 12);
    ghost var s6 := w[..];
    Qr(w, 2, 7, 8, 13); QrStepsIsQuarterRound(s6, 2, 7, 8, 13);
    ghost var s7 := w[..];
    Qr(w, 3, 4, 9, 14); QrStepsIsQuarterRound(s7, 3, 4, 9, 14);
  }

  /** The state set-up of `hChaCha20`: the constants, the key words in a
      loop, then the nonce words. */
  method InitialBlock(key: seq<byte>, nonce: seq<byte>) returns (s: array<bv32>)
    requires |key| >= KEY_LEN && |nonce| >= 16
    ensures fresh(s) && s[..] == InitialState(key, nonce)
  {
    s := new bv32[16];
    s[0], s[1], s[2], s[3] := SIGMA[0], SIGMA[1], SIGMA[2], SIGMA[3];
    for i := 0 to 8
      invariant s[..4] == SIGMA
      invariant forall j :: 0 <= j < i ==> s[4 + j] == ReadLE32(key, 4 * j)
    {
      s[4 + i] := ReadLE32(key, i * 4);
    }
    assert s[4..12] == KeyWords(key);
    ghost var head := s[..12];
    assert head == SIGMA + KeyWords(key);
    s[12], s[13], s[14], s[15] := ReadLE32(nonce, 0), ReadLE32(nonce, 4), ReadLE32(nonce, 8), ReadLE32(nonce, 12);
    assert s[..12] == head;
    assert s[12..] == NonceWords(nonce);
    assert s[..] == s[..12] + s[12..];
  }

  /** `hChaCha20`. The source reads out of bounds (and throws) on a key
      shorter than 32 bytes or a nonce shorter than 16; `Encrypt` turns that
      into its failure outcome, so here it is a precondition. */
  method HChaCha20(key: seq<byte>, nonce: seq<byte>) returns (out: array<byte>)
    requires |key| >= KEY_LEN && |nonce| >= 16
    ensures fresh(out) && out[..] == HChaCha20Spec(key, nonce)
  {
    var s := InitialBlock(key, nonce);
    ghost var init := s[..];
    var w := new bv32[16];
    forall j | 0 <= j < 16 {
      w[j] := s[j];
    }
    for i := 0 to DOUBLE_ROUNDS
      invariant w[..] == Rounds(init, i)
    {
      DoubleRoundInPlace(w);
    }
    out := Subkey(w);
  }

  /** The two output loops of `hChaCha20`: words 0-3, then words 12-15,
      little-endian into a fresh 32-byte array. */
  method Subkey(w: array<bv32>) returns (out: array<byte>)
    requires w.Length == 16
    ensures fresh(out) && out[..] == LEWords(w[..4] + w[12..])
  {
    out := new byte[32](_ => 0);
    WriteHeadWords(out, w);
    WriteTailWords(out, w);
  }

  /** The first output loop: words 0-3 at bytes 0-15. */
  method WriteHeadWords(out: array<byte>, w: array<bv32>)
    requires out.Length == 32 && w.Length == 16
    modifies out
    ensures out[..16] == LEWords((w[..4] + w[12..])[..4])
  {
    ghost var words := w[..4] + w[12..];
    for i := 0 to 4
      invariant out[..4 * i] == LEWords(words[..i])
    {
      ghost var before := out[..];
      WriteLeInt(out, i * 4, w[i]);
      LEWordsPrefixStep(before, out[..], words, i);
    }
  }

  /** The second output loop: words 12-15 at bytes 16-31. */
  method WriteTailWords(out: array<byte>, w: array<bv32>)
    requires out.Length == 32 && w.Length == 16
    requires out[..16] == LEWords((w[..4] + w[12..])[..4])
    modifies out
    ensures out[..] == LEWords(w[..4] + w[12..])
  {
    ghost var words := w[..4] + w[12..];
    for i := 0 to 4
      invariant out[..16 + 4 * i] == LEWords(words[..4 + i])
    {
      ghost var before := out[..];
      WriteLeInt(out, 16 + i * 4, w[12 + i]);
      LEWordsPrefixStep(before, out[..], words, 4 + i);
    }
    assert out[..] == out[..32] && words == words[..8];
  }

  /** Writing word `k` after the first `k` extends the serialised prefix. */
  lemma LEWordsPrefixStep(before: seq<byte>, after: seq<byte>, ws: seq<bv32>, k: nat)
    requires k < |ws| && 4 * k + 4 <= |before|
    requires before[..4 * k] == LEWords(ws[..k])
    requires after == before[..4 * k] + LE32(ws[k]) + before[4 * k + 4..]
    ensures after[..4 * k + 4] == LEWords(ws[..k + 1])
  {
    assert ws[..k + 1][..k] == ws[..k];
    assert after[..4 * k + 4] == before[..4 * k] + LE32(ws[k]);
  }

  // ---------------------------------------------------------------------
  // The AEAD step

  /** ChaCha20-Poly1305 (section 2.8 of RFC 8439) from the library:
      (key, 12-byte nonce, additional data, plaintext) to ciphertext and tag. */
  type Aead = (seq<byte>, seq<byte>, seq<byte>, seq<byte>) -> seq<byte>

  /** The library appends a 16-byte tag to a ciphertext as long as the
      plaintext. */
  ghost predicate AppendsAeadTag(aead: Aead)
  {
    forall k, n, a, p :: |aead(k, n, a, p)| == |p| + TAG_LEN
  }

  /** The 12-byte ChaCha20 nonce: four zero bytes, then bytes 16-23 of the
      24-byte nonce. */
  function Nonce12(nonce24: seq<byte>): (r: seq<byte>)
    requires |nonce24| >= NONCE24_LEN
    ensures |r| == 12
  {
    Zeros(4) + nonce24[16..24]
  }

  /** What `encrypt` returns: `None` stands for the exception thrown when the
      key or the nonce is too short. */
  function XChaChaSeal(plaintext: seq<byte>, aad: seq<byte>, nonce24: seq<byte>, key: seq<byte>,
                       aead: Aead): Option<seq<byte>>
  {
    if |key| < KEY_LEN || |nonce24| < NONCE24_LEN then None
    else Some(aead(HChaCha20Spec(key, nonce24), Nonce12(nonce24), aad, plaintext))
  }

  /** `encrypt`. */
  method Encrypt(plaintext: seq<byte>, aad: seq<byte>, nonce24: seq<byte>, key: seq<byte>, aead: Aead)
    returns (r: Option<seq<byte>>)
    ensures r == XChaChaSeal(plaintext, aad, nonce24, key, aead)
  {
    if |key| < KEY_LEN || |nonce24| < 16 {
      return None;  // hChaCha20 reads past the end
    }
    var subkey := HChaCha20(key, nonce24);
    var derived := subkey[..];
    if |nonce24| < NONCE24_LEN {
      return None;  // System.arraycopy reads past the end
    }
    var nonce12 := NewNonce12(nonce24);
    r := Some(aead(derived, nonce12[..], aad, plaintext));
    SealIs(plaintext, aad, nonce24, key, aead, derived, nonce12[..]);
  }

  /** A zeroed 12-byte array with `nonce24[16..24]` copied to offset 4. */
  method NewNonce12(nonce24: seq<byte>) returns (nonce12: array<byte>)
    requires |nonce24| >= NONCE24_LEN
    ensures fresh(nonce12) && nonce12[..] == Nonce12(nonce24)
  {
    nonce12 := new byte[12](_ => 0);
    forall i | 0 <= i < 8 {
      nonce12[4 + i] := nonce24[16 + i];
    }
    ghost var expected := Nonce12(nonce24);
    assert forall i :: 0 <= i < 12 ==> nonce12[i] == expected[i];
  }

  lemma SealIs(plaintext: seq<byte>, aad: seq<byte>, nonce24: seq<byte>, key: seq<byte>, aead: Aead,
               subkey: seq<byte>, nonce12: seq<byte>)
    requires |key| >= KEY_LEN && |nonce24| >= NONCE24_LEN
    requires subkey == HChaCha20Spec(key, nonce24) && nonce12 == Nonce12(nonce24)
    ensures XChaChaSeal(plaintext, aad, nonce24, key, aead) == Some(aead(subkey, nonce12, aad, plaintext))
  {
  }

  /** Encryption fails exactly on a short key or nonce; otherwise the output
      is the ciphertext plus a 16-byte tag. */
  lemma SealOutcome(plaintext: seq<byte>, aad: seq<byte>, nonce24: seq<byte>, key: seq<byte>, aead: Aead)
    ensures XChaChaSeal(plaintext, aad, nonce24, key, aead).None?
            <==> |key| < KEY_LEN || |nonce24| < NONCE24_LEN
    ensures AppendsAeadTag(aead) && XChaChaSeal(plaintext, aad, nonce24, key, aead).Some?
            ==> |XChaChaSeal(plaintext, aad, nonce24, key, aead).value| == |plaintext| + TAG_LEN
  {
  }

  /** Only the first 16 nonce bytes reach the subkey and only the last 8 the
      ChaCha20 nonce: a nonce carrying a counter in its first four bytes and
      zeros after them gives an all-zero 12-byte nonce. */
  lemma CounterNonce(prefix: seq<byte>)
    requires |prefix| == 4
    ensures Nonce12(prefix + Zeros(20)) == Zeros(12)
  {
    assert (prefix + Zeros(20))[16..24] == Zeros(8);
  }
}
