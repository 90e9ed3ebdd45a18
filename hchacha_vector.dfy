/** The HChaCha20 test vector of section 2.2.1 of draft-irtf-cfrg-xchacha,
    worked through the model one quarter round at a time. */
module HChaChaVector {
  import opened Bytes
  import opened Sodium

  const VECTOR_KEY: seq<byte> :=
    [0x00, 0x01, 0x02, 0x03, 0x04, 0x05, 0x06, 0x07, 0x08, 0x09, 0x0a, 0x0b, 0x0c, 0x0d, 0x0e, 0x0f,
     0x10, 0x11, 0x12, 0x13, 0x14, 0x15, 0x16, 0x17, 0x18, 0x19, 0x1a, 0x1b, 0x1c, 0x1d, 0x1e, 0x1f]
  const VECTOR_NONCE: seq<byte> :=
    [0x00, 0x00, 0x00, 0x09, 0x00, 0x00, 0x00, 0x4a, 0x00, 0x00, 0x00, 0x00, 0x31, 0x41, 0x59, 0x27]
  const VECTOR_SUBKEY: seq<byte> :=
    [0x82, 0x41, 0x3b, 0x42, 0x27, 0xb2, 0x7b, 0xfe, 0xd3, 0x0e, 0x42, 0x50, 0x8a, 0x87, 0x7d, 0x73,
     0xa0, 0xf9, 0xe4, 0xd5, 0x8a, 0x74, 0xa8, 0x53, 0xc1, 0x2e, 0xc4, 0x13, 0x26, 0xd3, 0xec, 0xdc]

  /** The key and nonce read as little-endian words after the constants. */
  lemma InitialVector()
    ensures InitialState(VECTOR_KEY, VECTOR_NONCE)
         == [0x61707865, 0x3320646e, 0x79622d32, 0x6b206574, 0x03020100, 0x07060504, 0x0b0a0908, 0x0f0e0d0c,
             0x13121110, 0x17161514, 0x1b1a1918, 0x1f1e1d1c, 0x09000000, 0x4a000000, 0x00000000, 0x27594131]
  {
    KeyWordsVector();
    NonceWordsVector();
  }

  lemma KeyWordsVector()
    ensures KeyWords(VECTOR_KEY) == [0x03020100, 0x07060504, 0x0b0a0908, 0x0f0e0d0c,
                                     0x13121110, 0x17161514, 0x1b1a1918, 0x1f1e1d1c]
  {
    KeyWord0();
    KeyWord1();
    KeyWord2();
    KeyWord3();
    KeyWord4();
    KeyWord5();
    KeyWord6();
    KeyWord7();
  }

  lemma KeyWord0()
    ensures ReadLE32(VECTOR_KEY, 0) == 0x03020100
  {
  }

  lemma KeyWord1()
    ensures ReadLE32(VECTOR_KEY, 4) == 0x07060504
  {
  }

  lemma KeyWord2()
    ensures ReadLE32(VECTOR_KEY, 8) == 0x0b0a0908
  {
  }

  lemma KeyWord3()
    ensures ReadLE32(VECTOR_KEY, 12) == 0x0f0e0d0c
  {
  }

  lemma KeyWord4()
    ensures ReadLE32(VECTOR_KEY, 16) == 0x13121110
  {
  }

  lemma KeyWord5()
    ensures ReadLE32(VECTOR_KEY, 20) == 0x17161514
  {
  }

  lemma KeyWord6()
    ensures ReadLE32(VECTOR_KEY, 24) == 0x1b1a1918
  {
  }

  lemma KeyWord7()
    ensures ReadLE32(VECTOR_KEY, 28) == 0x1f1e1d1c
  {
  }

  lemma NonceWordsVector()
    ensures NonceWords(VECTOR_NONCE) == [0x09000000, 0x4a000000, 0x00000000, 0x27594131]
  {
  }

  /** The derived subkey is the one the draft publishes. */
  lemma HChaCha20Vector()
    ensures HChaCha20Spec(VECTOR_KEY, VECTOR_NONCE) == VECTOR_SUBKEY
  {
    RoundsVector();
    SubkeyOfFinalState(Rounds(InitialState(VECTOR_KEY, VECTOR_NONCE), 10));
  }

  /** The state after the ten double rounds. */
  lemma RoundsVector()
    ensures Rounds(InitialState(VECTOR_KEY, VECTOR_NONCE), 10)
         == [0x423b4182, 0xfe7bb227, 0x50420ed3, 0x737d878a, 0x0aa76448, 0x7954cdf3, 0x846acd37, 0x7b3c58ad,
            0x77e35583, 0x83e77c12, 0xe0076a2d, 0xbc6cd0e5, 0xd5e4f9a0, 0x53a8748a, 0x13c42ec1, 0xdcecd326]
  {
    var s0 := InitialState(VECTOR_KEY, VECTOR_NONCE);
    InitialVector();
    DoubleRound1();
    assert Rounds(s0, 1) == [0x7bc434f3, 0x6a045b3d, 0xa9b6a717, 0xe97301f1, 0x61ba01e7, 0x8d245f4b, 0x33708154, 0xd31e1023,
                              0x3af18a5b, 0xb644b533, 0xfd66db41, 0x51e9ad3a, 0xc424874b, 0x61d36895, 0xe9ff651a, 0x923c81f0];
    DoubleRound2();
    assert Rounds(s0, 2) == [0x8e19d568, 0x4f94b2fa, 0xe2e6b081, 0xe3471ee3, 0x5d8dc91e, 0xe4843060, 0x7c532d54, 0x9ad42044,
                              0x0b30ba63, 0x4f1b068a, 0x83ad7706, 0xc3e09f4c, 0xa664c0c1, 0x3292fc5b, 0xa73c703f, 0x7137a6f4];
    DoubleRound3();
    assert Rounds(s0, 3) == [0x9f53c98b, 0x87372c3c, 0x8995494b, 0x2939b691, 0xaa53ec91, 0xa64cd8c6, 0x591beafb, 0x1a9dbfe2,
                              0x0c5e96dd, 0x153f5501, 0x83e50579, 0xad694245, 0x82fb0b27, 0x9479489b, 0x3ef1765e, 0xff752502];
    DoubleRound4();
    assert Rounds(s0, 4) == [0x7b893f75, 0xfcb39b21, 0x0797b1bf, 0x5f9ec3b3, 0x4e0f0bd5, 0xafa77b58, 0xea5562e0, 0xd7ac0abe,
                              0x6990c3af, 0x435ab730, 0xd68d7249, 0x16696500, 0xb0162333, 0x553ccfa7, 0x13cbe911, 0xdbbab6cc];
    DoubleRound5();
    assert Rounds(s0, 5) == [0xd1de186c, 0xb0c7b93c, 0xd078df04, 0x660e0112, 0x67e36bdb, 0xac30ed15, 0xbd9ed3dd, 0x7851b2cd,
                              0xab33732a, 0xba25d2cf, 0x4ed7a584, 0x5bd1985c, 0xf3168d27, 0x8d87591b, 0x8c80db2f, 0x44367d8c];
    DoubleRound6();
    assert Rounds(s0, 6) == [0x44ac8600, 0xe23f5411, 0x5ae80570, 0x5d4f85b8, 0x2de236d4, 0xfddd6beb, 0x0e3b8a87, 0x8c65a958,
                              0x8018e660, 0xe591c0ff, 0x33dec291, 0xf507052f, 0x4eccc9aa, 0x48e81158, 0x45902c7f, 0xfed52426];
    DoubleRound7();
    assert Rounds(s0, 7) == [0x82f32a6d, 0x8e367c9d, 0x12b17440, 0x1bda71e1, 0x9375cc72, 0xc4a0c4c8, 0xd199bb4b, 0x2c035ec8,
                              0x6a8444e0, 0xd4b831be, 0xade4e9ca, 0xe44d4801, 0xa6cec396, 0x6cf97b4d, 0xfd6c3bb3, 0xa74858b5];
    DoubleRound8();
    assert Rounds(s0, 8) == [0x4d7f6f44, 0xe8db7660, 0x2268596b, 0x195222b4, 0x64520ce3, 0x2d3d17fc, 0x0aa8fb53, 0x375eb422,
                              0xc0d0af92, 0x12244acd, 0x5a534192, 0x6abb8c14, 0x0a2bcb7c, 0x7e657143, 0x89b818ce, 0xaf9b6644];
    DoubleRound9();
    assert Rounds(s0, 9) == [0x2d02a54c, 0x6fdd5da4, 0x517a3ba9, 0x4048cdf3, 0x2735a16f, 0xfdf971a2, 0x454a57d9, 0xf1886447,
                              0xc7a7fbc9, 0x6f108d65, 0x8ffa82c8, 0xc8267115, 0x18bb420c, 0x2d4e065f, 0x16d4618a, 0xc7f61ba4];
    DoubleRound10();
    assert Rounds(s0, 10) == [0x423b4182, 0xfe7bb227, 0x50420ed3, 0x737d878a, 0x0aa76448, 0x7954cdf3, 0x846acd37, 0x7b3c58ad,
                              0x77e35583, 0x83e77c12, 0xe0076a2d, 0xbc6cd0e5, 0xd5e4f9a0, 0x53a8748a, 0x13c42ec1, 0xdcecd326];
  }

  /** Words 0-3 and 12-15 of the final state, serialised little-endian. */
  lemma SubkeyOfFinalState(w: seq<bv32>)
    requires w == [0x423b4182, 0xfe7bb227, 0x50420ed3, 0x737d878a, 0x0aa76448, 0x7954cdf3, 0x846acd37, 0x7b3c58ad,
                  0x77e35583, 0x83e77c12, 0xe0076a2d, 0xbc6cd0e5, 0xd5e4f9a0, 0x53a8748a, 0x13c42ec1, 0xdcecd326]
    ensures LEWords(w[..4] + w[12..]) == VECTOR_SUBKEY
  {
    assert w[..4] + w[12..] == [0x423b4182, 0xfe7bb227, 0x50420ed3, 0x737d878a,
                                0xd5e4f9a0, 0x53a8748a, 0x13c42ec1, 0xdcecd326];
    SubkeyBytes();
  }

  lemma SubkeyBytes()
    ensures LEWords([0x423b4182, 0xfe7bb227, 0x50420ed3, 0x737d878a,
                     0xd5e4f9a0, 0x53a8748a, 0x13c42ec1, 0xdcecd326]) == VECTOR_SUBKEY
  {
    var low: seq<bv32> := [0x423b4182, 0xfe7bb227, 0x50420ed3, 0x737d878a];
    var high: seq<bv32> := [0xd5e4f9a0, 0x53a8748a, 0x13c42ec1, 0xdcecd326];
    LEWordsAppend(low, high);
    SubkeyLowBytes();
    SubkeyHighBytes();
    assert low + high == [0x423b4182, 0xfe7bb227, 0x50420ed3, 0x737d878a,
                          0xd5e4f9a0, 0x53a8748a, 0x13c42ec1, 0xdcecd326];
    assert VECTOR_SUBKEY == VECTOR_SUBKEY[..16] + VECTOR_SUBKEY[16..];
  }

  lemma SubkeyLowBytes()
    ensures LEWords([0x423b4182, 0xfe7bb227, 0x50420ed3, 0x737d878a]) == VECTOR_SUBKEY[..16]
  {
    var ws: seq<bv32> := [0x423b4182, 0xfe7bb227, 0x50420ed3, 0x737d878a];
    assert ws[..1][..0] == ws[..0];
    assert LEWords(ws[..1]) == VECTOR_SUBKEY[..4];
    assert ws[..2][..1] == ws[..1];
    assert LEWords(ws[..2]) == VECTOR_SUBKEY[..8];
    assert ws[..3][..2] == ws[..2];
    assert LEWords(ws[..3]) == VECTOR_SUBKEY[..12];
    assert ws[..4][..3] == ws[..3];
    assert ws[..4] == ws;
  }

  lemma SubkeyHighBytes()
    ensures LEWords([0xd5e4f9a0, 0x53a8748a, 0x13c42ec1, 0xdcecd326]) == VECTOR_SUBKEY[16..]
  {
    var ws: seq<bv32> := [0xd5e4f9a0, 0x53a8748a, 0x13c42ec1, 0xdcecd326];
    assert ws[..1][..0] == ws[..0];
    assert LEWords(ws[..1]) == VECTOR_SUBKEY[16..20];
    assert ws[..2][..1] == ws[..1];
    assert LEWords(ws[..2]) == VECTOR_SUBKEY[16..24];
    assert ws[..3][..2] == ws[..2];
    assert LEWords(ws[..3]) == VECTOR_SUBKEY[16..28];
    assert ws[..4][..3] == ws[..3];
    assert ws[..4] == ws;
  }

  lemma QuarterRound1a()
    ensures QuarterRoundAt([0x61707865, 0x3320646e, 0x79622d32, 0x6b206574, 0x03020100, 0x07060504, 0x0b0a0908, 0x0f0e0d0c,
                            0x13121110, 0x17161514, 0x1b1a1918, 0x1f1e1d1c, 0x09000000, 0x4a000000, 0x00000000, 0x27594131],
                           0, 4, 8, 12)
         == [0xbc6aa25c, 0x3320646e, 0x79622d32, 0x6b206574, 0xdf42d865, 0x07060504, 0x0b0a0908, 0x0f0e0d0c,
            0x9c46ad47, 0x17161514, 0x1b1a1918, 0x1f1e1d1c, 0x0fcf2ec5, 0x4a000000, 0x00000000, 0x27594131]
  {
  }

  lemma QuarterRound1b()
    ensures QuarterRoundAt([0xbc6aa25c, 0x3320646e, 0x79622d32, 0x6b206574, 0xdf42d865, 0x07060504, 0x0b0a0908, 0x0f0e0d0c,
                            0x9c46ad47, 0x17161514, 0x1b1a1918, 0x1f1e1d1c, 0x0fcf2ec5, 0x4a000000, 0x00000000, 0x27594131],
                           1, 5, 9, 13)
         == [0xbc6aa25c, 0x222a51ea, 0x79622d32, 0x6b206574, 0xdf42d865, 0x54dcfe98, 0x0b0a0908, 0x0f0e0d0c,
            0x9c46ad47, 0xd8aa5185, 0x1b1a1918, 0x1f1e1d1c, 0x0fcf2ec5, 0x5821cc4b, 0x00000000, 0x27594131]
  {
  }

  lemma QuarterRound1c()
    ensures QuarterRoundAt([0xbc6aa25c, 0x222a51ea, 0x79622d32, 0x6b206574, 0xdf42d865, 0x54dcfe98, 0x0b0a0908, 0x0f0e0d0c,
                            0x9c46ad47, 0xd8aa5185, 0x1b1a1918, 0x1f1e1d1c, 0x0fcf2ec5, 0x5821cc4b, 0x00000000, 0x27594131],
                           2, 6, 10, 14)
         == [0xbc6aa25c, 0x222a51ea, 0x6db4fbdf, 0x6b206574, 0xdf42d865, 0x54dcfe98, 0x4e4abd1b, 0x0f0e0d0c,
            0x9c46ad47, 0xd8aa5185, 0xdfd450df, 0x1f1e1d1c, 0x0fcf2ec5, 0x5821cc4b, 0x8e7fb35b, 0x27594131]
  {
  }

  lemma QuarterRound1d()
    ensures QuarterRoundAt([0xbc6aa25c, 0x222a51ea, 0x6db4fbdf, 0x6b206574, 0xdf42d865, 0x54dcfe98, 0x4e4abd1b, 0x0f0e0d0c,
                            0x9c46ad47, 0xd8aa5185, 0xdfd450df, 0x1f1e1d1c, 0x0fcf2ec5, 0x5821cc4b, 0x8e7fb35b, 0x27594131],
                           3, 7, 11, 15)
         == [0xbc6aa25c, 0x222a51ea, 0x6db4fbdf, 0x91a8685c, 0xdf42d865, 0x54dcfe98, 0x4e4abd1b, 0xbea9f4bd,
            0x9c46ad47, 0xd8aa5185, 0xdfd450df, 0x6c04a635, 0x0fcf2ec5, 0x5821cc4b, 0x8e7fb35b, 0x19352ba2]
  {
  }

  lemma QuarterRound1e()
    ensures QuarterRoundAt([0xbc6aa25c, 0x222a51ea, 0x6db4fbdf, 0x91a8685c, 0xdf42d865, 0x54dcfe98, 0x4e4abd1b, 0xbea9f4bd,
                            0x9c46ad47, 0xd8aa5185, 0xdfd450df, 0x6c04a635, 0x0fcf2ec5, 0x5821cc4b, 0x8e7fb35b, 0x19352ba2],
                           0, 5, 10, 15)
         == [0x7bc434f3, 0x222a51ea, 0x6db4fbdf, 0x91a8685c, 0xdf42d865, 0x8d245f4b, 0x4e4abd1b, 0xbea9f4bd,
            0x9c46ad47, 0xd8aa5185, 0xfd66db41, 0x6c04a635, 0x0fcf2ec5, 0x5821cc4b, 0x8e7fb35b, 0x923c81f0]
  {
  }

  lemma QuarterRound1f()
    ensures QuarterRoundAt([0x7bc434f3, 0x222a51ea, 0x6db4fbdf, 0x91a8685c, 0xdf42d865, 0x8d245f4b, 0x4e4abd1b, 0xbea9f4bd,
                            0x9c46ad47, 0xd8aa5185, 0xfd66db41, 0x6c04a635, 0x0fcf2ec5, 0x5821cc4b, 0x8e7fb35b, 0x923c81f0],
                           1, 6, 11, 12)
         == [0x7bc434f3, 0x6a045b3d, 0x6db4fbdf, 0x91a8685c, 0xdf42d865, 0x8d245f4b, 0x33708154, 0xbea9f4bd,
            0x9c46ad47, 0xd8aa5185, 0xfd66db41, 0x51e9ad3a, 0xc424874b, 0x5821cc4b, 0x8e7fb35b, 0x923c81f0]
  {
  }

  lemma QuarterRound1g()
    ensures QuarterRoundAt([0x7bc434f3, 0x6a045b3d, 0x6db4fbdf, 0x91a8685c, 0xdf42d865, 0x8d245f4b, 0x33708154, 0xbea9f4bd,
                            0x9c46ad47, 0xd8aa5185, 0xfd66db41, 0x51e9ad3a, 0xc424874b, 0x5821cc4b, 0x8e7fb35b, 0x923c81f0],
                           2, 7, 8, 13)
         == [0x7bc434f3, 0x6a045b3d, 0xa9b6a717, 0x91a8685c, 0xdf42d865, 0x8d245f4b, 0x33708154, 0xd31e1023,
            0x3af18a5b, 0xd8aa5185, 0xfd66db41, 0x51e9ad3a, 0xc424874b, 0x61d36895, 0x8e7fb35b, 0x923c81f0]
  {
  }

  lemma QuarterRound1h()
    ensures QuarterRoundAt([0x7bc434f3, 0x6a045b3d, 0xa9b6a717, 0x91a8685c, 0xdf42d865, 0x8d245f4b, 0x33708154, 0xd31e1023,
                            0x3af18a5b, 0xd8aa5185, 0xfd66db41, 0x51e9ad3a, 0xc424874b, 0x61d36895, 0x8e7fb35b, 0x923c81f0],
                           3, 4, 9, 14)
         == [0x7bc434f3, 0x6a045b3d, 0xa9b6a717, 0xe97301f1, 0x61ba01e7, 0x8d245f4b, 0x33708154, 0xd31e1023,
            0x3af18a5b, 0xb644b533, 0xfd66db41, 0x51e9ad3a, 0xc424874b, 0x61d36895, 0xe9ff651a, 0x923c81f0]
  {
  }

  /** Double round 1 of the vector, one quarter round at a time. */
  lemma DoubleRound1()
    ensures DoubleRound([0x61707865, 0x3320646e, 0x79622d32, 0x6b206574, 0x03020100, 0x07060504, 0x0b0a0908, 0x0f0e0d0c,
                        0x13121110, 0x17161514, 0x1b1a1918, 0x1f1e1d1c, 0x09000000, 0x4a000000, 0x00000000, 0x27594131])
         == [0x7bc434f3, 0x6a045b3d, 0xa9b6a717, 0xe97301f1, 0x61ba01e7, 0x8d245f4b, 0x33708154, 0xd31e1023,
            0x3af18a5b, 0xb644b533, 0xfd66db41, 0x51e9ad3a, 0xc424874b, 0x61d36895, 0xe9ff651a, 0x923c81f0]
  {
    QuarterRound1a(); QuarterRound1b(); QuarterRound1c(); QuarterRound1d();
    QuarterRound1e(); QuarterRound1f(); QuarterRound1g(); QuarterRound1h();
  }

  lemma QuarterRound2a()
    ensures QuarterRoundAt([0x7bc434f3, 0x6a045b3d, 0xa9b6a717, 0xe97301f1, 0x61ba01e7, 0x8d245f4b, 0x33708154, 0xd31e1023,
                            0x3af18a5b, 0xb644b533, 0xfd66db41, 0x51e9ad3a, 0xc424874b, 0x61d36895, 0xe9ff651a, 0x923c81f0],
                           0, 4, 8, 12)
         == [0x67a35fad, 0x6a045b3d, 0xa9b6a717, 0xe97301f1, 0x7659ac4a, 0x8d245f4b, 0x33708154, 0xd31e1023,
            0x1ec99b8b, 0xb644b533, 0xfd66db41, 0x51e9ad3a, 0x3246f7d6, 0x61d36895, 0xe9ff651a, 0x923c81f0]
  {
  }

  lemma QuarterRound2b()
    ensures QuarterRoundAt([0x67a35fad, 0x6a045b3d, 0xa9b6a717, 0xe97301f1, 0x7659ac4a, 0x8d245f4b, 0x33708154, 0xd31e1023,
                            0x1ec99b8b, 0xb644b533, 0xfd66db41, 0x51e9ad3a, 0x3246f7d6, 0x61d36895, 0xe9ff651a, 0x923c81f0],
                           1, 5, 9, 13)
         == [0x67a35fad, 0x585f0adc, 0xa9b6a717, 0xe97301f1, 0x7659ac4a, 0xe411f655, 0x33708154, 0xd31e1023,
            0x1ec99b8b, 0xcafe73b8, 0xfd66db41, 0x51e9ad3a, 0x3246f7d6, 0x429c278a, 0xe9ff651a, 0x923c81f0]
  {
  }

  lemma QuarterRound2c()
    ensures QuarterRoundAt([0x67a35fad, 0x585f0adc, 0xa9b6a717, 0xe97301f1, 0x7659ac4a, 0xe411f655, 0x33708154, 0xd31e1023,
                            0x1ec99b8b, 0xcafe73b8, 0xfd66db41, 0x51e9ad3a, 0x3246f7d6, 0x429c278a, 0xe9ff651a, 0x923c81f0],
                           2, 6, 10, 14)
         == [0x67a35fad, 0x585f0adc, 0x663c0005, 0xe97301f1, 0x7659ac4a, 0xe411f655, 0x8c1d6f08, 0xd31e1023,
            0x1ec99b8b, 0xcafe73b8, 0x980ced44, 0x51e9ad3a, 0x3246f7d6, 0x429c278a, 0x4d34dd2b, 0x923c81f0]
  {
  }

  lemma QuarterRound2d()
    ensures QuarterRoundAt([0x67a35fad, 0x585f0adc, 0x663c0005, 0xe97301f1, 0x7659ac4a, 0xe411f655, 0x8c1d6f08, 0xd31e1023,
                            0x1ec99b8b, 0xcafe73b8, 0x980ced44, 0x51e9ad3a, 0x3246f7d6, 0x429c278a, 0x4d34dd2b, 0x923c81f0],
                           3, 7, 11, 15)
         == [0x67a35fad, 0x585f0adc, 0x663c0005, 0xf94d5581, 0x7659ac4a, 0xe411f655, 0x8c1d6f08, 0xfaa59e59,
            0x1ec99b8b, 0xcafe73b8, 0x980ced44, 0x8f490851, 0x3246f7d6, 0x429c278a, 0x4d34dd2b, 0xa97b2c6a]
  {
  }

  lemma QuarterRound2e()
    ensures QuarterRoundAt([0x67a35fad, 0x585f0adc, 0x663c0005, 0xf94d5581, 0x7659ac4a, 0xe411f655, 0x8c1d6f08, 0xfaa59e59,
                            0x1ec99b8b, 0xcafe73b8, 0x980ced44, 0x8f490851, 0x3246f7d6, 0x429c278a, 0x4d34dd2b, 0xa97b2c6a],
                           0, 5, 10, 15)
         == [0x8e19d568, 0x585f0adc, 0x663c0005, 0xf94d5581, 0x7659ac4a, 0xe4843060, 0x8c1d6f08, 0xfaa59e59,
            0x1ec99b8b, 0xcafe73b8, 0x83ad7706, 0x8f490851, 0x3246f7d6, 0x429c278a, 0x4d34dd2b, 0x7137a6f4]
  {
  }

  lemma QuarterRound2f()
    ensures QuarterRoundAt([0x8e19d568, 0x585f0adc, 0x663c0005, 0xf94d5581, 0x7659ac4a, 0xe4843060, 0x8c1d6f08, 0xfaa59e59,
                            0x1ec99b8b, 0xcafe73b8, 0x83ad7706, 0x8f490851, 0x3246f7d6, 0x429c278a, 0x4d34dd2b, 0x7137a6f4],
                           1, 6, 11, 12)
         == [0x8e19d568, 0x4f94b2fa, 0x663c0005, 0xf94d5581, 0x7659ac4a, 0xe4843060, 0x7c532d54, 0xfaa59e59,
            0x1ec99b8b, 0xcafe73b8, 0x83ad7706, 0xc3e09f4c, 0xa664c0c1, 0x429c278a, 0x4d34dd2b, 0x7137a6f4]
  {
  }

  lemma QuarterRound2g()
    ensures QuarterRoundAt([0x8e19d568, 0x4f94b2fa, 0x663c0005, 0xf94d5581, 0x7659ac4a, 0xe4843060, 0x7c532d54, 0xfaa59e59,
                            0x1ec99b8b, 0xcafe73b8, 0x83ad7706, 0xc3e09f4c, 0xa664c0c1, 0x429c278a, 0x4d34dd2b, 0x7137a6f4],
                           2, 7, 8, 13)
         == [0x8e19d568, 0x4f94b2fa, 0xe2e6b081, 0xf94d5581, 0x7659ac4a, 0xe4843060, 0x7c532d54, 0x9ad42044,
            0x0b30ba63, 0xcafe73b8, 0x83ad7706, 0xc3e09f4c, 0xa664c0c1, 0x3292fc5b, 0x4d34dd2b, 0x7137a6f4]
  {
  }

  lemma QuarterRound2h()
    ensures QuarterRoundAt([0x8e19d568, 0x4f94b2fa, 0xe2e6b081, 0xf94d5581, 0x7659ac4a, 0xe4843060, 0x7c532d54, 0x9ad42044,
                            0x0b30ba63, 0xcafe73b8, 0x83ad7706, 0xc3e09f4c, 0xa664c0c1, 0x3292fc5b, 0x4d34dd2b, 0x7137a6f4],
                           3, 4, 9, 14)
         == [0x8e19d568, 0x4f94b2fa, 0xe2e6b081, 0xe3471ee3, 0x5d8dc91e, 0xe4843060, 0x7c532d54, 0x9ad42044,
            0x0b30ba63, 0x4f1b068a, 0x83ad7706, 0xc3e09f4c, 0xa664c0c1, 0x3292fc5b, 0xa73c703f, 0x7137a6f4]
  {
  }

  /** Double round 2 of the vector, one quarter round at a time. */
  lemma DoubleRound2()
    ensures DoubleRound([0x7bc434f3, 0x6a045b3d, 0xa9b6a717, 0xe97301f1, 0x61ba01e7, 0x8d245f4b, 0x33708154, 0xd31e1023,
                        0x3af18a5b, 0xb644b533, 0xfd66db41, 0x51e9ad3a, 0xc424874b, 0x61d36895, 0xe9ff651a, 0x923c81f0])
         == [0x8e19d568, 0x4f94b2fa, 0xe2e6b081, 0xe3471ee3, 0x5d8dc91e, 0xe4843060, 0x7c532d54, 0x9ad42044,
            0x0b30ba63, 0x4f1b068a, 0x83ad7706, 0xc3e09f4c, 0xa664c0c1, 0x3292fc5b, 0xa73c703f, 0x7137a6f4]
  {
    QuarterRound2a(); QuarterRound2b(); QuarterRound2c(); QuarterRound2d();
    QuarterRound2e(); QuarterRound2f(); QuarterRound2g(); QuarterRound2h();
  }

  lemma QuarterRound3a()
    ensures QuarterRoundAt([0x8e19d568, 0x4f94b2fa, 0xe2e6b081, 0xe3471ee3, 0x5d8dc91e, 0xe4843060, 0x7c532d54, 0x9ad42044,
                            0x0b30ba63, 0x4f1b068a, 0x83ad7706, 0xc3e09f4c, 0xa664c0c1, 0x3292fc5b, 0xa73c703f, 0x7137a6f4],
                           0, 4, 8, 12)
         == [0x47bb21d5, 0x4f94b2fa, 0xe2e6b081, 0xe3471ee3, 0xfbceb81c, 0xe4843060, 0x7c532d54, 0x9ad42044,
            0x65e41e3f, 0x4f1b068a, 0x83ad7706, 0xc3e09f4c, 0xfc6c1619, 0x3292fc5b, 0xa73c703f, 0x7137a6f4]
  {
  }

  lemma QuarterRound3b()
    ensures QuarterRoundAt([0x47bb21d5, 0x4f94b2fa, 0xe2e6b081, 0xe3471ee3, 0xfbceb81c, 0xe4843060, 0x7c532d54, 0x9ad42044,
                            0x65e41e3f, 0x4f1b068a, 0x83ad7706, 0xc3e09f4c, 0xfc6c1619, 0x3292fc5b, 0xa73c703f, 0x7137a6f4],
                           1, 5, 9, 13)
         == [0x47bb21d5, 0xb7f02c03, 0xe2e6b081, 0xe3471ee3, 0xfbceb81c, 0x48ef0aee, 0x7c532d54, 0x9ad42044,
            0x65e41e3f, 0x5f4696bc, 0x83ad7706, 0xc3e09f4c, 0xfc6c1619, 0xf12a89a8, 0xa73c703f, 0x7137a6f4]
  {
  }

  lemma QuarterRound3c()
    ensures QuarterRoundAt([0x47bb21d5, 0xb7f02c03, 0xe2e6b081, 0xe3471ee3, 0xfbceb81c, 0x48ef0aee, 0x7c532d54, 0x9ad42044,
                            0x65e41e3f, 0x5f4696bc, 0x83ad7706, 0xc3e09f4c, 0xfc6c1619, 0xf12a89a8, 0xa73c703f, 0x7137a6f4],
                           2, 6, 10, 14)
         == [0x47bb21d5, 0xb7f02c03, 0x135fd2b1, 0xe3471ee3, 0xfbceb81c, 0x48ef0aee, 0x736b8aa9, 0x9ad42044,
            0x65e41e3f, 0x5f4696bc, 0xe6c323c9, 0xc3e09f4c, 0xfc6c1619, 0xf12a89a8, 0xb52ab4be, 0x7137a6f4]
  {
  }

  lemma QuarterRound3d()
    ensures QuarterRoundAt([0x47bb21d5, 0xb7f02c03, 0x135fd2b1, 0xe3471ee3, 0xfbceb81c, 0x48ef0aee, 0x736b8aa9, 0x9ad42044,
                            0x65e41e3f, 0x5f4696bc, 0xe6c323c9, 0xc3e09f4c, 0xfc6c1619, 0xf12a89a8, 0xb52ab4be, 0x7137a6f4],
                           3, 7, 11, 15)
         == [0x47bb21d5, 0xb7f02c03, 0x135fd2b1, 0xf6ff0b9d, 0xfbceb81c, 0x48ef0aee, 0x736b8aa9, 0xadc9c8f8,
            0x65e41e3f, 0x5f4696bc, 0xe6c323c9, 0x89b85fe7, 0xfc6c1619, 0xf12a89a8, 0xb52ab4be, 0x2c04b16f]
  {
  }

  lemma QuarterRound3e()
    ensures QuarterRoundAt([0x47bb21d5, 0xb7f02c03, 0x135fd2b1, 0xf6ff0b9d, 0xfbceb81c, 0x48ef0aee, 0x736b8aa9, 0xadc9c8f8,
                            0x65e41e3f, 0x5f4696bc, 0xe6c323c9, 0x89b85fe7, 0xfc6c1619, 0xf12a89a8, 0xb52ab4be, 0x2c04b16f],
                           0, 5, 10, 15)
         == [0x9f53c98b, 0xb7f02c03, 0x135fd2b1, 0xf6ff0b9d, 0xfbceb81c, 0xa64cd8c6, 0x736b8aa9, 0xadc9c8f8,
            0x65e41e3f, 0x5f4696bc, 0x83e50579, 0x89b85fe7, 0xfc6c1619, 0xf12a89a8, 0xb52ab4be, 0xff752502]
  {
  }

  lemma QuarterRound3f()
    ensures QuarterRoundAt([0x9f53c98b, 0xb7f02c03, 0x135fd2b1, 0xf6ff0b9d, 0xfbceb81c, 0xa64cd8c6, 0x736b8aa9, 0xadc9c8f8,
                            0x65e41e3f, 0x5f4696bc, 0x83e50579, 0x89b85fe7, 0xfc6c1619, 0xf12a89a8, 0xb52ab4be, 0xff752502],
                           1, 6, 11, 12)
         == [0x9f53c98b, 0x87372c3c, 0x135fd2b1, 0xf6ff0b9d, 0xfbceb81c, 0xa64cd8c6, 0x591beafb, 0xadc9c8f8,
            0x65e41e3f, 0x5f4696bc, 0x83e50579, 0xad694245, 0x82fb0b27, 0xf12a89a8, 0xb52ab4be, 0xff752502]
  {
  }

  lemma QuarterRound3g()
    ensures QuarterRoundAt([0x9f53c98b, 0x87372c3c, 0x135fd2b1, 0xf6ff0b9d, 0xfbceb81c, 0xa64cd8c6, 0x591beafb, 0xadc9c8f8,
                            0x65e41e3f, 0x5f4696bc, 0x83e50579, 0xad694245, 0x82fb0b27, 0xf12a89a8, 0xb52ab4be, 0xff752502],
                           2, 7, 8, 13)
         == [0x9f53c98b, 0x87372c3c, 0x8995494b, 0xf6ff0b9d, 0xfbceb81c, 0xa64cd8c6, 0x591beafb, 0x1a9dbfe2,
            0x0c5e96dd, 0x5f4696bc, 0x83e50579, 0xad694245, 0x82fb0b27, 0x9479489b, 0xb52ab4be, 0xff752502]
  {
  }

  lemma QuarterRound3h()
    ensures QuarterRoundAt([0x9f53c98b, 0x87372c3c, 0x8995494b, 0xf6ff0b9d, 0xfbceb81c, 0xa64cd8c6, 0x591beafb, 0x1a9dbfe2,
                            0x0c5e96dd, 0x5f4696bc, 0x83e50579, 0xad694245, 0x82fb0b27, 0x9479489b, 0xb52ab4be, 0xff752502],
                           3, 4, 9, 14)
         == [0x9f53c98b, 0x87372c3c, 0x8995494b, 0x2939b691, 0xaa53ec91, 0xa64cd8c6, 0x591beafb, 0x1a9dbfe2,
            0x0c5e96dd, 0x153f5501, 0x83e50579, 0xad694245, 0x82fb0b27, 0x9479489b, 0x3ef1765e, 0xff752502]
  {
  }

  /** Double round 3 of the vector, one quarter round at a time. */
  lemma DoubleRound3()
    ensures DoubleRound([0x8e19d568, 0x4f94b2fa, 0xe2e6b081, 0xe3471ee3, 0x5d8dc91e, 0xe4843060, 0x7c532d54, 0x9ad42044,
                        0x0b30ba63, 0x4f1b068a, 0x83ad7706, 0xc3e09f4c, 0xa664c0c1, 0x3292fc5b, 0xa73c703f, 0x7137a6f4])
         == [0x9f53c98b, 0x87372c3c, 0x8995494b, 0x2939b691, 0xaa53ec91, 0xa64cd8c6, 0x591beafb, 0x1a9dbfe2,
            0x0c5e96dd, 0x153f5501, 0x83e50579, 0xad694245, 0x82fb0b27, 0x9479489b, 0x3ef1765e, 0xff752502]
  {
    QuarterRound3a(); QuarterRound3b(); QuarterRound3c(); QuarterRound3d();
    QuarterRound3e(); QuarterRound3f(); QuarterRound3g(); QuarterRound3h();
  }

  lemma QuarterRound4a()
    ensures QuarterRoundAt([0x9f53c98b, 0x87372c3c, 0x8995494b, 0x2939b691, 0xaa53ec91, 0xa64cd8c6, 0x591beafb, 0x1a9dbfe2,
                            0x0c5e96dd, 0x153f5501, 0x83e50579, 0xad694245, 0x82fb0b27, 0x9479489b, 0x3ef1765e, 0xff752502],
                           0, 4, 8, 12)
         == [0xe2923c58, 0x87372c3c, 0x8995494b, 0x2939b691, 0xbdf05275, 0xa64cd8c6, 0x591beafb, 0x1a9dbfe2,
            0x73916698, 0x153f5501, 0x83e50579, 0xad694245, 0xa9f7045f, 0x9479489b, 0x3ef1765e, 0xff752502]
  {
  }

  lemma QuarterRound4b()
    ensures QuarterRoundAt([0xe2923c58, 0x87372c3c, 0x8995494b, 0x2939b691, 0xbdf05275, 0xa64cd8c6, 0x591beafb, 0x1a9dbfe2,
                            0x73916698, 0x153f5501, 0x83e50579, 0xad694245, 0xa9f7045f, 0x9479489b, 0x3ef1765e, 0xff752502],
                           1, 5, 9, 13)
         == [0xe2923c58, 0x8ae7914b, 0x8995494b, 0x2939b691, 0xbdf05275, 0x3124c65e, 0x591beafb, 0x1a9dbfe2,
            0x73916698, 0xe101c5c5, 0x83e50579, 0xad694245, 0xa9f7045f, 0x7e28b6c7, 0x3ef1765e, 0xff752502]
  {
  }

  lemma QuarterRound4c()
    ensures QuarterRoundAt([0xe2923c58, 0x8ae7914b, 0x8995494b, 0x2939b691, 0xbdf05275, 0x3124c65e, 0x591beafb, 0x1a9dbfe2,
                            0x73916698, 0xe101c5c5, 0x83e50579, 0xad694245, 0xa9f7045f, 0x7e28b6c7, 0x3ef1765e, 0xff752502],
                           2, 6, 10, 14)
         == [0xe2923c58, 0x8ae7914b, 0x43655e14, 0x2939b691, 0xbdf05275, 0x3124c65e, 0x9a0e3a11, 0x1a9dbfe2,
            0x73916698, 0xe101c5c5, 0x438035ba, 0xad694245, 0xa9f7045f, 0x7e28b6c7, 0x7d825401, 0xff752502]
  {
  }

  lemma QuarterRound4d()
    ensures QuarterRoundAt([0xe2923c58, 0x8ae7914b, 0x43655e14, 0x2939b691, 0xbdf05275, 0x3124c65e, 0x9a0e3a11, 0x1a9dbfe2,
                            0x73916698, 0xe101c5c5, 0x438035ba, 0xad694245, 0xa9f7045f, 0x7e28b6c7, 0x7d825401, 0xff752502],
                           3, 7, 11, 15)
         == [0xe2923c58, 0x8ae7914b, 0x43655e14, 0xb7e7c817, 0xbdf05275, 0x3124c65e, 0x9a0e3a11, 0xaff2b7f1,
            0x73916698, 0xe101c5c5, 0x438035ba, 0x974fb4cb, 0xa9f7045f, 0x7e28b6c7, 0x7d825401, 0x9674b5e4]
  {
  }

  lemma QuarterRound4e()
    ensures QuarterRoundAt([0xe2923c58, 0x8ae7914b, 0x43655e14, 0xb7e7c817, 0xbdf05275, 0x3124c65e, 0x9a0e3a11, 0xaff2b7f1,
                            0x73916698, 0xe101c5c5, 0x438035ba, 0x974fb4cb, 0xa9f7045f, 0x7e28b6c7, 0x7d825401, 0x9674b5e4],
                           0, 5, 10, 15)
         == [0x7b893f75, 0x8ae7914b, 0x43655e14, 0xb7e7c817, 0xbdf05275, 0xafa77b58, 0x9a0e3a11, 0xaff2b7f1,
            0x73916698, 0xe101c5c5, 0xd68d7249, 0x974fb4cb, 0xa9f7045f, 0x7e28b6c7, 0x7d825401, 0xdbbab6cc]
  {
  }

  lemma QuarterRound4f()
    ensures QuarterRoundAt([0x7b893f75, 0x8ae7914b, 0x43655e14, 0xb7e7c817, 0xbdf05275, 0xafa77b58, 0x9a0e3a11, 0xaff2b7f1,
                            0x73916698, 0xe101c5c5, 0xd68d7249, 0x974fb4cb, 0xa9f7045f, 0x7e28b6c7, 0x7d825401, 0xdbbab6cc],
                           1, 6, 11, 12)
         == [0x7b893f75, 0xfcb39b21, 0x43655e14, 0xb7e7c817, 0xbdf05275, 0xafa77b58, 0xea5562e0, 0xaff2b7f1,
            0x73916698, 0xe101c5c5, 0xd68d7249, 0x16696500, 0xb0162333, 0x7e28b6c7, 0x7d825401, 0xdbbab6cc]
  {
  }

  lemma QuarterRound4g()
    ensures QuarterRoundAt([0x7b893f75, 0xfcb39b21, 0x43655e14, 0xb7e7c817, 0xbdf05275, 0xafa77b58, 0xea5562e0, 0xaff2b7f1,
                            0x73916698, 0xe101c5c5, 0xd68d7249, 0x16696500, 0xb0162333, 0x7e28b6c7, 0x7d825401, 0xdbbab6cc],
                           2, 7, 8, 13)
         == [0x7b893f75, 0xfcb39b21, 0x0797b1bf, 0xb7e7c817, 0xbdf05275, 0xafa77b58, 0xea5562e0, 0xd7ac0abe,
            0x6990c3af, 0xe101c5c5, 0xd68d7249, 0x16696500, 0xb0162333, 0x553ccfa7, 0x7d825401, 0xdbbab6cc]
  {
  }

  lemma QuarterRound4h()
    ensures QuarterRoundAt([0x7b893f75, 0xfcb39b21, 0x0797b1bf, 0xb7e7c817, 0xbdf05275, 0xafa77b58, 0xea5562e0, 0xd7ac0abe,
                            0x6990c3af, 0xe101c5c5, 0xd68d7249, 0x16696500, 0xb0162333, 0x553ccfa7, 0x7d825401, 0xdbbab6cc],
                           3, 4, 9, 14)
         == [0x7b893f75, 0xfcb39b21, 0x0797b1bf, 0x5f9ec3b3, 0x4e0f0bd5, 0xafa77b58, 0xea5562e0, 0xd7ac0abe,
            0x6990c3af, 0x435ab730, 0xd68d7249, 0x16696500, 0xb0162333, 0x553ccfa7, 0x13cbe911, 0xdbbab6cc]
  {
  }

  /** Double round 4 of the vector, one quarter round at a time. */
  lemma DoubleRound4()
    ensures DoubleRound([0x9f53c98b, 0x87372c3c, 0x8995494b, 0x2939b691, 0xaa53ec91, 0xa64cd8c6, 0x591beafb, 0x1a9dbfe2,
                        0x0c5e96dd, 0x153f5501, 0x83e50579, 0xad694245, 0x82fb0b27, 0x9479489b, 0x3ef1765e, 0xff752502])
         == [0x7b893f75, 0xfcb39b21, 0x0797b1bf, 0x5f9ec3b3, 0x4e0f0bd5, 0xafa77b58, 0xea5562e0, 0xd7ac0abe,
            0x6990c3af, 0x435ab730, 0xd68d7249, 0x16696500, 0xb0162333, 0x553ccfa7, 0x13cbe911, 0xdbbab6cc]
  {
    QuarterRound4a(); QuarterRound4b(); QuarterRound4c(); QuarterRound4d();
    QuarterRound4e(); QuarterRound4f(); QuarterRound4g(); QuarterRound4h();
  }

  lemma QuarterRound5a()
    ensures QuarterRoundAt([0x7b893f75, 0xfcb39b21, 0x0797b1bf, 0x5f9ec3b3, 0x4e0f0bd5, 0xafa77b58, 0xea5562e0, 0xd7ac0abe,
                            0x6990c3af, 0x435ab730, 0xd68d7249, 0x16696500, 0xb0162333, 0x553ccfa7, 0x13cbe911, 0xdbbab6cc],
                           0, 4, 8, 12)
         == [0x1d06d50a, 0xfcb39b21, 0x0797b1bf, 0x5f9ec3b3, 0x6c243901, 0xafa77b58, 0xea5562e0, 0xd7ac0abe,
            0x51b6c1b2, 0x435ab730, 0xd68d7249, 0x16696500, 0x7fac8475, 0x553ccfa7, 0x13cbe911, 0xdbbab6cc]
  {
  }

  lemma QuarterRound5b()
    ensures QuarterRoundAt([0x1d06d50a, 0xfcb39b21, 0x0797b1bf, 0x5f9ec3b3, 0x6c243901, 0xafa77b58, 0xea5562e0, 0xd7ac0abe,
                            0x51b6c1b2, 0x435ab730, 0xd68d7249, 0x16696500, 0x7fac8475, 0x553ccfa7, 0x13cbe911, 0xdbbab6cc],
                           1, 5, 9, 13)
         == [0x1d06d50a, 0x991811a2, 0x0797b1bf, 0x5f9ec3b3, 0x6c243901, 0x4f477f04, 0xea5562e0, 0xd7ac0abe,
            0x51b6c1b2, 0xe42275d7, 0xd68d7249, 0x16696500, 0x7fac8475, 0xc6e8c540, 0x13cbe911, 0xdbbab6cc]
  {
  }

  lemma QuarterRound5c()
    ensures QuarterRoundAt([0x1d06d50a, 0x991811a2, 0x0797b1bf, 0x5f9ec3b3, 0x6c243901, 0x4f477f04, 0xea5562e0, 0xd7ac0abe,
                            0x51b6c1b2, 0xe42275d7, 0xd68d7249, 0x16696500, 0x7fac8475, 0xc6e8c540, 0x13cbe911, 0xdbbab6cc],
                           2, 6, 10, 14)
         == [0x1d06d50a, 0x991811a2, 0x85560883, 0x5f9ec3b3, 0x6c243901, 0x4f477f04, 0x3705019f, 0xd7ac0abe,
            0x51b6c1b2, 0xe42275d7, 0xad06f9e7, 0x16696500, 0x7fac8475, 0xc6e8c540, 0xd8eaa578, 0xdbbab6cc]
  {
  }

  lemma QuarterRound5d()
    ensures QuarterRoundAt([0x1d06d50a, 0x991811a2, 0x85560883, 0x5f9ec3b3, 0x6c243901, 0x4f477f04, 0x3705019f, 0xd7ac0abe,
                            0x51b6c1b2, 0xe42275d7, 0xad06f9e7, 0x16696500, 0x7fac8475, 0xc6e8c540, 0xd8eaa578, 0xdbbab6cc],
                           3, 7, 11, 15)
         == [0x1d06d50a, 0x991811a2, 0x85560883, 0xecffb3f9, 0x6c243901, 0x4f477f04, 0x3705019f, 0x195f0632,
            0x51b6c1b2, 0xe42275d7, 0xad06f9e7, 0xd1865b84, 0x7fac8475, 0xc6e8c540, 0xd8eaa578, 0x425f0994]
  {
  }

  lemma QuarterRound5e()
    ensures QuarterRoundAt([0x1d06d50a, 0x991811a2, 0x85560883, 0xecffb3f9, 0x6c243901, 0x4f477f04, 0x3705019f, 0x195f0632,
                            0x51b6c1b2, 0xe42275d7, 0xad06f9e7, 0xd1865b84, 0x7fac8475, 0xc6e8c540, 0xd8eaa578, 0x425f0994],
                           0, 5, 10, 15)
         == [0xd1de186c, 0x991811a2, 0x85560883, 0xecffb3f9, 0x6c243901, 0xac30ed15, 0x3705019f, 0x195f0632,
            0x51b6c1b2, 0xe42275d7, 0x4ed7a584, 0xd1865b84, 0x7fac8475, 0xc6e8c540, 0xd8eaa578, 0x44367d8c]
  {
  }

  lemma QuarterRound5f()
    ensures QuarterRoundAt([0xd1de186c, 0x991811a2, 0x85560883, 0xecffb3f9, 0x6c243901, 0xac30ed15, 0x3705019f, 0x195f0632,
                            0x51b6c1b2, 0xe42275d7, 0x4ed7a584, 0xd1865b84, 0x7fac8475, 0xc6e8c540, 0xd8eaa578, 0x44367d8c],
                           1, 6, 11, 12)
         == [0xd1de186c, 0xb0c7b93c, 0x85560883, 0xecffb3f9, 0x6c243901, 0xac30ed15, 0xbd9ed3dd, 0x195f0632,
            0x51b6c1b2, 0xe42275d7, 0x4ed7a584, 0x5bd1985c, 0xf3168d27, 0xc6e8c540, 0xd8eaa578, 0x44367d8c]
  {
  }

  lemma QuarterRound5g()
    ensures QuarterRoundAt([0xd1de186c, 0xb0c7b93c, 0x85560883, 0xecffb3f9, 0x6c243901, 0xac30ed15, 0xbd9ed3dd, 0x195f0632,
                            0x51b6c1b2, 0xe42275d7, 0x4ed7a584, 0x5bd1985c, 0xf3168d27, 0xc6e8c540, 0xd8eaa578, 0x44367d8c],
                           2, 7, 8, 13)
         == [0xd1de186c, 0xb0c7b93c, 0xd078df04, 0xecffb3f9, 0x6c243901, 0xac30ed15, 0xbd9ed3dd, 0x7851b2cd,
            0xab33732a, 0xe42275d7, 0x4ed7a584, 0x5bd1985c, 0xf3168d27, 0x8d87591b, 0xd8eaa578, 0x44367d8c]
  {
  }

  lemma QuarterRound5h()
    ensures QuarterRoundAt([0xd1de186c, 0xb0c7b93c, 0xd078df04, 0xecffb3f9, 0x6c243901, 0xac30ed15, 0xbd9ed3dd, 0x7851b2cd,
                            0xab33732a, 0xe42275d7, 0x4ed7a584, 0x5bd1985c, 0xf3168d27, 0x8d87591b, 0xd8eaa578, 0x44367d8c],
                           3, 4, 9, 14)
         == [0xd1de186c, 0xb0c7b93c, 0xd078df04, 0x660e0112, 0x67e36bdb, 0xac30ed15, 0xbd9ed3dd, 0x7851b2cd,
            0xab33732a, 0xba25d2cf, 0x4ed7a584, 0x5bd1985c, 0xf3168d27, 0x8d87591b, 0x8c80db2f, 0x44367d8c]
  {
  }

  /** Double round 5 of the vector, one quarter round at a time. */
  lemma DoubleRound5()
    ensures DoubleRound([0x7b893f75, 0xfcb39b21, 0x0797b1bf, 0x5f9ec3b3, 0x4e0f0bd5, 0xafa77b58, 0xea5562e0, 0xd7ac0abe,
                        0x6990c3af, 0x435ab730, 0xd68d7249, 0x16696500, 0xb0162333, 0x553ccfa7, 0x13cbe911, 0xdbbab6cc])
         == [0xd1de186c, 0xb0c7b93c, 0xd078df04, 0x660e0112, 0x67e36bdb, 0xac30ed15, 0xbd9ed3dd, 0x7851b2cd,
            0xab33732a, 0xba25d2cf, 0x4ed7a584, 0x5bd1985c, 0xf3168d27, 0x8d87591b, 0x8c80db2f, 0x44367d8c]
  {
    QuarterRound5a(); QuarterRound5b(); QuarterRound5c(); QuarterRound5d();
    QuarterRound5e(); QuarterRound5f(); QuarterRound5g(); QuarterRound5h();
  }

  lemma QuarterRound6a()
    ensures QuarterRoundAt([0xd1de186c, 0xb0c7b93c, 0xd078df04, 0x660e0112, 0x67e36bdb, 0xac30ed15, 0xbd9ed3dd, 0x7851b2cd,
                            0xab33732a, 0xba25d2cf, 0x4ed7a584, 0x5bd1985c, 0xf3168d27, 0x8d87591b, 0x8c80db2f, 0x44367d8c],
                           0, 4, 8, 12)
         == [0xaf1f317e, 0xb0c7b93c, 0xd078df04, 0x660e0112, 0xe9254820, 0xac30ed15, 0xbd9ed3dd, 0x7851b2cd,
            0x348fe7a7, 0xba25d2cf, 0x4ed7a584, 0x5bd1985c, 0x7ffba9a6, 0x8d87591b, 0x8c80db2f, 0x44367d8c]
  {
  }

  lemma QuarterRound6b()
    ensures QuarterRoundAt([0xaf1f317e, 0xb0c7b93c, 0xd078df04, 0x660e0112, 0xe9254820, 0xac30ed15, 0xbd9ed3dd, 0x7851b2cd,
                            0x348fe7a7, 0xba25d2cf, 0x4ed7a584, 0x5bd1985c, 0x7ffba9a6, 0x8d87591b, 0x8c80db2f, 0x44367d8c],
                           1, 5, 9, 13)
         == [0xaf1f317e, 0x618e57a5, 0xd078df04, 0x660e0112, 0xe9254820, 0xb167dc3c, 0xbd9ed3dd, 0x7851b2cd,
            0x348fe7a7, 0x7df77eec, 0x4ed7a584, 0x5bd1985c, 0x7ffba9a6, 0xc486da9e, 0x8c80db2f, 0x44367d8c]
  {
  }

  lemma QuarterRound6c()
    ensures QuarterRoundAt([0xaf1f317e, 0x618e57a5, 0xd078df04, 0x660e0112, 0xe9254820, 0xb167dc3c, 0xbd9ed3dd, 0x7851b2cd,
                            0x348fe7a7, 0x7df77eec, 0x4ed7a584, 0x5bd1985c, 0x7ffba9a6, 0xc486da9e, 0x8c80db2f, 0x44367d8c],
                           2, 6, 10, 14)
         == [0xaf1f317e, 0x618e57a5, 0x45d41334, 0x660e0112, 0xe9254820, 0xb167dc3c, 0x85958a32, 0x7851b2cd,
            0x348fe7a7, 0x7df77eec, 0xd2b74b47, 0x5bd1985c, 0x7ffba9a6, 0xc486da9e, 0x1a11a32c, 0x44367d8c]
  {
  }

  lemma QuarterRound6d()
    ensures QuarterRoundAt([0xaf1f317e, 0x618e57a5, 0x45d41334, 0x660e0112, 0xe9254820, 0xb167dc3c, 0x85958a32, 0x7851b2cd,
                            0x348fe7a7, 0x7df77eec, 0xd2b74b47, 0x5bd1985c, 0x7ffba9a6, 0xc486da9e, 0x1a11a32c, 0x44367d8c],
                           3, 7, 11, 15)
         == [0xaf1f317e, 0x618e57a5, 0x45d41334, 0x26603906, 0xe9254820, 0xb167dc3c, 0x85958a32, 0xe413c50a,
            0x348fe7a7, 0x7df77eec, 0xd2b74b47, 0x5dc8a2ad, 0x7ffba9a6, 0xc486da9e, 0x1a11a32c, 0x33a36fe8]
  {
  }

  lemma QuarterRound6e()
    ensures QuarterRoundAt([0xaf1f317e, 0x618e57a5, 0x45d41334, 0x26603906, 0xe9254820, 0xb167dc3c, 0x85958a32, 0xe413c50a,
                            0x348fe7a7, 0x7df77eec, 0xd2b74b47, 0x5dc8a2ad, 0x7ffba9a6, 0xc486da9e, 0x1a11a32c, 0x33a36fe8],
                           0, 5, 10, 15)
         == [0x44ac8600, 0x618e57a5, 0x45d41334, 0x26603906, 0xe9254820, 0xfddd6beb, 0x85958a32, 0xe413c50a,
            0x348fe7a7, 0x7df77eec, 0x33dec291, 0x5dc8a2ad, 0x7ffba9a6, 0xc486da9e, 0x1a11a32c, 0xfed52426]
  {
  }

  lemma QuarterRound6f()
    ensures QuarterRoundAt([0x44ac8600, 0x618e57a5, 0x45d41334, 0x26603906, 0xe9254820, 0xfddd6beb, 0x85958a32, 0xe413c50a,
                            0x348fe7a7, 0x7df77eec, 0x33dec291, 0x5dc8a2ad, 0x7ffba9a6, 0xc486da9e, 0x1a11a32c, 0xfed52426],
                           1, 6, 11, 12)
         == [0x44ac8600, 0xe23f5411, 0x45d41334, 0x26603906, 0xe9254820, 0xfddd6beb, 0x0e3b8a87, 0xe413c50a,
            0x348fe7a7, 0x7df77eec, 0x33dec291, 0xf507052f, 0x4eccc9aa, 0xc486da9e, 0x1a11a32c, 0xfed52426]
  {
  }

  lemma QuarterRound6g()
    ensures QuarterRoundAt([0x44ac8600, 0xe23f5411, 0x45d41334, 0x26603906, 0xe9254820, 0xfddd6beb, 0x0e3b8a87, 0xe413c50a,
                            0x348fe7a7, 0x7df77eec, 0x33dec291, 0xf507052f, 0x4eccc9aa, 0xc486da9e, 0x1a11a32c, 0xfed52426],
                           2, 7, 8, 13)
         == [0x44ac8600, 0xe23f5411, 0x5ae80570, 0x26603906, 0xe9254820, 0xfddd6beb, 0x0e3b8a87, 0x8c65a958,
            0x8018e660, 0x7df77eec, 0x33dec291, 0xf507052f, 0x4eccc9aa, 0x48e81158, 0x1a11a32c, 0xfed52426]
  {
  }

  lemma QuarterRound6h()
    ensures QuarterRoundAt([0x44ac8600, 0xe23f5411, 0x5ae80570, 0x26603906, 0xe9254820, 0xfddd6beb, 0x0e3b8a87, 0x8c65a958,
                            0x8018e660, 0x7df77eec, 0x33dec291, 0xf507052f, 0x4eccc9aa, 0x48e81158, 0x1a11a32c, 0xfed52426],
                           3, 4, 9, 14)
         == [0x44ac8600, 0xe23f5411, 0x5ae80570, 0x5d4f85b8, 0x2de236d4, 0xfddd6beb, 0x0e3b8a87, 0x8c65a958,
            0x8018e660, 0xe591c0ff, 0x33dec291, 0xf507052f, 0x4eccc9aa, 0x48e81158, 0x45902c7f, 0xfed52426]
  {
  }

  /** Double round 6 of the vector, one quarter round at a time. */
  lemma DoubleRound6()
    ensures DoubleRound([0xd1de186c, 0xb0c7b93c, 0xd078df04, 0x660e0112, 0x67e36bdb, 0xac30ed15, 0xbd9ed3dd, 0x7851b2cd,
                        0xab33732a, 0xba25d2cf, 0x4ed7a584, 0x5bd1985c, 0xf3168d27, 0x8d87591b, 0x8c80db2f, 0x44367d8c])
         == [0x44ac8600, 0xe23f5411, 0x5ae80570, 0x5d4f85b8, 0x2de236d4, 0xfddd6beb, 0x0e3b8a87, 0x8c65a958,
            0x8018e660, 0xe591c0ff, 0x33dec291, 0xf507052f, 0x4eccc9aa, 0x48e81158, 0x45902c7f, 0xfed52426]
  {
    QuarterRound6a(); QuarterRound6b(); QuarterRound6c(); QuarterRound6d();
    QuarterRound6e(); QuarterRound6f(); QuarterRound6g(); QuarterRound6h();
  }

  lemma QuarterRound7a()
    ensures QuarterRoundAt([0x44ac8600, 0xe23f5411, 0x5ae80570, 0x5d4f85b8, 0x2de236d4, 0xfddd6beb, 0x0e3b8a87, 0x8c65a958,
                            0x8018e660, 0xe591c0ff, 0x33dec291, 0xf507052f, 0x4eccc9aa, 0x48e81158, 0x45902c7f, 0xfed52426],
                           0, 4, 8, 12)
         == [0xc3d62a5b, 0xe23f5411, 0x5ae80570, 0x5d4f85b8, 0x7528efe6, 0xfddd6beb, 0x0e3b8a87, 0x8c65a958,
            0x9dad3c58, 0xe591c0ff, 0x33dec291, 0xf507052f, 0xa81619b6, 0x48e81158, 0x45902c7f, 0xfed52426]
  {
  }

  lemma QuarterRound7b()
    ensures QuarterRoundAt([0xc3d62a5b, 0xe23f5411, 0x5ae80570, 0x5d4f85b8, 0x7528efe6, 0xfddd6beb, 0x0e3b8a87, 0x8c65a958,
                            0x9dad3c58, 0xe591c0ff, 0x33dec291, 0xf507052f, 0xa81619b6, 0x48e81158, 0x45902c7f, 0xfed52426],
                           1, 5, 9, 13)
         == [0xc3d62a5b, 0x903e469a, 0x5ae80570, 0x5d4f85b8, 0x7528efe6, 0x82af57cf, 0x0e3b8a87, 0x8c65a958,
            0x9dad3c58, 0x2f24d831, 0x33dec291, 0xf507052f, 0xa81619b6, 0x9aee6e3e, 0x45902c7f, 0xfed52426]
  {
  }

  lemma QuarterRound7c()
    ensures QuarterRoundAt([0xc3d62a5b, 0x903e469a, 0x5ae80570, 0x5d4f85b8, 0x7528efe6, 0x82af57cf, 0x0e3b8a87, 0x8c65a958,
                            0x9dad3c58, 0x2f24d831, 0x33dec291, 0xf507052f, 0xa81619b6, 0x9aee6e3e, 0x45902c7f, 0xfed52426],
                           2, 6, 10, 14)
         == [0xc3d62a5b, 0x903e469a, 0x3f7fcd8c, 0x5d4f85b8, 0x7528efe6, 0x82af57cf, 0x8a09ba8c, 0x8c65a958,
            0x9dad3c58, 0x2f24d831, 0xcf482ee0, 0xf507052f, 0xa81619b6, 0x9aee6e3e, 0xf7e13f9c, 0xfed52426]
  {
  }

  lemma QuarterRound7d()
    ensures QuarterRoundAt([0xc3d62a5b, 0x903e469a, 0x3f7fcd8c, 0x5d4f85b8, 0x7528efe6, 0x82af57cf, 0x8a09ba8c, 0x8c65a958,
                            0x9dad3c58, 0x2f24d831, 0xcf482ee0, 0xf507052f, 0xa81619b6, 0x9aee6e3e, 0xf7e13f9c, 0xfed52426],
                           3, 7, 11, 15)
         == [0xc3d62a5b, 0x903e469a, 0x3f7fcd8c, 0x7512a7d5, 0x7528efe6, 0x82af57cf, 0x8a09ba8c, 0xd8556457,
            0x9dad3c58, 0x2f24d831, 0xcf482ee0, 0x24edd20d, 0xa81619b6, 0x9aee6e3e, 0xf7e13f9c, 0x24b0b57e]
  {
  }

  lemma QuarterRound7e()
    ensures QuarterRoundAt([0xc3d62a5b, 0x903e469a, 0x3f7fcd8c, 0x7512a7d5, 0x7528efe6, 0x82af57cf, 0x8a09ba8c, 0xd8556457,
                            0x9dad3c58, 0x2f24d831, 0xcf482ee0, 0x24edd20d, 0xa81619b6, 0x9aee6e3e, 0xf7e13f9c, 0x24b0b57e],
                           0, 5, 10, 15)
         == [0x82f32a6d, 0x903e469a, 0x3f7fcd8c, 0x7512a7d5, 0x7528efe6, 0xc4a0c4c8, 0x8a09ba8c, 0xd8556457,
            0x9dad3c58, 0x2f24d831, 0xade4e9ca, 0x24edd20d, 0xa81619b6, 0x9aee6e3e, 0xf7e13f9c, 0xa74858b5]
  {
  }

  lemma QuarterRound7f()
    ensures QuarterRoundAt([0x82f32a6d, 0x903e469a, 0x3f7fcd8c, 0x7512a7d5, 0x7528efe6, 0xc4a0c4c8, 0x8a09ba8c, 0xd8556457,
                            0x9dad3c58, 0x2f24d831, 0xade4e9ca, 0x24edd20d, 0xa81619b6, 0x9aee6e3e, 0xf7e13f9c, 0xa74858b5],
                           1, 6, 11, 12)
         == [0x82f32a6d, 0x8e367c9d, 0x3f7fcd8c, 0x7512a7d5, 0x7528efe6, 0xc4a0c4c8, 0xd199bb4b, 0xd8556457,
            0x9dad3c58, 0x2f24d831, 0xade4e9ca, 0xe44d4801, 0xa6cec396, 0x9aee6e3e, 0xf7e13f9c, 0xa74858b5]
  {
  }

  lemma QuarterRound7g()
    ensures QuarterRoundAt([0x82f32a6d, 0x8e367c9d, 0x3f7fcd8c, 0x7512a7d5, 0x7528efe6, 0xc4a0c4c8, 0xd199bb4b, 0xd8556457,
                            0x9dad3c58, 0x2f24d831, 0xade4e9ca, 0xe44d4801, 0xa6cec396, 0x9aee6e3e, 0xf7e13f9c, 0xa74858b5],
                           2, 7, 8, 13)
         == [0x82f32a6d, 0x8e367c9d, 0x12b17440, 0x7512a7d5, 0x7528efe6, 0xc4a0c4c8, 0xd199bb4b, 0x2c035ec8,
            0x6a8444e0, 0x2f24d831, 0xade4e9ca, 0xe44d4801, 0xa6cec396, 0x6cf97b4d, 0xf7e13f9c, 0xa74858b5]
  {
  }

  lemma QuarterRound7h()
    ensures QuarterRoundAt([0x82f32a6d, 0x8e367c9d, 0x12b17440, 0x7512a7d5, 0x7528efe6, 0xc4a0c4c8, 0xd199bb4b, 0x2c035ec8,
                            0x6a8444e0, 0x2f24d831, 0xade4e9ca, 0xe44d4801, 0xa6cec396, 0x6cf97b4d, 0xf7e13f9c, 0xa74858b5],
                           3, 4, 9, 14)
         == [0x82f32a6d, 0x8e367c9d, 0x12b17440, 0x1bda71e1, 0x9375cc72, 0xc4a0c4c8, 0xd199bb4b, 0x2c035ec8,
            0x6a8444e0, 0xd4b831be, 0xade4e9ca, 0xe44d4801, 0xa6cec396, 0x6cf97b4d, 0xfd6c3bb3, 0xa74858b5]
  {
  }

  /** Double round 7 of the vector, one quarter round at a time. */
  lemma DoubleRound7()
    ensures DoubleRound([0x44ac8600, 0xe23f5411, 0x5ae80570, 0x5d4f85b8, 0x2de236d4, 0xfddd6beb, 0x0e3b8a87, 0x8c65a958,
                        0x8018e660, 0xe591c0ff, 0x33dec291, 0xf507052f, 0x4eccc9aa, 0x48e81158, 0x45902c7f, 0xfed52426])
         == [0x82f32a6d, 0x8e367c9d, 0x12b17440, 0x1bda71e1, 0x9375cc72, 0xc4a0c4c8, 0xd199bb4b, 0x2c035ec8,
            0x6a8444e0, 0xd4b831be, 0xade4e9ca, 0xe44d4801, 0xa6cec396, 0x6cf97b4d, 0xfd6c3bb3, 0xa74858b5]
  {
    QuarterRound7a(); QuarterRound7b(); QuarterRound7c(); QuarterRound7d();
    QuarterRound7e(); QuarterRound7f(); QuarterRound7g(); QuarterRound7h();
  }

  lemma QuarterRound8a()
    ensures QuarterRoundAt([0x82f32a6d, 0x8e367c9d, 0x12b17440, 0x1bda71e1, 0x9375cc72, 0xc4a0c4c8, 0xd199bb4b, 0x2c035ec8,
                            0x6a8444e0, 0xd4b831be, 0xade4e9ca, 0xe44d4801, 0xa6cec396, 0x6cf97b4d, 0xfd6c3bb3, 0xa74858b5],
                           0, 4, 8, 12)
         == [0x9a0837aa, 0x8e367c9d, 0x12b17440, 0x1bda71e1, 0x65217f31, 0xc4a0c4c8, 0xd199bb4b, 0x2c035ec8,
            0xe1550235, 0xd4b831be, 0xade4e9ca, 0xe44d4801, 0x41870caf, 0x6cf97b4d, 0xfd6c3bb3, 0xa74858b5]
  {
  }

  lemma QuarterRound8b()
    ensures QuarterRoundAt([0x9a0837aa, 0x8e367c9d, 0x12b17440, 0x1bda71e1, 0x65217f31, 0xc4a0c4c8, 0xd199bb4b, 0x2c035ec8,
                            0xe1550235, 0xd4b831be, 0xade4e9ca, 0xe44d4801, 0x41870caf, 0x6cf97b4d, 0xfd6c3bb3, 0xa74858b5],
                           1, 5, 9, 13)
         == [0x9a0837aa, 0x5d898e09, 0x12b17440, 0x1bda71e1, 0x65217f31, 0x116dfbdd, 0xd199bb4b, 0x2c035ec8,
            0xe1550235, 0xb0909753, 0xade4e9ca, 0xe44d4801, 0x41870caf, 0xa1b02767, 0xfd6c3bb3, 0xa74858b5]
  {
  }

  lemma QuarterRound8c()
    ensures QuarterRoundAt([0x9a0837aa, 0x5d898e09, 0x12b17440, 0x1bda71e1, 0x65217f31, 0x116dfbdd, 0xd199bb4b, 0x2c035ec8,
                            0xe1550235, 0xb0909753, 0xade4e9ca, 0xe44d4801, 0x41870caf, 0xa1b02767, 0xfd6c3bb3, 0xa74858b5],
                           2, 6, 10, 14)
         == [0x9a0837aa, 0x5d898e09, 0x2fe6d0c3, 0x1bda71e1, 0x65217f31, 0x116dfbdd, 0xbea30a75, 0x2c035ec8,
            0xe1550235, 0xb0909753, 0xa0e6e72c, 0xe44d4801, 0x41870caf, 0xa1b02767, 0xdec9e43b, 0xa74858b5]
  {
  }

  lemma QuarterRound8d()
    ensures QuarterRoundAt([0x9a0837aa, 0x5d898e09, 0x2fe6d0c3, 0x1bda71e1, 0x65217f31, 0x116dfbdd, 0xbea30a75, 0x2c035ec8,
                            0xe1550235, 0xb0909753, 0xa0e6e72c, 0xe44d4801, 0x41870caf, 0xa1b02767, 0xdec9e43b, 0xa74858b5],
                           3, 7, 11, 15)
         == [0x9a0837aa, 0x5d898e09, 0x2fe6d0c3, 0xdf43b4af, 0x65217f31, 0x116dfbdd, 0xbea30a75, 0x6dc375ae,
            0xe1550235, 0xb0909753, 0xa0e6e72c, 0xcbbe62ed, 0x41870caf, 0xa1b02767, 0xdec9e43b, 0x5f543a57]
  {
  }

  lemma QuarterRound8e()
    ensures QuarterRoundAt([0x9a0837aa, 0x5d898e09, 0x2fe6d0c3, 0xdf43b4af, 0x65217f31, 0x116dfbdd, 0xbea30a75, 0x6dc375ae,
                            0xe1550235, 0xb0909753, 0xa0e6e72c, 0xcbbe62ed, 0x41870caf, 0xa1b02767, 0xdec9e43b, 0x5f543a57],
                           0, 5, 10, 15)
         == [0x4d7f6f44, 0x5d898e09, 0x2fe6d0c3, 0xdf43b4af, 0x65217f31, 0x2d3d17fc, 0xbea30a75, 0x6dc375ae,
            0xe1550235, 0xb0909753, 0x5a534192, 0xcbbe62ed, 0x41870caf, 0xa1b02767, 0xdec9e43b, 0xaf9b6644]
  {
  }

  lemma QuarterRound8f()
    ensures QuarterRoundAt([0x4d7f6f44, 0x5d898e09, 0x2fe6d0c3, 0xdf43b4af, 0x65217f31, 0x2d3d17fc, 0xbea30a75, 0x6dc375ae,
                            0xe1550235, 0xb0909753, 0x5a534192, 0xcbbe62ed, 0x41870caf, 0xa1b02767, 0xdec9e43b, 0xaf9b6644],
                           1, 6, 11, 12)
         == [0x4d7f6f44, 0xe8db7660, 0x2fe6d0c3, 0xdf43b4af, 0x65217f31, 0x2d3d17fc, 0x0aa8fb53, 0x6dc375ae,
            0xe1550235, 0xb0909753, 0x5a534192, 0x6abb8c14, 0x0a2bcb7c, 0xa1b02767, 0xdec9e43b, 0xaf9b6644]
  {
  }

  lemma QuarterRound8g()
    ensures QuarterRoundAt([0x4d7f6f44, 0xe8db7660, 0x2fe6d0c3, 0xdf43b4af, 0x65217f31, 0x2d3d17fc, 0x0aa8fb53, 0x6dc375ae,
                            0xe1550235, 0xb0909753, 0x5a534192, 0x6abb8c14, 0x0a2bcb7c, 0xa1b02767, 0xdec9e43b, 0xaf9b6644],
                           2, 7, 8, 13)
         == [0x4d7f6f44, 0xe8db7660, 0x2268596b, 0xdf43b4af, 0x65217f31, 0x2d3d17fc, 0x0aa8fb53, 0x375eb422,
            0xc0d0af92, 0xb0909753, 0x5a534192, 0x6abb8c14, 0x0a2bcb7c, 0x7e657143, 0xdec9e43b, 0xaf9b6644]
  {
  }

  lemma QuarterRound8h()
    ensures QuarterRoundAt([0x4d7f6f44, 0xe8db7660, 0x2268596b, 0xdf43b4af, 0x65217f31, 0x2d3d17fc, 0x0aa8fb53, 0x375eb422,
                            0xc0d0af92, 0xb0909753, 0x5a534192, 0x6abb8c14, 0x0a2bcb7c, 0x7e657143, 0xdec9e43b, 0xaf9b6644],
                           3, 4, 9, 14)
         == [0x4d7f6f44, 0xe8db7660, 0x2268596b, 0x195222b4, 0x64520ce3, 0x2d3d17fc, 0x0aa8fb53, 0x375eb422,
            0xc0d0af92, 0x12244acd, 0x5a534192, 0x6abb8c14, 0x0a2bcb7c, 0x7e657143, 0x89b818ce, 0xaf9b6644]
  {
  }

  /** Double round 8 of the vector, one quarter round at a time. */
  lemma DoubleRound8()
    ensures DoubleRound([0x82f32a6d, 0x8e367c9d, 0x12b17440, 0x1bda71e1, 0x9375cc72, 0xc4a0c4c8, 0xd199bb4b, 0x2c035ec8,
                        0x6a8444e0, 0xd4b831be, 0xade4e9ca, 0xe44d4801, 0xa6cec396, 0x6cf97b4d, 0xfd6c3bb3, 0xa74858b5])
         == [0x4d7f6f44, 0xe8db7660, 0x2268596b, 0x195222b4, 0x64520ce3, 0x2d3d17fc, 0x0aa8fb53, 0x375eb422,
            0xc0d0af92, 0x12244acd, 0x5a534192, 0x6abb8c14, 0x0a2bcb7c, 0x7e657143, 0x89b818ce, 0xaf9b6644]
  {
    QuarterRound8a(); QuarterRound8b(); QuarterRound8c(); QuarterRound8d();
    QuarterRound8e(); QuarterRound8f(); QuarterRound8g(); QuarterRound8h();
  }

  lemma QuarterRound9a()
    ensures QuarterRoundAt([0x4d7f6f44, 0xe8db7660, 0x2268596b, 0x195222b4, 0x64520ce3, 0x2d3d17fc, 0x0aa8fb53, 0x375eb422,
                            0xc0d0af92, 0x12244acd, 0x5a534192, 0x6abb8c14, 0x0a2bcb7c, 0x7e657143, 0x89b818ce, 0xaf9b6644],
                           0, 4, 8, 12)
         == [0x98486dee, 0xe8db7660, 0x2268596b, 0x195222b4, 0x3a473e35, 0x2d3d17fc, 0x0aa8fb53, 0x375eb422,
            0x8c027fbb, 0x12244acd, 0x5a534192, 0x6abb8c14, 0x13d6142f, 0x7e657143, 0x89b818ce, 0xaf9b6644]
  {
  }

  lemma QuarterRound9b()
    ensures QuarterRoundAt([0x98486dee, 0xe8db7660, 0x2268596b, 0x195222b4, 0x3a473e35, 0x2d3d17fc, 0x0aa8fb53, 0x375eb422,
                            0x8c027fbb, 0x12244acd, 0x5a534192, 0x6abb8c14, 0x13d6142f, 0x7e657143, 0x89b818ce, 0xaf9b6644],
                           1, 5, 9, 13)
         == [0x98486dee, 0x0063f223, 0x2268596b, 0x195222b4, 0x3a473e35, 0xcab8c733, 0x0aa8fb53, 0x375eb422,
            0x8c027fbb, 0x8dde1249, 0x5a534192, 0x6abb8c14, 0x13d6142f, 0x7c9a5eff, 0x89b818ce, 0xaf9b6644]
  {
  }

  lemma QuarterRound9c()
    ensures QuarterRoundAt([0x98486dee, 0x0063f223, 0x2268596b, 0x195222b4, 0x3a473e35, 0xcab8c733, 0x0aa8fb53, 0x375eb422,
                            0x8c027fbb, 0x8dde1249, 0x5a534192, 0x6abb8c14, 0x13d6142f, 0x7c9a5eff, 0x89b818ce, 0xaf9b6644],
                           2, 6, 10, 14)
         == [0x98486dee, 0x0063f223, 0xdee7df84, 0x195222b4, 0x3a473e35, 0xcab8c733, 0xf4cc85c7, 0x375eb422,
            0x8c027fbb, 0x8dde1249, 0x3e3f13cd, 0x6abb8c14, 0x13d6142f, 0x7c9a5eff, 0x977b2d92, 0xaf9b6644]
  {
  }

  lemma QuarterRound9d()
    ensures QuarterRoundAt([0x98486dee, 0x0063f223, 0xdee7df84, 0x195222b4, 0x3a473e35, 0xcab8c733, 0xf4cc85c7, 0x375eb422,
                            0x8c027fbb, 0x8dde1249, 0x3e3f13cd, 0x6abb8c14, 0x13d6142f, 0x7c9a5eff, 0x977b2d92, 0xaf9b6644],
                           3, 7, 11, 15)
         == [0x98486dee, 0x0063f223, 0xdee7df84, 0x54a2a997, 0x3a473e35, 0xcab8c733, 0xf4cc85c7, 0x2a4d7124,
            0x8c027fbb, 0x8dde1249, 0x3e3f13cd, 0x4ba54823, 0x13d6142f, 0x7c9a5eff, 0x977b2d92, 0x3056bce4]
  {
  }

  lemma QuarterRound9e()
    ensures QuarterRoundAt([0x98486dee, 0x0063f223, 0xdee7df84, 0x54a2a997, 0x3a473e35, 0xcab8c733, 0xf4cc85c7, 0x2a4d7124,
                            0x8c027fbb, 0x8dde1249, 0x3e3f13cd, 0x4ba54823, 0x13d6142f, 0x7c9a5eff, 0x977b2d92, 0x3056bce4],
                           0, 5, 10, 15)
         == [0x2d02a54c, 0x0063f223, 0xdee7df84, 0x54a2a997, 0x3a473e35, 0xfdf971a2, 0xf4cc85c7, 0x2a4d7124,
            0x8c027fbb, 0x8dde1249, 0x8ffa82c8, 0x4ba54823, 0x13d6142f, 0x7c9a5eff, 0x977b2d92, 0xc7f61ba4]
  {
  }

  lemma QuarterRound9f()
    ensures QuarterRoundAt([0x2d02a54c, 0x0063f223, 0xdee7df84, 0x54a2a997, 0x3a473e35, 0xfdf971a2, 0xf4cc85c7, 0x2a4d7124,
                            0x8c027fbb, 0x8dde1249, 0x8ffa82c8, 0x4ba54823, 0x13d6142f, 0x7c9a5eff, 0x977b2d92, 0xc7f61ba4],
                           1, 6, 11, 12)
         == [0x2d02a54c, 0x6fdd5da4, 0xdee7df84, 0x54a2a997, 0x3a473e35, 0xfdf971a2, 0x454a57d9, 0x2a4d7124,
            0x8c027fbb, 0x8dde1249, 0x8ffa82c8, 0xc8267115, 0x18bb420c, 0x7c9a5eff, 0x977b2d92, 0xc7f61ba4]
  {
  }

  lemma QuarterRound9g()
    ensures QuarterRoundAt([0x2d02a54c, 0x6fdd5da4, 0xdee7df84, 0x54a2a997, 0x3a473e35, 0xfdf971a2, 0x454a57d9, 0x2a4d7124,
                            0x8c027fbb, 0x8dde1249, 0x8ffa82c8, 0xc8267115, 0x18bb420c, 0x7c9a5eff, 0x977b2d92, 0xc7f61ba4],
                           2, 7, 8, 13)
         == [0x2d02a54c, 0x6fdd5da4, 0x517a3ba9, 0x54a2a997, 0x3a473e35, 0xfdf971a2, 0x454a57d9, 0xf1886447,
            0xc7a7fbc9, 0x8dde1249, 0x8ffa82c8, 0xc8267115, 0x18bb420c, 0x2d4e065f, 0x977b2d92, 0xc7f61ba4]
  {
  }

  lemma QuarterRound9h()
    ensures QuarterRoundAt([0x2d02a54c, 0x6fdd5da4, 0x517a3ba9, 0x54a2a997, 0x3a473e35, 0xfdf971a2, 0x454a57d9, 0xf1886447,
                            0xc7a7fbc9, 0x8dde1249, 0x8ffa82c8, 0xc8267115, 0x18bb420c, 0x2d4e065f, 0x977b2d92, 0xc7f61ba4],
                           3, 4, 9, 14)
         == [0x2d02a54c, 0x6fdd5da4, 0x517a3ba9, 0x4048cdf3, 0x2735a16f, 0xfdf971a2, 0x454a57d9, 0xf1886447,
            0xc7a7fbc9, 0x6f108d65, 0x8ffa82c8, 0xc8267115, 0x18bb420c, 0x2d4e065f, 0x16d4618a, 0xc7f61ba4]
  {
  }

  /** Double round 9 of the vector, one quarter round at a time. */
  lemma DoubleRound9()
    ensures DoubleRound([0x4d7f6f44, 0xe8db7660, 0x2268596b, 0x195222b4, 0x64520ce3, 0x2d3d17fc, 0x0aa8fb53, 0x375eb422,
                        0xc0d0af92, 0x12244acd, 0x5a534192, 0x6abb8c14, 0x0a2bcb7c, 0x7e657143, 0x89b818ce, 0xaf9b6644])
         == [0x2d02a54c, 0x6fdd5da4, 0x517a3ba9, 0x4048cdf3, 0x2735a16f, 0xfdf971a2, 0x454a57d9, 0xf1886447,
            0xc7a7fbc9, 0x6f108d65, 0x8ffa82c8, 0xc8267115, 0x18bb420c, 0x2d4e065f, 0x16d4618a, 0xc7f61ba4]
  {
    QuarterRound9a(); QuarterRound9b(); QuarterRound9c(); QuarterRound9d();
    QuarterRound9e(); QuarterRound9f(); QuarterRound9g(); QuarterRound9h();
  }

  lemma QuarterRound10a()
    ensures QuarterRoundAt([0x2d02a54c, 0x6fdd5da4, 0x517a3ba9, 0x4048cdf3, 0x2735a16f, 0xfdf971a2, 0x454a57d9, 0xf1886447,
                            0xc7a7fbc9, 0x6f108d65, 0x8ffa82c8, 0xc8267115, 0x18bb420c, 0x2d4e065f, 0x16d4618a, 0xc7f61ba4],
                           0, 4, 8, 12)
         == [0x02ca8571, 0x6fdd5da4, 0x517a3ba9, 0x4048cdf3, 0x5d827272, 0xfdf971a2, 0x454a57d9, 0xf1886447,
            0x4a293a52, 0x6f108d65, 0x8ffa82c8, 0xc8267115, 0x7dc9f206, 0x2d4e065f, 0x16d4618a, 0xc7f61ba4]
  {
  }

  lemma QuarterRound10b()
    ensures QuarterRoundAt([0x02ca8571, 0x6fdd5da4, 0x517a3ba9, 0x4048cdf3, 0x5d827272, 0xfdf971a2, 0x454a57d9, 0xf1886447,
                            0x4a293a52, 0x6f108d65, 0x8ffa82c8, 0xc8267115, 0x7dc9f206, 0x2d4e065f, 0x16d4618a, 0xc7f61ba4],
                           1, 5, 9, 13)
         == [0x02ca8571, 0x799ccba3, 0x517a3ba9, 0x4048cdf3, 0x5d827272, 0x387af85b, 0x454a57d9, 0xf1886447,
            0x4a293a52, 0xbdb509ad, 0x8ffa82c8, 0xc8267115, 0x7dc9f206, 0x858b3bb0, 0x16d4618a, 0xc7f61ba4]
  {
  }

  lemma QuarterRound10c()
    ensures QuarterRoundAt([0x02ca8571, 0x799ccba3, 0x517a3ba9, 0x4048cdf3, 0x5d827272, 0x387af85b, 0x454a57d9, 0xf1886447,
                            0x4a293a52, 0xbdb509ad, 0x8ffa82c8, 0xc8267115, 0x7dc9f206, 0x858b3bb0, 0x16d4618a, 0xc7f61ba4],
                           2, 6, 10, 14)
         == [0x02ca8571, 0x799ccba3, 0x2c14aff6, 0x4048cdf3, 0x5d827272, 0x387af85b, 0xb17ae105, 0xf1886447,
            0x4a293a52, 0xbdb509ad, 0x9e32e9b6, 0xc8267115, 0x7dc9f206, 0x858b3bb0, 0x1c2fe6de, 0xc7f61ba4]
  {
  }

  lemma QuarterRound10d()
    ensures QuarterRoundAt([0x02ca8571, 0x799ccba3, 0x2c14aff6, 0x4048cdf3, 0x5d827272, 0x387af85b, 0xb17ae105, 0xf1886447,
                            0x4a293a52, 0xbdb509ad, 0x9e32e9b6, 0xc8267115, 0x7dc9f206, 0x858b3bb0, 0x1c2fe6de, 0xc7f61ba4],
                           3, 7, 11, 15)
         == [0x02ca8571, 0x799ccba3, 0x2c14aff6, 0x0208e23e, 0x5d827272, 0x387af85b, 0xb17ae105, 0xf71831ab,
            0x4a293a52, 0xbdb509ad, 0x9e32e9b6, 0x87d98067, 0x7dc9f206, 0x858b3bb0, 0x1c2fe6de, 0x9614192b]
  {
  }

  lemma QuarterRound10e()
    ensures QuarterRoundAt([0x02ca8571, 0x799ccba3, 0x2c14aff6, 0x0208e23e, 0x5d827272, 0x387af85b, 0xb17ae105, 0xf71831ab,
                            0x4a293a52, 0xbdb509ad, 0x9e32e9b6, 0x87d98067, 0x7dc9f206, 0x858b3bb0, 0x1c2fe6de, 0x9614192b],
                           0, 5, 10, 15)
         == [0x423b4182, 0x799ccba3, 0x2c14aff6, 0x0208e23e, 0x5d827272, 0x7954cdf3, 0xb17ae105, 0xf71831ab,
            0x4a293a52, 0xbdb509ad, 0xe0076a2d, 0x87d98067, 0x7dc9f206, 0x858b3bb0, 0x1c2fe6de, 0xdcecd326]
  {
  }

  lemma QuarterRound10f()
    ensures QuarterRoundAt([0x423b4182, 0x799ccba3, 0x2c14aff6, 0x0208e23e, 0x5d827272, 0x7954cdf3, 0xb17ae105, 0xf71831ab,
                            0x4a293a52, 0xbdb509ad, 0xe0076a2d, 0x87d98067, 0x7dc9f206, 0x858b3bb0, 0x1c2fe6de, 0xdcecd326],
                           1, 6, 11, 12)
         == [0x423b4182, 0xfe7bb227, 0x2c14aff6, 0x0208e23e, 0x5d827272, 0x7954cdf3, 0x846acd37, 0xf71831ab,
            0x4a293a52, 0xbdb509ad, 0xe0076a2d, 0xbc6cd0e5, 0xd5e4f9a0, 0x858b3bb0, 0x1c2fe6de, 0xdcecd326]
  {
  }

  lemma QuarterRound10g()
    ensures QuarterRoundAt([0x423b4182, 0xfe7bb227, 0x2c14aff6, 0x0208e23e, 0x5d827272, 0x7954cdf3, 0x846acd37, 0xf71831ab,
                            0x4a293a52, 0xbdb509ad, 0xe0076a2d, 0xbc6cd0e5, 0xd5e4f9a0, 0x858b3bb0, 0x1c2fe6de, 0xdcecd326],
                           2, 7, 8, 13)
         == [0x423b4182, 0xfe7bb227, 0x50420ed3, 0x0208e23e, 0x5d827272, 0x7954cdf3, 0x846acd37, 0x7b3c58ad,
            0x77e35583, 0xbdb509ad, 0xe0076a2d, 0xbc6cd0e5, 0xd5e4f9a0, 0x53a8748a, 0x1c2fe6de, 0xdcecd326]
  {
  }

  lemma QuarterRound10h()
    ensures QuarterRoundAt([0x423b4182, 0xfe7bb227, 0x50420ed3, 0x0208e23e, 0x5d827272, 0x7954cdf3, 0x846acd37, 0x7b3c58ad,
                            0x77e35583, 0xbdb509ad, 0xe0076a2d, 0xbc6cd0e5, 0xd5e4f9a0, 0x53a8748a, 0x1c2fe6de, 0xdcecd326],
                           3, 4, 9, 14)
         == [0x423b4182, 0xfe7bb227, 0x50420ed3, 0x737d878a, 0x0aa76448, 0x7954cdf3, 0x846acd37, 0x7b3c58ad,
            0x77e35583, 0x83e77c12, 0xe0076a2d, 0xbc6cd0e5, 0xd5e4f9a0, 0x53a8748a, 0x13c42ec1, 0xdcecd326]
  {
  }

  /** Double round 10 of the vector, one quarter round at a time. */
  lemma DoubleRound10()
    ensures DoubleRound([0x2d02a54c, 0x6fdd5da4, 0x517a3ba9, 0x4048cdf3, 0x2735a16f, 0xfdf971a2, 0x454a57d9, 0xf1886447,
                        0xc7a7fbc9, 0x6f108d65, 0x8ffa82c8, 0xc8267115, 0x18bb420c, 0x2d4e065f, 0x16d4618a, 0xc7f61ba4])
         == [0x423b4182, 0xfe7bb227, 0x50420ed3, 0x737d878a, 0x0aa76448, 0x7954cdf3, 0x846acd37, 0x7b3c58ad,
            0x77e35583, 0x83e77c12, 0xe0076a2d, 0xbc6cd0e5, 0xd5e4f9a0, 0x53a8748a, 0x13c42ec1, 0xdcecd326]
  {
    QuarterRound10a(); QuarterRound10b(); QuarterRound10c(); QuarterRound10d();
    QuarterRound10e(); QuarterRound10f(); QuarterRound10g(); QuarterRound10h();
  }
}
