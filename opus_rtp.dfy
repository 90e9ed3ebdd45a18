/** The voice sender: Opus frames in RTP packets with payload type 0x78,
    encrypted with XChaCha20-Poly1305 under a 24-byte nonce that carries a
    per-streamer counter in its first four bytes; the packet is the clear
    header, the ciphertext with its tag, and those four counter bytes. */
module OpusRtp {
  import opened Bytes
  import opened RtpHeader
  import opened Sodium

  const OPUS_PT: byte := 0x78
  /** 20 ms of audio at 48 kHz. */
  const FRAME_SAMPLES: nat := 960
  const COUNTER_LEN: nat := 4

  /** The sequence number after a frame: `(s + 1) & 0xFFFF`. */
  function NextSequence(s: nat): (r: nat)
    ensures r < TWO_16
  {
    (s + 1) % TWO_16
  }

  /** The timestamp after a frame, wrapping like a Java `int`. */
  function NextTimestamp(t: nat): (r: nat)
    ensures r < TWO_32
  {
    (t + FRAME_SAMPLES) % TWO_32
  }

  /** The nonce counter after a frame: `getAndIncrement` wraps too. */
  function NextCounter(c: nat): (r: nat)
    ensures r < TWO_32
  {
    (c + 1) % TWO_32
  }

  /** The first timestamp: the wall clock in milliseconds cut to 32 bits
      (the `& 0xFFFFFFFF` on a `long` keeps every bit, the `(int)` cast keeps
      the low 32). */
  function InitialTimestamp(millis: nat): (r: nat)
    ensures r < TWO_32
  {
    millis % TWO_32
  }

  /** The 24-byte nonce of the frame sent with counter value `counter`: the
      counter big-endian, then zeros. */
  function FrameNonce(counter: nat): (r: seq<byte>)
    requires counter < TWO_32
    ensures |r| == NONCE24_LEN
  {
    BE32(counter) + Zeros(20)
  }

  /** What `sendFrame` hands to the socket, or `None` when encryption throws
      and nothing is sent. */
  function FramePacket(sequence: nat, timestamp: nat, ssrc: nat, counter: nat, frame: seq<byte>,
                       key: seq<byte>, aead: Aead): Option<seq<byte>>
    requires counter < TWO_32
  {
    var header := Header(OPUS_PT, sequence, timestamp, ssrc);
    match XChaChaSeal(frame, header, FrameNonce(counter), key, aead)
    case None => None
    case Some(encrypted) => Some(header + encrypted + BE32(counter))
  }

  /** A sent packet reads back as an Opus RTP header with the frame's
      counters, ends in the nonce counter, and with a 16-byte tag is 32 bytes
      longer than the frame. Nothing is sent exactly when the key is shorter
      than 32 bytes. */
  lemma FramePacketLayout(sequence: nat, timestamp: nat, ssrc: nat, counter: nat, frame: seq<byte>,
                          key: seq<byte>, aead: Aead)
    requires counter < TWO_32
    ensures FramePacket(sequence, timestamp, ssrc, counter, frame, key, aead).None? <==> |key| < KEY_LEN
    ensures FramePacket(sequence, timestamp, ssrc, counter, frame, key, aead).Some? ==>
              var p := FramePacket(sequence, timestamp, ssrc, counter, frame, key, aead).value;
              |p| >= HEADER_LEN + COUNTER_LEN
              && Parse(p) == Some(Fields(2, OPUS_PT, sequence % TWO_16, timestamp % TWO_32, ssrc % TWO_32))
              && ReadBE32(p, |p| - COUNTER_LEN) == counter
              && (AppendsAeadTag(aead) ==> |p| == HEADER_LEN + |frame| + TAG_LEN + COUNTER_LEN)
  {
    var header := Header(OPUS_PT, sequence, timestamp, ssrc);
    SealOutcome(frame, header, FrameNonce(counter), key, aead);
    var r := XChaChaSeal(frame, header, FrameNonce(counter), key, aead);
    if r.Some? {
      var p := header + r.value + BE32(counter);
      ParseHeader(OPUS_PT, sequence, timestamp, ssrc, r.value + BE32(counter));
      assert p == header + (r.value + BE32(counter));
      ReadBE32At(header + r.value, counter, []);
      assert p == header + r.value + BE32(counter) + [];
    }
  }

  /** The 12-byte ChaCha20 nonce of every voice packet is all zeros: the
      counter only reaches the subkey derivation. */
  lemma FrameNonce12IsZero(counter: nat)
    requires counter < TWO_32
    ensures Nonce12(FrameNonce(counter)) == Zeros(12)
  {
    CounterNonce(BE32(counter));
  }

  /** Distinct counter values give distinct nonces. */
  lemma FrameNonceInjective(c1: nat, c2: nat)
    requires c1 < TWO_32 && c2 < TWO_32 && c1 != c2
    ensures FrameNonce(c1) != FrameNonce(c2)
  {
    ReadBE32At([], c1, Zeros(20));
    ReadBE32At([], c2, Zeros(20));
    assert [] + BE32(c1) + Zeros(20) == FrameNonce(c1);
    assert [] + BE32(c2) + Zeros(20) == FrameNonce(c2);
  }

  /** Frames `i` and `j` of one run of up to 2^32 frames never share a
      nonce, and neither do frames of later runs, because `start` does not
      reset the counter. */
  lemma NoncesNeverRepeat(c0: nat, i: nat, j: nat)
    requires i < j < TWO_32
    ensures FrameNonce((c0 + i) % TWO_32) != FrameNonce((c0 + j) % TWO_32)
  {
    FrameNonceInjective((c0 + i) % TWO_32, (c0 + j) % TWO_32);
  }

  /** What one `sendFrame` call of a run works with: the counters it was
      handed and the frame. */
  datatype Slot = Slot(sequence: nat, timestamp: nat, counter: nat, frame: seq<byte>)

  /** The calls of a run over `frames`: the first with the counters `s0`,
      `t0`, `c0`, each later one with the counters advanced once more. */
  function Slots(frames: seq<seq<byte>>, s0: nat, t0: nat, c0: nat): (r: seq<Slot>)
    ensures |r| == |frames|
    ensures forall k :: 0 <= k < |r| ==> r[k].counter < TWO_32
  {
    seq(|frames|, k requires 0 <= k < |frames| =>
      Slot((s0 + k) % TWO_16, (t0 + FRAME_SAMPLES * k) % TWO_32, (c0 + k) % TWO_32, frames[k]))
  }

  lemma SlotsSnoc(frames: seq<seq<byte>>, i: nat, s0: nat, t0: nat, c0: nat)
    requires i < |frames|
    ensures Slots(frames[..i + 1], s0, t0, c0)
         == Slots(frames[..i], s0, t0, c0)
            + [Slot((s0 + i) % TWO_16, (t0 + FRAME_SAMPLES * i) % TWO_32, (c0 + i) % TWO_32, frames[i])]
  {
    var a := Slots(frames[..i + 1], s0, t0, c0);
    var b := Slots(frames[..i], s0, t0, c0)
             + [Slot((s0 + i) % TWO_16, (t0 + FRAME_SAMPLES * i) % TWO_32, (c0 + i) % TWO_32, frames[i])];
    assert |a| == |b|;
    forall k | 0 <= k < |a| ensures a[k] == b[k] {
      assert frames[..i + 1][k] == frames[k];
      if k < i {
        assert frames[..i][k] == frames[k];
      }
    }
  }

  /** The outcome of each call of a run. */
  function Packets(slots: seq<Slot>, ssrc: nat, key: seq<byte>, aead: Aead): (r: seq<Option<seq<byte>>>)
    requires forall k :: 0 <= k < |slots| ==> slots[k].counter < TWO_32
    ensures |r| == |slots|
  {
    seq(|slots|, k requires 0 <= k < |slots| =>
      FramePacket(slots[k].sequence, slots[k].timestamp, ssrc, slots[k].counter, slots[k].frame, key, aead))
  }

  lemma PacketsAppend(a: seq<Slot>, b: seq<Slot>, ssrc: nat, key: seq<byte>, aead: Aead)
    requires forall k :: 0 <= k < |a| ==> a[k].counter < TWO_32
    requires forall k :: 0 <= k < |b| ==> b[k].counter < TWO_32
    ensures Packets(a + b, ssrc, key, aead) == Packets(a, ssrc, key, aead) + Packets(b, ssrc, key, aead)
  {
    var l, r := Packets(a + b, ssrc, key, aead), Packets(a, ssrc, key, aead) + Packets(b, ssrc, key, aead);
    assert |l| == |r|;
    forall k | 0 <= k < |l| ensures l[k] == r[k] {
      if k < |a| {
        assert (a + b)[k] == a[k];
      } else {
        assert (a + b)[k] == b[k - |a|];
      }
    }
  }

  lemma PacketsOne(x: Slot, ssrc: nat, key: seq<byte>, aead: Aead)
    requires x.counter < TWO_32
    ensures Packets([x], ssrc, key, aead) == [FramePacket(x.sequence, x.timestamp, ssrc, x.counter, x.frame, key, aead)]
  {
  }

  /** The packets of a run over `frames`. */
  function FramePackets(frames: seq<seq<byte>>, s0: nat, t0: nat, ssrc: nat, c0: nat,
                        key: seq<byte>, aead: Aead): (r: seq<Option<seq<byte>>>)
    ensures |r| == |frames|
  {
    Packets(Slots(frames, s0, t0, c0), ssrc, key, aead)
  }

  /** One more call of a run, made with the counters advanced `i` times:
      its packet extends the run's, and the counters it leaves behind are
      those advanced `i + 1` times. */
  lemma FramePacketsStep(frames: seq<seq<byte>>, i: nat, s0: nat, t0: nat, ssrc: nat, c0: nat,
                         key: seq<byte>, aead: Aead, sequence: nat, timestamp: nat, counter: nat)
    requires i < |frames|
    requires sequence == (s0 + i) % TWO_16 && timestamp == (t0 + FRAME_SAMPLES * i) % TWO_32
    requires counter == (c0 + i) % TWO_32
    ensures FramePackets(frames[..i + 1], s0, t0, ssrc, c0, key, aead)
         == FramePackets(frames[..i], s0, t0, ssrc, c0, key, aead)
            + Packets([Slot(sequence, timestamp, counter, frames[i])], ssrc, key, aead)
    ensures NextSequence(sequence) == (s0 + (i + 1)) % TWO_16
    ensures NextTimestamp(timestamp) == (t0 + FRAME_SAMPLES * (i + 1)) % TWO_32
    ensures NextCounter(counter) == (c0 + (i + 1)) % TWO_32
  {
    SlotsSnoc(frames, i, s0, t0, c0);
    PacketsAppend(Slots(frames[..i], s0, t0, c0), [Slot(sequence, timestamp, counter, frames[i])], ssrc, key, aead);
    CounterAdvance16(s0, i);
    TimestampAdvance(t0, i);
    CounterAdvance32(c0, i);
  }

  /** How many frames `takeWhile` lets through when the connection flag
      reads `connected[k]` as frame `k` arrives. */
  function ConnectedPrefix(connected: seq<bool>): (n: nat)
    ensures n <= |connected|
    ensures forall k :: 0 <= k < n ==> connected[k]
    ensures n < |connected| ==> !connected[n]
  {
    if |connected| == 0 || !connected[0] then 0 else 1 + ConnectedPrefix(connected[1..])
  }

  /** The prefix is exactly the run of leading `true` flags. */
  lemma {:induction false} ConnectedPrefixIs(connected: seq<bool>, n: nat)
    requires n <= |connected| && forall k :: 0 <= k < n ==> connected[k]
    requires n < |connected| ==> !connected[n]
    ensures ConnectedPrefix(connected) == n
  {
    if n > 0 {
      ConnectedPrefixIs(connected[1..], n - 1);
    }
  }

  /** One more frame on a counter advanced `i` times. */
  lemma CounterAdvance16(x0: nat, i: nat)
    ensures NextSequence((x0 + i) % TWO_16) == (x0 + (i + 1)) % TWO_16
  {
  }

  lemma TimestampAdvance(t0: nat, i: nat)
    ensures NextTimestamp((t0 + FRAME_SAMPLES * i) % TWO_32) == (t0 + FRAME_SAMPLES * (i + 1)) % TWO_32
  {
    assert t0 + FRAME_SAMPLES * (i + 1) == (t0 + FRAME_SAMPLES * i) + FRAME_SAMPLES;
  }

  lemma CounterAdvance32(c0: nat, i: nat)
    ensures NextCounter((c0 + i) % TWO_32) == (c0 + (i + 1)) % TWO_32
  {
  }

  class OpusStreamer {
    const ssrc: nat
    const secretKey: seq<byte>
    /** Never reset: it keeps counting across `start` calls. */
    var nonceCounter: nat
    /** The `seq` and `ts` counters of the current subscription. */
    var sequence: nat
    var timestamp: nat
    var streaming: bool
    /** The outcome of every `sendFrame` call: the datagram handed to the
        socket, or `None` when nothing was sent. */
    var sent: seq<Option<seq<byte>>>

    ghost predicate Valid()
      reads this
    {
      ssrc < TWO_32 && nonceCounter < TWO_32 && sequence < TWO_16 && timestamp < TWO_32
    }

    constructor (ssrc: nat, secretKey: seq<byte>)
      requires ssrc < TWO_32
      ensures Valid() && this.ssrc == ssrc && this.secretKey == secretKey
      ensures nonceCounter == 0 && !streaming && sent == []
    {
      this.ssrc := ssrc;
      this.secretKey := secretKey;
      nonceCounter := 0;
      sequence := 0;
      timestamp := 0;
      streaming := false;
      sent := [];
    }

    /** `start`: new counters (sequence 0, timestamp from the clock reading
        `millis`), any previous subscription ended; the nonce counter carries
        on. */
    method Start(millis: nat)
      requires Valid()
      modifies this
      ensures Valid() && streaming
      ensures sequence == 0 && timestamp == InitialTimestamp(millis)
      ensures nonceCounter == old(nonceCounter) && sent == old(sent)
    {
      var s := 0;
      var t := InitialTimestamp(millis);
      Stop();
      sequence, timestamp := s, t;
      streaming := true;
    }

    /** `stop`: disposes the subscription if one is live; a second call
        changes nothing. */
    method Stop()
      modifies this
      ensures !streaming
      ensures sequence == old(sequence) && timestamp == old(timestamp)
      ensures nonceCounter == old(nonceCounter) && sent == old(sent)
    {
      if streaming {
        streaming := false;
      }
    }

    /** `createRtpHeader`. */
    method CreateRtpHeader(sequence: nat, timestamp: nat) returns (rtp: array<byte>)
      ensures fresh(rtp) && rtp[..] == Header(OPUS_PT, sequence, timestamp, ssrc)
    {
      var header := Header(OPUS_PT, sequence, timestamp, ssrc);
      rtp := new byte[HEADER_LEN](i requires 0 <= i < HEADER_LEN => header[i]);
      assert rtp[..] == header;
    }

    /** `sendFrame`: takes the next nonce counter value even when the send
        then fails. */
    method SendFrame(sequence: nat, timestamp: nat, opusFrame: seq<byte>, aead: Aead)
      requires Valid()
      modifies this
      ensures Valid() && nonceCounter == NextCounter(old(nonceCounter))
      ensures sent == old(sent) + [FramePacket(sequence, timestamp, ssrc, old(nonceCounter), opusFrame, secretKey, aead)]
      ensures this.sequence == old(this.sequence) && this.timestamp == old(this.timestamp)
      ensures streaming == old(streaming)
    {
      var rtp := CreateRtpHeader(sequence, timestamp);
      var counter := nonceCounter;
      nonceCounter := NextCounter(nonceCounter);
      var nonce := NewFrameNonce(counter);
      var encrypted := Encrypt(opusFrame, rtp[..], nonce[..], secretKey, aead);
      if encrypted.None? {
        sent := sent + [None];
        return;
      }
      var packet := AssemblePacket(rtp[..], encrypted.value, nonce[..]);
      sent := sent + [Some(packet[..])];
    }

    /** The subscriber of `start` for one frame: the counters are read and
        advanced, then the frame is sent with the values read. */
    method OnFrame(frame: seq<byte>, aead: Aead)
      requires Valid()
      modifies this
      ensures Valid() && streaming == old(streaming)
      ensures sequence == NextSequence(old(sequence)) && timestamp == NextTimestamp(old(timestamp))
      ensures nonceCounter == NextCounter(old(nonceCounter))
      ensures sent == old(sent) + Packets([Slot(old(sequence), old(timestamp), old(nonceCounter), frame)],
                                          ssrc, secretKey, aead)
    {
      PacketsOne(Slot(sequence, timestamp, nonceCounter, frame), ssrc, secretKey, aead);
      var s := sequence;
      sequence := NextSequence(s);
      var t := timestamp;
      timestamp := NextTimestamp(t);
      SendFrame(s, t, frame, aead);
    }

    /** The subscription: frames are sent in order while the connection flag
        holds; frame `k` gets sequence number `s0 + k` mod 2^16, timestamp
        `t0 + 960 k` mod 2^32 and nonce counter `c0 + k` mod 2^32. */
    method Play(frames: seq<seq<byte>>, connected: seq<bool>, aead: Aead)
      requires Valid() && |connected| == |frames|
      modifies this
      ensures Valid() && streaming == old(streaming)
      ensures sent == old(sent) + FramePackets(frames[..ConnectedPrefix(connected)], old(sequence),
                                               old(timestamp), ssrc, old(nonceCounter), secretKey, aead)
      ensures sequence == (old(sequence) + ConnectedPrefix(connected)) % TWO_16
      ensures timestamp == (old(timestamp) + FRAME_SAMPLES * ConnectedPrefix(connected)) % TWO_32
      ensures nonceCounter == (old(nonceCounter) + ConnectedPrefix(connected)) % TWO_32
    {
      ghost var s0, t0, c0 := sequence, timestamp, nonceCounter;
      var i := 0;
      while i < |frames| && connected[i]
        invariant 0 <= i <= |frames| && forall k :: 0 <= k < i ==> connected[k]
        invariant Valid() && streaming == old(streaming)
        invariant sequence == (s0 + i) % TWO_16
        invariant timestamp == (t0 + FRAME_SAMPLES * i) % TWO_32
        invariant nonceCounter == (c0 + i) % TWO_32
        invariant sent == old(sent) + FramePackets(frames[..i], s0, t0, ssrc, c0, secretKey, aead)
      {
        PlayFrame(frames, i, s0, t0, c0, aead, old(sent));
        i := i + 1;
      }
      ConnectedPrefixIs(connected, i);
    }

    /** Frame `i` of a subscription that started from the counters `s0`,
        `t0` and `c0`, with `base` sent before it. */
    method PlayFrame(frames: seq<seq<byte>>, i: nat, ghost s0: nat, ghost t0: nat, ghost c0: nat, aead: Aead,
                     ghost base: seq<Option<seq<byte>>>)
      requires Valid() && i < |frames|
      requires sequence == (s0 + i) % TWO_16 && timestamp == (t0 + FRAME_SAMPLES * i) % TWO_32
      requires nonceCounter == (c0 + i) % TWO_32
      requires sent == base + FramePackets(frames[..i], s0, t0, ssrc, c0, secretKey, aead)
      modifies this
      ensures Valid() && streaming == old(streaming)
      ensures sequence == (s0 + (i + 1)) % TWO_16
      ensures timestamp == (t0 + FRAME_SAMPLES * (i + 1)) % TWO_32
      ensures nonceCounter == (c0 + (i + 1)) % TWO_32
      ensures sent == base + FramePackets(frames[..i + 1], s0, t0, ssrc, c0, secretKey, aead)
    {
      ghost var slot := Packets([Slot(sequence, timestamp, nonceCounter, frames[i])], ssrc, secretKey, aead);
      FramePacketsStep(frames, i, s0, t0, ssrc, c0, secretKey, aead, sequence, timestamp, nonceCounter);
      OnFrame(frames[i], aead);
      AppendAssoc(base, FramePackets(frames[..i], s0, t0, ssrc, c0, secretKey, aead), slot);
    }
  }

  /** The 24-byte nonce array of `sendFrame`. */
  method NewFrameNonce(counter: nat) returns (nonce: array<byte>)
    requires counter < TWO_32
    ensures fresh(nonce) && nonce[..] == FrameNonce(counter)
  {
    nonce := new byte[NONCE24_LEN](_ => 0);
    var c := BE32(counter);
    nonce[0], nonce[1], nonce[2], nonce[3] := c[0], c[1], c[2], c[3];
    ghost var expected := FrameNonce(counter);
    assert forall i :: 0 <= i < NONCE24_LEN ==> nonce[i] == expected[i];
  }

  /** The packet of `sendFrame`: header, ciphertext, then the first four
      nonce bytes. */
  method AssemblePacket(rtp: seq<byte>, encrypted: seq<byte>, nonce: seq<byte>) returns (packet: array<byte>)
    requires |nonce| >= COUNTER_LEN
    ensures fresh(packet) && packet[..] == rtp + encrypted + nonce[..COUNTER_LEN]
  {
    packet := new byte[|rtp| + |encrypted| + COUNTER_LEN];
    forall i | 0 <= i < |rtp| {
      packet[i] := rtp[i];
    }
    forall i | 0 <= i < |encrypted| {
      packet[|rtp| + i] := encrypted[i];
    }
    var n := packet.Length;
    packet[n - 4], packet[n - 3], packet[n - 2], packet[n - 1] := nonce[0], nonce[1], nonce[2], nonce[3];
    assert packet[..] == rtp + encrypted + nonce[..COUNTER_LEN];
  }
}
