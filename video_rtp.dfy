/** The H.264 RTP sender of the video path: NAL units are packetised as
    single-NAL packets or FU-A fragments (section 5.8 of RFC 6184), given the
    12-byte fixed header of section 5.1 of RFC 3550, and sealed with
    secretbox before they are handed to the socket. */
module VideoRtp {
  import opened Bytes
  import opened RtpHeader

  const MTU: nat := 1200
  /** Room for a fragment body once the FU indicator and FU header are written. */
  const FU_BODY: nat := MTU - 2
  const CLOCK_RATE: nat := 90000
  /** The timestamp advance per NAL unit: one frame at 30 frames per second. */
  const TS_STEP: nat := CLOCK_RATE / 30
  const NONCE_LEN: nat := 24
  const TAG_LEN: nat := 16
  /** The NAL unit type of an FU-A fragment. */
  const FU_A: byte := 28

  function Min(a: nat, b: nat): nat
  {
    if a <= b then a else b
  }

  // ---------------------------------------------------------------------
  // The RTP fixed header

  /** One RTP packet before serialisation: the counters as the sender holds
      them (the 32-bit values of Java `int`s) and the payload. */
  datatype Rtp = Rtp(sequence: nat, timestamp: nat, ssrc: nat, payload: seq<byte>)

  /** Payload type 96, a dynamic type, without the marker bit. */
  const VIDEO_PT: byte := 0x60

  /** `createRtpPacket`: the fixed header for payload type 96 with the
      packet's counters, then the payload. */
  function Encode(p: Rtp): (b: seq<byte>)
    ensures |b| == HEADER_LEN + |p.payload|
  {
    Header(VIDEO_PT, p.sequence, p.timestamp, p.ssrc) + p.payload
  }

  /** A receiver's reading of a packet of this sender: version 2 and payload
      type 96, then the counters and the payload. */
  function Decode(b: seq<byte>): Option<Rtp>
  {
    match Parse(b)
      case None => None
      case Some(f) =>
        if f.version != 2 || f.payloadType != VIDEO_PT then None
        else Some(Rtp(f.sequence, f.timestamp, f.ssrc, b[HEADER_LEN..]))
  }

  /** Decoding a packet gives back every field, the sequence number reduced
      to the 16 bits the header carries. */
  lemma DecodeEncode(p: Rtp)
    requires p.timestamp < TWO_32 && p.ssrc < TWO_32
    ensures Decode(Encode(p)) == Some(p.(sequence := p.sequence % TWO_16))
  {
    DecodePacket(p.sequence, p.timestamp, p.ssrc, p.payload);
  }

  lemma DecodePacket(sequence: nat, timestamp: nat, ssrc: nat, payload: seq<byte>)
    requires timestamp < TWO_32 && ssrc < TWO_32
    ensures Decode(Header(VIDEO_PT, sequence, timestamp, ssrc) + payload)
            == Some(Rtp(sequence % TWO_16, timestamp, ssrc, payload))
  {
    var b := Header(VIDEO_PT, sequence, timestamp, ssrc) + payload;
    assert timestamp % TWO_32 == timestamp && ssrc % TWO_32 == ssrc;
    ParseHeader(VIDEO_PT, sequence, timestamp, ssrc, payload);
    var f := Parse(b).value;
    assert f.version == 2 && f.payloadType == VIDEO_PT;
    assert b[HEADER_LEN..] == payload;
  }

  // ---------------------------------------------------------------------
  // Packetisation

  /** The FU indicator: the F and NRI bits of the NAL header are replaced by
      NRI alone, with type 28. */
  function FuIndicator(nalHeader: byte): byte
  {
    (nalHeader & 0x60) | FU_A
  }

  /** The FU header: S (0x80) on the first fragment, E (0x40) on the last,
      and the NAL unit type in the low five bits. */
  function FuHeader(nalHeader: byte, isStart: bool, isEnd: bool): byte
  {
    (nalHeader & 0x1F) | (if isStart then 0x80 else 0) | (if isEnd then 0x40 else 0)
  }

  lemma FuHeaderBits(nalHeader: byte, isStart: bool, isEnd: bool)
    ensures var h := FuHeader(nalHeader, isStart, isEnd);
            h & 0x1F == nalHeader & 0x1F && (h & 0x80 != 0 <==> isStart) && (h & 0x40 != 0 <==> isEnd)
  {
  }

  /** An FU-A payload of a unit with header byte `nalHeader`: indicator,
      FU header with the unit's type, S bit iff `isFirst`, E bit iff `isLast`,
      and a body of 1 to 1198 bytes. */
  predicate WellFormedFragment(nalHeader: byte, p: seq<byte>, isFirst: bool, isLast: bool)
  {
    3 <= |p| <= MTU &&
    p[0] == FuIndicator(nalHeader) &&
    p[1] & 0x1F == nalHeader & 0x1F &&
    (p[1] & 0x80 != 0 <==> isFirst) &&
    (p[1] & 0x40 != 0 <==> isLast)
  }

  /** The FU-A payloads carrying `nal[offset..]`, at most `FU_BODY` bytes each. */
  function FuPayloads(nal: seq<byte>, offset: nat): seq<seq<byte>>
    requires 1 <= offset && |nal| > 0
    decreases |nal| - offset
  {
    if offset >= |nal| then []
    else
      var size := Min(FU_BODY, |nal| - offset);
      [[FuIndicator(nal[0]), FuHeader(nal[0], offset == 1, offset + size >= |nal|)] + nal[offset..offset + size]]
        + FuPayloads(nal, offset + size)
  }

  /** The RTP payloads `packetizeNal` produces for one NAL unit. */
  function Payloads(nal: seq<byte>): seq<seq<byte>>
  {
    if |nal| <= MTU then [nal] else FuPayloads(nal, 1)
  }

  /** There are ceil(remaining / 1198) fragments. */
  lemma {:induction false} FuPayloadsCount(nal: seq<byte>, offset: nat)
    requires 1 <= offset <= |nal|
    ensures |FuPayloads(nal, offset)| == (|nal| - offset + FU_BODY - 1) / FU_BODY
    decreases |nal| - offset
  {
    if offset < |nal| {
      FuPayloadsCount(nal, offset + Min(FU_BODY, |nal| - offset));
    }
  }

  /** Every fragment has the FU indicator, the NAL type, a body of 1 to 1198
      bytes, the S bit exactly on the first fragment of the unit and the E bit
      exactly on the last. */
  lemma {:induction false} FuPayloadsShape(nal: seq<byte>, offset: nat)
    requires 1 <= offset && |nal| > 0
    ensures forall i :: 0 <= i < |FuPayloads(nal, offset)| ==>
              WellFormedFragment(nal[0], FuPayloads(nal, offset)[i],
                                 i == 0 && offset == 1, i == |FuPayloads(nal, offset)| - 1)
    decreases |nal| - offset
  {
    if offset < |nal| {
      var size := Min(FU_BODY, |nal| - offset);
      FuPayloadsShape(nal, offset + size);
      var ps := FuPayloads(nal, offset);
      var rest := FuPayloads(nal, offset + size);
      assert ps == [ps[0]] + rest;
      forall i | 0 <= i < |ps|
        ensures WellFormedFragment(nal[0], ps[i], i == 0 && offset == 1, i == |ps| - 1)
      {
        if i == 0 {
          var isEnd := offset + size >= |nal|;
          var h := FuHeader(nal[0], offset == 1, isEnd);
          assert ps[0] == [FuIndicator(nal[0]), h] + nal[offset..offset + size];
          FuHeaderBits(nal[0], offset == 1, isEnd);
          assert isEnd <==> rest == [];
        } else {
          assert ps[i] == rest[i - 1];
        }
      }
    }
  }

  /** The bodies of a run of FU-A payloads, without their two header bytes. */
  function FuBodies(ps: seq<seq<byte>>): seq<byte>
  {
    if ps == [] then []
    else (if |ps[0]| >= 2 then ps[0][2..] else []) + FuBodies(ps[1..])
  }

  lemma {:induction false} FuBodiesOfPayloads(nal: seq<byte>, offset: nat)
    requires 1 <= offset <= |nal|
    ensures FuBodies(FuPayloads(nal, offset)) == nal[offset..]
    decreases |nal| - offset
  {
    if offset < |nal| {
      var size := Min(FU_BODY, |nal| - offset);
      FuBodiesOfPayloads(nal, offset + size);
      var ps := FuPayloads(nal, offset);
      assert ps[1..] == FuPayloads(nal, offset + size);
      assert nal[offset..] == nal[offset..offset + size] + nal[offset + size..];
    }
  }

  /** The receiver of section 5.8 of RFC 6184: a lone payload that is not an
      FU-A fragment is the NAL unit itself; otherwise the NAL header is rebuilt
      from the F and NRI bits of the FU indicator and the type in the FU
      header, followed by the fragment bodies. */
  function Depacketize(ps: seq<seq<byte>>): seq<byte>
  {
    if |ps| == 1 && (|ps[0]| == 0 || ps[0][0] & 0x1F != FU_A) then ps[0]
    else if |ps| > 0 && |ps[0]| >= 2 then [(ps[0][0] & 0xE0) | (ps[0][1] & 0x1F)] + FuBodies(ps)
    else []
  }

  /** Packetisation is undone by the receiver for every NAL unit an encoder
      produces: the forbidden bit is zero, and a unit small enough for a
      single packet is not itself of type 28. */
  lemma PacketizeRoundTrip(nal: seq<byte>)
    requires |nal| > 0 ==> nal[0] & 0x80 == 0
    requires 0 < |nal| <= MTU ==> nal[0] & 0x1F != FU_A
    ensures Depacketize(Payloads(nal)) == nal
  {
    if |nal| > MTU {
      var ps := FuPayloads(nal, 1);
      FuPayloadsCount(nal, 1);
      FuPayloadsShape(nal, 1);
      FuBodiesOfPayloads(nal, 1);
      assert |ps| >= 2;
      assert (ps[0][0] & 0xE0) | (ps[0][1] & 0x1F) == nal[0];
      assert nal == [nal[0]] + nal[1..];
    }
  }

  /** The payloads of one NAL unit, as the packet list says: a single packet
      holding the unit up to 1200 bytes, ceil((n - 1) / 1198) fragments beyond. */
  lemma PayloadsCount(nal: seq<byte>)
    ensures |nal| <= MTU ==> Payloads(nal) == [nal]
    ensures |nal| > MTU ==> |Payloads(nal)| == (|nal| - 1 + FU_BODY - 1) / FU_BODY
    ensures |nal| > MTU ==> FuBodies(Payloads(nal)) == nal[1..]
  {
    if |nal| > MTU {
      FuPayloadsCount(nal, 1);
      FuBodiesOfPayloads(nal, 1);
    }
  }

  // ---------------------------------------------------------------------
  // Sequence numbers and sealing

  /** The packets for `payloads`, numbered from `sequence` on with the shared
      timestamp; the 32-bit counter wraps around. */
  function Stamp(payloads: seq<seq<byte>>, sequence: nat, timestamp: nat, ssrc: nat): (ps: seq<Rtp>)
    ensures |ps| == |payloads|
    decreases |payloads|
  {
    if payloads == [] then []
    else [Rtp(sequence, timestamp, ssrc, payloads[0])]
         + Stamp(payloads[1..], (sequence + 1) % TWO_32, timestamp, ssrc)
  }

  /** Counting `k` more after one wrapping increment is counting `k + 1`. */
  lemma CounterStep(c: nat, k: nat)
    requires c < TWO_32
    ensures ((c + 1) % TWO_32 + k) % TWO_32 == (c + 1 + k) % TWO_32
  {
    if c + 1 == TWO_32 {
      assert (TWO_32 + k) % TWO_32 == k % TWO_32;
    }
  }

  /** One wrapping increment of a counter that is already reduced. */
  lemma ModSucc(x: nat)
    ensures ((x % TWO_32) + 1) % TWO_32 == (x + 1) % TWO_32
  {
  }

  /** The first FU-A fragment taken off the front of the remaining unit. */
  lemma FuPayloadsCons(nal: seq<byte>, offset: nat, size: nat)
    requires 1 <= offset < |nal| && size == Min(FU_BODY, |nal| - offset)
    ensures FuPayloads(nal, offset)
            == [[FuIndicator(nal[0]), FuHeader(nal[0], offset == 1, offset + size >= |nal|)] + nal[offset..offset + size]]
               + FuPayloads(nal, offset + size)
  {
  }

  /** Packet `i` carries payload `i`, the sequence number `sequence + i`
      modulo 2^32, and the one timestamp and SSRC. */
  lemma {:induction false} StampPackets(payloads: seq<seq<byte>>, sequence: nat, timestamp: nat, ssrc: nat)
    requires sequence < TWO_32
    ensures forall i :: 0 <= i < |payloads| ==>
              Stamp(payloads, sequence, timestamp, ssrc)[i] == Rtp((sequence + i) % TWO_32, timestamp, ssrc, payloads[i])
    decreases |payloads|
  {
    if payloads != [] {
      var next := (sequence + 1) % TWO_32;
      StampPackets(payloads[1..], next, timestamp, ssrc);
      var ps := Stamp(payloads, sequence, timestamp, ssrc);
      var rest := Stamp(payloads[1..], next, timestamp, ssrc);
      assert ps == [Rtp(sequence, timestamp, ssrc, payloads[0])] + rest;
      forall i | 0 <= i < |payloads|
        ensures ps[i] == Rtp((sequence + i) % TWO_32, timestamp, ssrc, payloads[i])
      {
        if i > 0 {
          assert ps[i] == rest[i - 1];
          CounterStep(sequence, i - 1);
          assert payloads[1..][i - 1] == payloads[i];
        }
      }
    }
  }

  /** The serialised packets, in order. */
  function Wire(ps: seq<Rtp>): (w: seq<seq<byte>>)
    ensures |w| == |ps|
  {
    seq(|ps|, i requires 0 <= i < |ps| => Encode(ps[i]))
  }

  lemma WireSnoc(ps: seq<Rtp>, p: Rtp)
    ensures Wire(ps + [p]) == Wire(ps) + [Encode(p)]
  {
    var a, b := Wire(ps + [p]), Wire(ps) + [Encode(p)];
    assert |a| == |b|;
    forall i | 0 <= i < |a| ensures a[i] == b[i] {
      if i < |ps| {
        assert (ps + [p])[i] == ps[i];
      }
    }
  }

  lemma {:induction false} StampSnoc(payloads: seq<seq<byte>>, x: seq<byte>, sequence: nat, timestamp: nat, ssrc: nat)
    requires sequence < TWO_32
    ensures Stamp(payloads + [x], sequence, timestamp, ssrc)
            == Stamp(payloads, sequence, timestamp, ssrc) + [Rtp((sequence + |payloads|) % TWO_32, timestamp, ssrc, x)]
    decreases |payloads|
  {
    if payloads == [] {
      assert [] + [x] == [x];
    } else {
      var next := (sequence + 1) % TWO_32;
      var a := payloads + [x];
      var first := Rtp(sequence, timestamp, ssrc, payloads[0]);
      var last := Rtp((sequence + |payloads|) % TWO_32, timestamp, ssrc, x);
      assert a[0] == payloads[0] && a[1..] == payloads[1..] + [x];
      StampSnoc(payloads[1..], x, next, timestamp, ssrc);
      CounterStep(sequence, |payloads| - 1);
      assert Stamp(a[1..], next, timestamp, ssrc) == Stamp(payloads[1..], next, timestamp, ssrc) + [last];
      assert Stamp(a, sequence, timestamp, ssrc) == [first] + Stamp(a[1..], next, timestamp, ssrc);
      assert Stamp(payloads, sequence, timestamp, ssrc) == [first] + Stamp(payloads[1..], next, timestamp, ssrc);
      AppendAssoc([first], Stamp(payloads[1..], next, timestamp, ssrc), [last]);
    }
  }

  /** One more packet at the end of a stamped run: it takes the next
      sequence number. */
  lemma WireStampSnoc(done: seq<seq<byte>>, x: seq<byte>, sequence: nat, timestamp: nat, ssrc: nat,
                      packets: seq<seq<byte>>, next: nat, rtp: seq<byte>)
    requires sequence < TWO_32
    requires packets == Wire(Stamp(done, sequence, timestamp, ssrc))
    requires next == (sequence + |done|) % TWO_32
    requires rtp == Encode(Rtp(next, timestamp, ssrc, x))
    ensures packets + [rtp] == Wire(Stamp(done + [x], sequence, timestamp, ssrc))
    ensures (next + 1) % TWO_32 == (sequence + |done + [x]|) % TWO_32
  {
    StampSnoc(done, x, sequence, timestamp, ssrc);
    WireSnoc(Stamp(done, sequence, timestamp, ssrc), Rtp(next, timestamp, ssrc, x));
    ModSucc(sequence + |done|);
  }

  /** A secretbox (XSalsa20-Poly1305) seal of `message` under `nonce` and
      `key`; `None` when the library reports failure. */
  type SecretBox = (seq<byte>, seq<byte>, seq<byte>) -> Option<seq<byte>>

  /** The length the library writes: the message plus a 16-byte tag. */
  ghost predicate AppendsTag(box: SecretBox)
  {
    forall m, n, k :: box(m, n, k).Some? ==> |box(m, n, k).value| == |m| + TAG_LEN
  }

  /** The 24-byte nonce of `sendEncrypted`: the RTP header, then zeros. */
  function VideoNonce(rtp: seq<byte>): (n: seq<byte>)
    requires |rtp| >= HEADER_LEN
    ensures |n| == NONCE_LEN
  {
    rtp[..HEADER_LEN] + Zeros(NONCE_LEN - HEADER_LEN)
  }

  /** The datagram `sendEncrypted` sends for `rtp`: the clear header followed
      by the sealed payload, or nothing when `rtp` is shorter than a header
      or the seal fails. */
  function Seal(rtp: seq<byte>, box: SecretBox, key: seq<byte>): Option<seq<byte>>
  {
    if |rtp| < HEADER_LEN then None
    else match box(rtp[HEADER_LEN..], VideoNonce(rtp), key)
      case None => None
      case Some(ct) => Some(rtp[..HEADER_LEN] + ct)
  }

  /** A datagram leaves the header readable and is 16 bytes longer than the
      packet; a failed seal sends nothing. */
  lemma SealLayout(rtp: seq<byte>, box: SecretBox, key: seq<byte>)
    requires |rtp| >= HEADER_LEN
    ensures Seal(rtp, box, key).None? <==> box(rtp[HEADER_LEN..], VideoNonce(rtp), key).None?
    ensures var d := Seal(rtp, box, key);
            d.Some? ==> d.value[..HEADER_LEN] == rtp[..HEADER_LEN] &&
                        d.value[HEADER_LEN..] == box(rtp[HEADER_LEN..], VideoNonce(rtp), key).value
    ensures AppendsTag(box) && Seal(rtp, box, key).Some? ==>
              |Seal(rtp, box, key).value| == |rtp| + TAG_LEN
    ensures VideoNonce(rtp)[..HEADER_LEN] == rtp[..HEADER_LEN]
    ensures forall i :: HEADER_LEN <= i < NONCE_LEN ==> VideoNonce(rtp)[i] == 0
  {
  }

  /** The outcome of sending a list of packets in order, one entry per
      packet. */
  function SealAll(packets: seq<seq<byte>>, box: SecretBox, key: seq<byte>): (r: seq<Option<seq<byte>>>)
    ensures |r| == |packets|
  {
    seq(|packets|, i requires 0 <= i < |packets| => Seal(packets[i], box, key))
  }

  lemma SealAllSnoc(packets: seq<seq<byte>>, i: nat, box: SecretBox, key: seq<byte>)
    requires i < |packets|
    ensures SealAll(packets[..i + 1], box, key) == SealAll(packets[..i], box, key) + [Seal(packets[i], box, key)]
  {
    var a, b := SealAll(packets[..i + 1], box, key), SealAll(packets[..i], box, key) + [Seal(packets[i], box, key)];
    assert |a| == |b|;
    forall k | 0 <= k < |a| ensures a[k] == b[k] {
      assert packets[..i + 1][k] == packets[k];
      if k < i {
        assert packets[..i][k] == packets[k];
      }
    }
  }

  /** Every datagram sent for a NAL unit carries in clear the RTP header of
      its packet: version 2, payload type 96, sequence number
      `sequence + i` in the 16 bits of the header, the unit's timestamp and
      the SSRC; behind it, the payload sealed under the nonce made of that
      header; with a 16-byte tag it is 28 bytes longer than the payload. */
  lemma NalDatagrams(nal: seq<byte>, sequence: nat, timestamp: nat, ssrc: nat, box: SecretBox, key: seq<byte>, i: nat)
    requires sequence < TWO_32 && timestamp < TWO_32 && ssrc < TWO_32
    requires i < |Payloads(nal)|
    ensures var d := SealAll(Wire(Stamp(Payloads(nal), sequence, timestamp, ssrc)), box, key)[i];
            var h := Header(VIDEO_PT, (sequence + i) % TWO_32, timestamp, ssrc);
            d == match box(Payloads(nal)[i], h + Zeros(NONCE_LEN - HEADER_LEN), key)
                   case None => None
                   case Some(ct) => Some(h + ct)
    ensures AppendsTag(box) ==>
              var d := SealAll(Wire(Stamp(Payloads(nal), sequence, timestamp, ssrc)), box, key)[i];
              d.Some? ==> |d.value| == HEADER_LEN + |Payloads(nal)[i]| + TAG_LEN
  {
    var ps := Stamp(Payloads(nal), sequence, timestamp, ssrc);
    StampPackets(Payloads(nal), sequence, timestamp, ssrc);
    var rtp := Wire(ps)[i];
    var h := Header(VIDEO_PT, (sequence + i) % TWO_32, timestamp, ssrc);
    assert rtp == h + Payloads(nal)[i];
    assert rtp[..HEADER_LEN] == h && rtp[HEADER_LEN..] == Payloads(nal)[i];
  }

  /** One pass of the FU-A loop: the indicator and header bytes for the
      fragment at `offset`, then its body. */
  method FragmentAt(nal: seq<byte>, offset: nat, size: nat, start: bool) returns (fragment: seq<byte>)
    requires 1 <= offset < |nal| && size == Min(MTU - 2, |nal| - offset)
    requires start <==> offset == 1
    ensures FuPayloads(nal, offset) == [fragment] + FuPayloads(nal, offset + size)
  {
    var nalType := nal[0] & 0x1F;
    var nri := nal[0] & 0x60;
    var fuIndicator := nri | FU_A;
    var fuHeader := nalType & 0x1F;
    if start {
      fuHeader := fuHeader | 0x80;
    }
    if offset + size >= |nal| {
      fuHeader := fuHeader | 0x40;
    }
    assert fuIndicator == FuIndicator(nal[0]);
    assert fuHeader == FuHeader(nal[0], start, offset + size >= |nal|);
    fragment := [fuIndicator, fuHeader] + nal[offset..offset + size];
    FuPayloadsCons(nal, offset, size);
  }

  // ---------------------------------------------------------------------
  // The streamer

  /** `VideoStreamer`: the sequence number and timestamp counters of the
      current `start`, whether a subscription is live, and the datagrams handed
      to the socket so far. */
  class VideoStreamer {
    const ssrc: nat
    const secretKey: seq<byte>
    var sequence: nat
    var timestamp: nat
    var streaming: bool
    /** The outcome of every `sendEncrypted` call: the datagram handed to the
        socket, or `None` when nothing was sent. */
    var sent: seq<Option<seq<byte>>>

    ghost predicate Valid()
      reads this
    {
      ssrc < TWO_32 && sequence < TWO_32 && timestamp < TWO_32
    }

    constructor (ssrc: nat, secretKey: seq<byte>)
      requires ssrc < TWO_32
      ensures Valid() && this.ssrc == ssrc && this.secretKey == secretKey
      ensures !streaming && sent == []
    {
      this.ssrc := ssrc;
      this.secretKey := secretKey;
      sequence := 0;
      timestamp := 0;
      streaming := false;
      sent := [];
    }

    /** `start`: ends any previous subscription, then counts from zero again. */
    method Start()
      requires Valid()
      modifies this
      ensures Valid() && streaming && sequence == 0 && timestamp == 0 && sent == old(sent)
    {
      Stop();
      sequence := 0;
      timestamp := 0;
      streaming := true;
    }

    /** `stop`: disposes the subscription if one is live. */
    method Stop()
      modifies this
      ensures !streaming
      ensures sequence == old(sequence) && timestamp == old(timestamp) && sent == old(sent)
    {
      if streaming {
        streaming := false;
      }
    }

    /** `createRtpPacket`: a fresh array holding the header and the payload. */
    method CreateRtpPacket(payload: seq<byte>, sequence: nat, timestamp: nat) returns (rtp: array<byte>)
      ensures fresh(rtp) && rtp[..] == Encode(Rtp(sequence, timestamp, ssrc, payload))
    {
      rtp := new byte[HEADER_LEN + |payload|];
      var header := Header(VIDEO_PT, sequence, timestamp, ssrc);
      forall i | 0 <= i < HEADER_LEN {
        rtp[i] := header[i];
      }
      forall i | 0 <= i < |payload| {
        rtp[HEADER_LEN + i] := payload[i];
      }
      assert rtp[..] == header + payload;
    }

    /** `packetizeNal`: the packets of one NAL unit, taking one sequence number
        each from the counter `counter` and sharing the timestamp `ts`; `next` is
        the counter afterwards. */
    method PacketizeNal(nal: seq<byte>, counter: nat, ts: nat) returns (packets: seq<seq<byte>>, next: nat)
      requires counter < TWO_32
      ensures packets == Wire(Stamp(Payloads(nal), counter, ts, ssrc))
      ensures next == (counter + |Payloads(nal)|) % TWO_32
    {
      if |nal| <= MTU {
        var rtp := CreateRtpPacket(nal, counter, ts);
        packets := [rtp[..]];
        next := (counter + 1) % TWO_32;
      } else {
        packets, next := Fragment(nal, counter, ts);
      }
    }

    /** The FU-A loop of `packetizeNal`, for a unit larger than the MTU. */
    method Fragment(nal: seq<byte>, counter: nat, ts: nat) returns (packets: seq<seq<byte>>, next: nat)
      requires counter < TWO_32 && |nal| > 0
      ensures packets == Wire(Stamp(FuPayloads(nal, 1), counter, ts, ssrc))
      ensures next == (counter + |FuPayloads(nal, 1)|) % TWO_32
    {
      next := counter;
      var offset := 1;
      var start := true;
      packets := [];
      ghost var done: seq<seq<byte>> := [];
      while offset < |nal|
        invariant 1 <= offset <= |nal|
        invariant start <==> offset == 1
        invariant next == (counter + |done|) % TWO_32
        invariant done + FuPayloads(nal, offset) == FuPayloads(nal, 1)
        invariant packets == Wire(Stamp(done, counter, ts, ssrc))
        decreases |nal| - offset
      {
        var size := Min(MTU - 2, |nal| - offset);
        var fragment := FragmentAt(nal, offset, size, start);
        var rtp := CreateRtpPacket(fragment, next, ts);
        FragmentStep(nal, offset, size, fragment, counter, ts, done, packets, next, rtp[..]);
        packets := packets + [rtp[..]];
        done := done + [fragment];
        next := (next + 1) % TWO_32;
        offset := offset + size;
        start := false;
      }
      assert done + [] == done;
    }

    /** What one pass of the FU-A loop keeps true. */
    lemma FragmentStep(nal: seq<byte>, offset: nat, size: nat, fragment: seq<byte>, counter: nat, ts: nat,
                       done: seq<seq<byte>>, packets: seq<seq<byte>>, next: nat, rtp: seq<byte>)
      requires counter < TWO_32 && 1 <= offset < |nal|
      requires FuPayloads(nal, offset) == [fragment] + FuPayloads(nal, offset + size)
      requires done + FuPayloads(nal, offset) == FuPayloads(nal, 1)
      requires packets == Wire(Stamp(done, counter, ts, ssrc))
      requires next == (counter + |done|) % TWO_32
      requires rtp == Encode(Rtp(next, ts, ssrc, fragment))
      ensures (done + [fragment]) + FuPayloads(nal, offset + size) == FuPayloads(nal, 1)
      ensures packets + [rtp] == Wire(Stamp(done + [fragment], counter, ts, ssrc))
      ensures (next + 1) % TWO_32 == (counter + |done + [fragment]|) % TWO_32
    {
      AppendAssoc(done, [fragment], FuPayloads(nal, offset + size));
      WireStampSnoc(done, fragment, counter, ts, ssrc, packets, next, rtp);
    }

    /** `sendEncrypted`: seals the payload behind the clear header and hands the
        datagram to the socket; a failed seal sends nothing. */
    method SendEncrypted(rtp: seq<byte>, box: SecretBox)
      modifies this
      ensures sent == old(sent) + [Seal(rtp, box, secretKey)]
      ensures sequence == old(sequence) && timestamp == old(timestamp) && streaming == old(streaming)
    {
      if |rtp| < HEADER_LEN {
        sent := sent + [None];
        return;
      }
      var nonce := rtp[..HEADER_LEN] + Zeros(NONCE_LEN - HEADER_LEN);
      var encrypted := box(rtp[HEADER_LEN..], nonce, secretKey);
      if encrypted.None? {
        sent := sent + [None];
        return;
      }
      var packet := rtp[..HEADER_LEN] + encrypted.value;
      sent := sent + [Some(packet)];
    }

    /** The packets of one unit sent one after the other. */
    method SendAll(packets: seq<seq<byte>>, box: SecretBox)
      modifies this
      ensures sent == old(sent) + SealAll(packets, box, secretKey)
      ensures sequence == old(sequence) && timestamp == old(timestamp) && streaming == old(streaming)
    {
      var i := 0;
      while i < |packets|
        invariant 0 <= i <= |packets|
        invariant sequence == old(sequence) && timestamp == old(timestamp) && streaming == old(streaming)
        invariant sent == old(sent) + SealAll(packets[..i], box, secretKey)
      {
        SealAllSnoc(packets, i, box, secretKey);
        SendEncrypted(packets[i], box);
        i := i + 1;
      }
      assert packets[..|packets|] == packets;
    }

    /** The subscriber of `start` for one NAL unit: its packets are sent in
        order, then the timestamp advances by one frame at 90 kHz. */
    method OnNal(nal: seq<byte>, box: SecretBox)
      requires Valid()
      modifies this
      ensures Valid() && streaming == old(streaming)
      ensures sent == old(sent) + SealAll(Wire(Stamp(Payloads(nal), old(sequence), old(timestamp), ssrc)), box, secretKey)
      ensures sequence == (old(sequence) + |Payloads(nal)|) % TWO_32
      ensures timestamp == NextTimestamp(old(timestamp))
    {
      var ts := timestamp;
      var packets, next := PacketizeNal(nal, sequence, ts);
      sequence := next;
      SendAll(packets, box);
      timestamp := NextTimestamp(ts);
    }

    /** The subscription of `start`: the NAL units are handled in order. Unit
        `k` is sent with the timestamp `TimestampAfter(t0, k)` and its
        packets continue the sequence numbers of the units before it. */
    method Stream(nals: seq<seq<byte>>, box: SecretBox)
      requires Valid()
      modifies this
      ensures Valid() && streaming == old(streaming)
      ensures timestamp == TimestampAfter(old(timestamp), |nals|)
      ensures sequence == (old(sequence) + PacketCount(nals)) % TWO_32
    {
      var i := 0;
      while i < |nals|
        invariant 0 <= i <= |nals|
        invariant Valid() && streaming == old(streaming)
        invariant timestamp == TimestampAfter(old(timestamp), i)
        invariant sequence == (old(sequence) + PacketCount(nals[..i])) % TWO_32
      {
        OnNal(nals[i], box);
        PayloadsLength(nals[i]);
        assert nals[..i + 1][..i] == nals[..i];
        ModAdd(old(sequence) + PacketCount(nals[..i]), PacketsFor(nals[i]));
        i := i + 1;
      }
      assert nals[..|nals|] == nals;
    }
  }

  /** The timestamp counter after one NAL unit: 3000 ticks of the 90 kHz
      clock later, wrapping at 2^32 like a Java `int`. */
  function NextTimestamp(t: nat): (r: nat)
    ensures r < TWO_32
  {
    (t + TS_STEP) % TWO_32
  }

  /** The timestamp counter after `k` NAL units, from `t0`. */
  function TimestampAfter(t0: nat, k: nat): (t: nat)
    ensures t < TWO_32
  {
    if k == 0 then t0 % TWO_32 else NextTimestamp(TimestampAfter(t0, k - 1))
  }

  /** After `k` units the timestamp has advanced by 3000 k modulo 2^32. */
  lemma {:induction false} TimestampAfterIsLinear(t0: nat, k: nat)
    ensures TimestampAfter(t0, k) == (t0 + TS_STEP * k) % TWO_32
    ensures TS_STEP == 3000
  {
    if k > 0 {
      TimestampAfterIsLinear(t0, k - 1);
      assert TS_STEP * k == TS_STEP * (k - 1) + TS_STEP;
      ModAdd(t0 + TS_STEP * (k - 1), TS_STEP);
    }
  }

  /** The number of RTP packets one NAL unit takes: one up to the MTU,
      ceil((n - 1) / 1198) fragments beyond. */
  function PacketsFor(nal: seq<byte>): nat
  {
    if |nal| <= MTU then 1 else (|nal| - 1 + FU_BODY - 1) / FU_BODY
  }

  lemma PayloadsLength(nal: seq<byte>)
    ensures |Payloads(nal)| == PacketsFor(nal)
  {
    if |nal| > MTU {
      FuPayloadsCount(nal, 1);
    }
  }

  /** The number of RTP packets a run of NAL units produces. */
  function PacketCount(nals: seq<seq<byte>>): nat
  {
    if nals == [] then 0 else PacketCount(nals[..|nals| - 1]) + PacketsFor(nals[|nals| - 1])
  }

  /** Adding after a reduction is reducing after adding. */
  lemma ModAdd(x: nat, y: nat)
    ensures (x % TWO_32 + y) % TWO_32 == (x + y) % TWO_32
  {
  }
}
