/** The 12-byte fixed RTP header of section 5.1 of RFC 3550 as both senders
    write it: version 2 with no padding, extension or contributing sources,
    no marker, and the counters big-endian. */
module RtpHeader {
  import opened Bytes

  const HEADER_LEN: nat := 12
  /** Version 2, P = 0, X = 0, CC = 0. */
  const FIRST_BYTE: byte := 0x80

  /** The header for payload type `payloadType`: the low 16 bits of the
      sequence number, then the low 32 bits of the timestamp and of the SSRC
      (the bit patterns of the Java `int`s). */
  function Header(payloadType: byte, sequence: nat, timestamp: nat, ssrc: nat): (h: seq<byte>)
    ensures |h| == HEADER_LEN
  {
    [FIRST_BYTE, payloadType] + BE16(sequence % TWO_16) + BE32(timestamp % TWO_32) + BE32(ssrc % TWO_32)
  }

  /** The fields a receiver reads back out of a fixed header. */
  datatype Fields = Fields(version: nat, payloadType: byte, sequence: nat, timestamp: nat, ssrc: nat)

  function Parse(h: seq<byte>): Option<Fields>
  {
    if |h| < HEADER_LEN then None
    else Some(Fields((h[0] >> 6) as nat, h[1], ReadBE16(h, 2), ReadBE32(h, 4), ReadBE32(h, 8)))
  }

  /** A parsed header gives back version 2, the payload type and the counters,
      the sequence number reduced to 16 bits and the others to 32. */
  lemma ParseHeader(payloadType: byte, sequence: nat, timestamp: nat, ssrc: nat, rest: seq<byte>)
    ensures Parse(Header(payloadType, sequence, timestamp, ssrc) + rest)
            == Some(Fields(2, payloadType, sequence % TWO_16, timestamp % TWO_32, ssrc % TWO_32))
  {
    var lead: seq<byte> := [FIRST_BYTE, payloadType];
    var sq, ts, sc := sequence % TWO_16, timestamp % TWO_32, ssrc % TWO_32;
    var s, t, c := BE16(sq), BE32(ts), BE32(sc);
    var b := Header(payloadType, sequence, timestamp, ssrc) + rest;
    assert b == lead + s + (t + c + rest);
    ReadBE16At(lead, sq, t + c + rest);
    assert b == (lead + s) + t + (c + rest);
    ReadBE32At(lead + s, ts, c + rest);
    assert b == (lead + s + t) + c + rest;
    ReadBE32At(lead + s + t, sc, rest);
    assert (FIRST_BYTE >> 6) as nat == 2;
  }
}
