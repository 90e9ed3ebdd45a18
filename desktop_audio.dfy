/** Desktop audio capture: 20 ms frames of 48 kHz stereo 16-bit
    little-endian PCM are read from a capture line, decoded to samples,
    Opus-encoded and forwarded to the streamer; a `capturing` flag guards
    start and stop. The line and the encoder are parameters. */
module DesktopAudio {
  import opened Bytes

  /** Samples per channel in a 20 ms frame at 48 kHz. */
  const FRAME_SIZE: nat := 960
  /** A frame in bytes: stereo, two bytes per sample. */
  const FRAME_BYTES: nat := FRAME_SIZE * 2 * 2
  /** The size of the buffer the encoder writes into. */
  const ENCODED_CAPACITY: nat := 4096

  // ---------------------------------------------------------------------
  // PCM decoding

  /** A 16-bit pattern read as a Java `short`. */
  function Int16(u: nat): (v: int)
    requires u < TWO_16
    ensures -0x8000 <= v < 0x8000 && (v - u) % TWO_16 == 0
  {
    if u < 0x8000 then u else u - TWO_16
  }

  /** A Java `byte` widened to `int`: its sign bit copied upwards. */
  function SignExtend(b: byte): bv32
  {
    if b < 0x80 then b as bv32 else (b as bv32) | 0xFFFF_FF00
  }

  /** The decoder's `(lo & 0xFF) | (hi << 8)` on the two bytes as Java
      holds them, sign-extended to `int`. */
  function JavaBits(lo: byte, hi: byte): bv32
  {
    (SignExtend(lo) & 0xFF) | (SignExtend(hi) << 8)
  }

  /** The decoder's own expression, `(short) ((lo & 0xFF) | (hi << 8))`:
      the low 16 bits, read as two's complement. */
  function JavaSample(lo: byte, hi: byte): int
  {
    LowWord(lo, hi);
    Int16((JavaBits(lo, hi) & 0xFFFF) as int)
  }

  /** The signed 16-bit little-endian value of two bytes. */
  function Sample(lo: byte, hi: byte): (v: int)
    ensures -0x8000 <= v < 0x8000
  {
    Int16(lo as int + 0x100 * hi as int)
  }

  /** The sign-extended high bits are masked away. */
  lemma Low16(lo: byte, hi: byte)
    ensures JavaBits(lo, hi) & 0xFFFF == (lo as bv32) + (hi as bv32) * 0x100
  {
  }

  lemma Low16Value(lo: byte, hi: byte)
    ensures ((lo as bv32) + (hi as bv32) * 0x100) as int == lo as int + 0x100 * hi as int
  {
  }

  /** The low 16 bits of the decoder's expression, as a number. */
  lemma LowWord(lo: byte, hi: byte)
    ensures (JavaBits(lo, hi) & 0xFFFF) as int == lo as int + 0x100 * hi as int
  {
    Low16(lo, hi);
    Low16Value(lo, hi);
  }

  /** The sign extension and the mask cancel out: the decoder reads each
      sample as a signed little-endian 16-bit value. */
  lemma JavaSampleIsLittleEndian(lo: byte, hi: byte)
    ensures JavaSample(lo, hi) == Sample(lo, hi)
  {
    LowWord(lo, hi);
  }

  /** The samples of a PCM buffer: sample `i` from bytes `2i` and `2i + 1`. */
  function Pcm16(pcm: seq<byte>): (samples: seq<int>)
    ensures |samples| == |pcm| / 2
    ensures forall i :: 0 <= i < |samples| ==> samples[i] == Sample(pcm[2 * i], pcm[2 * i + 1])
  {
    seq(|pcm| / 2, i requires 0 <= i < |pcm| / 2 => Sample(pcm[2 * i], pcm[2 * i + 1]))
  }

  /** The two bytes, low first, of a 16-bit sample. */
  function SampleBytes(v: int): (b: seq<byte>)
    requires -0x8000 <= v < 0x8000
    ensures |b| == 2 && Sample(b[0], b[1]) == v
  {
    var u := if v < 0 then v + TWO_16 else v;
    BE16RoundTrip(u);
    [BE16(u)[1], BE16(u)[0]]
  }

  /** Samples written out as little-endian PCM. */
  function PcmBytes(samples: seq<int>): (pcm: seq<byte>)
    requires forall i :: 0 <= i < |samples| ==> -0x8000 <= samples[i] < 0x8000
    ensures |pcm| == 2 * |samples|
  {
    seq(2 * |samples|, j requires 0 <= j < 2 * |samples| => SampleBytes(samples[j / 2])[j % 2])
  }

  /** Sample `i` is written at bytes `2i` and `2i + 1`, low byte first. */
  lemma PcmBytesAt(samples: seq<int>, i: nat)
    requires forall k :: 0 <= k < |samples| ==> -0x8000 <= samples[k] < 0x8000
    requires i < |samples|
    ensures PcmBytes(samples)[2 * i] == SampleBytes(samples[i])[0]
    ensures PcmBytes(samples)[2 * i + 1] == SampleBytes(samples[i])[1]
  {
    PcmBytesLow(samples, i);
    PcmBytesHigh(samples, i);
  }

  /** Byte `2i` is the low byte of sample `i`. */
  lemma PcmBytesLow(samples: seq<int>, i: nat)
    requires forall k :: 0 <= k < |samples| ==> -0x8000 <= samples[k] < 0x8000
    requires i < |samples|
    ensures PcmBytes(samples)[2 * i] == SampleBytes(samples[i])[0]
  {
    var j := 2 * i;
    assert j / 2 == i && j % 2 == 0;
    assert PcmBytes(samples)[j] == SampleBytes(samples[j / 2])[j % 2];
  }

  /** Byte `2i + 1` is its high byte. */
  lemma PcmBytesHigh(samples: seq<int>, i: nat)
    requires forall k :: 0 <= k < |samples| ==> -0x8000 <= samples[k] < 0x8000
    requires i < |samples|
    ensures PcmBytes(samples)[2 * i + 1] == SampleBytes(samples[i])[1]
  {
    var j := 2 * i + 1;
    assert j / 2 == i && j % 2 == 1;
    assert PcmBytes(samples)[j] == SampleBytes(samples[j / 2])[j % 2];
  }

  /** Decoding undoes encoding: PCM written from samples reads back as
      those samples. */
  lemma Pcm16OfPcmBytes(samples: seq<int>)
    requires forall i :: 0 <= i < |samples| ==> -0x8000 <= samples[i] < 0x8000
    ensures Pcm16(PcmBytes(samples)) == samples
  {
    var decoded := Pcm16(PcmBytes(samples));
    assert |decoded| == |samples|;
    forall i | 0 <= i < |samples|
      ensures decoded[i] == samples[i]
    {
      PcmBytesAt(samples, i);
    }
  }

  /** A whole frame decodes to 1920 samples, 960 per channel. */
  lemma FrameSamples(pcm: seq<byte>)
    requires |pcm| == FRAME_BYTES
    ensures |Pcm16(pcm)| == FRAME_SIZE * 2 == 1920
  {
  }

  /** The `pcmShorts` loop: one `short` per byte pair. */
  method DecodeFrame(pcmBuf: array<byte>) returns (pcmShorts: array<int>)
    requires pcmBuf.Length == FRAME_BYTES
    ensures fresh(pcmShorts) && pcmShorts.Length == FRAME_SIZE * 2
    ensures pcmShorts[..] == Pcm16(pcmBuf[..])
  {
    pcmShorts := new int[FRAME_SIZE * 2];
    for i := 0 to pcmShorts.Length
      invariant forall k :: 0 <= k < i ==> pcmShorts[k] == Sample(pcmBuf[2 * k], pcmBuf[2 * k + 1])
    {
      JavaSampleIsLittleEndian(pcmBuf[i * 2], pcmBuf[i * 2 + 1]);
      pcmShorts[i] := JavaSample(pcmBuf[i * 2], pcmBuf[i * 2 + 1]);
    }
  }

  // ---------------------------------------------------------------------
  // The capture loop

  /** What one `read` of the line gives: the bytes read, or an exception. */
  datatype ReadResult = Bytes(data: seq<byte>) | ReadFails

  /** What `opus_encode` leaves: its result (a length, or a negative error
      code) and the 4096-byte output buffer. */
  datatype Encoded = Encoded(result: int, buffer: seq<byte>)

  ghost predicate EncoderFitsBuffer(encode: seq<int> -> Encoded)
  {
    forall samples :: |encode(samples).buffer| == ENCODED_CAPACITY
  }

  /** What the loop does with one read: skip it, forward a frame, or stop
      on an exception (a failed read, or a result past the buffer, which
      makes `arraycopy` throw). */
  datatype CaptureStep = Skip | Forward(frame: seq<byte>) | Stop

  function CaptureStepOf(r: ReadResult, encode: seq<int> -> Encoded): (s: CaptureStep)
    requires EncoderFitsBuffer(encode)
    ensures s.Forward? ==> r.Bytes? && |r.data| == FRAME_BYTES && 0 < |s.frame| <= ENCODED_CAPACITY
                           && s.frame == encode(Pcm16(r.data)).buffer[..|s.frame|]
                           && |s.frame| == encode(Pcm16(r.data)).result
    ensures r.Bytes? && |r.data| != FRAME_BYTES ==> s == Skip
  {
    if r.ReadFails? then Stop
    else if |r.data| != FRAME_BYTES then Skip
    else
      var e := encode(Pcm16(r.data));
      if e.result <= 0 then Skip
      else if e.result > ENCODED_CAPACITY then Stop
      else Forward(e.buffer[..e.result])
  }

  /** The frames the capture thread emits for a sequence of reads, in
      order, up to the first exception. */
  function CapturedFrames(lineReads: seq<ReadResult>, encode: seq<int> -> Encoded): (frames: seq<seq<byte>>)
    requires EncoderFitsBuffer(encode)
    ensures forall k :: 0 <= k < |frames| ==> 0 < |frames[k]| <= ENCODED_CAPACITY
    ensures |frames| <= |lineReads|
    decreases |lineReads|
  {
    if |lineReads| == 0 then []
    else
      match CaptureStepOf(lineReads[0], encode)
      case Stop => []
      case Skip => CapturedFrames(lineReads[1..], encode)
      case Forward(f) => [f] + CapturedFrames(lineReads[1..], encode)
  }

  /** A short read is skipped and capture goes on. */
  lemma ShortReadSkipped(data: seq<byte>, rest: seq<ReadResult>, encode: seq<int> -> Encoded)
    requires EncoderFitsBuffer(encode) && |data| != FRAME_BYTES
    ensures CapturedFrames([Bytes(data)] + rest, encode) == CapturedFrames(rest, encode)
  {
    assert ([Bytes(data)] + rest)[1..] == rest;
  }

  /** A full read that encodes well forwards exactly `result` bytes of the
      encoder's buffer, ahead of what the later reads forward. */
  lemma FullReadForwarded(data: seq<byte>, rest: seq<ReadResult>, encode: seq<int> -> Encoded)
    requires EncoderFitsBuffer(encode) && |data| == FRAME_BYTES
    requires 0 < encode(Pcm16(data)).result <= ENCODED_CAPACITY
    ensures var e := encode(Pcm16(data));
            CapturedFrames([Bytes(data)] + rest, encode) == [e.buffer[..e.result]] + CapturedFrames(rest, encode)
  {
    assert ([Bytes(data)] + rest)[1..] == rest;
  }

  /** Nothing is forwarded once a read fails. */
  lemma FailedReadStops(before: seq<ReadResult>, rest: seq<ReadResult>, encode: seq<int> -> Encoded)
    requires EncoderFitsBuffer(encode)
    ensures CapturedFrames(before + [ReadFails] + rest, encode) == CapturedFrames(before, encode)
    decreases |before|
  {
    if |before| == 0 {
      assert (before + [ReadFails] + rest)[0] == ReadFails;
    } else {
      assert (before + [ReadFails] + rest)[1..] == before[1..] + [ReadFails] + rest;
      FailedReadStops(before[1..], rest, encode);
    }
  }

  // ---------------------------------------------------------------------
  // Start and stop

  /** How `startCapture` ends. `NoVoiceClient` is the `NullPointerException`
      thrown when no voice client was set; it escapes after the flag was
      set, and nothing clears the flag on that path. */
  datatype StartOutcome = AlreadyCapturing | NoVoiceClient | StreamerNotReady | DeviceNotFound | EncoderFailed | Started

  /** What `startCapture` answers, and the `capturing` flag it leaves. */
  function StartResult(capturing: bool, voiceClientSet: bool, streamerReady: bool, deviceFound: bool,
                       encoderCreated: bool): (r: (StartOutcome, bool))
    ensures r.0 == AlreadyCapturing <==> capturing
    ensures r.0 == Started <==> !capturing && voiceClientSet && streamerReady && deviceFound && encoderCreated
    ensures r.0 == NoVoiceClient <==> !capturing && !voiceClientSet
    ensures r.1 <==> r.0 in {AlreadyCapturing, NoVoiceClient, Started}
  {
    if capturing then (AlreadyCapturing, true)
    else if !voiceClientSet then (NoVoiceClient, true)
    else if !streamerReady then (StreamerNotReady, false)
    else if !deviceFound then (DeviceNotFound, false)
    else if !encoderCreated then (EncoderFailed, false)
    else (Started, true)
  }

  /** Without a voice client the flag sticks: every later `startCapture`
      answers "Already capturing", whatever it finds, until `stop`. */
  lemma NoVoiceClientSticks(voiceClientSet: bool, streamerReady: bool, deviceFound: bool, encoderCreated: bool,
                            voiceClientSet': bool, streamerReady': bool, deviceFound': bool, encoderCreated': bool)
    requires StartResult(false, voiceClientSet, streamerReady, deviceFound, encoderCreated).0 == NoVoiceClient
    ensures StartResult(false, voiceClientSet, streamerReady, deviceFound, encoderCreated).1
    ensures StartResult(true, voiceClientSet', streamerReady', deviceFound', encoderCreated') == (AlreadyCapturing, true)
  {
  }

  class DesktopAudioMode {
    var capturing: bool
    /** Whether `setVoiceClient` has given the mode its voice client. */
    var voiceClientSet: bool
    /** The frames emitted to the streamer's sink, in order. */
    var forwarded: seq<seq<byte>>
    /** Whether the capture thread was started. */
    var threadStarted: bool
    /** Whether the frame sink was completed, ending the streamer's flux. */
    var sinkCompleted: bool
    /** Whether the voice client was last told the bot is speaking. */
    var speaking: bool

    /** Only a voice client can be told the bot speaks. */
    predicate Valid()
      reads this
    {
      speaking ==> voiceClientSet
    }

    constructor ()
      ensures Valid()
      ensures !capturing && !voiceClientSet && forwarded == [] && !threadStarted && !sinkCompleted && !speaking
    {
      capturing := false;
      voiceClientSet := false;
      forwarded := [];
      threadStarted := false;
      sinkCompleted := false;
      speaking := false;
    }

    /** `setVoiceClient`. */
    method SetVoiceClient()
      requires Valid()
      modifies this
      ensures Valid()
      ensures voiceClientSet
      ensures capturing == old(capturing) && forwarded == old(forwarded) && threadStarted == old(threadStarted)
      ensures sinkCompleted == old(sinkCompleted) && speaking == old(speaking)
    {
      voiceClientSet := true;
    }

    /** `startCapture`: a no-op while capturing; otherwise the flag is set,
        a missing voice client throws and leaves it set, and a missing
        streamer, device or encoder clears it again. Only a full start
        starts the thread and tells the voice client the bot speaks. */
    method StartCapture(streamerReady: bool, deviceFound: bool, encoderCreated: bool) returns (outcome: StartOutcome)
      requires Valid()
      modifies this
      ensures Valid()
      ensures (outcome, capturing) == StartResult(old(capturing), voiceClientSet, streamerReady, deviceFound, encoderCreated)
      ensures voiceClientSet == old(voiceClientSet) && forwarded == old(forwarded) && sinkCompleted == old(sinkCompleted)
      ensures speaking == (outcome == Started || old(speaking))
      ensures threadStarted == (outcome == Started || old(threadStarted))
    {
      if capturing {
        return AlreadyCapturing;
      }
      capturing := true;
      if !voiceClientSet {
        return NoVoiceClient;
      }
      if !streamerReady {
        capturing := false;
        return StreamerNotReady;
      }
      if !deviceFound {
        capturing := false;
        return DeviceNotFound;
      }
      if !encoderCreated {
        capturing := false;
        return EncoderFailed;
      }
      threadStarted := true;
      speaking := true;
      outcome := Started;
    }

    /** The capture thread, for the reads made until `stop` clears the flag:
        full reads are decoded and encoded, positive results forwarded; an
        exception ends the loop early. The `finally` block clears the
        flag. */
    method Capture(lineOpens: bool, lineReads: seq<ReadResult>, encode: seq<int> -> Encoded)
      requires Valid() && EncoderFitsBuffer(encode)
      modifies this
      ensures Valid()
      ensures !capturing && sinkCompleted
      ensures voiceClientSet == old(voiceClientSet) && threadStarted == old(threadStarted) && speaking == old(speaking)
      ensures !lineOpens ==> forwarded == old(forwarded)
      ensures lineOpens ==> forwarded == old(forwarded) + CapturedFrames(lineReads, encode)
    {
      if !lineOpens {
        sinkCompleted := true;
        capturing := false;
        return;
      }
      var pcmBuf := new byte[FRAME_BYTES];
      var i := 0;
      while i < |lineReads|
        invariant i <= |lineReads|
        invariant old(forwarded) + CapturedFrames(lineReads, encode) == forwarded + CapturedFrames(lineReads[i..], encode)
        invariant voiceClientSet == old(voiceClientSet) && threadStarted == old(threadStarted) && speaking == old(speaking)
      {
        assert lineReads[i..][1..] == lineReads[i + 1..];
        var r := lineReads[i];
        if r.ReadFails? {
          break;
        }
        if |r.data| == FRAME_BYTES {
          FillBuffer(pcmBuf, r.data);
          var pcmShorts := DecodeFrame(pcmBuf);
          var e := encode(pcmShorts[..]);
          if e.result > 0 {
            if e.result > ENCODED_CAPACITY {
              break;
            }
            forwarded := forwarded + [e.buffer[..e.result]];
          }
        }
        i := i + 1;
      }
      sinkCompleted := true;
      capturing := false;
    }

    /** `stop`: clears the flag, which ends the capture loop, and tells the
        voice client, if there is one, that the bot no longer speaks. */
    method Stop()
      requires Valid()
      modifies this
      ensures Valid()
      ensures !capturing && !speaking
      ensures voiceClientSet == old(voiceClientSet) && forwarded == old(forwarded)
      ensures threadStarted == old(threadStarted) && sinkCompleted == old(sinkCompleted)
    {
      capturing := false;
      if voiceClientSet {
        speaking := false;
      }
    }

    /** `isActive`. */
    function IsActive(): (active: bool)
      reads this
      ensures active <==> capturing
    {
      capturing
    }
  }

  /** `read` filling the buffer with a whole frame. */
  method FillBuffer(buf: array<byte>, data: seq<byte>)
    requires buf.Length == |data|
    modifies buf
    ensures buf[..] == data
  {
    for k := 0 to buf.Length
      invariant buf[..k] == data[..k]
    {
      buf[k] := data[k];
    }
    assert buf[..] == buf[..buf.Length];
  }
}
