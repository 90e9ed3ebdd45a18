# SelfBot media transport and command plumbing, modelled in Dafny

This project models the core of selfbotlib, a Java library that drives a
Discord user account. The model covers:

- **Video send path.** The H.264 Annex B demultiplexer of `VideoPlayer`
  reads ffmpeg's byte stream and cuts it into NAL units. `VideoStreamer`
  packs each unit into RTP (RFC 3550, section 5.1), as a single packet or as
  FU-A fragments (section 5.8 of RFC 6184). It then seals each packet behind
  its clear header.
- **Voice send path.** `OpusUdpStreamer` keeps a sequence number, a
  timestamp and a persistent nonce counter. It frames every Opus packet with
  a 24-byte nonce. `SodiumEncryption` derives the XChaCha20 subkey with
  HChaCha20 (section 2.2 of draft-irtf-cfrg-xchacha, on the quarter round of
  RFC 8439). It then forms the 12-byte ChaCha20 nonce.
- **Music.** A FIFO `TrackQueue` and the `TrackScheduler` state machine that
  starts, chains and skips tracks.
- **Commands and gateway events.**
  - `CommandContext`: argument parsing and typed getters.
  - `CommandManager`: the command registry and the group/action split.
  - `UserBotClient`: the mention-prefix command split, the voice-state
    filter of `GUILD_CREATE` and the re-dispatch of `READY`.
  - `DmChannelCreateEvent`: channel-type classification.
- **Webhooks.** URL parsing and the request URLs of `WebhookClient`, and the
  payload of `WebhookMessageBuilder`.
- **Desktop audio.** The PCM decoding loop and the `capturing` flag of
  `DesktopAudioMode`.

The model keeps the form of the source:

- `ByteArrayBuffer`, the two streamers, the track queue and scheduler, the
  command context and manager, the webhook builder and the desktop capture
  mode are classes. Their methods change fields and arrays in place.
- Scanning loops, copy loops, round loops and packetising loops are `while`
  or `for` loops. Each carries invariants.
- Each such method is proved against a specification function. Lemmas then
  relate the specification functions to what the source and the standards
  promise: round trips through a receiver, FIFO order, nonce uniqueness, and
  the published HChaCha20 test vector.

Java's semantics are written out wherever they matter:

- `int` wrap-around: `% 2^32` and `bv32`.
- The `& 0xFFFF` mask.
- `byte` sign extension and the `(short)` cast.
- `String.split` with limit 0, which drops trailing empty strings, and with
  limit 2, which keeps the rest.
- `trim`, which cuts every character up to U+0020.
- `Integer.parseInt` and `Gson.getAsInt`, which narrows to 32 bits.

The modules are:

| module | file | models |
|---|---|---|
| `Bytes` | bytes.dfy | bytes, words, big- and little-endian fields, `System.arraycopy` |
| `JavaStrings` | java_strings.dfy | `split`, `trim`, `toLowerCase`, `replace`, `parseInt`, `parseLong` |
| `Json` | json.dfy | Gson's tree values, `getAsString`, `getAsInt`, the event dispatcher |
| `AnnexB` | annexb.dfy | `VideoPlayer.ByteArrayBuffer` and the read loop |
| `RtpHeader` | rtp_header.dfy | the fixed RTP header both senders write |
| `VideoRtp` | video_rtp.dfy | `VideoStreamer` |
| `OpusRtp` | opus_rtp.dfy | `OpusUdpStreamer` |
| `Sodium` | sodium.dfy | `SodiumEncryption` |
| `HChaChaVector` | hchacha_vector.dfy | the HChaCha20 test vector of section 2.2.1 of draft-irtf-cfrg-xchacha |
| `Tracks` | tracks.dfy | `TrackQueue`, `TrackScheduler`, and stand-ins for lavaplayer's `AudioPlayer` and for `LavaPlayer` |
| `Commands` | commands.dfy | `CommandContext`, `CommandManager`, `CommandContextStore` |
| `Client` | client.dfy | the `UserBotClient` listeners |
| `WebhookClients` | webhook_client.dfy | `WebhookClient` |
| `WebhookBuilder` | webhook_builder.dfy | `WebhookMessageBuilder` |
| `DmEvents` | dm_event.dfy | `DmChannelCreateEvent` |
| `DesktopAudio` | desktop_audio.dfy | `DesktopAudioMode` |

## Model

| member | source | states |
|---|---|---|
| AnnexB.FindLeading | selfbotlib/src/main/java/com/github/imagineforgee/selfbotlib/video/VideoPlayer.java:143-151 | the least position from `from` on that holds `00 00 01`, or `00 00 00 01` with a byte after it; -1 exactly when there is none |
| AnnexB.FindMarker | selfbotlib/src/main/java/com/github/imagineforgee/selfbotlib/video/VideoPlayer.java:156-162 | the least position from `from` on where the scan of `extractNal` sees the next start code; -1 exactly when there is none |
| AnnexB.MarkerSize | selfbotlib/src/main/java/com/github/imagineforgee/selfbotlib/video/VideoPlayer.java:154 | the start code is 3 bytes long when its third byte is 1 and 4 bytes long otherwise; at least one byte follows it |
| AnnexB.Cut | selfbotlib/src/main/java/com/github/imagineforgee/selfbotlib/video/VideoPlayer.java:153-175 | one extraction shrinks the buffer; what is left is empty or starts with a start code; the unit holds no start code except a three-byte `00 00 01` that ends it, which the scan does not see |
| AnnexB.DrainNoStart | selfbotlib/src/main/java/com/github/imagineforgee/selfbotlib/video/VideoPlayer.java:49 | with no leading start code the inner loop emits nothing and keeps the buffer |
| AnnexB.DrainStep | selfbotlib/src/main/java/com/github/imagineforgee/selfbotlib/video/VideoPlayer.java:49-54 | one turn of the inner loop emits the cut unit, unless it is empty, then drains what is left |
| AnnexB.DemuxStep | selfbotlib/src/main/java/com/github/imagineforgee/selfbotlib/video/VideoPlayer.java:45-55 | one read appends the chunk, drains the buffer, and the later reads go on from what is left |
| AnnexB.DrainProperties | selfbotlib/src/main/java/com/github/imagineforgee/selfbotlib/video/VideoPlayer.java:49-54 | after the inner loop no leading start code remains; every emitted unit is nonempty and contains no start code followed by a further byte, so only a three-byte `00 00 01` at its very end can remain |
| AnnexB.FirstUnit | selfbotlib/src/main/java/com/github/imagineforgee/selfbotlib/video/VideoPlayer.java:164-166 | the first unit emitted is the bytes after the first start code up to the next start code, or up to the end; bytes before the first start code never appear |
| AnnexB.TrailingMarkerIsGlued | selfbotlib/src/main/java/com/github/imagineforgee/selfbotlib/video/VideoPlayer.java:156 | a start code that ends the buffer is not seen by the scan and stays inside the unit |
| AnnexB.DrainSingleUnit | selfbotlib/src/main/java/com/github/imagineforgee/selfbotlib/video/VideoPlayer.java:171-172 | with no later start code the whole tail is emitted and the buffer is emptied |
| AnnexB.DrainTwoUnits | selfbotlib/src/main/java/com/github/imagineforgee/selfbotlib/video/VideoPlayer.java:168-170 | two start codes in one buffer give two units, the second after compaction |
| AnnexB.ChunkingChangesUnits | selfbotlib/src/main/java/com/github/imagineforgee/selfbotlib/video/VideoPlayer.java:45-56 | the same stream read in one chunk or in two chunks gives different units, so the output depends on how reads split it |
| AnnexB.NalBuffer.constructor | selfbotlib/src/main/java/com/github/imagineforgee/selfbotlib/video/VideoPlayer.java:130-131 | an empty buffer of capacity 8192 |
| AnnexB.NalBuffer.Append | selfbotlib/src/main/java/com/github/imagineforgee/selfbotlib/video/VideoPlayer.java:133-141 | the old bytes are kept and the new bytes follow them; `len` grows by `length`; it grows into a fresh array of twice the new length when the old one is too small; capacity stays at least `len` |
| AnnexB.NalBuffer.IndexOfStartCode | selfbotlib/src/main/java/com/github/imagineforgee/selfbotlib/video/VideoPlayer.java:143-151 | the least index of a leading start code, or -1 exactly when there is none |
| AnnexB.NalBuffer.NextMarker | selfbotlib/src/main/java/com/github/imagineforgee/selfbotlib/video/VideoPlayer.java:155-162 | the scan's answer is `FindMarker` of the contents |
| AnnexB.NalBuffer.ExtractNal | selfbotlib/src/main/java/com/github/imagineforgee/selfbotlib/video/VideoPlayer.java:153-175 | the unit and the new contents are those of `Cut`; `len` strictly decreases and the array is kept |
| AnnexB.NalBuffer.CopyOut | selfbotlib/src/main/java/com/github/imagineforgee/selfbotlib/video/VideoPlayer.java:165-166 | the new array holds the pending bytes `from .. from + length` |
| AnnexB.NalBuffer.Compact | selfbotlib/src/main/java/com/github/imagineforgee/selfbotlib/video/VideoPlayer.java:168-170 | the contents become the old contents from `nextStart` on, in the same array |
| AnnexB.ExtractStep | selfbotlib/src/main/java/com/github/imagineforgee/selfbotlib/video/VideoPlayer.java:50-53 | one extraction emits the part of the specified output that comes first and leaves a buffer whose drain gives the rest |
| AnnexB.ExtractAll | selfbotlib/src/main/java/com/github/imagineforgee/selfbotlib/video/VideoPlayer.java:48-54 | the inner loop emits exactly the units of `Drain` and leaves its remainder |
| AnnexB.ReadChunk | selfbotlib/src/main/java/com/github/imagineforgee/selfbotlib/video/VideoPlayer.java:45-54 | one read appends the chunk and drains the buffer: the units of `Drain` of old contents plus chunk, all nonempty |
| AnnexB.ReadLoop | selfbotlib/src/main/java/com/github/imagineforgee/selfbotlib/video/VideoPlayer.java:42-56 | the units emitted for a sequence of reads of at most 4096 bytes are `Demux` of those reads, each nonempty |
| RtpHeader.Header | selfbotlib/src/main/java/com/github/imagineforgee/selfbotlib/voice/OpusUdpStreamer.java:78-87 | the fixed header is 12 bytes; its fields are pinned down by `RtpHeader.ParseHeader` |
| RtpHeader.ParseHeader | selfbotlib/src/main/java/com/github/imagineforgee/selfbotlib/voice/OpusUdpStreamer.java:78-87 | a receiver reads back version 2, the payload type, the sequence number mod 2^16, the timestamp and SSRC mod 2^32 |
| VideoRtp.Encode | selfbotlib/src/main/java/com/github/imagineforgee/selfbotlib/video/VideoStreamer.java:84-100 | a packet is 12 header bytes plus its payload; the contents are pinned down by `VideoRtp.DecodeEncode` |
| VideoRtp.DecodeEncode | selfbotlib/src/main/java/com/github/imagineforgee/selfbotlib/video/VideoStreamer.java:84-100 | decoding a packet gives back payload type 96, the counters reduced to their widths, the SSRC and the payload |
| VideoRtp.DecodePacket | selfbotlib/src/main/java/com/github/imagineforgee/selfbotlib/video/VideoStreamer.java:85-98 | the header of payload type 96 followed by any payload decodes to those fields and that payload |
| VideoRtp.FuHeaderBits | selfbotlib/src/main/java/com/github/imagineforgee/selfbotlib/video/VideoStreamer.java:67-70 | the FU indicator is `(nal[0] & 0x60) \| 28`; the FU header carries the NAL type in its low 5 bits, S exactly on the first fragment and E exactly on the last |
| VideoRtp.FuPayloadsCount | selfbotlib/src/main/java/com/github/imagineforgee/selfbotlib/video/VideoStreamer.java:63-79 | the remaining `n - offset` bytes take ceil((n - offset) / 1198) fragments |
| VideoRtp.FuPayloadsShape | selfbotlib/src/main/java/com/github/imagineforgee/selfbotlib/video/VideoStreamer.java:63-77 | every fragment has the indicator, a header with the right S and E bits and the NAL type, and a body of 1 to 1198 bytes |
| VideoRtp.FuBodiesOfPayloads | selfbotlib/src/main/java/com/github/imagineforgee/selfbotlib/video/VideoStreamer.java:63-77 | the fragment bodies, without their two header bytes, give back `nal[offset..]` |
| VideoRtp.PacketizeRoundTrip | selfbotlib/src/main/java/com/github/imagineforgee/selfbotlib/video/VideoStreamer.java:54-82 | a receiver following section 5.8 of RFC 6184 reassembles the NAL unit from its payloads |
| VideoRtp.PayloadsCount | selfbotlib/src/main/java/com/github/imagineforgee/selfbotlib/video/VideoStreamer.java:56-79 | a unit of up to 1200 bytes is one packet carrying it unchanged; a larger one takes ceil((n - 1) / 1198) fragments whose bodies are `nal[1..]` |
| VideoRtp.StampPackets | selfbotlib/src/main/java/com/github/imagineforgee/selfbotlib/video/VideoStreamer.java:76 | packet `i` carries payload `i`, sequence number `sequence + i` mod 2^32, and the shared timestamp and SSRC |
| VideoRtp.VideoNonce | selfbotlib/src/main/java/com/github/imagineforgee/selfbotlib/video/VideoStreamer.java:104-105 | the nonce is 24 bytes; its layout is given by `VideoRtp.SealLayout` |
| VideoRtp.SealLayout | selfbotlib/src/main/java/com/github/imagineforgee/selfbotlib/video/VideoStreamer.java:102-120 | nothing is sent exactly when sealing fails; a datagram is the clear header followed by the sealed payload, 16 bytes longer than the packet; the nonce is the header followed by 12 zero bytes |
| VideoRtp.NalDatagrams | selfbotlib/src/main/java/com/github/imagineforgee/selfbotlib/video/VideoStreamer.java:45-51 | datagram `i` of a NAL unit carries in clear the header with sequence `sequence + i`, the unit's timestamp and the SSRC |
| VideoRtp.FragmentAt | selfbotlib/src/main/java/com/github/imagineforgee/selfbotlib/video/VideoStreamer.java:66-75 | one pass of the FU-A loop builds the next fragment of the specified list |
| VideoRtp.VideoStreamer.constructor | selfbotlib/src/main/java/com/github/imagineforgee/selfbotlib/video/VideoStreamer.java:26-34 | a streamer for the SSRC and the key, not streaming, having sent nothing |
| VideoRtp.VideoStreamer.Start | selfbotlib/src/main/java/com/github/imagineforgee/selfbotlib/video/VideoStreamer.java:36-41 | a start stops any earlier subscription and resets both counters to 0 |
| VideoRtp.VideoStreamer.Stop | selfbotlib/src/main/java/com/github/imagineforgee/selfbotlib/video/VideoStreamer.java:122-127 | after `stop` nothing streams; the counters and the sent log are unchanged |
| VideoRtp.VideoStreamer.CreateRtpPacket | selfbotlib/src/main/java/com/github/imagineforgee/selfbotlib/video/VideoStreamer.java:84-100 | a fresh array holding the encoding of the packet |
| VideoRtp.VideoStreamer.PacketizeNal | selfbotlib/src/main/java/com/github/imagineforgee/selfbotlib/video/VideoStreamer.java:54-82 | the serialised packets of the unit's payloads, numbered on from `counter`; the counter advances by their number mod 2^32 |
| VideoRtp.VideoStreamer.Fragment | selfbotlib/src/main/java/com/github/imagineforgee/selfbotlib/video/VideoStreamer.java:61-79 | the FU-A loop produces the serialised, numbered fragments of the whole unit after its header byte |
| VideoRtp.VideoStreamer.FragmentStep | selfbotlib/src/main/java/com/github/imagineforgee/selfbotlib/video/VideoStreamer.java:72-78 | one pass keeps the loop's invariant: fragments done plus fragments left are all the fragments, and the numbering goes on |
| VideoRtp.VideoStreamer.SendEncrypted | selfbotlib/src/main/java/com/github/imagineforgee/selfbotlib/video/VideoStreamer.java:102-120 | the outcome of sealing that packet is logged; an exception drops only that packet and leaves the counters alone |
| VideoRtp.VideoStreamer.SendAll | selfbotlib/src/main/java/com/github/imagineforgee/selfbotlib/video/VideoStreamer.java:47-49 | the packets of a unit are sent in order |
| VideoRtp.VideoStreamer.OnNal | selfbotlib/src/main/java/com/github/imagineforgee/selfbotlib/video/VideoStreamer.java:45-51 | a unit's packets are sent with consecutive sequence numbers and one timestamp; then the timestamp advances by 3000 |
| VideoRtp.VideoStreamer.Stream | selfbotlib/src/main/java/com/github/imagineforgee/selfbotlib/video/VideoStreamer.java:45-51 | after `k` units the timestamp has advanced `k` times and the sequence number by the number of packets they took |
| VideoRtp.NextTimestamp | selfbotlib/src/main/java/com/github/imagineforgee/selfbotlib/video/VideoStreamer.java:50 | the timestamp stays a 32-bit value |
| VideoRtp.TimestampAfterIsLinear | selfbotlib/src/main/java/com/github/imagineforgee/selfbotlib/video/VideoStreamer.java:50 | after `k` units the timestamp is `t0 + 3000 k` mod 2^32, one frame of the 90 kHz clock at 30 frames per second per unit |
| VideoRtp.PayloadsLength | selfbotlib/src/main/java/com/github/imagineforgee/selfbotlib/video/VideoStreamer.java:56-79 | the number of packets of a unit is one up to the MTU and ceil((n - 1) / 1198) above it |
| OpusRtp.NextSequence | selfbotlib/src/main/java/com/github/imagineforgee/selfbotlib/voice/OpusUdpStreamer.java:46 | the sequence number stays 16 bits wide |
| OpusRtp.NextTimestamp | selfbotlib/src/main/java/com/github/imagineforgee/selfbotlib/voice/OpusUdpStreamer.java:47 | the timestamp stays 32 bits wide |
| OpusRtp.NextCounter | selfbotlib/src/main/java/com/github/imagineforgee/selfbotlib/voice/OpusUdpStreamer.java:56 | the nonce counter stays 32 bits wide |
| OpusRtp.InitialTimestamp | selfbotlib/src/main/java/com/github/imagineforgee/selfbotlib/voice/OpusUdpStreamer.java:36 | the first timestamp is a 32-bit value taken from the clock reading |
| OpusRtp.FrameNonce | selfbotlib/src/main/java/com/github/imagineforgee/selfbotlib/voice/OpusUdpStreamer.java:57-61 | the nonce is 24 bytes; its bytes are given by `OpusRtp.NewFrameNonce` and `OpusRtp.FrameNonce12IsZero` |
| OpusRtp.FramePacketLayout | selfbotlib/src/main/java/com/github/imagineforgee/selfbotlib/voice/OpusUdpStreamer.java:52-76 | a frame is dropped exactly when encryption throws (a short key); otherwise the packet is the header with payload type 120, then ciphertext of frame length plus 16, then the counter's four bytes, big-endian |
| OpusRtp.FrameNonce12IsZero | selfbotlib/src/main/java/com/github/imagineforgee/selfbotlib/voice/OpusUdpStreamer.java:57-61 | the 12-byte ChaCha20 nonce of every voice packet is all zeros, because nonce bytes 16-23 are zero |
| OpusRtp.FrameNonceInjective | selfbotlib/src/main/java/com/github/imagineforgee/selfbotlib/voice/OpusUdpStreamer.java:57-61 | distinct counter values give distinct nonces |
| OpusRtp.NoncesNeverRepeat | selfbotlib/src/main/java/com/github/imagineforgee/selfbotlib/voice/OpusUdpStreamer.java:21 | no two frames of a run of up to 2^32 frames share a nonce |
| OpusRtp.ConnectedPrefix | selfbotlib/src/main/java/com/github/imagineforgee/selfbotlib/voice/OpusUdpStreamer.java:41 | `takeWhile` passes the frames before the first false connection flag |
| OpusRtp.ConnectedPrefixIs | selfbotlib/src/main/java/com/github/imagineforgee/selfbotlib/voice/OpusUdpStreamer.java:41 | the passed prefix is exactly the run of leading true flags |
| OpusRtp.FramePacketsStep | selfbotlib/src/main/java/com/github/imagineforgee/selfbotlib/voice/OpusUdpStreamer.java:45-49 | frame `i` is sent with sequence `s0 + i`, timestamp `t0 + 960 i` and counter `c0 + i`, each wrapped to its width |
| OpusRtp.OpusStreamer.constructor | selfbotlib/src/main/java/com/github/imagineforgee/selfbotlib/voice/OpusUdpStreamer.java:21-32 | a streamer for the SSRC and the key with the nonce counter at 0 |
| OpusRtp.OpusStreamer.Start | selfbotlib/src/main/java/com/github/imagineforgee/selfbotlib/voice/OpusUdpStreamer.java:34-38 | a start sets the sequence to 0 and the timestamp from the clock; it keeps the nonce counter |
| OpusRtp.OpusStreamer.Stop | selfbotlib/src/main/java/com/github/imagineforgee/selfbotlib/voice/OpusUdpStreamer.java:89-94 | after `stop` nothing streams and nothing else changes, so a second call changes nothing |
| OpusRtp.OpusStreamer.CreateRtpHeader | selfbotlib/src/main/java/com/github/imagineforgee/selfbotlib/voice/OpusUdpStreamer.java:78-87 | a fresh 12-byte array holding the header with payload type 120 |
| OpusRtp.OpusStreamer.SendFrame | selfbotlib/src/main/java/com/github/imagineforgee/selfbotlib/voice/OpusUdpStreamer.java:52-76 | the counter advances by one even when the send fails; the outcome of that frame is logged; the other counters are kept |
| OpusRtp.OpusStreamer.OnFrame | selfbotlib/src/main/java/com/github/imagineforgee/selfbotlib/voice/OpusUdpStreamer.java:45-49 | the frame is sent with the current counters; sequence, timestamp and nonce counter each advance once |
| OpusRtp.OpusStreamer.Play | selfbotlib/src/main/java/com/github/imagineforgee/selfbotlib/voice/OpusUdpStreamer.java:34-50 | the frames before the connection drops are sent in order; frame `k` carries sequence `s + k` mod 2^16, timestamp `t + 960 k` mod 2^32 and counter `c + k` mod 2^32 |
| OpusRtp.OpusStreamer.PlayFrame | selfbotlib/src/main/java/com/github/imagineforgee/selfbotlib/voice/OpusUdpStreamer.java:45-49 | one frame of a run moves the counters and the log from their values after `i` frames to those after `i + 1` |
| OpusRtp.NewFrameNonce | selfbotlib/src/main/java/com/github/imagineforgee/selfbotlib/voice/OpusUdpStreamer.java:57-61 | a fresh array holding the counter big-endian in bytes 0-3 and zeros after |
| OpusRtp.AssemblePacket | selfbotlib/src/main/java/com/github/imagineforgee/selfbotlib/voice/OpusUdpStreamer.java:64-70 | the packet is the header, the ciphertext, then the nonce's first four bytes |
| Sodium.QuarterRoundVector | selfbotlib/src/main/java/com/github/imagineforgee/selfbotlib/voice/SodiumEncryption.java:53-58 | the quarter round gives the output of the test vector of section 2.1.1 of RFC 8439 |
| Sodium.QuarterRoundAt | selfbotlib/src/main/java/com/github/imagineforgee/selfbotlib/voice/SodiumEncryption.java:53-58 | the quarter round on the state keeps its length; `Sodium.QrStepsIsQuarterRound` shows the in-place `qr` computes it, as RFC 8439 defines it |
| Sodium.DoubleRound | selfbotlib/src/main/java/com/github/imagineforgee/selfbotlib/voice/SodiumEncryption.java:41-44 | four column rounds then four diagonal rounds keep the 16 words; `Sodium.DoubleRoundInPlace` shows one pass of the source's round loop computes it |
| Sodium.Rounds | selfbotlib/src/main/java/com/github/imagineforgee/selfbotlib/voice/SodiumEncryption.java:40-45 | the double rounds keep the 16 words; `HChaChaVector.RoundsVector` gives its value on the published test vector |
| Sodium.InitialState | selfbotlib/src/main/java/com/github/imagineforgee/selfbotlib/voice/SodiumEncryption.java:32-37 | the input block is the constants "expand 32-byte k", then the key as eight little-endian words, then nonce bytes 0-15 as four little-endian words; `HChaChaVector.InitialVector` gives it on the published test vector |
| Sodium.KeyWords | selfbotlib/src/main/java/com/github/imagineforgee/selfbotlib/voice/SodiumEncryption.java:33 | the key as eight little-endian words, word `j` from bytes `4j .. 4j + 3` |
| Sodium.LEWordsRead | selfbotlib/src/main/java/com/github/imagineforgee/selfbotlib/voice/SodiumEncryption.java:47-49 | word `i` reads back out of the little-endian serialisation |
| Sodium.HChaCha20Spec | selfbotlib/src/main/java/com/github/imagineforgee/selfbotlib/voice/SodiumEncryption.java:30-51 | the subkey is 32 bytes; its value is checked against the published vector by `HChaChaVector.HChaCha20Vector` and computed in place by `Sodium.HChaCha20` |
| Sodium.SubkeyWords | selfbotlib/src/main/java/com/github/imagineforgee/selfbotlib/voice/SodiumEncryption.java:47-49 | subkey word `i` is word 0-3 or 12-15 of the state after the rounds, with no feed-forward of the input |
| Sodium.Qr | selfbotlib/src/main/java/com/github/imagineforgee/selfbotlib/voice/SodiumEncryption.java:53-58 | the array after `qr` is the twelve single-word updates applied in order |
| Sodium.QrStepsIsQuarterRound | selfbotlib/src/main/java/com/github/imagineforgee/selfbotlib/voice/SodiumEncryption.java:53-58 | on four distinct indices the in-place updates are the quarter round of RFC 8439 |
| Sodium.QrStepsFrame | selfbotlib/src/main/java/com/github/imagineforgee/selfbotlib/voice/SodiumEncryption.java:53-58 | `qr` writes no word but a, b, c and d |
| Sodium.WriteLeInt | selfbotlib/src/main/java/com/github/imagineforgee/selfbotlib/voice/SodiumEncryption.java:65-68 | `b[off .. off + 4]` becomes the word little-endian and every other byte is kept |
| Sodium.DoubleRoundInPlace | selfbotlib/src/main/java/com/github/imagineforgee/selfbotlib/voice/SodiumEncryption.java:41-44 | one pass of the round loop is one double round |
| Sodium.InitialBlock | selfbotlib/src/main/java/com/github/imagineforgee/selfbotlib/voice/SodiumEncryption.java:32-37 | the state holds the constants "expand 32-byte k", the key words and nonce bytes 0-15 as words |
| Sodium.HChaCha20 | selfbotlib/src/main/java/com/github/imagineforgee/selfbotlib/voice/SodiumEncryption.java:30-51 | `hChaCha20` returns HChaCha20 of section 2.2 of draft-irtf-cfrg-xchacha |
| Sodium.Subkey | selfbotlib/src/main/java/com/github/imagineforgee/selfbotlib/voice/SodiumEncryption.java:47-49 | the output is words 0-3 and 12-15 of the state, little-endian |
| Sodium.Nonce12 | selfbotlib/src/main/java/com/github/imagineforgee/selfbotlib/voice/SodiumEncryption.java:13-14 | the ChaCha20 nonce is 12 bytes; its bytes are given by `Sodium.NewNonce12` |
| Sodium.Encrypt | selfbotlib/src/main/java/com/github/imagineforgee/selfbotlib/voice/SodiumEncryption.java:9-28 | `encrypt` gives the XChaCha20-Poly1305 seal of its inputs, or the exception |
| Sodium.NewNonce12 | selfbotlib/src/main/java/com/github/imagineforgee/selfbotlib/voice/SodiumEncryption.java:13-14 | a fresh array of four zero bytes followed by nonce bytes 16-23 |
| Sodium.SealIs | selfbotlib/src/main/java/com/github/imagineforgee/selfbotlib/voice/SodiumEncryption.java:11-22 | the AEAD runs under the HChaCha20 subkey and the 12-byte nonce |
| Sodium.SealOutcome | selfbotlib/src/main/java/com/github/imagineforgee/selfbotlib/voice/SodiumEncryption.java:9-28 | encryption fails exactly on a short key or nonce; otherwise its output is the plaintext length plus 16 |
| Sodium.CounterNonce | selfbotlib/src/main/java/com/github/imagineforgee/selfbotlib/voice/SodiumEncryption.java:13-14 | a nonce that is zero after byte 3 gives an all-zero 12-byte nonce |
| HChaChaVector.InitialVector | selfbotlib/src/main/java/com/github/imagineforgee/selfbotlib/voice/SodiumEncryption.java:32-37 | the input block of the draft's test vector, word by word |
| HChaChaVector.RoundsVector | selfbotlib/src/main/java/com/github/imagineforgee/selfbotlib/voice/SodiumEncryption.java:40-45 | the state after the ten double rounds of the test vector |
| HChaChaVector.HChaCha20Vector | selfbotlib/src/main/java/com/github/imagineforgee/selfbotlib/voice/SodiumEncryption.java:30-51 | the derived subkey is the one section 2.2.1 of draft-irtf-cfrg-xchacha publishes |
| HChaChaVector.SubkeyOfFinalState | selfbotlib/src/main/java/com/github/imagineforgee/selfbotlib/voice/SodiumEncryption.java:47-49 | words 0-3 and 12-15 of the final state serialise to the published subkey |
| Bytes.LE32RoundTrip | selfbotlib/src/main/java/com/github/imagineforgee/selfbotlib/voice/SodiumEncryption.java:60-68 | `leInt` reads back the word `writeLeInt` wrote |
| Bytes.ReadLE32At | selfbotlib/src/main/java/com/github/imagineforgee/selfbotlib/voice/SodiumEncryption.java:60-63 | the word reads back from inside a longer buffer |
| Bytes.BE16RoundTrip | selfbotlib/src/main/java/com/github/imagineforgee/selfbotlib/voice/OpusUdpStreamer.java:81-82 | the big-endian sequence field reads back |
| Bytes.BE32RoundTrip | selfbotlib/src/main/java/com/github/imagineforgee/selfbotlib/voice/OpusUdpStreamer.java:83-86 | the big-endian timestamp and SSRC fields read back |
| Bytes.ArrayCopy | selfbotlib/src/main/java/com/github/imagineforgee/selfbotlib/video/VideoPlayer.java:169 | `System.arraycopy` copies as if through a temporary array, so an overlapping move is correct, and changes nothing outside the target range |
| Tracks.TrackQueue.constructor | selfbotlib/src/main/java/com/github/imagineforgee/selfbotlib/voice/music/track/TrackQueue.java:9 | a new queue is empty |
| Tracks.TrackQueue.Add | selfbotlib/src/main/java/com/github/imagineforgee/selfbotlib/voice/music/track/TrackQueue.java:11-13 | the track goes to the tail |
| Tracks.TrackQueue.AddAll | selfbotlib/src/main/java/com/github/imagineforgee/selfbotlib/voice/music/track/TrackQueue.java:15-19 | the tracks go to the tail in iteration order |
| Tracks.TrackQueue.Poll | selfbotlib/src/main/java/com/github/imagineforgee/selfbotlib/voice/music/track/TrackQueue.java:21-23 | a nonempty queue gives its head and loses only it; an empty one gives null and stays empty |
| Tracks.TrackQueue.IsEmpty | selfbotlib/src/main/java/com/github/imagineforgee/selfbotlib/voice/music/track/TrackQueue.java:25-27 | true exactly when the size is 0 |
| Tracks.TrackQueue.Clear | selfbotlib/src/main/java/com/github/imagineforgee/selfbotlib/voice/music/track/TrackQueue.java:29-31 | the queue is empty |
| Tracks.TrackQueue.Snapshot | selfbotlib/src/main/java/com/github/imagineforgee/selfbotlib/voice/music/track/TrackQueue.java:33-35 | the snapshot is the queue in order; it is a value, so later changes to the queue do not reach it |
| Tracks.AudioPlayer.StartTrack | selfbotlib/src/main/java/com/github/imagineforgee/selfbotlib/voice/music/track/TrackScheduler.java:21 | with `noInterrupt` a start succeeds exactly when nothing is playing; a successful start makes the track current |
| Tracks.AudioPlayer.StopTrack | selfbotlib/src/main/java/com/github/imagineforgee/selfbotlib/voice/music/track/TrackScheduler.java:47 | no track is current |
| Tracks.LavaPlayer.StartAudioStream | selfbotlib/src/main/java/com/github/imagineforgee/selfbotlib/voice/audio/music/LavaPlayer.java:84-88 | the call is recorded and the stream is on; the scheduler imports a `LavaPlayer` from the `voice.music` package, which is not part of this model, so this stand-in follows the `voice.audio.music` class on the assumption that the two agree |
| Tracks.LavaPlayer.Stop | selfbotlib/src/main/java/com/github/imagineforgee/selfbotlib/voice/audio/music/LavaPlayer.java:131-136 | the call is recorded; the player's track is stopped and the stream is off; like `StartAudioStream`, it follows the `voice.audio.music` class |
| Tracks.TrackScheduler.constructor | selfbotlib/src/main/java/com/github/imagineforgee/selfbotlib/voice/music/track/TrackScheduler.java:14-18 | the scheduler and the front-end share one player, and the FIFO invariant holds |
| Tracks.TrackScheduler.Queue | selfbotlib/src/main/java/com/github/imagineforgee/selfbotlib/voice/music/track/TrackScheduler.java:20-26 | with nothing playing the track becomes current, the queue is unchanged and the stream starts; otherwise the track goes to the tail and the current track is kept |
| Tracks.TrackScheduler.OnTrackEnd | selfbotlib/src/main/java/com/github/imagineforgee/selfbotlib/voice/music/track/TrackScheduler.java:28-39 | when a next track may start, the head becomes current and leaves the queue, or the front-end stops when the queue is empty; otherwise nothing changes; tracks start in FIFO order |
| Tracks.TrackScheduler.Skip | selfbotlib/src/main/java/com/github/imagineforgee/selfbotlib/voice/music/track/TrackScheduler.java:41-50 | the head becomes current and the queue shrinks by one; with an empty queue the track stops, the front-end stops and nothing is current |
| Tracks.TrackScheduler.StartNext | selfbotlib/src/main/java/com/github/imagineforgee/selfbotlib/voice/music/track/TrackScheduler.java:31-37 | poll and start the head or stop, keeping the tracks dequeued then waiting equal to the tracks enqueued |
| Commands.SplitOption | selfbotlib/src/main/java/com/github/imagineforgee/selfbotlib/commands/CommandContext.java:43-44 | the key is the text before the first `=` and the value is everything after it, later `=`s included |
| Commands.SplitOptionOf | selfbotlib/src/main/java/com/github/imagineforgee/selfbotlib/commands/CommandContext.java:43-44 | `key=value` splits back into that key and that value |
| Commands.Positionals | selfbotlib/src/main/java/com/github/imagineforgee/selfbotlib/commands/CommandContext.java:46 | no positional argument holds `=` |
| Commands.OptionParts | selfbotlib/src/main/java/com/github/imagineforgee/selfbotlib/commands/CommandContext.java:42-44 | every option part holds `=` |
| Commands.PartsPartitioned | selfbotlib/src/main/java/com/github/imagineforgee/selfbotlib/commands/CommandContext.java:40-48 | every token lands in exactly one of the options and the positional arguments, as often as it occurs |
| Commands.OptionsKeys | selfbotlib/src/main/java/com/github/imagineforgee/selfbotlib/commands/CommandContext.java:41-44 | the option keys are exactly the keys of the option parts |
| Commands.OptionsLastWins | selfbotlib/src/main/java/com/github/imagineforgee/selfbotlib/commands/CommandContext.java:44 | for a repeated key the last occurrence wins |
| Commands.PositionalsAppend | selfbotlib/src/main/java/com/github/imagineforgee/selfbotlib/commands/CommandContext.java:46 | positional arguments keep their input order |
| Commands.PositionalsAllPlain | selfbotlib/src/main/java/com/github/imagineforgee/selfbotlib/commands/CommandContext.java:46 | without `=` every token is positional, in order, and there is no option |
| Commands.EmptyArgs | selfbotlib/src/main/java/com/github/imagineforgee/selfbotlib/commands/CommandContext.java:40 | empty raw arguments give one empty positional argument and no option |
| Commands.Convert | selfbotlib/src/main/java/com/github/imagineforgee/selfbotlib/commands/CommandContext.java:56-64 | the value has the class asked for and is in range for it; String and Boolean conversions never fail |
| Commands.ConvertShow | selfbotlib/src/main/java/com/github/imagineforgee/selfbotlib/commands/CommandContext.java:57-58 | a decimal number converts to itself when in range for `Integer` or `Long` and fails otherwise |
| Commands.ConvertBoolean | selfbotlib/src/main/java/com/github/imagineforgee/selfbotlib/commands/CommandContext.java:59 | for every text, `Boolean.valueOf` is true exactly when the text is the four letters of "true" in any mix of cases, and false otherwise; it never fails |
| Commands.CommandContext.constructor | selfbotlib/src/main/java/com/github/imagineforgee/selfbotlib/commands/CommandContext.java:27-37 | a new context has parsed its raw arguments, with no group, action or reply |
| Commands.CommandContext.ParseArgs | selfbotlib/src/main/java/com/github/imagineforgee/selfbotlib/commands/CommandContext.java:39-49 | the loop leaves the positional arguments and the options of the whitespace-split tokens |
| Commands.CommandContext.GetOption | selfbotlib/src/main/java/com/github/imagineforgee/selfbotlib/commands/CommandContext.java:52-65 | a missing key or a failed conversion gives the default; a conversion that works gives its value: the raw text for String, `Integer.valueOf`, `Long.valueOf` or `Boolean.valueOf` of it for the others |
| Commands.CommandContext.GetPositional | selfbotlib/src/main/java/com/github/imagineforgee/selfbotlib/commands/CommandContext.java:68-81 | past the last argument or on a failed conversion, the default; a conversion that works gives its value, the raw argument for String; a negative index throws |
| Commands.CommandContext.SetGroup | selfbotlib/src/main/java/com/github/imagineforgee/selfbotlib/commands/CommandContext.java:91-93 | sets the group and nothing else |
| Commands.CommandContext.SetAction | selfbotlib/src/main/java/com/github/imagineforgee/selfbotlib/commands/CommandContext.java:95-97 | sets the action and nothing else |
| Commands.CommandContext.Reply | selfbotlib/src/main/java/com/github/imagineforgee/selfbotlib/commands/CommandContext.java:131-133 | the reply is recorded after the earlier ones |
| Commands.NumericOption | selfbotlib/src/main/java/com/github/imagineforgee/selfbotlib/commands/CommandContext.java:52-65 | an option given as a decimal number reads back as that number as an `Integer` or a `Long` when it is in range, and as the default otherwise |
| Commands.NumericPositional | selfbotlib/src/main/java/com/github/imagineforgee/selfbotlib/commands/CommandContext.java:68-81 | a positional argument given as a decimal number reads back the same way |
| Commands.OptionGivenLast | selfbotlib/src/main/java/com/github/imagineforgee/selfbotlib/commands/CommandContext.java:44-61 | `getOption` as a String finds the value given last for the key |
| Commands.RegistryKeys | selfbotlib/src/main/java/com/github/imagineforgee/selfbotlib/commands/CommandManager.java:17-25 | a key is registered exactly when it was before or some command of the list has it |
| Commands.RegistryLastWins | selfbotlib/src/main/java/com/github/imagineforgee/selfbotlib/commands/CommandManager.java:23 | a later command with the same key replaces an earlier one |
| Commands.RegistryUntouched | selfbotlib/src/main/java/com/github/imagineforgee/selfbotlib/commands/CommandManager.java:23 | a key no command of the list has keeps its entry |
| Commands.GroupActionPlain | selfbotlib/src/main/java/com/github/imagineforgee/selfbotlib/commands/CommandManager.java:58-60 | a key without `:` is the action of group `general` |
| Commands.GroupActionSplit | selfbotlib/src/main/java/com/github/imagineforgee/selfbotlib/commands/CommandManager.java:58-60 | `group:action`, with anything after a further `:`, gives that group and that action |
| Commands.GroupActionTrailingColon | selfbotlib/src/main/java/com/github/imagineforgee/selfbotlib/commands/CommandManager.java:58-60 | `help:` is the action `help:` of group `general`, because `split` drops the trailing empty piece |
| Commands.RegisteredGroupAction | selfbotlib/src/main/java/com/github/imagineforgee/selfbotlib/commands/CommandManager.java:19-23 | a registered command runs as its first group and its name, lower-cased, or as a `general` action when it has no group |
| Commands.Handling | selfbotlib/src/main/java/com/github/imagineforgee/selfbotlib/commands/CommandManager.java:47-72 | an unknown key replies "❌ Unknown command: " plus the raw command and sets no group or action; a known one replies only when it fails; the command run is the one registered under the lower-cased key |
| Commands.HandlesRegistered | selfbotlib/src/main/java/com/github/imagineforgee/selfbotlib/commands/CommandManager.java:47-63 | a raw command in any letter case runs the command last registered under its key, under that command's own group and name |
| Commands.CommandExecutePayload | selfbotlib/src/main/java/com/github/imagineforgee/selfbotlib/commands/CommandManager.java:35-43 | the dispatched payload is `COMMAND_EXECUTE` with the user, the guild (or null), the raw command and the context id |
| Commands.ContextStore.Put | selfbotlib/src/main/java/com/github/imagineforgee/selfbotlib/commands/CommandContextStore.java:9-11 | the context is stored under its id |
| Commands.CommandManager.constructor | selfbotlib/src/main/java/com/github/imagineforgee/selfbotlib/commands/CommandManager.java:15 | the registry starts empty |
| Commands.CommandManager.RegisterCommands | selfbotlib/src/main/java/com/github/imagineforgee/selfbotlib/commands/CommandManager.java:17-25 | each command is put under its lower-cased key, in list order |
| Commands.CommandManager.HandleCommand | selfbotlib/src/main/java/com/github/imagineforgee/selfbotlib/commands/CommandManager.java:27-73 | the context is stored and `COMMAND_EXECUTE` dispatched before the lookup, for unknown commands too; then group, action, reply and the command run are those of `Handling` |
| Client.Mention | selfbotlib/src/main/java/com/github/imagineforgee/selfbotlib/client/UserBotClient.java:187 | the mention is `<@id>`, or `<@null>` before the id is known |
| Client.ParseCommand | selfbotlib/src/main/java/com/github/imagineforgee/selfbotlib/client/UserBotClient.java:185-200 | a message is a command exactly when its trimmed text starts with the mention; the name is the first whitespace-free token of the trimmed rest and the arguments are everything after the first whitespace run, or empty |
| Client.ParseCommandTrimmed | selfbotlib/src/main/java/com/github/imagineforgee/selfbotlib/client/UserBotClient.java:189-197 | padding around the message and after the mention is ignored |
| Client.ParseCommandOf | selfbotlib/src/main/java/com/github/imagineforgee/selfbotlib/client/UserBotClient.java:193-197 | mention, name, whitespace and arguments, in any `trim` padding, parse to that name and those arguments |
| Client.ParseNameOnly | selfbotlib/src/main/java/com/github/imagineforgee/selfbotlib/client/UserBotClient.java:191-197 | a name alone after the mention gives empty arguments |
| Client.CommandBeforeReady | selfbotlib/src/main/java/com/github/imagineforgee/selfbotlib/client/UserBotClient.java:187 | before `READY` a message mentioning the user `null` is taken as a command |
| Client.VoiceStepOf | selfbotlib/src/main/java/com/github/imagineforgee/selfbotlib/client/UserBotClient.java:81-89 | an entry updates the registry exactly when it is an object with `user_id` and a non-null `channel_id` that read as strings; a non-object entry throws |
| Client.VoiceStatesOthersUnchanged | selfbotlib/src/main/java/com/github/imagineforgee/selfbotlib/client/UserBotClient.java:80-90 | a user no entry updates keeps its registry entry, or its absence |
| Client.VoiceStatesLastWins | selfbotlib/src/main/java/com/github/imagineforgee/selfbotlib/client/UserBotClient.java:80-90 | in a run to the end a user's channel is the one of its last entry |
| Client.VoiceStateSkipped | selfbotlib/src/main/java/com/github/imagineforgee/selfbotlib/client/UserBotClient.java:83 | an entry without `user_id`, without `channel_id` or with a null `channel_id` changes nothing |
| Client.VoiceStatesOf | selfbotlib/src/main/java/com/github/imagineforgee/selfbotlib/dispatch/events/GuildCreateEvent.java:24-26 | the `voice_states` array, or an empty one when absent; a non-array throws |
| Client.VoiceStateRegistry.Update | selfbotlib/src/main/java/com/github/imagineforgee/selfbotlib/client/UserBotClient.java:87 | the user's channel is set |
| Client.GuildPayloads | selfbotlib/src/main/java/com/github/imagineforgee/selfbotlib/client/UserBotClient.java:64-72 | one `GUILD_CREATE` payload per guild, in array order, up to the first entry that is not an object |
| Client.AllGuildsDispatched | selfbotlib/src/main/java/com/github/imagineforgee/selfbotlib/client/UserBotClient.java:64-72 | when every guild is an object, every guild gets its payload |
| Client.UserBotClient.constructor | selfbotlib/src/main/java/com/github/imagineforgee/selfbotlib/client/UserBotClient.java:38 | the bot's id is unknown until `READY` |
| Client.UserBotClient.OnReady | selfbotlib/src/main/java/com/github/imagineforgee/selfbotlib/client/UserBotClient.java:58-73 | the id is recorded; the guild payloads are dispatched in order; the handler completes exactly when every entry was an object |
| Client.UserBotClient.OnGuildCreate | selfbotlib/src/main/java/com/github/imagineforgee/selfbotlib/client/UserBotClient.java:77-91 | the registry gets the updates of the voice states in order, up to the first entry that throws |
| Client.UserBotClient.OnMessageCreate | selfbotlib/src/main/java/com/github/imagineforgee/selfbotlib/client/UserBotClient.java:184-200 | the listener's command is `ParseCommand` of the content under the current id |
| JavaStrings.SplitWs | selfbotlib/src/main/java/com/github/imagineforgee/selfbotlib/commands/CommandContext.java:40 | no piece holds whitespace; text without whitespace is one piece |
| JavaStrings.SplitWs2 | selfbotlib/src/main/java/com/github/imagineforgee/selfbotlib/client/UserBotClient.java:195 | one piece exactly when there is no whitespace; otherwise the first token and everything after the first whitespace run |
| JavaStrings.SplitWs2Of | selfbotlib/src/main/java/com/github/imagineforgee/selfbotlib/client/UserBotClient.java:195 | token, whitespace and rest split into the token and the rest |
| JavaStrings.WsPiecesJoin | selfbotlib/src/main/java/com/github/imagineforgee/selfbotlib/commands/CommandContext.java:40 | the pieces joined with single spaces are the text with each whitespace run collapsed |
| JavaStrings.CharPiecesJoin | selfbotlib/src/main/java/com/github/imagineforgee/selfbotlib/webhook/WebhookClient.java:30 | the pieces between separators, joined again, give the text |
| JavaStrings.SplitChar | selfbotlib/src/main/java/com/github/imagineforgee/selfbotlib/webhook/WebhookClient.java:30 | no piece holds the separator; text without it is one piece |
| JavaStrings.DropTrailingEmpty | selfbotlib/src/main/java/com/github/imagineforgee/selfbotlib/webhook/WebhookClient.java:30 | `split` keeps a prefix of the pieces ending in a nonempty one and drops only empty ones |
| JavaStrings.SplitChar2 | selfbotlib/src/main/java/com/github/imagineforgee/selfbotlib/commands/CommandContext.java:43 | with the separator, two pieces that put back together give the text, the first free of it |
| JavaStrings.SplitChar2Of | selfbotlib/src/main/java/com/github/imagineforgee/selfbotlib/commands/CommandContext.java:43 | `split(c, 2)` cuts at the first `c`, whatever follows |
| JavaStrings.Trim | selfbotlib/src/main/java/com/github/imagineforgee/selfbotlib/client/UserBotClient.java:189 | the result neither starts nor ends with a character up to U+0020 |
| JavaStrings.TrimPadded | selfbotlib/src/main/java/com/github/imagineforgee/selfbotlib/client/UserBotClient.java:189 | `trim` cuts exactly the padding around trimmed text |
| JavaStrings.TrimTwice | selfbotlib/src/main/java/com/github/imagineforgee/selfbotlib/client/UserBotClient.java:194 | `trim` is idempotent |
| JavaStrings.ReplaceAbsent | selfbotlib/src/main/java/com/github/imagineforgee/selfbotlib/webhook/WebhookClient.java:30 | text without the target is left alone |
| JavaStrings.ReplaceLeading | selfbotlib/src/main/java/com/github/imagineforgee/selfbotlib/webhook/WebhookClient.java:30 | a leading occurrence is replaced and the rest is handled alone |
| JavaStrings.Lower | selfbotlib/src/main/java/com/github/imagineforgee/selfbotlib/commands/CommandManager.java:23 | lower-casing maps each character |
| JavaStrings.LowerTwice | selfbotlib/src/main/java/com/github/imagineforgee/selfbotlib/commands/CommandManager.java:47 | lower-casing is idempotent, so a registered key finds itself |
| JavaStrings.LowerAppend | selfbotlib/src/main/java/com/github/imagineforgee/selfbotlib/commands/CommandManager.java:19-23 | lower-casing a concatenation lower-cases its parts |
| JavaStrings.ParseInt | selfbotlib/src/main/java/com/github/imagineforgee/selfbotlib/commands/CommandContext.java:57 | a parsed `int` is in range |
| JavaStrings.ParseLong | selfbotlib/src/main/java/com/github/imagineforgee/selfbotlib/commands/CommandContext.java:58 | a parsed `long` is in range |
| JavaStrings.ParseShow | selfbotlib/src/main/java/com/github/imagineforgee/selfbotlib/commands/CommandContext.java:57-58 | parsing reads back any in-range number written in decimal |
| JavaStrings.ParseOverflow | selfbotlib/src/main/java/com/github/imagineforgee/selfbotlib/commands/CommandContext.java:57-58 | a number past the range is refused, not wrapped |
| Json.ToInt32 | selfbotlib/src/main/java/com/github/imagineforgee/selfbotlib/dispatch/events/DmChannelCreateEvent.java:29 | narrowing gives the value congruent mod 2^32 in `int` range, and keeps values already in range |
| Json.GetAsString | selfbotlib/src/main/java/com/github/imagineforgee/selfbotlib/dispatch/events/DmChannelCreateEvent.java:25 | strings, numbers, booleans and one-element arrays of those read as strings; anything else throws |
| Json.GetAsInt | selfbotlib/src/main/java/com/github/imagineforgee/selfbotlib/dispatch/events/DmChannelCreateEvent.java:29 | a number narrows to `int`; a string parses or throws; null, a boolean and an object throw |
| Json.GetAsIntOfNumberText | selfbotlib/src/main/java/com/github/imagineforgee/selfbotlib/dispatch/events/DmChannelCreateEvent.java:29 | an in-range number reads the same as a number and as its decimal text |
| Json.ParseOfStringIsGetAsInt | selfbotlib/src/main/java/com/github/imagineforgee/selfbotlib/dispatch/events/DmChannelCreateEvent.java:29 | `getAsString` then `parseInt` agrees with `getAsInt` wherever narrowing is exact |
| Json.AsObject | selfbotlib/src/main/java/com/github/imagineforgee/selfbotlib/client/UserBotClient.java:65 | only an object converts, and to its own members |
| Json.StringOrNull | selfbotlib/src/main/java/com/github/imagineforgee/selfbotlib/commands/CommandManager.java:36-37 | a null string is stored as JSON null; any other reads back as that string |
| Json.Payload | selfbotlib/src/main/java/com/github/imagineforgee/selfbotlib/client/UserBotClient.java:67-69 | the payload has exactly the members `t` and `d`, holding the type and the data |
| Json.Dispatcher.Dispatch | selfbotlib/src/main/java/com/github/imagineforgee/selfbotlib/client/UserBotClient.java:71 | each dispatched payload is recorded after the earlier ones |
| WebhookClients.UrlPath | selfbotlib/src/main/java/com/github/imagineforgee/selfbotlib/webhook/WebhookClient.java:26 | a URL's path holds no `?`; a URL without a query is all path |
| WebhookClients.Query | selfbotlib/src/main/java/com/github/imagineforgee/selfbotlib/webhook/WebhookClient.java:26 | a URL with a query is its path, `?`, and its query |
| WebhookClients.BaseUrlParts | selfbotlib/src/main/java/com/github/imagineforgee/selfbotlib/webhook/WebhookClient.java:23-27 | the base URL addresses `/api/v10/webhooks/id/token` with the one parameter `with_components=true` |
| WebhookClients.FromUrl | selfbotlib/src/main/java/com/github/imagineforgee/selfbotlib/webhook/WebhookClient.java:29-35 | every occurrence of the API prefix is dropped and the rest split on `/`; fewer than two pieces throw; otherwise the first two are the id and the token |
| WebhookClients.FromUrlOfApiUrl | selfbotlib/src/main/java/com/github/imagineforgee/selfbotlib/webhook/WebhookClient.java:29-35 | a webhook URL gives back its id and its token |
| WebhookClients.FromUrlMissingToken | selfbotlib/src/main/java/com/github/imagineforgee/selfbotlib/webhook/WebhookClient.java:31-32 | a URL with the id alone is refused |
| WebhookClients.FromUrlEmptyToken | selfbotlib/src/main/java/com/github/imagineforgee/selfbotlib/webhook/WebhookClient.java:30-32 | a URL with an empty token is refused, because `split` drops the trailing empty piece |
| WebhookClients.ThreadUrlAsWrittenLosesThread | selfbotlib/src/main/java/com/github/imagineforgee/selfbotlib/webhook/WebhookClient.java:42 | as written, `thread_id` is not a query parameter: it is swallowed into the value of `with_components` |
| WebhookClients.ThreadUrlParts | selfbotlib/src/main/java/com/github/imagineforgee/selfbotlib/webhook/WebhookClient.java:41-44 | the corrected thread URL addresses the webhook and carries both parameters |
| WebhookClients.MessageUrlAsWrittenTargetsWebhook | selfbotlib/src/main/java/com/github/imagineforgee/selfbotlib/webhook/WebhookClient.java:47 | as written, the message path lands in the query and the request addresses the webhook itself |
| WebhookClients.MessageUrlParts | selfbotlib/src/main/java/com/github/imagineforgee/selfbotlib/webhook/WebhookClient.java:46-59 | the corrected message URL addresses `/messages/id` and keeps the query |
| WebhookClients.MessageUrlInjective | selfbotlib/src/main/java/com/github/imagineforgee/selfbotlib/webhook/WebhookClient.java:56 | distinct messages get distinct corrected URLs |
| WebhookClients.RequestTargets | selfbotlib/src/main/java/com/github/imagineforgee/selfbotlib/webhook/WebhookClient.java:37-59 | the requests as written all address the webhook's own path: `send` posts with the one parameter `with_components=true`; `sendWithThread` posts with no `thread_id` parameter; `editMessage` patches and `deleteMessage` deletes, without a body, the webhook whatever the message id |
| WebhookClients.RequestTargetsIntended | selfbotlib/src/main/java/com/github/imagineforgee/selfbotlib/webhook/WebhookClient.java:41-59 | with the corrected URLs, `sendWithThread` posts to the webhook naming the thread in its own parameter, and `editMessage` patches and `deleteMessage` deletes the message's own path |
| WebhookBuilder.WebhookMessageBuilder.constructor | selfbotlib/src/main/java/com/github/imagineforgee/selfbotlib/webhook/WebhookMessageBuilder.java:10-14 | an empty payload, no embeds, no file |
| WebhookBuilder.WebhookMessageBuilder.Payload | selfbotlib/src/main/java/com/github/imagineforgee/selfbotlib/webhook/WebhookMessageBuilder.java:10-14 | the payload holds the members set and, once built with embeds, the live embed array |
| WebhookBuilder.WebhookMessageBuilder.SetProperty | selfbotlib/src/main/java/com/github/imagineforgee/selfbotlib/webhook/WebhookMessageBuilder.java:17-30 | the key now holds the value, or JSON null; a later call overwrites; nothing else changes |
| WebhookBuilder.WebhookMessageBuilder.Content | selfbotlib/src/main/java/com/github/imagineforgee/selfbotlib/webhook/WebhookMessageBuilder.java:17-20 | sets `content` and nothing else |
| WebhookBuilder.WebhookMessageBuilder.Username | selfbotlib/src/main/java/com/github/imagineforgee/selfbotlib/webhook/WebhookMessageBuilder.java:22-25 | sets `username` and nothing else |
| WebhookBuilder.WebhookMessageBuilder.AvatarUrl | selfbotlib/src/main/java/com/github/imagineforgee/selfbotlib/webhook/WebhookMessageBuilder.java:27-30 | sets `avatar_url` and nothing else |
| WebhookBuilder.WebhookMessageBuilder.AddEmbed | selfbotlib/src/main/java/com/github/imagineforgee/selfbotlib/webhook/WebhookMessageBuilder.java:32-35 | the embed goes after the ones added before it |
| WebhookBuilder.WebhookMessageBuilder.WithFile | selfbotlib/src/main/java/com/github/imagineforgee/selfbotlib/webhook/WebhookMessageBuilder.java:38-42 | the last call decides the file and its name |
| WebhookBuilder.WebhookMessageBuilder.BuildJson | selfbotlib/src/main/java/com/github/imagineforgee/selfbotlib/webhook/WebhookMessageBuilder.java:44-50 | `embeds` is in the payload exactly when an embed was added; the other members are unchanged |
| WebhookBuilder.WebhookMessageBuilder.HasFile | selfbotlib/src/main/java/com/github/imagineforgee/selfbotlib/webhook/WebhookMessageBuilder.java:52-54 | true exactly when there is a file |
| WebhookBuilder.BuildMessage | selfbotlib/src/main/java/com/github/imagineforgee/selfbotlib/webhook/WebhookMessageBuilder.java:17-50 | a payload built in the usual order has exactly the members set, each with its last value, and the embeds in order |
| WebhookBuilder.BuildWithoutEmbeds | selfbotlib/src/main/java/com/github/imagineforgee/selfbotlib/webhook/WebhookMessageBuilder.java:45-47 | without embeds the payload has no `embeds` member |
| WebhookBuilder.EmbedAfterBuild | selfbotlib/src/main/java/com/github/imagineforgee/selfbotlib/webhook/WebhookMessageBuilder.java:46 | the embed array is shared, so an embed added after `buildJson` shows up in the payload already built |
| WebhookBuilder.FileFollowsLastCall | selfbotlib/src/main/java/com/github/imagineforgee/selfbotlib/webhook/WebhookMessageBuilder.java:38-62 | `hasFile` and `getFileName` follow the last `withFile`; a later call without a file clears it |
| DmEvents.ChannelTypeOf | selfbotlib/src/main/java/com/github/imagineforgee/selfbotlib/dispatch/events/DmChannelCreateEvent.java:40-46 | 1 is a direct message, 3 a group DM, and every other type unknown, each in both directions |
| DmEvents.DmChannelCreateEvent.ChannelId | selfbotlib/src/main/java/com/github/imagineforgee/selfbotlib/dispatch/events/DmChannelCreateEvent.java:24-26 | the `id` read as a string; an absent one throws |
| DmEvents.DmChannelCreateEvent.ChannelTypeRaw | selfbotlib/src/main/java/com/github/imagineforgee/selfbotlib/dispatch/events/DmChannelCreateEvent.java:28-30 | the `type` read as an `int`; an absent one throws |
| DmEvents.DmChannelCreateEvent.OwnerId | selfbotlib/src/main/java/com/github/imagineforgee/selfbotlib/dispatch/events/DmChannelCreateEvent.java:32-34 | null when `owner_id` is absent, else its string value; throws exactly when that value does not read as a string |
| DmEvents.DmChannelCreateEvent.Recipients | selfbotlib/src/main/java/com/github/imagineforgee/selfbotlib/dispatch/events/DmChannelCreateEvent.java:36-38 | null when absent; an array gives its elements; anything else throws |
| DmEvents.DmChannelCreateEvent.GetChannelType | selfbotlib/src/main/java/com/github/imagineforgee/selfbotlib/dispatch/events/DmChannelCreateEvent.java:40-46 | the raw type, classified; it throws exactly when the raw type throws |
| DmEvents.TypeIsConstant | selfbotlib/src/main/java/com/github/imagineforgee/selfbotlib/dispatch/events/DmChannelCreateEvent.java:14-17 | the type is `PRIVATE_CHANNEL_CREATE` whatever the data |
| DmEvents.NumberTypeClassified | selfbotlib/src/main/java/com/github/imagineforgee/selfbotlib/dispatch/events/DmChannelCreateEvent.java:40-46 | a numeric type classifies by its low 32 bits; in `int` range, 1 and 3 are the only known types |
| DmEvents.WrappedTypeIsDirectMessage | selfbotlib/src/main/java/com/github/imagineforgee/selfbotlib/dispatch/events/DmChannelCreateEvent.java:29 | `getAsInt` narrows, so 2^32 + 1 passes for a direct message |
| DmEvents.TextTypeIsParsed | selfbotlib/src/main/java/com/github/imagineforgee/selfbotlib/dispatch/events/DmChannelCreateEvent.java:29 | a type given as the text "3" is a group DM |
| DmEvents.BadTypeThrows | selfbotlib/src/main/java/com/github/imagineforgee/selfbotlib/dispatch/events/DmChannelCreateEvent.java:28-30 | a missing, null, boolean or object type throws rather than classifying as unknown |
| DmEvents.NullOwnerThrows | selfbotlib/src/main/java/com/github/imagineforgee/selfbotlib/dispatch/events/DmChannelCreateEvent.java:33 | an `owner_id` present as JSON null throws instead of giving null |
| DmEvents.OwnerIdGiven | selfbotlib/src/main/java/com/github/imagineforgee/selfbotlib/dispatch/events/DmChannelCreateEvent.java:33 | a present string owner id is given back as it is |
| DesktopAudio.Int16 | selfbotlib/src/main/java/com/github/imagineforgee/selfbotlib/voice/audio/source/DesktopAudioMode.java:115 | the `(short)` cast gives the value in range congruent mod 2^16 |
| DesktopAudio.JavaSampleIsLittleEndian | selfbotlib/src/main/java/com/github/imagineforgee/selfbotlib/voice/audio/source/DesktopAudioMode.java:115 | with its sign extension, mask, shift and cast, the decoder's expression is the signed 16-bit little-endian value of the two bytes |
| DesktopAudio.LowWord | selfbotlib/src/main/java/com/github/imagineforgee/selfbotlib/voice/audio/source/DesktopAudioMode.java:115 | the low 16 bits of `(lo & 0xFF) \| (hi << 8)` are `lo + 256 hi` |
| DesktopAudio.Pcm16 | selfbotlib/src/main/java/com/github/imagineforgee/selfbotlib/voice/audio/source/DesktopAudioMode.java:113-116 | sample `i` is the little-endian value of bytes `2i` and `2i + 1` |
| DesktopAudio.SampleBytes | selfbotlib/src/main/java/com/github/imagineforgee/selfbotlib/voice/audio/source/DesktopAudioMode.java:27-30 | two bytes, low first, that decode back to the sample |
| DesktopAudio.PcmBytesAt | selfbotlib/src/main/java/com/github/imagineforgee/selfbotlib/voice/audio/source/DesktopAudioMode.java:27-30 | sample `i` is written at bytes `2i` and `2i + 1`, low byte first |
| DesktopAudio.Pcm16OfPcmBytes | selfbotlib/src/main/java/com/github/imagineforgee/selfbotlib/voice/audio/source/DesktopAudioMode.java:113-116 | decoding undoes encoding: samples written as PCM read back as themselves |
| DesktopAudio.FrameSamples | selfbotlib/src/main/java/com/github/imagineforgee/selfbotlib/voice/audio/source/DesktopAudioMode.java:31-32 | a 3840-byte frame decodes to 1920 samples, 960 per channel |
| DesktopAudio.DecodeFrame | selfbotlib/src/main/java/com/github/imagineforgee/selfbotlib/voice/audio/source/DesktopAudioMode.java:113-116 | the loop fills a fresh 1920-element array with the decoded samples |
| DesktopAudio.CaptureStepOf | selfbotlib/src/main/java/com/github/imagineforgee/selfbotlib/voice/audio/source/DesktopAudioMode.java:111-135 | only a read of exactly 3840 bytes is encoded; a forwarded frame holds between 1 and 4096 bytes; a short read is skipped |
| DesktopAudio.CapturedFrames | selfbotlib/src/main/java/com/github/imagineforgee/selfbotlib/voice/audio/source/DesktopAudioMode.java:110-139 | at most one frame per read, each between 1 and 4096 bytes |
| DesktopAudio.ShortReadSkipped | selfbotlib/src/main/java/com/github/imagineforgee/selfbotlib/voice/audio/source/DesktopAudioMode.java:112 | a short read forwards nothing and capture goes on |
| DesktopAudio.FullReadForwarded | selfbotlib/src/main/java/com/github/imagineforgee/selfbotlib/voice/audio/source/DesktopAudioMode.java:121-132 | a full read that encodes to a positive `result` forwards exactly `result` bytes of the encoder's output |
| DesktopAudio.FailedReadStops | selfbotlib/src/main/java/com/github/imagineforgee/selfbotlib/voice/audio/source/DesktopAudioMode.java:138-139 | nothing is forwarded after a read throws |
| DesktopAudio.DesktopAudioMode.constructor | selfbotlib/src/main/java/com/github/imagineforgee/selfbotlib/voice/audio/source/DesktopAudioMode.java:34 | not capturing, no voice client, nothing forwarded, not speaking |
| DesktopAudio.StartResult | selfbotlib/src/main/java/com/github/imagineforgee/selfbotlib/voice/audio/source/DesktopAudioMode.java:66-94 | "Already capturing" exactly while capturing; otherwise a missing voice client throws with `capturing` left true, a missing streamer, device or encoder clears it, and only a full start keeps it set |
| DesktopAudio.NoVoiceClientSticks | selfbotlib/src/main/java/com/github/imagineforgee/selfbotlib/voice/audio/source/DesktopAudioMode.java:66-71 | after the exception for a missing voice client, every later `startCapture` answers "Already capturing" whatever it finds, until `stop` clears the flag |
| DesktopAudio.DesktopAudioMode.SetVoiceClient | selfbotlib/src/main/java/com/github/imagineforgee/selfbotlib/voice/audio/source/DesktopAudioMode.java:51-53 | the mode has its voice client; nothing else changes |
| DesktopAudio.DesktopAudioMode.StartCapture | selfbotlib/src/main/java/com/github/imagineforgee/selfbotlib/voice/audio/source/DesktopAudioMode.java:65-155 | the outcome and the flag are those of `StartResult`; the capture thread starts and the bot speaks exactly on a full start; nothing is forwarded yet |
| DesktopAudio.DesktopAudioMode.Capture | selfbotlib/src/main/java/com/github/imagineforgee/selfbotlib/voice/audio/source/DesktopAudioMode.java:101-148 | the captured frames are forwarded in order; at the end the sink is completed and `capturing` is false |
| DesktopAudio.DesktopAudioMode.Stop | selfbotlib/src/main/java/com/github/imagineforgee/selfbotlib/voice/audio/source/DesktopAudioMode.java:176-181 | `capturing` is false, which also frees a flag left stuck by a missing voice client, and the voice client, when there is one, hears that the bot stops speaking |
| DesktopAudio.DesktopAudioMode.IsActive | selfbotlib/src/main/java/com/github/imagineforgee/selfbotlib/voice/audio/source/DesktopAudioMode.java:185 | active exactly while capturing |
| DesktopAudio.FillBuffer | selfbotlib/src/main/java/com/github/imagineforgee/selfbotlib/voice/audio/source/DesktopAudioMode.java:111 | a full read fills the buffer with the bytes read |

## Left out

- UDP sends, the ffmpeg process, `javax.sound` devices and the JNA Opus encoder are I/O or foreign code. They become inputs:
  - the chunks read (`AnnexB.ReadLoop`);
  - a log of the datagrams handed to the socket (`sent`);
  - the reads of the line;
  - the encoder as a function parameter (`DesktopAudio.DesktopAudioMode.Capture`).
- Reactor plumbing, threads and the 20 ms pacing are concurrency and timing. Frames and NAL units are handled in order as a loop. `takeWhile` on the connection flag is the prefix of true flags (`OpusRtp.ConnectedPrefix`).
- The secretbox and ChaCha20-Poly1305 primitives are foreign cryptography. They are function parameters; a predicate states the 16-byte tag length. The video path passes no associated data, and the model claims no authentication of the header.
- The clock reading that seeds the voice timestamp is the `millis` parameter of `OpusRtp.OpusStreamer.Start`.
- `findDevice`, `listDevices`, `opus_encoder_destroy` and the line's `open`, `start`, `stop` and `close` are device I/O. `DesktopAudio.DesktopAudioMode.StartCapture` takes their outcomes as booleans.
- The race between `stop` and a capture thread that is still running is concurrency. `Capture` is the thread run to its end.
- `DesktopAudio.DesktopAudioMode.Stop`: does not model `captureThread.interrupt()` or `streamer.stop()`, because both act on other threads and objects outside the model.
- HTTP is network I/O: `sendWithFile`, `buildPostRequest`, `sendRequest`, `reactToMessage`, `sendMessage` and `replyToMessage`. Requests are modelled as a verb, a URL and a body: the ones the code builds (`WebhookClients.RequestTargets`), and beside them the corrected ones (`WebhookClients.RequestTargetsIntended`), and replies as a log (`Commands.CommandContext.Reply`).
- Reflection, the random UUID and `Double.valueOf` in the command code are left out:
  - the command class's construction and `execute` are an `Execution` outcome;
  - the context id is a parameter;
  - `Double` options, being floating point, are not modelled.
- The `CommandContext` getters of the event's ids, `getRawArgs`, `getGroup`, `getAction`, `getMsgEvent`, `getBot`, `sendMessage` and `react` are field reads or network calls. The ids are fields of `MessageEvent`.
- `CommandContextStore.get` and `remove` are map reads used only by other listeners.
- `UserBotClient.java:202-203` calls a `CommandContext` constructor and a `handleCommand` overload that do not exist in `CommandContext.java:27` and `CommandManager.java:27`. The message parsing is modelled on its own (`Client.ParseCommand`) and not chained to those calls.
- The `VOICE_STATE_UPDATE` listener, the gateway `op == 0` filter and the parser registrations of `UserBotClient` are event wiring with no logic. `VoiceStateRegistry` is a map of channels by user.
- `WebhookMessageBuilder.getFile`, `WebhookClient`'s getters and `DmChannelCreateEvent.getData` return stored fields. They are the fields of the model's values.
- Only the letters A-Z are lower-cased. `Integer.parseInt` is modelled on ASCII digits, while Java's `Character.digit` also accepts other Unicode digits. `\s` is the six ASCII whitespace characters Java's regex class matches.
- Console output (`System.out.println` and `System.err.println`, for example the payload printed by `buildJson` and the messages of `DesktopAudioMode` and `UserBotClient`) is I/O and is not modelled.
- `WebhookBuilder.WebhookMessageBuilder.AddEmbed`: takes the embed as a JSON value, so a later change to the caller's `JsonObject`, which the builder holds by reference, is not reflected, and `addEmbed(null)` cannot be expressed; the sharing of the embed array itself is modelled (`WebhookBuilder.EmbedAfterBuild`).
- `AnnexB.NalBuffer.Append`: grows the array without bound, while `new byte[(len + length) * 2]` overflows Java's `int` once the buffer passes 1 GiB and then throws `NegativeArraySizeException`; buffers of that size are not modelled.
- JSON numbers are integers. Gson's `BigDecimal` and fractional numbers, and the order of an object's members, are not modelled.
- `VideoPlayer.start`, `stop` and `getProcessBuilder`, `VideoStreamer`'s subscription disposal, `LavaPlayer`'s frame provider, both `MusicManager` files and the `MusicMode` and `VideoMode` interfaces are I/O or thin delegation.
- `Tracks.LavaPlayer.StartAudioStream`: does not model the path where no streamer is ready (`LavaPlayer.java:90-95`), which resets the flag, because the streamer belongs to the voice client outside the model.
- `VideoRtp.VideoStreamer.Stream`: states the counters after the run, not the datagrams, which are stated per unit by `OnNal` and `NalDatagrams`.
- An Annex B demultiplexer would be expected to hold back a partial trailing unit and to give the same units however reads split the stream. The code emits everything after the last start code and empties the buffer (`VideoPlayer.java:164`, `171-172`). The model follows the code; `AnnexB.ChunkingChangesUnits` and `AnnexB.TrailingMarkerIsGlued` show the consequences.

## Findings

| source | as written | input that shows it | evidently intended | confidence | as-written member | corrected member |
|---|---|---|---|---|---|---|
| selfbotlib/src/main/java/com/github/imagineforgee/selfbotlib/webhook/WebhookClient.java:42 | `baseUrl + "?thread_id=" + threadId`, appended to a base URL that already ends in `?with_components=true` | thread `123` gives the query `with_components=true?thread_id=123`, a single parameter `with_components` with value `true?thread_id=123` | `baseUrl + "&thread_id=" + threadId`, so the thread is a second query parameter | not executed | WebhookClients.ThreadUrlAsWrittenLosesThread | WebhookClients.ThreadUrlParts |
| selfbotlib/src/main/java/com/github/imagineforgee/selfbotlib/webhook/WebhookClient.java:47 | `baseUrl + "/messages/" + messageId` for edit, and the same at line 56 for delete | message `9` gives the path `/api/v10/webhooks/id/token` and the query `with_components=true/messages/9`, so the request addresses the webhook, not the message | the path `/webhooks/id/token/messages/9` with the query `?with_components=true` after it | not executed | WebhookClients.MessageUrlAsWrittenTargetsWebhook | WebhookClients.MessageUrlParts |
