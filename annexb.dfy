/** The H.264 Annex B byte-stream demultiplexer of the video player
    (Annex B.2 of ITU-T H.264): ffmpeg's output is read in chunks of at most
    4096 bytes into a growable buffer, and NAL units are cut out between
    `00 00 01` / `00 00 00 01` start codes. */
module AnnexB {
  import opened Bytes

  const READ_CHUNK: nat := 4096
  const INITIAL_CAPACITY: nat := 8192

  /** The start-code test of `indexOfStartCode`: `00 00 01` at `i`, or
      `00 00 00 01` at `i`, and at least one byte after the marker. */
  predicate LeadingMarkerAt(c: seq<byte>, i: int)
  {
    0 <= i && i + 3 < |c| && c[i] == 0 && c[i + 1] == 0 &&
    (c[i + 2] == 1 || (i + 4 < |c| && c[i + 2] == 0 && c[i + 3] == 1))
  }

  /** The end-of-unit test of the scan in `extractNal`: the same markers,
      but checked only where a fourth byte exists, and never requiring a byte
      after the marker. */
  predicate MarkerAt(c: seq<byte>, i: int)
  {
    0 <= i && i + 3 < |c| && c[i] == 0 && c[i + 1] == 0 &&
    (c[i + 2] == 1 || (c[i + 2] == 0 && c[i + 3] == 1))
  }

  /** The least position at or after `from` holding a leading start code, or -1. */
  function FindLeading(c: seq<byte>, from: nat): (r: int)
    decreases |c| - from
    ensures r == -1 || (from <= r && LeadingMarkerAt(c, r))
    ensures r == -1 <==> forall i :: from <= i ==> !LeadingMarkerAt(c, i)
    ensures r != -1 ==> forall i :: from <= i < r ==> !LeadingMarkerAt(c, i)
  {
    if from + 3 >= |c| then -1
    else if LeadingMarkerAt(c, from) then from
    else FindLeading(c, from + 1)
  }

  /** The least position at or after `from` where the `extractNal` scan sees a marker, or -1. */
  function FindMarker(c: seq<byte>, from: nat): (r: int)
    decreases |c| - from
    ensures r == -1 || (from <= r && MarkerAt(c, r))
    ensures r == -1 <==> forall i :: from <= i ==> !MarkerAt(c, i)
    ensures r != -1 ==> forall i :: from <= i < r ==> !MarkerAt(c, i)
  {
    if from + 3 >= |c| then -1
    else if MarkerAt(c, from) then from
    else FindMarker(c, from + 1)
  }

  /** The length of the start code at `start`: 3 when its third byte is 1, else 4. */
  function MarkerSize(c: seq<byte>, start: nat): (n: nat)
    requires LeadingMarkerAt(c, start)
    ensures (n == 3 && c[start..start + 3] == [0, 0, 1])
         || (n == 4 && c[start..start + 4] == [0, 0, 0, 1])
    ensures start + n < |c|
  {
    if c[start + 2] == 1 then 3 else 4
  }

  /** What one `extractNal(start)` call leaves: the unit it returns and the
      buffer contents after compaction. */
  function Cut(c: seq<byte>, start: nat): (r: (seq<byte>, seq<byte>))
    requires LeadingMarkerAt(c, start)
    ensures |r.1| < |c|
    ensures r.1 == [] || MarkerAt(r.1, 0)
    ensures forall i :: !MarkerAt(r.0, i)
  {
    var body := start + MarkerSize(c, start);
    var next := FindMarker(c, body);
    if next == -1 then
      NoMarkerInSuffix(c, body);
      (c[body..], [])
    else
      NoMarkerInSlice(c, body, next);
      (c[body..next], c[next..])
  }

  lemma NoMarkerInSuffix(c: seq<byte>, from: nat)
    requires from <= |c| && FindMarker(c, from) == -1
    ensures forall i :: !MarkerAt(c[from..], i)
  {
    forall i | MarkerAt(c[from..], i) ensures false {
      assert MarkerAt(c, from + i);
    }
  }

  lemma NoMarkerInSlice(c: seq<byte>, from: nat, next: nat)
    requires from <= next && FindMarker(c, from) == next
    ensures forall i :: !MarkerAt(c[from..next], i)
  {
    forall i | MarkerAt(c[from..next], i) ensures false {
      assert MarkerAt(c, from + i);
    }
  }

  /** The inner extraction loop of the read loop on buffer contents `c`: the
      non-empty units it emits, in order, and what remains in the buffer. */
  function Drain(c: seq<byte>): (r: (seq<seq<byte>>, seq<byte>))
    decreases |c|
  {
    var start := FindLeading(c, 0);
    if start == -1 then ([], c)
    else
      var cut := Cut(c, start);
      var later := Drain(cut.1);
      ((if |cut.0| > 0 then [cut.0] else []) + later.0, later.1)
  }

  /** The units the read loop emits for the reads `chunks`, with `pending`
      already in the buffer. */
  function Demux(pending: seq<byte>, chunks: seq<seq<byte>>): seq<seq<byte>>
    decreases |chunks|
  {
    if chunks == [] then []
    else
      var drained := Drain(pending + chunks[0]);
      drained.0 + Demux(drained.1, chunks[1..])
  }

  /** One turn of the inner extraction loop. */
  lemma DrainStep(c: seq<byte>)
    requires FindLeading(c, 0) != -1
    ensures var cut := Cut(c, FindLeading(c, 0));
            Drain(c) == ((if |cut.0| > 0 then [cut.0] else []) + Drain(cut.1).0, Drain(cut.1).1)
  {
  }

  /** With no leading start code the inner loop does not run. */
  lemma DrainNoStart(c: seq<byte>)
    requires FindLeading(c, 0) == -1
    ensures Drain(c) == ([], c)
  {
  }

  /** One turn of the read loop. */
  lemma DemuxStep(pending: seq<byte>, chunks: seq<seq<byte>>)
    requires chunks != []
    ensures var drained := Drain(pending + chunks[0]);
            Demux(pending, chunks) == drained.0 + Demux(drained.1, chunks[1..])
  {
  }

  /** After the inner loop no leading start code is left in the buffer,
      every emitted unit is non-empty, and no emitted unit contains a start
      code that is followed by a further byte. */
  lemma {:induction false} DrainProperties(c: seq<byte>)
    ensures FindLeading(Drain(c).1, 0) == -1
    ensures forall k :: 0 <= k < |Drain(c).0| ==> |Drain(c).0[k]| > 0
    ensures forall k, i :: 0 <= k < |Drain(c).0| ==> !MarkerAt(Drain(c).0[k], i)
    decreases |c|
  {
    var start := FindLeading(c, 0);
    if start != -1 {
      DrainProperties(Cut(c, start).1);
    }
  }

  /** The first unit emitted is exactly the bytes after the first start code,
      up to the next marker or to the end of the buffer: bytes before the first
      start code and the start code itself are never emitted. */
  lemma FirstUnit(c: seq<byte>)
    requires FindLeading(c, 0) != -1
    requires |Cut(c, FindLeading(c, 0)).0| > 0
    ensures |Drain(c).0| > 0
    ensures var start := FindLeading(c, 0);
            var body := start + MarkerSize(c, start);
            var next := FindMarker(c, body);
            Drain(c).0[0] == if next == -1 then c[body..] else c[body..next]
  {
  }

  /** A start code that ends exactly at the end of the buffer is not seen by
      the `extractNal` scan, so it is emitted as the tail of the unit before it. */
  lemma TrailingMarkerIsGlued()
    ensures Drain([0, 0, 1, 0xAA, 0, 0, 1]) == ([[0xAA, 0, 0, 1]], [])
  {
    var c: seq<byte> := [0, 0, 1, 0xAA, 0, 0, 1];
    assert LeadingMarkerAt(c, 0);
    assert FindLeading(c, 0) == 0;
    assert FindMarker(c, 3) == -1;
    assert Cut(c, 0) == ([0xAA, 0, 0, 1], []);
    assert FindLeading([], 0) == -1;
    assert Drain([]) == ([], []);
    DrainStep(c);
    var cut := Cut(c, FindLeading(c, 0));
    assert cut.0 == [0xAA, 0, 0, 1] && cut.1 == [];
    assert Drain(c) == ([cut.0] + Drain(cut.1).0, Drain(cut.1).1);
    assert [cut.0] + Drain(cut.1).0 == [[0xAA, 0, 0, 1]];
  }

  /** A buffer holding one start code and one byte yields that byte. */
  lemma DrainSingleUnit()
    ensures Drain([0, 0, 1, 0xBB]) == ([[0xBB]], [])
  {
    var tail: seq<byte> := [0, 0, 1, 0xBB];
    assert LeadingMarkerAt(tail, 0) && FindLeading(tail, 0) == 0;
    assert FindMarker(tail, 3) == -1;
    assert MarkerSize(tail, 0) == 3 && tail[3..] == [0xBB];
    assert Cut(tail, 0) == ([0xBB], []);
    assert FindLeading([], 0) == -1;
    assert Drain([]) == ([], []);
    DrainStep(tail);
    var cut := Cut(tail, FindLeading(tail, 0));
    assert cut == ([0xBB], []);
    assert Drain(cut.1) == ([], []);
    assert Drain(tail) == ([cut.0] + Drain(cut.1).0, Drain(cut.1).1);
    assert [cut.0] + Drain(cut.1).0 == [[0xBB]];
  }

  /** Two start codes and a byte after each yield two one-byte units. */
  lemma DrainTwoUnits()
    ensures Drain([0, 0, 1, 0xAA, 0, 0, 1, 0xBB]) == ([[0xAA], [0xBB]], [])
  {
    var whole: seq<byte> := [0, 0, 1, 0xAA, 0, 0, 1, 0xBB];
    var tail: seq<byte> := [0, 0, 1, 0xBB];
    assert LeadingMarkerAt(whole, 0) && FindLeading(whole, 0) == 0;
    assert MarkerAt(whole, 4) && FindMarker(whole, 3) == 4;
    assert MarkerSize(whole, 0) == 3 && whole[3..4] == [0xAA] && whole[4..] == tail;
    assert Cut(whole, 0) == ([0xAA], tail);
    DrainSingleUnit();
    DrainStep(whole);
    var cut := Cut(whole, FindLeading(whole, 0));
    assert cut.0 == [0xAA] && cut.1 == tail;
    assert Drain(whole) == ([cut.0] + Drain(tail).0, Drain(tail).1);
    assert [cut.0] + Drain(tail).0 == [[0xAA], [0xBB]];
  }

  /** The emitted units depend on where the reads split the stream: the same
      eight bytes give two units in one read and one (different) unit in two. */
  lemma ChunkingChangesUnits()
    ensures Demux([], [[0, 0, 1, 0xAA, 0, 0, 1, 0xBB]]) == [[0xAA], [0xBB]]
    ensures Demux([], [[0, 0, 1, 0xAA, 0, 0, 1], [0xBB]]) == [[0xAA, 0, 0, 1]]
  {
    OneRead();
    TwoReads();
  }

  lemma OneRead()
    ensures Demux([], [[0, 0, 1, 0xAA, 0, 0, 1, 0xBB]]) == [[0xAA], [0xBB]]
  {
    var whole: seq<byte> := [0, 0, 1, 0xAA, 0, 0, 1, 0xBB];
    var chunks := [whole];
    DemuxStep([], chunks);
    assert [] + chunks[0] == whole && chunks[1..] == [];
    DrainTwoUnits();
    assert Demux([], []) == [];
  }

  lemma TwoReads()
    ensures Demux([], [[0, 0, 1, 0xAA, 0, 0, 1], [0xBB]]) == [[0xAA, 0, 0, 1]]
  {
    var first: seq<byte> := [0, 0, 1, 0xAA, 0, 0, 1];
    var second: seq<byte> := [0xBB];
    var chunks := [first, second];
    DemuxStep([], chunks);
    assert [] + chunks[0] == first && chunks[1..] == [second];
    TrailingMarkerIsGlued();
    DemuxStep([], [second]);
    assert [] + second == second;
    assert FindLeading(second, 0) == -1;
    assert Drain(second) == ([], second);
    assert Demux(second, []) == [];
  }

  /** `VideoPlayer.ByteArrayBuffer`: a growable byte buffer whose first `len`
      bytes are the pending part of the stream. */
  class NalBuffer {
    var buf: array<byte>
    var len: nat

    ghost predicate Valid()
      reads this
    {
      len <= buf.Length
    }

    /** The pending bytes. */
    function Contents(): seq<byte>
      reads this, buf
      requires Valid()
    {
      buf[..len]
    }

    constructor ()
      ensures Valid() && fresh(buf)
      ensures buf.Length == INITIAL_CAPACITY && Contents() == []
    {
      buf := new byte[INITIAL_CAPACITY];
      len := 0;
    }

    /** Appends `data[off..off + length]`, first doubling into a fresh array
        of `2 * (len + length)` bytes when the new bytes do not fit. */
    method Append(data: array<byte>, off: nat, length: nat)
      requires Valid() && off + length <= data.Length && data != buf
      modifies this, buf
      ensures Valid() && len == old(len) + length
      ensures Contents() == old(Contents()) + old(data[off..off + length])
      ensures old(len) + length > old(buf.Length) ==> fresh(buf) && buf.Length == 2 * len
      ensures old(len) + length <= old(buf.Length) ==> buf == old(buf)
      ensures buf.Length >= len
    {
      if len + length > buf.Length {
        var newBuf := new byte[(len + length) * 2];
        ArrayCopy(buf, 0, newBuf, 0, len);
        buf := newBuf;
      }
      ArrayCopy(data, off, buf, len, length);
      len := len + length;
    }

    /** `indexOfStartCode`: the first leading start code, or -1. */
    method IndexOfStartCode() returns (r: int)
      requires Valid()
      ensures r == FindLeading(Contents(), 0)
      ensures r == -1 <==> forall i :: !LeadingMarkerAt(Contents(), i)
      ensures r != -1 ==> LeadingMarkerAt(Contents(), r) && forall i :: 0 <= i < r ==> !LeadingMarkerAt(Contents(), i)
    {
      var i := 0;
      while i < len - 3
        invariant 0 <= i
        invariant forall j :: 0 <= j < i ==> !LeadingMarkerAt(Contents(), j)
      {
        if buf[i] == 0 && buf[i + 1] == 0 {
          if buf[i + 2] == 1 {
            assert LeadingMarkerAt(Contents(), i);
            return i;
          }
          if i < len - 4 && buf[i + 2] == 0 && buf[i + 3] == 1 {
            assert LeadingMarkerAt(Contents(), i);
            return i;
          }
        }
        assert !LeadingMarkerAt(Contents(), i);
        i := i + 1;
      }
      return -1;
    }

    /** The scan of `extractNal` for the next marker from `from` on. */
    method NextMarker(from: nat) returns (r: int)
      requires Valid()
      ensures r == FindMarker(Contents(), from)
    {
      r := -1;
      var i := from;
      while i < len - 3
        invariant from <= i
        invariant forall j :: from <= j < i ==> !MarkerAt(Contents(), j)
      {
        if buf[i] == 0 && buf[i + 1] == 0 && (buf[i + 2] == 1 || (buf[i + 2] == 0 && buf[i + 3] == 1)) {
          assert MarkerAt(Contents(), i);
          r := i;
          return;
        }
        assert !MarkerAt(Contents(), i);
        i := i + 1;
      }
    }

    /** `extractNal(start)`: returns the unit after the start code at `start`,
        and moves the buffer's tail from the next marker down to index 0, or
        empties the buffer when there is no next marker. */
    method ExtractNal(start: nat) returns (nal: seq<byte>)
      requires Valid() && LeadingMarkerAt(Contents(), start)
      modifies this, buf
      ensures Valid() && buf == old(buf)
      ensures nal == Cut(old(Contents()), start).0
      ensures Contents() == Cut(old(Contents()), start).1
      ensures len < old(len)
    {
      ghost var c := Contents();
      var scSize := if buf[start + 2] == 1 then 3 else 4;
      assert scSize == MarkerSize(c, start);
      var nextStart := NextMarker(start + scSize);
      var nalLength := (if nextStart == -1 then len else nextStart) - (start + scSize);
      nal := CopyOut(start + scSize, nalLength);
      if nextStart != -1 {
        Compact(nextStart);
      } else {
        len := 0;
      }
    }

    /** The new `byte[length]` filled by `System.arraycopy(buf, from, nal, 0, length)`. */
    method CopyOut(from: nat, length: nat) returns (r: seq<byte>)
      requires Valid() && from + length <= len
      ensures r == Contents()[from..from + length]
    {
      var out := new byte[length];
      ghost var pending := Contents();
      assert pending == buf[..len];
      assert forall i :: from <= i < from + length ==> buf[i] == pending[i];
      assert buf[from..from + length] == pending[from..from + length];
      ArrayCopy(buf, from, out, 0, length);
      r := out[..];
    }

    /** Moves `buf[nextStart..len)` down to index 0. */
    method Compact(nextStart: nat)
      requires Valid() && 0 < nextStart <= len
      modifies this, buf
      ensures Valid() && buf == old(buf) && len == old(len) - nextStart
      ensures Contents() == old(Contents())[nextStart..]
    {
      ghost var c := Contents();
      ArrayCopy(buf, nextStart, buf, 0, len - nextStart);
      len := len - nextStart;
      assert Contents() == c[nextStart..];
    }
  }

  /** One turn of the inner loop: extract the unit at `startIndex` and keep
      it when it is non-empty. */
  method ExtractStep(nalBuffer: NalBuffer, startIndex: int) returns (kept: seq<seq<byte>>)
    requires nalBuffer.Valid() && startIndex != -1
    requires startIndex == FindLeading(nalBuffer.Contents(), 0)
    modifies nalBuffer, nalBuffer.buf
    ensures nalBuffer.Valid() && nalBuffer.buf == old(nalBuffer.buf)
    ensures nalBuffer.len < old(nalBuffer.len)
    ensures Drain(old(nalBuffer.Contents())).0 == kept + Drain(nalBuffer.Contents()).0
    ensures Drain(old(nalBuffer.Contents())).1 == Drain(nalBuffer.Contents()).1
  {
    ghost var c := nalBuffer.Contents();
    DrainStep(c);
    var nal := nalBuffer.ExtractNal(startIndex);
    kept := if |nal| > 0 then [nal] else [];
  }

  /** The inner loop of the read loop: units are extracted while a leading
      start code remains, and only the non-empty ones are kept. */
  method ExtractAll(nalBuffer: NalBuffer) returns (units: seq<seq<byte>>)
    requires nalBuffer.Valid()
    modifies nalBuffer, nalBuffer.buf
    ensures nalBuffer.Valid() && nalBuffer.buf == old(nalBuffer.buf)
    ensures (units, nalBuffer.Contents()) == Drain(old(nalBuffer.Contents()))
  {
    ghost var rest := nalBuffer.Contents();
    ghost var target := Drain(rest);
    units := [];
    var startIndex := nalBuffer.IndexOfStartCode();
    while startIndex != -1
      invariant nalBuffer.Valid() && nalBuffer.buf == old(nalBuffer.buf)
      invariant rest == nalBuffer.Contents()
      invariant startIndex == FindLeading(rest, 0)
      invariant units + Drain(rest).0 == target.0 && Drain(rest).1 == target.1
      decreases nalBuffer.len
    {
      var kept := ExtractStep(nalBuffer, startIndex);
      assert units + (kept + Drain(nalBuffer.Contents()).0) == (units + kept) + Drain(nalBuffer.Contents()).0;
      units := units + kept;
      rest := nalBuffer.Contents();
      startIndex := nalBuffer.IndexOfStartCode();
    }
    DrainNoStart(rest);
    assert units + [] == units;
  }

  /** The read loop of `VideoPlayer.start`: each read of at most 4096 bytes is
      appended, then units are extracted while a leading start code remains,
      and only non-empty units are emitted. What is left in the buffer when the
      reads end is dropped. */
  method ReadLoop(chunks: seq<seq<byte>>) returns (units: seq<seq<byte>>)
    requires forall k :: 0 <= k < |chunks| ==> |chunks[k]| <= READ_CHUNK
    ensures units == Demux([], chunks)
    ensures forall k :: 0 <= k < |units| ==> |units[k]| > 0
  {
    var buffer := new byte[READ_CHUNK];
    var nalBuffer := new NalBuffer();
    units := [];
    var k := 0;
    while k < |chunks|
      invariant 0 <= k <= |chunks|
      invariant nalBuffer.Valid() && nalBuffer.buf != buffer
      invariant fresh(nalBuffer) && fresh(nalBuffer.buf)
      invariant units + Demux(nalBuffer.Contents(), chunks[k..]) == Demux([], chunks)
      invariant forall j :: 0 <= j < |units| ==> |units[j]| > 0
    {
      ghost var pending := nalBuffer.Contents();
      var emitted := ReadChunk(buffer, nalBuffer, chunks[k]);
      DemuxStep(pending, chunks[k..]);
      assert chunks[k..][0] == chunks[k] && chunks[k..][1..] == chunks[k + 1..];
      AppendAssoc(units, emitted, Demux(nalBuffer.Contents(), chunks[k + 1..]));
      units := units + emitted;
      k := k + 1;
    }
  }

  /** One turn of the read loop: the chunk read into `buffer` is appended
      and the buffer drained. */
  method ReadChunk(buffer: array<byte>, nalBuffer: NalBuffer, chunk: seq<byte>) returns (emitted: seq<seq<byte>>)
    requires nalBuffer.Valid() && nalBuffer.buf != buffer
    requires |chunk| <= READ_CHUNK == buffer.Length
    modifies buffer, nalBuffer, nalBuffer.buf
    ensures nalBuffer.Valid() && nalBuffer.buf != buffer
    ensures nalBuffer.buf == old(nalBuffer.buf) || fresh(nalBuffer.buf)
    ensures (emitted, nalBuffer.Contents()) == Drain(old(nalBuffer.Contents()) + chunk)
    ensures forall j :: 0 <= j < |emitted| ==> |emitted[j]| > 0
  {
    var bytesRead := |chunk|;
    forall j | 0 <= j < bytesRead {
      buffer[j] := chunk[j];
    }
    assert buffer[0..bytesRead] == chunk;
    ghost var target := nalBuffer.Contents() + chunk;
    nalBuffer.Append(buffer, 0, bytesRead);
    DrainProperties(target);
    assert nalBuffer.Contents() == target;
    emitted := ExtractAll(nalBuffer);
  }
}
