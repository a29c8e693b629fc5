/** The bytes of a file segment: how get_next_fileOffset and next_frame read a received
    buffer, proved against the record walks of RecordWalk. */
module Segments {
  import opened Common
  import opened RecordWalk

  const END_FLAG: nat := 0x8000_0000       // S7_FILE_END_FLAG; the bits below it are the length
  const DATA_HDR_SIG: nat := 0x0052_4448

  /** Where the fields of a record header lie, and the magic number of a segment. They come
      from SDK headers that are not part of this model. */
  datatype RawLayout = Layout(headerSize: nat, signatureAt: nat, hdrSizeAt: nat, payloadSizeAt: nat, magic: nat)

  type Layout = l: RawLayout |
    && l.headerSize >= SEG_HEADER
    && l.signatureAt + 4 <= l.headerSize && l.hdrSizeAt + 4 <= l.headerSize && l.payloadSizeAt + 4 <= l.headerSize
    witness Layout(16, 0, 4, 8, 0)

  /** The little-endian value of some bytes. */
  function Little(b: seq<Byte>): nat {
    if b == [] then 0 else b[0] + 256 * Little(b[1..])
  }

  lemma LittleIsWord(b: seq<Byte>)
    requires |b| == 4
    ensures Little(b) == b[0] + 0x100 * b[1] + 0x1_0000 * b[2] + 0x100_0000 * b[3] < WORD
  {
    assert Little(b[1..]) == b[1] + 256 * Little(b[1..][1..]);
    assert Little(b[1..][1..]) == b[2] + 256 * Little(b[1..][1..][1..]);
    assert Little(b[1..][1..][1..]) == b[3];
  }

  /** The 32-bit word at `at`. */
  function WordAt(b: seq<Byte>, at: nat): (w: nat)
    requires at + 4 <= |b|
    ensures w < WORD
  {
    LittleIsWord(b[at..at + 4]);
    Little(b[at..at + 4])
  }

  /** The sum of two 32-bit words, modulo 2^32. */
  function Sum32(a: nat, b: nat): (c: nat)
    requires a < WORD && b < WORD
    ensures c < WORD
  {
    if a + b < WORD then a + b else a + b - WORD
  }

  /** ~3 & n */
  function Floor4(n: nat): nat { if n < 4 then 0 else 4 + Floor4(n - 4) }

  lemma {:induction false} Floor4IsMask(n: nat)
    ensures Floor4(n) == n / 4 * 4 && Floor4(n) % 4 == 0 && Floor4(n) <= n < Floor4(n) + 4
  {
    if n >= 4 { Floor4IsMask(n - 4); }
  }

  /** Frames start on 4-byte boundaries; the sum and the rounding wrap at 32 bits. */
  function Padded(hdrSize: nat, payloadSize: nat): nat
    requires hdrSize < WORD && payloadSize < WORD
  {
    Floor4(Sum32(Sum32(hdrSize, payloadSize), 3))
  }

  /** Without wrap-around the padded size is the least multiple of 4 that is large enough. */
  lemma PaddedIsCeiling(h: nat, p: nat)
    requires h + p + 3 < WORD
    ensures Padded(h, p) % 4 == 0 && h + p <= Padded(h, p) < h + p + 4
  {
    Floor4IsMask(h + p + 3);
  }

  predicate Signed(l: Layout, file: seq<Byte>, at: nat)
    requires at + l.headerSize <= |file|
  {
    WordAt(file, at + l.signatureAt) == DATA_HDR_SIG
  }

  function RecordSize(l: Layout, file: seq<Byte>, at: nat): nat
    requires at + l.headerSize <= |file|
  {
    Padded(WordAt(file, at + l.hdrSizeAt), WordAt(file, at + l.payloadSizeAt))
  }

  /** The record header at `at` claims at least a header, and its sizes do not wrap. */
  predicate Sound(l: Layout, file: seq<Byte>, at: nat)
    requires at + l.headerSize <= |file|
  {
    var h, p := WordAt(file, at + l.hdrSizeAt), WordAt(file, at + l.payloadSizeAt);
    l.headerSize <= h && h + p + 3 < WORD
  }

  /** The size next to `at`: 0 when no record header can be read there. */
  function SizeAt(l: Layout, file: seq<Byte>, at: nat): nat {
    if at + l.headerSize <= |file| && Signed(l, file, at) then RecordSize(l, file, at) else 0
  }

  /** The sizes next to the first `n` bytes. */
  function Sizes(l: Layout, file: seq<Byte>, n: nat): (sizes: seq<nat>)
    ensures |sizes| == n
  {
    if n == 0 then [] else Sizes(l, file, n - 1) + [SizeAt(l, file, n - 1)]
  }

  /** The file as a tape of records. */
  function TapeOf(l: Layout, file: seq<Byte>): (t: Tape)
    ensures Length(t) == |file| && t.header == l.headerSize
  {
    Tape(l.headerSize, Sizes(l, file, |file|))
  }

  lemma {:induction false} SizesAt(l: Layout, file: seq<Byte>, n: nat, at: nat)
    requires at < n
    ensures Sizes(l, file, n)[at] == SizeAt(l, file, at)
  {
    if at < n - 1 { SizesAt(l, file, n - 1, at); }
  }

  lemma SizeOnTape(l: Layout, file: seq<Byte>, at: nat)
    ensures Size(TapeOf(l, file), at) == SizeAt(l, file, at)
  {
    if at < |file| { SizesAt(l, file, |file|, at); }
  }

  /** Every record header a walk reads is sound. */
  ghost predicate SoundUpTo(l: Layout, file: seq<Byte>, at: nat, end: nat)
    requires end <= |file|
    decreases end - at
  {
    at + l.headerSize <= end && Signed(l, file, at) ==>
      && Sound(l, file, at)
      && (0 < SizeAt(l, file, at) <= end - at ==> SoundUpTo(l, file, at + SizeAt(l, file, at), end))
  }

  lemma PaddedIsAligned(h: nat, p: nat)
    requires h < WORD && p < WORD
    ensures Padded(h, p) % 4 == 0
  {
    Floor4IsMask(Sum32(Sum32(h, p), 3));
  }

  lemma SizeIsAligned(l: Layout, file: seq<Byte>, at: nat)
    ensures SizeAt(l, file, at) % 4 == 0
  {
    if at + l.headerSize <= |file| && Signed(l, file, at) {
      PaddedIsAligned(WordAt(file, at + l.hdrSizeAt), WordAt(file, at + l.payloadSizeAt));
    }
  }

  /** The sizes in any file are multiples of 4. */
  lemma TapeIsPadded(l: Layout, file: seq<Byte>)
    ensures Padded4(TapeOf(l, file))
  {
    forall at: nat ensures Size(TapeOf(l, file), at) % 4 == 0 {
      SizeIsAligned(l, file, at);
      SizeOnTape(l, file, at);
    }
  }

  lemma SoundRecord(l: Layout, file: seq<Byte>, at: nat)
    requires at + l.headerSize <= |file| && Signed(l, file, at) && Sound(l, file, at)
    ensures SizeAt(l, file, at) == RecordSize(l, file, at)
    ensures l.headerSize + WordAt(file, at + l.payloadSizeAt) <= SizeAt(l, file, at)
  {
    PaddedIsCeiling(WordAt(file, at + l.hdrSizeAt), WordAt(file, at + l.payloadSizeAt));
  }

  /** The frame of the record at `at`: its payload, without header and padding. */
  function Frame(l: Layout, file: seq<Byte>, at: nat): seq<Byte> {
    if at + l.headerSize <= |file| && at + l.headerSize + WordAt(file, at + l.payloadSizeAt) <= |file|
    then file[at + l.headerSize..at + l.headerSize + WordAt(file, at + l.payloadSizeAt)]
    else []
  }

  function Frames(l: Layout, file: seq<Byte>, records: seq<nat>): seq<seq<Byte>> {
    seq(|records|, i requires 0 <= i < |records| => Frame(l, file, records[i]))
  }

  lemma FramesCons(l: Layout, file: seq<Byte>, at: nat, rest: seq<nat>)
    ensures Frames(l, file, [at] + rest) == [Frame(l, file, at)] + Frames(l, file, rest)
  {
  }

  // The frames of a walk: that of its first record, then those of the walk behind it.
  lemma FramesOfWalk(l: Layout, file: seq<Byte>, at: nat, end: nat)
    ensures Frames(l, file, Walk(TapeOf(l, file), at, end)) ==
            if Whole(TapeOf(l, file), at, end)
            then [Frame(l, file, at)] + Frames(l, file, Walk(TapeOf(l, file), at + SizeAt(l, file, at), end))
            else []
  {
    SizeOnTape(l, file, at);
    FramesCons(l, file, at, Walk(TapeOf(l, file), at + SizeAt(l, file, at), end));
  }

  // ------------------------------------------------------------ received buffers

  // The words of a segment header.
  function Magic(buffer: seq<Byte>): nat requires |buffer| >= SEG_HEADER { WordAt(buffer, 0) }
  function FileOffset(buffer: seq<Byte>): nat requires |buffer| >= SEG_HEADER { WordAt(buffer, 8) }
  function SegmentLen(buffer: seq<Byte>): nat requires |buffer| >= SEG_HEADER { WordAt(buffer, 12) }

  /** The bits below the end flag. */
  function LengthBits(word: nat): nat
    requires word < WORD
  {
    if word >= END_FLAG then word - END_FLAG else word
  }

  function SegmentOf(buffer: seq<Byte>): Segment
    requires |buffer| >= SEG_HEADER
  {
    Segment(FileOffset(buffer), LengthBits(SegmentLen(buffer)), SegmentLen(buffer) >= END_FLAG)
  }

  /** The `n` bytes of `a` from `i` on are those of `b` from `j` on. */
  ghost predicate SameBytes(a: seq<Byte>, i: nat, b: seq<Byte>, j: nat, n: nat)
    decreases n
  {
    i + n <= |a| && j + n <= |b| && (n > 0 ==> a[i] == b[j] && SameBytes(a, i + 1, b, j + 1, n - 1))
  }

  lemma SliceCons(a: seq<Byte>, i: nat, m: nat)
    requires 0 < m && i + m <= |a|
    ensures a[i..i + m] == [a[i]] + a[i + 1..i + 1 + (m - 1)]
  {
  }

  lemma {:induction false} SameSlice(a: seq<Byte>, i: nat, b: seq<Byte>, j: nat, n: nat, k: nat, m: nat)
    requires SameBytes(a, i, b, j, n) && k + m <= n
    ensures a[i + k..i + k + m] == b[j + k..j + k + m]
    decreases n
  {
    if k > 0 {
      SameSlice(a, i + 1, b, j + 1, n - 1, k - 1, m);
    } else if m > 0 {
      SameSlice(a, i + 1, b, j + 1, n - 1, 0, m - 1);
      SliceCons(a, i, m);
      SliceCons(b, j, m);
    }
  }

  /** The buffer passed the checks of the receive callback and holds the bytes of the file
      its header speaks of. */
  ghost predicate Carries(buffer: seq<Byte>, file: seq<Byte>)
  {
    && |buffer| >= SEG_HEADER
    && var s := SegmentOf(buffer);
      && |buffer| == SEG_HEADER + s.length
      && End(s) <= |file|
      && SameBytes(buffer, SEG_HEADER, file, s.offset, s.length)
  }

  lemma {:induction false} SameBehind(a: seq<Byte>, i: nat, b: seq<Byte>, j: nat, n: nat, k: nat)
    requires SameBytes(a, i, b, j, n) && k <= n
    ensures SameBytes(a, i + k, b, j + k, n - k)
    decreases n
  {
    if k > 0 { SameBehind(a, i + 1, b, j + 1, n - 1, k - 1); }
  }

  lemma {:induction false} SameBefore(a: seq<Byte>, i: nat, b: seq<Byte>, j: nat, n: nat, m: nat)
    requires SameBytes(a, i, b, j, n) && m <= n
    ensures SameBytes(a, i, b, j, m)
    decreases n
  {
    if m > 0 { SameBefore(a, i + 1, b, j + 1, n - 1, m - 1); }
  }

  /** Reads the record header at `pos` of a buffer that goes on like the file at `at`. */
  method ReadHeader(l: Layout, buffer: seq<Byte>, pos: nat, ghost file: seq<Byte>, ghost at: nat, ghost n: nat)
    returns (signed: bool, size: nat, payloadSize: nat)
    requires SameBytes(buffer, pos, file, at, n) && l.headerSize <= n
    requires Signed(l, file, at) ==> Sound(l, file, at)
    ensures signed == Signed(l, file, at)
    ensures size == SizeAt(l, file, at)
    ensures signed ==> l.headerSize + payloadSize <= size
    ensures signed ==> payloadSize == WordAt(file, at + l.payloadSizeAt)
    ensures !signed ==> size == 0
  {
    SameSlice(buffer, pos, file, at, n, l.signatureAt, 4);
    signed := WordAt(buffer, pos + l.signatureAt) == DATA_HDR_SIG;
    size, payloadSize := 0, 0;
    if signed {
      SameSlice(buffer, pos, file, at, n, l.hdrSizeAt, 4);
      SameSlice(buffer, pos, file, at, n, l.payloadSizeAt, 4);
      SoundRecord(l, file, at);
      payloadSize := WordAt(buffer, pos + l.payloadSizeAt);
      size := Padded(WordAt(buffer, pos + l.hdrSizeAt), payloadSize);
    }
  }

  /** The unread part of a loaded segment starts at `pos` in the buffer and at `at` in the
      file, and the byte budget ends at `end`. */
  ghost predicate Unread(l: Layout, buffer: seq<Byte>, pos: nat, haveBytes: nat,
                         file: seq<Byte>, at: nat, end: nat)
  {
    && at + haveBytes == end <= |file|
    && SameBytes(buffer, pos, file, at, haveBytes)
    && SoundUpTo(l, file, at, end)
  }

  lemma {:induction false} SameAsItself(a: seq<Byte>, i: nat, n: nat)
    requires i + n <= |a|
    ensures SameBytes(a, i, a, i, n)
    decreases n
  {
    if n > 0 { SameAsItself(a, i + 1, n - 1); }
  }

  /** The bytes next_frame thinks it has: the length less a header, modulo 2^32. */
  function Budget(top: seq<Byte>): nat
    requires |top| >= SEG_HEADER
  {
    Sum32(SegmentOf(top).length, WORD - SEG_HEADER)
  }

  /** The budget next_frame gives a buffer ends inside the buffer exactly if the segment has
      at least 16 bytes; otherwise it wraps around. */
  lemma BudgetInsideIff(top: seq<Byte>)
    requires |top| >= SEG_HEADER && |top| == SEG_HEADER + SegmentOf(top).length
    ensures SEG_HEADER + Budget(top) <= |top|
       <==> SegmentOf(top).length >= SEG_HEADER
  {
  }

  // A buffer just loaded, with the budget next_frame gives it.
  lemma LoadedIsUnread(l: Layout, top: seq<Byte>, file: seq<Byte>)
    requires Carries(top, file) && SegmentOf(top).length >= SEG_HEADER
    requires SoundUpTo(l, file, SegmentOf(top).offset, End(SegmentOf(top)) - SEG_HEADER)
    ensures var s := SegmentOf(top);
      Unread(l, top, SEG_HEADER, s.length - SEG_HEADER, file, s.offset, End(s) - SEG_HEADER)
  {
    var s := SegmentOf(top);
    SameBefore(top, SEG_HEADER, file, s.offset, s.length, s.length - SEG_HEADER);
  }

  /** `frame` occupies `size` bytes of the buffer from `pos` on. */
  predicate FrameAt(buffer: seq<Byte>, pos: nat, size: nat, frame: seq<Byte>) {
    pos + size <= |buffer| && buffer[pos..pos + size] == frame
  }

  /** A whole record of the buffer holds the frame of the file, untorn. */
  lemma FrameInBuffer(l: Layout, buffer: seq<Byte>, pos: nat, file: seq<Byte>, at: nat, n: nat, payloadSize: nat)
    requires SameBytes(buffer, pos, file, at, n) && l.headerSize + payloadSize <= n
    requires payloadSize == WordAt(file, at + l.payloadSizeAt)
    ensures FrameAt(buffer, pos + l.headerSize, payloadSize, Frame(l, file, at))
  {
    SameSlice(buffer, pos, file, at, n, l.headerSize, payloadSize);
  }

  /** The tests both walks make: is there a whole record within the budget? */
  method FindFrame(l: Layout, buffer: seq<Byte>, pos: nat, haveBytes: nat,
                   ghost file: seq<Byte>, ghost at: nat, ghost end: nat)
    returns (found: bool, size: nat, payloadSize: nat)
    requires Unread(l, buffer, pos, haveBytes, file, at, end)
    ensures found <==> Whole(TapeOf(l, file), at, end)
    ensures found ==> 0 < size == SizeAt(l, file, at) <= haveBytes
    ensures found ==> Unread(l, buffer, pos + size, haveBytes - size, file, at + size, end)
    ensures found ==> FrameAt(buffer, pos + l.headerSize, payloadSize, Frame(l, file, at))
  {
    SizeOnTape(l, file, at);
    found, size, payloadSize := false, 0, 0;
    if haveBytes < l.headerSize { return; }
    found, size, payloadSize := ReadHeader(l, buffer, pos, file, at, haveBytes);
    if found && haveBytes < size { found := false; }
    if found {
      FrameInBuffer(l, buffer, pos, file, at, haveBytes, payloadSize);
      SameBehind(buffer, pos, file, at, haveBytes, size);
    }
  }

  /** One turn of the loop of get_next_fileOffset. */
  method SkipOne(l: Layout, buffer: seq<Byte>, pos: nat, length: nat,
                 ghost file: seq<Byte>, ghost at: nat, ghost end: nat)
    returns (found: bool, size: nat)
    requires Unread(l, buffer, pos, length, file, at, end)
    ensures Stop(TapeOf(l, file), at, end) == if found then Stop(TapeOf(l, file), at + size, end) else at
    ensures found ==> 0 < size <= length && Unread(l, buffer, pos + size, length - size, file, at + size, end)
  {
    SizeOnTape(l, file, at);
    StopStep(TapeOf(l, file), at, end);
    var payloadSize;
    found, size, payloadSize := FindFrame(l, buffer, pos, length, file, at, end);
  }

  /** The loop of get_next_fileOffset: steps over the whole records of a segment. */
  method SkipRecords(l: Layout, buffer: seq<Byte>, offset: nat, length: nat, ghost file: seq<Byte>)
    returns (next: nat)
    requires Unread(l, buffer, SEG_HEADER, length, file, offset, offset + length)
    ensures next == Stop(TapeOf(l, file), offset, offset + length)
  {
    ghost var end := offset + length;
    var fileOffset: nat, segmentLen: nat, bufferOffset: nat := offset, length, SEG_HEADER;
    while true
      invariant Unread(l, buffer, bufferOffset, segmentLen, file, fileOffset, end)
      invariant Stop(TapeOf(l, file), fileOffset, end) == Stop(TapeOf(l, file), offset, end)
      decreases segmentLen
    {
      var found, size := SkipOne(l, buffer, bufferOffset, segmentLen, file, fileOffset, end);
      if !found { return fileOffset; }
      bufferOffset := bufferOffset + size;
      fileOffset := fileOffset + size;
      segmentLen := segmentLen - size;
    }
  }

  /** The next request: the first record not wholly inside the segment; 0 to start over
      after the end of the file, or if the buffer is not a segment at all. */
  method GetNextFileOffset(l: Layout, buffer: seq<Byte>, ghost file: seq<Byte>) returns (next: nat)
    requires Carries(buffer, file) && |file| < WORD
    requires SoundUpTo(l, file, SegmentOf(buffer).offset, End(SegmentOf(buffer)))
    ensures next == if Magic(buffer) != l.magic then 0 else NextOffset(TapeOf(l, file), SegmentOf(buffer))
  {
    if l.magic != WordAt(buffer, 0) { return 0; }
    if WordAt(buffer, 12) >= END_FLAG { return 0; }
    next := SkipRecords(l, buffer, WordAt(buffer, 8), LengthBits(WordAt(buffer, 12)), file);
  }

  /** The buffer fields of A2aFileSource. Pointers are offsets into `bufferTop`. */
  class FrameReader {
    const layout: Layout
    var bufferTop: seq<Byte>
    var buffer: nat
    var haveBytes: nat
    var frame: nat
    var frameSize: nat

    constructor (l: Layout)
      ensures layout == l && bufferTop == []
    {
      layout := l;
      bufferTop, buffer, haveBytes, frame, frameSize := [], 0, 0, 0, 0;
    }

    /** What next_frame does with a buffer it has just taken from the ring; the header is
        subtracted from a length that does not include it, modulo 32 bits. */
    method LoadSegment(top: seq<Byte>)
      requires |top| >= SEG_HEADER
      modifies this
      ensures bufferTop == top && buffer == SEG_HEADER
      ensures haveBytes == Budget(top)
      ensures haveBytes == var n := SegmentOf(top).length; if n >= 16 then n - 16 else n + 0xFFFF_FFF0
    {
      bufferTop := top;
      haveBytes := LengthBits(WordAt(top, 12));
      buffer := SEG_HEADER;
      haveBytes := Sum32(haveBytes, WORD - SEG_HEADER);
    }

    /** One pass of the inner loop of next_frame: finds the next frame, or reports that the
        segment has no further whole record within the budget. */
    method TakeFrame(ghost file: seq<Byte>, ghost at: nat, ghost end: nat) returns (found: bool)
      requires Unread(layout, bufferTop, buffer, haveBytes, file, at, end)
      modifies `buffer, `haveBytes, `frame, `frameSize
      ensures found <==> Whole(TapeOf(layout, file), at, end)
      ensures found ==> FrameAt(bufferTop, frame, frameSize, Frame(layout, file, at))
      ensures found ==> 0 < SizeAt(layout, file, at) <= end - at
      ensures found ==> Unread(layout, bufferTop, buffer, haveBytes, file, at + SizeAt(layout, file, at), end)
    {
      var size, payloadSize;
      found, size, payloadSize := FindFrame(layout, bufferTop, buffer, haveBytes, file, at, end);
      if found {
        frame := buffer + layout.headerSize;
        frameSize := payloadSize;
        buffer := buffer + size;
        haveBytes := haveBytes - size;
      }
    }

    /** Plays one segment to its end: the frames are those of the records sent from it, in
        order and untorn. */
    method PlaySegment(top: seq<Byte>, ghost file: seq<Byte>) returns (frames: seq<seq<Byte>>)
      requires Carries(top, file) && SegmentOf(top).length >= SEG_HEADER
      requires SoundUpTo(layout, file, SegmentOf(top).offset, End(SegmentOf(top)) - SEG_HEADER)
      modifies this
      ensures frames == Frames(layout, file, SentFrom(TapeOf(layout, file), SegmentOf(top)))
    {
      LoadSegment(top);
      LoadedIsUnread(layout, top, file);
      frames := PlayLoaded(file, SegmentOf(top).offset, End(SegmentOf(top)) - SEG_HEADER);
    }

    /** The same whatever the length of the segment: `memory` is what lies in memory from the
        buffer on, as far as the byte budget reaches. For a segment shorter than 16 bytes that
        is beyond the end of the buffer. */
    method PlayMemory(memory: seq<Byte>) returns (frames: seq<seq<Byte>>)
      requires |memory| >= SEG_HEADER
      requires var end := SEG_HEADER + Budget(memory);
        end <= |memory| && SoundUpTo(layout, memory, SEG_HEADER, end)
      modifies this
      ensures frames ==
              Frames(layout, memory, Walk(TapeOf(layout, memory), SEG_HEADER, SEG_HEADER + Budget(memory)))
    {
      LoadSegment(memory);
      SameAsItself(memory, SEG_HEADER, haveBytes);
      frames := PlayLoaded(memory, SEG_HEADER, SEG_HEADER + haveBytes);
    }

    /** The frames still to come from the loaded segment, one call of next_frame each. */
    method PlayLoaded(ghost file: seq<Byte>, ghost from: nat, ghost end: nat) returns (frames: seq<seq<Byte>>)
      requires from <= end && Unread(layout, bufferTop, buffer, haveBytes, file, from, end)
      modifies `buffer, `haveBytes, `frame, `frameSize
      ensures frames == Frames(layout, file, Walk(TapeOf(layout, file), from, end))
    {
      ghost var t := TapeOf(layout, file);
      ghost var at: nat := from;
      frames := [];
      while true
        invariant at <= end && Unread(layout, bufferTop, buffer, haveBytes, file, at, end)
        invariant frames + Frames(layout, file, Walk(t, at, end)) == Frames(layout, file, Walk(t, from, end))
        decreases end - at
      {
        ghost var next;
        var found, bytes;
        found, bytes, next := PlayOne(file, at, end);
        Moved(frames, bytes, Frames(layout, file, Walk(t, next, end)));
        if !found { break; }
        frames := frames + [bytes];
        at := next;
      }
    }

    /** One frame, or the end of the segment. */
    method PlayOne(ghost file: seq<Byte>, ghost at: nat, ghost end: nat)
      returns (found: bool, bytes: seq<Byte>, ghost next: nat)
      requires at <= end && Unread(layout, bufferTop, buffer, haveBytes, file, at, end)
      modifies `buffer, `haveBytes, `frame, `frameSize
      ensures Frames(layout, file, Walk(TapeOf(layout, file), at, end)) ==
              if found then [bytes] + Frames(layout, file, Walk(TapeOf(layout, file), next, end)) else []
      ensures found ==> at < next <= end && Unread(layout, bufferTop, buffer, haveBytes, file, next, end)
    {
      FramesOfWalk(layout, file, at, end);
      bytes, next := [], at;
      found := TakeFrame(file, at, end);
      if found {
        bytes := bufferTop[frame..frame + frameSize];
        next := at + SizeAt(layout, file, at);
      }
    }
  }

  lemma Moved(frames: seq<seq<Byte>>, bytes: seq<Byte>, rest: seq<seq<Byte>>)
    ensures frames + ([bytes] + rest) == frames + [bytes] + rest
  {
  }
}
