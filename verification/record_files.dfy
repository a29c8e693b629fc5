/** Files and segments as they are written, byte by byte, and that the readers of Segments and
    FileStreaming get back what was written. */
module RecordFiles {
  import opened Common
  import opened FileStreaming
  import opened LapOrder
  import opened RecordWalk
  import opened Segments
  import opened Wrappers
  import P = StreamingPipeline

  // -------------------------------------------------------------------- words

  /** Four bytes, the least significant first. */
  lemma WordIs(b: seq<Byte>, at: nat)
    requires at + 4 <= |b|
    ensures WordAt(b, at) == b[at] + 0x100 * b[at + 1] + 0x1_0000 * b[at + 2] + 0x100_0000 * b[at + 3] < WORD
  {
    LittleIsWord(b[at..at + 4]);
  }

  function Written(v: nat): (b: seq<Byte>)
    requires v < WORD
    ensures |b| == 4
  {
    [v % 0x100, v / 0x100 % 0x100, v / 0x1_0000 % 0x100, v / 0x100_0000]
  }

  predicate Stands(b: seq<Byte>, at: nat, piece: seq<Byte>) {
    at + |piece| <= |b| && b[at..at + |piece|] == piece
  }

  /** A word that was written is read back. */
  lemma WordReadsBack(b: seq<Byte>, at: nat, v: nat)
    requires v < WORD && Stands(b, at, Written(v))
    ensures WordAt(b, at) == v
  {
    WordIs(b, at);
    var w := b[at..at + 4];
    assert b[at] == w[0] && b[at + 1] == w[1] && b[at + 2] == w[2] && b[at + 3] == w[3];
    assert v / 0x100 / 0x100 == v / 0x1_0000 && v / 0x1_0000 / 0x100 == v / 0x100_0000;
  }

  lemma StandsInside(b: seq<Byte>, at: nat, piece: seq<Byte>, i: nat, part: seq<Byte>)
    requires Stands(b, at, piece) && Stands(piece, i, part)
    ensures Stands(b, at + i, part)
  {
    forall k | 0 <= k < |part| ensures b[at + i + k] == part[k] {
      assert part[k] == piece[i..i + |part|][k] == piece[i + k] == b[at..at + |piece|][i + k];
    }
    assert b[at + i..at + i + |part|] == part;
  }

  // ------------------------------------------------------------------- records

  /** A record as it is written: the header with signature, header size and payload size, the
      payload, and what fills it up. */
  datatype Record = Record(header: seq<Byte>, hdrSize: nat, payload: seq<Byte>, fill: seq<Byte>) {
    function Bytes(): seq<Byte> { header + payload + fill }

    /** Its length is the least multiple of 4 that holds the two sizes; the header size counts at
        least the header. */
    ghost predicate WellFormed(l: Layout) {
      && |header| == l.headerSize <= hdrSize && hdrSize + |payload| + 3 < WORD
      && Stands(header, l.signatureAt, [0x48, 0x44, 0x52, 0x00])
      && Stands(header, l.hdrSizeAt, Written(hdrSize))
      && Stands(header, l.payloadSizeAt, Written(|payload|))
      && |Bytes()| % 4 == 0 && hdrSize + |payload| <= |Bytes()| < hdrSize + |payload| + 4
    }
  }

  /** The size of a record, from the two words in its header: the least multiple of 4 that holds
      both sizes. */
  lemma SizeIsCeiling(l: Layout, file: seq<Byte>, at: nat)
    requires at + l.headerSize <= |file| && Signed(l, file, at) && Sound(l, file, at)
    ensures var h, p := WordAt(file, at + l.hdrSizeAt), WordAt(file, at + l.payloadSizeAt);
      SizeAt(l, file, at) % 4 == 0 && h + p <= SizeAt(l, file, at) < h + p + 4
  {
    PaddedIsCeiling(WordAt(file, at + l.hdrSizeAt), WordAt(file, at + l.payloadSizeAt));
  }

  lemma HeaderReadsBack(l: Layout, file: seq<Byte>, at: nat, r: Record)
    requires r.WellFormed(l) && Stands(file, at, r.header)
    ensures at + l.headerSize <= |file| && Signed(l, file, at) && Sound(l, file, at)
    ensures WordAt(file, at + l.hdrSizeAt) == r.hdrSize && WordAt(file, at + l.payloadSizeAt) == |r.payload|
  {
    assert Written(DATA_HDR_SIG) == [0x48, 0x44, 0x52, 0x00];
    FieldReadsBack(file, at, r.header, l.signatureAt, DATA_HDR_SIG);
    FieldReadsBack(file, at, r.header, l.hdrSizeAt, r.hdrSize);
    FieldReadsBack(file, at, r.header, l.payloadSizeAt, |r.payload|);
  }

  lemma FieldReadsBack(file: seq<Byte>, at: nat, header: seq<Byte>, i: nat, v: nat)
    requires v < WORD && Stands(file, at, header) && Stands(header, i, Written(v))
    ensures at + i + 4 <= |file| && WordAt(file, at + i) == v
  {
    StandsInside(file, at, header, i, Written(v));
    WordReadsBack(file, at + i, v);
  }

  lemma SameMultiple(a: nat, b: nat, low: nat)
    requires a % 4 == 0 && b % 4 == 0 && low <= a < low + 4 && low <= b < low + 4
    ensures a == b
  {
  }

  lemma Pieces(file: seq<Byte>, at: nat, a: seq<Byte>, b: seq<Byte>, c: seq<Byte>)
    requires Stands(file, at, a + b + c)
    ensures Stands(file, at, a) && Stands(file, at + |a|, b)
  {
    assert (a + b + c)[0..|a|] == a && (a + b + c)[|a|..|a| + |b|] == b;
    StandsInside(file, at, a + b + c, 0, a);
    StandsInside(file, at, a + b + c, |a|, b);
  }

  lemma FrameIs(l: Layout, file: seq<Byte>, at: nat, payload: seq<Byte>)
    requires at + l.headerSize <= |file| && WordAt(file, at + l.payloadSizeAt) == |payload|
    requires Stands(file, at + l.headerSize, payload)
    ensures Frame(l, file, at) == payload
  {
  }

  /** A record that was written is read back: its size and its payload. */
  lemma RecordReadsBack(l: Layout, file: seq<Byte>, at: nat, r: Record)
    requires r.WellFormed(l) && Stands(file, at, r.Bytes())
    ensures at + l.headerSize <= |file| && Signed(l, file, at) && Sound(l, file, at) && WholeInFile(l, file, at)
    ensures SizeAt(l, file, at) == |r.Bytes()| && Frame(l, file, at) == r.payload
  {
    Pieces(file, at, r.header, r.payload, r.fill);
    HeaderReadsBack(l, file, at, r);
    FrameIs(l, file, at, r.payload);
    SizeIsCeiling(l, file, at);
    SameMultiple(SizeAt(l, file, at), |r.Bytes()|, r.hdrSize + |r.payload|);
  }

  // --------------------------------------------------------------------- files

  function FileOf(records: seq<Record>, tail: seq<Byte>): seq<Byte> {
    if records == [] then tail else records[0].Bytes() + FileOf(records[1..], tail)
  }

  function PayloadsOf(records: seq<Record>): seq<seq<Byte>> {
    if records == [] then [] else [records[0].payload] + PayloadsOf(records[1..])
  }

  ghost predicate AllWellFormed(l: Layout, records: seq<Record>) {
    forall i :: 0 <= i < |records| ==> records[i].WellFormed(l)
  }

  lemma Splits(file: seq<Byte>, at: nat, first: seq<Byte>, rest: seq<Byte>)
    requires at <= |file| && file[at..] == first + rest
    ensures Stands(file, at, first) && file[at + |first|..] == rest
  {
    assert file[at..at + |first|] == file[at..][..|first|];
    assert file[at + |first|..] == file[at..][|first|..];
  }

  // A record at `at`, and the file behind it.
  lemma FirstReadsBack(l: Layout, file: seq<Byte>, at: nat, r: Record, rest: seq<Byte>)
    requires r.WellFormed(l) && at <= |file| && file[at..] == r.Bytes() + rest
    ensures var next := at + SizeAt(l, file, at);
      && at < next <= |file| && file[next..] == rest
      && (SoundFile(l, file, next) ==> SoundFile(l, file, at))
      && Payloads(l, file, at) == [r.payload] + Payloads(l, file, next)
  {
    Splits(file, at, r.Bytes(), rest);
    RecordReadsBack(l, file, at, r);
    OneRecord(l, file, at, r.payload);
  }

  lemma OneRecord(l: Layout, file: seq<Byte>, at: nat, payload: seq<Byte>)
    requires at + l.headerSize <= |file| && Signed(l, file, at) && Sound(l, file, at) && WholeInFile(l, file, at)
    requires Frame(l, file, at) == payload
    ensures var next := at + SizeAt(l, file, at);
      && at < next <= |file|
      && (SoundFile(l, file, next) ==> SoundFile(l, file, at))
      && Payloads(l, file, at) == [payload] + Payloads(l, file, next)
  {
    PayloadsInFile(l, file, at);
  }

  lemma {:induction false} RecordsReadBack(l: Layout, file: seq<Byte>, at: nat, records: seq<Record>, tail: seq<Byte>)
    requires AllWellFormed(l, records) && |tail| < l.headerSize
    requires at <= |file| && file[at..] == FileOf(records, tail)
    ensures SoundFile(l, file, at) && Payloads(l, file, at) == PayloadsOf(records)
    decreases |records|
  {
    if records != [] {
      FirstReadsBack(l, file, at, records[0], FileOf(records[1..], tail));
      RecordsReadBack(l, file, at + SizeAt(l, file, at), records[1..], tail);
    }
  }

  /** A file that was written record by record, with fewer bytes than a header behind them, has
      exactly the payloads that were written, in order. */
  lemma FileReadsBack(l: Layout, records: seq<Record>, tail: seq<Byte>)
    requires AllWellFormed(l, records) && |tail| < l.headerSize
    ensures SoundFile(l, FileOf(records, tail), 0)
    ensures Payloads(l, FileOf(records, tail), 0) == PayloadsOf(records)
  {
    var file := FileOf(records, tail);
    assert file[0..] == file;
    RecordsReadBack(l, file, 0, records, tail);
  }

  /** From what was written to what is sent: for every list of records, every interleaving and
      every choice of segments the frames sent are the payloads that were written, in order and
      lap after lap, without those the segments cut off. */
  lemma WrittenIsSent(l: Layout, records: seq<Record>, tail: seq<Byte>, s: P.State, schedule: seq<P.Label>)
    requires AllWellFormed(l, records) && |tail| < l.headerSize
    requires P.Initial(s) && P.Exec(TapeOf(l, FileOf(records, tail)), s, schedule).Some?
    ensures var file := FileOf(records, tail);
      var u := P.Exec(TapeOf(l, file), s, schedule).value;
      var frames, all := Frames(l, file, u.sent), Repeat(PayloadsOf(records), Laps(u.delivered)) + PayloadsOf(records);
      Subsequence(frames, all) && (TailsFree(TapeOf(l, file), u.delivered) ==> frames <= all)
  {
    FileReadsBack(l, records, tail);
    FramesSent(l, FileOf(records, tail), s, schedule);
  }

  // ------------------------------------------------------------------ segments

  /** The buffer a peer sends for a segment: magic number, file index, offset and length with the
      end flag, then the bytes. */
  function BufferOf(l: Layout, index: nat, s: Segment, file: seq<Byte>): seq<Byte>
    requires l.magic < WORD && index < WORD && s.offset < WORD && s.length < 0x8000_0000 && End(s) <= |file|
  {
    Written(l.magic) + Written(index) + Written(s.offset)
    + Written(if s.last then s.length + 0x8000_0000 else s.length) + file[s.offset..End(s)]
  }

  lemma {:induction false} SameIfSlice(a: seq<Byte>, i: nat, b: seq<Byte>, j: nat, n: nat)
    requires i + n <= |a| && j + n <= |b| && a[i..i + n] == b[j..j + n]
    ensures SameBytes(a, i, b, j, n)
    decreases n
  {
    if n > 0 {
      assert a[i] == a[i..i + n][0] && b[j] == b[j..j + n][0];
      assert a[i + 1..i + 1 + (n - 1)] == a[i..i + n][1..];
      assert b[j + 1..j + 1 + (n - 1)] == b[j..j + n][1..];
      SameIfSlice(a, i + 1, b, j + 1, n - 1);
    }
  }

  /** A segment that was sent is what the receiver reads off its buffer. */
  lemma BufferReadsBack(l: Layout, index: nat, s: Segment, file: seq<Byte>)
    requires l.magic < WORD && index < WORD && s.offset < WORD && s.length < 0x8000_0000 && End(s) <= |file|
    ensures var b := BufferOf(l, index, s, file);
      |b| == 16 + s.length && SegmentOf(b) == s && Magic(b) == l.magic && Carries(b, file)
  {
    var b := BufferOf(l, index, s, file);
    var word := if s.last then s.length + 0x8000_0000 else s.length;
    assert b[0..4] == Written(l.magic) && b[8..12] == Written(s.offset) && b[12..16] == Written(word);
    WordReadsBack(b, 0, l.magic);
    WordReadsBack(b, 8, s.offset);
    WordReadsBack(b, 12, word);
    assert b[16..16 + s.length] == file[s.offset..s.offset + s.length];
    SameIfSlice(b, 16, file, s.offset, s.length);
  }
}
