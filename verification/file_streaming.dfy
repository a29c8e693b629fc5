/** The streaming of a file, byte by byte: RecordWalk's tape, the buffers of Segments and the
    runs of StreamingPipeline put together. */
module FileStreaming {
  import opened Common
  import opened LapOrder
  import opened RecordWalk
  import opened Segments
  import opened Wrappers
  import P = StreamingPipeline

  /** A record lies whole before the end of the file. */
  predicate WholeInFile(l: Layout, file: seq<Byte>, at: nat) {
    at + l.headerSize <= |file| && 0 < SizeAt(l, file, at) <= |file| - at
  }

  /** The file is whole, signed and sound records from `at` on, then fewer bytes than a
      record header. */
  ghost predicate SoundFile(l: Layout, file: seq<Byte>, at: nat)
    decreases |file| - at
  {
    && at <= |file|
    && (at + l.headerSize <= |file| ==>
          && Signed(l, file, at) && Sound(l, file, at)
          && WholeInFile(l, file, at)
          && SoundFile(l, file, at + SizeAt(l, file, at)))
  }

  /** The payloads of the records from `at` on. */
  function Payloads(l: Layout, file: seq<Byte>, at: nat): seq<seq<Byte>>
    decreases |file| - at
  {
    if WholeInFile(l, file, at) then [Frame(l, file, at)] + Payloads(l, file, at + SizeAt(l, file, at))
    else []
  }

  // ------------------------------------------------ what a sound file gives its readers

  lemma {:induction false} SoundIsRecorded(l: Layout, file: seq<Byte>, at: nat)
    requires SoundFile(l, file, at)
    ensures Recorded(TapeOf(l, file), at)
    decreases |file| - at
  {
    SizeOnTape(l, file, at);
    if at + l.headerSize <= |file| {
      SoundRecord(l, file, at);
      SoundIsRecorded(l, file, at + SizeAt(l, file, at));
    }
  }

  lemma {:induction false} SoundIsSoundUpTo(l: Layout, file: seq<Byte>, at: nat, end: nat)
    requires SoundFile(l, file, at) && end <= |file|
    ensures SoundUpTo(l, file, at, end)
    decreases |file| - at
  {
    if at + l.headerSize <= end && 0 < SizeAt(l, file, at) <= end - at {
      SoundIsSoundUpTo(l, file, at + SizeAt(l, file, at), end);
    }
  }

  lemma {:induction false} SoundAtStop(l: Layout, file: seq<Byte>, at: nat, end: nat)
    requires SoundFile(l, file, at) && end <= |file|
    ensures SoundFile(l, file, Stop(TapeOf(l, file), at, end))
    decreases |file| - at
  {
    var t := TapeOf(l, file);
    SizeOnTape(l, file, at);
    StopStep(t, at, end);
    if Whole(t, at, end) {
      SoundAtStop(l, file, at + SizeAt(l, file, at), end);
    }
  }

  /** Sound records begin at every offset a run asks for. */
  lemma {:induction false} SoundAtAwaited(l: Layout, file: seq<Byte>, segs: seq<Segment>)
    requires SoundFile(l, file, 0) && Chain(TapeOf(l, file), segs)
    ensures SoundFile(l, file, Awaited(TapeOf(l, file), segs))
  {
    if segs != [] {
      var s := segs[|segs| - 1];
      SoundAtAwaited(l, file, segs[..|segs| - 1]);
      SoundAtStop(l, file, s.offset, End(s));
    }
  }

  // ------------------------------------------------------------------- frames

  lemma FramesOfConcat(l: Layout, file: seq<Byte>, a: seq<nat>, b: seq<nat>)
    ensures Frames(l, file, a + b) == Frames(l, file, a) + Frames(l, file, b)
  {
  }

  lemma WalkInFile(l: Layout, file: seq<Byte>, at: nat)
    ensures Walk(TapeOf(l, file), at, |file|) ==
            if WholeInFile(l, file, at) then [at] + Walk(TapeOf(l, file), at + SizeAt(l, file, at), |file|) else []
  {
    SizeOnTape(l, file, at);
  }

  lemma PayloadsInFile(l: Layout, file: seq<Byte>, at: nat)
    ensures Payloads(l, file, at) ==
            if WholeInFile(l, file, at) then [Frame(l, file, at)] + Payloads(l, file, at + SizeAt(l, file, at)) else []
  {
  }

  lemma {:induction false} FramesOfFile(l: Layout, file: seq<Byte>, at: nat)
    ensures Frames(l, file, Walk(TapeOf(l, file), at, |file|)) == Payloads(l, file, at)
    decreases |file| - at
  {
    WalkInFile(l, file, at);
    PayloadsInFile(l, file, at);
    if WholeInFile(l, file, at) {
      var next := at + SizeAt(l, file, at);
      FramesCons(l, file, at, Walk(TapeOf(l, file), next, |file|));
      FramesOfFile(l, file, next);
    }
  }

  lemma {:induction false} FramesOfRepeat(l: Layout, file: seq<Byte>, records: seq<nat>, laps: nat)
    ensures Frames(l, file, Repeat(records, laps)) == Repeat(Frames(l, file, records), laps)
  {
    if laps > 0 {
      FramesOfRepeat(l, file, records, laps - 1);
      FramesOfConcat(l, file, Repeat(records, laps - 1), records);
    }
  }

  lemma {:induction false} FramesOfSubsequence(l: Layout, file: seq<Byte>, a: seq<nat>, b: seq<nat>)
    requires Subsequence(a, b)
    ensures Subsequence(Frames(l, file, a), Frames(l, file, b))
    decreases |b|
  {
    if a != [] {
      var fa, fb := Frames(l, file, a), Frames(l, file, b);
      assert fb[1..] == Frames(l, file, b[1..]);
      if a[0] == b[0] && Subsequence(a[1..], b[1..]) {
        assert fa[1..] == Frames(l, file, a[1..]);
        FramesOfSubsequence(l, file, a[1..], b[1..]);
      } else {
        FramesOfSubsequence(l, file, a, b[1..]);
      }
    }
  }

  lemma FramesOfPrefix(l: Layout, file: seq<Byte>, a: seq<nat>, b: seq<nat>)
    requires a <= b
    ensures Frames(l, file, a) <= Frames(l, file, b)
  {
    FramesOfConcat(l, file, a, b[|a|..]);
    assert a + b[|a|..] == b;
  }

  lemma FramesOfLaps(l: Layout, file: seq<Byte>, laps: nat)
    ensures var records := Records(TapeOf(l, file));
      Frames(l, file, Repeat(records, laps) + records)
      == Repeat(Payloads(l, file, 0), laps) + Payloads(l, file, 0)
  {
    var records := Records(TapeOf(l, file));
    FramesOfFile(l, file, 0);
    FramesOfRepeat(l, file, records, laps);
    FramesOfConcat(l, file, Repeat(records, laps), records);
  }

  // -------------------------------------------------------------- main results

  /** For every file of sound records, every interleaving and every choice of segments: the
      frames sent are the payloads of the file, untorn, in file order, lap after lap. All of
      them, if no record ends in the last 16 bytes of a segment; all but the last of each
      completed lap, if fewer than 16 bytes follow the records and no other segment has such
      a record. */
  lemma FramesSent(l: Layout, file: seq<Byte>, s: P.State, schedule: seq<P.Label>)
    requires SoundFile(l, file, 0) && P.Initial(s) && P.Exec(TapeOf(l, file), s, schedule).Some?
    ensures var t, u := TapeOf(l, file), P.Exec(TapeOf(l, file), s, schedule).value;
      var frames, payloads := Frames(l, file, u.sent), Payloads(l, file, 0);
      && Subsequence(frames, Repeat(payloads, Laps(u.delivered)) + payloads)
      && (TailsFree(t, u.delivered) ==> frames <= Repeat(payloads, Laps(u.delivered)) + payloads)
      && (InnerTailsFree(t, u.delivered) && ShortEnd(t) ==>
            |payloads| > 0 && frames <= Repeat(payloads[..|payloads| - 1], Laps(u.delivered)) + payloads)
  {
    var t := TapeOf(l, file);
    SoundIsRecorded(l, file, 0);
    P.EndToEnd(t, s, schedule);
    var u := P.Exec(t, s, schedule).value;
    SentFrames(l, file, u.sent, u.delivered);
  }

  lemma SentFrames(l: Layout, file: seq<Byte>, sent: seq<nat>, segs: seq<Segment>)
    requires var t := TapeOf(l, file);
      && Recorded(t, 0) && Chain(t, segs)
      && Subsequence(sent, Repeat(Records(t), Laps(segs)) + Records(t))
      && (TailsFree(t, segs) ==> sent <= Repeat(Records(t), Laps(segs)) + Records(t))
      && (InnerTailsFree(t, segs) ==> sent <= FileOrder(t, segs))
    ensures var t, frames, payloads := TapeOf(l, file), Frames(l, file, sent), Payloads(l, file, 0);
      && Subsequence(frames, Repeat(payloads, Laps(segs)) + payloads)
      && (TailsFree(t, segs) ==> frames <= Repeat(payloads, Laps(segs)) + payloads)
      && (InnerTailsFree(t, segs) && ShortEnd(t) ==>
            |payloads| > 0 && frames <= Repeat(payloads[..|payloads| - 1], Laps(segs)) + payloads)
  {
    var t := TapeOf(l, file);
    var all := Repeat(Records(t), Laps(segs)) + Records(t);
    FramesOfLaps(l, file, Laps(segs));
    FramesOfSubsequence(l, file, sent, all);
    if TailsFree(t, segs) { FramesOfPrefix(l, file, sent, all); }
    if InnerTailsFree(t, segs) && ShortEnd(t) { ShortLaps(l, file, sent, segs); }
  }

  lemma ShortLaps(l: Layout, file: seq<Byte>, sent: seq<nat>, segs: seq<Segment>)
    requires var t := TapeOf(l, file);
      Recorded(t, 0) && Chain(t, segs) && ShortEnd(t) && sent <= FileOrder(t, segs)
    ensures var payloads := Payloads(l, file, 0);
      |payloads| > 0
      && Frames(l, file, sent) <= Repeat(payloads[..|payloads| - 1], Laps(segs)) + payloads
  {
    var t := TapeOf(l, file);
    var short, current := LapSent(t), Walk(t, 0, Awaited(t, segs));
    FramesOfPrefix(l, file, sent, FileOrder(t, segs));
    FramesOfConcat(l, file, Repeat(short, Laps(segs)), current);
    FramesOfRepeat(l, file, short, Laps(segs));
    FramesOfFile(l, file, 0);
    assert Frames(l, file, short) == Payloads(l, file, 0)[..|Records(t)| - 1];
    CurrentLap(t, segs);
    FramesOfPrefix(l, file, current, Records(t));
  }

  // The lap under way is a prefix of the file's records.
  lemma CurrentLap(t: Tape, segs: seq<Segment>)
    requires Recorded(t, 0) && Chain(t, segs)
    ensures Walk(t, 0, Awaited(t, segs)) <= Records(t)
  {
    CoverageIsCyclic(t, segs);
    WalkResumes(t, 0, Awaited(t, segs), Length(t));
  }

  /** The offset of every buffer of a run on a file of sound records is the one asked for, and
      all of them are multiples of 4. */
  lemma OffsetsInFile(l: Layout, file: seq<Byte>, s: P.State, schedule: seq<P.Label>)
    requires P.Initial(s) && P.Exec(TapeOf(l, file), s, schedule).Some?
    ensures var u := P.Exec(TapeOf(l, file), s, schedule).value;
      && (u.k == P.KParse ==>
            u.top.Some? && u.top.value < |u.delivered| && u.next == u.delivered[u.top.value].offset)
      && (u.k != P.KStart ==> u.next % 4 == 0)
  {
    TapeIsPadded(l, file);
    P.OffsetsMatch(TapeOf(l, file), s, schedule);
  }

  // ----------------------------------------------------------- buffers of a run

  /** The buffers passed the checks of the receive callback and carry bytes of the file. */
  ghost predicate Received(l: Layout, buffers: seq<seq<Byte>>, file: seq<Byte>) {
    forall i :: 0 <= i < |buffers| ==> Carries(buffers[i], file) && Magic(buffers[i]) == l.magic
  }

  ghost function SegmentsOf(l: Layout, buffers: seq<seq<Byte>>, file: seq<Byte>): (segs: seq<Segment>)
    requires Received(l, buffers, file)
    ensures |segs| == |buffers|
  {
    seq(|buffers|, i requires 0 <= i < |buffers| => SegmentOf(buffers[i]))
  }

  /** The bytes of a whole run: the buffers served to the playing thread, one after the other,
      give exactly the payloads of the records its segments call for, the offset each of them
      asks for is the one of the next, and the mismatch message is never printed. */
  method PlayBuffers(reader: FrameReader, buffers: seq<seq<Byte>>, ghost file: seq<Byte>)
    returns (frames: seq<seq<Byte>>, next: nat, mismatch: bool)
    requires SoundFile(reader.layout, file, 0) && |file| < WORD
    requires Received(reader.layout, buffers, file)
    requires Chain(TapeOf(reader.layout, file), SegmentsOf(reader.layout, buffers, file))
    modifies reader
    ensures var t, segs := TapeOf(reader.layout, file), SegmentsOf(reader.layout, buffers, file);
      && frames == Frames(reader.layout, file, Sent(t, segs))
      && next == Awaited(t, segs) && !mismatch
  {
    ghost var l := reader.layout;
    ghost var t, segs := TapeOf(l, file), SegmentsOf(l, buffers, file);
    frames, next, mismatch := [], 0, false;
    for i := 0 to |buffers|
      invariant frames == Frames(l, file, Sent(t, segs[..i]))
      invariant next == Awaited(t, segs[..i]) && !mismatch
    {
      NextOfChain(t, segs, i);
      SoundOfChain(l, file, segs, i);
      if next != FileOffset(buffers[i]) { mismatch := true; }
      var more;
      more, next := PlayBuffer(reader, buffers[i], file);
      FramesOfConcat(l, file, Sent(t, segs[..i]), SentFrom(t, segs[i]));
      frames := frames + more;
    }
    assert segs[..|buffers|] == segs;
  }

  /** One buffer: the next request, then the frames. */
  method PlayBuffer(reader: FrameReader, top: seq<Byte>, ghost file: seq<Byte>)
    returns (frames: seq<seq<Byte>>, next: nat)
    requires Carries(top, file) && Magic(top) == reader.layout.magic && |file| < WORD
    requires SegmentOf(top).length >= SEG_HEADER && SoundFile(reader.layout, file, SegmentOf(top).offset)
    modifies reader
    ensures frames == Frames(reader.layout, file, SentFrom(TapeOf(reader.layout, file), SegmentOf(top)))
    ensures next == NextOffset(TapeOf(reader.layout, file), SegmentOf(top))
  {
    ghost var s := SegmentOf(top);
    SoundIsSoundUpTo(reader.layout, file, s.offset, End(s));
    SoundIsSoundUpTo(reader.layout, file, s.offset, End(s) - SEG_HEADER);
    next := GetNextFileOffset(reader.layout, top, file);
    frames := reader.PlaySegment(top, file);
  }

  // One segment of a chain: where it starts, and what it adds.
  lemma NextOfChain(t: Tape, segs: seq<Segment>, i: nat)
    requires Chain(t, segs) && i < |segs|
    ensures Chain(t, segs[..i]) && Served(t, segs[i]) && segs[i].offset == Awaited(t, segs[..i])
    ensures Sent(t, segs[..i + 1]) == Sent(t, segs[..i]) + SentFrom(t, segs[i])
    ensures Awaited(t, segs[..i + 1]) == NextOffset(t, segs[i])
  {
    P.ChainPrefix(t, segs, i + 1);
    assert segs[..i + 1][..i] == segs[..i];
  }

  lemma SoundOfChain(l: Layout, file: seq<Byte>, segs: seq<Segment>, i: nat)
    requires SoundFile(l, file, 0) && Chain(TapeOf(l, file), segs) && i < |segs|
    ensures SoundFile(l, file, segs[i].offset)
  {
    NextOfChain(TapeOf(l, file), segs, i);
    SoundAtAwaited(l, file, segs[..i]);
  }
}
