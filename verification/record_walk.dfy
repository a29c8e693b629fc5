/** Walking the records of a file segment by segment, seen through record sizes only.

    A file is a tape of records; a reader gets a stretch of it at a time and can use the
    records that lie wholly inside that stretch. The two readers of the stream,
    get_next_fileOffset and next_frame, do not use the same byte budget: the second one is
    16 bytes short. This module states exactly what follows from that. */
module RecordWalk {

  /** sizeof(file_buf_header_t), which next_frame subtracts from a length that already
      excludes it. */
  const SEG_HEADER: nat := 16

  /** A file: `sizes[at]` is the padded size of the record whose header is at byte `at`, or
      0 if there is no record header there; a header takes `header` bytes. */
  datatype Tape = Tape(header: nat, sizes: seq<nat>)

  function Length(t: Tape): nat { |t.sizes| }

  function Size(t: Tape, at: nat): nat { if at < |t.sizes| then t.sizes[at] else 0 }

  /** The record at `at` lies wholly before `end`. */
  predicate Whole(t: Tape, at: nat, end: nat) {
    at + t.header <= end && 0 < Size(t, at) <= end - at
  }

  /** Offsets of the records from `at` on that lie wholly before `end`. */
  function Walk(t: Tape, at: nat, end: nat): seq<nat>
    decreases end - at
  {
    if !Whole(t, at, end) then [] else [at] + Walk(t, at + Size(t, at), end)
  }

  /** Where that walk stops. */
  function Stop(t: Tape, at: nat, end: nat): nat
    decreases end - at
  {
    if !Whole(t, at, end) then at else Stop(t, at + Size(t, at), end)
  }

  /** Every record the walk meets is at least a header long. */
  ghost predicate Sane(t: Tape, at: nat, end: nat)
    decreases end - at
  {
    Whole(t, at, end) ==>
      && Size(t, at) >= t.header
      && Sane(t, at + Size(t, at), end)
  }

  /** The tape is whole records from `at` on, then fewer bytes than a header. */
  ghost predicate Recorded(t: Tape, at: nat)
    decreases Length(t) - at
  {
    && at <= Length(t)
    && (at + t.header <= Length(t) ==>
          && Whole(t, at, Length(t))
          && Size(t, at) >= t.header
          && Recorded(t, at + Size(t, at)))
  }

  lemma {:induction false} StopBounds(t: Tape, at: nat, end: nat)
    requires at <= end && Sane(t, at, end)
    ensures at <= Stop(t, at, end) <= end
    ensures Walk(t, at, end) == [] <==> Stop(t, at, end) == at
    decreases end - at
  {
    if Whole(t, at, end) {
      StopBounds(t, at + Size(t, at), end);
    }
  }

  /** Records are padded to 4 bytes. */
  ghost predicate Padded4(t: Tape) {
    forall at: nat :: Size(t, at) % 4 == 0
  }

  lemma {:induction false} StopIsAligned(t: Tape, at: nat, end: nat)
    requires Padded4(t) && at % 4 == 0
    ensures Stop(t, at, end) % 4 == 0
    decreases end - at
  {
    if Whole(t, at, end) {
      assert Size(t, at) % 4 == 0;
      StopIsAligned(t, at + Size(t, at), end);
    }
  }

  lemma {:induction false} RecordedIsSane(t: Tape, at: nat, end: nat)
    requires end <= Length(t) && Recorded(t, at)
    ensures Sane(t, at, end)
    decreases end - at
  {
    if Whole(t, at, end) {
      RecordedIsSane(t, at + Size(t, at), end);
    }
  }

  lemma {:induction false} StopIsRecorded(t: Tape, at: nat, end: nat)
    requires end <= Length(t) && Recorded(t, at)
    ensures Recorded(t, Stop(t, at, end))
    decreases end - at
  {
    if Whole(t, at, end) {
      StopIsRecorded(t, at + Size(t, at), end);
    }
  }

  /** A walk can be interrupted anywhere and resumed where it stopped. */
  lemma {:induction false} WalkResumes(t: Tape, at: nat, end: nat, last: nat)
    requires end <= last
    ensures Walk(t, at, last) == Walk(t, at, end) + Walk(t, Stop(t, at, end), last)
    decreases end - at
  {
    if Whole(t, at, end) {
      WalkResumes(t, at + Size(t, at), end, last);
    }
  }

  // One record of a walk.
  lemma StopStep(t: Tape, at: nat, end: nat)
    ensures Stop(t, at, end) == if Whole(t, at, end) then Stop(t, at + Size(t, at), end) else at
  {
  }

  lemma WalkStep(t: Tape, at: nat, end: nat, done: seq<nat>)
    ensures Whole(t, at, end) ==>
              done + Walk(t, at, end) == done + [at] + Walk(t, at + Size(t, at), end)
    ensures !Whole(t, at, end) ==> done + Walk(t, at, end) == done
  {
  }

  /** The two budgets: walking 16 bytes short finds the same records when no record ends
      within the last 16 bytes, and otherwise all of them but the last. */
  lemma {:induction false} TwoBudgets(t: Tape, at: nat, end: nat)
    requires SEG_HEADER <= t.header
    requires at + SEG_HEADER <= end && Sane(t, at, end)
    ensures var all := Walk(t, at, end);
      var short := Walk(t, at, end - SEG_HEADER);
      if Stop(t, at, end) <= end - SEG_HEADER then short == all
      else |all| > 0 && short == all[..|all| - 1]
    decreases end - at
  {
    if Whole(t, at, end) {
      var next := at + Size(t, at);
      if next + SEG_HEADER <= end {
        TwoBudgets(t, next, end);
      } else {
        assert !Whole(t, next, end);
        assert Stop(t, at, end) == next && Walk(t, next, end) == [];
        assert !Whole(t, at, end - SEG_HEADER);
      }
    }
  }

  // ---------------------------------------------------------------- whole runs

  /** One answer of the peer: `length` bytes from `offset`, with the end flag or without. */
  datatype Segment = Segment(offset: nat, length: nat, last: bool)

  function End(s: Segment): nat { s.offset + s.length }

  /** The offset asked for after `s`: the first record not wholly inside it, or the start
      of the file after a segment with the end flag. */
  function NextOffset(t: Tape, s: Segment): nat {
    if s.last then 0 else Stop(t, s.offset, End(s))
  }

  /** Records the playing thread sends from `s`: its budget is 16 bytes short. */
  function SentFrom(t: Tape, s: Segment): seq<nat> {
    if s.length < SEG_HEADER then [] else Walk(t, s.offset, End(s) - SEG_HEADER)
  }

  /** The peer serves bytes of the file, at least 16 of them, and sets the end flag only on
      a segment that reaches the end of the file. */
  predicate Served(t: Tape, s: Segment) {
    SEG_HEADER <= s.length && End(s) <= Length(t) && (s.last ==> End(s) == Length(t))
  }

  /** The offset asked for after the segments. */
  function Awaited(t: Tape, segs: seq<Segment>): nat {
    if segs == [] then 0 else NextOffset(t, segs[|segs| - 1])
  }

  /** Every segment was served at the offset asked for after the one before it. */
  ghost predicate Chain(t: Tape, segs: seq<Segment>) {
    segs == [] ||
    var init, s := segs[..|segs| - 1], segs[|segs| - 1];
    Chain(t, init) && Served(t, s) && s.offset == Awaited(t, init)
  }

  /** Records that lie wholly inside the segments, in order. */
  function Covered(t: Tape, segs: seq<Segment>): seq<nat> {
    if segs == [] then []
    else var s := segs[|segs| - 1];
      Covered(t, segs[..|segs| - 1]) + Walk(t, s.offset, End(s))
  }

  /** Records sent from the segments, in order. */
  function Sent(t: Tape, segs: seq<Segment>): seq<nat> {
    if segs == [] then []
    else Sent(t, segs[..|segs| - 1]) + SentFrom(t, segs[|segs| - 1])
  }

  function Laps(segs: seq<Segment>): nat {
    if segs == [] then 0
    else Laps(segs[..|segs| - 1]) + (if segs[|segs| - 1].last then 1 else 0)
  }

  function Repeat<T>(records: seq<T>, laps: nat): seq<T> {
    if laps == 0 then [] else Repeat(records, laps - 1) + records
  }

  /** All records of the file. */
  function Records(t: Tape): seq<nat> { Walk(t, 0, Length(t)) }

  /** What the segments cover is the file's records in file order, lap after lap; the rest
      of the current lap starts at the offset asked for next. */
  lemma {:induction false} CoverageIsCyclic(t: Tape, segs: seq<Segment>)
    requires Recorded(t, 0) && Chain(t, segs)
    ensures Recorded(t, Awaited(t, segs))
    ensures Covered(t, segs) + Walk(t, Awaited(t, segs), Length(t))
         == Repeat(Records(t), Laps(segs)) + Records(t)
  {
    if segs != [] {
      var init, s := segs[..|segs| - 1], segs[|segs| - 1];
      CoverageIsCyclic(t, init);
      StopIsRecorded(t, s.offset, End(s));
      SegmentCovers(t, s);
      Regroup(Covered(t, init), Walk(t, s.offset, End(s)), Walk(t, NextOffset(t, s), Length(t)),
              Walk(t, s.offset, Length(t)), if s.last then Records(t) else [],
              Repeat(Records(t), Laps(init)) + Records(t));
    }
  }

  lemma Regroup(covered: seq<nat>, walk: seq<nat>, rest: seq<nat>, whole: seq<nat>, more: seq<nat>, laps: seq<nat>)
    requires walk + rest == whole + more && covered + whole == laps
    ensures covered + walk + rest == laps + more
  {
    assert covered + walk + rest == covered + (walk + rest);
    assert covered + (whole + more) == covered + whole + more;
  }

  // One segment: what it covers, and what is asked for after it.
  lemma SegmentCovers(t: Tape, s: Segment)
    requires Served(t, s) && Recorded(t, s.offset)
    ensures Walk(t, s.offset, End(s)) + Walk(t, NextOffset(t, s), Length(t))
         == Walk(t, s.offset, Length(t)) + (if s.last then Records(t) else [])
  {
    WalkResumes(t, s.offset, End(s), Length(t));
    if s.last {
      LastWalkIsAll(t, s.offset);
    }
  }

  // A segment that reaches the end of the file leaves no record behind.
  lemma {:induction false} LastWalkIsAll(t: Tape, at: nat)
    requires Recorded(t, at)
    ensures Walk(t, Stop(t, at, Length(t)), Length(t)) == []
    decreases Length(t) - at
  {
    if Whole(t, at, Length(t)) {
      LastWalkIsAll(t, at + Size(t, at));
    }
  }

  lemma AppendedEqually(x: seq<nat>, y: seq<nat>, a: seq<nat>, b: seq<nat>)
    requires |x| <= |y| && |a| <= |b|
    ensures x + a == y + b <==> x == y && a == b
  {
    if x + a == y + b {
      assert |x + a| == |y + b|;
      assert x == (x + a)[..|x|] && y == (y + b)[..|y|];
      assert a == (x + a)[|x|..] && b == (y + b)[|y|..];
    }
  }

  /** No record ends within the last 16 bytes of the segment. */
  predicate TailFree(t: Tape, s: Segment) { Stop(t, s.offset, End(s)) + SEG_HEADER <= End(s) }

  /** ... of any of the segments. */
  predicate TailsFree(t: Tape, segs: seq<Segment>) {
    segs == [] || (TailsFree(t, segs[..|segs| - 1]) && TailFree(t, segs[|segs| - 1]))
  }

  /** Nothing is skipped in a run exactly when no record ends within the last 16 bytes of
      a segment. */
  lemma {:induction false} NothingSkippedIff(t: Tape, segs: seq<Segment>)
    requires Recorded(t, 0) && SEG_HEADER <= t.header && Chain(t, segs)
    ensures |Sent(t, segs)| <= |Covered(t, segs)|
    ensures Sent(t, segs) == Covered(t, segs) <==> TailsFree(t, segs)
  {
    if segs != [] {
      var init, s := segs[..|segs| - 1], segs[|segs| - 1];
      NothingSkippedIff(t, init);
      CoverageIsCyclic(t, init);
      SegmentSkips(t, s);
      AppendedEqually(Sent(t, init), Covered(t, init), SentFrom(t, s), Walk(t, s.offset, End(s)));
    }
  }

  /** One segment: what is sent of it is what it covers, but for the last record exactly if
      that ends within the last 16 bytes. */
  lemma SegmentSkips(t: Tape, s: Segment)
    requires SEG_HEADER <= t.header && Served(t, s) && Recorded(t, s.offset)
    ensures |SentFrom(t, s)| <= |Walk(t, s.offset, End(s))|
    ensures SentFrom(t, s) == Walk(t, s.offset, End(s)) <==> TailFree(t, s)
    ensures var all := Walk(t, s.offset, End(s));
      !TailFree(t, s) ==> |all| > 0 && SentFrom(t, s) == all[..|all| - 1]
  {
    RecordedIsSane(t, s.offset, End(s));
    TwoBudgets(t, s.offset, End(s));
  }

  /** A lap always loses its last record when fewer than 16 bytes follow the records of the
      file: the segment with the end flag is sent without it. */
  lemma LapLosesLastRecord(t: Tape, s: Segment)
    requires SEG_HEADER <= t.header && Served(t, s) && s.last && Recorded(t, s.offset)
    requires Length(t) - Stop(t, s.offset, Length(t)) < SEG_HEADER
    ensures var rest := Walk(t, s.offset, Length(t));
      |rest| > 0 && SentFrom(t, s) == rest[..|rest| - 1]
  {
    RecordedIsSane(t, s.offset, End(s));
    TwoBudgets(t, s.offset, End(s));
  }

  /** Every offset asked for is a multiple of 4. */
  lemma {:induction false} AwaitedIsAligned(t: Tape, segs: seq<Segment>)
    requires Padded4(t) && Chain(t, segs)
    ensures Awaited(t, segs) % 4 == 0
  {
    if segs != [] {
      var s := segs[|segs| - 1];
      AwaitedIsAligned(t, segs[..|segs| - 1]);
      StopIsAligned(t, s.offset, End(s));
    }
  }

  /** Records sent from the first segments are a prefix of those sent from all. */
  lemma {:induction false} SentGrows(t: Tape, segs: seq<Segment>, n: nat)
    requires n <= |segs|
    ensures Sent(t, segs[..n]) <= Sent(t, segs)
  {
    if n < |segs| {
      var init := segs[..|segs| - 1];
      assert init[..n] == segs[..n];
      SentGrows(t, init, n);
    } else {
      assert segs[..n] == segs;
    }
  }
}
