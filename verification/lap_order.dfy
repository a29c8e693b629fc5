/** Whole runs of segments against the file: what is sent keeps the order of the file, lap
    after lap, and exactly which records are missing from it. */
module LapOrder {
  import opened RecordWalk

  // -------------------------------------------------------------- subsequences

  /** `a` is `b` with some elements left out, the others in the same order. */
  ghost predicate Subsequence<T>(a: seq<T>, b: seq<T>)
    decreases |b|
  {
    a == []
    || (b != [] && a[0] == b[0] && Subsequence(a[1..], b[1..]))
    || (b != [] && Subsequence(a, b[1..]))
  }

  /** In other words: the elements of `a` stand in `b` at increasing positions. */
  lemma {:induction false} Positions<T>(a: seq<T>, b: seq<T>) returns (at: seq<nat>)
    requires Subsequence(a, b)
    ensures |at| == |a| && forall i :: 0 <= i < |at| ==> at[i] < |b| && b[at[i]] == a[i]
    ensures forall i, j :: 0 <= i < j < |at| ==> at[i] < at[j]
    decreases |b|
  {
    if a == [] { return []; }
    var rest;
    if a[0] == b[0] && Subsequence(a[1..], b[1..]) {
      rest := Positions(a[1..], b[1..]);
      at := [0] + seq(|rest|, i requires 0 <= i < |rest| => rest[i] + 1);
    } else {
      rest := Positions(a, b[1..]);
      at := seq(|rest|, i requires 0 <= i < |rest| => rest[i] + 1);
    }
  }

  lemma {:induction false} Appended<T>(a: seq<T>, b: seq<T>, c: seq<T>, d: seq<T>)
    requires Subsequence(a, b) && Subsequence(c, d)
    ensures Subsequence(a + c, b + d)
    decreases |b|
  {
    if b == [] {
      assert a + c == c && b + d == d;
    } else if a != [] && a[0] == b[0] && Subsequence(a[1..], b[1..]) {
      Appended(a[1..], b[1..], c, d);
      assert (a + c)[1..] == a[1..] + c && (b + d)[1..] == b[1..] + d;
    } else {
      Appended(a, b[1..], c, d);
      assert (b + d)[1..] == b[1..] + d;
    }
  }

  lemma {:induction false} Itself<T>(a: seq<T>)
    ensures Subsequence(a, a)
  {
    if a != [] { Itself(a[1..]); }
  }

  lemma PrefixIsSubsequence<T>(a: seq<T>, b: seq<T>)
    requires a <= b
    ensures Subsequence(a, b)
  {
    Itself(a);
    Appended(a, a, [], b[|a|..]);
    assert a + [] == a && a + b[|a|..] == b;
  }

  lemma {:induction false} PrefixKeeps<T>(c: seq<T>, a: seq<T>, b: seq<T>)
    requires c <= a && Subsequence(a, b)
    ensures Subsequence(c, b)
    decreases |b|
  {
    if c != [] {
      if a[0] == b[0] && Subsequence(a[1..], b[1..]) {
        PrefixKeeps(c[1..], a[1..], b[1..]);
      } else {
        PrefixKeeps(c, a, b[1..]);
      }
    }
  }

  // --------------------------------------------------------- record boundaries

  /** A record, or the end of the records, begins at `at`. */
  predicate Boundary(t: Tape, at: nat) { Stop(t, 0, at) == at }

  lemma {:induction false} WalkToStop(t: Tape, at: nat, end: nat)
    requires at <= end && Sane(t, at, end)
    ensures Walk(t, at, Stop(t, at, end)) == Walk(t, at, end)
    ensures Stop(t, at, Stop(t, at, end)) == Stop(t, at, end)
    decreases end - at
  {
    if Whole(t, at, end) {
      StopBounds(t, at + Size(t, at), end);
      WalkToStop(t, at + Size(t, at), end);
    }
  }

  lemma {:induction false} StopResumes(t: Tape, at: nat, end: nat, last: nat)
    requires end <= last
    ensures Stop(t, at, last) == Stop(t, Stop(t, at, end), last)
    decreases end - at
  {
    if Whole(t, at, end) {
      StopResumes(t, at + Size(t, at), end, last);
    }
  }

  lemma BoundaryStep(t: Tape, at: nat, end: nat)
    requires Boundary(t, at) && at <= end && Sane(t, at, end)
    ensures Boundary(t, Stop(t, at, end))
    ensures Walk(t, 0, Stop(t, at, end)) == Walk(t, 0, at) + Walk(t, at, end)
  {
    var next := Stop(t, at, end);
    StopBounds(t, at, end);
    WalkToStop(t, at, end);
    WalkResumes(t, 0, at, next);
    StopResumes(t, 0, at, next);
  }

  lemma {:induction false} AwaitedIsBoundary(t: Tape, segs: seq<Segment>)
    requires Recorded(t, 0) && Chain(t, segs)
    ensures Boundary(t, Awaited(t, segs))
  {
    if segs != [] {
      var init, s := segs[..|segs| - 1], segs[|segs| - 1];
      AwaitedIsBoundary(t, init);
      CoverageIsCyclic(t, init);
      RecordedIsSane(t, s.offset, End(s));
      BoundaryStep(t, s.offset, End(s));
    }
  }

  // -------------------------------------------------------------- whole runs

  /** Fewer than 16 bytes follow the records of the file. */
  predicate ShortEnd(t: Tape) {
    Records(t) != [] && Length(t) < Stop(t, 0, Length(t)) + SEG_HEADER
  }

  /** What is left of a lap: all records, or all but the last. */
  function LapSent(t: Tape): seq<nat> {
    if ShortEnd(t) then Records(t)[..|Records(t)| - 1] else Records(t)
  }

  /** The laps completed by the segments, and the records of the lap under way. */
  function FileOrder(t: Tape, segs: seq<Segment>): seq<nat> {
    Repeat(LapSent(t), Laps(segs)) + Walk(t, 0, Awaited(t, segs))
  }

  /** No record ends within the last 16 bytes of a segment without the end flag. */
  predicate InnerTailsFree(t: Tape, segs: seq<Segment>) {
    segs == [] ||
    var s := segs[|segs| - 1];
    InnerTailsFree(t, segs[..|segs| - 1]) && (s.last || TailFree(t, s))
  }

  /** How many segments have a record that ends within their last 16 bytes. */
  function BadTails(t: Tape, segs: seq<Segment>): nat {
    if segs == [] then 0
    else BadTails(t, segs[..|segs| - 1]) + (if TailFree(t, segs[|segs| - 1]) then 0 else 1)
  }

  // The segment with the end flag completes its lap.
  lemma LapEnds(t: Tape, s: Segment)
    requires SEG_HEADER <= t.header && Served(t, s) && s.last
    requires Recorded(t, s.offset) && Boundary(t, s.offset)
    ensures Walk(t, 0, s.offset) + SentFrom(t, s) == LapSent(t)
  {
    SegmentSkips(t, s);
    WalkResumes(t, 0, s.offset, Length(t));
    StopResumes(t, 0, s.offset, Length(t));
  }

  lemma Regrouped(a: seq<nat>, b: seq<nat>, c: seq<nat>)
    ensures a + b + c == a + (b + c)
  {
  }

  // One more segment extends the file order by what it covers, or completes the lap.
  lemma OrderGrows(t: Tape, init: seq<Segment>, s: Segment)
    requires Recorded(t, 0) && SEG_HEADER <= t.header && Chain(t, init)
    requires Served(t, s) && s.offset == Awaited(t, init)
    ensures FileOrder(t, init + [s])
         == FileOrder(t, init) + (if s.last then SentFrom(t, s) else Walk(t, s.offset, End(s)))
  {
    var laps := Repeat(LapSent(t), Laps(init));
    assert (init + [s])[..|init|] == init;
    AwaitedIsBoundary(t, init);
    CoverageIsCyclic(t, init);
    if s.last {
      LapEnds(t, s);
      calc {
        FileOrder(t, init + [s]);
        Repeat(LapSent(t), Laps(init) + 1) + Walk(t, 0, 0);
        laps + LapSent(t) + [];
        laps + LapSent(t);
        laps + (Walk(t, 0, s.offset) + SentFrom(t, s));
        { Regrouped(laps, Walk(t, 0, s.offset), SentFrom(t, s)); }
        FileOrder(t, init) + SentFrom(t, s);
      }
    } else {
      var next := Stop(t, s.offset, End(s));
      RecordedIsSane(t, s.offset, End(s));
      BoundaryStep(t, s.offset, End(s));
      calc {
        FileOrder(t, init + [s]);
        laps + Walk(t, 0, next);
        laps + (Walk(t, 0, s.offset) + Walk(t, s.offset, End(s)));
        { Regrouped(laps, Walk(t, 0, s.offset), Walk(t, s.offset, End(s))); }
        FileOrder(t, init) + Walk(t, s.offset, End(s));
      }
    }
  }

  /** Whatever segments the peer chooses, what is sent is a subsequence of the file order: the
      records of the file in file order, lap after lap, none twice in a lap. Every lap that a
      segment with the end flag completes is without its last record if fewer than 16 bytes
      follow the records of the file. Nothing else is missing exactly if no record ends within
      the last 16 bytes of a segment without the end flag. */
  lemma {:induction false} SentInFileOrder(t: Tape, segs: seq<Segment>)
    requires Recorded(t, 0) && SEG_HEADER <= t.header && Chain(t, segs)
    ensures Subsequence(Sent(t, segs), FileOrder(t, segs))
    ensures |Sent(t, segs)| <= |FileOrder(t, segs)|
    ensures Sent(t, segs) == FileOrder(t, segs) <==> InnerTailsFree(t, segs)
  {
    if segs != [] {
      var init, s := segs[..|segs| - 1], segs[|segs| - 1];
      assert segs == init + [s];
      SentInFileOrder(t, init);
      OrderGrows(t, init, s);
      CoverageIsCyclic(t, init);
      SegmentSkips(t, s);
      var more := if s.last then SentFrom(t, s) else Walk(t, s.offset, End(s));
      PrefixIsSubsequence(SentFrom(t, s), more);
      Appended(Sent(t, init), FileOrder(t, init), SentFrom(t, s), more);
      AppendedEqually(Sent(t, init), FileOrder(t, init), SentFrom(t, s), more);
    }
  }

  /** The same against the plain list of the file's records, repeated. */
  lemma SentInLaps(t: Tape, segs: seq<Segment>)
    requires Recorded(t, 0) && SEG_HEADER <= t.header && Chain(t, segs)
    ensures Subsequence(Sent(t, segs), Repeat(Records(t), Laps(segs)) + Records(t))
  {
    SentOfCovered(t, segs);
    CoverageIsCyclic(t, segs);
    var rest := Walk(t, Awaited(t, segs), Length(t));
    Appended(Sent(t, segs), Covered(t, segs), [], rest);
    assert Sent(t, segs) + [] == Sent(t, segs);
  }

  /** Exactly one record is skipped for every segment with a record that ends within its last
      16 bytes. */
  lemma {:induction false} SentOfCovered(t: Tape, segs: seq<Segment>)
    requires Recorded(t, 0) && SEG_HEADER <= t.header && Chain(t, segs)
    ensures Subsequence(Sent(t, segs), Covered(t, segs))
    ensures |Sent(t, segs)| + BadTails(t, segs) == |Covered(t, segs)|
  {
    if segs != [] {
      var init, s := segs[..|segs| - 1], segs[|segs| - 1];
      SentOfCovered(t, init);
      CoverageIsCyclic(t, init);
      SegmentSkips(t, s);
      PrefixIsSubsequence(SentFrom(t, s), Walk(t, s.offset, End(s)));
      Appended(Sent(t, init), Covered(t, init), SentFrom(t, s), Walk(t, s.offset, End(s)));
    }
  }

  lemma {:induction false} WalkedEnds(t: Tape, at: nat, end: nat, r: nat)
    requires r in Walk(t, at, end)
    ensures r + Size(t, r) <= end
    decreases end - at
  {
    if r != at { WalkedEnds(t, at + Size(t, at), end, r); }
  }

  lemma {:induction false} LastWalkedEnds(t: Tape, at: nat, end: nat)
    requires Walk(t, at, end) != []
    ensures var w := Walk(t, at, end); var r := w[|w| - 1]; r + Size(t, r) == Stop(t, at, end)
    decreases end - at
  {
    if Whole(t, at + Size(t, at), end) { LastWalkedEnds(t, at + Size(t, at), end); }
  }

  lemma {:induction false} SentEnds(t: Tape, segs: seq<Segment>, r: nat)
    requires Chain(t, segs) && r in Sent(t, segs)
    ensures r + Size(t, r) + SEG_HEADER <= Length(t)
  {
    var init, s := segs[..|segs| - 1], segs[|segs| - 1];
    if r in SentFrom(t, s) {
      WalkedEnds(t, s.offset, End(s) - SEG_HEADER, r);
    } else {
      SentEnds(t, init, r);
    }
  }

  /** When fewer than 16 bytes follow the records of the file, its last record is never sent,
      in no lap of any run. */
  lemma LastRecordIsNeverSent(t: Tape, segs: seq<Segment>)
    requires Chain(t, segs) && ShortEnd(t)
    ensures Records(t)[|Records(t)| - 1] !in Sent(t, segs)
  {
    LastWalkedEnds(t, 0, Length(t));
    var last := Records(t)[|Records(t)| - 1];
    if last in Sent(t, segs) { SentEnds(t, segs, last); }
  }

  /** Every segment without the end flag holds a whole record. */
  predicate Advancing(t: Tape, segs: seq<Segment>) {
    segs == [] ||
    var s := segs[|segs| - 1];
    Advancing(t, segs[..|segs| - 1]) && (s.last || Walk(t, s.offset, End(s)) != [])
  }

  lemma {:induction false} CoversOneEach(t: Tape, segs: seq<Segment>)
    requires Advancing(t, segs)
    ensures |segs| <= Laps(segs) + |Covered(t, segs)|
  {
    if segs != [] { CoversOneEach(t, segs[..|segs| - 1]); }
  }

  lemma {:induction false} RepeatLength<T>(records: seq<T>, laps: nat)
    ensures |Repeat(records, laps)| == laps * |records|
  {
    if laps > 0 { RepeatLength(records, laps - 1); }
  }

  /** Laps are completed: if every segment without the end flag holds a whole record, the number
      of segments is bounded by the laps they complete and the records of the file. */
  lemma LapsAreCompleted(t: Tape, segs: seq<Segment>)
    requires Recorded(t, 0) && Chain(t, segs) && Advancing(t, segs)
    ensures |segs| <= Laps(segs) + (Laps(segs) + 1) * |Records(t)|
  {
    CoversOneEach(t, segs);
    CoverageIsCyclic(t, segs);
    RepeatLength(Records(t), Laps(segs));
    var all := Covered(t, segs) + Walk(t, Awaited(t, segs), Length(t));
    assert |all| == |Repeat(Records(t), Laps(segs))| + |Records(t)|;
  }
}
