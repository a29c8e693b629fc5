/** Why the pipeline comes to rest between deliveries: every access of the two threads lowers
    a rank, so a run is as long as what was delivered and the spurious wake-ups allow. */
module StreamingProgress {
  import opened Wrappers
  import opened RecordWalk
  import opened IndexRing
  import opened StreamingPipeline
  import C = BufferChannel

  // ------------------------------------------------------------------- the rank

  // How far the consumer is from taking a buffer or from sleep.
  function ConsumerPos(c: C.ConsumerPc): nat {
    match c
    case CIdle => 0
    case CBlocked => 0
    case CBlock => 1
    case CSetWaiting => 2
    case CClearSignaled => 2
    case CTest => 3
    case CLock => 4
    case CClearWaiting => 5
    case CRelock => 6
    case CAdvanceRead => 6
    case CAdvanceTest => 7
    case CLoadChannel => 8
    case CLoadBuffer => 9
    case CGetRead => 10
    case CUnlock => 11
  }

  /** What the producer still does, and the signal it leaves behind. */
  function ProducerWork(c: C.State): nat {
    40 * C.ProducerRank(c.p) + 20 * Bit(c.signaled)
  }

  // Records the playing thread still sends from the buffer taken last.
  function Held(t: Tape, segs: seq<Segment>, taken: nat): nat {
    if 0 < taken <= |segs| then |SentFrom(t, segs[taken - 1])| else 0
  }

  // ... once it is reading them.
  function Unread(t: Tape, s: State): nat {
    if s.top.Some? then |Walk(t, s.at, s.end)| else 0
  }

  // How far the playing thread is from waiting for a buffer, and then from having it.
  function PlayPos(k: PlayPc, c: C.ConsumerPc, held: nat, unread: nat): nat {
    match k
    case KTake => if c == C.CIdle then 25 + 2 * held else ConsumerPos(c)
    case KParse => 24 + 2 * held
    case KNumIn => 23 + 2 * held
    case KRequest => 22 + 2 * held
    case KSetBuffer => 21 + 2 * held
    case KSend => 21 + 2 * unread
    case KScan => 20 + 2 * unread
    case KFree => 19
    case KStart => 21
  }

  // The work that the segments behind the first `taken` ones will make.
  function Pending(t: Tape, segs: seq<Segment>, taken: nat): nat {
    if |segs| <= taken then 0
    else Pending(t, segs[..|segs| - 1], taken) + 30 + 2 * |SentFrom(t, segs[|segs| - 1])|
  }

  function Rank(t: Tape, s: State): nat {
    PlayPos(s.k, s.chan.c, Held(t, s.delivered, Taken(s)), Unread(t, s))
    + Pending(t, s.delivered, Taken(s)) + ProducerWork(s.chan)
  }

  lemma {:induction false} PendingTaken(t: Tape, segs: seq<Segment>, taken: nat)
    requires taken < |segs|
    ensures Pending(t, segs, taken) == Pending(t, segs, taken + 1) + 30 + 2 * |SentFrom(t, segs[taken])|
  {
    var init := segs[..|segs| - 1];
    if taken < |init| {
      PendingTaken(t, init, taken);
    } else {
      assert Pending(t, init, taken) == 0 == Pending(t, segs, taken + 1);
    }
  }

  lemma PendingGrows(t: Tape, segs: seq<Segment>, segment: Segment, taken: nat)
    requires taken <= |segs|
    ensures Pending(t, segs + [segment], taken) == Pending(t, segs, taken) + 30 + 2 * |SentFrom(t, segment)|
    ensures Held(t, segs + [segment], taken) == Held(t, segs, taken)
  {
    assert (segs + [segment])[..|segs|] == segs;
  }

  // ------------------------------------------------------------ ring and semaphore

  // An access of the producer: it may leave a signal, or wake the consumer.
  lemma PushCosts(c: C.State)
    requires C.PushStep(c).Some?
    ensures var d := C.PushStep(c).value;
      && d.ring.taken == c.ring.taken && d.c == c.c
      && ProducerWork(d) < ProducerWork(c)
  {
  }

  lemma PostCosts(c: C.State)
    requires C.PostStep(c).Some?
    ensures var d := C.PostStep(c).value;
      && d.ring.taken == c.ring.taken && (d.c == C.CIdle <==> c.c == C.CIdle)
      && ConsumerPos(d.c) + ProducerWork(d) < ConsumerPos(c.c) + ProducerWork(c)
      && ProducerWork(d) < ProducerWork(c)
  {
  }

  // An access to ring and semaphore that takes no buffer and lowers its own part of the rank.
  lemma ChannelLowersRank(t: Tape, s: State, c: C.State)
    requires c.ring.taken == s.chan.ring.taken && (c.c == C.CIdle <==> s.chan.c == C.CIdle)
    requires ConsumerPos(c.c) + ProducerWork(c) < ConsumerPos(s.chan.c) + ProducerWork(s.chan)
    requires s.k == KTake || ProducerWork(c) < ProducerWork(s.chan)
    ensures Rank(t, s.(chan := c)) < Rank(t, s)
  {
  }

  lemma ProduceLowersRank(t: Tape, s: State)
    requires C.ProducerStep(s.chan).Some?
    ensures Rank(t, s.(chan := C.ProducerStep(s.chan).value)) < Rank(t, s)
  {
    if C.Posting(s.chan.p) { PostCosts(s.chan); } else { PushCosts(s.chan); }
    ChannelLowersRank(t, s, C.ProducerStep(s.chan).value);
  }

  // An access of the consumer before it takes a buffer: going around once more uses up a signal.
  lemma WaitCosts(c: C.State)
    requires C.SemaphoreInv(c) && C.WaitStep(c).Some?
    ensures var d := C.WaitStep(c).value;
      && d.ring.taken == c.ring.taken && d.c != C.CIdle
      && ConsumerPos(d.c) + ProducerWork(d) < ConsumerPos(c.c) + ProducerWork(c)
  {
  }

  lemma LoadCosts(c: C.State)
    requires C.ConsumerInv(c) && C.TakeStep(c).Some? && c.c != C.CAdvanceRead
    ensures var d := C.TakeStep(c).value;
      && d.ring.taken == c.ring.taken && d.c != C.CIdle
      && ConsumerPos(d.c) + ProducerWork(d) < ConsumerPos(c.c) + ProducerWork(c)
  {
  }

  // The access that takes a buffer turns pending work into work in hand.
  lemma TakeLowersRank(t: Tape, s: State, c: C.State)
    requires s.k == KTake && s.chan.c == C.CAdvanceRead && Taken(s) < |s.delivered|
    requires c == s.chan.(c := C.CIdle, ring := c.ring) && |c.ring.taken| == Taken(s) + 1
    ensures Rank(t, s.(chan := c)) < Rank(t, s)
  {
    PendingTaken(t, s.delivered, Taken(s));
  }

  lemma ConsumeLowersRank(t: Tape, s: State)
    requires C.Inv(s.chan) && OrderInv(s) && C.ConsumerStep(s.chan).Some?
    ensures Rank(t, s.(chan := C.ConsumerStep(s.chan).value)) < Rank(t, s)
  {
    var c := C.ConsumerStep(s.chan).value;
    if s.chan.c == C.CAdvanceRead {
      C.ConsumerHasEffect(s.chan);
      TakeLowersRank(t, s, c);
    } else {
      if C.Waiting(s.chan.c) { WaitCosts(s.chan); } else { LoadCosts(s.chan); }
      ChannelLowersRank(t, s, c);
    }
  }

  // ------------------------------------------------------------ the playing thread

  lemma ScanLowersRank(t: Tape, s: State)
    requires s.k == KScan
    ensures Rank(t, PlayStep(t, s).value) < Rank(t, s)
  {
  }

  lemma SetBufferLowersRank(t: Tape, s: State)
    requires OrderInv(s) && s.k == KSetBuffer && PlayStep(t, s).Some?
    ensures Rank(t, PlayStep(t, s).value) < Rank(t, s)
  {
    assert Unread(t, PlayStep(t, s).value) == Held(t, s.delivered, Taken(s));
  }

  lemma OpeningLowersRank(t: Tape, s: State)
    requires s.k == KTake || s.k == KParse || s.k == KNumIn || s.k == KRequest
    requires PlayStep(t, s).Some?
    ensures Rank(t, PlayStep(t, s).value) < Rank(t, s)
  {
    var u := PlayStep(t, s).value;
    assert u.chan == s.chan && u.delivered == s.delivered;
    assert Held(t, u.delivered, Taken(u)) == Held(t, s.delivered, Taken(s));
  }

  lemma SendingLowersRank(t: Tape, s: State)
    requires OrderInv(s) && (s.k == KStart || s.k == KSend || s.k == KFree)
    ensures Rank(t, PlayStep(t, s).value) < Rank(t, s)
  {
  }

  lemma PlayLowersRank(t: Tape, s: State)
    requires OrderInv(s) && PlayStep(t, s).Some?
    ensures Rank(t, PlayStep(t, s).value) < Rank(t, s)
  {
    match s.k {
      case KScan => ScanLowersRank(t, s);
      case KSetBuffer => SetBufferLowersRank(t, s);
      case KStart | KSend | KFree => SendingLowersRank(t, s);
      case _ => OpeningLowersRank(t, s);
    }
  }

  // -------------------------------------------------------------------- any step

  lemma WakeRaisesRank(t: Tape, s: State)
    requires OrderInv(s) && Step(t, s, WakeSpuriously).Some?
    ensures Rank(t, Step(t, s, WakeSpuriously).value) <= Rank(t, s) + 6
  {
  }

  lemma DeliverRaisesRank(t: Tape, s: State, l: Label)
    requires Taken(s) <= |s.delivered| && l.Deliver? && Step(t, s, l).Some?
    ensures Rank(t, Step(t, s, l).value) <= Rank(t, s) + 430 + 2 * |SentFrom(t, l.segment)|
  {
    var u := Step(t, s, l).value;
    PendingGrows(t, s.delivered, l.segment, Taken(s));
    assert Unread(t, u) == Unread(t, s);
    assert ProducerWork(u.chan) == ProducerWork(s.chan) + 400;
  }

  /** What a delivery or a spurious wake-up may cost; the steps of the threads cost nothing. */
  function Cost(t: Tape, l: Label): nat {
    match l
    case Deliver(_, segment) => 431 + 2 * |SentFrom(t, segment)|
    case WakeSpuriously => 7
    case _ => 0
  }

  function Costs(t: Tape, schedule: seq<Label>): nat {
    if schedule == [] then 0 else Cost(t, schedule[0]) + Costs(t, schedule[1..])
  }

  lemma StepCosts(t: Tape, s: State, l: Label)
    requires Inv(t, s) && Step(t, s, l).Some?
    ensures 1 + Rank(t, Step(t, s, l).value) <= Rank(t, s) + Cost(t, l)
  {
    match l {
      case Deliver(_, _) => DeliverRaisesRank(t, s, l);
      case Produce => ProduceLowersRank(t, s);
      case Consume => ConsumeLowersRank(t, s);
      case WakeSpuriously => WakeRaisesRank(t, s);
      case Play => PlayLowersRank(t, s);
    }
  }

  function Wakes(schedule: seq<Label>): nat {
    if schedule == [] then 0 else (if schedule[0] == WakeSpuriously then 1 else 0) + Wakes(schedule[1..])
  }

  // What the segments of a whole run cost.
  function Total(t: Tape, segs: seq<Segment>): nat { 431 * |segs| + 2 * |Sent(t, segs)| }

  lemma StepDelivers(t: Tape, s: State, l: Label)
    requires Step(t, s, l).Some?
    ensures var u := Step(t, s, l).value;
      u.delivered == s.delivered + (if l.Deliver? then [l.segment] else [])
  {
  }

  lemma TotalGrows(t: Tape, segs: seq<Segment>, segment: Segment)
    ensures Total(t, segs + [segment]) == Total(t, segs) + 431 + 2 * |SentFrom(t, segment)|
  {
    assert (segs + [segment])[..|segs|] == segs;
  }

  // One step: what it costs is the spurious wake-up it is, or the segment it delivers.
  lemma CostOfStep(t: Tape, s: State, l: Label)
    requires Step(t, s, l).Some?
    ensures Cost(t, l) + Total(t, s.delivered)
         == (if l == WakeSpuriously then 7 else 0) + Total(t, Step(t, s, l).value.delivered)
  {
    StepDelivers(t, s, l);
    if l.Deliver? { TotalGrows(t, s.delivered, l.segment); }
  }

  lemma {:induction false} CostsOfRun(t: Tape, s: State, schedule: seq<Label>, u: State)
    requires Exec(t, s, schedule) == Some(u)
    ensures Costs(t, schedule) + Total(t, s.delivered) == 7 * Wakes(schedule) + Total(t, u.delivered)
    decreases |schedule|
  {
    if schedule != [] {
      CostOfStep(t, s, schedule[0]);
      CostsOfRun(t, Step(t, s, schedule[0]).value, schedule[1..], u);
    }
  }

  // ---------------------------------------------------------------- main results

  /** No livelock: from every state that satisfies the invariant no run is longer than the rank
      of the state and the costs of its deliveries and spurious wake-ups. */
  lemma {:induction false} RunsAreBounded(t: Tape, s: State, schedule: seq<Label>)
    requires Inv(t, s) && Exec(t, s, schedule).Some?
    ensures |schedule| + Rank(t, Exec(t, s, schedule).value) <= Rank(t, s) + Costs(t, schedule)
    decreases |schedule|
  {
    if schedule != [] {
      StepCosts(t, s, schedule[0]);
      StepKeepsInv(t, s, schedule[0]);
      RunsAreBounded(t, Step(t, s, schedule[0]).value, schedule[1..]);
    }
  }

  /** From the start: the length of a run is bounded by the buffers delivered, the records they
      are played for and the spurious wake-ups. */
  lemma RunFromStart(t: Tape, s: State, schedule: seq<Label>)
    requires Initial(s) && Exec(t, s, schedule).Some?
    ensures var u := Exec(t, s, schedule).value;
      |schedule| <= 21 + 431 * |u.delivered| + 2 * |Sent(t, u.delivered)| + 7 * Wakes(schedule)
  {
    RunsAreBounded(t, s, schedule);
    CostsOfRun(t, s, schedule, Exec(t, s, schedule).value);
  }

  /** One of the two threads makes the step. */
  predicate ByThread(l: Label) { l == Produce || l == Consume || l == Play }

  lemma SomeStep(t: Tape, s: State) returns (l: Label)
    requires !AtRest(t, s)
    ensures ByThread(l) && Step(t, s, l).Some?
  {
    l := if Step(t, s, Produce).Some? then Produce else if Step(t, s, Consume).Some? then Consume else Play;
  }

  lemma StepOn(t: Tape, s: State) returns (l: Label, u: State)
    requires Inv(t, s) && !AtRest(t, s)
    ensures ByThread(l) && Step(t, s, l) == Some(u) && Inv(t, u) && Rank(t, u) < Rank(t, s)
  {
    l := SomeStep(t, s);
    u := Step(t, s, l).value;
    StepCosts(t, s, l);
    StepKeepsInv(t, s, l);
  }

  lemma RestHasNoRank(t: Tape, u: State)
    requires OrderInv(u) && C.WakeInv(u.chan)
    requires u.k == KTake && u.chan.c == C.CBlocked && u.chan.p == C.PIdle && Queued(u.chan.ring) == 0
    ensures Rank(t, u) == 0
  {
    assert Taken(u) == |u.delivered| && !u.chan.signaled;
  }

  /** The rank is 0 exactly at rest. */
  lemma RestsIff(t: Tape, u: State)
    requires Inv(t, u)
    ensures AtRest(t, u) <==> Rank(t, u) == 0
  {
    if AtRest(t, u) {
      Stuck(t, u);
      RestHasNoRank(t, u);
    } else {
      var l, next := StepOn(t, u);
    }
  }

  predicate ThreadsOnly(schedule: seq<Label>) {
    forall i :: 0 <= i < |schedule| ==> ByThread(schedule[i])
  }

  lemma {:induction false} ThreadsCostNothing(t: Tape, schedule: seq<Label>)
    requires ThreadsOnly(schedule)
    ensures Costs(t, schedule) == 0 && Wakes(schedule) == 0
  {
    if schedule != [] { ThreadsCostNothing(t, schedule[1..]); }
  }

  /** Without deliveries and spurious wake-ups the two threads come to rest within as many steps
      as the rank says, in whatever order they are scheduled, and then everything delivered was
      played and freed. */
  lemma ThreadsComeToRest(t: Tape, s: State, schedule: seq<Label>)
    requires Inv(t, s) && ThreadsOnly(schedule) && Exec(t, s, schedule).Some?
    ensures |schedule| <= Rank(t, s)
    ensures var u := Exec(t, s, schedule).value;
      && u.delivered == s.delivered
      && (|schedule| == Rank(t, s) ==> AtRest(t, u))
      && (AtRest(t, u) ==> u.sent == Sent(t, s.delivered) && |u.freed| == |s.delivered|)
  {
    ThreadsCostNothing(t, schedule);
    RunsAreBounded(t, s, schedule);
    ExecKeepsInv(t, s, schedule);
    ThreadsDeliverNothing(t, s, schedule);
    var u := Exec(t, s, schedule).value;
    RestsIff(t, u);
    if AtRest(t, u) { Resting(t, u); }
  }

  lemma {:induction false} ThreadsDeliverNothing(t: Tape, s: State, schedule: seq<Label>)
    requires ThreadsOnly(schedule) && Exec(t, s, schedule).Some?
    ensures Exec(t, s, schedule).value.delivered == s.delivered
    decreases |schedule|
  {
    if schedule != [] {
      StepDelivers(t, s, schedule[0]);
      ThreadsDeliverNothing(t, Step(t, s, schedule[0]).value, schedule[1..]);
    }
  }

  lemma RunBegins(t: Tape, s: State, l: Label, u: State, rest: seq<Label>)
    requires Step(t, s, l) == Some(u)
    ensures Exec(t, s, [l] + rest) == Exec(t, u, rest)
  {
    assert ([l] + rest)[1..] == rest;
  }

  /** ... and they do reach rest, from every state that satisfies the invariant. */
  lemma {:induction false} CatchesUp(t: Tape, s: State) returns (schedule: seq<Label>)
    requires Inv(t, s)
    ensures ThreadsOnly(schedule) && Exec(t, s, schedule).Some? && AtRest(t, Exec(t, s, schedule).value)
    decreases Rank(t, s)
  {
    if AtRest(t, s) { return []; }
    var l, u := StepOn(t, s);
    var rest := CatchesUp(t, u);
    RunBegins(t, s, l, u, rest);
    schedule := [l] + rest;
  }
}
