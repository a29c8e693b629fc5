/** The whole file-streaming pipeline of A2aFileSource as a labelled step system: the
    receive callback, the playing thread and the remote peer, interleaved arbitrarily.

    The hand-over of buffers takes one step per shared access (BufferChannel). The peer
    answers every request exactly once, with any segment of the file that starts at the
    offset asked for. Buffers are named by the order of their delivery. */
module StreamingPipeline {
  import opened Wrappers
  import opened IndexRing
  import opened LapOrder
  import opened RecordWalk
  import C = BufferChannel

  /** Where the playing thread is, outside the ring and the semaphore. */
  datatype PlayPc =
    | KStart      // play_file, about to place the first order
    | KScan       // the inner loop of next_frame
    | KSend       // play_file, about to send the current frame
    | KFree       // next_frame, about to free the used buffer
    | KTake       // get_read, wait and advance_read
    | KParse      // about to read the header and choose the next request
    | KNumIn      // about to test num_in
    | KRequest    // about to order the next segment
    | KSetBuffer  // about to step over the header

  datatype State = State(
    chan: C.State,
    // network: offsets asked for, the peer's answers so far and their channels
    requests: seq<nat>, delivered: seq<Segment>, channels: seq<nat>,
    // playing thread: _buffer_top, _channel, _buffer and the end of _have_bytes as file
    // offsets, _next_segment_file_offset, the record of _frame
    k: PlayPc, top: Option<nat>, channel: nat, at: nat, end: nat, next: nat, frame: nat,
    // history: buffers freed by the playing thread and on which channel, records sent
    freed: seq<nat>, freedOn: seq<nat>, sent: seq<nat>)

  datatype Label =
    | Deliver(channel: nat, segment: Segment)   // the callback receives an answer
    | Produce | Consume | WakeSpuriously        // accesses to the ring and the semaphore
    | Play                                      // any other step of the playing thread

  ghost predicate Initial(s: State) {
    && C.Initial(s.chan)
    && s.requests == [] && s.delivered == [] && s.channels == [] && s.freed == [] && s.freedOn == [] && s.sent == []
    && s.k == KStart && s.top == None
  }

  function Step(t: Tape, s: State, l: Label): Option<State> {
    match l
    case Deliver(channel, segment) =>
      if s.chan.p == C.PIdle && |s.delivered| < |s.requests|
         && Served(t, segment) && segment.offset == s.requests[|s.delivered|]
      then Some(s.(delivered := s.delivered + [segment], channels := s.channels + [channel],
                   chan := s.chan.(p := C.PGetWrite, pItem := Delivery(channel, |s.delivered|))))
      else None
    case Produce => OnChannel(s, C.ProducerStep(s.chan))
    case Consume => OnChannel(s, C.ConsumerStep(s.chan))
    case WakeSpuriously => OnChannel(s, C.Step(s.chan, C.WakeSpuriously))
    case Play => PlayStep(t, s)
  }

  function OnChannel(s: State, chan: Option<C.State>): Option<State> {
    match chan
    case None => None
    case Some(c) => Some(s.(chan := c))
  }

  function PlayStep(t: Tape, s: State): Option<State> {
    match s.k
    case KStart => Some(s.(k := KScan, next := 0, requests := s.requests + [0]))
    case KScan =>
      if s.top.Some? && Whole(t, s.at, s.end)
      then Some(s.(k := KSend, frame := s.at, at := s.at + Size(t, s.at)))
      else Some(s.(k := KFree))
    case KSend => Some(s.(k := KScan, sent := s.sent + [s.frame]))
    case KFree =>
      var freed := if s.top.Some? then s.freed + [s.top.value] else s.freed;
      var freedOn := if s.top.Some? then s.freedOn + [s.channel] else s.freedOn;
      Some(s.(k := KTake, freed := freed, freedOn := freedOn, top := None, chan := s.chan.(c := C.CGetRead)))
    case KTake =>
      if s.chan.c == C.CIdle
      then Some(s.(k := KParse, top := Some(s.chan.cItem.buffer), channel := s.chan.cItem.channel))
      else None
    case KParse =>
      if s.top.Some? && s.top.value < |s.delivered|
      then Some(s.(k := KNumIn, next := NextOffset(t, s.delivered[s.top.value]))) else None
    case KNumIn => Some(s.(k := if NumIn(s.chan.ring) == 0 then KRequest else KSetBuffer))
    case KRequest => Some(s.(k := KSetBuffer, requests := s.requests + [s.next]))
    case KSetBuffer =>
      if s.top.Some? && s.top.value < |s.delivered| && SEG_HEADER <= s.delivered[s.top.value].length
      then var seg := s.delivered[s.top.value];
        Some(s.(k := KScan, at := seg.offset, end := End(seg) - SEG_HEADER))
      else None
  }

  function Exec(t: Tape, s: State, schedule: seq<Label>): Option<State>
    decreases |schedule|
  {
    if schedule == [] then Some(s)
    else match Step(t, s, schedule[0])
      case None => None
      case Some(u) => Exec(t, u, schedule[1..])
  }

  // ----------------------------------------------------------------- invariants

  function Taken(s: State): nat { |s.chan.ring.taken| }

  function Accepted(s: State): nat { |s.chan.ring.accepted| }

  /** The take is complete, but its buffer is not in `_buffer_top` yet. */
  predicate JustTaken(s: State) { s.k == KTake && s.chan.c == C.CIdle }

  /** Buffers whose header has been read. */
  function Parsed(s: State): int { Taken(s) - (if JustTaken(s) || s.k == KParse then 1 else 0) }

  /** next_frame has taken a buffer and not yet started on its records. */
  predicate Opening(k: PlayPc) { k == KParse || k == KNumIn || k == KRequest || k == KSetBuffer }

  /** The playing thread works on the records of a segment. */
  predicate Playing(s: State) {
    s.top.Some? && (s.k == KScan || s.k == KSend || s.k == KFree)
  }

  /** The next request is still to be placed. */
  predicate Unordered(k: PlayPc) { k == KStart || k == KNumIn || k == KRequest }

  function Bit(b: bool): nat { if b then 1 else 0 }

  /** Requests not answered yet. */
  function Outstanding(s: State): int { |s.requests| - |s.delivered| }

  /** Delivered buffers stay in order: freed, then held by the playing thread, then in the
      ring, then in the callback's hands. */
  ghost predicate OrderInv(s: State) {
    && (s.chan.c == C.CIdle <==> s.k != KTake || JustTaken(s))
    && Taken(s) <= Accepted(s)
    && Accepted(s) + Bit(C.Holding(s.chan.p)) == |s.delivered|
    && (C.Holding(s.chan.p) ==> s.chan.pItem.buffer == Accepted(s))
    && (forall i :: 0 <= i < Accepted(s) ==> s.chan.ring.accepted[i].buffer == i)
    && s.chan.dropped == [] && s.chan.p != C.PDrop
    && (JustTaken(s) ==> s.chan.cItem.buffer == Taken(s) - 1)
    && (Opening(s.k) || s.k == KSend ==> s.top.Some?)
    && (s.k == KStart || s.k == KTake ==> s.top == None)
    && (s.k == KStart ==> Taken(s) == 0)
    && (s.top.Some? ==> s.top.value == Taken(s) - 1)
    && |s.freed| + Bit(s.top.Some?) + Bit(JustTaken(s)) == Taken(s)
    && (forall i :: 0 <= i < |s.freed| ==> s.freed[i] == i)
  }

  /** One credit travels around the pipeline. */
  ghost predicate CreditInv(s: State) {
    && 0 <= Outstanding(s)
    && Outstanding(s) + Bit(C.Holding(s.chan.p)) + Queued(s.chan.ring)
       == Bit(!(JustTaken(s) || s.k == KParse || Unordered(s.k)))
    && |s.requests| == Parsed(s) + Bit(!Unordered(s.k))
  }

  /** Every request asks for what the segments delivered before it call for. */
  ghost predicate RequestInv(t: Tape, s: State) {
    && Chain(t, s.delivered)
    && (forall i :: 0 <= i < |s.requests| && i <= |s.delivered| ==>
          s.requests[i] == Awaited(t, s.delivered[..i]))
    && (s.k != KStart && 0 <= Parsed(s) <= |s.delivered| ==>
          s.next == Awaited(t, s.delivered[..Parsed(s)]))
  }

  /** What was sent, what is being sent and what the current buffer still holds: together
      the records sent from the first `n` + 1 segments. */
  ghost predicate Progress(t: Tape, segs: seq<Segment>, n: nat, k: PlayPc, at: nat, end: nat, frame: nat,
                           sent: seq<nat>)
    requires n < |segs|
  {
    && segs[n].offset <= at && end == End(segs[n]) - SEG_HEADER
    && (k == KSend ==>
          && segs[n].offset <= frame && 0 < Size(t, frame)
          && frame + t.header <= end && frame + Size(t, frame) <= end)
    && sent + (if k == KSend then [frame] else []) + Walk(t, at, end) == Sent(t, segs[..n + 1])
    && (k == KFree ==> Walk(t, at, end) == [])
  }

  ghost predicate ContentInv(t: Tape, s: State) {
    && (Playing(s) && s.top.value < |s.delivered| ==>
          Progress(t, s.delivered, s.top.value, s.k, s.at, s.end, s.frame, s.sent))
    && (!Playing(s) && |s.freed| <= |s.delivered| ==>
          s.sent == Sent(t, s.delivered[..|s.freed|]))
  }

  ghost predicate Inv(t: Tape, s: State) {
    C.Inv(s.chan) && PipelineInv(t, s)
  }

  lemma DeliverKeepsChannel(t: Tape, s: State, l: Label)
    requires C.Inv(s.chan) && l.Deliver? && Step(t, s, l).Some?
    ensures C.Inv(Step(t, s, l).value.chan)
  {
    C.StepKeepsInv(s.chan, C.Push(Delivery(l.channel, |s.delivered|)));
  }

  lemma PlayKeepsChannel(t: Tape, s: State)
    requires C.Inv(s.chan) && PlayStep(t, s).Some?
    requires s.k == KFree ==> s.chan.c == C.CIdle
    ensures C.Inv(PlayStep(t, s).value.chan)
  {
    if s.k == KFree { C.StepKeepsInv(s.chan, C.Take); }
  }

  // The ring, the semaphore and the two threads using them behave as in BufferChannel.
  lemma ChannelKeepsInv(t: Tape, s: State, l: Label)
    requires C.Inv(s.chan) && OrderInv(s) && Step(t, s, l).Some?
    ensures C.Inv(Step(t, s, l).value.chan)
  {
    match l {
      case Deliver(_, _) => DeliverKeepsChannel(t, s, l);
      case Produce => C.StepKeepsInv(s.chan, C.Produce);
      case Consume => C.StepKeepsInv(s.chan, C.Consume);
      case WakeSpuriously => C.StepKeepsInv(s.chan, C.WakeSpuriously);
      case Play => PlayKeepsChannel(t, s);
    }
  }

  lemma ProduceKeepsOrder(s: State, c: C.State)
    requires OrderInv(s) && CreditInv(s) && C.ProducerEffect(s.chan, c)
    ensures OrderInv(s.(chan := c))
  {
  }

  lemma ProduceKeepsCredit(s: State, c: C.State)
    requires OrderInv(s) && CreditInv(s) && C.ProducerEffect(s.chan, c)
    ensures CreditInv(s.(chan := c))
  {
  }

  lemma ConsumeKeepsOrder(s: State, c: C.State)
    requires OrderInv(s) && s.chan.c != C.CIdle && C.ConsumerEffect(s.chan, c)
    ensures OrderInv(s.(chan := c))
  {
  }

  lemma ConsumeKeepsCredit(s: State, c: C.State)
    requires OrderInv(s) && CreditInv(s) && s.chan.c != C.CIdle && C.ConsumerEffect(s.chan, c)
    ensures CreditInv(s.(chan := c)) && Parsed(s.(chan := c)) == Parsed(s)
  {
  }

  // Requests and content do not look at the ring, but for the number of parsed headers.
  lemma ChannelKeepsRequests(t: Tape, s: State, c: C.State)
    requires RequestInv(t, s) && ContentInv(t, s) && Parsed(s.(chan := c)) == Parsed(s)
    ensures RequestInv(t, s.(chan := c)) && ContentInv(t, s.(chan := c))
  {
  }

  lemma DeliverKeepsOrder(t: Tape, s: State, l: Label)
    requires OrderInv(s) && CreditInv(s) && l.Deliver? && Step(t, s, l).Some?
    ensures var u := Step(t, s, l).value; OrderInv(u) && CreditInv(u)
  {
  }

  // The answer to the one open request extends the chain; the requests asked before it stay right.
  lemma AnswerKeepsRequests(t: Tape, requests: seq<nat>, segs: seq<Segment>, segment: Segment)
    requires Chain(t, segs) && |requests| == |segs| + 1
    requires Served(t, segment) && segment.offset == requests[|segs|]
    requires forall i :: 0 <= i < |requests| && i <= |segs| ==> requests[i] == Awaited(t, segs[..i])
    ensures Chain(t, segs + [segment])
    ensures forall i :: 0 <= i < |requests| && i <= |segs + [segment]| ==>
              requests[i] == Awaited(t, (segs + [segment])[..i])
  {
    assert (segs + [segment])[..|segs|] == segs[..|segs|] == segs;
    forall i | 0 <= i < |requests| && i <= |segs + [segment]|
      ensures requests[i] == Awaited(t, (segs + [segment])[..i])
    {
      assert (segs + [segment])[..i] == segs[..i];
    }
  }

  lemma OneOpenRequest(t: Tape, s: State, l: Label)
    requires OrderInv(s) && CreditInv(s) && l.Deliver? && Step(t, s, l).Some?
    ensures |s.requests| == |s.delivered| + 1
  {
  }

  lemma DeliverKeepsRequests(t: Tape, s: State, l: Label)
    requires OrderInv(s) && CreditInv(s) && RequestInv(t, s) && l.Deliver? && Step(t, s, l).Some?
    ensures RequestInv(t, Step(t, s, l).value)
  {
    var u := Step(t, s, l).value;
    OneOpenRequest(t, s, l);
    AnswerKeepsRequests(t, s.requests, s.delivered, l.segment);
    assert Parsed(u) == Parsed(s) && u.delivered == s.delivered + [l.segment];
    if 0 <= Parsed(s) <= |s.delivered| {
      assert u.delivered[..Parsed(s)] == s.delivered[..Parsed(s)];
    }
  }

  lemma DeliverKeepsContent(t: Tape, s: State, l: Label)
    requires OrderInv(s) && ContentInv(t, s) && l.Deliver? && Step(t, s, l).Some?
    ensures ContentInv(t, Step(t, s, l).value)
  {
    var u := Step(t, s, l).value;
    if s.top.Some? && s.top.value < |s.delivered| {
      assert u.delivered[..s.top.value + 1] == s.delivered[..s.top.value + 1];
    }
    assert u.delivered[..|s.freed|] == s.delivered[..|s.freed|];
  }

  // Freeing and taking move a buffer on; the other steps of the playing thread do not.
  lemma MoveKeepsOrder(t: Tape, s: State)
    requires OrderInv(s) && (s.k == KFree || s.k == KTake) && PlayStep(t, s).Some?
    ensures OrderInv(PlayStep(t, s).value)
  {
  }

  lemma StayKeepsOrder(t: Tape, s: State)
    requires OrderInv(s) && s.k != KFree && s.k != KTake && PlayStep(t, s).Some?
    ensures OrderInv(PlayStep(t, s).value)
  {
  }

  lemma PlayKeepsOrder(t: Tape, s: State)
    requires OrderInv(s) && PlayStep(t, s).Some?
    ensures OrderInv(PlayStep(t, s).value)
  {
    if s.k == KFree || s.k == KTake { MoveKeepsOrder(t, s); } else { StayKeepsOrder(t, s); }
  }

  // Only placing an order gives the credit away again.
  lemma OrderKeepsCredit(t: Tape, s: State)
    requires OrderInv(s) && CreditInv(s) && NumIn(s.chan.ring) == Queued(s.chan.ring)
    requires s.k == KStart || s.k == KNumIn || s.k == KRequest
    ensures CreditInv(PlayStep(t, s).value)
  {
  }

  lemma OtherKeepsCredit(t: Tape, s: State)
    requires OrderInv(s) && CreditInv(s) && PlayStep(t, s).Some?
    requires s.k != KStart && s.k != KNumIn && s.k != KRequest
    ensures CreditInv(PlayStep(t, s).value)
  {
  }

  lemma PlayKeepsCredit(t: Tape, s: State)
    requires OrderInv(s) && CreditInv(s) && NumIn(s.chan.ring) == Queued(s.chan.ring)
    requires PlayStep(t, s).Some?
    ensures CreditInv(PlayStep(t, s).value)
  {
    if s.k == KStart || s.k == KNumIn || s.k == KRequest { OrderKeepsCredit(t, s); } else { OtherKeepsCredit(t, s); }
  }

  // Placing an order: it asks for what the segments delivered so far call for.
  lemma OrderKeepsRequests(t: Tape, s: State)
    requires OrderInv(s) && CreditInv(s) && RequestInv(t, s)
    requires s.k == KStart || s.k == KRequest
    ensures RequestInv(t, PlayStep(t, s).value)
  {
    var next := if s.k == KStart then 0 else s.next;
    assert |s.requests| == |s.delivered|;
    assert s.delivered[..|s.requests|] == s.delivered && s.delivered[..0] == [];
    OrderIsAwaited(t, s.requests, s.delivered, next);
    assert PlayStep(t, s).value.requests == s.requests + [next];
  }

  lemma OrderIsAwaited(t: Tape, requests: seq<nat>, segs: seq<Segment>, next: nat)
    requires |requests| == |segs| && next == Awaited(t, segs)
    requires forall i :: 0 <= i < |requests| && i <= |segs| ==> requests[i] == Awaited(t, segs[..i])
    ensures forall i :: 0 <= i < |requests + [next]| && i <= |segs| ==> (requests + [next])[i] == Awaited(t, segs[..i])
  {
    assert segs[..|segs|] == segs;
  }

  lemma AwaitedAt(t: Tape, segs: seq<Segment>, n: nat)
    requires n < |segs|
    ensures Awaited(t, segs[..n + 1]) == NextOffset(t, segs[n])
  {
  }

  lemma ParseKeepsRequests(t: Tape, s: State)
    requires OrderInv(s) && CreditInv(s) && RequestInv(t, s)
    requires s.k == KParse && PlayStep(t, s).Some?
    ensures RequestInv(t, PlayStep(t, s).value)
  {
    AwaitedAt(t, s.delivered, s.top.value);
    var u := PlayStep(t, s).value;
    assert u.requests == s.requests && u.delivered == s.delivered;
    assert Parsed(u) == s.top.value + 1;
  }

  lemma OtherPlayKeepsRequests(t: Tape, s: State)
    requires OrderInv(s) && CreditInv(s) && RequestInv(t, s)
    requires s.k != KStart && s.k != KRequest && s.k != KParse && PlayStep(t, s).Some?
    ensures RequestInv(t, PlayStep(t, s).value)
  {
    assert PlayStep(t, s).value.requests == s.requests;
    assert Parsed(PlayStep(t, s).value) == Parsed(s);
  }

  lemma ProgressFindsFrame(t: Tape, segs: seq<Segment>, n: nat, at: nat, end: nat, frame: nat, sent: seq<nat>)
    requires n < |segs| && Progress(t, segs, n, KScan, at, end, frame, sent)
    ensures if Whole(t, at, end) then Progress(t, segs, n, KSend, at + Size(t, at), end, at, sent)
            else Progress(t, segs, n, KFree, at, end, frame, sent)
  {
    WalkStep(t, at, end, sent);
    assert sent + [] == sent;
  }

  lemma ProgressSends(t: Tape, segs: seq<Segment>, n: nat, at: nat, end: nat, frame: nat, sent: seq<nat>)
    requires n < |segs| && Progress(t, segs, n, KSend, at, end, frame, sent)
    ensures Progress(t, segs, n, KScan, at, end, frame, sent + [frame])
  {
    assert sent + [frame] + [] == sent + [frame];
  }

  // The walk of a segment begins where the records sent so far end.
  lemma ProgressBegins(t: Tape, segs: seq<Segment>, n: nat, frame: nat, sent: seq<nat>)
    requires n < |segs| && SEG_HEADER <= segs[n].length && sent == Sent(t, segs[..n])
    ensures Progress(t, segs, n, KScan, segs[n].offset, End(segs[n]) - SEG_HEADER, frame, sent)
  {
    SentAt(t, segs, n);
    assert sent + [] == sent;
  }

  lemma ScanKeepsContent(t: Tape, s: State, u: State)
    requires ContentInv(t, s) && s.k == KScan
    requires s.top.Some? ==> s.top.value < |s.delivered|
    requires u == if s.top.Some? && Whole(t, s.at, s.end)
                  then s.(k := KSend, frame := s.at, at := s.at + Size(t, s.at)) else s.(k := KFree)
    ensures ContentInv(t, u)
  {
    if s.top.Some? {
      ProgressFindsFrame(t, s.delivered, s.top.value, s.at, s.end, s.frame, s.sent);
    }
  }

  lemma SendKeepsContent(t: Tape, s: State)
    requires ContentInv(t, s) && s.k == KSend && s.top.Some? && s.top.value < |s.delivered|
    ensures ContentInv(t, PlayStep(t, s).value)
  {
    ProgressSends(t, s.delivered, s.top.value, s.at, s.end, s.frame, s.sent);
  }

  lemma FreeKeepsContent(t: Tape, s: State)
    requires ContentInv(t, s) && s.k == KFree
    requires s.top.Some? ==> s.top.value == |s.freed| < |s.delivered|
    ensures ContentInv(t, PlayStep(t, s).value)
  {
  }

  lemma SentAt(t: Tape, segs: seq<Segment>, n: nat)
    requires n < |segs|
    ensures Sent(t, segs[..n + 1]) == Sent(t, segs[..n]) + SentFrom(t, segs[n])
  {
    assert segs[..n + 1][..n] == segs[..n];
  }

  lemma SetBufferKeepsContent(t: Tape, s: State, u: State, seg: Segment)
    requires s.top.Some? && s.top.value == |s.freed| < |s.delivered| && seg == s.delivered[s.top.value]
    requires SEG_HEADER <= seg.length && s.sent == Sent(t, s.delivered[..s.top.value])
    requires u == s.(k := KScan, at := seg.offset, end := End(seg) - SEG_HEADER)
    ensures ContentInv(t, u)
  {
    ProgressBegins(t, s.delivered, s.top.value, s.frame, s.sent);
  }

  lemma OtherPlayKeepsContent(t: Tape, s: State)
    requires ContentInv(t, s) && PlayStep(t, s).Some?
    requires s.k != KScan && s.k != KSend && s.k != KFree && s.k != KSetBuffer
    requires s.k == KStart ==> s.top == None
    ensures ContentInv(t, PlayStep(t, s).value)
  {
    var u := PlayStep(t, s).value;
    assert !Playing(s) && !Playing(u);
  }

  lemma PlayKeepsRequests(t: Tape, s: State)
    requires OrderInv(s) && CreditInv(s) && RequestInv(t, s) && PlayStep(t, s).Some?
    ensures RequestInv(t, PlayStep(t, s).value)
  {
    if s.k == KStart || s.k == KRequest {
      OrderKeepsRequests(t, s);
    } else if s.k == KParse {
      ParseKeepsRequests(t, s);
    } else {
      OtherPlayKeepsRequests(t, s);
    }
  }

  lemma PlayKeepsContent(t: Tape, s: State)
    requires OrderInv(s) && ContentInv(t, s) && PlayStep(t, s).Some?
    ensures ContentInv(t, PlayStep(t, s).value)
  {
    match s.k {
      case KScan => ScanKeepsContent(t, s, PlayStep(t, s).value);
      case KSend => SendKeepsContent(t, s);
      case KFree => FreeKeepsContent(t, s);
      case KSetBuffer => SetBufferKeepsContent(t, s, PlayStep(t, s).value, s.delivered[s.top.value]);
      case _ => OtherPlayKeepsContent(t, s);
    }
  }

  /** What the invariant says beside the channel's own. */
  ghost predicate PipelineInv(t: Tape, s: State) {
    OrderInv(s) && CreditInv(s) && RequestInv(t, s) && ContentInv(t, s)
  }

  lemma DeliverKeepsInv(t: Tape, s: State, l: Label)
    requires PipelineInv(t, s) && l.Deliver? && Step(t, s, l).Some?
    ensures PipelineInv(t, Step(t, s, l).value)
  {
    DeliverKeepsOrder(t, s, l);
    DeliverKeepsRequests(t, s, l);
    DeliverKeepsContent(t, s, l);
  }

  lemma ProduceKeepsInv(t: Tape, s: State, c: C.State)
    requires PipelineInv(t, s) && C.ProducerEffect(s.chan, c)
    ensures PipelineInv(t, s.(chan := c))
  {
    ProduceKeepsOrder(s, c);
    ProduceKeepsCredit(s, c);
    ChannelKeepsRequests(t, s, c);
  }

  lemma ConsumeKeepsInv(t: Tape, s: State, c: C.State)
    requires PipelineInv(t, s) && s.chan.c != C.CIdle && C.ConsumerEffect(s.chan, c)
    ensures PipelineInv(t, s.(chan := c))
  {
    ConsumeKeepsOrder(s, c);
    ConsumeKeepsCredit(s, c);
    ChannelKeepsRequests(t, s, c);
  }

  lemma WakeKeepsOrder(s: State, c: C.State)
    requires OrderInv(s) && CreditInv(s) && s.chan.c == C.CBlocked && c == s.chan.(c := C.CRelock)
    ensures OrderInv(s.(chan := c)) && CreditInv(s.(chan := c)) && Parsed(s.(chan := c)) == Parsed(s)
  {
  }

  lemma WakeKeepsInv(t: Tape, s: State)
    requires PipelineInv(t, s) && Step(t, s, WakeSpuriously).Some?
    ensures PipelineInv(t, Step(t, s, WakeSpuriously).value)
  {
    var c := s.chan.(c := C.CRelock);
    assert Step(t, s, WakeSpuriously) == Some(s.(chan := c));
    WakeKeepsOrder(s, c);
    ChannelKeepsRequests(t, s, c);
  }

  lemma PlayKeepsInv(t: Tape, s: State)
    requires PipelineInv(t, s) && NumIn(s.chan.ring) == Queued(s.chan.ring) && PlayStep(t, s).Some?
    ensures PipelineInv(t, PlayStep(t, s).value)
  {
    PlayKeepsOrder(t, s);
    PlayKeepsCredit(t, s);
    PlayKeepsRequests(t, s);
    PlayKeepsContent(t, s);
  }

  lemma StepKeepsInv(t: Tape, s: State, l: Label)
    requires Inv(t, s) && Step(t, s, l).Some?
    ensures Inv(t, Step(t, s, l).value)
  {
    ChannelKeepsInv(t, s, l);
    match l {
      case Deliver(_, _) => DeliverKeepsInv(t, s, l);
      case Produce =>
        C.ProducerHasEffect(s.chan);
        ProduceKeepsInv(t, s, C.ProducerStep(s.chan).value);
      case Consume =>
        C.ConsumerHasEffect(s.chan);
        ConsumeKeepsInv(t, s, C.ConsumerStep(s.chan).value);
      case WakeSpuriously => WakeKeepsInv(t, s);
      case Play =>
        IndexTests(s.chan.ring);
        PlayKeepsInv(t, s);
    }
  }

  lemma {:induction false} ExecKeepsInv(t: Tape, s: State, schedule: seq<Label>)
    requires Inv(t, s) && Exec(t, s, schedule).Some?
    ensures Inv(t, Exec(t, s, schedule).value)
    decreases |schedule|
  {
    if schedule != [] {
      StepKeepsInv(t, s, schedule[0]);
      ExecKeepsInv(t, Step(t, s, schedule[0]).value, schedule[1..]);
    }
  }

  // ---------------------------------------------------------------- main results

  /** For every interleaving and every choice of segments by the peer, the records sent are
      the records of the file in file order, lap after lap: never reordered, none twice in a
      lap. A completed lap lacks its last record exactly if fewer than 16 bytes follow the
      records of the file; that record is then never sent at all. Nothing else is skipped if
      no record ends in the last 16 bytes of a segment without the end flag. */
  lemma EndToEnd(t: Tape, s: State, schedule: seq<Label>)
    requires Recorded(t, 0) && SEG_HEADER <= t.header
    requires Initial(s) && Exec(t, s, schedule).Some?
    ensures var u := Exec(t, s, schedule).value;
      && Chain(t, u.delivered)
      && u.sent <= Sent(t, u.delivered)
      && Subsequence(u.sent, Repeat(Records(t), Laps(u.delivered)) + Records(t))
      && Subsequence(u.sent, FileOrder(t, u.delivered))
      && (InnerTailsFree(t, u.delivered) ==> u.sent <= FileOrder(t, u.delivered))
      && (TailsFree(t, u.delivered) ==> u.sent <= Repeat(Records(t), Laps(u.delivered)) + Records(t))
      && (ShortEnd(t) ==> Records(t)[|Records(t)| - 1] !in u.sent)
  {
    ExecKeepsInv(t, s, schedule);
    var u := Exec(t, s, schedule).value;
    SentIsPrefix(t, u);
    PrefixInFileOrder(t, u.sent, u.delivered);
  }

  /** In other words: the records sent stand at increasing positions of the repeated file. */
  lemma SentPositions(t: Tape, s: State, schedule: seq<Label>) returns (at: seq<nat>)
    requires Recorded(t, 0) && SEG_HEADER <= t.header
    requires Initial(s) && Exec(t, s, schedule).Some?
    ensures var u := Exec(t, s, schedule).value;
      var file := Repeat(Records(t), Laps(u.delivered)) + Records(t);
      && |at| == |u.sent|
      && (forall i :: 0 <= i < |at| ==> at[i] < |file| && file[at[i]] == u.sent[i])
      && (forall i, j :: 0 <= i < j < |at| ==> at[i] < at[j])
  {
    EndToEnd(t, s, schedule);
    var u := Exec(t, s, schedule).value;
    at := Positions(u.sent, Repeat(Records(t), Laps(u.delivered)) + Records(t));
  }

  // What holds of everything the segments call for holds of what was sent so far.
  lemma PrefixInFileOrder(t: Tape, sent: seq<nat>, segs: seq<Segment>)
    requires Recorded(t, 0) && SEG_HEADER <= t.header && Chain(t, segs) && sent <= Sent(t, segs)
    ensures Subsequence(sent, Repeat(Records(t), Laps(segs)) + Records(t))
    ensures Subsequence(sent, FileOrder(t, segs))
    ensures InnerTailsFree(t, segs) ==> sent <= FileOrder(t, segs)
    ensures TailsFree(t, segs) ==> sent <= Repeat(Records(t), Laps(segs)) + Records(t)
    ensures ShortEnd(t) ==> Records(t)[|Records(t)| - 1] !in sent
  {
    SentInFileOrder(t, segs);
    SentInLaps(t, segs);
    PrefixKeeps(sent, Sent(t, segs), FileOrder(t, segs));
    PrefixKeeps(sent, Sent(t, segs), Repeat(Records(t), Laps(segs)) + Records(t));
    CoverageIsCyclic(t, segs);
    NothingSkippedIff(t, segs);
    if ShortEnd(t) { LastRecordIsNeverSent(t, segs); }
  }

  lemma SentIsPrefix(t: Tape, u: State)
    requires OrderInv(u) && ContentInv(t, u)
    ensures u.sent <= Sent(t, u.delivered)
  {
    var n := if Playing(u) then u.top.value + 1 else |u.freed|;
    SentGrows(t, u.delivered, n);
    assert u.sent <= Sent(t, u.delivered[..n]);
  }

  /** The offset of every buffer is the one asked for: the mismatch message is never
      printed. All offsets asked for are multiples of 4. */
  lemma OffsetsMatch(t: Tape, s: State, schedule: seq<Label>)
    requires Padded4(t) && Initial(s) && Exec(t, s, schedule).Some?
    ensures var u := Exec(t, s, schedule).value;
      && (u.k == KParse ==>
            u.top.Some? && u.top.value < |u.delivered| && u.next == u.delivered[u.top.value].offset)
      && (u.k != KStart ==> u.next % 4 == 0)
  {
    ExecKeepsInv(t, s, schedule);
    var u := Exec(t, s, schedule).value;
    if u.k != KStart { NextIsAligned(t, u); }
    if u.k == KParse { ParsedMatches(t, u); }
  }

  lemma NextIsAligned(t: Tape, u: State)
    requires Padded4(t) && OrderInv(u) && CreditInv(u) && RequestInv(t, u) && u.k != KStart
    ensures u.next % 4 == 0
  {
    ChainPrefix(t, u.delivered, Parsed(u));
    AwaitedIsAligned(t, u.delivered[..Parsed(u)]);
  }

  lemma ParsedMatches(t: Tape, u: State)
    requires OrderInv(u) && CreditInv(u) && RequestInv(t, u) && u.k == KParse
    ensures u.top.Some? && u.top.value < |u.delivered| && u.next == u.delivered[u.top.value].offset
  {
    var n := u.top.value;
    ChainPrefix(t, u.delivered, n + 1);
    assert u.delivered[..n + 1][..n] == u.delivered[..n];
  }

  lemma {:induction false} ChainPrefix(t: Tape, segs: seq<Segment>, n: nat)
    requires Chain(t, segs) && n <= |segs|
    ensures Chain(t, segs[..n])
  {
    if n < |segs| {
      assert segs[..|segs| - 1][..n] == segs[..n];
      ChainPrefix(t, segs[..|segs| - 1], n);
    } else {
      assert segs[..n] == segs;
    }
  }

  /** Flow control: unanswered requests, the buffer in the callback's hands and the queued
      buffers are one in all, and none only before the first request and between a take and
      the next order. So num_in is always 0 when tested, and push_buffer never overflows. */
  lemma OneCredit(t: Tape, s: State, schedule: seq<Label>)
    requires Initial(s) && Exec(t, s, schedule).Some?
    ensures var u := Exec(t, s, schedule).value;
      && Outstanding(u) >= 0
      && Outstanding(u) + Bit(C.Holding(u.chan.p)) + Queued(u.chan.ring)
         == (if JustTaken(u) || u.k == KParse || Unordered(u.k) then 0 else 1)
      && (u.k == KNumIn ==> NumIn(u.chan.ring) == 0)
      && u.chan.p != C.PDrop && u.chan.dropped == []
  {
    ExecKeepsInv(t, s, schedule);
    IndexTests(Exec(t, s, schedule).value.chan.ring);
  }

  predicate Freed(s: State, id: nat) { id in s.freed }

  predicate InPlay(s: State, id: nat) {
    s.top == Some(id) || (JustTaken(s) && s.chan.cItem.buffer == id)
  }

  predicate InRing(s: State, id: nat) {
    exists j :: Taken(s) <= j < Accepted(s) && s.chan.ring.accepted[j].buffer == id
  }

  predicate InHand(s: State, id: nat) { C.Holding(s.chan.p) && s.chan.pItem.buffer == id }

  /** Every delivered buffer is in exactly one place, freed at most once, and nothing else
      is freed. */
  ghost predicate Conserved(u: State) {
    && (forall id: nat :: id < |u.delivered| ==>
          Bit(Freed(u, id)) + Bit(InPlay(u, id)) + Bit(InRing(u, id)) + Bit(InHand(u, id)) == 1)
    && (forall id :: id in u.freed ==> id < |u.delivered|)
    && (forall i, j :: 0 <= i < j < |u.freed| ==> u.freed[i] != u.freed[j])
  }

  /** The record about to be sent lies inside the part of a buffer that was delivered and
      not yet freed. */
  ghost predicate FrameAlive(t: Tape, u: State) {
    && u.top.Some? && u.top.value < |u.delivered| && !Freed(u, u.top.value)
    && u.delivered[u.top.value].offset <= u.frame
    && u.frame + Size(t, u.frame) <= End(u.delivered[u.top.value])
  }

  /** Buffers are conserved over every run, and no frame is sent from a freed buffer. */
  lemma BuffersConserved(t: Tape, s: State, schedule: seq<Label>)
    requires Initial(s) && Exec(t, s, schedule).Some?
    ensures var u := Exec(t, s, schedule).value;
      Conserved(u) && (u.k == KSend ==> FrameAlive(t, u))
  {
    ExecKeepsInv(t, s, schedule);
    OrderIsConservation(Exec(t, s, schedule).value);
    SendIsAlive(t, Exec(t, s, schedule).value);
  }

  lemma OrderIsConservation(u: State)
    requires OrderInv(u)
    ensures Conserved(u)
  {
    forall id: nat | id < |u.delivered|
      ensures Bit(Freed(u, id)) + Bit(InPlay(u, id)) + Bit(InRing(u, id)) + Bit(InHand(u, id)) == 1
    {
      PlaceOf(u, id);
    }
  }

  lemma SendIsAlive(t: Tape, u: State)
    requires OrderInv(u) && ContentInv(t, u)
    ensures u.k == KSend ==> FrameAlive(t, u)
  {
    if u.k == KSend {
      PlaceOf(u, u.top.value);
    }
  }

  // The places of the buffers are consecutive ranges of their names.
  lemma PlaceOf(u: State, id: nat)
    requires OrderInv(u) && id < |u.delivered|
    ensures Freed(u, id) <==> id < |u.freed|
    ensures InPlay(u, id) <==> |u.freed| <= id < Taken(u)
    ensures InRing(u, id) <==> Taken(u) <= id < Accepted(u)
    ensures InHand(u, id) <==> Accepted(u) <= id
  {
    if id < |u.freed| {
      assert u.freed[id] == id;
    }
    if Taken(u) <= id < Accepted(u) {
      assert u.chan.ring.accepted[id].buffer == id;
    }
  }

  /** The pipeline never wedges, and what it rests on is done: when neither thread can go on,
      every buffer delivered was played to its end and freed, and the playing thread sleeps
      with an empty ring while the answer to its one request is still to come. */
  lemma NeverStuck(t: Tape, s: State, schedule: seq<Label>)
    requires Initial(s) && Exec(t, s, schedule).Some?
    requires AtRest(t, Exec(t, s, schedule).value)
    ensures var u := Exec(t, s, schedule).value;
      && u.chan.c == C.CBlocked && Queued(u.chan.ring) == 0 && u.chan.p == C.PIdle && Outstanding(u) == 1
      && u.sent == Sent(t, u.delivered) && |u.freed| == |u.delivered|
  {
    ExecKeepsInv(t, s, schedule);
    Resting(t, Exec(t, s, schedule).value);
  }

  /** Neither thread can make a step. */
  predicate AtRest(t: Tape, u: State) {
    Step(t, u, Produce).None? && Step(t, u, Consume).None? && Step(t, u, Play).None?
  }

  lemma Resting(t: Tape, u: State)
    requires Inv(t, u) && AtRest(t, u)
    ensures u.chan.c == C.CBlocked && Queued(u.chan.ring) == 0 && u.chan.p == C.PIdle && Outstanding(u) == 1
    ensures u.sent == Sent(t, u.delivered) && |u.freed| == |u.delivered|
  {
    Stuck(t, u);
    assert u.delivered[..|u.delivered|] == u.delivered;
  }

  lemma Stuck(t: Tape, u: State)
    requires Inv(t, u) && AtRest(t, u)
    ensures u.k == KTake && !JustTaken(u)
    ensures u.chan.c == C.CBlocked && Queued(u.chan.ring) == 0 && u.chan.p == C.PIdle && Outstanding(u) == 1
  {
    RestIsQuiet(t, u);
    RestsAtTake(t, u);
    C.RestsEmpty(u.chan);
    OnlyOutstanding(u);
  }

  lemma RestIsQuiet(t: Tape, u: State)
    requires AtRest(t, u)
    ensures C.Quiet(u.chan) && PlayStep(t, u).None?
  {
  }

  // The playing thread rests only while it waits for a buffer ...
  lemma RestsAtTake(t: Tape, u: State)
    requires OrderInv(u) && RequestInv(t, u) && PlayStep(t, u).None?
    ensures u.k == KTake && !JustTaken(u) && u.chan.c != C.CIdle
  {
    if u.k != KTake || JustTaken(u) { PlayEnabled(t, u); }
  }

  // ... so the credit is with the peer.
  lemma OnlyOutstanding(u: State)
    requires CreditInv(u) && u.k == KTake && !JustTaken(u)
    requires Queued(u.chan.ring) == 0 && u.chan.p == C.PIdle
    ensures Outstanding(u) == 1
  {
  }

  lemma PlayEnabled(t: Tape, u: State)
    requires OrderInv(u) && RequestInv(t, u) && (u.k != KTake || JustTaken(u))
    ensures PlayStep(t, u).Some?
  {
    if u.k == KSetBuffer {
      ChainPrefix(t, u.delivered, u.top.value + 1);
    }
  }
}
