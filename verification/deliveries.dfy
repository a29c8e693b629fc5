/** From the schedule to the buffers: what is pushed is what is accepted, dropped or in hand, and
    in the pipeline every buffer is freed on the channel it came from. */
module Deliveries {
  import opened IndexRing
  import opened RecordWalk
  import opened Wrappers
  import C = BufferChannel
  import P = StreamingPipeline

  // ------------------------------------------------------------- the hand-over

  function Pushed(l: C.Label): seq<Delivery> { if l.Push? then [l.item] else [] }

  /** What a schedule pushes, in order. */
  function Pushes(schedule: seq<C.Label>): seq<Delivery> {
    if schedule == [] then [] else Pushed(schedule[0]) + Pushes(schedule[1..])
  }

  lemma Regrouped<T>(a: seq<T>, b: seq<T>, c: seq<T>)
    ensures a + b + c == a + (b + c)
  {
  }

  /** `all` is `a` and `b` merged, both in order. */
  ghost predicate Merged<T>(all: seq<T>, a: seq<T>, b: seq<T>) {
    if all == [] then a == [] && b == []
    else
      var init, last := all[..|all| - 1], all[|all| - 1];
      || (a != [] && a[|a| - 1] == last && Merged(init, a[..|a| - 1], b))
      || (b != [] && b[|b| - 1] == last && Merged(init, a, b[..|b| - 1]))
  }

  lemma MergedSnoc<T>(all: seq<T>, a: seq<T>, b: seq<T>, x: T)
    requires Merged(all, a, b)
    ensures Merged(all + [x], a + [x], b) && Merged(all + [x], a, b + [x])
  {
    assert (all + [x])[..|all|] == all && (a + [x])[..|a|] == a && (b + [x])[..|b|] == b;
  }

  lemma {:induction false} MergedOne<T>(all: seq<T>, a: seq<T>)
    requires Merged(all, a, [])
    ensures all == a
  {
    if all != [] { MergedOne(all[..|all| - 1], a[..|a| - 1]); }
  }

  lemma {:induction false} MergedLength<T>(all: seq<T>, a: seq<T>, b: seq<T>)
    requires Merged(all, a, b)
    ensures |all| == |a| + |b| && multiset(all) == multiset(a) + multiset(b)
  {
    if all != [] {
      var init, last := all[..|all| - 1], all[|all| - 1];
      assert all == init + [last];
      if a != [] && a[|a| - 1] == last && Merged(init, a[..|a| - 1], b) {
        MergedLength(init, a[..|a| - 1], b);
        assert a == a[..|a| - 1] + [last];
      } else {
        MergedLength(init, a, b[..|b| - 1]);
        assert b == b[..|b| - 1] + [last];
      }
    }
  }

  /** Everything pushed was accepted or dropped, each in order, but for the one in hand. */
  ghost predicate Accounted(s: C.State, pushes: seq<Delivery>) {
    if C.Holding(s.p)
    then pushes != [] && pushes[|pushes| - 1] == s.pItem
         && Merged(pushes[..|pushes| - 1], s.ring.accepted, s.dropped)
    else Merged(pushes, s.ring.accepted, s.dropped)
  }

  lemma PushAccounted(s: C.State, item: Delivery, pushes: seq<Delivery>)
    requires Accounted(s, pushes) && s.p == C.PIdle
    ensures Accounted(s.(p := C.PGetWrite, pItem := item), pushes + [item])
  {
    assert (pushes + [item])[..|pushes|] == pushes;
  }

  // A step that moves no buffer past the ring.
  lemma QuietAccounted(s: C.State, t: C.State, pushes: seq<Delivery>)
    requires Accounted(s, pushes)
    requires C.Holding(t.p) == C.Holding(s.p) && t.pItem == s.pItem
    requires t.ring.accepted == s.ring.accepted && t.dropped == s.dropped
    ensures Accounted(t, pushes)
  {
  }

  // The buffer in hand is accepted, or dropped.
  lemma HandAccounted(s: C.State, t: C.State, pushes: seq<Delivery>)
    requires Accounted(s, pushes) && C.Holding(s.p) && !C.Holding(t.p)
    requires (t.ring.accepted == s.ring.accepted + [s.pItem] && t.dropped == s.dropped)
          || (t.ring.accepted == s.ring.accepted && t.dropped == s.dropped + [s.pItem])
    ensures Accounted(t, pushes)
  {
    var init := pushes[..|pushes| - 1];
    MergedSnoc(init, s.ring.accepted, s.dropped, s.pItem);
    assert init + [s.pItem] == pushes;
  }

  lemma ProduceAccounted(s: C.State, t: C.State, pushes: seq<Delivery>)
    requires Accounted(s, pushes) && C.ProducerEffect(s, t)
    ensures Accounted(t, pushes)
  {
    assert s.ring.accepted + [] == s.ring.accepted && s.dropped + [] == s.dropped;
    if s.p == C.PAdvanceWrite || s.p == C.PDrop {
      HandAccounted(s, t, pushes);
    } else {
      QuietAccounted(s, t, pushes);
    }
  }

  lemma StepAccounted(s: C.State, l: C.Label, pushes: seq<Delivery>)
    requires C.Inv(s) && C.Step(s, l).Some? && Accounted(s, pushes)
    ensures Accounted(C.Step(s, l).value, pushes + Pushed(l))
  {
    assert pushes + [] == pushes;
    match l {
      case Push(item) => PushAccounted(s, item, pushes);
      case Produce =>
        C.ProducerHasEffect(s);
        ProduceAccounted(s, C.ProducerStep(s).value, pushes);
      case Consume =>
        C.ConsumerHasEffect(s);
        QuietAccounted(s, C.ConsumerStep(s).value, pushes);
      case Take => QuietAccounted(s, s.(c := C.CGetRead), pushes);
      case WakeSpuriously => QuietAccounted(s, s.(c := C.CRelock), pushes);
    }
  }

  lemma {:induction false} RunAccounted(s: C.State, schedule: seq<C.Label>, pushes: seq<Delivery>)
    requires C.Inv(s) && Accounted(s, pushes) && C.Exec(s, schedule).Some?
    ensures Accounted(C.Exec(s, schedule).value, pushes + Pushes(schedule))
    decreases |schedule|
  {
    if schedule == [] {
      assert pushes + [] == pushes;
    } else {
      var l := schedule[0];
      StepAccounted(s, l, pushes);
      C.StepKeepsInv(s, l);
      RunAccounted(C.Step(s, l).value, schedule[1..], pushes + Pushed(l));
      Regrouped(pushes, Pushed(l), Pushes(schedule[1..]));
    }
  }

  /** For every schedule: the deliveries pushed, channel and buffer, are in order those accepted
      and those dropped, and the one in hand last; so with nothing dropped the consumer takes a
      prefix of exactly what was pushed. */
  lemma PushedIsAccounted(s: C.State, schedule: seq<C.Label>)
    requires C.Initial(s) && C.Exec(s, schedule).Some?
    ensures var t := C.Exec(s, schedule).value;
      var inHand := if C.Holding(t.p) then [t.pItem] else [];
      && Accounted(t, Pushes(schedule))
      && |Pushes(schedule)| == |t.ring.accepted| + |t.dropped| + |inHand|
      && (t.dropped == [] ==>
            t.ring.accepted + inHand == Pushes(schedule) && t.ring.taken <= Pushes(schedule))
  {
    var t := C.Exec(s, schedule).value;
    RunAccounted(s, schedule, []);
    assert [] + Pushes(schedule) == Pushes(schedule);
    C.RingSafety(s, schedule);
    AccountedParts(t, Pushes(schedule));
  }

  lemma AccountedParts(t: C.State, pushes: seq<Delivery>)
    requires Accounted(t, pushes)
    ensures var inHand := if C.Holding(t.p) then [t.pItem] else [];
      && |pushes| == |t.ring.accepted| + |t.dropped| + |inHand|
      && (t.dropped == [] ==> t.ring.accepted + inHand == pushes)
  {
    var done := if C.Holding(t.p) then pushes[..|pushes| - 1] else pushes;
    MergedLength(done, t.ring.accepted, t.dropped);
    if t.dropped == [] { MergedOne(done, t.ring.accepted); }
  }

  // -------------------------------------------------------------- the pipeline

  function SegmentIn(l: P.Label): seq<Segment> { if l.Deliver? then [l.segment] else [] }

  function ChannelIn(l: P.Label): seq<nat> { if l.Deliver? then [l.channel] else [] }

  /** What a schedule delivers, and on which channels. */
  function Segments(schedule: seq<P.Label>): seq<Segment> {
    if schedule == [] then [] else SegmentIn(schedule[0]) + Segments(schedule[1..])
  }

  function Channels(schedule: seq<P.Label>): seq<nat> {
    if schedule == [] then [] else ChannelIn(schedule[0]) + Channels(schedule[1..])
  }

  lemma {:induction false} RunDelivers(t: Tape, s: P.State, schedule: seq<P.Label>, u: P.State)
    requires P.Exec(t, s, schedule) == Some(u)
    ensures u.delivered == s.delivered + Segments(schedule) && u.channels == s.channels + Channels(schedule)
    decreases |schedule|
  {
    if schedule != [] {
      var l, rest := schedule[0], schedule[1..];
      StepDelivers(t, s, l);
      RunDelivers(t, P.Step(t, s, l).value, rest, u);
      Regrouped(s.delivered, SegmentIn(l), Segments(rest));
      Regrouped(s.channels, ChannelIn(l), Channels(rest));
    }
  }

  lemma StepDelivers(t: Tape, s: P.State, l: P.Label)
    requires P.Step(t, s, l).Some?
    ensures var u := P.Step(t, s, l).value;
      u.delivered == s.delivered + SegmentIn(l) && u.channels == s.channels + ChannelIn(l)
  {
  }

  /** Every buffer keeps its channel: in the ring, in either thread's hands, and when it is
      freed. */
  ghost predicate ChannelInv(s: P.State) {
    && |s.channels| == |s.delivered| && |s.freedOn| == |s.freed|
    && P.Accepted(s) <= |s.channels|
    && (forall i :: 0 <= i < P.Accepted(s) ==> s.chan.ring.accepted[i].channel == s.channels[i])
    && (C.Holding(s.chan.p) ==> P.Accepted(s) < |s.channels| && s.chan.pItem.channel == s.channels[P.Accepted(s)])
    && (P.JustTaken(s) ==> 0 < P.Taken(s) <= |s.channels| && s.chan.cItem.channel == s.channels[P.Taken(s) - 1])
    && (s.top.Some? ==> s.top.value < |s.channels| && s.channel == s.channels[s.top.value])
    && (forall i :: 0 <= i < |s.freed| ==> s.freed[i] < |s.channels| && s.freedOn[i] == s.channels[s.freed[i]])
  }

  lemma DeliverKeepsChannels(t: Tape, s: P.State, l: P.Label)
    requires P.OrderInv(s) && ChannelInv(s) && l.Deliver? && P.Step(t, s, l).Some?
    ensures ChannelInv(P.Step(t, s, l).value)
  {
  }

  lemma ProduceKeepsChannels(s: P.State, c: C.State)
    requires P.OrderInv(s) && ChannelInv(s) && C.ProducerEffect(s.chan, c)
    ensures ChannelInv(s.(chan := c))
  {
  }

  lemma ConsumeKeepsChannels(s: P.State, c: C.State)
    requires P.OrderInv(s) && ChannelInv(s) && s.chan.c != C.CIdle && C.ConsumerEffect(s.chan, c)
    ensures ChannelInv(s.(chan := c))
  {
  }

  lemma WakeKeepsChannels(s: P.State)
    requires ChannelInv(s) && s.chan.c == C.CBlocked
    ensures ChannelInv(s.(chan := s.chan.(c := C.CRelock)))
  {
  }

  // Freeing and taking look at the channel; the other steps of the playing thread do not.
  lemma MoveKeepsChannels(t: Tape, s: P.State)
    requires P.OrderInv(s) && ChannelInv(s) && (s.k == P.KFree || s.k == P.KTake) && P.PlayStep(t, s).Some?
    ensures ChannelInv(P.PlayStep(t, s).value)
  {
  }

  lemma StayKeepsChannels(t: Tape, s: P.State)
    requires P.OrderInv(s) && ChannelInv(s) && s.k != P.KFree && s.k != P.KTake && P.PlayStep(t, s).Some?
    ensures ChannelInv(P.PlayStep(t, s).value)
  {
  }

  lemma PlayKeepsChannels(t: Tape, s: P.State)
    requires P.OrderInv(s) && ChannelInv(s) && P.PlayStep(t, s).Some?
    ensures ChannelInv(P.PlayStep(t, s).value)
  {
    if s.k == P.KFree || s.k == P.KTake { MoveKeepsChannels(t, s); } else { StayKeepsChannels(t, s); }
  }

  lemma StepKeepsChannels(t: Tape, s: P.State, l: P.Label)
    requires P.Inv(t, s) && ChannelInv(s) && P.Step(t, s, l).Some?
    ensures ChannelInv(P.Step(t, s, l).value)
  {
    match l {
      case Deliver(_, _) => DeliverKeepsChannels(t, s, l);
      case Produce =>
        C.ProducerHasEffect(s.chan);
        ProduceKeepsChannels(s, C.ProducerStep(s.chan).value);
      case Consume =>
        C.ConsumerHasEffect(s.chan);
        ConsumeKeepsChannels(s, C.ConsumerStep(s.chan).value);
      case WakeSpuriously => WakeKeepsChannels(s);
      case Play => PlayKeepsChannels(t, s);
    }
  }

  lemma {:induction false} RunKeepsChannels(t: Tape, s: P.State, schedule: seq<P.Label>, u: P.State)
    requires P.Inv(t, s) && ChannelInv(s) && P.Exec(t, s, schedule) == Some(u)
    ensures ChannelInv(u)
    decreases |schedule|
  {
    if schedule != [] {
      StepKeepsChannels(t, s, schedule[0]);
      P.StepKeepsInv(t, s, schedule[0]);
      RunKeepsChannels(t, P.Step(t, s, schedule[0]).value, schedule[1..], u);
    }
  }

  lemma StartKeepsChannels(s: P.State)
    requires P.Initial(s)
    ensures ChannelInv(s)
  {
  }

  lemma ChannelsFromStart(t: Tape, s: P.State, schedule: seq<P.Label>, u: P.State)
    requires P.Initial(s) && P.Exec(t, s, schedule) == Some(u)
    ensures ChannelInv(u) && u.delivered == Segments(schedule) && u.channels == Channels(schedule)
  {
    RunDelivers(t, s, schedule, u);
    assert [] + Segments(schedule) == Segments(schedule) && [] + Channels(schedule) == Channels(schedule);
    StartKeepsChannels(s);
    RunKeepsChannels(t, s, schedule, u);
  }

  /** For every interleaving: the segments delivered are those of the schedule, and every buffer is
      freed on the channel it was delivered on. */
  lemma FreedWhereDelivered(t: Tape, s: P.State, schedule: seq<P.Label>)
    requires P.Initial(s) && P.Exec(t, s, schedule).Some?
    ensures var u := P.Exec(t, s, schedule).value;
      && u.delivered == Segments(schedule) && |Channels(schedule)| == |u.delivered| && |u.freedOn| == |u.freed|
      && forall i :: 0 <= i < |u.freed| ==>
           u.freed[i] < |u.delivered| && u.freedOn[i] == Channels(schedule)[u.freed[i]]
  {
    ChannelsFromStart(t, s, schedule, P.Exec(t, s, schedule).value);
  }
}
