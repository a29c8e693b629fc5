/** The hand-over of received buffers to the playing thread: a ring of eight slots
    (IndexFifo) and a binary semaphore built from a mutex and a condition variable.

    One step is one access to shared memory, one mutex operation or one condition
    variable operation. There is one producer (the receive callback) and one consumer
    (the playing thread), memory is sequentially consistent, and a blocked consumer may
    wake up spuriously at any time. Traffic is arbitrary: pushes may come at any rate. */
module BufferChannel {
  import opened IndexRing
  import opened Wrappers

  datatype Owner = Nobody | Producer | Consumer

  /** The producer's next access, in push_buffer and post. */
  datatype ProducerPc =
    | PIdle
    | PGetWrite       // get_write reads _read
    | PDrop           // overflow: the buffer is freed
    | PStoreChannel
    | PStoreBuffer
    | PAdvanceTest    // advance_write reads _read
    | PAdvanceWrite   // advance_write stores _write
    | PLock
    | PSetSignaled
    | PReadWaiting
    | PUnlock
    | PSignal         // pthread_cond_signal if the consumer was waiting

  /** The consumer's next access, in next_frame and wait. */
  datatype ConsumerPc =
    | CIdle
    | CGetRead        // get_read reads _write
    | CLock
    | CTest           // reads _signaled
    | CSetWaiting
    | CBlock          // pthread_cond_wait releases the mutex and blocks
    | CBlocked
    | CRelock         // woken up, about to take the mutex again
    | CClearWaiting
    | CClearSignaled
    | CUnlock
    | CLoadBuffer
    | CLoadChannel
    | CAdvanceTest    // advance_read reads _write
    | CAdvanceRead    // advance_read stores _read

  datatype State = State(
    // shared memory
    ring: Ring, owner: Owner, signaled: bool, waiting: bool,
    // producer
    p: ProducerPc, pItem: Delivery, pIndex: nat, pWas: bool,
    // consumer
    c: ConsumerPc, cItem: Delivery, cIndex: nat,
    // history: buffers freed because the ring was full
    dropped: seq<Delivery>)

  /** Push and Take start an operation of an idle thread; Produce and Consume perform the
      next access of a thread; WakeSpuriously unblocks the consumer for no reason. */
  datatype Label = Push(item: Delivery) | Produce | Take | Consume | WakeSpuriously

  ghost predicate Initial(s: State) {
    && |s.ring.slots| == FIFO_SIZE && s.ring.read == 0 && s.ring.write == 0
    && s.ring.accepted == [] && s.ring.taken == [] && s.dropped == []
    && s.owner == Nobody && !s.signaled && !s.waiting
    && s.p == PIdle && s.c == CIdle
  }

  /** The state after a step, if the step is enabled. */
  function Step(s: State, l: Label): Option<State> {
    match l
    case Push(item) => if s.p == PIdle then Some(s.(p := PGetWrite, pItem := item)) else None
    case Take => if s.c == CIdle then Some(s.(c := CGetRead)) else None
    case WakeSpuriously => if s.c == CBlocked then Some(s.(c := CRelock)) else None
    case Produce => ProducerStep(s)
    case Consume => ConsumerStep(s)
  }

  /** The producer is in post. */
  predicate Posting(p: ProducerPc) {
    p == PLock || p == PSetSignaled || p == PReadWaiting || p == PUnlock || p == PSignal
  }

  /** The consumer is in wait. */
  predicate Waiting(c: ConsumerPc) {
    InWait(c) || c == CClearSignaled || c == CUnlock
  }

  function ProducerStep(s: State): Option<State> {
    if Posting(s.p) then PostStep(s) else PushStep(s)
  }

  function ConsumerStep(s: State): Option<State> {
    if Waiting(s.c) then WaitStep(s) else TakeStep(s)
  }

  /** push_buffer */
  function PushStep(s: State): Option<State> {
    match s.p
    case PGetWrite =>
      if Full(s.ring) then Some(s.(p := PDrop)) else Some(s.(p := PStoreChannel, pIndex := s.ring.write))
    case PDrop => Some(s.(p := PIdle, dropped := s.dropped + [s.pItem]))
    case PStoreChannel =>
      if s.pIndex >= |s.ring.slots| then None
      else Some(s.(p := PStoreBuffer, ring := StoreChannel(s.ring, s.pIndex, s.pItem)))
    case PStoreBuffer =>
      if s.pIndex >= |s.ring.slots| then None
      else Some(s.(p := PAdvanceTest, ring := StoreBuffer(s.ring, s.pIndex, s.pItem)))
    case PAdvanceTest => Some(s.(p := if Full(s.ring) then PLock else PAdvanceWrite))
    case PAdvanceWrite => Some(s.(p := PLock, ring := AdvanceWrite(s.ring, s.pItem)))
    case _ => None
  }

  /** post */
  function PostStep(s: State): Option<State> {
    match s.p
    case PLock => if s.owner == Nobody then Some(s.(p := PSetSignaled, owner := Producer)) else None
    case PSetSignaled => Some(s.(p := PReadWaiting, signaled := true))
    case PReadWaiting => Some(s.(p := PUnlock, pWas := s.waiting))
    case PUnlock => Some(s.(p := PSignal, owner := Nobody))
    case PSignal => Some(s.(p := PIdle, c := if s.pWas && s.c == CBlocked then CRelock else s.c))
    case _ => None
  }

  /** wait */
  function WaitStep(s: State): Option<State> {
    match s.c
    case CLock => if s.owner == Nobody then Some(s.(c := CTest, owner := Consumer)) else None
    case CTest => Some(s.(c := if s.signaled then CClearSignaled else CSetWaiting))
    case CSetWaiting => Some(s.(c := CBlock, waiting := true))
    case CBlock => Some(s.(c := CBlocked, owner := Nobody))
    case CRelock => if s.owner == Nobody then Some(s.(c := CClearWaiting, owner := Consumer)) else None
    case CClearWaiting => Some(s.(c := CTest, waiting := false))
    case CClearSignaled => Some(s.(c := CUnlock, signaled := false))
    case CUnlock => Some(s.(c := CGetRead, owner := Nobody))
    case _ => None
  }

  /** next_frame, where it takes a buffer from the ring. */
  function TakeStep(s: State): Option<State> {
    match s.c
    case CGetRead =>
      if Empty(s.ring) then Some(s.(c := CLock)) else Some(s.(c := CLoadBuffer, cIndex := s.ring.read))
    case CLoadBuffer =>
      if s.cIndex >= |s.ring.slots| then None
      else Some(s.(c := CLoadChannel, cItem := s.cItem.(buffer := s.ring.slots[s.cIndex].buffer)))
    case CLoadChannel =>
      if s.cIndex >= |s.ring.slots| then None
      else Some(s.(c := CAdvanceTest, cItem := s.cItem.(channel := s.ring.slots[s.cIndex].channel)))
    case CAdvanceTest => Some(s.(c := if Empty(s.ring) then CIdle else CAdvanceRead))
    case CAdvanceRead => Some(s.(c := CIdle, ring := AdvanceRead(s.ring, s.cItem)))
    case _ => None
  }

  /** Runs a schedule; None if one of its steps was not enabled. */
  function Exec(s: State, schedule: seq<Label>): Option<State>
    decreases |schedule|
  {
    if schedule == [] then Some(s)
    else match Step(s, schedule[0])
      case None => None
      case Some(t) => Exec(t, schedule[1..])
  }

  predicate ProducerHasSlot(p: ProducerPc) {
    p == PStoreChannel || p == PStoreBuffer || p == PAdvanceTest || p == PAdvanceWrite
  }

  predicate ConsumerHasSlot(c: ConsumerPc) {
    c == CLoadBuffer || c == CLoadChannel || c == CAdvanceTest || c == CAdvanceRead
  }

  predicate InWait(c: ConsumerPc) {
    c == CLock || c == CTest || c == CSetWaiting || c == CBlock || c == CBlocked || c == CRelock
    || c == CClearWaiting
  }

  // ------------------------------------------------------------- the invariant

  ghost predicate ProducerInv(s: State) {
    ProducerHasSlot(s.p) ==>
      && s.pIndex == s.ring.write < |s.ring.slots| && !Full(s.ring)
      && (s.p != PStoreChannel ==> s.ring.slots[s.pIndex].channel == s.pItem.channel)
      && (s.p == PAdvanceTest || s.p == PAdvanceWrite ==> s.ring.slots[s.pIndex] == s.pItem)
  }

  ghost predicate ConsumerInv(s: State) {
    ConsumerHasSlot(s.c) ==>
      && s.cIndex == s.ring.read < |s.ring.slots| && !Empty(s.ring)
      && (s.c != CLoadBuffer ==> s.cItem.buffer == s.ring.slots[s.cIndex].buffer)
      && (s.c == CAdvanceTest || s.c == CAdvanceRead ==> s.cItem == s.ring.slots[s.cIndex])
  }

  /** Who holds the mutex, and what the two flags say about the consumer. */
  ghost predicate MutexInv(s: State) {
    && (s.owner == Producer <==> s.p == PSetSignaled || s.p == PReadWaiting || s.p == PUnlock)
    && (s.owner == Consumer <==>
          s.c == CTest || s.c == CSetWaiting || s.c == CBlock || s.c == CClearWaiting
          || s.c == CClearSignaled || s.c == CUnlock)
    && (s.waiting <==> s.c == CBlock || s.c == CBlocked || s.c == CRelock || s.c == CClearWaiting)
    && (s.c == CSetWaiting || s.c == CBlock ==> !s.signaled)
    && (s.c == CClearSignaled ==> s.signaled)
  }

  /** A wake-up is under way whenever the consumer needs one. */
  ghost predicate WakeInv(s: State) {
    && (s.c == CBlocked && s.signaled ==>
          s.p == PReadWaiting || ((s.p == PUnlock || s.p == PSignal) && s.pWas))
    && (InWait(s.c) && !Empty(s.ring) ==> s.signaled || s.p == PLock || s.p == PSetSignaled)
  }

  ghost predicate SemaphoreInv(s: State) { MutexInv(s) && WakeInv(s) }

  ghost predicate Inv(s: State) {
    Valid(s.ring) && ProducerInv(s) && ConsumerInv(s) && SemaphoreInv(s)
  }

  /** push_buffer leaves the semaphore alone, and ends in post once it has filled the ring. */
  ghost predicate Pushed(s: State, t: State) {
    && t.owner == s.owner && t.signaled == s.signaled && t.waiting == s.waiting && t.c == s.c
    && !Posting(s.p) && (Posting(t.p) ==> t.p == PLock)
    && (Empty(s.ring) && !Empty(t.ring) ==> t.p == PLock)
  }

  lemma PushLeavesSemaphore(s: State)
    requires PushStep(s).Some?
    ensures Pushed(s, PushStep(s).value)
  {
  }

  lemma PushedKeepsSemaphore(s: State, t: State)
    requires SemaphoreInv(s) && Pushed(s, t)
    ensures SemaphoreInv(t)
  {
  }

  lemma PushKeepsSemaphore(s: State)
    requires SemaphoreInv(s) && PushStep(s).Some?
    ensures SemaphoreInv(PushStep(s).value)
  {
    PushLeavesSemaphore(s);
    PushedKeepsSemaphore(s, PushStep(s).value);
  }

  lemma PostKeepsSemaphore(s: State)
    requires SemaphoreInv(s) && PostStep(s).Some?
    ensures SemaphoreInv(PostStep(s).value)
  {
  }

  lemma WaitKeepsSemaphore(s: State)
    requires SemaphoreInv(s) && WaitStep(s).Some?
    ensures SemaphoreInv(WaitStep(s).value)
  {
  }

  /** Outside wait the consumer leaves the semaphore alone, and waits only for an empty ring. */
  ghost predicate Took(s: State, t: State) {
    && t.owner == s.owner && t.signaled == s.signaled && t.waiting == s.waiting && t.p == s.p && t.pWas == s.pWas
    && !Waiting(s.c) && (Waiting(t.c) ==> t.c == CLock && Empty(t.ring))
  }

  lemma TakeLeavesSemaphore(s: State)
    requires TakeStep(s).Some?
    ensures Took(s, TakeStep(s).value)
  {
  }

  lemma TookKeepsSemaphore(s: State, t: State)
    requires SemaphoreInv(s) && Took(s, t)
    ensures SemaphoreInv(t)
  {
  }

  lemma TakeKeepsSemaphore(s: State)
    requires SemaphoreInv(s) && TakeStep(s).Some?
    ensures SemaphoreInv(TakeStep(s).value)
  {
    TakeLeavesSemaphore(s);
    TookKeepsSemaphore(s, TakeStep(s).value);
  }

  // Storing into the write slot: the queue and the consumer's slot are not disturbed.
  lemma StoresKeepInv(s: State)
    requires Inv(s) && ProducerStep(s).Some?
    requires s.p == PStoreChannel || s.p == PStoreBuffer
    ensures Valid(ProducerStep(s).value.ring)
    ensures ProducerInv(ProducerStep(s).value) && ConsumerInv(ProducerStep(s).value)
  {
    StoresAreInvisible(s.ring, s.pItem);
    if !Empty(s.ring) {
      EndsDiffer(s.ring);
    }
  }

  lemma PublishKeepsInv(s: State)
    requires Inv(s) && s.p == PAdvanceWrite
    ensures Valid(ProducerStep(s).value.ring)
    ensures ProducerInv(ProducerStep(s).value) && ConsumerInv(ProducerStep(s).value)
  {
    AdvanceWriteKeepsValid(s.ring, s.pItem);
    IndexTests(s.ring);
    IndexTests(AdvanceWrite(s.ring, s.pItem));
  }

  lemma RetireKeepsInv(s: State)
    requires Inv(s) && s.c == CAdvanceRead
    ensures Valid(ConsumerStep(s).value.ring)
    ensures ProducerInv(ConsumerStep(s).value) && ConsumerInv(ConsumerStep(s).value)
  {
    AdvanceReadKeepsValid(s.ring);
    IndexTests(s.ring);
    IndexTests(AdvanceRead(s.ring, s.cItem));
  }

  lemma QuietProducerKeepsInv(s: State)
    requires Inv(s) && ProducerStep(s).Some?
    requires s.p != PStoreChannel && s.p != PStoreBuffer && s.p != PAdvanceWrite
    ensures ProducerInv(ProducerStep(s).value) && ConsumerInv(ProducerStep(s).value)
    ensures ProducerStep(s).value.ring == s.ring
  {
    IndexTests(s.ring);
  }

  lemma QuietConsumerKeepsInv(s: State)
    requires Inv(s) && ConsumerStep(s).Some? && s.c != CAdvanceRead
    ensures ProducerInv(ConsumerStep(s).value) && ConsumerInv(ConsumerStep(s).value)
    ensures ConsumerStep(s).value.ring == s.ring
  {
  }

  lemma StepKeepsInv(s: State, l: Label)
    requires Inv(s) && Step(s, l).Some?
    ensures Inv(Step(s, l).value)
  {
    if l == Produce {
      if Posting(s.p) { PostKeepsSemaphore(s); } else { PushKeepsSemaphore(s); }
      if s.p == PStoreChannel || s.p == PStoreBuffer {
        StoresKeepInv(s);
      } else if s.p == PAdvanceWrite {
        PublishKeepsInv(s);
      } else {
        QuietProducerKeepsInv(s);
      }
    } else if l == Consume {
      if Waiting(s.c) { WaitKeepsSemaphore(s); } else { TakeKeepsSemaphore(s); }
      if s.c == CAdvanceRead { RetireKeepsInv(s); } else { QuietConsumerKeepsInv(s); }
    }
  }

  lemma {:induction false} ExecKeepsInv(s: State, schedule: seq<Label>)
    requires Inv(s) && Exec(s, schedule).Some?
    ensures Inv(Exec(s, schedule).value)
    decreases |schedule|
  {
    if schedule != [] {
      StepKeepsInv(s, schedule[0]);
      ExecKeepsInv(Step(s, schedule[0]).value, schedule[1..]);
    }
  }

  /** The producer holds a buffer that is neither in the ring nor freed. */
  predicate Holding(p: ProducerPc) { p == PGetWrite || p == PDrop || ProducerHasSlot(p) }

  /** What a producer access from s to t means for the buffers. */
  ghost predicate ProducerEffect(s: State, t: State) {
    && t.ring.taken == s.ring.taken && t.pItem == s.pItem && t.cItem == s.cItem
    && (t.c == CIdle <==> s.c == CIdle)
    && t.ring.accepted == s.ring.accepted + (if s.p == PAdvanceWrite then [s.pItem] else [])
    && t.dropped == s.dropped + (if s.p == PDrop then [s.pItem] else [])
    && (t.p == PDrop ==> Queued(s.ring) == FIFO_SIZE - 1)
    && (Holding(t.p) <==> Holding(s.p) && s.p != PAdvanceWrite && s.p != PDrop)
  }

  /** What a consumer access from s to t means for the buffers. */
  ghost predicate ConsumerEffect(s: State, t: State) {
    && t.p == s.p && t.pItem == s.pItem
    && t.ring.accepted == s.ring.accepted && t.dropped == s.dropped
    && (t.c == CIdle <==> s.c == CAdvanceRead)
    && t.ring.taken == s.ring.taken + (if s.c == CAdvanceRead then [s.cItem] else [])
    && (s.c == CAdvanceRead ==>
          && Queued(s.ring) > 0 && |s.ring.taken| < |s.ring.accepted|
          && s.cItem == s.ring.accepted[|s.ring.taken|] && t.cItem == s.cItem)
  }

  lemma PushHasEffect(s: State)
    requires Valid(s.ring) && ProducerInv(s) && PushStep(s).Some?
    ensures ProducerEffect(s, PushStep(s).value)
  {
    IndexTests(s.ring);
  }

  lemma PostHasEffect(s: State)
    requires PostStep(s).Some?
    ensures ProducerEffect(s, PostStep(s).value)
  {
  }

  lemma ProducerHasEffect(s: State)
    requires Valid(s.ring) && ProducerInv(s) && ProducerStep(s).Some?
    ensures ProducerEffect(s, ProducerStep(s).value)
  {
    if Posting(s.p) { PostHasEffect(s); } else { PushHasEffect(s); }
  }

  lemma WaitHasEffect(s: State)
    requires WaitStep(s).Some?
    ensures ConsumerEffect(s, WaitStep(s).value)
  {
  }

  lemma TakeHasEffect(s: State)
    requires Valid(s.ring) && ConsumerInv(s) && TakeStep(s).Some?
    ensures ConsumerEffect(s, TakeStep(s).value)
  {
    IndexTests(s.ring);
    if s.c == CAdvanceRead {
      AdvanceReadKeepsValid(s.ring);
    }
  }

  lemma ConsumerHasEffect(s: State)
    requires Valid(s.ring) && ConsumerInv(s) && ConsumerStep(s).Some?
    ensures ConsumerEffect(s, ConsumerStep(s).value)
  {
    if Waiting(s.c) { WaitHasEffect(s); } else { TakeHasEffect(s); }
  }

  // ---------------------------------------------------------------- main results

  /** For every schedule: what was taken is a prefix of what was accepted, at most seven
      buffers are queued, the two threads never touch the same slot, and an advance that
      follows a successful get never fails. */
  lemma RingSafety(s: State, schedule: seq<Label>)
    requires Initial(s) && Exec(s, schedule).Some?
    ensures var t := Exec(s, schedule).value;
      && t.ring.taken <= t.ring.accepted
      && Queued(t.ring) <= FIFO_SIZE - 1
      && (ProducerHasSlot(t.p) && ConsumerHasSlot(t.c) ==> t.pIndex != t.cIndex)
      && (t.p == PAdvanceTest ==> !Full(t.ring))
      && (t.c == CAdvanceTest ==> !Empty(t.ring))
  {
    ExecKeepsInv(s, schedule);
    IndexTests(Exec(s, schedule).value.ring);
  }

  /** A buffer is refused exactly when seven are queued. */
  lemma DropsOnlyWhenFull(s: State, schedule: seq<Label>)
    requires Initial(s) && Exec(s, schedule).Some?
    requires Exec(s, schedule).value.p == PGetWrite
    ensures var t := Exec(s, schedule).value;
      ProducerStep(t).value.p == PDrop <==> Queued(t.ring) == FIFO_SIZE - 1
  {
    ExecKeepsInv(s, schedule);
    IndexTests(Exec(s, schedule).value.ring);
  }

  /** For every schedule: when the consumer sleeps in the condition wait and no post is
      under way, no signal is stored and no buffer is queued. */
  lemma NoLostWakeup(s: State, schedule: seq<Label>)
    requires Initial(s) && Exec(s, schedule).Some?
    requires var t := Exec(s, schedule).value;
      t.c == CBlocked && (t.p == PIdle || t.p == PGetWrite || t.p == PDrop || ProducerHasSlot(t.p))
    ensures var t := Exec(s, schedule).value; !t.signaled && Queued(t.ring) == 0
  {
    ExecKeepsInv(s, schedule);
    IndexTests(Exec(s, schedule).value.ring);
  }

  // Accesses the producer still makes in the operation under way.
  function ProducerRank(p: ProducerPc): nat {
    match p
    case PIdle => 0
    case PDrop => 1
    case PSignal => 1
    case PUnlock => 2
    case PReadWaiting => 3
    case PSetSignaled => 4
    case PLock => 5
    case PAdvanceWrite => 6
    case PAdvanceTest => 7
    case PStoreBuffer => 8
    case PStoreChannel => 9
    case PGetWrite => 10
  }

  // Accesses the consumer still makes before it takes a buffer or sleeps.
  function ConsumerRank(c: ConsumerPc, signaled: bool): nat {
    match c
    case CIdle => 0
    case CAdvanceRead => 1
    case CAdvanceTest => 2
    case CLoadChannel => 3
    case CLoadBuffer => 4
    case CGetRead => 5
    case CUnlock => 6
    case CClearSignaled => 7
    case CBlocked => 8
    case CBlock => 9
    case CSetWaiting => 10
    case CTest => if signaled then 8 else 11
    case CClearWaiting => 12
    case CLock => 12
    case CRelock => 13
  }

  function Rank(s: State): nat {
    14 * ProducerRank(s.p) + ConsumerRank(s.c, s.signaled)
  }

  /** Neither thread can do anything. */
  predicate Quiet(s: State) { ProducerStep(s).None? && ConsumerStep(s).None? }

  predicate ThreadStepsOnly(schedule: seq<Label>) {
    forall k :: 0 <= k < |schedule| ==> schedule[k] == Produce || schedule[k] == Consume
  }

  // With a buffer queued every access of either thread brings the take closer.
  lemma ProducerRankDecreases(s: State)
    requires ProducerStep(s).Some?
    ensures Rank(ProducerStep(s).value) < Rank(s)
  {
  }

  lemma ConsumerRankDecreases(s: State)
    requires SemaphoreInv(s) && !Empty(s.ring) && ConsumerStep(s).Some?
    ensures Rank(ConsumerStep(s).value) < Rank(s)
  {
  }

  // A consumer that wants a buffer is never stuck while one is queued.
  lemma NotQuiet(s: State)
    requires Inv(s) && !Empty(s.ring) && s.c != CIdle
    ensures !Quiet(s)
  {
  }

  /** At rest a consumer that wants a buffer sleeps with an empty ring, and nothing is being
      pushed. */
  lemma RestsEmpty(s: State)
    requires Inv(s) && Quiet(s) && s.c != CIdle
    ensures s.c == CBlocked && s.p == PIdle && Empty(s.ring) && Queued(s.ring) == 0
  {
    IndexTests(s.ring);
    if !Empty(s.ring) { NotQuiet(s); }
  }

  /** Where a take under way leads: either it is still under way with the same buffer at
      the head of the queue, or it is complete. */
  ghost predicate TakeProgress(s: State, t: State)
    requires |s.ring.taken| < |s.ring.accepted|
  {
    && s.ring.accepted <= t.ring.accepted
    && if t.c == CIdle then t.ring.taken == s.ring.accepted[..|s.ring.taken| + 1]
       else t.ring.taken == s.ring.taken && !Empty(t.ring)
  }

  lemma ProducerTakeStep(s: State, t: State)
    requires Valid(s.ring) && Valid(t.ring) && ProducerEffect(s, t)
    requires !Empty(s.ring) && s.c != CIdle
    ensures |s.ring.taken| < |s.ring.accepted| && TakeProgress(s, t)
  {
    IndexTests(s.ring);
    IndexTests(t.ring);
  }

  lemma ConsumerTakeStep(s: State, t: State)
    requires Valid(s.ring) && Valid(t.ring) && ConsumerEffect(s, t)
    requires !Empty(s.ring)
    ensures |s.ring.taken| < |s.ring.accepted| && TakeProgress(s, t)
  {
    IndexTests(s.ring);
    IndexTests(t.ring);
    assert s.ring.accepted[..|s.ring.taken|] == s.ring.taken;
  }

  lemma StepBringsTakeCloser(s: State, l: Label)
    requires Inv(s) && !Empty(s.ring) && s.c != CIdle
    requires l == Produce || l == Consume
    requires Step(s, l).Some?
    ensures |s.ring.taken| < |s.ring.accepted|
    ensures var t := Step(s, l).value; Inv(t) && Rank(t) < Rank(s) && TakeProgress(s, t)
  {
    StepKeepsInv(s, l);
    if l == Produce {
      ProducerRankDecreases(s);
      ProducerHasEffect(s);
      ProducerTakeStep(s, Step(s, l).value);
    } else {
      ConsumerRankDecreases(s);
      ConsumerHasEffect(s);
      ConsumerTakeStep(s, Step(s, l).value);
    }
  }

  lemma {:induction false} IdleConsumerStays(s: State, schedule: seq<Label>)
    requires s.c == CIdle && ThreadStepsOnly(schedule) && Exec(s, schedule).Some?
    ensures Exec(s, schedule).value.ring.taken == s.ring.taken
    ensures Exec(s, schedule).value.c == CIdle
    decreases |schedule|
  {
    if schedule != [] {
      IdleConsumerStays(Step(s, schedule[0]).value, schedule[1..]);
    }
  }

  // A run of the two threads is its first access and then the rest.
  lemma FirstAccess(s: State, schedule: seq<Label>)
    requires schedule != [] && ThreadStepsOnly(schedule) && Exec(s, schedule).Some?
    ensures schedule[0] == Produce || schedule[0] == Consume
    ensures ThreadStepsOnly(schedule[1..]) && Step(s, schedule[0]).Some?
    ensures Exec(s, schedule) == Exec(Step(s, schedule[0]).value, schedule[1..])
  {
  }

  /** Every buffer reaches a waiting consumer: from every reachable state in which the
      consumer wants a buffer and one is queued, however the accesses of the two threads
      are interleaved, they come to rest only after the oldest queued buffer was taken. */
  lemma QueuedBufferIsTaken(s: State, schedule: seq<Label>)
    requires Inv(s) && !Empty(s.ring) && s.c != CIdle
    requires ThreadStepsOnly(schedule) && Exec(s, schedule).Some?
    requires Quiet(Exec(s, schedule).value)
    ensures |s.ring.taken| < |s.ring.accepted|
    ensures Exec(s, schedule).value.ring.taken == s.ring.accepted[..|s.ring.taken| + 1]
  {
    TakenAtRest(s, schedule, Exec(s, schedule).value);
  }

  // What the rest of a run makes of a first access.
  lemma ProgressComposes(s: State, t: State, last: State)
    requires |s.ring.taken| < |s.ring.accepted| && TakeProgress(s, t)
    requires if t.c == CIdle then last.ring.taken == t.ring.taken
             else |t.ring.taken| < |t.ring.accepted| && last.ring.taken == t.ring.accepted[..|t.ring.taken| + 1]
    ensures last.ring.taken == s.ring.accepted[..|s.ring.taken| + 1]
  {
  }

  lemma {:induction false} TakenAtRest(s: State, schedule: seq<Label>, last: State)
    requires Inv(s) && !Empty(s.ring) && s.c != CIdle
    requires ThreadStepsOnly(schedule) && Exec(s, schedule) == Some(last) && Quiet(last)
    ensures |s.ring.taken| < |s.ring.accepted|
    ensures last.ring.taken == s.ring.accepted[..|s.ring.taken| + 1]
    decreases |schedule|, 0
  {
    NotQuiet(s);
    if schedule != [] {
      FirstAccess(s, schedule);
      StepBringsTakeCloser(s, schedule[0]);
      RestIsTaken(s, Step(s, schedule[0]).value, schedule[1..], last);
    }
  }

  lemma {:induction false} RestIsTaken(s: State, t: State, schedule: seq<Label>, last: State)
    requires |s.ring.taken| < |s.ring.accepted| && Inv(t) && TakeProgress(s, t)
    requires ThreadStepsOnly(schedule) && Exec(t, schedule) == Some(last) && Quiet(last)
    ensures last.ring.taken == s.ring.accepted[..|s.ring.taken| + 1]
    decreases |schedule|, 1
  {
    if t.c == CIdle {
      IdleConsumerStays(t, schedule);
    } else {
      TakenAtRest(t, schedule, last);
    }
    ProgressComposes(s, t, last);
  }

  /** ... and they do come to rest: until the take completes, no run is longer than Rank. */
  lemma {:induction false} TakeTerminates(s: State, schedule: seq<Label>)
    requires Inv(s) && !Empty(s.ring) && s.c != CIdle
    requires ThreadStepsOnly(schedule) && Exec(s, schedule).Some?
    requires Exec(s, schedule).value.c != CIdle
    ensures |schedule| + Rank(Exec(s, schedule).value) <= Rank(s)
    decreases |schedule|
  {
    if schedule != [] {
      FirstAccess(s, schedule);
      StepBringsTakeCloser(s, schedule[0]);
      var t := Step(s, schedule[0]).value;
      if t.c == CIdle {
        IdleConsumerStays(t, schedule[1..]);
      } else {
        TakeTerminates(t, schedule[1..]);
      }
    }
  }
}
