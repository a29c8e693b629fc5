/** The ring of eight slots behind IndexFifo, with the arithmetic of its two indices. */
module IndexRing {

  /** A2A_FILE_BUFFER_FIFO_SIZE; a power of two, so masking takes the remainder. */
  const FIFO_SIZE: nat := 8

  /** What a slot holds: the channel a buffer came from and the buffer's address. */
  datatype Delivery = Delivery(channel: nat, buffer: nat)

  /** The shared ring, with the history of all buffers that ever went in and out. */
  datatype Ring = Ring(read: nat, write: nat, slots: seq<Delivery>,
                       accepted: seq<Delivery>, taken: seq<Delivery>)

  function Wrap(n: nat): nat { if n < FIFO_SIZE then n else n - FIFO_SIZE }

  /** The index after i. */
  function Next(i: nat): nat { Wrap(i + 1) }

  /** num_in: how far the write index is ahead. */
  function NumIn(r: Ring): int {
    if r.read <= r.write then r.write - r.read else r.write - r.read + FIFO_SIZE
  }

  /** Both are the masked differences the program computes. */
  lemma Masked(r: Ring)
    requires r.read < FIFO_SIZE && r.write < FIFO_SIZE
    ensures Next(r.read) == (r.read + 1) % FIFO_SIZE && Next(r.write) == (r.write + 1) % FIFO_SIZE
    ensures NumIn(r) == (r.write - r.read) % FIFO_SIZE
  {
  }

  predicate Empty(r: Ring) { r.read == r.write }

  predicate Full(r: Ring) { r.read == Next(r.write) }

  function StoreChannel(r: Ring, i: nat, d: Delivery): Ring
    requires i < |r.slots|
  {
    r.(slots := r.slots[i := r.slots[i].(channel := d.channel)])
  }

  function StoreBuffer(r: Ring, i: nat, d: Delivery): Ring
    requires i < |r.slots|
  {
    r.(slots := r.slots[i := r.slots[i].(buffer := d.buffer)])
  }

  function AdvanceWrite(r: Ring, d: Delivery): Ring {
    r.(write := Next(r.write), accepted := r.accepted + [d])
  }

  function AdvanceRead(r: Ring, d: Delivery): Ring {
    r.(read := Next(r.read), taken := r.taken + [d])
  }

  /** Buffers handed over and not taken yet. */
  function Queued(r: Ring): int { |r.accepted| - |r.taken| }

  /** The slots from `read` on hold, in order, what was accepted and not yet taken. */
  ghost predicate Valid(r: Ring) {
    && |r.slots| == FIFO_SIZE
    && r.taken <= r.accepted
    && Queued(r) < FIFO_SIZE
    && r.read < FIFO_SIZE
    && r.write == Wrap(r.read + Queued(r))
    && forall j :: 0 <= j < Queued(r) ==> Held(r, j) == r.accepted[|r.taken| + j]
  }

  function Held(r: Ring, j: nat): Delivery
    requires |r.slots| == FIFO_SIZE && r.read < FIFO_SIZE && j < FIFO_SIZE
  {
    r.slots[Wrap(r.read + j)]
  }

  /** Both emptiness tests and the full test say what they should, and the count of
      num_in is the number of queued buffers, which is at most seven. */
  lemma IndexTests(r: Ring)
    requires Valid(r)
    ensures Empty(r) <==> Queued(r) == 0
    ensures Full(r) <==> Queued(r) == FIFO_SIZE - 1
    ensures NumIn(r) == Queued(r) <= FIFO_SIZE - 1
  {
  }

  /** Writing the slot at `write` of a ring that is not full disturbs no queued buffer. */
  lemma StoresAreInvisible(r: Ring, d: Delivery)
    requires Valid(r) && !Full(r)
    ensures r.write < FIFO_SIZE
    ensures Valid(StoreChannel(r, r.write, d)) && Valid(StoreBuffer(r, r.write, d))
  {
    forall t | t == StoreChannel(r, r.write, d) || t == StoreBuffer(r, r.write, d)
      ensures Valid(t)
    {
      forall j | 0 <= j < Queued(t) ensures Held(t, j) == t.accepted[|t.taken| + j] {
        assert Held(r, j) == r.accepted[|r.taken| + j];
      }
    }
  }

  lemma AdvanceWriteKeepsValid(r: Ring, d: Delivery)
    requires Valid(r) && !Full(r)
    requires r.write < FIFO_SIZE && r.slots[r.write] == d
    ensures Valid(AdvanceWrite(r, d))
  {
    var t := AdvanceWrite(r, d);
    forall j | 0 <= j < Queued(t) ensures Held(t, j) == t.accepted[|t.taken| + j] {
      if j < Queued(r) {
        assert Held(r, j) == r.accepted[|r.taken| + j];
      }
    }
  }

  lemma AdvanceReadKeepsValid(r: Ring)
    requires Valid(r) && !Empty(r)
    ensures r.read < FIFO_SIZE && r.slots[r.read] == r.accepted[|r.taken|]
    ensures Valid(AdvanceRead(r, r.slots[r.read]))
  {
    assert Held(r, 0) == r.accepted[|r.taken| + 0];
    var t := AdvanceRead(r, r.slots[r.read]);
    assert t.taken <= r.accepted;
    forall j | 0 <= j < Queued(t) ensures Held(t, j) == t.accepted[|t.taken| + j] {
      assert Held(r, j + 1) == r.accepted[|r.taken| + (j + 1)];
    }
  }

  /** While both ends are in use they use different slots. */
  lemma EndsDiffer(r: Ring)
    requires Valid(r) && !Full(r) && !Empty(r)
    ensures r.read != r.write
    ensures forall d :: r.write < FIFO_SIZE ==>
              && StoreChannel(r, r.write, d).slots[r.read] == r.slots[r.read]
              && StoreBuffer(r, r.write, d).slots[r.read] == r.slots[r.read]
  {
  }

  /** IndexFifo itself: the two indices, updated in place by the two ends. `ring` is the
      ghost view of the slots the indices refer to. */
  class IndexFifo {
    var read: nat
    var write: nat
    ghost var ring: Ring

    ghost predicate Consistent()
      reads this
    {
      Valid(ring) && ring.read == read && ring.write == write
    }

    constructor (slots: seq<Delivery>)
      requires |slots| == FIFO_SIZE
      ensures Consistent() && ring.accepted == [] && ring.taken == [] && ring.slots == slots
    {
      read, write := 0, 0;
      ring := Ring(0, 0, slots, [], []);
    }

    /** -1 exactly when nothing is queued, otherwise the slot of the oldest buffer. */
    method GetRead() returns (i: int)
      requires Consistent()
      ensures i == -1 <==> Queued(ring) == 0
      ensures i != -1 ==> 0 <= i < FIFO_SIZE && ring.slots[i] == ring.accepted[|ring.taken|]
    {
      IndexTests(ring);
      if read == write { return -1; }
      AdvanceReadKeepsValid(ring);
      i := read;
    }

    method AdvanceReadIndex() returns (status: int)
      requires Consistent()
      modifies this
      ensures Consistent()
      ensures status == -1 <==> old(Queued(ring)) == 0
      ensures status == -1 ==> ring == old(ring)
      ensures status != -1 ==>
                && status == 0
                && ring.accepted == old(ring.accepted) && ring.slots == old(ring.slots)
                && ring.taken == old(ring.accepted)[..|old(ring.taken)| + 1]
    {
      Masked(ring);
      IndexTests(ring);
      if read == write { return -1; }
      AdvanceReadKeepsValid(ring);
      ring := AdvanceRead(ring, ring.slots[read]);
      read := (read + 1) % FIFO_SIZE;
      status := 0;
    }

    /** -1 exactly when seven buffers are queued, otherwise a slot no queued buffer uses. */
    method GetWrite() returns (i: int)
      requires Consistent()
      ensures i == -1 <==> Queued(ring) == FIFO_SIZE - 1
      ensures i != -1 ==> i == write && i < FIFO_SIZE
      ensures i != -1 ==>
                forall d :: Valid(StoreChannel(ring, i, d)) && Valid(StoreBuffer(ring, i, d))
    {
      Masked(ring);
      IndexTests(ring);
      var nextWrite := (write + 1) % FIFO_SIZE;
      if read == nextWrite { return -1; }
      i := write;
      forall d { StoresAreInvisible(ring, d); }
    }

    method AdvanceWriteIndex(ghost d: Delivery) returns (status: int)
      requires Consistent()
      requires write < FIFO_SIZE ==> ring.slots[write] == d
      modifies this
      ensures Consistent()
      ensures status == -1 <==> old(Queued(ring)) == FIFO_SIZE - 1
      ensures status == -1 ==> ring == old(ring)
      ensures status != -1 ==>
                && status == 0
                && ring.taken == old(ring.taken) && ring.slots == old(ring.slots)
                && ring.accepted == old(ring.accepted) + [d]
    {
      Masked(ring);
      IndexTests(ring);
      var nextWrite := (write + 1) % FIFO_SIZE;
      if read == nextWrite { return -1; }
      AdvanceWriteKeepsValid(ring, d);
      ring := AdvanceWrite(ring, d);
      write := nextWrite;
      status := 0;
    }

    method CountIn() returns (n: nat)
      requires Consistent()
      ensures n == Queued(ring) <= FIFO_SIZE - 1
    {
      Masked(ring);
      IndexTests(ring);
      n := (write - read) % FIFO_SIZE;
    }
  }
}
