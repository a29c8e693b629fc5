/** FileSource: plays an H.264 file through a buffer that is much smaller than the file.

    The window slides over the file with memmove and refill, meets the end of the file and
    rewinds; what it sends refines the simple splitter of ByteStream. */
module FileSourceModel {
  import opened ByteStream
  import opened Common

  datatype Errcode = OK | BAD_REQUEST

  /** frame_type: the low five bits of the first byte. */
  predicate IsSps(b: Byte) { b % 32 == 7 }
  predicate IsPps(b: Byte) { b % 32 == 8 }

  /** A unit begins with a zero bit, two bits of priority and its type; 7 is an SPS and 8 a PPS
      (section 7.3.1 of ITU-T H.264). */
  lemma UnitTypes(b: Byte, zero: nat, priority: nat, kind: nat)
    requires zero < 2 && priority < 4 && kind < 32 && b == 128 * zero + 32 * priority + kind
    ensures (IsSps(b) <==> kind == 7) && (IsPps(b) <==> kind == 8)
  {
  }

  /** All units from `at` on are non-empty and fit the buffer with the next start code. */
  ghost predicate UnitsFit(file: seq<Byte>, at: nat, capacity: nat)
    requires at <= |file|
    decreases |file| - at
  {
    var e := UnitEnd(file, at);
    at < e && e - at + 4 <= capacity && (CodeAt(file, e) ==> UnitsFit(file, e + 4, capacity))
  }

  /** A file whose units, behind the first four bytes, fit the buffer, and which does not
      end in a zero byte. */
  ghost predicate Playable(file: seq<Byte>, capacity: nat) {
    4 < |file| && UnitsFit(file, 4, capacity) && file[|file| - 1] != 0
  }

  /** The three bytes behind the buffer do not complete a start code begun inside it. */
  predicate GuardSafe(g: seq<Byte>) {
    |g| == 3 && g[0] != 1 && !(g[0] == 0 && g[1] == 1) && !(g[0] == 0 && g[1] == 0 && g[2] == 1)
  }

  // A scan of a window never reports a start code that reaches out of the window.
  lemma NoCodeAcrossEnd(memory: seq<Byte>, size: nat)
    requires size + 3 == |memory|
    requires GuardSafe(memory[size..]) || (size > 0 && memory[size - 1] != 0)
    ensures forall k :: 0 <= k < size && CodeAt(memory, k) ==> k + 4 <= size
  {
    var g := memory[size..];
    assert g == [memory[size], memory[size + 1], memory[size + 2]];
  }

  /** The scan of a window of the file finds the end of the unit exactly when the start code
      that ends it lies inside the window. */
  lemma ScanOfWindow(file: seq<Byte>, pos: nat, size: nat, memory: seq<Byte>)
    requires pos + size <= |file| && size + 3 == |memory|
    requires memory[..size] == file[pos..pos + size]
    requires GuardSafe(memory[size..]) || (size > 0 && memory[size - 1] != 0)
    requires pos < UnitEnd(file, pos) || size == 0
    ensures Scan(memory, size, 0) ==
            if UnitEnd(file, pos) + 4 <= pos + size then UnitEnd(file, pos) - pos else 0
  {
    NoCodeAcrossEnd(memory, size);
    ScanFinds(memory, size, 0);
    UnitEndIsFirst(file, pos);
    var r, e := Scan(memory, size, 0), UnitEnd(file, pos);
    if e + 4 <= pos + size {
      SameCode(file, pos, size, memory, e - pos);
    }
    if CodeAt(memory, r) && r < size {
      SameCode(file, pos, size, memory, r);
    }
  }

  lemma SameCode(file: seq<Byte>, pos: nat, size: nat, memory: seq<Byte>, k: nat)
    requires pos + size <= |file| && size <= |memory| && k + 4 <= size
    requires memory[..size] == file[pos..pos + size]
    ensures CodeAt(memory, k) <==> CodeAt(file, pos + k)
  {
    assert forall i :: k <= i < k + 4 ==> memory[i] == memory[..size][i] == file[pos..pos + size][i];
  }

  /** The file begins with an SPS and then a start code inside the first window, and a PPS
      follows it; if the window ends there, the byte behind the buffer stands for the PPS. */
  predicate BeginsWithSets(file: seq<Byte>, capacity: nat, behind: Byte) {
    && CodeAt(file, 0) && 4 < |file| && IsSps(file[4])
    && var e := UnitEnd(file, 4);
      && CodeAt(file, e) && e + 4 < |file| && e + 4 <= capacity
      && IsPps(if e + 4 < capacity then file[e + 4] else behind)
  }

  // A window that starts with a unit and is full, or reaches the end of the file, holds the
  // unit and the start code after it, or is the last unit.
  lemma WindowHoldsUnit(file: seq<Byte>, pos: nat, filePos: nat, capacity: nat, eof: bool)
    requires pos <= filePos <= |file| && UnitsFit(file, pos, capacity)
    requires if eof then filePos == |file| else filePos == pos + capacity
    ensures UnitEnd(file, pos) + 4 <= filePos || (UnitEnd(file, pos) == |file| && eof)
  {
    UnitEndIsFirst(file, pos);
  }

  lemma Joining(file: seq<Byte>, i: nat, j: nat, k: nat)
    requires i <= j <= k <= |file|
    ensures file[i..j] + file[j..k] == file[i..k]
  {
  }

  class FileSource {
    const file: seq<Byte>
    const capacity: nat
    /** _buffer, followed by the three bytes behind its end that a scan may read. */
    const buffer: array<Byte>
    var filePos: nat
    var eof: bool
    var frame: nat
    var frameSize: nat
    var haveBytes: int
    var errcode: Errcode
    /** Where the current unit starts in the file. */
    ghost var pos: nat

    ghost predicate Allocated()
      reads buffer
    {
      && Playable(file, capacity)
      && buffer.Length == capacity + 3
      && GuardSafe(buffer[capacity..])
    }

    /** The first unit and the start code after it fit the first fill. */
    ghost predicate Ready()
      reads buffer
    {
      && Allocated()
      && UnitEnd(file, 4) + 4 <= capacity && UnitEnd(file, 4) < |file|
    }

    /** The buffer from `frame` on holds the next `haveBytes` bytes of the file, from `pos`
        on, up to the read position; it is full unless the file has ended. */
    ghost predicate Window()
      reads this, buffer
      requires buffer.Length == capacity + 3
    {
      WindowAt(pos, frame, haveBytes)
    }

    ghost predicate WindowAt(at: nat, start: nat, have: int)
      reads `filePos, `eof, buffer
      requires buffer.Length == capacity + 3
    {
      && 4 <= at <= |file| && 0 <= have && start + have <= capacity
      && at + have == filePos <= |file|
      && (if eof then filePos == |file| else start + have == capacity)
      && buffer[start..start + have] == file[at..filePos]
    }

    /** The current frame is the unit at `pos`: either its closing start code is in the
        window, or it is the last unit and the window ends with it. */
    ghost predicate Valid()
      reads this, buffer
    {
      && Ready() && Window() && UnitsFit(file, pos, capacity)
      && var e := UnitEnd(file, pos);
        && frameSize == e - pos
        && (e + 4 <= filePos || (e == |file| && eof && haveBytes == frameSize))
    }

    /** `guard` is what happens to lie behind the buffer. */
    constructor (file: seq<Byte>, capacity: nat, guard: seq<Byte>)
      requires Playable(file, capacity) && GuardSafe(guard)
      ensures this.file == file && this.capacity == capacity
      ensures errcode == OK ==> Valid() && pos == 4
      ensures errcode == OK ==> CodeAt(file, 0) && 4 < |file| && IsSps(file[4])
      ensures errcode == OK <==> BeginsWithSets(file, capacity, guard[0])
    {
      this.file, this.capacity := file, capacity;
      var memory := new Byte[capacity + 3];
      buffer := memory;
      filePos, eof, frame, frameSize, haveBytes, errcode, pos := 0, false, 0, 0, 0, OK, 4;
      new;
      forall i | 0 <= i < 3 { buffer[capacity + i] := guard[i]; }
      assert buffer[capacity..] == guard;
      FirstFill();
    }

    /** ifstream::read into the buffer. */
    method Read(at: nat, n: nat) returns (count: nat)
      requires at + n <= capacity <= buffer.Length && filePos <= |file| && !eof
      modifies buffer, `filePos, `eof
      ensures count == (if n <= |file| - old(filePos) then n else |file| - old(filePos))
      ensures filePos == old(filePos) + count
      ensures eof == (count < n)
      ensures buffer[..at] == old(buffer[..at])
      ensures buffer[at..at + count] == file[old(filePos)..filePos]
      ensures buffer[capacity..] == old(buffer[capacity..])
    {
      count := if n <= |file| - filePos then n else |file| - filePos;
      forall i | 0 <= i < count {
        buffer[at + i] := file[filePos + i];
      }
      filePos := filePos + count;
      eof := count < n;
    }

    /** frame_size: the first position in the window where a start code stands, or 0. */
    method FrameSize(from: nat, size: int) returns (count: nat)
      requires size > 0 ==> from + size + 3 <= buffer.Length
      ensures size <= 0 ==> count == 0
      ensures size > 0 ==> count == Scan(buffer[from..from + size + 3], size, 0)
    {
      count := 0;
      while count < size
        invariant 0 <= count
        invariant size > 0 ==> count <= size
        invariant size > 0 ==>
          Scan(buffer[from..from + size + 3], size, 0) == Scan(buffer[from..from + size + 3], size, count)
      {
        assert CodeAt(buffer[from..from + size + 3], count) <==>
          buffer[from + count] == 0 && buffer[from + count + 1] == 0
          && buffer[from + count + 2] == 0 && buffer[from + count + 3] == 1;
        if buffer[from + count] == 0 && buffer[from + count + 1] == 0
           && buffer[from + count + 2] == 0 && buffer[from + count + 3] == 1 {
          return;
        }
        count := count + 1;
      }
      count := 0;
    }

    // What frame_size finds in a window of the file.
    lemma ScanCurrent(count: nat)
      requires Allocated() && Window() && (pos < |file| ==> pos < UnitEnd(file, pos))
      requires haveBytes == 0 ==> count == 0
      requires haveBytes > 0 ==> count == Scan(buffer[frame..frame + haveBytes + 3], haveBytes, 0)
      ensures count == if UnitEnd(file, pos) + 4 <= filePos then UnitEnd(file, pos) - pos else 0
    {
      if haveBytes > 0 {
        var memory := buffer[frame..frame + haveBytes + 3];
        assert memory[..haveBytes] == buffer[frame..frame + haveBytes];
        if eof {
          assert memory[haveBytes - 1] == file[pos..filePos][haveBytes - 1] == file[|file| - 1];
        } else {
          assert memory[haveBytes..] == buffer[capacity..];
        }
        ScanOfWindow(file, pos, haveBytes, memory);
      }
    }

    /** Scans the window for the end of the current unit; `more` says that there is one. */
    method ScanFrame(ghost more: bool)
      requires if more then Allocated() && Window() && (pos < |file| ==> pos < UnitEnd(file, pos)) else haveBytes <= 0
      modifies `frameSize
      ensures more ==> frameSize == if UnitEnd(file, pos) + 4 <= filePos then UnitEnd(file, pos) - pos else 0
      ensures !more ==> frameSize == 0
    {
      frameSize := FrameSize(frame, haveBytes);
      if more {
        ScanCurrent(frameSize);
      }
    }

    /** memmove of what is left of the window, if anything, to the start of the buffer. */
    method MoveToFront()
      requires (haveBytes > 0 ==> frame + haveBytes <= capacity) && capacity <= buffer.Length
      modifies buffer, `frame, `haveBytes
      ensures frame == 0 && haveBytes == (if old(haveBytes) < 0 then 0 else old(haveBytes))
      ensures haveBytes > 0 ==> buffer[..haveBytes] == old(buffer[frame..frame + haveBytes])
      ensures buffer[capacity..] == old(buffer[capacity..])
    {
      if haveBytes < 0 { haveBytes := 0; }
      forall i | 0 <= i < haveBytes {
        buffer[i] := buffer[frame + i];
      }
      frame := 0;
    }

    // Reads the first window and scans its first unit.
    method FillFirst()
      requires Allocated() && !eof && filePos == 0
      modifies buffer, `filePos, `eof, `frame, `frameSize, `haveBytes, `pos
      ensures Allocated() && Window() && pos == frame == 4
      ensures frameSize == if UnitEnd(file, 4) + 4 <= filePos then UnitEnd(file, 4) - 4 else 0
      ensures filePos == (if capacity <= |file| then capacity else |file|)
      ensures forall i :: 0 <= i < 4 ==> buffer[i] == file[i]
      ensures buffer[capacity..] == old(buffer[capacity..])
    {
      var count := Read(0, capacity);
      frame := 4;
      haveBytes := count - 4;
      pos := 4;
      assert buffer[4..count] == buffer[0..count][4..] == file[4..count];
      assert forall i :: 0 <= i < 4 ==> buffer[i] == buffer[0..count][i] == file[i];
      ScanFrame(true);
    }

    /** The constructor's first fill: finds SPS and PPS in the first window, or refuses the
        file. */
    method FirstFill()
      requires Allocated() && !eof && filePos == 0 && errcode == OK
      modifies buffer, `filePos, `eof, `frame, `frameSize, `haveBytes, `pos, `errcode
      ensures errcode == OK ==> Valid() && pos == 4
      ensures errcode == OK ==> CodeAt(file, 0) && 4 < |file| && IsSps(file[4])
      ensures errcode == OK <==> BeginsWithSets(file, capacity, old(buffer[capacity]))
    {
      ghost var behind := buffer[capacity..];
      FillFirst();
      assert buffer[capacity..][0] == behind[0];
      UnitEndIsFirst(file, 4);
      FirstTests();
      if !(buffer[0] == 0 && buffer[1] == 0 && buffer[2] == 0 && buffer[3] == 1) {
        errcode := BAD_REQUEST;
        return;
      }
      if !IsSps(buffer[frame]) {
        errcode := BAD_REQUEST;
        return;
      }
      var pps := frame + frameSize + 4;
      if !(buffer[pps - 4] == 0 && buffer[pps - 3] == 0 && buffer[pps - 2] == 0 && buffer[pps - 1] == 1) {
        errcode := BAD_REQUEST;
        return;
      }
      if !IsPps(buffer[pps]) {
        errcode := BAD_REQUEST;
      }
    }

    /** The tests of the constructor on the memory from the start of the buffer on. */
    predicate LooksLikeSets(memory: seq<Byte>, size: nat) {
      && CodeAt(memory, 0) && 4 < |memory| && IsSps(memory[4])
      && CodeAt(memory, 4 + size) && 8 + size < |memory| && IsPps(memory[8 + size])
    }

    // What those tests say of the file.
    lemma FirstTests()
      requires Allocated() && Window() && pos == frame == 4
      requires frameSize == if UnitEnd(file, 4) + 4 <= filePos then UnitEnd(file, 4) - 4 else 0
      requires filePos == (if capacity <= |file| then capacity else |file|)
      requires forall i :: 0 <= i < 4 ==> buffer[i] == file[i]
      ensures LooksLikeSets(buffer[..], frameSize) <==> BeginsWithSets(file, capacity, buffer[capacity])
    {
      var e := UnitEnd(file, 4);
      UnitEndIsFirst(file, 4);
      WindowBytes();
      assert buffer[4] == file[4];
      if e + 4 <= filePos {
        assert CodeAt(file, e) && UnitsFit(file, e + 4, capacity);
        assert forall i :: 0 <= i < filePos ==> buffer[i] == file[i];
        assert CodeAt(buffer[..], 4 + frameSize);
      }
    }

    // The bytes of the window, one by one.
    lemma WindowBytes()
      requires buffer.Length == capacity + 3 && Window()
      ensures forall i :: pos <= i < filePos ==> buffer[frame + i - pos] == file[i]
    {
      forall i | pos <= i < filePos ensures buffer[frame + i - pos] == file[i] {
        assert buffer[frame..frame + haveBytes][i - pos] == file[pos..filePos][i - pos];
      }
    }

    /** The branch at the end of the file: start over with the first unit. */
    method Rewind()
      requires Ready()
      modifies buffer, `filePos, `eof, `frame, `frameSize, `haveBytes, `pos
      ensures Valid() && pos == 4
    {
      filePos, eof := 0, false;
      UnitEndIsFirst(file, 4);
      FillFirst();
    }

    // Moves the rest of the window to the front and fills the buffer behind it.
    method FillBehind()
      requires buffer.Length == capacity + 3 && Window() && !eof
      modifies buffer, `filePos, `eof, `frame, `haveBytes
      ensures Window() && frame == 0
      ensures buffer[capacity..] == old(buffer[capacity..])
    {
      ghost var mid := filePos;
      MoveToFront();
      var keep := haveBytes;
      assert buffer[..keep] == file[pos..mid];
      var count := Read(keep, capacity - keep);
      var have := keep + count;
      assert buffer[0..have] == buffer[..keep] + buffer[keep..have];
      Joining(file, pos, mid, filePos);
      haveBytes := have;
    }

    /** The branch that refills the buffer when the unit is cut by the end of the window. */
    method Refill()
      requires Ready() && Window() && UnitsFit(file, pos, capacity) && !eof
      modifies buffer, `filePos, `eof, `frame, `frameSize, `haveBytes
      ensures Valid()
    {
      FillBehind();
      WindowHoldsUnit(file, pos, filePos, capacity, eof);
      ScanFrame(true);
      if frameSize == 0 { frameSize := haveBytes; }
    }

    // Behind the start code that ends the current unit the window holds the next units.
    lemma NextWindow(e: nat, start: nat, left: int)
      requires Valid() && e == UnitEnd(file, pos) && CodeAt(file, e)
      requires start == frame + frameSize + 4 && left == haveBytes - (frameSize + 4)
      ensures e + 4 <= filePos && WindowAt(e + 4, start, left) && UnitsFit(file, e + 4, capacity)
    {
      var k := frameSize + 4;
      assert buffer[start..start + left] == buffer[frame..frame + haveBytes][k..];
      assert file[e + 4..filePos] == file[pos..filePos][k..];
    }

    // No start code ends the current unit: the window ends with it, and so does the file.
    lemma LastWindow(e: nat)
      requires Valid() && e == UnitEnd(file, pos) && !CodeAt(file, e)
      ensures eof && haveBytes == frameSize
    {
      UnitEndIsFirst(file, pos);
    }

    // Stepping over the current unit, which ends at `e`, leaves a window that starts with the
    // next unit, or nothing at all.
    method Slide(ghost e: nat)
      requires Valid() && e == UnitEnd(file, pos)
      modifies `frame, `haveBytes, `pos
      ensures Ready()
      ensures CodeAt(file, e) ==> pos == e + 4 && Window() && UnitsFit(file, pos, capacity)
      ensures !CodeAt(file, e) ==> eof && haveBytes == -4
    {
      var start, left := frame + frameSize + 4, haveBytes - (frameSize + 4);
      if CodeAt(file, e) {
        NextWindow(e, start, left);
        pos := e + 4;
      } else {
        LastWindow(e);
      }
      frame, haveBytes := start, left;
    }

    // The first lines of next_frame: step over the current unit and scan for the next one.
    method StepOver(ghost e: nat)
      requires Valid() && e == UnitEnd(file, pos)
      modifies `frame, `frameSize, `haveBytes, `pos
      ensures Ready()
      ensures CodeAt(file, e) ==>
                && pos == e + 4 && Window() && UnitsFit(file, pos, capacity)
                && frameSize == if UnitEnd(file, pos) + 4 <= filePos then UnitEnd(file, pos) - pos else 0
      ensures !CodeAt(file, e) ==> eof && haveBytes == -4 && frameSize == 0
    {
      Slide(e);
      ScanFrame(CodeAt(file, e));
    }

    /** next_frame: the next unit of the file, or the first one after the last. */
    method NextFrame(ghost e: nat)
      requires Valid() && e == UnitEnd(file, pos)
      modifies buffer, `filePos, `eof, `frame, `frameSize, `haveBytes, `pos
      ensures Valid()
      ensures pos == if CodeAt(file, e) then e + 4 else 4
    {
      StepOver(e);
      if frameSize != 0 { return; }
      if eof && haveBytes > 0 {
        UnitEndIsFirst(file, pos);
        frameSize := haveBytes;
      } else if eof && haveBytes <= 0 {
        Rewind();
      } else {
        Refill();
      }
    }

    /** play_file, stopped after `frames` frames: what is sent is the units of the file, in
        order, starting over after the last one. `send_frame` is the append to `sent`. */
    method PlayFile(frames: nat) returns (sent: seq<seq<Byte>>)
      requires Valid() && pos == 4
      modifies buffer, `filePos, `eof, `frame, `frameSize, `haveBytes, `pos
      ensures sent == Cycle(Units(file, 4), 0, frames)
    {
      sent := [];
      ghost var units := Units(file, 4);
      ghost var n: nat := 0;     // units sent in this lap
      for i := 0 to frames
        invariant Valid() && n < |units| && units[n..] == Units(file, pos)
        invariant sent + Cycle(units, n, frames - i) == Cycle(units, 0, frames)
      {
        NextInCycle(sent, units, n, frames - i);
        var bytes;
        bytes, n := PlayFrame(units, n);
        sent := sent + [bytes];
      }
    }

    /** One turn of the loop of play_file. */
    method PlayFrame(ghost units: seq<seq<Byte>>, ghost n: nat) returns (bytes: seq<Byte>, ghost next: nat)
      requires Valid() && n < |units| && units == Units(file, 4) && units[n..] == Units(file, pos)
      modifies buffer, `filePos, `eof, `frame, `frameSize, `haveBytes, `pos
      ensures Valid() && bytes == units[n]
      ensures next == (if n + 1 < |units| then n + 1 else 0) < |units| && units[next..] == Units(file, pos)
    {
      ghost var e := UnitEnd(file, pos);
      NextUnit(file, units, n, pos, e);
      CurrentFrame(e);
      bytes := buffer[frame..frame + frameSize];
      next := if CodeAt(file, e) then n + 1 else 0;
      assert units[next..] == Units(file, if CodeAt(file, e) then e + 4 else 4);
      NextFrame(e);
    }

    // The frame to be sent is the unit at `pos`.
    lemma CurrentFrame(e: nat)
      requires Valid() && e == UnitEnd(file, pos)
      ensures frame + frameSize <= buffer.Length
      ensures buffer[frame..frame + frameSize] == file[pos..e]
    {
      assert buffer[frame..frame + frameSize] == buffer[frame..frame + haveBytes][..frameSize];
      assert file[pos..filePos][..frameSize] == file[pos..e];
    }
  }

  lemma NextUnit(file: seq<Byte>, units: seq<seq<Byte>>, n: nat, pos: nat, e: nat)
    requires n < |units| && pos <= |file| && units[n..] == Units(file, pos) && e == UnitEnd(file, pos)
    ensures
      && units[n] == file[pos..e]
      && if CodeAt(file, e) then n + 1 < |units| && units[n + 1..] == Units(file, e + 4)
         else n + 1 == |units|
  {
    assert units[n] == units[n..][0];
    assert units[n + 1..] == units[n..][1..];
    if CodeAt(file, e) {
      assert Units(file, pos) == [file[pos..e]] + Units(file, e + 4);
    } else {
      assert Units(file, pos) == [file[pos..e]];
    }
  }

  /** The next `count` units, from the one at `n` on, starting over after the last. */
  function Cycle(units: seq<seq<Byte>>, n: nat, count: nat): (r: seq<seq<Byte>>)
    requires n < |units|
    ensures |r| == count
    decreases count
  {
    if count == 0 then [] else [units[n]] + Cycle(units, if n + 1 < |units| then n + 1 else 0, count - 1)
  }

  lemma NextInCycle(sent: seq<seq<Byte>>, units: seq<seq<Byte>>, n: nat, count: nat)
    requires n < |units| && count > 0
    ensures sent + Cycle(units, n, count)
         == sent + [units[n]] + Cycle(units, if n + 1 < |units| then n + 1 else 0, count - 1)
  {
  }

  /** The i-th frame sent is unit number i, modulo the number of units. */
  lemma {:induction false} CycleAt(units: seq<seq<Byte>>, n: nat, count: nat, i: nat)
    requires n < |units| && i < count
    ensures Cycle(units, n, count)[i] == units[(n + i) % |units|]
    decreases count
  {
    var m := |units|;
    if i == 0 {
      UniqueRemainder(n, 0, n, m);
    } else if n + 1 < m {
      CycleAt(units, n + 1, count - 1, i - 1);
      assert n + 1 + (i - 1) == n + i;
    } else {
      CycleAt(units, 0, count - 1, i - 1);
      var q, r := (i - 1) / m, (i - 1) % m;
      assert n + i == (q + 1) * m + r;
      UniqueRemainder(n + i, q + 1, r, m);
    }
  }
}
