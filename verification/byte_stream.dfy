/** H.264 byte streams: NAL units separated by 4-byte start codes (section B.1 of Annex B of
    ITU-T H.264), and the scan for the next start code. */
module ByteStream {
  import opened Common

  /** A start code stands at position `at`. */
  predicate CodeAt(b: seq<Byte>, at: nat) {
    at + 4 <= |b| && b[at] == 0 && b[at + 1] == 0 && b[at + 2] == 0 && b[at + 3] == 1
  }

  /** Position of the first start code from `at` on, or the end of the stream. */
  function UnitEnd(b: seq<Byte>, at: nat): nat
    requires at <= |b|
    ensures at <= UnitEnd(b, at) <= |b|
    decreases |b| - at
  {
    if at == |b| || CodeAt(b, at) then at else UnitEnd(b, at + 1)
  }

  /** The NAL units of the stream when a unit starts at `at`: the simple splitter. */
  function Units(b: seq<Byte>, at: nat): seq<seq<Byte>>
    requires at <= |b|
    decreases |b| - at
  {
    var e := UnitEnd(b, at);
    [b[at..e]] + (if CodeAt(b, e) then Units(b, e + 4) else [])
  }

  lemma {:induction false} UnitEndIsFirst(b: seq<Byte>, at: nat)
    requires at <= |b|
    ensures forall k :: at <= k < UnitEnd(b, at) ==> !CodeAt(b, k)
    ensures UnitEnd(b, at) == |b| || CodeAt(b, UnitEnd(b, at))
    decreases |b| - at
  {
    if at < |b| && !CodeAt(b, at) {
      UnitEndIsFirst(b, at + 1);
    }
  }

  lemma UnitEndUnique(b: seq<Byte>, at: nat, e: nat)
    requires at <= e <= |b|
    requires forall k :: at <= k < e ==> !CodeAt(b, k)
    requires e == |b| || CodeAt(b, e)
    ensures UnitEnd(b, at) == e
  {
    UnitEndIsFirst(b, at);
  }

  /** The bytes of the units, each after a start code. */
  function Joined(units: seq<seq<Byte>>): seq<Byte> {
    if units == [] then [] else [0, 0, 0, 1] + units[0] + Joined(units[1..])
  }

  /** Splitting loses nothing: the stream is its units, each after a start code. */
  lemma {:induction false} SplitterIsExact(b: seq<Byte>, at: nat)
    requires 4 <= at <= |b| && CodeAt(b, at - 4)
    ensures Joined(Units(b, at)) == b[at - 4..]
    decreases |b| - at
  {
    var e := UnitEnd(b, at);
    UnitEndIsFirst(b, at);
    if CodeAt(b, e) {
      SplitterIsExact(b, e + 4);
      UnitJoined(b, at, e, Units(b, at), Units(b, e + 4));
    } else {
      UnitJoined(b, at, e, Units(b, at), []);
    }
  }

  // One unit, and what is behind it.
  lemma UnitJoined(b: seq<Byte>, at: nat, e: nat, units: seq<seq<Byte>>, rest: seq<seq<Byte>>)
    requires 4 <= at <= e <= |b| && CodeAt(b, at - 4)
    requires units == [b[at..e]] + rest && Joined(rest) == b[e..]
    ensures Joined(units) == b[at - 4..]
  {
    JoinedCons(b[at..e], rest);
    CodeBefore(b, at);
    Pieces(b, at - 4, at, e);
  }

  lemma CodeBefore(b: seq<Byte>, at: nat)
    requires 4 <= at && CodeAt(b, at - 4)
    ensures b[at - 4..at] == [0, 0, 0, 1]
  {
  }

  lemma Pieces(b: seq<Byte>, i: nat, j: nat, k: nat)
    requires i <= j <= k <= |b|
    ensures b[i..] == b[i..j] + b[j..k] + b[k..]
  {
  }

  lemma JoinedCons(unit: seq<Byte>, rest: seq<seq<Byte>>)
    ensures Joined([unit] + rest) == [0, 0, 0, 1] + unit + Joined(rest)
  {
    assert ([unit] + rest)[1..] == rest;
  }

  predicate NoCode(unit: seq<Byte>) { forall k :: 0 <= k < |unit| ==> !CodeAt(unit, k) }

  ghost predicate NoCodes(units: seq<seq<Byte>>) { units == [] || (NoCode(units[0]) && NoCodes(units[1..])) }

  lemma JoinedBegins(units: seq<seq<Byte>>)
    requires units != []
    ensures BeginsWithCode(Joined(units)) && Joined(units)[4..] == units[0] + Joined(units[1..])
  {
    var more := units[0] + Joined(units[1..]);
    assert Joined(units) == [0, 0, 0, 1] + more;
  }

  predicate BeginsWithCode(s: seq<Byte>) { |s| >= 4 && s[0] == 0 && s[1] == 0 && s[2] == 0 && s[3] == 1 }

  // A unit and the start code behind it make no start code across its end.
  lemma UnitEndsAt(b: seq<Byte>, at: nat, unit: seq<Byte>, tail: seq<Byte>)
    requires at <= |b| && b[at..] == unit + tail && NoCode(unit) && (tail == [] || BeginsWithCode(tail))
    ensures var e := at + |unit|;
      && e <= |b| && UnitEnd(b, at) == e && b[at..e] == unit && (CodeAt(b, e) <==> tail != [])
      && b[e..] == tail
  {
    var e := at + |unit|;
    assert b[at..e] == b[at..][..|unit|] == unit && b[e..] == b[at..][|unit|..] == tail;
    assert forall i :: at <= i < e ==> b[i] == unit[i - at];
    assert forall i :: e <= i < |b| ==> b[i] == tail[i - e];
    forall k | at <= k < e ensures !CodeAt(b, k) {
      assert !CodeAt(unit, k - at);
    }
    UnitEndUnique(b, at, e);
  }

  lemma UnitBefore(b: seq<Byte>, at: nat, unit: seq<Byte>, rest: seq<seq<Byte>>)
    requires at <= |b| && b[at..] == unit + Joined(rest) && NoCode(unit) && rest != []
    ensures var e := at + |unit|;
      && e + 4 <= |b| && UnitEnd(b, at) == e && b[at..e] == unit && CodeAt(b, e)
      && b[e + 4..] == rest[0] + Joined(rest[1..])
  {
    JoinedBegins(rest);
    UnitEndsAt(b, at, unit, Joined(rest));
    assert b[at + |unit| + 4..] == b[at + |unit|..][4..];
  }

  /** `s` is `first` and then `rest`. */
  predicate Splits<T(==)>(s: seq<T>, first: T, rest: seq<T>) { s != [] && s[0] == first && s[1..] == rest }

  lemma SplitsAlike<T>(a: seq<T>, b: seq<T>)
    requires b != [] && Splits(a, b[0], b[1..])
    ensures a == b
  {
    assert a == [a[0]] + a[1..] && b == [b[0]] + b[1..];
  }

  lemma UnitsAre(b: seq<Byte>, at: nat, e: nat, unit: seq<Byte>, rest: seq<seq<Byte>>)
    requires at <= e <= |b| && UnitEnd(b, at) == e && b[at..e] == unit && (CodeAt(b, e) <==> rest != [])
    requires rest != [] ==> Units(b, e + 4) == rest
    ensures Splits(Units(b, at), unit, rest)
  {
  }

  lemma LastUnit(b: seq<Byte>, at: nat, unit: seq<Byte>)
    requires at <= |b| && b[at..] == unit && NoCode(unit)
    ensures Splits(Units(b, at), unit, [])
  {
    assert unit + [] == unit;
    UnitEndsAt(b, at, unit, []);
    UnitsAre(b, at, at + |unit|, unit, []);
  }

  lemma {:induction false} UnitsOfJoined(b: seq<Byte>, at: nat, unit: seq<Byte>, rest: seq<seq<Byte>>)
    requires NoCode(unit) && NoCodes(rest)
    requires at <= |b| && b[at..] == unit + Joined(rest)
    ensures Splits(Units(b, at), unit, rest)
    decreases |rest|
  {
    if rest == [] {
      LastUnit(b, at, unit);
    } else {
      var e := at + |unit|;
      UnitBefore(b, at, unit, rest);
      UnitsOfJoined(b, e + 4, rest[0], rest[1..]);
      SplitsAlike(Units(b, e + 4), rest);
      UnitsAre(b, at, e, unit, rest);
    }
  }

  /** ... and it finds what was put together: units without a start code inside, each after one,
      are split into exactly these units, whatever bytes they end in. */
  lemma JoinedSplits(units: seq<seq<Byte>>)
    requires units != [] && NoCodes(units)
    ensures |Joined(units)| >= 4 && Units(Joined(units), 4) == units
  {
    JoinedBegins(units);
    UnitsOfJoined(Joined(units), 4, units[0], units[1..]);
    SplitsAlike(Units(Joined(units), 4), units);
  }

  // --------------------------------------------------------------------- the scan

  /** What frame_size returns: the first position below `size` where a start code stands,
      or 0. The test at the last three positions looks at bytes behind the first `size`. */
  function Scan(memory: seq<Byte>, size: nat, from: nat): nat
    requires size + 3 <= |memory|
    decreases size - from
  {
    if from >= size then 0
    else if CodeAt(memory, from) then from
    else Scan(memory, size, from + 1)
  }

  lemma {:induction false} ScanFinds(memory: seq<Byte>, size: nat, from: nat)
    requires size + 3 <= |memory|
    ensures var r := Scan(memory, size, from);
      (from <= r < size && CodeAt(memory, r) && forall k :: from <= k < r ==> !CodeAt(memory, k))
      || (r == 0 && forall k :: from <= k < size ==> !CodeAt(memory, k))
    decreases size - from
  {
    if from < size && !CodeAt(memory, from) {
      ScanFinds(memory, size, from + 1);
    }
  }

  /** The bytes behind a window can fake a start code for the scan exactly when the window
      ends in a zero byte (and that is not its only byte). */
  lemma OverreadHarmlessIff(window: seq<Byte>)
    requires |window| >= 2 && forall k :: 0 <= k < |window| ==> !CodeAt(window, k)
    ensures (forall behind: seq<Byte> :: |behind| == 3 ==> Scan(window + behind, |window|, 0) == 0)
       <==> window[|window| - 1] != 0
  {
    var n := |window|;
    if window[n - 1] != 0 {
      forall behind: seq<Byte> | |behind| == 3 ensures Scan(window + behind, n, 0) == 0 {
        NothingFaked(window + behind, n);
        ScanFinds(window + behind, n, 0);
      }
    } else {
      var behind: seq<Byte> := [0, 0, 1];
      assert CodeAt(window + behind, n - 1);
      ScanFinds(window + behind, n, 0);
      assert !CodeAt(window + behind, 0) by {
        if CodeAt(window + behind, 0) && n >= 4 {
          assert CodeAt(window, 0);
        }
      }
    }
  }

  // A window that ends in a non-zero byte has no start code across its end.
  lemma NothingFaked(memory: seq<Byte>, size: nat)
    requires 0 < size && size + 3 <= |memory| && memory[size - 1] != 0
    ensures forall k :: 0 <= k < size && CodeAt(memory, k) ==> CodeAt(memory[..size], k)
  {
  }
}
