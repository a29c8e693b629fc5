/** Frame pacing: the wait between frames, the same code in FileSource and A2aFileSource.

    Only the nanosecond part of the clock is used. The model adds the absolute time in
    nanoseconds, to say when a wait really ends. */
module FramePacing {
  import opened Common

  const ONE_SECOND: nat := 1_000_000_000

  function Remainder(a: int, m: nat): nat
    requires m > 0
  {
    a % m
  }

  /** Where `i` steps lead from `start`, wrapping around at `m` each time. */
  function After(start: nat, step: nat, i: nat, m: nat): nat
    requires m > 0
  {
    if i == 0 then Remainder(start, m) else Remainder(After(start, step, i - 1, m) + step, m)
  }

  /** There is no cumulative error: the steps lead where all of them at once would. */
  lemma {:induction false} AfterIs(start: nat, step: nat, i: nat, m: nat)
    requires m > 0
    ensures After(start, step, i, m) == Remainder(start + i * step, m)
  {
    if i > 0 {
      var sum := start + (i - 1) * step;
      AfterIs(start, step, i - 1, m);
      RemainderOfSum(sum, step, m);
      Distributes(i - 1, step);
      assert sum + step == start + i * step;
    }
  }

  /** The fields _tick, _period, _ts_delta and _timestamp, all 32-bit. */
  class Pacer {
    var tick: nat
    var timestamp: nat
    const period: nat
    const tsDelta: nat

    predicate Valid()
      reads this
    {
      tick < ONE_SECOND && timestamp < WORD && period <= ONE_SECOND && tsDelta < WORD
    }

    /** fps is positive; tvNsec is the nanosecond part of the clock when the thread starts. */
    constructor (fps: nat, tsClock: nat, tvNsec: nat)
      requires fps > 0 && tsClock < WORD && tvNsec < ONE_SECOND
      ensures Valid() && tick == tvNsec && timestamp == 0
      ensures period == ONE_SECOND / fps && tsDelta == tsClock / fps
    {
      DivisionBounds(ONE_SECOND, fps);
      DivisionBounds(tsClock, fps);
      period, tsDelta := ONE_SECOND / fps, tsClock / fps;
      tick, timestamp := tvNsec, 0;
    }

    /** Advances the phase and the timestamp and returns how long to sleep, given the
        nanosecond part of the clock. The sums wrap at 32 bits as in the source; they stay
        below that, so the phase advances by exactly one period. */
    method Wait(tvNsec: nat) returns (sleep: nat)
      requires Valid() && tvNsec < ONE_SECOND
      modifies `tick, `timestamp
      ensures Valid()
      ensures tick == Remainder(old(tick) + period, ONE_SECOND)
      ensures timestamp == Remainder(old(timestamp) + tsDelta, WORD)
      ensures sleep < ONE_SECOND
      ensures Remainder(tvNsec + sleep, ONE_SECOND) == tick
    {
      tick := (tick + period) % WORD;
      if tick >= ONE_SECOND {
        tick := tick - ONE_SECOND;
      }
      timestamp := (timestamp + tsDelta) % WORD;
      var nsec: int := tick - tvNsec;
      if nsec < 0 {
        nsec := nsec + ONE_SECOND;
      }
      sleep := nsec;
    }

    /** One wait that looks at the clock at absolute time `now`, and when it ends. */
    method WaitFrom(now: nat) returns (wake: nat)
      requires Valid()
      modifies `tick, `timestamp
      ensures Valid()
      ensures tick == Remainder(old(tick) + period, ONE_SECOND)
      ensures timestamp == Remainder(old(timestamp) + tsDelta, WORD)
      ensures now <= wake < now + ONE_SECOND && Remainder(wake, ONE_SECOND) == tick
    {
      var sleep := Wait(now % ONE_SECOND);
      RemainderOfSum(now, sleep, ONE_SECOND);
      wake := now + sleep;
    }

    /** A run of waits; clock[i] is the absolute time when wait i looks at the clock. There
        is no cumulative error: after any number of waits, phase and timestamp are what the
        start and the number of waits say, whatever the processing times were. */
    method Run(clock: seq<nat>) returns (wakes: seq<nat>)
      requires Valid()
      modifies `tick, `timestamp
      ensures Valid()
      ensures tick == After(old(tick), period, |clock|, ONE_SECOND)
      ensures timestamp == After(old(timestamp), tsDelta, |clock|, WORD)
      ensures Paced(old(tick), period, clock, wakes)
    {
      wakes := [];
      var i := 0;
      SmallRemainder(tick, ONE_SECOND);
      SmallRemainder(timestamp, WORD);
      while i < |clock|
        invariant 0 <= i <= |clock| && Valid()
        invariant tick == After(old(tick), period, i, ONE_SECOND)
        invariant timestamp == After(old(timestamp), tsDelta, i, WORD)
        invariant Paced(old(tick), period, clock[..i], wakes)
      {
        var wake := WaitFrom(clock[i]);
        PacedSnoc(old(tick), period, clock[..i], wakes, clock[i], wake);
        wakes := wakes + [wake];
        assert clock[..i + 1] == clock[..i] + [clock[i]];
        i := i + 1;
      }
      assert clock[..i] == clock;
    }
  }

  lemma PacedSnoc(tick: nat, period: nat, clock: seq<nat>, wakes: seq<nat>, now: nat, wake: nat)
    requires Paced(tick, period, clock, wakes)
    requires now <= wake < now + ONE_SECOND
    requires Remainder(wake, ONE_SECOND) == After(tick, period, |clock| + 1, ONE_SECOND)
    ensures Paced(tick, period, clock + [now], wakes + [wake])
  {
  }

  lemma DivisionBounds(a: nat, b: nat)
    requires b > 0
    ensures 0 <= a / b <= a
  {
    var q := a / b;
    assert a == q * b + a % b;
    NonNegativeProduct(q, b - 1);
  }

  lemma NonNegativeProduct(x: nat, y: nat)
    ensures x * y >= 0 && x * (y + 1) >= x
  {
  }

  lemma SmallRemainder(a: nat, m: nat)
    requires a < m
    ensures Remainder(a + 0, m) == a
  {
  }

  lemma Distributes(i: nat, x: nat)
    ensures (i + 1) * x == i * x + x
  {
  }

  /** Remainders may be taken early. */
  lemma RemainderOfSum(a: int, b: int, m: nat)
    requires m > 0
    ensures Remainder(Remainder(a, m) + b, m) == Remainder(a + b, m)
  {
    var q := a / m;
    assert a == q * m + a % m;
    ShiftRemainder(a % m + b, q, m);
  }

  lemma ShiftRemainder(x: int, q: int, m: nat)
    requires m > 0
    ensures (x + q * m) % m == x % m
  {
    var d := x / m;
    assert x == d * m + x % m;
    assert x + q * m == (d + q) * m + x % m;
    UniqueRemainder(x + q * m, d + q, x % m, m);
  }

  /** When a wait looks at the clock at `now` and the frame is due at absolute time `due`,
      whose phase is the new tick: the wait ends on time exactly when the frame is not
      late and at most a second early. A late frame waits for the next second. */
  lemma OnTimeIff(now: nat, sleep: nat, due: nat)
    requires sleep < ONE_SECOND
    requires Remainder(now + sleep, ONE_SECOND) == Remainder(due, ONE_SECOND)
    ensures now + sleep == due <==> now <= due < now + ONE_SECOND
    ensures due < now < due + ONE_SECOND ==> now + sleep == due + ONE_SECOND
  {
    var a, b := (now + sleep) / ONE_SECOND, due / ONE_SECOND;
    assert now + sleep - due == (a - b) * ONE_SECOND;
  }

  /** When frame i of a run is due: one period after the one before, from the start on. */
  function Due(start: nat, period: nat, i: nat): nat { start + (i + 1) * period }

  /** What Pacer.Run says of the waits of a run whose phase was `tick` at its start. */
  predicate Paced(tick: nat, period: nat, clock: seq<nat>, wakes: seq<nat>) {
    && |wakes| == |clock|
    && forall i :: 0 <= i < |clock| ==>
         && clock[i] <= wakes[i] < clock[i] + ONE_SECOND
         && Remainder(wakes[i], ONE_SECOND) == After(tick, period, i + 1, ONE_SECOND)
  }

  // The phase of a wait is that of its due time.
  lemma PhaseOfDue(tick: nat, start: nat, period: nat, i: nat)
    requires tick == Remainder(start, ONE_SECOND)
    ensures After(tick, period, i + 1, ONE_SECOND) == Remainder(Due(start, period, i), ONE_SECOND)
  {
    AfterIs(tick, period, i + 1, ONE_SECOND);
    RemainderOfSum(start, (i + 1) * period, ONE_SECOND);
  }

  /** Over a whole run: all frames go out exactly one period apart, from the start on, if and
      only if no frame is late and none is a second or more early when it is waited for. */
  lemma RunOnTimeIff(tick: nat, start: nat, period: nat, clock: seq<nat>, wakes: seq<nat>)
    requires tick == Remainder(start, ONE_SECOND) && Paced(tick, period, clock, wakes)
    ensures (forall i :: 0 <= i < |clock| ==> wakes[i] == Due(start, period, i))
       <==> (forall i :: 0 <= i < |clock| ==> clock[i] <= Due(start, period, i) < clock[i] + ONE_SECOND)
  {
    forall i | 0 <= i < |clock|
      ensures wakes[i] == Due(start, period, i) <==> clock[i] <= Due(start, period, i) < clock[i] + ONE_SECOND
    {
      PhaseOfDue(tick, start, period, i);
      OnTimeIff(clock[i], wakes[i] - clock[i], Due(start, period, i));
    }
  }
}
