/** The boot-loop detector: does the status file show that the server keeps being rebooted
    by its watchdog shortly after it starts? */
module BootLoop {

  datatype StatusCode = NoStatusFile | Internal | ServerInitFailed | ServerStart | CreateFile
                      | NetworkParams | FirmwareFlash | Reboot | WatchdogReboot | Unknown

  /** A parsed line of the status file; the time is in seconds. */
  datatype Entry = Entry(code: StatusCode, time: int)

  const WINDOW: int := 15
  const LOOPS: nat := 3

  /** A start followed by a watchdog reboot less than 15 seconds later. */
  predicate FastPair(start: Entry, reboot: Entry) {
    start.code == ServerStart && reboot.code == WatchdogReboot && reboot.time - start.time < WINDOW
  }

  /** The log without a final start that follows a watchdog reboot. */
  function Settled(log: seq<Entry>): seq<Entry> {
    var n := |log|;
    if n >= 2 && log[n - 1].code == ServerStart && log[n - 2].code == WatchdogReboot
    then log[..n - 1] else log
  }

  /** How many fast pairs the log ends in, one right after the other. */
  function TrailingPairs(log: seq<Entry>): nat {
    var n := |log|;
    if n >= 2 && FastPair(log[n - 2], log[n - 1]) then 1 + TrailingPairs(log[..n - 2]) else 0
  }

  /** The log ends in `k` fast pairs. */
  predicate EndsInPairs(log: seq<Entry>, k: nat) {
    2 * k <= |log|
    && forall i :: 0 <= i < k ==> FastPair(log[|log| - 2 * i - 2], log[|log| - 2 * i - 1])
  }

  lemma {:induction false} TrailingPairsIsLargest(log: seq<Entry>, k: nat)
    ensures EndsInPairs(log, k) <==> k <= TrailingPairs(log)
  {
    var n := |log|;
    if k > 0 && EndsInPairs(log, k) {
      assert FastPair(log[n - 2 * 0 - 2], log[n - 2 * 0 - 1]);
    }
    if k > 0 && n >= 2 && FastPair(log[n - 2], log[n - 1]) {
      var front := log[..n - 2];
      TrailingPairsIsLargest(front, k - 1);
      if EndsInPairs(log, k) {
        forall i | 0 <= i < k - 1 ensures FastPair(front[|front| - 2 * i - 2], front[|front| - 2 * i - 1]) {
          assert FastPair(log[n - 2 * (i + 1) - 2], log[n - 2 * (i + 1) - 1]);
        }
      }
      if EndsInPairs(front, k - 1) {
        forall i | 0 <= i < k ensures FastPair(log[n - 2 * i - 2], log[n - 2 * i - 1]) {
          if i > 0 {
            assert FastPair(front[|front| - 2 * (i - 1) - 2], front[|front| - 2 * (i - 1) - 1]);
          }
        }
      }
    }
  }

  // One more line: what it does to the number of trailing pairs.
  lemma NextLine(log: seq<Entry>, e: Entry)
    ensures TrailingPairs(Settled(log + [e])) ==
            if log != [] && FastPair(log[|log| - 1], e) then TrailingPairs(Settled(log)) + 1
            else if e.code == ServerStart && log != [] && log[|log| - 1].code == WatchdogReboot
            then TrailingPairs(Settled(log))
            else 0
  {
    var n, next := |log|, log + [e];
    if n > 0 && FastPair(log[n - 1], e) {
      assert next[..n - 1] == log[..n - 1];
      if n < 2 || log[n - 2].code != WatchdogReboot {
        // the start does not follow a reboot, so no pair ends before it
        assert TrailingPairs(log[..n - 1]) == 0;
      }
    } else if e.code == ServerStart && n > 0 && log[n - 1].code == WatchdogReboot {
      assert next[..n] == log;
    }
  }

  /** The last six lines, before a final start that follows a reboot, are three times a start of
      the server and a watchdog reboot less than 15 seconds later. */
  predicate Looping(log: seq<Entry>) {
    var n := |log|;
    if n >= 2 && log[n - 2].code == WatchdogReboot && log[n - 1].code == ServerStart
    then LoopsBefore(log, n - 1) else LoopsBefore(log, n)
  }

  predicate LoopsBefore(log: seq<Entry>, n: nat)
    requires n <= |log|
  {
    n >= 6 && forall i :: 1 <= i <= 3 ==>
      && log[n - 2 * i].code == ServerStart && log[n - 2 * i + 1].code == WatchdogReboot
      && log[n - 2 * i + 1].time - log[n - 2 * i].time < 15
  }

  lemma LoopingIff(log: seq<Entry>)
    ensures Looping(log) <==> EndsInPairs(Settled(log), LOOPS)
  {
    var s := Settled(log);
    var n := |s|;
    if Looping(log) {
      forall i | 0 <= i < 3 ensures FastPair(s[n - 2 * i - 2], s[n - 2 * i - 1]) {
        var j := i + 1;
        assert log[n - 2 * j].code == ServerStart;
      }
    }
    if EndsInPairs(s, LOOPS) {
      forall i | 1 <= i <= 3
        ensures log[n - 2 * i].code == ServerStart && log[n - 2 * i + 1].code == WatchdogReboot
        ensures log[n - 2 * i + 1].time - log[n - 2 * i].time < 15
      {
        var j := i - 1;
        assert FastPair(s[n - 2 * j - 2], s[n - 2 * j - 1]);
      }
    }
  }

  /** watchdog_loop: true exactly when the settled log ends in at least three fast pairs. */
  method WatchdogLoop(log: seq<Entry>) returns (looping: bool)
    ensures looping <==> EndsInPairs(Settled(log), LOOPS)
    ensures looping <==> Looping(log)
  {
    var count := 0;
    var prevTime := 0;
    var prevCode := NoStatusFile;
    var i := 0;
    while i < |log|
      invariant 0 <= i <= |log|
      invariant i == 0 ==> prevCode == NoStatusFile
      invariant i > 0 ==> prevCode == log[i - 1].code && prevTime == log[i - 1].time
      invariant count == TrailingPairs(Settled(log[..i]))
    {
      var code, time := log[i].code, log[i].time;
      NextLine(log[..i], log[i]);
      assert log[..i] + [log[i]] == log[..i + 1];
      if code == WatchdogReboot && prevCode == ServerStart && time - prevTime < WINDOW {
        count := count + 1;
      } else if !(code == ServerStart && prevCode == WatchdogReboot) {
        count := 0;
      }
      prevCode := code;
      prevTime := time;
      i := i + 1;
    }
    assert log[..i] == log;
    TrailingPairsIsLargest(Settled(log), LOOPS);
    LoopingIff(log);
    return count >= LOOPS;
  }
}
