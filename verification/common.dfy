/** What several models share: bytes, 32-bit words, strchr, and remainders. */
module Common {

  type Byte = b: int | 0 <= b < 256

  const WORD: nat := 0x1_0000_0000

  /** Position of the first `c`, or the length of `s`. */
  function IndexOf(s: string, c: char): (i: nat)
    ensures i <= |s| && (i < |s| ==> s[i] == c) && forall k :: 0 <= k < i ==> s[k] != c
  {
    if s == "" || s[0] == c then 0 else 1 + IndexOf(s[1..], c)
  }

  lemma MultipleIsFar(d: int, m: int)
    requires m >= 0
    ensures d >= 1 ==> d * m >= m
    ensures d <= -1 ==> d * m <= -m
  {
  }

  lemma UniqueRemainder(y: int, k: int, r: nat, m: nat)
    requires m > 0 && y == k * m + r && r < m
    ensures y % m == r
  {
    var k', r' := y / m, y % m;
    assert (k - k') * m == r' - r;
    MultipleIsFar(k - k', m);
  }
}
