/** Numbers as text: how the C library reads an integer with strtol in base 0, and how an
    output stream prints one. */
module NumberText {
  import opened Common

  const DIGITS := "0123456789abcdef"

  predicate IsSpace(c: char) { c == ' ' || '\t' <= c <= '\r' }

  /** The characters isspace accepts in the C locale. */
  lemma SpaceCharacters(c: char)
    ensures IsSpace(c) <==> c in {' ', '\t', '\n', '\U{B}', '\U{C}', '\r'}
  {
  }

  /** The value of a digit; 36 for a character that is none. */
  function DigitValue(c: char): (v: nat)
    ensures v <= 36
  {
    if '0' <= c <= '9' then c as int - '0' as int
    else if 'a' <= c <= 'z' then c as int - 'a' as int + 10
    else if 'A' <= c <= 'Z' then c as int - 'A' as int + 10
    else 36
  }

  predicate IsDigit(c: char, base: nat) { DigitValue(c) < base }

  /** How many leading characters are white space. */
  function Spaces(s: string): (n: nat)
    ensures n <= |s|
  {
    if s == "" || !IsSpace(s[0]) then 0 else 1 + Spaces(s[1..])
  }

  /** How many leading characters are digits in `base`, 2 to 36. */
  function Run(s: string, base: nat): (n: nat)
    ensures n <= |s|
  {
    if s == "" || !IsDigit(s[0], base) then 0 else 1 + Run(s[1..], base)
  }

  function ValueOf(digits: string, base: nat): nat {
    if digits == "" then 0
    else ValueOf(digits[..|digits| - 1], base) * base + DigitValue(digits[|digits| - 1])
  }

  /** Truncation of a long to a 32-bit int in two's complement. */
  function ToInt(v: int): (i: int)
    ensures -0x8000_0000 <= i < 0x8000_0000
    ensures -0x8000_0000 <= v < 0x8000_0000 ==> i == v
    ensures (v - i) % 0x1_0000_0000 == 0
  {
    (v + 0x8000_0000) % 0x1_0000_0000 - 0x8000_0000
  }

  /** The number and how many characters it takes; none when no number stands there. */
  datatype Scan = Scan(value: int, taken: nat)

  /** The nearest number between the two bounds. */
  function Clamp(v: int, low: int, high: int): (r: int)
    requires low <= high
    ensures low <= r <= high && (r < v ==> r == high) && (v < r ==> r == low)
  {
    if v < low then low else if v > high then high else v
  }

  /** strtol(s, &end, 0); a number out of range is clamped to the ends of a long. */
  function Strtol(s: string, longMax: nat): (r: Scan)
    ensures r.taken <= |s|
  {
    var start := Spaces(s);
    var negative := start < |s| && s[start] == '-';
    var signed := negative || (start < |s| && s[start] == '+');
    var n := Unsigned(s[if signed then start + 1 else start..]);
    if n.taken == 0 then Scan(0, 0)
    else
      var v: int := if negative then -n.value else n.value;
      Scan(Clamp(v, -1 - longMax, longMax), (if signed then start + 1 else start) + n.taken)
  }

  /** Digits, with the prefix that chooses their base. */
  function Unsigned(s: string): (r: Scan)
    ensures r.taken <= |s| && r.value >= 0
  {
    if |s| > 2 && s[0] == '0' && (s[1] == 'x' || s[1] == 'X') && IsDigit(s[2], 16) then
      var n := Run(s[2..], 16);
      Scan(ValueOf(s[2..][..n], 16), 2 + n)
    else
      var base := if s != "" && s[0] == '0' then 8 else 10;
      var n := Run(s, base);
      Scan(ValueOf(s[..n], base), n)
  }

  // ------------------------------------------------------------------ printing

  type Base = b: nat | b == 8 || b == 10 || b == 16 witness 10

  function LastDigit(n: nat, base: Base): (d: nat)
    ensures d < base
  {
    if base == 8 then n % 8 else if base == 10 then n % 10 else n % 16
  }

  function WithoutLast(n: nat, base: Base): (m: nat)
    ensures n > 0 ==> m < n
    ensures m == 0 <==> n < base
  {
    if base == 8 then n / 8 else if base == 10 then n / 10 else n / 16
  }

  function DigitChar(d: nat): (c: char)
    requires d < 16
    ensures DigitValue(c) == d
  {
    DIGITS[d]
  }

  /** A number in the digits of a base. */
  function Printed(n: nat, base: Base): (s: string)
    ensures s != "" && (s[0] == '0' <==> n == 0) && forall i :: 0 <= i < |s| ==> IsDigit(s[i], base)
  {
    if n < base then [DigitChar(n)] else Printed(WithoutLast(n, base), base) + [DigitChar(LastDigit(n, base))]
  }

  /** What an output stream prints for an unsigned number. */
  function Decimal(n: nat): (s: string)
    ensures s != "" && (s[0] == '0' <==> n == 0) && forall i :: 0 <= i < |s| ==> IsDigit(s[i], 10)
  {
    Printed(n, 10)
  }

  lemma DigitsMakeNumber(n: nat, base: Base)
    ensures WithoutLast(n, base) * base + LastDigit(n, base) == n
  {
    if base == 8 { assert n == n / 8 * 8 + n % 8; }
    else if base == 10 { assert n == n / 10 * 10 + n % 10; }
    else { assert n == n / 16 * 16 + n % 16; }
  }

  // One digit more.
  lemma PrintedSnoc(n: nat, base: Base, init: string, m: nat, d: nat)
    requires d < base && n == m * base + d && ValueOf(init, base) == m
    ensures ValueOf(init + [DigitChar(d)], base) == n
  {
    ValueOfSnoc(init, DigitChar(d), base);
  }

  lemma {:induction false} PrintedValue(n: nat, base: Base)
    ensures ValueOf(Printed(n, base), base) == n
  {
    if n < base {
      PrintedSnoc(n, base, "", 0, n);
      assert Printed(n, base) == "" + [DigitChar(n)];
    } else {
      var m := WithoutLast(n, base);
      PrintedValue(m, base);
      DigitsMakeNumber(n, base);
      PrintedSnoc(n, base, Printed(m, base), m, LastDigit(n, base));
    }
  }

  lemma ValueOfSnoc(digits: string, c: char, base: nat)
    ensures ValueOf(digits + [c], base) == ValueOf(digits, base) * base + DigitValue(c)
  {
    assert (digits + [c])[..|digits|] == digits;
  }

  lemma {:induction false} ValueOfZero(digits: string, base: nat)
    ensures ValueOf("0" + digits, base) == ValueOf(digits, base)
  {
    if digits == "" {
      assert "0" + digits == "" + "0";
      ValueOfSnoc("", '0', base);
    } else {
      var init, c := digits[..|digits| - 1], digits[|digits| - 1];
      assert "0" + digits == ("0" + init) + [c];
      ValueOfSnoc("0" + init, c, base);
      ValueOfZero(init, base);
    }
  }

  /** Letters count as digits in either case. */
  lemma DigitsOf(c: char, v: nat)
    requires v < 16
    ensures DigitValue(c) == v <==> c == DIGITS[v] || c == "0123456789ABCDEF"[v]
  {
  }

  // ---------------------------------------------------------------- round trip

  /** A number may be written with leading white space and a sign, and in three notations. */
  datatype Sign = Bare | Plus | Minus

  function SignText(sign: Sign): string {
    match sign case Bare => "" case Plus => "+" case Minus => "-"
  }

  function Signed(sign: Sign, n: nat): int { if sign == Minus then 0 - n else n }

  datatype Notation = Plain | Octal | Hex(upper: bool)

  datatype Numeral = Numeral(pad: string, sign: Sign, notation: Notation, n: nat) {
    function Prefix(): string {
      match notation case Plain => "" case Octal => "0" case Hex(upper) => if upper then "0X" else "0x"
    }

    function NotationBase(): Base {
      match notation case Plain => 10 case Octal => 8 case Hex(_) => 16
    }

    function Digits(): string { Prefix() + Printed(n, NotationBase()) }

    function Text(): string { pad + (SignText(sign) + Digits()) }
  }

  predicate AllSpace(s: string) { forall i :: 0 <= i < |s| ==> IsSpace(s[i]) }

  /** What stands behind a number in a list. */
  predicate Ends(rest: string) { rest == "" || rest[0] == ',' }

  /** Neither a digit nor a letter stands behind the number. */
  predicate Stops(rest: string) { rest == "" || !IsDigit(rest[0], 36) }

  lemma {:induction false} RunOfDigits(digits: string, rest: string, base: Base)
    requires (forall i :: 0 <= i < |digits| ==> IsDigit(digits[i], base)) && Stops(rest)
    ensures Run(digits + rest, base) == |digits|
  {
    if digits == "" {
      assert digits + rest == rest;
    } else {
      RunOfDigits(digits[1..], rest, base);
      assert (digits + rest)[1..] == digits[1..] + rest;
    }
  }

  lemma {:induction false} SpacesBefore(pad: string, rest: string)
    requires AllSpace(pad) && (rest == "" || !IsSpace(rest[0]))
    ensures Spaces(pad + rest) == |pad|
  {
    if pad == "" {
      assert pad + rest == rest;
    } else {
      SpacesBefore(pad[1..], rest);
      assert (pad + rest)[1..] == pad[1..] + rest;
    }
  }

  lemma ReadsPlain(n: nat, rest: string)
    requires Stops(rest)
    ensures Unsigned(Printed(n, 10) + rest) == Scan(n, |Printed(n, 10)|)
  {
    var s := Printed(n, 10) + rest;
    assert s[0] == Printed(n, 10)[0];
    if n == 0 {
      assert s == "0" + rest && Printed(0, 8) == "0";
      RunOfDigits("0", rest, 8);
      PrintedValue(0, 8);
      assert s[..1] == "0";
    } else {
      RunOfDigits(Printed(n, 10), rest, 10);
      PrintedValue(n, 10);
      assert s[..|Printed(n, 10)|] == Printed(n, 10);
    }
  }

  lemma ReadsOctal(n: nat, rest: string)
    requires Stops(rest)
    ensures Unsigned("0" + Printed(n, 8) + rest) == Scan(n, 1 + |Printed(n, 8)|)
  {
    var digits := "0" + Printed(n, 8);
    var s := digits + rest;
    assert s[0] == '0' && s[1] == Printed(n, 8)[0];
    RunOfDigits(digits, rest, 8);
    PrintedValue(n, 8);
    ValueOfZero(Printed(n, 8), 8);
    assert s[..|digits|] == digits;
  }

  lemma ReadsHex(n: nat, x: char, rest: string)
    requires Stops(rest) && (x == 'x' || x == 'X')
    ensures Unsigned(['0', x] + Printed(n, 16) + rest) == Scan(n, 2 + |Printed(n, 16)|)
  {
    var digits := Printed(n, 16);
    var s := ['0', x] + digits + rest;
    assert s[0] == '0' && s[1] == x && s[2] == digits[0];
    assert s[2..] == digits + rest;
    RunOfDigits(digits, rest, 16);
    PrintedValue(n, 16);
    assert s[2..][..|digits|] == digits;
  }

  lemma ReadsDigits(num: Numeral, rest: string)
    requires Stops(rest)
    ensures Unsigned(num.Digits() + rest) == Scan(num.n, |num.Digits()|)
    ensures IsDigit(num.Digits()[0], 10)
  {
    match num.notation {
      case Plain =>
        assert num.Digits() == Printed(num.n, 10);
        ReadsPlain(num.n, rest);
      case Octal => ReadsOctal(num.n, rest);
      case Hex(upper) =>
        assert num.Prefix() == ['0', if upper then 'X' else 'x'];
        ReadsHex(num.n, if upper then 'X' else 'x', rest);
    }
  }

  // Behind white space strtol reads the digits ...
  lemma BehindSpace(pad: string, digits: string, rest: string, n: nat, longMax: nat)
    requires AllSpace(pad) && digits != "" && IsDigit(digits[0], 10)
    requires Unsigned(digits + rest) == Scan(n, |digits|)
    ensures Strtol(pad + (digits + rest), longMax) == Scan(Clamp(n, -1 - longMax, longMax), |pad| + |digits|)
  {
    var s := pad + (digits + rest);
    assert (digits + rest)[0] == digits[0];
    SpacesBefore(pad, digits + rest);
    assert s[|pad|] == digits[0] && s[|pad|..] == digits + rest;
  }

  // ... and behind a sign.
  lemma BehindSign(pad: string, sign: Sign, digits: string, rest: string, n: nat, longMax: nat)
    requires AllSpace(pad) && sign != Bare && digits != ""
    requires Unsigned(digits + rest) == Scan(n, |digits|)
    ensures Strtol(pad + (SignText(sign) + (digits + rest)), longMax) ==
            Scan(Clamp(Signed(sign, n), -1 - longMax, longMax), |pad| + 1 + |digits|)
  {
    var behind := SignText(sign) + (digits + rest);
    var s := pad + behind;
    assert behind[0] == SignText(sign)[0];
    SpacesBefore(pad, behind);
    assert s[|pad|] == behind[0] && s[|pad| + 1..] == digits + rest;
  }

  /** Reading a number that was written gives it back, clamped to the ends of a long, and stops
      right behind it: with any white space, sign and notation. */
  lemma ReadsBack(num: Numeral, rest: string, longMax: nat)
    requires AllSpace(num.pad) && Stops(rest)
    ensures Strtol(num.Text() + rest, longMax) ==
            Scan(Clamp(Signed(num.sign, num.n), -1 - longMax, longMax), |num.Text()|)
  {
    ReadsDigits(num, rest);
    Regrouped(num.pad, SignText(num.sign), num.Digits(), rest);
    if num.sign == Bare {
      assert SignText(num.sign) + (num.Digits() + rest) == num.Digits() + rest;
      BehindSpace(num.pad, num.Digits(), rest, num.n, longMax);
    } else {
      BehindSign(num.pad, num.sign, num.Digits(), rest, num.n, longMax);
    }
  }

  lemma Regrouped(a: string, b: string, c: string, d: string)
    ensures a + (b + c) + d == a + (b + (c + d))
  {
  }

  /** Where no digit stands behind white space and a sign, there is no number. */
  lemma NoNumber(pad: string, sign: Sign, rest: string, longMax: nat)
    requires AllSpace(pad) && (rest == "" || !IsDigit(rest[0], 10))
    requires sign == Bare ==> rest == "" || (!IsSpace(rest[0]) && rest[0] != '+' && rest[0] != '-')
    ensures Strtol(pad + SignText(sign) + rest, longMax) == Scan(0, 0)
  {
    var text := SignText(sign);
    var s := pad + text + rest;
    assert s == pad + (text + rest);
    SpacesBefore(pad, text + rest);
    if sign == Bare {
      assert s[|pad|..] == rest;
    } else {
      assert s[|pad|] == text[0] && s[|pad| + 1..] == rest;
    }
  }
}
