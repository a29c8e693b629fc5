/** Regions of interest: rectangles are read from a comma-separated list of corners, snapped
    to a grid of 32 pixels, and printed back into a string parameter that the state file
    keeps. */
module Regions {
  import opened Common
  import opened NumberText
  import opened Wrappers

  const ROUND: nat := 32
  const WIDTH: nat := 1920
  const HEIGHT: nat := 1080

  datatype Error = ErrorReading | InvalidValue | NotMultipleOfFour

  datatype Rect = Rect(x: nat, y: nat, w: nat, h: nat) {
    function X1(): nat { x + w }

    function Y1(): nat { y + h }

    predicate Intersects(r: Rect) {
      x <= r.X1() && r.x <= X1() && y <= r.Y1() && r.y <= Y1()
    }

    /** The point is in the rectangle or on its border. */
    predicate Covers(px: nat, py: nat) {
      x <= px <= X1() && y <= py <= Y1()
    }
  }

  /** The test means what it says: there is a common point, borders included. */
  lemma IntersectsIff(a: Rect, b: Rect)
    ensures a.Intersects(b) <==> exists px, py :: a.Covers(px, py) && b.Covers(px, py)
    ensures a.Intersects(b) <==> b.Intersects(a)
  {
    if a.Intersects(b) {
      var px, py := Max(a.x, b.x), Max(a.y, b.y);
      assert a.Covers(px, py) && b.Covers(px, py);
    }
  }

  function Min(a: nat, b: nat): nat { if a < b then a else b }

  function Max(a: nat, b: nat): nat { if a < b then b else a }

  // ------------------------------------------------------------------- parsing

  datatype Float = Float(value: real, taken: nat)

  /** What the C library contributes: the largest long, and strtof. */
  datatype Libc = Libc(longMax: nat, strtof: string -> Float) {
    predicate Works() { longMax >= 0x7FFF_FFFF }

    /** strtof never goes past the end of the string. */
    function Fraction(s: string): (f: Float)
      ensures f.taken <= |s|
    {
      var f := strtof(s);
      Float(f.value, Min(f.taken, |s|))
    }
  }

  type Limit = n: nat | n == WIDTH || n == HEIGHT witness WIDTH

  /** int(data * range) */
  function Scaled(data: real, range: Limit): (n: nat)
    requires 0.0 <= data <= 1.0
    ensures n <= range && n as real <= data * (range as real) < n as real + 1.0
  {
    if range == WIDTH then (data * 1920.0).Floor else (data * 1080.0).Floor
  }

  datatype Point = Point(data: nat, taken: nat)

  /** Coordinates alternate: even ones are horizontal. */
  function Range(i: nat): Limit { if i % 2 == 1 then HEIGHT else WIDTH }

  function ReadPoint(libc: Libc, value: string, range: Limit): (r: Result<Point, Error>)
    ensures r.Ok? ==> 0 < r.value.taken <= |value| && r.value.data <= range
  {
    if value != "" && value[0] == ' ' then Err(ErrorReading)
    else if IndexOf(value, '.') < IndexOf(value, ',') then
      var f := libc.Fraction(value);
      if f.value < 0.0 || f.value > 1.0 then Err(InvalidValue)
      else if f.taken == 0 || !Ends(value[f.taken..]) then Err(ErrorReading)
      else
        Ok(Point(Scaled(f.value, range), f.taken))
    else
      var n := Strtol(value, libc.longMax);
      var data := ToInt(n.value);
      if data < 0 || data > range then Err(InvalidValue)
      else if n.taken == 0 || !Ends(value[n.taken..]) then Err(ErrorReading)
      else Ok(Point(data, n.taken))
  }

  /** The text behind a coordinate and its comma. */
  function Behind(value: string, taken: nat): (rest: string)
    requires taken <= |value|
    ensures taken > 0 ==> |rest| < |value|
  {
    if taken < |value| then value[taken + 1..] else ""
  }

  /** A whole number of rectangles. */
  predicate Fours(n: nat) { n % 4 == 0 }

  function Finish(points: seq<nat>): Result<seq<nat>, Error> {
    if Fours(|points|) then Ok(points) else Err(NotMultipleOfFour)
  }

  /** read_points, with `points` already read. */
  function PointsOf(libc: Libc, value: string, points: seq<nat>): (r: Result<seq<nat>, Error>)
    ensures r.Ok? ==> Fours(|r.value|)
    decreases |value|
  {
    match ReadPoint(libc, value, Range(|points|))
    case Err(e) => Err(e)
    case Ok(p) =>
      if Behind(value, p.taken) != "" then PointsOf(libc, Behind(value, p.taken), points + [p.data])
      else Finish(points + [p.data])
  }

  // ------------------------------------------------------------------ snapping

  /** v & ~(ROUND - 1) */
  function RoundDown(v: nat): nat { v - v % ROUND }

  function Distance(a: nat, b: nat): nat { if a < b then b - a else a - b }

  function Snap(x0: nat, y0: nat, x1: nat, y1: nat): Rect {
    Rect(RoundDown(Min(x0, x1)), RoundDown(Min(y0, y1)),
         RoundDown(Distance(x0, x1) + ROUND - 1), RoundDown(Distance(y0, y1) + ROUND - 1))
  }

  function Rects(points: seq<nat>): seq<Rect>
    requires Fours(|points|)
  {
    if points == [] then []
    else [Snap(points[0], points[1], points[2], points[3])] + Rects(points[4..])
  }

  // One turn of a loop over `points`.
  lemma RectsNext(points: seq<nat>, i: nat)
    requires i < |points| && Fours(|points|) && Fours(i)
    ensures i + 4 <= |points| && Fours(i + 4)
    ensures Rects(points[i..])
         == [Snap(points[i], points[i + 1], points[i + 2], points[i + 3])] + Rects(points[i + 4..])
  {
    assert points[i..][4..] == points[i + 4..];
  }

  /** read_rects: the rectangles a text stands for; None is the null pointer. */
  function Parse(libc: Libc, value: Option<string>): Result<seq<Rect>, Error> {
    match value
    case None => Err(ErrorReading)
    case Some(v) =>
      match PointsOf(libc, v, [])
      case Err(e) => Err(e)
      case Ok(points) => Ok(Rects(points))
  }

  /** One side of a snapped rectangle, for two corners in either order: its start is the last
      line of the grid at or before both, its length the distance rounded up to the grid. */
  predicate Side(low: nat, size: nat, a: nat, b: nat) {
    var gap := if a < b then b - a else a - b;
    && low % 32 == 0 && low <= a && low <= b && (a < low + 32 || b < low + 32)
    && size % 32 == 0 && gap <= size < gap + 32
  }

  /** Snapping means exactly this. */
  lemma SnapIff(r: Rect, x0: nat, y0: nat, x1: nat, y1: nat)
    ensures r == Snap(x0, y0, x1, y1) <==> Side(r.x, r.w, x0, x1) && Side(r.y, r.h, y0, y1)
  {
    SideIff(r.x, r.w, x0, x1);
    SideIff(r.y, r.h, y0, y1);
  }

  lemma SideIff(low: nat, size: nat, a: nat, b: nat)
    ensures low == RoundDown(Min(a, b)) && size == RoundDown(Distance(a, b) + ROUND - 1) <==> Side(low, size, a, b)
  {
  }

  /** A snapped side starts and ends less than a cell off the two corners, inside the range
      rounded up, and is empty only if they are the same. */
  lemma SideBounds(low: nat, size: nat, a: nat, b: nat, range: nat)
    requires Side(low, size, a, b) && a <= range && b <= range
    ensures -32 < low + size - (if a < b then b else a) < 32
    ensures low + size <= (range + 31) / 32 * 32
    ensures size == 0 <==> a == b
  {
  }

  /** It reaches the larger end exactly if the offset of the smaller end in its cell is no more
      than what rounding the length up adds. */
  lemma SideReachesIff(low: nat, size: nat, a: nat, b: nat)
    requires Side(low, size, a, b) && a <= b
    ensures low + size >= b <==> a % 32 <= size - (b - a)
  {
  }

  /** What every rectangle made from accepted points satisfies. */
  ghost predicate OnGrid(r: Rect) {
    && r.x % ROUND == 0 && r.y % ROUND == 0 && r.w % ROUND == 0 && r.h % ROUND == 0
    && r.X1() <= WIDTH && r.Y1() <= 1088
  }

  ghost predicate AllOnGrid(rects: seq<Rect>) {
    forall i :: 0 <= i < |rects| ==> OnGrid(rects[i])
  }

  ghost predicate InRange(points: seq<nat>) {
    forall i :: 0 <= i < |points| ==> points[i] <= Range(i)
  }

  lemma {:induction false} AcceptedPoints(libc: Libc, value: string, points: seq<nat>)
    requires InRange(points)
    ensures var r := PointsOf(libc, value, points);
      r.Ok? ==> InRange(r.value) && Fours(|r.value|)
    decreases |value|
  {
    var p := ReadPoint(libc, value, Range(|points|));
    if p.Ok? && Behind(value, p.value.taken) != "" {
      AcceptedPoints(libc, Behind(value, p.value.taken), points + [p.value.data]);
    }
  }

  lemma SnapIsOnGrid(r: Rect, x0: nat, y0: nat, x1: nat, y1: nat)
    requires x0 <= WIDTH && x1 <= WIDTH && y0 <= HEIGHT && y1 <= HEIGHT && r == Snap(x0, y0, x1, y1)
    ensures OnGrid(r)
  {
    SnapIff(r, x0, y0, x1, y1);
    SideBounds(r.x, r.w, x0, x1, WIDTH);
    SideBounds(r.y, r.h, y0, y1, HEIGHT);
  }

  /** Everything a text is read as lies on the grid, inside 1920 by 1088. */
  lemma {:induction false} RectsAreOnGrid(points: seq<nat>)
    requires Fours(|points|) && InRange(points)
    ensures AllOnGrid(Rects(points))
  {
    if points != [] {
      assert points[0] <= Range(0) && points[1] <= Range(1) && points[2] <= Range(2) && points[3] <= Range(3);
      SnapIsOnGrid(Rects(points)[0], points[0], points[1], points[2], points[3]);
      forall i | 0 <= i < |points| - 4 ensures points[4..][i] <= Range(i) {
        assert points[i + 4] <= Range(i + 4) && (i + 4) % 2 == i % 2;
      }
      RectsAreOnGrid(points[4..]);
    }
  }

  lemma ParsedIsOnGrid(libc: Libc, value: Option<string>)
    ensures var r := Parse(libc, value); r.Ok? ==> AllOnGrid(r.value)
  {
    if value.Some? {
      AcceptedPoints(libc, value.value, []);
      var points := PointsOf(libc, value.value, []);
      if points.Ok? { RectsAreOnGrid(points.value); }
    }
  }

  // ------------------------------------------------------------------ printing

  function Corners(r: Rect): string {
    Decimal(r.x) + "," + Decimal(r.y) + "," + Decimal(r.X1()) + "," + Decimal(r.Y1())
  }

  /** write_rects */
  function Print(rects: seq<Rect>): string {
    if rects == [] then ""
    else if |rects| == 1 then Corners(rects[0])
    else Print(rects[..|rects| - 1]) + "," + Corners(rects[|rects| - 1])
  }

  // One turn of a loop over `rects`.
  lemma PrintNext(rects: seq<Rect>, i: nat)
    requires i < |rects|
    ensures Print(rects[..i + 1]) == (if i != 0 then Print(rects[..i]) + "," else "") + Corners(rects[i])
  {
    var more := rects[..i + 1];
    assert more[..|more| - 1] == rects[..i] && more[|more| - 1] == rects[i];
    if i == 0 { assert "" + Corners(rects[i]) == Corners(rects[i]); }
  }

  function Coordinates(rects: seq<Rect>): (points: seq<nat>)
    ensures |points| == 4 * |rects| && Fours(|points|)
  {
    if rects == [] then []
    else [rects[0].x, rects[0].y, rects[0].X1(), rects[0].Y1()] + Coordinates(rects[1..])
  }

  /** The points, printed and separated by commas. */
  function Text(points: seq<nat>): string {
    if points == [] then ""
    else if |points| == 1 then Decimal(points[0])
    else Decimal(points[0]) + ("," + Text(points[1..]))
  }

  lemma {:induction false} TextOfConcat(a: seq<nat>, b: seq<nat>)
    requires a != [] && b != []
    ensures Text(a + b) == Text(a) + "," + Text(b)
  {
    assert (a + b)[1..] == a[1..] + b;
    if |a| > 1 {
      TextOfConcat(a[1..], b);
    } else {
      assert a[1..] + b == b;
    }
  }

  lemma TextOfSnoc(a: seq<nat>, n: nat)
    requires a != []
    ensures Text(a + [n]) == Text(a) + "," + Decimal(n)
  {
    TextOfConcat(a, [n]);
  }

  lemma TextOfCorners(a: nat, b: nat, c: nat, d: nat)
    ensures Text([a, b, c, d]) == Decimal(a) + "," + Decimal(b) + "," + Decimal(c) + "," + Decimal(d)
  {
    calc {
      Text([a, b, c, d]);
      { assert [a, b, c, d] == [a, b, c] + [d]; TextOfSnoc([a, b, c], d); }
      Text([a, b, c]) + "," + Decimal(d);
      { assert [a, b, c] == [a, b] + [c]; TextOfSnoc([a, b], c); }
      Text([a, b]) + "," + Decimal(c) + "," + Decimal(d);
      { assert [a, b] == [a] + [b]; TextOfSnoc([a], b); }
      Decimal(a) + "," + Decimal(b) + "," + Decimal(c) + "," + Decimal(d);
    }
  }

  lemma {:induction false} CoordinatesSnoc(rects: seq<Rect>, r: Rect)
    ensures Coordinates(rects + [r]) == Coordinates(rects) + [r.x, r.y, r.X1(), r.Y1()]
  {
    if rects == [] {
      assert [r][1..] == [];
    } else {
      assert (rects + [r])[1..] == rects[1..] + [r];
      CoordinatesSnoc(rects[1..], r);
    }
  }

  lemma {:induction false} PrintIsText(rects: seq<Rect>)
    ensures Print(rects) == Text(Coordinates(rects))
  {
    if rects != [] {
      var before, r := rects[..|rects| - 1], rects[|rects| - 1];
      assert rects == before + [r];
      CoordinatesSnoc(before, r);
      TextOfCorners(r.x, r.y, r.X1(), r.Y1());
      if before == [] {
        assert Coordinates(before) + [r.x, r.y, r.X1(), r.Y1()] == [r.x, r.y, r.X1(), r.Y1()];
      } else {
        PrintIsText(before);
        TextOfConcat(Coordinates(before), [r.x, r.y, r.X1(), r.Y1()]);
      }
    }
  }

  // ------------------------------------------------------------ what texts mean

  // No comma and no dot stand in the text, and a comma before any dot behind it.
  lemma {:induction false} DotBehind(text: string, rest: string)
    requires ',' !in text && '.' !in text && Ends(rest)
    ensures IndexOf(text + rest, ',') == |text| <= IndexOf(text + rest, '.')
  {
    if text == "" {
      assert text + rest == rest;
    } else {
      DotBehind(text[1..], rest);
      assert (text + rest)[1..] == text[1..] + rest;
    }
  }

  lemma DigitIsNoMark(c: char)
    requires IsDigit(c, 36) || IsSpace(c) || c == '+' || c == '-'
    ensures c != ',' && c != '.'
  {
  }

  lemma NumeralMarks(num: Numeral)
    requires AllSpace(num.pad)
    ensures ',' !in num.Text() && '.' !in num.Text()
  {
    forall c | c in num.Text() ensures c != ',' && c != '.' {
      if c in num.pad || c in Printed(num.n, num.NotationBase()) { DigitIsNoMark(c); }
    }
  }

  // strtol on a coordinate.
  lemma NumberScan(libc: Libc, num: Numeral, rest: string, value: string)
    requires Blankless(num.pad) && Stops(rest) && value == num.Text() + rest
    ensures value != "" && value[0] != ' ' && value[|num.Text()|..] == rest
    ensures ToInt(Strtol(value, libc.longMax).value) == Kept(libc, num)
    ensures Strtol(value, libc.longMax).taken == |num.Text()| > 0
  {
    ReadsBack(num, rest, libc.longMax);
    NumeralBegins(num);
    assert value[0] == num.Text()[0];
  }

  /** A number as a coordinate, in any notation, with sign and with white space other than a
      leading blank: what a 32-bit int keeps of it has to be in range, and a comma has to follow,
      or nothing. */
  lemma NumberStands(libc: Libc, num: Numeral, rest: string, range: Limit)
    requires Blankless(num.pad) && Stops(rest)
    requires IndexOf(num.Text() + rest, ',') <= IndexOf(num.Text() + rest, '.')
    ensures ReadPoint(libc, num.Text() + rest, range) ==
            if !(0 <= Kept(libc, num) <= range) then Err(InvalidValue)
            else if Ends(rest) then Ok(Point(Kept(libc, num), |num.Text()|))
            else Err(ErrorReading)
  {
    NumberScan(libc, num, rest, num.Text() + rest);
  }

  lemma NumberReads(libc: Libc, num: Numeral, rest: string, range: Limit)
    requires Blankless(num.pad) && Ends(rest)
    ensures ReadPoint(libc, num.Text() + rest, range) ==
            if 0 <= Kept(libc, num) <= range then Ok(Point(Kept(libc, num), |num.Text()|)) else Err(InvalidValue)
  {
    NumeralMarks(num);
    DotBehind(num.Text(), rest);
    NumberStands(libc, num, rest, range);
  }

  predicate Blankless(pad: string) { AllSpace(pad) && (pad == "" || pad[0] != ' ') }

  lemma NumeralBegins(num: Numeral)
    requires Blankless(num.pad)
    ensures num.Text() != "" && num.Text()[0] != ' '
  {
    if num.pad == "" && num.sign == Bare {
      ReadsDigits(num, "");
      assert num.Text()[0] == num.Digits()[0];
    }
  }

  /** strtol into an int: clamped to a long, then cut to 32 bits. */
  function Kept(libc: Libc, num: Numeral): (i: int)
    ensures libc.Works() && num.n < 0x8000_0000 ==> i == Signed(num.sign, num.n)
  {
    ToInt(Clamp(Signed(num.sign, num.n), -1 - libc.longMax, libc.longMax))
  }

  // ---------------------------------------------------------------- round trip

  lemma PointReadsBack(libc: Libc, n: nat, rest: string, range: Limit)
    requires libc.Works() && n < 0x8000_0000 && Ends(rest)
    ensures ReadPoint(libc, Decimal(n) + rest, range) ==
            if n <= range then Ok(Point(n, |Decimal(n)|)) else Err(InvalidValue)
  {
    var num := Numeral("", Bare, Plain, n);
    assert num.Text() == Decimal(n);
    NumberReads(libc, num, rest, range);
  }

  // One turn of the loop over printed points.
  lemma ReadStep(libc: Libc, n: nat, rest: string, before: seq<nat>)
    requires libc.Works() && n < 0x8000_0000 && Ends(rest) && rest != ","
    ensures PointsOf(libc, Decimal(n) + rest, before) ==
            if n > Range(|before|) then Err(InvalidValue)
            else if rest != "" then PointsOf(libc, rest[1..], before + [n])
            else Finish(before + [n])
  {
    PointReadsBack(libc, n, rest, Range(|before|));
    if rest != "" {
      assert (Decimal(n) + rest)[|Decimal(n)| + 1..] == rest[1..];
    }
  }

  /** The points fit the picture when they are read from position `at` on. */
  ghost predicate Fit(points: seq<nat>, at: nat) {
    points == [] || (points[0] <= Range(at) && Fit(points[1..], at + 1))
  }

  lemma {:induction false} TextReadsBack(libc: Libc, points: seq<nat>, before: seq<nat>)
    requires libc.Works() && |points| > 0
    requires forall i :: 0 <= i < |points| ==> points[i] < 0x8000_0000
    ensures PointsOf(libc, Text(points), before) ==
            if Fit(points, |before|) then Finish(before + points) else Err(InvalidValue)
    decreases |points|
  {
    var n, more := points[0], points[1..];
    assert before + points == before + [n] + more;
    if |points| == 1 {
      ReadStep(libc, n, "", before);
      assert Decimal(n) + "" == Text(points);
      assert before + points == before + [n];
    } else {
      var rest := "," + Text(more);
      assert Text(more) != "" by { assert Text(more)[0] == Decimal(more[0])[0]; }
      ReadStep(libc, n, rest, before);
      assert rest[1..] == Text(more);
      if n <= Range(|before|) {
        TextReadsBack(libc, more, before + [n]);
      }
    }
  }

  lemma {:induction false} FitConcat(a: seq<nat>, b: seq<nat>, at: nat)
    ensures Fit(a + b, at) <==> Fit(a, at) && Fit(b, at + |a|)
  {
    if a == [] {
      assert a + b == b;
    } else {
      FitConcat(a[1..], b, at + 1);
      assert (a + b)[1..] == a[1..] + b;
    }
  }

  /** A rectangle whose lower edge is inside the picture. */
  predicate Low(r: Rect) { r.Y1() <= HEIGHT }

  ghost predicate AllLow(rects: seq<Rect>) {
    forall i :: 0 <= i < |rects| ==> Low(rects[i])
  }

  /** Snapping a rectangle of the grid again leaves it as it is. */
  lemma SnapIsIdempotent(r: Rect)
    requires OnGrid(r)
    ensures Snap(r.x, r.y, r.X1(), r.Y1()) == r
  {
  }

  lemma {:induction false} RectsOfCoordinates(rects: seq<Rect>)
    requires AllOnGrid(rects)
    ensures Rects(Coordinates(rects)) == rects
  {
    if rects != [] {
      SnapIsIdempotent(rects[0]);
      RectsOfCoordinates(rects[1..]);
      assert Coordinates(rects)[4..] == Coordinates(rects[1..]);
    }
  }

  lemma FitOfCorners(a: nat, b: nat, c: nat, d: nat, at: nat)
    requires at % 2 == 0
    ensures Fit([a, b, c, d], at) <==> a <= WIDTH && b <= HEIGHT && c <= WIDTH && d <= HEIGHT
  {
    assert [a, b, c, d][1..] == [b, c, d] && [b, c, d][1..] == [c, d] && [c, d][1..] == [d] && [d][1..] == [];
    assert Fit([d], at + 3) <==> d <= HEIGHT;
    assert Fit([c, d], at + 2) <==> c <= WIDTH && d <= HEIGHT;
  }

  lemma {:induction false} CoordinatesFit(rects: seq<Rect>, at: nat)
    requires AllOnGrid(rects) && at % 2 == 0
    ensures Fit(Coordinates(rects), at) <==> AllLow(rects)
    ensures forall i :: 0 <= i < |Coordinates(rects)| ==> Coordinates(rects)[i] < 0x8000_0000
  {
    if rects != [] {
      var r, more := rects[0], Coordinates(rects[1..]);
      CoordinatesFit(rects[1..], at + 4);
      FitConcat([r.x, r.y, r.X1(), r.Y1()], more, at);
      FitOfCorners(r.x, r.y, r.X1(), r.Y1(), at);
      AllLowCons(rects);
    }
  }

  lemma AllLowCons(rects: seq<Rect>)
    requires rects != []
    ensures AllLow(rects) <==> Low(rects[0]) && AllLow(rects[1..])
  {
    if Low(rects[0]) && AllLow(rects[1..]) {
      forall i | 0 <= i < |rects| ensures Low(rects[i]) {
        if i > 0 { assert Low(rects[1..][i - 1]); }
      }
    }
  }

  // The points of a text are what it is parsed from.
  lemma ParsePoints(libc: Libc, text: string, points: seq<nat>, rects: seq<Rect>)
    requires libc.Works() && |points| > 0 && Fours(|points|)
    requires text == Text(points) && rects == Rects(points)
    requires forall i :: 0 <= i < |points| ==> points[i] < 0x8000_0000
    ensures Parse(libc, Some(text)) == if Fit(points, 0) then Ok(rects) else Err(InvalidValue)
  {
    TextReadsBack(libc, points, []);
    assert [] + points == points;
  }

  /** Print and parse: a non-empty list of rectangles of the grid is read back unchanged if
      every lower edge is inside the picture, and refused otherwise. */
  lemma RoundTrip(libc: Libc, rects: seq<Rect>)
    requires libc.Works() && rects != [] && AllOnGrid(rects)
    ensures Parse(libc, Some(Print(rects))) == if AllLow(rects) then Ok(rects) else Err(InvalidValue)
  {
    PrintIsText(rects);
    RectsOfCoordinates(rects);
    CoordinatesFit(rects, 0);
    ParsePoints(libc, Print(rects), Coordinates(rects), rects);
  }

  /** The text of the empty list is refused. */
  lemma EmptyIsRefused(libc: Libc)
    ensures Parse(libc, Some(Print([]))) == Err(ErrorReading)
  {
  }

  lemma SnapsTo(x0: nat, y0: nat, x1: nat, y1: nat)
    ensures Rects([x0, y0, x1, y1]) == [Snap(x0, y0, x1, y1)]
  {
    assert [x0, y0, x1, y1][4..] == [] && Rects([]) == [];
  }

  /** The whole picture is accepted, but its snapped rectangle cannot be read back. */
  lemma FullPicture(libc: Libc)
    requires libc.Works()
    ensures Parse(libc, Some(Text([0, 0, WIDTH, HEIGHT]))) == Ok([Rect(0, 0, 1920, 1088)])
    ensures Parse(libc, Some(Print([Rect(0, 0, 1920, 1088)]))) == Err(InvalidValue)
  {
    var whole := [Rect(0, 0, 1920, 1088)];
    SnapsTo(0, 0, WIDTH, HEIGHT);
    FitOfCorners(0, 0, WIDTH, HEIGHT, 0);
    ParsePoints(libc, Text([0, 0, WIDTH, HEIGHT]), [0, 0, WIDTH, HEIGHT], whole);
    assert !Low(whole[0]);
    RoundTrip(libc, whole);
  }

  // ------------------------------------------------------------------ deleting

  predicate MeetsNone(r: Rect, given: seq<Rect>) {
    forall i :: 0 <= i < |given| ==> !r.Intersects(given[i])
  }

  function IfKept(r: Rect, given: seq<Rect>): seq<Rect> {
    if MeetsNone(r, given) then [r] else []
  }

  /** The rectangles that meet none of the given ones, in order. */
  function Keep(rects: seq<Rect>, given: seq<Rect>): seq<Rect> {
    if rects == [] then [] else IfKept(rects[0], given) + Keep(rects[1..], given)
  }

  lemma {:induction false} KeepConcat(a: seq<Rect>, b: seq<Rect>, given: seq<Rect>)
    ensures Keep(a + b, given) == Keep(a, given) + Keep(b, given)
  {
    if a == [] {
      assert a + b == b;
    } else {
      calc {
        Keep(a + b, given);
        { assert (a + b)[0] == a[0] && (a + b)[1..] == a[1..] + b; }
        IfKept(a[0], given) + Keep(a[1..] + b, given);
        { KeepConcat(a[1..], b, given); }
        IfKept(a[0], given) + (Keep(a[1..], given) + Keep(b, given));
        IfKept(a[0], given) + Keep(a[1..], given) + Keep(b, given);
        Keep(a, given) + Keep(b, given);
      }
    }
  }

  lemma KeepOne(r: Rect, given: seq<Rect>)
    ensures Keep([r], given) == IfKept(r, given)
  {
    assert Keep([r][1..], given) == [];
  }

  // One turn of a loop over `rects`.
  lemma KeepNext(rects: seq<Rect>, k: nat, given: seq<Rect>)
    requires k < |rects|
    ensures Keep(rects[..k + 1], given) == Keep(rects[..k], given) + IfKept(rects[k], given)
  {
    assert rects[..k + 1] == rects[..k] + [rects[k]];
    KeepConcat(rects[..k], [rects[k]], given);
    KeepOne(rects[k], given);
  }

  lemma MeetsNoneConcat(r: Rect, a: seq<Rect>, b: seq<Rect>)
    ensures MeetsNone(r, a + b) <==> MeetsNone(r, a) && MeetsNone(r, b)
  {
    if MeetsNone(r, a + b) {
      forall i | 0 <= i < |b| ensures !r.Intersects(b[i]) { assert !r.Intersects((a + b)[|a| + i]); }
      forall i | 0 <= i < |a| ensures !r.Intersects(a[i]) { assert !r.Intersects((a + b)[i]); }
    }
  }

  /** Deleting one list and then another deletes both. */
  lemma {:induction false} KeepTwice(rects: seq<Rect>, a: seq<Rect>, b: seq<Rect>)
    ensures Keep(Keep(rects, a), b) == Keep(rects, a + b)
  {
    if rects != [] {
      var r := rects[0];
      KeepTwice(rects[1..], a, b);
      KeepConcat(IfKept(r, a), Keep(rects[1..], a), b);
      KeepOne(r, b);
      MeetsNoneConcat(r, a, b);
    }
  }

  lemma {:induction false} KeepNothingGiven(rects: seq<Rect>)
    ensures Keep(rects, []) == rects
  {
    if rects != [] { KeepNothingGiven(rects[1..]); }
  }

  // One turn of a loop that has gone through `k` of the rectangles of `start`.
  lemma EraseStep(rects: seq<Rect>, it: nat, start: seq<Rect>, k: nat, r: Rect)
    requires k < |start| && rects == Keep(start[..k], [r]) + start[k..]
    requires it == |Keep(start[..k], [r])|
    ensures it < |rects| && rects[it] == start[k]
    ensures if start[k].Intersects(r)
            then rects[..it] + rects[it + 1..] == Keep(start[..k + 1], [r]) + start[k + 1..]
                 && it == |Keep(start[..k + 1], [r])|
            else rects == Keep(start[..k + 1], [r]) + start[k + 1..]
                 && it + 1 == |Keep(start[..k + 1], [r])|
  {
    KeepNext(start, k, [r]);
    assert MeetsNone(start[k], [r]) <==> !start[k].Intersects([r][0]);
    RestOf(start, k);
  }

  lemma RestOf(rects: seq<Rect>, k: nat)
    requires k < |rects|
    ensures rects[k..] == [rects[k]] + rects[k + 1..]
  {
  }

  /** Kept are exactly the rectangles that meet none of the given ones, as often as before. */
  lemma {:induction false} KeepExactly(rects: seq<Rect>, given: seq<Rect>, r: Rect)
    ensures multiset(Keep(rects, given))[r] == if MeetsNone(r, given) then multiset(rects)[r] else 0
  {
    if rects != [] {
      KeepExactly(rects[1..], given, r);
      assert rects == [rects[0]] + rects[1..];
    }
  }

  lemma {:induction false} KeepOnGrid(rects: seq<Rect>, given: seq<Rect>)
    requires AllOnGrid(rects)
    ensures AllOnGrid(Keep(rects, given))
  {
    if rects != [] { KeepOnGrid(rects[1..], given); }
  }

  lemma {:induction false} KeepNoneOfThemselves(rects: seq<Rect>, given: seq<Rect>)
    requires forall r :: r in rects ==> r in given
    ensures Keep(rects, given) == []
  {
    if rects != [] {
      assert rects[0] in given && rects[0].Intersects(rects[0]);
      KeepNoneOfThemselves(rects[1..], given);
    }
  }

  /** Deleting what was just added leaves of the old rectangles those that meet none of it. */
  lemma DelTakesBackAdd(rects: seq<Rect>, added: seq<Rect>)
    ensures Keep(rects + added, added) == Keep(rects, added)
  {
    KeepConcat(rects, added, added);
    KeepNoneOfThemselves(added, added);
  }

  // -------------------------------------------------------- runs of commands

  datatype State = State(rects: seq<Rect>, text: string)

  datatype Command = Set(value: Option<string>) | Add(value: Option<string>) | Del(value: Option<string>) | Clear

  predicate Throws(libc: Libc, c: Command) {
    !c.Clear? && Parse(libc, c.value).Err?
  }

  /** One command; set empties the list before it reads. */
  function Apply(libc: Libc, s: State, c: Command): State {
    if Throws(libc, c) then (if c.Set? then s.(rects := []) else s)
    else
      var rects :=
        match c
        case Set(v) => Parse(libc, v).value
        case Add(v) => s.rects + Parse(libc, v).value
        case Del(v) => Keep(s.rects, Parse(libc, v).value)
        case Clear => [];
      State(rects, Print(rects))
  }

  function Run(libc: Libc, s: State, commands: seq<Command>): State
    decreases |commands|
  {
    if commands == [] then s else Run(libc, Apply(libc, s, commands[0]), commands[1..])
  }

  ghost predicate Mirrors(s: State) { s.text == Print(s.rects) }

  // A command that reads its value and does not throw.
  lemma AppliedValue(libc: Libc, s: State, c: Command, read: seq<Rect>)
    requires !c.Clear? && Parse(libc, c.value).Ok? && [] + read == [] + Parse(libc, c.value).value
    ensures !Throws(libc, c)
    ensures c.Del? ==> Apply(libc, s, c) == State(Keep(s.rects, read), Print(Keep(s.rects, read)))
  {
    assert read == [] + read == [] + Parse(libc, c.value).value == Parse(libc, c.value).value;
  }

  /** Holds in every state, whatever the commands do: the string is the printed list, or a
      set that threw has emptied the list since it was. */
  ghost predicate Inv(s: State) {
    AllOnGrid(s.rects) && (Mirrors(s) || s.rects == [])
  }

  lemma ApplyKeepsInv(libc: Libc, s: State, c: Command)
    requires Inv(s)
    ensures Inv(Apply(libc, s, c))
  {
    if !c.Clear? {
      ParsedIsOnGrid(libc, c.value);
      if c.Del? && !Throws(libc, c) { KeepOnGrid(s.rects, Parse(libc, c.value).value); }
    }
  }

  /** Exactly when the string mirrors the list after a command. */
  lemma MirrorsAfter(libc: Libc, s: State, c: Command)
    ensures Mirrors(Apply(libc, s, c)) <==>
              if !Throws(libc, c) then true else if c.Set? then s.text == "" else Mirrors(s)
  {
  }

  /** Over every run: all rectangles stay on the grid inside 1920 by 1088, and without a
      set that throws the string is the printed list all along. */
  lemma {:induction false} RunKeepsMirror(libc: Libc, s: State, commands: seq<Command>)
    requires Inv(s)
    ensures Inv(Run(libc, s, commands))
    ensures Mirrors(s) && (forall c :: c in commands && Throws(libc, c) ==> !c.Set?) ==> Mirrors(Run(libc, s, commands))
    decreases |commands|
  {
    if commands != [] {
      ApplyKeepsInv(libc, s, commands[0]);
      MirrorsAfter(libc, s, commands[0]);
      assert commands[0] in commands;
      RunKeepsMirror(libc, Apply(libc, s, commands[0]), commands[1..]);
    }
  }

  /** The state file: it keeps a non-empty string, and sets the region to it at the next
      start. After any run without a throwing set this restores the list exactly if every
      lower edge is inside the picture; otherwise it throws and the list is lost. */
  lemma Restored(libc: Libc, commands: seq<Command>)
    requires libc.Works()
    requires forall c :: c in commands && Throws(libc, c) ==> !c.Set?
    requires Run(libc, State([], ""), commands).text != ""
    ensures var s := Run(libc, State([], ""), commands);
      && (Apply(libc, State([], ""), Set(Some(s.text))) == s <==> AllLow(s.rects))
      && (Throws(libc, Set(Some(s.text))) <==> !AllLow(s.rects))
  {
    RunKeepsMirror(libc, State([], ""), commands);
    var s := Run(libc, State([], ""), commands);
    RoundTrip(libc, s.rects);
  }

  // --------------------------------------------------------------- the program

  class Roi {
    var rects: seq<Rect>
    var rectangles: string   // the parameter the state file keeps

    constructor ()
      ensures Value() == State([], "")
    {
      rects, rectangles := [], "";
    }

    ghost function Value(): State
      reads this
    {
      State(rects, rectangles)
    }

    static method ReadPoints(libc: Libc, value: Option<string>) returns (r: Result<seq<nat>, Error>)
      ensures r == match value case None => Err(ErrorReading) case Some(v) => PointsOf(libc, v, [])
    {
      if value.None? { return Err(ErrorReading); }
      var rest, points: seq<nat>, more := value.value, [], true;
      while more
        invariant if more then PointsOf(libc, rest, points) == PointsOf(libc, value.value, [])
                  else Finish(points) == PointsOf(libc, value.value, [])
        decreases more, |rest|
      {
        var p := ReadPoint(libc, rest, Range(|points|));
        if p.Err? { return Err(p.error); }
        points := points + [p.value.data];
        rest := Behind(rest, p.value.taken);
        more := rest != "";
      }
      return if |points| % 4 != 0 then Err(NotMultipleOfFour) else Ok(points);
    }

    method ReadRects(libc: Libc, value: Option<string>) returns (thrown: Option<Error>)
      modifies `rects
      ensures match Parse(libc, value)
        case Ok(read) => thrown.None? && rects == old(rects) + read
        case Err(e) => thrown == Some(e) && rects == old(rects)
    {
      var points := ReadPoints(libc, value);
      if points.Err? { return Some(points.error); }
      PushRects(points.value);
      return None;
    }

    /** The loop of read_rects. */
    method PushRects(points: seq<nat>)
      requires Fours(|points|)
      modifies `rects
      ensures rects == old(rects) + Rects(points)
    {
      var i := 0;
      assert points[0..] == points;
      while i < |points|
        invariant i <= |points| && Fours(i)
        invariant rects + Rects(points[i..]) == old(rects) + Rects(points)
      {
        RectsNext(points, i);
        rects := rects + [Snap(points[i], points[i + 1], points[i + 2], points[i + 3])];
        i := i + 4;
      }
    }

    method WriteRects()
      modifies `rectangles
      ensures rectangles == Print(rects)
    {
      var str := "";
      for i := 0 to |rects|
        invariant str == Print(rects[..i])
      {
        PrintNext(rects, i);
        if i != 0 { str := str + ","; }
        str := str + Corners(rects[i]);
      }
      assert rects[..|rects|] == rects;
      rectangles := str;
    }

    method Set(libc: Libc, value: Option<string>) returns (thrown: Option<Error>)
      modifies this
      ensures Value() == Apply(libc, old(Value()), Command.Set(value))
      ensures match Parse(libc, value)
        case Ok(read) => thrown.None? && rects == read && rectangles == Print(rects)
        case Err(e) => thrown == Some(e) && rects == [] && rectangles == old(rectangles)
    {
      rects := [];
      thrown := ReadRects(libc, value);
      if thrown.None? {
        assert rects == Parse(libc, value).value;
        WriteRects();
      }
    }

    method Add(libc: Libc, value: Option<string>) returns (thrown: Option<Error>)
      modifies this
      ensures Value() == Apply(libc, old(Value()), Command.Add(value))
      ensures match Parse(libc, value)
        case Ok(read) => thrown.None? && rects == old(rects) + read && rectangles == Print(rects)
        case Err(e) => thrown == Some(e) && Value() == old(Value())
    {
      thrown := ReadRects(libc, value);
      if thrown.None? { WriteRects(); }
    }

    method Del(libc: Libc, value: Option<string>) returns (thrown: Option<Error>)
      modifies this
      ensures Value() == Apply(libc, old(Value()), Command.Del(value))
      ensures match Parse(libc, value)
        case Ok(given) => thrown.None? && rects == Keep(old(rects), given) && rectangles == Print(rects)
        case Err(e) => thrown == Some(e) && Value() == old(Value())
    {
      var roi := new Roi();
      thrown := roi.ReadRects(libc, value);
      if thrown.Some? { return; }
      AppliedValue(libc, Value(), Command.Del(value), roi.rects);
      EraseAll(roi.rects);
      WriteRects();
    }

    /** The outer loop of del. */
    method EraseAll(given: seq<Rect>)
      modifies `rects
      ensures rects == Keep(old(rects), given)
    {
      KeepNothingGiven(rects);
      for i := 0 to |given|
        invariant rects == Keep(old(rects), given[..i])
      {
        EraseMeeting(given[i]);
        KeepTwice(old(rects), given[..i], [given[i]]);
        assert given[..i] + [given[i]] == given[..i + 1];
      }
      assert given[..|given|] == given;
    }

    /** The inner loop of del: erase in place whatever meets `r`. */
    method EraseMeeting(r: Rect)
      modifies `rects
      ensures rects == Keep(old(rects), [r])
    {
      ghost var start, k: nat := rects, 0;
      var it := 0;
      while it < |rects|
        invariant it <= |rects| && k <= |start|
        invariant rects == Keep(start[..k], [r]) + start[k..]
        invariant it == |Keep(start[..k], [r])|
        decreases |rects| - it
      {
        EraseStep(rects, it, start, k, r);
        if rects[it].Intersects(r) {
          rects := rects[..it] + rects[it + 1..];
        } else {
          it := it + 1;
        }
        k := k + 1;
      }
      assert start[..k] == start;
    }

    method Clear()
      modifies this
      ensures Value() == State([], "")
    {
      rects := [];
      WriteRects();
    }
  }
}
