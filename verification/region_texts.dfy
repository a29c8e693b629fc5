/** What the text of a list of regions means, coordinate by coordinate: numbers in every notation
    strtol knows, fractions of the picture, and where a text is refused. */
module RegionTexts {
  import opened Common
  import opened NumberText
  import opened Regions
  import opened Wrappers

  /** What stands between commas: a number, or a fraction of the range. */
  datatype Token = Number(num: Numeral) | Fraction(text: string, value: real) {
    function Text(): string {
      match this case Number(num) => num.Text() case Fraction(text, _) => text
    }

    /** strtof reads the text of a fraction as its value, whatever follows the comma. */
    ghost predicate Readable(libc: Libc) {
      match this
      case Number(num) => Blankless(num.pad)
      case Fraction(text, value) =>
        && text != "" && text[0] != ' ' && '.' in text && ',' !in text
        && forall rest :: Ends(rest) ==> libc.Fraction(text + rest) == Float(value, |text|)
    }

    /** `data` is the coordinate in range the token stands for: the number itself, or the
        fraction of the range rounded down. */
    predicate Denotes(libc: Libc, range: Limit, data: nat) {
      && data <= range
      && match this
         case Number(num) => data == Kept(libc, num)
         case Fraction(_, value) =>
           0.0 <= value <= 1.0 && data as real <= value * (range as real) < data as real + 1.0
    }

    predicate OutOfRange(libc: Libc, range: Limit) {
      match this
      case Number(num) => Kept(libc, num) < 0 || Kept(libc, num) > range
      case Fraction(_, value) => value < 0.0 || value > 1.0
    }
  }

  lemma DotBefore(text: string, rest: string)
    requires '.' in text && ',' !in text
    ensures IndexOf(text + rest, '.') < IndexOf(text + rest, ',')
  {
    var k :| 0 <= k < |text| && text[k] == '.';
    assert (text + rest)[k] == '.';
    assert forall i :: 0 <= i < |text| ==> (text + rest)[i] == text[i] != ',';
  }

  /** A fraction as a coordinate: strtof takes `text` and leaves `rest`. */
  lemma FractionStands(libc: Libc, text: string, value: real, rest: string, range: Limit)
    requires text + rest != "" && (text + rest)[0] != ' ' && libc.Fraction(text + rest) == Float(value, |text|)
    requires IndexOf(text + rest, '.') < IndexOf(text + rest, ',')
    ensures var r := ReadPoint(libc, text + rest, range);
      if value < 0.0 || value > 1.0 then r == Err(InvalidValue)
      else if text == "" || !Ends(rest) then r == Err(ErrorReading)
      else r == Ok(Point(Scaled(value, range), |text|))
  {
    assert (text + rest)[|text|..] == rest;
  }

  /** One coordinate of a text: what it stands for, or an error if that is out of range. */
  lemma TokenReads(libc: Libc, t: Token, rest: string, range: Limit, data: nat)
    requires t.Readable(libc) && Ends(rest)
    ensures t.Denotes(libc, range, data) ==> ReadPoint(libc, t.Text() + rest, range) == Ok(Point(data, |t.Text()|))
    ensures t.OutOfRange(libc, range) ==> ReadPoint(libc, t.Text() + rest, range) == Err(InvalidValue)
  {
    match t {
      case Number(num) => NumberReads(libc, num, rest, range);
      case Fraction(text, value) =>
        DotBefore(text, rest);
        FractionStands(libc, text, value, rest, range);
        if t.Denotes(libc, range, data) { assert data == Scaled(value, range); }
    }
  }

  /** A coordinate that begins with a blank, or is empty, is an error, and so is one that is no
      number. */
  lemma NoCoordinate(libc: Libc, value: string, range: Limit)
    ensures value == "" || value[0] == ' ' ==> ReadPoint(libc, value, range) == Err(ErrorReading)
    ensures value != "" && value[0] != ' ' && !IsDigit(value[0], 10) && value[0] !in "+-"
            && !IsSpace(value[0]) && IndexOf(value, ',') <= IndexOf(value, '.')
            ==> ReadPoint(libc, value, range) == Err(ErrorReading)
  {
    if value != "" && !IsDigit(value[0], 10) && !IsSpace(value[0]) && value[0] !in "+-" {
      assert "" + SignText(Bare) + value == value;
      NoNumber("", Bare, value, libc.longMax);
    }
  }

  /** Tokens with commas between them. */
  function Listed(ts: seq<Token>): string {
    if ts == [] then ""
    else if |ts| == 1 then ts[0].Text()
    else ts[0].Text() + ("," + Listed(ts[1..]))
  }

  ghost predicate AllDenote(libc: Libc, ts: seq<Token>, points: seq<nat>, at: nat) {
    if ts == [] || points == [] then ts == [] && points == []
    else
      && ts[0].Readable(libc) && ts[0].Denotes(libc, Range(at), points[0])
      && AllDenote(libc, ts[1..], points[1..], at + 1)
  }

  // One coordinate of a text, and what stands behind it.
  lemma TokenStep(libc: Libc, t: Token, rest: string, before: seq<nat>, n: nat)
    requires t.Readable(libc) && t.Denotes(libc, Range(|before|), n) && Ends(rest)
    ensures PointsOf(libc, t.Text() + rest, before) ==
            if |rest| <= 1 then Finish(before + [n]) else PointsOf(libc, rest[1..], before + [n])
  {
    TokenReads(libc, t, rest, Range(|before|), n);
    if rest != "" {
      assert (t.Text() + rest)[|t.Text()| + 1..] == rest[1..];
    }
  }

  lemma ListedCons(ts: seq<Token>, rest: string)
    requires |ts| > 1
    ensures Listed(ts) + rest == ts[0].Text() + ("," + (Listed(ts[1..]) + rest))
  {
    Regrouped(ts[0].Text(), ",", Listed(ts[1..]), rest);
  }

  /** A list of coordinates is read as what they stand for, one by one; a comma behind the last
      one is allowed. */
  lemma {:induction false} ListReads(libc: Libc, ts: seq<Token>, points: seq<nat>, before: seq<nat>, rest: string)
    requires ts != [] && AllDenote(libc, ts, points, |before|) && Ends(rest)
    ensures PointsOf(libc, Listed(ts) + rest, before) ==
            if |rest| <= 1 then Finish(before + points) else PointsOf(libc, rest[1..], before + points)
    decreases |ts|
  {
    var n, more := points[0], points[1..];
    assert before + points == before + [n] + more;
    if |ts| == 1 {
      assert before + points == before + [n];
      TokenStep(libc, ts[0], rest, before, n);
    } else {
      var tail := Listed(ts[1..]) + rest;
      ListBegins(libc, ts[1..], more, |before| + 1);
      ListedCons(ts, rest);
      TokenStep(libc, ts[0], "," + tail, before, n);
      assert ("," + tail)[1..] == tail;
      ListReads(libc, ts[1..], more, before + [n], rest);
    }
  }

  lemma ListBegins(libc: Libc, ts: seq<Token>, points: seq<nat>, at: nat)
    requires ts != [] && AllDenote(libc, ts, points, at)
    ensures Listed(ts) != ""
  {
    match ts[0] {
      case Number(num) => NumeralBegins(num);
      case Fraction(_, _) =>
    }
  }

  /** The rectangles are the points in groups of four, corner and opposite corner, snapped. */
  ghost predicate AllSnapped(rects: seq<Rect>, points: seq<nat>) {
    if rects == [] || |points| < 4 then rects == [] && points == []
    else
      && Side(rects[0].x, rects[0].w, points[0], points[2])
      && Side(rects[0].y, rects[0].h, points[1], points[3])
      && AllSnapped(rects[1..], points[4..])
  }

  lemma {:induction false} RectsAreSnapped(points: seq<nat>)
    requires Fours(|points|)
    ensures AllSnapped(Rects(points), points)
  {
    if points != [] {
      SnapIff(Rects(points)[0], points[0], points[1], points[2], points[3]);
      RectsAreSnapped(points[4..]);
    }
  }

  /** What a text means: a list of coordinates in range, with or without a comma at its end, is
      read as the rectangles of their snapped corners, if their number is a multiple of four. */
  lemma ParsedList(libc: Libc, ts: seq<Token>, points: seq<nat>, rest: string)
    requires ts != [] && AllDenote(libc, ts, points, 0) && (rest == "" || rest == ",")
    ensures var r := Parse(libc, Some(Listed(ts) + rest));
      if |ts| % 4 == 0 then r.Ok? && AllSnapped(r.value, points) else r == Err(NotMultipleOfFour)
  {
    ListReads(libc, ts, points, [], rest);
    assert [] + points == points;
    AllDenoteLength(libc, ts, points, 0);
    if Fours(|points|) { RectsAreSnapped(points); }
  }

  lemma {:induction false} AllDenoteLength(libc: Libc, ts: seq<Token>, points: seq<nat>, at: nat)
    requires AllDenote(libc, ts, points, at)
    ensures |ts| == |points|
  {
    if ts != [] && points != [] { AllDenoteLength(libc, ts[1..], points[1..], at + 1); }
  }

  /** Where a list goes wrong: an error of the first bad coordinate is the error of the text. */
  lemma FirstError(libc: Libc, ts: seq<Token>, points: seq<nat>, bad: string, e: Error)
    requires ts != [] && AllDenote(libc, ts, points, 0) && bad != ""
    requires ReadPoint(libc, bad, Range(|points|)) == Err(e)
    ensures Parse(libc, Some(Listed(ts) + ("," + bad))) == Err(e)
  {
    ListReads(libc, ts, points, [], "," + bad);
    assert ("," + bad)[1..] == bad && [] + points == points;
  }
}
