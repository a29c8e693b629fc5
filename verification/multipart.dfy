/** Saving an uploaded file: the body of a multipart/form-data request (section 4 of RFC
    7578, section 5.1.1 of RFC 2046) is stripped of its boundary lines and headers while it
    is read in chunks. Characters stand for bytes. */
module Multipart {
  import opened Common
  import opened Wrappers

  datatype Error =
    | NoContentType | MissingBoundaryString | BufferOverrun | NotABoundary
    | FilenameMissing | MissingEndQuote | OpenFailed

  datatype Saved = Saved(path: string, content: string)

  const MULTIPART := "multipart/form-data;"
  const BOUNDARY := "boundary="
  const DISPOSITION := "Content-Disposition:"
  const FILENAME := "filename=\""
  const PATH_SIZE: nat := 128            // sizeof _file_path

  // ------------------------------------------------------------------ C strings

  predicate StartsWith(s: string, prefix: string) {
    |prefix| <= |s| && s[..|prefix|] == prefix
  }

  /** The C string in the characters `s`: what comes before the first NUL. */
  function CutNul(s: string): (c: string)
    ensures |c| <= |s|
  {
    if s == "" || s[0] == '\0' then "" else [s[0]] + CutNul(s[1..])
  }

  /** strstr: the first position from `at` on where `pattern` stands. */
  function Find(s: string, pattern: string, at: nat): Option<nat>
    requires at <= |s|
    decreases |s| - at
  {
    if StartsWith(s[at..], pattern) then Some(at)
    else if at == |s| then None
    else Find(s, pattern, at + 1)
  }

  function SkipSpaces(s: string): string {
    if s != "" && s[0] == ' ' then SkipSpaces(s[1..]) else s
  }

  // ------------------------------------------------- what the program computes

  /** get_boundary: the delimiter line, empty if the request is not multipart. */
  function BoundaryOf(contentType: Option<string>): Result<string, Error> {
    match contentType
    case None => Err(NoContentType)
    case Some(t) =>
      if !StartsWith(t, MULTIPART) then Ok("")
      else
        var rest := SkipSpaces(t[|MULTIPART|..]);
        if !StartsWith(rest, BOUNDARY) then Err(MissingBoundaryString)
        else Ok("--" + rest[|BOUNDARY|..])
  }

  /** snprintf of prefix/name into _file_path. */
  function PathOf(prefix: string, name: string): (path: string)
    ensures IsPath(path, prefix, name)
  {
    var path := prefix + "/" + name;
    if |path| < PATH_SIZE then path else path[..PATH_SIZE - 1]
  }

  /** The path of a file: directory, slash and name, as far as 127 characters reach. */
  predicate IsPath(path: string, prefix: string, name: string) {
    && path <= prefix + "/" + name && |path| <= 127
    && (|path| < 127 ==> path == prefix + "/" + name)
  }

  /** get_filepath: prefix and the quoted file name of a Content-Disposition line. */
  function FilePathOf(prefix: string, line: string): Result<string, Error> {
    match Find(line, FILENAME, 0)
    case None => Err(FilenameMissing)
    case Some(at) =>
      if at + |FILENAME| > |line| then Err(FilenameMissing)
      else
        var name := line[at + |FILENAME|..];
        var quote := IndexOf(name, '"');
        if quote == |name| then Err(MissingEndQuote) else Ok(PathOf(prefix, name[..quote]))
  }

  /** Where readline stops from `at` on: at a CR, or before an LF, with one more character
      in the chunk behind it. */
  function LineEnd(chunk: string, at: nat): (r: Option<nat>)
    ensures r.Some? ==> at <= r.value && r.value + 1 < |chunk|
    decreases |chunk| - at
  {
    if at + 1 >= |chunk| then None
    else if chunk[at] == '\r' || chunk[at + 1] == '\n' then Some(at)
    else LineEnd(chunk, at + 1)
  }

  /** The path after one header line. */
  function PathAfter(prefix: string, named: bool, line: string, path: string): Result<string, Error> {
    if !named && StartsWith(line, DISPOSITION) then FilePathOf(prefix, line) else Ok(path)
  }

  /** The path the header lines lead to, or the first error they cause. */
  function HeadersPath(prefix: string, named: bool, headers: seq<string>, path: string): Result<string, Error> {
    if headers == [] then Ok(path)
    else match PathAfter(prefix, named, headers[0], path)
      case Err(e) => Err(e)
      case Ok(p) => HeadersPath(prefix, named, headers[1..], p)
  }

  /** The header lines readline delivers from `at` on, and where the content starts behind
      the empty line; None if the chunk ends first. */
  datatype Headers = Headers(lines: seq<string>, content: Option<nat>)

  function ReadHeaders(chunk: string, at: nat): (h: Headers)
    ensures h.content.Some? ==> h.content.value <= |chunk|
    decreases |chunk| - at
  {
    match LineEnd(chunk, at)
    case None => Headers([], None)
    case Some(q) =>
      var line := CutNul(chunk[at..q]);
      if line == "" then Headers([], Some(q + 2))
      else var h := ReadHeaders(chunk, q + 2); h.(lines := [line] + h.lines)
  }

  /** ftruncate: a negative length is refused and leaves the file as it is. */
  function Truncate(written: string, size: int): string
    requires size <= |written|
  {
    if size < 0 then written else written[..size]
  }

  function FirstChunk(input: string, bufferSize: nat): string {
    if bufferSize <= |input| then input[..bufferSize] else input
  }

  /** save_multipart_file as a whole: what it leaves on file, or the error it throws. */
  function Save(contentType: Option<string>, prefix: string, filename: string, input: string,
                bufferSize: nat): Result<Saved, Error>
  {
    match BoundaryOf(contentType)
    case Err(e) => Err(e)
    case Ok(boundary) => SavePart(boundary, prefix, filename, input, bufferSize)
  }

  /** ... once the delimiter line is known. */
  function SavePart(delimiter: string, prefix: string, filename: string, input: string,
                    bufferSize: nat): Result<Saved, Error>
  {
    var chunk := FirstChunk(input, bufferSize);
    match LineEnd(chunk, 0)
    case None => Err(BufferOverrun)
    case Some(q) =>
      if CutNul(chunk[..q]) != delimiter then Err(NotABoundary)
      else
        var headers := ReadHeaders(chunk, q + 2);
        Finish(prefix, filename != "", FirstPath(prefix, filename), headers, input, |delimiter| + 6)
  }

  /** The path before any header is read. */
  function FirstPath(prefix: string, filename: string): string {
    if filename != "" then PathOf(prefix, filename) else ""
  }

  /** Where the header loop ends: the path, and where the content starts; or the error. */
  function Outcome(prefix: string, named: bool, h: Headers, path: string): (r: Result<(string, nat), Error>)
    ensures r.Ok? ==> h.content == Some(r.value.1)
  {
    match HeadersPath(prefix, named, h.lines, path)
    case Err(e) => Err(e)
    case Ok(p) => if h.content.None? then Err(BufferOverrun) else Ok((p, h.content.value))
  }

  /** The rest of save_multipart_file, once the header lines are known. */
  function Finish(prefix: string, named: bool, first: string, h: Headers, input: string,
                  closing: nat): Result<Saved, Error>
    requires h.content.Some? ==> h.content.value <= |input|
  {
    match Outcome(prefix, named, h, first)
    case Err(e) => Err(e)
    case Ok((path, start)) =>
      if path == "" then Err(OpenFailed)
      else Ok(Saved(path, Truncate(input[start..], |input| - start - closing)))
  }

  // ------------------------------------------------------------- the encoding

  /** A line that can stand in a multipart header: no CR, LF or NUL. */
  predicate Clean(line: string) {
    forall i :: 0 <= i < |line| ==> line[i] != '\r' && line[i] != '\n' && line[i] != '\0'
  }

  function Lines(headers: seq<string>): string {
    if headers == [] then "" else headers[0] + "\r\n" + Lines(headers[1..])
  }

  /** Everything before the content. */
  function Head(boundary: string, headers: seq<string>): string {
    "--" + boundary + "\r\n" + Lines(headers) + "\r\n"
  }

  function Closing(boundary: string): string { "\r\n--" + boundary + "--\r\n" }

  /** One part, as section 5.1.1 of RFC 2046 has it. */
  function Encode(boundary: string, headers: seq<string>, content: string): string {
    Head(boundary, headers) + content + Closing(boundary)
  }

  // ------------------------------------------------------------- the round trip

  lemma {:induction false} CleanIsCString(line: string)
    requires Clean(line)
    ensures CutNul(line) == line
  {
    if line != "" {
      CleanIsCString(line[1..]);
    }
  }

  /** A clean line that stands at `at`, followed by CR LF, is read as a line when its CR LF
      lies inside the chunk; when the chunk ends before that, nothing is read. */
  lemma {:induction false} LineEndOfClean(chunk: string, at: nat, line: string, rest: string)
    requires at <= |chunk| && Clean(line)
    requires chunk[at..] <= line + "\r\n" + rest
    ensures LineEnd(chunk, at) == if at + |line| + 2 <= |chunk| then Some(at + |line|) else None
    decreases |line|
  {
    var text := line + "\r\n" + rest;
    if at + 1 < |chunk| {
      assert chunk[at] == chunk[at..][0] == text[0];
      assert chunk[at + 1] == chunk[at..][1] == text[1];
      if line != "" {
        assert chunk[at + 1..] == chunk[at..][1..];
        assert text[1..] == line[1..] + "\r\n" + rest;
        LineEndOfClean(chunk, at + 1, line[1..], rest);
      }
    }
  }

  // Behind a line that was read the chunk goes on with the rest of the text.
  lemma BehindLine(chunk: string, at: nat, line: string, more: string)
    requires at + |line| + 2 <= |chunk| && chunk[at..] <= line + "\r\n" + more
    ensures chunk[at..at + |line|] == line
    ensures chunk[at + |line| + 2..] <= more
  {
    var text := line + "\r\n" + more;
    assert chunk[at..at + |line|] == chunk[at..][..|line|] == text[..|line|];
    assert chunk[at + |line| + 2..] == chunk[at..][|line| + 2..];
    assert text[|line| + 2..] == more;
  }

  ghost predicate CleanHeaders(headers: seq<string>) {
    forall i :: 0 <= i < |headers| ==> headers[i] != "" && Clean(headers[i])
  }

  lemma LinesCons(headers: seq<string>, rest: string)
    requires headers != []
    ensures Lines(headers) + "\r\n" + rest == headers[0] + "\r\n" + (Lines(headers[1..]) + "\r\n" + rest)
    ensures |Lines(headers)| == |headers[0]| + 2 + |Lines(headers[1..])|
  {
  }

  /** The header loop reads exactly the encoded header lines, and finds the content if the
      empty line lies inside the chunk. */
  lemma {:induction false} HeadersAreRead(chunk: string, at: nat, headers: seq<string>, rest: string)
    requires at <= |chunk| && CleanHeaders(headers)
    requires chunk[at..] <= Lines(headers) + "\r\n" + rest
    ensures var h := ReadHeaders(chunk, at);
      && h.lines <= headers
      && if at + |Lines(headers)| + 2 <= |chunk|
         then h.lines == headers && h.content.Some? && h.content.value == at + |Lines(headers)| + 2
         else h.content.None?
    decreases |headers|
  {
    if headers == [] {
      assert Lines(headers) + "\r\n" + rest == "" + "\r\n" + rest;
      LineEndOfClean(chunk, at, "", rest);
    } else {
      var line, more := headers[0], Lines(headers[1..]) + "\r\n" + rest;
      LinesCons(headers, rest);
      LineEndOfClean(chunk, at, line, more);
      if at + |line| + 2 <= |chunk| {
        BehindLine(chunk, at, line, more);
        CleanIsCString(line);
        HeadersAreRead(chunk, at + |line| + 2, headers[1..], rest);
        assert headers == [line] + headers[1..];
      }
    }
  }

  // Fewer header lines cause no new error.
  lemma {:induction false} PathOfFewer(prefix: string, named: bool, lines: seq<string>, headers: seq<string>,
                                       path: string)
    requires lines <= headers && HeadersPath(prefix, named, headers, path).Ok?
    ensures HeadersPath(prefix, named, lines, path).Ok?
  {
    if lines != [] {
      PathOfFewer(prefix, named, lines[1..], headers[1..], PathAfter(prefix, named, headers[0], path).value);
    }
  }

  /** The boundary of a request whose content type names it. */
  lemma BoundaryOfContentType(boundary: string)
    ensures BoundaryOf(Some(MULTIPART + " " + BOUNDARY + boundary)) == Ok("--" + boundary)
  {
    var rest := BOUNDARY + boundary;
    assert rest[0] == 'b';
    BehindMultipart(" ", rest);
    assert MULTIPART + " " + BOUNDARY + boundary == MULTIPART + " " + rest;
    assert rest[..|BOUNDARY|] == BOUNDARY && rest[|BOUNDARY|..] == boundary;
  }

  lemma BehindMultipart(spaces: string, rest: string)
    requires (forall i :: 0 <= i < |spaces| ==> spaces[i] == ' ') && (rest == "" || rest[0] != ' ')
    ensures StartsWith(MULTIPART + spaces + rest, MULTIPART)
    ensures SkipSpaces((MULTIPART + spaces + rest)[|MULTIPART|..]) == rest
  {
    var t := MULTIPART + spaces + rest;
    assert t[..|MULTIPART|] == MULTIPART && t[|MULTIPART|..] == spaces + rest;
    SkipSpacesStops(spaces + rest, |spaces|);
    assert (spaces + rest)[|spaces|..] == rest;
  }

  // A part, line by line.
  lemma HeadSplits(boundary: string, headers: seq<string>, rest: string)
    ensures Head(boundary, headers) + rest ==
            ("--" + boundary) + "\r\n" + (Lines(headers) + "\r\n" + rest)
    ensures |Head(boundary, headers)| == |"--" + boundary| + 2 + |Lines(headers)| + 2
  {
  }

  // Delimiter line and header lines are read off the first chunk, as far as it goes.
  lemma HeadIsRead(delimiter: string, headers: seq<string>, rest: string, chunk: string, head: nat)
    requires Clean(delimiter) && CleanHeaders(headers)
    requires chunk <= delimiter + "\r\n" + (Lines(headers) + "\r\n" + rest)
    requires head == |delimiter| + 2 + |Lines(headers)| + 2
    ensures LineEnd(chunk, 0) == if |delimiter| + 2 <= |chunk| then Some(|delimiter|) else None
    ensures |delimiter| + 2 <= |chunk| ==>
              && CutNul(chunk[..|delimiter|]) == delimiter
              && ReadHeaders(chunk, |delimiter| + 2).lines <= headers
              && if head <= |chunk|
                then ReadHeaders(chunk, |delimiter| + 2).lines == headers
                     && ReadHeaders(chunk, |delimiter| + 2).content.Some?
                     && ReadHeaders(chunk, |delimiter| + 2).content.value == head
                else ReadHeaders(chunk, |delimiter| + 2).content.None?
  {
    var more := Lines(headers) + "\r\n" + rest;
    FirstLineIsRead(delimiter, more, chunk);
    if |delimiter| + 2 <= |chunk| {
      HeadersAreRead(chunk, |delimiter| + 2, headers, rest);
    }
  }

  lemma FirstLineIsRead(line: string, more: string, chunk: string)
    requires Clean(line) && chunk <= line + "\r\n" + more
    ensures LineEnd(chunk, 0) == if |line| + 2 <= |chunk| then Some(|line|) else None
    ensures |line| + 2 <= |chunk| ==> CutNul(chunk[..|line|]) == line && chunk[|line| + 2..] <= more
  {
    assert chunk[0..] == chunk;
    LineEndOfClean(chunk, 0, line, more);
    if |line| + 2 <= |chunk| {
      BehindLine(chunk, 0, line, more);
      assert chunk[0..0 + |line|] == chunk[..|line|];
      CleanIsCString(line);
    }
  }

  /** The path the header lines of a request lead to. */
  function PathFrom(prefix: string, filename: string, headers: seq<string>): Result<string, Error> {
    HeadersPath(prefix, filename != "", headers, FirstPath(prefix, filename))
  }

  // Whatever stands behind the head of a part, all but the length of a closing delimiter is
  // left on file if the head fits the first chunk; otherwise the upload is refused.
  lemma PartIsSaved(boundary: string, headers: seq<string>, rest: string, prefix: string, filename: string,
                    bufferSize: nat)
    requires Clean("--" + boundary) && CleanHeaders(headers)
    requires PathFrom(prefix, filename, headers).Ok? && PathFrom(prefix, filename, headers).value != ""
    ensures SavePart("--" + boundary, prefix, filename, Head(boundary, headers) + rest, bufferSize)
         == if |Head(boundary, headers)| <= bufferSize
            then Ok(Saved(PathFrom(prefix, filename, headers).value,
                          Truncate(rest, |rest| - |Closing(boundary)|)))
            else Err(BufferOverrun)
  {
    var input := Head(boundary, headers) + rest;
    var chunk := FirstChunk(input, bufferSize);
    HeadSplits(boundary, headers, rest);
    HeadIsRead("--" + boundary, headers, rest, chunk, |Head(boundary, headers)|);
    if LineEnd(chunk, 0).Some? {
      PathOfFewer(prefix, filename != "", ReadHeaders(chunk, |"--" + boundary| + 2).lines, headers,
                  FirstPath(prefix, filename));
      assert input[|Head(boundary, headers)|..] == rest;
    }
  }

  /** Upload round trip, for every content, boundary, header lines and chunk size, wherever
      the chunks cut the content and the closing delimiter: if the head of the part fits the
      first chunk, exactly the content is left on file; otherwise the upload is refused. */
  lemma RoundTrip(boundary: string, headers: seq<string>, content: string, prefix: string, filename: string,
                  bufferSize: nat)
    requires Clean(boundary) && CleanHeaders(headers)
    requires PathFrom(prefix, filename, headers).Ok? && PathFrom(prefix, filename, headers).value != ""
    ensures Save(Some(MULTIPART + " " + BOUNDARY + boundary), prefix, filename,
                 Encode(boundary, headers, content), bufferSize)
         == if |Head(boundary, headers)| <= bufferSize
            then Ok(Saved(PathFrom(prefix, filename, headers).value, content))
            else Err(BufferOverrun)
  {
    var rest := content + Closing(boundary);
    BoundaryOfContentType(boundary);
    PartIsSaved(boundary, headers, rest, prefix, filename, bufferSize);
    assert Encode(boundary, headers, content) == Head(boundary, headers) + rest;
    assert rest[..|content|] == content;
  }

  /** The program never looks at what follows the content, it only counts: an upload with any
      other trailer in place of the closing delimiter is saved right exactly when the trailer
      is as long as a closing delimiter, or empty behind a content shorter than one. */
  lemma TrailerIff(boundary: string, headers: seq<string>, content: string, trailer: string,
                   prefix: string, filename: string, bufferSize: nat)
    requires Clean(boundary) && CleanHeaders(headers)
    requires PathFrom(prefix, filename, headers).Ok? && PathFrom(prefix, filename, headers).value != ""
    requires |Head(boundary, headers)| <= bufferSize
    ensures Save(Some(MULTIPART + " " + BOUNDARY + boundary), prefix, filename,
                 Head(boundary, headers) + content + trailer, bufferSize)
            == Ok(Saved(PathFrom(prefix, filename, headers).value, content))
       <==> |trailer| == |Closing(boundary)| || (trailer == "" && |content| < |Closing(boundary)|)
  {
    BoundaryOfContentType(boundary);
    PartIsSaved(boundary, headers, content + trailer, prefix, filename, bufferSize);
    assert Head(boundary, headers) + content + trailer == Head(boundary, headers) + (content + trailer);
    TruncatedIff(content, trailer, |Closing(boundary)|);
  }

  lemma TruncatedIff(content: string, trailer: string, closing: nat)
    requires closing > 0
    ensures Truncate(content + trailer, |content + trailer| - closing) == content
       <==> |trailer| == closing || (trailer == "" && |content| < closing)
  {
    var written := content + trailer;
    if |trailer| == closing {
      assert written[..|content|] == content;
    }
  }

  // --------------------------------------------------------------- the program

  // A NUL written behind a piece of the buffer ends the C string there.
  lemma {:induction false} CutNulAtEnd(s: string, n: nat)
    requires n < |s| && s[n] == '\0'
    ensures CutNul(s) == CutNul(s[..n])
  {
    if n > 0 && s[0] != '\0' {
      CutNulAtEnd(s[1..], n - 1);
      assert s[1..][..n - 1] == s[..n][1..];
    }
  }

  // The line of `chunk` that stands in the buffer `b` from `at` up to a NUL at `q`.
  lemma LineInPlace(b: string, chunk: string, at: nat, q: nat)
    requires at <= q < |chunk| <= |b| && b[q] == '\0'
    requires forall i :: at <= i < q ==> b[i] == chunk[i]
    ensures CutNul(b[at..]) == CutNul(chunk[at..q])
  {
    CutNulAtEnd(b[at..], q - at);
    assert b[at..][..q - at] == chunk[at..q];
  }

  lemma {:induction false} SkipSpacesStops(s: string, k: nat)
    requires k <= |s| && (forall i :: 0 <= i < k ==> s[i] == ' ') && (k < |s| ==> s[k] != ' ')
    ensures SkipSpaces(s) == s[k..]
  {
    if k > 0 {
      SkipSpacesStops(s[1..], k - 1);
    }
  }

  // A position strstr reports is one where the pattern stands.
  lemma {:induction false} FindFinds(s: string, pattern: string, at: nat)
    requires at <= |s|
    ensures var r := Find(s, pattern, at); r.Some? ==> r.value + |pattern| <= |s|
    decreases |s| - at
  {
    if !StartsWith(s[at..], pattern) && at < |s| {
      FindFinds(s, pattern, at + 1);
    }
  }

  // One turn of the header loop, at `at` and with the path found so far.
  lemma HeadersStep(chunk: string, at: nat, prefix: string, named: bool, path: string)
    ensures Outcome(prefix, named, ReadHeaders(chunk, at), path) ==
            match LineEnd(chunk, at)
            case None => Err(BufferOverrun)
            case Some(q) =>
              var line := CutNul(chunk[at..q]);
              match PathAfter(prefix, named, line, path)
              case Err(e) => Err(e)
              case Ok(p) =>
                if line == "" then Ok((p, q + 2)) else Outcome(prefix, named, ReadHeaders(chunk, q + 2), p)
  {
  }

  class Gateway {
    const buffer: array<char>
    var pending: string      // what the request's stream has not delivered yet
    var bufferCount: nat
    var line: nat
    var nextLine: nat
    var boundary: string
    var filePath: string
    var fileSize: int

    constructor (bufferSize: nat, input: string)
      requires bufferSize > 0
      ensures fresh(buffer) && buffer.Length == bufferSize && pending == input
    {
      buffer := new char[bufferSize];
      pending := input;
      bufferCount, line, nextLine := 0, 0, 0;
      boundary, filePath, fileSize := "", "", 0;
    }

    /** The buffer still is `chunk` from the next line on. */
    ghost predicate Holds(chunk: string)
      reads this, buffer
    {
      && |chunk| == bufferCount <= buffer.Length
      && line <= nextLine <= bufferCount
      && forall i :: nextLine <= i < bufferCount ==> buffer[i] == chunk[i]
    }

    /** The C string at `line`. */
    ghost function Line(): string
      requires line <= buffer.Length
      reads this, buffer
    {
      CutNul(buffer[line..])
    }

    /** FCGX_GetStr: fills the buffer as far as the stream goes. */
    method GetStr() returns (n: nat)
      modifies buffer, `pending
      ensures n == |FirstChunk(old(pending), buffer.Length)| <= buffer.Length
      ensures buffer[..n] == FirstChunk(old(pending), buffer.Length)
      ensures old(pending) == buffer[..n] + pending
    {
      n := if buffer.Length <= |pending| then buffer.Length else |pending|;
      forall i | 0 <= i < n { buffer[i] := pending[i]; }
      assert buffer[..n] == pending[..n];
      pending := pending[n..];
    }

    method ReadLine(ghost chunk: string) returns (thrown: Option<Error>)
      requires Holds(chunk)
      modifies buffer, `line, `nextLine
      ensures thrown.Some? <==> LineEnd(chunk, old(nextLine)).None?
      ensures thrown.Some? ==> thrown.value == BufferOverrun
      ensures thrown.None? ==>
                && Holds(chunk)
                && line == old(nextLine) && nextLine == LineEnd(chunk, line).value + 2
                && Line() == CutNul(chunk[line..LineEnd(chunk, line).value])
    {
      line := nextLine;
      while nextLine + 1 < bufferCount && buffer[nextLine] != '\r' && buffer[nextLine + 1] != '\n'
        invariant line <= nextLine <= bufferCount
        invariant LineEnd(chunk, nextLine) == LineEnd(chunk, line)
        modifies `nextLine
      {
        nextLine := nextLine + 1;
      }
      if !(nextLine + 1 < bufferCount) { return Some(BufferOverrun); }
      buffer[nextLine] := '\0';
      LineInPlace(buffer[..], chunk, line, nextLine);
      nextLine := nextLine + 2;
      return None;
    }

    method GetBoundary(contentType: Option<string>) returns (thrown: Option<Error>)
      modifies `boundary
      requires boundary == ""
      ensures match BoundaryOf(contentType)
        case Ok(b) => thrown.None? && boundary == b
        case Err(e) => thrown == Some(e)
    {
      if contentType.None? { return Some(NoContentType); }
      var t := contentType.value;
      if !StartsWith(t, MULTIPART) { return None; }
      var at := |MULTIPART|;
      while at < |t| && t[at] == ' '
        invariant |MULTIPART| <= at <= |t|
        invariant forall i :: |MULTIPART| <= i < at ==> t[i] == ' '
      {
        at := at + 1;
      }
      SkipSpacesStops(t[|MULTIPART|..], at - |MULTIPART|);
      assert t[|MULTIPART|..][at - |MULTIPART|..] == t[at..];
      if !StartsWith(t[at..], BOUNDARY) { return Some(MissingBoundaryString); }
      boundary := "--";
      boundary := boundary + t[at..][|BOUNDARY|..];
      return None;
    }

    /** Ends the file name at its quote, in the buffer, and builds the path from it. */
    method GetFilePath(prefix: string, ghost chunk: string) returns (thrown: Option<Error>)
      requires Holds(chunk) && line + |Line()| < nextLine && StartsWith(Line(), DISPOSITION)
      modifies buffer, `filePath
      ensures Holds(chunk) && buffer[line] == old(buffer[line])
      ensures match FilePathOf(prefix, old(Line()))
        case Ok(p) => thrown.None? && filePath == p
        case Err(e) => thrown == Some(e) && filePath == old(filePath)
    {
      var text := CutNul(buffer[line..]);
      var filename := Find(text, FILENAME, 0);
      if filename.None? { return Some(FilenameMissing); }
      FindFinds(text, FILENAME, 0);
      var name := text[filename.value + |FILENAME|..];
      var quote := IndexOf(name, '"');
      if quote == |name| { return Some(MissingEndQuote); }
      buffer[line + filename.value + |FILENAME| + quote] := '\0';
      filePath := PathOf(prefix, name[..quote]);
      return None;
    }

    /** One turn of the header loop. */
    method ReadHeaderLine(prefix: string, named: bool, ghost chunk: string) returns (thrown: Option<Error>, more: bool)
      requires Holds(chunk)
      modifies buffer, `line, `nextLine, `filePath
      ensures match LineEnd(chunk, old(nextLine))
        case None => thrown == Some(BufferOverrun)
        case Some(q) =>
          var text := CutNul(chunk[old(nextLine)..q]);
          match PathAfter(prefix, named, text, old(filePath))
          case Err(e) => thrown == Some(e)
          case Ok(p) => thrown.None? && Holds(chunk) && nextLine == q + 2 && filePath == p && (more <==> text != "")
    {
      more := false;
      thrown := ReadLine(chunk);
      if thrown.Some? { return; }
      if !named && StartsWith(CutNul(buffer[line..]), DISPOSITION) {
        thrown := GetFilePath(prefix, chunk);
        if thrown.Some? { return; }
      }
      more := buffer[line] != '\0';
    }

    /** The header loop, up to the empty line. */
    method ReadHeaderLines(prefix: string, named: bool, ghost chunk: string) returns (thrown: Option<Error>)
      requires Holds(chunk)
      modifies buffer, `line, `nextLine, `filePath
      ensures match Outcome(prefix, named, ReadHeaders(chunk, old(nextLine)), old(filePath))
        case Err(e) => thrown == Some(e)
        case Ok((p, start)) => thrown.None? && Holds(chunk) && filePath == p && nextLine == start
    {
      ghost var outcome := Outcome(prefix, named, ReadHeaders(chunk, nextLine), filePath);
      thrown := None;
      var more := true;
      while more
        invariant Holds(chunk) && thrown.None?
        invariant outcome == if more then Outcome(prefix, named, ReadHeaders(chunk, nextLine), filePath)
                             else Ok((filePath, nextLine))
        decreases more, bufferCount - nextLine
      {
        HeadersStep(chunk, nextLine, prefix, named, filePath);
        thrown, more := ReadHeaderLine(prefix, named, chunk);
        if thrown.Some? { return; }
      }
    }

    /** Writes the rest of the buffer and of the stream, then takes the trailer off. */
    method SaveContent() returns (content: string)
      requires 0 < buffer.Length && nextLine <= bufferCount <= buffer.Length
      modifies buffer, `pending, `fileSize
      ensures var written := old(buffer[nextLine..bufferCount] + pending);
        content == Truncate(written, |written| - (|boundary| + 6))
      ensures pending == "" && (fileSize >= 0 ==> fileSize == |content|)
    {
      fileSize := bufferCount - nextLine;
      content := buffer[nextLine..bufferCount];
      var more := true;
      while more
        invariant fileSize == |content|
        invariant content + pending == old(buffer[nextLine..bufferCount] + pending)
        invariant more || pending == ""
        decreases |pending|, more
      {
        ghost var before := pending;
        var n := GetStr();
        fileSize := fileSize + n;
        content := content + buffer[..n];
        more := n == buffer.Length;
        assert before == buffer[..n] + pending;
      }
      fileSize := fileSize - (|boundary| + 6);
      content := Truncate(content, fileSize);
    }

    /** From the header lines on. */
    method SaveBehindDelimiter(prefix: string, named: bool, ghost chunk: string, ghost input: string)
      returns (r: Result<Saved, Error>)
      requires 0 < buffer.Length && Holds(chunk) && input == chunk + pending
      modifies this, buffer
      ensures r == Finish(prefix, named, old(filePath), ReadHeaders(chunk, old(nextLine)), input, |old(boundary)| + 6)
      ensures r.Ok? ==> pending == "" && filePath == r.value.path && (fileSize >= 0 ==> fileSize == |r.value.content|)
    {
      var thrown := ReadHeaderLines(prefix, named, chunk);
      if thrown.Some? { return Err(thrown.value); }
      if filePath == "" { return Err(OpenFailed); }
      assert buffer[nextLine..bufferCount] + pending == input[nextLine..];
      var content := SaveContent();
      r := Ok(Saved(filePath, content));
    }

    method SaveDelimited(prefix: string, filename: string) returns (r: Result<Saved, Error>)
      requires 0 < buffer.Length
      requires line == nextLine == 0 && filePath == FirstPath(prefix, filename)
      modifies this, buffer
      ensures r == SavePart(old(boundary), prefix, filename, old(pending), buffer.Length)
      ensures r.Ok? ==> pending == "" && filePath == r.value.path && (fileSize >= 0 ==> fileSize == |r.value.content|)
    {
      ghost var input := pending;
      bufferCount := GetStr();
      ghost var chunk := FirstChunk(input, buffer.Length);
      var thrown := ReadLine(chunk);
      if thrown.Some? { return Err(thrown.value); }
      assert chunk[line..nextLine - 2] == chunk[..nextLine - 2];
      if CutNul(buffer[line..]) != boundary { return Err(NotABoundary); }
      r := SaveBehindDelimiter(prefix, filename != "", chunk, input);
    }

    /** save_multipart_file: leaves on file, and reports, what Save says, for every request. */
    method SaveMultipartFile(contentType: Option<string>, prefix: string, filename: string)
      returns (r: Result<Saved, Error>)
      requires 0 < buffer.Length
      modifies this, buffer
      ensures r == Save(contentType, prefix, filename, old(pending), buffer.Length)
      ensures r.Ok? ==> pending == "" && filePath == r.value.path && (fileSize >= 0 ==> fileSize == |r.value.content|)
    {
      boundary, bufferCount, line, nextLine, filePath := "", 0, 0, 0, "";
      if filename != "" { filePath := PathOf(prefix, filename); }
      var thrown := GetBoundary(contentType);
      if thrown.Some? { return Err(thrown.value); }
      r := SaveDelimited(prefix, filename);
    }
  }
}
