/** What becomes of an upload, with every text written out: where the file is put, what stands in
    it, and why it is refused. */
module UploadResults {
  import opened Common
  import opened Wrappers
  import opened Multipart

  // ------------------------------------------------------------------- parts

  /** A C string is what stands before the first NUL. */
  lemma {:induction false} CStringIs(s: string)
    ensures var c := CutNul(s); c <= s && '\0' !in c && (|c| < |s| ==> s[|c|] == '\0')
  {
    if s != "" { CStringIs(s[1..]); }
  }

  /** strstr finds the first place where the pattern stands. */
  lemma {:induction false} FindIff(s: string, pattern: string, at: nat, k: nat)
    requires at <= k <= |s|
    requires forall i :: at <= i < k ==> !StartsWith(s[i..], pattern)
    ensures StartsWith(s[k..], pattern) ==> Find(s, pattern, at) == Some(k)
    ensures k == |s| && !StartsWith(s[k..], pattern) ==> Find(s, pattern, at) == None
    decreases k - at
  {
    if at < k { FindIff(s, pattern, at + 1, k); }
  }

  /** A line ends at the first CR, or before the first LF, that has one more character of the
      chunk behind it. */
  predicate EndsAt(chunk: string, q: nat) {
    q + 1 < |chunk| && (chunk[q] == '\r' || chunk[q + 1] == '\n')
  }

  lemma {:induction false} LineEndIsFirst(chunk: string, at: nat)
    ensures match LineEnd(chunk, at)
      case Some(q) => at <= q && EndsAt(chunk, q) && forall i :: at <= i < q ==> !EndsAt(chunk, i)
      case None => forall i :: at <= i ==> !EndsAt(chunk, i)
    decreases |chunk| - at
  {
    if at + 1 < |chunk| && !EndsAt(chunk, at) { LineEndIsFirst(chunk, at + 1); }
  }

  /** The file name stands at `k` in the line, where the line says so first. */
  ghost predicate NameAt(line: string, k: nat, name: string) {
    && k + 10 <= |line| && line[k..k + 10] == "filename=\"" && line[k + 10..] == name
    && forall i :: 0 <= i < k ==> !StartsWith(line[i..], "filename=\"")
  }

  lemma FoundName(line: string, k: nat, name: string)
    requires NameAt(line, k, name)
    ensures Find(line, FILENAME, 0) == Some(k) && |FILENAME| == 10
  {
    assert line[k..][..10] == line[k..k + 10];
    FindIff(line, FILENAME, 0, k);
  }

  /** A Content-Disposition line: the name up to its closing quote, or the error. */
  lemma NamedLine(prefix: string, line: string, k: nat, name: string, behind: string)
    requires NameAt(line, k, name + "\"" + behind) && '"' !in name
    ensures FilePathOf(prefix, line).Ok? && IsPath(FilePathOf(prefix, line).value, prefix, name)
  {
    var text := name + "\"" + behind;
    FoundName(line, k, text);
    QuoteBehind(name, behind);
    assert text[..|name|] == name;
  }

  lemma {:induction false} QuoteBehind(name: string, behind: string)
    requires '"' !in name
    ensures IndexOf(name + "\"" + behind, '"') == |name|
  {
    var text := name + "\"" + behind;
    assert text[|name|] == '"';
    assert forall i :: 0 <= i < |name| ==> text[i] == name[i] != '"';
  }

  lemma UnnamedLine(prefix: string, line: string)
    requires forall i :: 0 <= i <= |line| ==> !StartsWith(line[i..], "filename=\"")
    ensures FilePathOf(prefix, line) == Err(FilenameMissing)
  {
    FindIff(line, FILENAME, 0, |line|);
  }

  lemma UnquotedLine(prefix: string, line: string, k: nat, name: string)
    requires NameAt(line, k, name) && '"' !in name
    ensures FilePathOf(prefix, line) == Err(MissingEndQuote)
  {
    FoundName(line, k, name);
  }

  // -------------------------------------------------------------- header lines

  predicate IsDisposition(line: string) { StartsWith(line, "Content-Disposition:") }

  ghost predicate NoDisposition(headers: seq<string>) {
    forall i :: 0 <= i < |headers| ==> !IsDisposition(headers[i])
  }

  lemma {:induction false} OtherHeaders(prefix: string, headers: seq<string>, path: string)
    requires NoDisposition(headers)
    ensures HeadersPath(prefix, false, headers, path) == Ok(path)
  {
    if headers != [] {
      assert !IsDisposition(headers[0]);
      OtherHeaders(prefix, headers[1..], path);
    }
  }

  lemma {:induction false} NamedIgnoresHeaders(prefix: string, headers: seq<string>, path: string)
    ensures HeadersPath(prefix, true, headers, path) == Ok(path)
  {
    if headers != [] { NamedIgnoresHeaders(prefix, headers[1..], path); }
  }

  // Header lines one after the other.
  lemma {:induction false} HeadersInTurn(prefix: string, named: bool, a: seq<string>, b: seq<string>, path: string)
    ensures HeadersPath(prefix, named, a + b, path) ==
            match HeadersPath(prefix, named, a, path)
            case Err(e) => Err(e)
            case Ok(p) => HeadersPath(prefix, named, b, p)
  {
    if a == [] {
      assert a + b == b;
    } else {
      assert (a + b)[0] == a[0] && (a + b)[1..] == a[1..] + b;
      var p := PathAfter(prefix, named, a[0], path);
      if p.Ok? { HeadersInTurn(prefix, named, a[1..], b, p.value); }
    }
  }

  // A Content-Disposition line among the others.
  lemma HeadersWith(prefix: string, before: seq<string>, line: string, behind: seq<string>)
    requires NoDisposition(before) && IsDisposition(line) && NoDisposition(behind)
    ensures PathFrom(prefix, "", before + [line] + behind) == FilePathOf(prefix, line)
  {
    OtherHeaders(prefix, before, "");
    HeadersInTurn(prefix, false, before, [line] + behind, "");
    assert before + [line] + behind == before + ([line] + behind);
    assert ([line] + behind)[1..] == behind;
    var p := FilePathOf(prefix, line);
    if p.Ok? { OtherHeaders(prefix, behind, p.value); }
  }

  // ---------------------------------------------------------------- main results

  /** The content type of an upload, with its boundary. */
  function ContentType(boundary: string): Option<string> { Some("multipart/form-data; boundary=" + boundary) }

  lemma ContentTypeIs(boundary: string)
    ensures ContentType(boundary) == Some(MULTIPART + " " + BOUNDARY + boundary)
  {
    assert "multipart/form-data; boundary=" == MULTIPART + " " + BOUNDARY;
  }

  /** An upload under a given name: exactly the content is left in the file of that name in the
      directory, whatever the header lines say, if the head of the part fits the first chunk. */
  lemma SavedAs(boundary: string, headers: seq<string>, content: string, prefix: string, filename: string,
                bufferSize: nat)
    requires Clean(boundary) && CleanHeaders(headers) && filename != ""
    ensures var r := Save(ContentType(boundary), prefix, filename, Encode(boundary, headers, content), bufferSize);
      if |Head(boundary, headers)| <= bufferSize
      then r.Ok? && IsPath(r.value.path, prefix, filename) && r.value.content == content
      else r == Err(BufferOverrun)
  {
    NamedIgnoresHeaders(prefix, headers, PathOf(prefix, filename));
    ContentTypeIs(boundary);
    RoundTrip(boundary, headers, content, prefix, filename, bufferSize);
  }

  /** An upload that names its file: the name stands in the Content-Disposition line, from
      filename=" to the next quote. */
  lemma SavedByName(boundary: string, before: seq<string>, line: string, behind: seq<string>, k: nat, name: string,
                    rest: string, content: string, prefix: string, bufferSize: nat)
    requires Clean(boundary) && CleanHeaders(before + [line] + behind)
    requires NoDisposition(before) && IsDisposition(line) && NoDisposition(behind)
    requires NameAt(line, k, name + "\"" + rest) && '"' !in name
    ensures var headers := before + [line] + behind;
      var r := Save(ContentType(boundary), prefix, "", Encode(boundary, headers, content), bufferSize);
      if |Head(boundary, headers)| <= bufferSize
      then r.Ok? && IsPath(r.value.path, prefix, name) && r.value.content == content
      else r == Err(BufferOverrun)
  {
    HeadersWith(prefix, before, line, behind);
    NamedLine(prefix, line, k, name, rest);
    ContentTypeIs(boundary);
    RoundTrip(boundary, before + [line] + behind, content, prefix, "", bufferSize);
  }

  // What the header lines of an upload lead to, when they are all in the first chunk.
  lemma HeadLeadsTo(boundary: string, headers: seq<string>, rest: string, prefix: string, filename: string,
                    bufferSize: nat)
    requires Clean(boundary) && CleanHeaders(headers) && |Head(boundary, headers)| <= bufferSize
    ensures Save(ContentType(boundary), prefix, filename, Head(boundary, headers) + rest, bufferSize) ==
            match PathFrom(prefix, filename, headers)
            case Err(e) => Err(e)
            case Ok(path) =>
              if path == "" then Err(OpenFailed)
              else Ok(Saved(path, Truncate(rest, |rest| - |boundary| - 8)))
  {
    var input := Head(boundary, headers) + rest;
    HeadSplits(boundary, headers, rest);
    ContentTypeIs(boundary);
    BoundaryOfContentType(boundary);
    HeadIsRead("--" + boundary, headers, rest, FirstChunk(input, bufferSize), |Head(boundary, headers)|);
    assert input[|Head(boundary, headers)|..] == rest;
  }

  /** An upload whose file is named nowhere is refused, and so is one whose Content-Disposition
      line gives no name, or a name without closing quote. */
  lemma RefusedName(boundary: string, before: seq<string>, line: string, behind: seq<string>, rest: string,
                    prefix: string, bufferSize: nat)
    requires Clean(boundary) && CleanHeaders(before + [line] + behind)
    requires |Head(boundary, before + [line] + behind)| <= bufferSize
    requires NoDisposition(before) && NoDisposition(behind)
    ensures var r := Save(ContentType(boundary), prefix, "",
                          Head(boundary, before + [line] + behind) + rest, bufferSize);
      && (!IsDisposition(line) ==> r == Err(OpenFailed))
      && (IsDisposition(line) && (forall i :: 0 <= i <= |line| ==> !StartsWith(line[i..], "filename=\""))
          ==> r == Err(FilenameMissing))
      && forall k: nat, name | NameAt(line, k, name) && '"' !in name && IsDisposition(line) ::
           r == Err(MissingEndQuote)
  {
    var headers := before + [line] + behind;
    HeadLeadsTo(boundary, headers, rest, prefix, "", bufferSize);
    if IsDisposition(line) {
      HeadersWith(prefix, before, line, behind);
      if forall i :: 0 <= i <= |line| ==> !StartsWith(line[i..], "filename=\"") { UnnamedLine(prefix, line); }
      forall k: nat, name | NameAt(line, k, name) && '"' !in name
        ensures FilePathOf(prefix, line) == Err(MissingEndQuote)
      {
        UnquotedLine(prefix, line, k, name);
      }
    } else {
      assert NoDisposition(headers);
      OtherHeaders(prefix, headers, "");
    }
  }

  /** An upload whose first line is not the delimiter is refused, whatever follows. */
  lemma RefusedDelimiter(boundary: string, line: string, rest: string, prefix: string, filename: string,
                         bufferSize: nat)
    requires Clean(line) && line != "--" + boundary
    ensures Save(ContentType(boundary), prefix, filename, line + "\r\n" + rest, bufferSize) ==
            if |line| + 2 <= bufferSize then Err(NotABoundary) else Err(BufferOverrun)
  {
    ContentTypeIs(boundary);
    BoundaryOfContentType(boundary);
    FirstLineIsRead(line, rest, FirstChunk(line + "\r\n" + rest, bufferSize));
  }

  /** Requests refused for their content type. One that is not multipart at all has the empty
      line for its delimiter. */
  lemma RefusedType(spaces: string, t: string, line: string, rest: string, prefix: string, filename: string,
                    bufferSize: nat)
    requires (forall i :: 0 <= i < |spaces| ==> spaces[i] == ' ') && (t == "" || t[0] != ' ')
    ensures Save(None, prefix, filename, rest, bufferSize) == Err(NoContentType)
    ensures !StartsWith(t, "boundary=") ==>
              Save(Some("multipart/form-data;" + spaces + t), prefix, filename, rest, bufferSize)
              == Err(MissingBoundaryString)
    ensures !StartsWith(t, "multipart/form-data;") && Clean(line) && line != "" && |line| + 2 <= bufferSize ==>
              Save(Some(t), prefix, filename, line + "\r\n" + rest, bufferSize) == Err(NotABoundary)
  {
    BehindMultipart(spaces, t);
    if Clean(line) { FirstLineIsRead(line, rest, FirstChunk(line + "\r\n" + rest, bufferSize)); }
  }
}
