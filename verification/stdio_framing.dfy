/** The two framings of the ACP stdio transport: one JSON text per line, and
    `Content-Length` headers that count UTF-8 bytes. The reader is specified as a function
    of the remaining input; the class below it is the reader as the server runs it. */
module StdioFraming {
  import opened PyText

  datatype Framing = Newline | ContentLength

  datatype Message = Message(body: string, framing: Framing)

  datatype FramingError = BadLength | NegativeLength | EofInHeaders | EofInBody | SplitCharacter

  /** Outcome of reading one frame; `rest` is the input left for the next read. */
  datatype ReadResult =
    | Eof
    | Got(message: Message, rest: string)
    | Failed(error: FramingError, rest: string)

  datatype Header = OtherLine | Length(n: nat) | BadHeader(error: FramingError)

  /** What the server assumes of a printed JSON object: braces at both ends, no raw newline. */
  predicate JsonObjectText(body: string) {
    |body| >= 2 && body[0] == '{' && body[|body| - 1] == '}' && '\n' !in body
  }

  // The reader, as a function of the remaining input.

  function ParseContentLength(line: string): Header {
    var i := FirstIndex(line, ':');
    if i == |line| || LowerAscii(Strip(line[..i])) != "content-length" then OtherLine
    else match ParseInt(line[i + 1..])
      case None => BadHeader(BadLength)
      case Some(n) => if n < 0 then BadHeader(NegativeLength) else Length(n)
  }

  /** Length of the first line, its newline included. */
  function LineLength(s: string): (n: nat)
    ensures n <= |s|
    ensures s != "" ==> n > 0
  {
    var i := FirstIndex(s, '\n');
    if i < |s| then i + 1 else i
  }

  function ReadFrame(s: string): ReadResult
    decreases |s|
  {
    if s == "" then Eof
    else
      var line, rest := s[..LineLength(s)], s[LineLength(s)..];
      if Strip(line) == "" then ReadFrame(rest)
      else match ParseContentLength(line)
        case OtherLine => Got(Message(Strip(line), Newline), rest)
        case BadHeader(e) => Failed(e, rest)
        case Length(n) => ReadHeaders(rest, n)
  }

  function ReadHeaders(s: string, n: nat): ReadResult
    decreases |s|
  {
    if s == "" then Failed(EofInHeaders, s)
    else
      var line, rest := s[..LineLength(s)], s[LineLength(s)..];
      if Strip(line) == "" then ReadBody(rest, n, 0)
      else match ParseContentLength(line)
        case OtherLine => ReadHeaders(rest, n)
        case BadHeader(e) => Failed(e, rest)
        case Length(m) => ReadHeaders(rest, m)
  }

  /** Reads characters one at a time, `taken` of them so far, until `n` bytes are reached. */
  function ReadBody(s: string, n: nat, taken: nat): ReadResult
    requires taken <= |s|
    decreases |s| - taken
  {
    var bytes := Utf8Length(s[..taken]);
    if bytes == n then Got(Message(s[..taken], ContentLength), s[taken..])
    else if bytes > n then Failed(SplitCharacter, s[taken..])
    else if taken == |s| then Failed(EofInBody, "")
    else ReadBody(s, n, taken + 1)
  }

  /** Reads frames until the input ends or a frame is malformed. */
  function ReadAll(s: string): (seq<Message>, ReadResult)
    decreases |s|
  {
    match ReadFrame(s)
    case Eof => ([], Eof)
    case Failed(e, rest) => ([], Failed(e, rest))
    case Got(m, rest) =>
      FrameConsumes(s);
      var (more, end) := ReadAll(rest);
      ([m] + more, end)
  }

  /** Every read that delivers a frame leaves strictly less input. */
  lemma {:induction false} FrameConsumes(s: string)
    ensures ReadFrame(s).Got? ==> |ReadFrame(s).rest| < |s|
    decreases |s|
  {
    if s != "" {
      var line, rest := s[..LineLength(s)], s[LineLength(s)..];
      if Strip(line) == "" {
        FrameConsumes(rest);
      } else if ParseContentLength(line).Length? {
        HeadersConsume(rest, ParseContentLength(line).n);
      }
    }
  }

  lemma {:induction false} HeadersConsume(s: string, n: nat)
    ensures ReadHeaders(s, n).Got? ==> |ReadHeaders(s, n).rest| <= |s|
    decreases |s|
  {
    if s != "" {
      var line, rest := s[..LineLength(s)], s[LineLength(s)..];
      if Strip(line) == "" {
        BodyOutcome(rest, n, 0);
      } else {
        match ParseContentLength(line)
        case OtherLine => HeadersConsume(rest, n);
        case BadHeader(_) =>
        case Length(m) => HeadersConsume(rest, m);
      }
    }
  }

  // The writer.

  /** `eol` is the header terminator: as written, or after the newline translation of a text stream. */
  function Write(m: Message, eol: string): string {
    match m.framing
    case Newline => m.body + "\n"
    case ContentLength => "Content-Length: " + PrintNat(Utf8Length(m.body)) + eol + eol + m.body
  }

  function WriteAll(ms: seq<Message>, eol: string): string {
    if ms == [] then "" else Write(ms[0], eol) + WriteAll(ms[1..], eol)
  }

  predicate HeaderEnd(eol: string) {
    eol == "\r\n" || eol == "\n"
  }

  // Byte counting.

  lemma {:induction false} PrefixBytesGrow(s: string, i: nat, j: nat)
    requires i < j <= |s|
    ensures Utf8Length(s[..i]) < Utf8Length(s[..j])
  {
    assert s[..j][..j - 1] == s[..j - 1];
    if i < j - 1 {
      PrefixBytesGrow(s, i, j - 1);
    }
  }

  /** The declared length is honoured exactly: a body is delivered if and only if some prefix of
      the input has that many bytes, and then it is that prefix; a length that falls inside a
      character and one that exceeds the input are the two failures. */
  lemma {:induction false} BodyOutcome(s: string, n: nat, taken: nat)
    requires taken <= |s|
    ensures forall k :: taken <= k <= |s| && Utf8Length(s[..k]) == n
              ==> ReadBody(s, n, taken) == Got(Message(s[..k], ContentLength), s[k..])
    ensures (forall k :: taken <= k <= |s| ==> Utf8Length(s[..k]) != n)
              ==> ReadBody(s, n, taken).Failed?
    ensures (ReadBody(s, n, taken).Failed? && ReadBody(s, n, taken).error == EofInBody) <==> Utf8Length(s) < n
    ensures ReadBody(s, n, taken).Got? ==> |ReadBody(s, n, taken).rest| <= |s|
    decreases |s| - taken
  {
    assert s[..|s|] == s;
    forall k | taken < k <= |s| ensures Utf8Length(s[..taken]) < Utf8Length(s[..k]) {
      PrefixBytesGrow(s, taken, k);
    }
    if Utf8Length(s[..taken]) < n && taken < |s| {
      BodyOutcome(s, n, taken + 1);
    }
  }

  lemma BodyRoundTrip(body: string, tail: string)
    ensures ReadBody(body + tail, Utf8Length(body), 0) == Got(Message(body, ContentLength), tail)
  {
    var s := body + tail;
    BodyOutcome(s, Utf8Length(body), 0);
    assert s[..|body|] == body && s[|body|..] == tail;
  }

  // Headers.

  lemma HeaderName()
    ensures LowerAscii(Strip("Content-Length")) == "content-length"
  {
    var name := "Content-Length";
    StripPadded("", name, "");
    assert "" + name + "" == name;
    assert LowerAscii(name) == "content-length";
  }

  lemma {:induction false} HeaderParses(n: nat, eol: string)
    requires HeaderEnd(eol)
    ensures ParseContentLength("Content-Length: " + PrintNat(n) + eol) == Length(n)
  {
    var name, value := "Content-Length", " " + PrintNat(n) + eol;
    var line := "Content-Length: " + PrintNat(n) + eol;
    assert line == name + [':'] + value;
    FirstIndexAt(name, ':', value);
    assert line[..|name|] == name && line[|name| + 1..] == value;
    HeaderName();
    ParsePrinted(" ", n, eol);
  }

  lemma {:induction false} RStripKeepsHead(s: string)
    requires s != "" && !IsSpace(s[0])
    ensures RStrip(s) != "" && RStrip(s)[0] == s[0]
  {
    if IsSpace(s[|s| - 1]) {
      RStripKeepsHead(s[..|s| - 1]);
    }
  }

  /** A JSON object line is never taken for a header, whatever keys it contains. */
  lemma {:induction false} ObjectIsNoHeader(body: string, tail: string)
    requires JsonObjectText(body)
    ensures ParseContentLength(body + tail) == OtherLine
  {
    var line := body + tail;
    var i := FirstIndex(line, ':');
    if i < |line| {
      assert line[0] == '{';
      RStripKeepsHead(line[..i]);
      assert LowerAscii(Strip(line[..i]))[0] == '{';
    }
  }

  lemma FirstLine(line: string, rest: string)
    requires '\n' !in line
    ensures LineLength(line + "\n" + rest) == |line| + 1
    ensures (line + "\n" + rest)[..|line| + 1] == line + "\n"
    ensures (line + "\n" + rest)[|line| + 1..] == rest
  {
    FirstIndexAt(line, '\n', rest);
  }

  // Round trip.

  lemma {:induction false} NewlineRoundTrip(body: string, tail: string)
    requires JsonObjectText(body)
    ensures ReadFrame(body + "\n" + tail) == Got(Message(body, Newline), tail)
  {
    FirstLine(body, tail);
    StripPadded("", body, "\n");
    assert "" + body + "\n" == body + "\n";
    ObjectIsNoHeader(body, "\n");
  }

  lemma BlankHeaderLine(eol: string, n: nat, rest: string)
    requires HeaderEnd(eol)
    ensures ReadHeaders(eol + rest, n) == ReadBody(rest, n, 0)
  {
    StripBlank(eol);
    if eol == "\n" {
      FirstLine("", rest);
      assert "" + "\n" + rest == eol + rest;
    } else {
      FirstLine("\r", rest);
      assert "\r" + "\n" + rest == eol + rest;
    }
  }

  /** A written header is one line, and not a blank one. */
  lemma HeaderIsLine(n: nat, eol: string, rest: string)
    requires HeaderEnd(eol)
    ensures var header := "Content-Length: " + PrintNat(n) + eol;
      && LineLength(header + rest) == |header| && (header + rest)[..|header|] == header && (header + rest)[|header|..] == rest
      && Strip(header) != ""
  {
    var text := "Content-Length: " + PrintNat(n);
    var header := text + eol;
    var bare := text + eol[..|eol| - 1];
    assert header == bare + "\n";
    FirstLine(bare, rest);
    StripPadded("", text, eol);
    assert "" + text + eol == header;
  }

  lemma HeaderLineRead(n: nat, eol: string, rest: string)
    requires HeaderEnd(eol)
    ensures ReadFrame("Content-Length: " + PrintNat(n) + eol + rest) == ReadHeaders(rest, n)
  {
    hide Strip, LineLength, ParseContentLength, ReadHeaders, HeaderEnd;
    HeaderIsLine(n, eol, rest);
    HeaderParses(n, eol);
  }

  lemma {:induction false} ContentLengthRoundTrip(body: string, eol: string, tail: string)
    requires HeaderEnd(eol)
    ensures ReadFrame(Write(Message(body, ContentLength), eol) + tail) == Got(Message(body, ContentLength), tail)
  {
    hide ReadFrame, ReadHeaders, ReadBody, PrintNat, Utf8Length, HeaderEnd;
    var n := Utf8Length(body);
    var header := "Content-Length: " + PrintNat(n) + eol;
    assert Write(Message(body, ContentLength), eol) + tail == header + (eol + (body + tail));
    HeaderLineRead(n, eol, eol + (body + tail));
    BlankHeaderLine(eol, n, body + tail);
    BodyRoundTrip(body, tail);
  }

  lemma MessageRoundTrip(m: Message, eol: string, tail: string)
    requires HeaderEnd(eol) && (m.framing.Newline? ==> JsonObjectText(m.body))
    ensures ReadFrame(Write(m, eol) + tail) == Got(m, tail)
  {
    hide ReadFrame;
    match m.framing
    case Newline => NewlineRoundTrip(m.body, tail);
    case ContentLength => ContentLengthRoundTrip(m.body, eol, tail);
  }

  /** Reading back any list of messages, in any mix of framings, gives the same bodies and
      framings in the same order and then the end of the input. */
  lemma {:induction false} StdioRoundTrip(ms: seq<Message>, eol: string)
    requires HeaderEnd(eol)
    requires forall m <- ms :: m.framing.Newline? ==> JsonObjectText(m.body)
    ensures ReadAll(WriteAll(ms, eol)) == (ms, Eof)
  {
    if ms == [] {
    } else {
      hide ReadFrame, Write, JsonObjectText;
      var tail := WriteAll(ms[1..], eol);
      MessageRoundTrip(ms[0], eol, tail);
      assert ReadFrame(WriteAll(ms, eol)) == Got(ms[0], tail);
      StdioRoundTrip(ms[1..], eol);
      assert ms == [ms[0]] + ms[1..];
    }
  }

  // Header blocks that other clients may write.

  function Unlines(lines: seq<string>): string {
    if lines == [] then "" else lines[0] + "\n" + Unlines(lines[1..])
  }

  /** The length a header block declares: that of its last length header, or the one known before. */
  function LastLength(lines: seq<string>, known: nat): nat {
    if lines == [] then known
    else match ParseContentLength(lines[|lines| - 1] + "\n")
      case Length(n) => n
      case _ => LastLength(lines[..|lines| - 1], known)
  }

  predicate HeaderLine(line: string) {
    '\n' !in line && Strip(line + "\n") != "" && !ParseContentLength(line + "\n").BadHeader?
  }

  lemma {:induction false} LastLengthFront(lines: seq<string>, known: nat)
    requires lines != []
    ensures var first := ParseContentLength(lines[0] + "\n");
      LastLength(lines, known) == LastLength(lines[1..], if first.Length? then first.n else known)
  {
    hide ParseContentLength;
    if |lines| > 1 {
      LastLengthFront(lines[..|lines| - 1], known);
      assert lines[..|lines| - 1][1..] == lines[1..][..|lines| - 2];
    }
  }

  lemma ReadHeaderLine(line: string, n: nat, more: string)
    requires HeaderLine(line)
    ensures var header := ParseContentLength(line + "\n");
      ReadHeaders(line + "\n" + more, n) == ReadHeaders(more, if header.Length? then header.n else n)
  {
    hide ParseContentLength, Strip;
    FirstLine(line, more);
  }

  lemma UnlinesFront(lines: seq<string>, tail: string)
    requires lines != []
    ensures Unlines(lines) + tail == lines[0] + "\n" + (Unlines(lines[1..]) + tail)
  {
  }

  /** A header block of any lines, in any order, ends at a blank line and declares its last length; one that
      ends with the input is an error. */
  lemma {:induction false} HeaderBlock(lines: seq<string>, n: nat, rest: string)
    requires forall line <- lines :: HeaderLine(line)
    ensures ReadHeaders(Unlines(lines) + ("\n" + rest), n) == ReadBody(rest, LastLength(lines, n), 0)
    ensures ReadHeaders(Unlines(lines), n) == Failed(EofInHeaders, "")
  {
    if lines == [] {
      assert "" + ("\n" + rest) == "\n" + rest;
      BlankHeaderLine("\n", n, rest);
    } else {
      hide ReadHeaders, ReadBody, HeaderLine, ParseContentLength, LastLength, Strip;
      var header := ParseContentLength(lines[0] + "\n");
      var known := if header.Length? then header.n else n;
      LastLengthFront(lines, n);
      UnlinesFront(lines, "\n" + rest);
      ReadHeaderLine(lines[0], n, Unlines(lines[1..]) + ("\n" + rest));
      ReadHeaderLine(lines[0], n, Unlines(lines[1..]));
      HeaderBlock(lines[1..], known, rest);
    }
  }

  /** What one header line declares: nothing unless its name is the length header's, in any case and
      padding; then its value must be a number, and not a negative one. */
  lemma HeaderLineExactly(name: string, value: string)
    requires ':' !in name
    ensures ParseContentLength(name + ":" + value)
         == if LowerAscii(Strip(name)) != "content-length" then OtherLine
            else if ParseInt(value).None? then BadHeader(BadLength)
            else if ParseInt(value).value < 0 then BadHeader(NegativeLength)
            else Length(ParseInt(value).value)
    ensures ParseContentLength(name) == OtherLine
  {
    hide Strip, LowerAscii, ParseInt;
    FirstIndexAt(name, ':', value);
    assert (name + ":" + value)[..|name|] == name && (name + ":" + value)[|name| + 1..] == value;
  }

  /** Blank lines between frames are skipped. */
  lemma BlankLinesSkipped(blank: string, rest: string)
    requires '\n' !in blank && AllSpace(blank)
    ensures ReadFrame(blank + "\n" + rest) == ReadFrame(rest)
  {
    hide ParseContentLength;
    FirstLine(blank, rest);
    StripBlank(blank + "\n");
  }

  /** A text input stream: what is left to read. */
  class TextInput {
    var rest: string

    constructor (text: string)
      ensures rest == text
    {
      rest := text;
    }

    method ReadLine() returns (line: string)
      modifies this
      ensures line == old(rest)[..LineLength(old(rest))] && rest == old(rest)[LineLength(old(rest))..]
    {
      var n := 0;
      while n < |rest| && rest[n] != '\n'
        invariant n <= |rest|
        invariant forall k :: 0 <= k < n ==> rest[k] != '\n'
        invariant rest == old(rest)
      {
        n := n + 1;
      }
      assert n == FirstIndex(rest, '\n');
      var len := if n < |rest| then n + 1 else n;
      line, rest := rest[..len], rest[len..];
    }

    method ReadChar() returns (chunk: string)
      modifies this
      ensures chunk + rest == old(rest) && |chunk| == if old(rest) == "" then 0 else 1
    {
      var n := if rest == "" then 0 else 1;
      chunk, rest := rest[..n], rest[n..];
    }
  }

  /** What a finished read left in the stream. */
  function RestOf(r: ReadResult): string {
    if r.Eof? then "" else r.rest
  }

  method ReadStdioFrame(stdin: TextInput) returns (r: ReadResult)
    modifies stdin
    ensures r == ReadFrame(old(stdin.rest))
    ensures stdin.rest == RestOf(r)
  {
    ghost var input := stdin.rest;
    while true
      invariant ReadFrame(stdin.rest) == ReadFrame(input)
      decreases |stdin.rest|
    {
      ghost var before := stdin.rest;
      var firstLine := stdin.ReadLine();
      if firstLine == "" { return Eof; }
      var stripped := Strip(firstLine);
      if stripped == "" { continue; }
      var contentLength;
      match ParseContentLength(firstLine) {
        case OtherLine => return Got(Message(stripped, Newline), stdin.rest);
        case BadHeader(e) => return Failed(e, stdin.rest);
        case Length(n) => contentLength := n;
      }
      while true
        invariant ReadHeaders(stdin.rest, contentLength) == ReadFrame(input)
        decreases |stdin.rest|
      {
        var headerLine := stdin.ReadLine();
        if headerLine == "" { return Failed(EofInHeaders, stdin.rest); }
        if Strip(headerLine) == "" { break; }
        match ParseContentLength(headerLine) {
          case OtherLine =>
          case BadHeader(e) => return Failed(e, stdin.rest);
          case Length(n) => contentLength := n;
        }
      }
      r := ReadStdioBody(stdin, contentLength);
      return;
    }
  }

  method ReadStdioBody(stdin: TextInput, contentLength: nat) returns (r: ReadResult)
    modifies stdin
    ensures r == ReadBody(old(stdin.rest), contentLength, 0)
    ensures stdin.rest == RestOf(r)
  {
    ghost var whole := stdin.rest;
    var bodyChars := "";
    var bodyBytes := 0;
    while bodyBytes < contentLength
      invariant |bodyChars| <= |whole| && bodyChars == whole[..|bodyChars|] && stdin.rest == whole[|bodyChars|..]
      invariant bodyBytes == Utf8Length(bodyChars) <= contentLength
      invariant ReadBody(whole, contentLength, |bodyChars|) == ReadBody(whole, contentLength, 0)
      decreases |stdin.rest|
    {
      var chunk := stdin.ReadChar();
      if chunk == "" { return Failed(EofInBody, ""); }
      OneMoreChar(whole, |bodyChars|, chunk, stdin.rest);
      bodyChars := bodyChars + chunk;
      bodyBytes := bodyBytes + Utf8Size(chunk[0]);
      if bodyBytes > contentLength { return Failed(SplitCharacter, stdin.rest); }
    }
    return Got(Message(bodyChars, ContentLength), stdin.rest);
  }

  lemma OneMoreChar(whole: string, k: nat, chunk: string, rest: string)
    requires k <= |whole| && chunk + rest == whole[k..] && |chunk| == 1
    ensures k + 1 <= |whole| && whole[..k] + chunk == whole[..k + 1] && rest == whole[k + 1..]
    ensures Utf8Length(whole[..k + 1]) == Utf8Length(whole[..k]) + Utf8Size(chunk[0])
  {
    assert whole[k..][0] == chunk[0] && whole[k..][1..] == rest;
    assert whole[..k + 1][..k] == whole[..k];
  }
}
