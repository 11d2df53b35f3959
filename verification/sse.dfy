/** Server-sent events: the printer of the realtime routes, the line decoder of the ACP
    backend, and the event ids that bind a resume point to a session. */
module Sse {
  import opened PyText
  import opened StdioFraming

  /** The JSON library: `load` is `None` where it raises, `isObject` is `isinstance(value, dict)`. */
  datatype Codec<!V> = Codec(dump: V -> string, load: string -> Option<V>, isObject: V -> bool)

  /** What the JSON library does with an object: it is printed on one line and reads back as itself. */
  predicate PrintsBack<V(==)>(codec: Codec<V>, value: V) {
    JsonObjectText(codec.dump(value)) && codec.load(codec.dump(value)) == Some(value)
  }

  /** One frame: event name, value, and the sequence number of its id when it has one. */
  datatype Frame<+V> = Frame(name: string, value: V, seqNo: Option<nat>)

  function EventId(session: string, seqNo: nat): string {
    session + ":" + PrintNat(seqNo)
  }

  function PrintFrame<V>(codec: Codec<V>, session: string, f: Frame<V>): string {
    (if f.seqNo.Some? then "id: " + EventId(session, f.seqNo.value) + "\n" else "")
    + "event: " + f.name + "\ndata: " + codec.dump(f.value) + "\n\n"
  }

  function PrintFrames<V>(codec: Codec<V>, session: string, fs: seq<Frame<V>>): string {
    if fs == [] then "" else PrintFrame(codec, session, fs[0]) + PrintFrames(codec, session, fs[1..])
  }

  // Resume points.

  /** The cursor a stream request resumes from, given its `Last-Event-ID` or `after_seq` text. */
  function ResumeCursor(raw: string, session: string): nat {
    var i := LastIndex(raw, ':');
    var number := if i < 0 then raw else if raw[..i] == session then raw[i + 1..] else "0";
    match ParseInt(number)
    case None => 0
    case Some(n) => if n < 0 then 0 else n
  }

  /** A session's own event id resumes exactly at its sequence number, and the id of any other
      session at 0, whatever colons the session ids contain. */
  lemma {:induction false} EventIdRoundTrip(issued: string, seqNo: nat, session: string)
    ensures ResumeCursor(EventId(issued, seqNo), session) == if issued == session then seqNo else 0
  {
    var raw := EventId(issued, seqNo);
    assert raw == issued + [':'] + PrintNat(seqNo);
    LastIndexAt(issued, ':', PrintNat(seqNo));
    assert raw[..|issued|] == issued && raw[|issued| + 1..] == PrintNat(seqNo);
    ParsePrintedPlain(seqNo);
    ParsePrintedPlain(0);
    assert PrintNat(0) == "0";
  }

  /** The cursor a number text stands for: what is no number, or a negative one, stands for 0. */
  function CursorOf(number: string): nat {
    var n := ParseInt(number);
    if n.Some? && n.value >= 0 then n.value else 0
  }

  /** Any resume point: a bare number, or one behind the last colon for this very session. */
  lemma {:induction false} ResumeExactly(prefix: string, number: string, session: string)
    requires ':' !in number
    ensures ResumeCursor(number, session) == CursorOf(number)
    ensures ResumeCursor(prefix + ":" + number, session) == if prefix == session then CursorOf(number) else 0
  {
    hide ParseInt, PrintNat;
    assert LastIndex(number, ':') < 0;
    var raw := prefix + ":" + number;
    LastIndexAt(prefix, ':', number);
    assert raw[..|prefix|] == prefix && raw[|prefix| + 1..] == number;
    ParsePrintedPlain(0);
    assert PrintNat(0) == "0" by { ZeroPrints(); }
  }

  lemma ZeroPrints()
    ensures PrintNat(0) == "0"
  {
  }

  // The decoder.

  /** What the decoder yields: the value itself, a snapshot wrapped in an event of that type, or
      the fixed event that replaces an `error` frame. */
  datatype Decoded<+V> = Plain(value: V) | SnapshotEvent(value: V) | StreamError

  /** Decoder variables, the events yielded so far, and whether decoding raised. */
  datatype Decoder<+V> = Decoder(eventName: string, dataLines: seq<string>, yielded: seq<Decoded<V>>, failed: bool)

  function Start<V>(): Decoder<V> {
    Decoder("message", [], [], false)
  }

  predicate IsEol(c: char) { c == '\r' || c == '\n' }

  /** `line.rstrip("\r\n")`. */
  function StripEol(s: string): string {
    if s != "" && IsEol(s[|s| - 1]) then StripEol(s[..|s| - 1]) else s
  }

  function JoinLines(lines: seq<string>): string {
    if lines == [] then ""
    else if |lines| == 1 then lines[0]
    else JoinLines(lines[..|lines| - 1]) + "\n" + lines[|lines| - 1]
  }

  function Wrap<V>(name: string, value: V): Decoded<V> {
    if name == "snapshot" then SnapshotEvent(value) else if name == "error" then StreamError else Plain(value)
  }

  function EventName(line: string): string
    requires StartsWith(line, "event:")
  {
    Strip(line[6..])
  }

  function DataLine(line: string): string
    requires StartsWith(line, "data:")
  {
    LStrip(line[5..])
  }

  /** One line; `sse` tells the event stream from the newline-delimited one, whose lines are objects. */
  function DecodeLine<V>(codec: Codec<V>, sse: bool, d: Decoder<V>, raw: string): Decoder<V> {
    var line := StripEol(raw);
    if d.failed then d
    else if !sse then
      if line == "" then d
      else match codec.load(line)
        case None => d.(failed := true)
        case Some(value) =>
          if codec.isObject(value) then d.(yielded := d.yielded + [Plain(value)]) else d.(failed := true)
    else if StartsWith(line, "event:") then d.(eventName := EventName(line))
    else if StartsWith(line, "data:") then d.(dataLines := d.dataLines + [DataLine(line)])
    else if line == "" && d.dataLines != [] then
      match codec.load(JoinLines(d.dataLines))
      case None => d.(failed := true)
      case Some(value) => Decoder("message", [], d.yielded + [Wrap(d.eventName, value)], false)
    else d
  }

  function DecodeText<V>(codec: Codec<V>, sse: bool, d: Decoder<V>, text: string): Decoder<V>
    decreases |text|
  {
    if text == "" then d
    else DecodeText(codec, sse, DecodeLine(codec, sse, d, text[..LineLength(text)]), text[LineLength(text)..])
  }

  function Wrapped<V>(fs: seq<Frame<V>>): seq<Decoded<V>> {
    seq(|fs|, i requires 0 <= i < |fs| => Wrap(fs[i].name, fs[i].value))
  }

  /** The decoder as the backend runs it, line by line. */
  method DecodeStream<V>(codec: Codec<V>, sse: bool, response: TextInput) returns (events: seq<Decoded<V>>, failed: bool)
    modifies response
    ensures var d := DecodeText(codec, sse, Start(), old(response.rest)); events == d.yielded && failed == d.failed
  {
    hide StripEol, Strip, LStrip, JoinLines, StartsWith;
    ghost var text := response.rest;
    var eventName := "message";
    var dataLines: seq<string> := [];
    events, failed := [], false;
    while response.rest != ""
      invariant !failed
      invariant DecodeText(codec, sse, Start(), text)
             == DecodeText(codec, sse, Decoder(eventName, dataLines, events, false), response.rest)
      decreases |response.rest|
    {
      ghost var before := Decoder(eventName, dataLines, events, false);
      var raw := response.ReadLine();
      var line := StripEol(raw);
      if sse {
        if StartsWith(line, "event:") {
          eventName := EventName(line);
        } else if StartsWith(line, "data:") {
          dataLines := dataLines + [DataLine(line)];
        } else if line == "" && dataLines != [] {
          match codec.load(JoinLines(dataLines)) {
            case None =>
              failed := true;
              FailedStays(codec, sse, Decoder(eventName, dataLines, events, true), response.rest);
              return;
            case Some(value) =>
              events := events + [Wrap(eventName, value)];
              dataLines := [];
              eventName := "message";
          }
        }
      } else if line != "" {
        match codec.load(line) {
          case Some(value) =>
            if codec.isObject(value) {
              events := events + [Plain(value)];
            } else {
              failed := true;
            }
          case None =>
            failed := true;
        }
        if failed {
          FailedStays(codec, sse, Decoder(eventName, dataLines, events, true), response.rest);
          return;
        }
      }
      assert DecodeLine(codec, sse, before, raw) == Decoder(eventName, dataLines, events, false);
    }
  }

  lemma {:induction false} FailedStays<V>(codec: Codec<V>, sse: bool, d: Decoder<V>, text: string)
    requires d.failed
    ensures DecodeText(codec, sse, d, text) == d
    decreases |text|
  {
    if text != "" {
      FailedStays(codec, sse, d, text[LineLength(text)..]);
    }
  }

  // Printing and decoding are inverse.

  lemma StripEolLine(line: string)
    requires line != "" ==> !IsEol(line[|line| - 1])
    ensures StripEol(line + "\n") == line
  {
    assert (line + "\n")[..|line|] == line;
  }

  /** Decoding one printed line, whatever follows it. */
  lemma DecodePrintedLine<V>(codec: Codec<V>, sse: bool, d: Decoder<V>, line: string, rest: string)
    requires '\n' !in line
    ensures DecodeText(codec, sse, d, line + "\n" + rest) == DecodeText(codec, sse, DecodeLine(codec, sse, d, line + "\n"), rest)
  {
    FirstLine(line, rest);
  }

  /** An event name that can be written on the `event:` line. */
  predicate PlainName(name: string) {
    Trimmed(name) && '\n' !in name
  }

  lemma DecodeEventLine<V>(codec: Codec<V>, d: Decoder<V>, name: string)
    requires PlainName(name) && !d.failed
    ensures DecodeLine(codec, true, d, "event: " + name + "\n") == d.(eventName := name)
  {
    StripEolLine("event: " + name);
    assert ("event: " + name)[6..] == " " + name + "";
    assert ("event: " + name)[..6] == "event:";
    StripPadded(" ", name, "");
  }

  lemma DecodeDataLine<V>(codec: Codec<V>, d: Decoder<V>, body: string)
    requires JsonObjectText(body) && !d.failed
    ensures DecodeLine(codec, true, d, "data: " + body + "\n") == d.(dataLines := d.dataLines + [body])
  {
    StripEolLine("data: " + body);
    assert ("data: " + body)[5..] == " " + body + "";
    assert ("data: " + body)[..5] == "data:";
    assert !StartsWith("data: " + body, "event:") by {
      assert ("data: " + body)[0] == 'd';
    }
    StripPadded(" ", body, "");
    assert body + "" == body;
  }

  lemma DecodeIdLine<V>(codec: Codec<V>, d: Decoder<V>, session: string, seqNo: nat)
    ensures DecodeLine(codec, true, d, "id: " + EventId(session, seqNo) + "\n") == d
  {
    var line := "id: " + EventId(session, seqNo);
    StripEolLine(line);
    assert line[0] == 'i';
  }

  lemma DecodeBlankLine<V>(codec: Codec<V>, d: Decoder<V>, value: V)
    requires !d.failed && |d.dataLines| == 1 && codec.load(d.dataLines[0]) == Some(value)
    ensures DecodeLine(codec, true, d, "\n") == Decoder("message", [], d.yielded + [Wrap(d.eventName, value)], false)
  {
    assert "" + "\n" == "\n";
    StripEolLine("");
  }

  /** The lines of a frame after its id. */
  function FrameBody(name: string, body: string, rest: string): string {
    "event: " + name + "\n" + ("data: " + body + "\n" + ("\n" + rest))
  }

  lemma FrameLines<V>(codec: Codec<V>, session: string, f: Frame<V>, rest: string)
    ensures PrintFrame(codec, session, f) + rest
         == (if f.seqNo.Some? then "id: " + EventId(session, f.seqNo.value) + "\n" else "")
            + FrameBody(f.name, codec.dump(f.value), rest)
  {
    var id := if f.seqNo.Some? then "id: " + EventId(session, f.seqNo.value) + "\n" else "";
    var printed := id + "event: " + f.name + "\ndata: " + codec.dump(f.value) + "\n\n";
    assert printed == PrintFrame(codec, session, f);
    assert printed + rest == id + FrameBody(f.name, codec.dump(f.value), rest);
  }

  lemma DecodeFrameBody<V>(codec: Codec<V>, name: string, value: V, yielded: seq<Decoded<V>>, rest: string)
    requires JsonObjectText(codec.dump(value)) && codec.load(codec.dump(value)) == Some(value) && PlainName(name)
    ensures DecodeText(codec, true, Decoder("message", [], yielded, false), FrameBody(name, codec.dump(value), rest))
         == DecodeText(codec, true, Decoder("message", [], yielded + [Wrap(name, value)], false), rest)
  {
    var body := codec.dump(value);
    var tail := "data: " + body + "\n" + ("\n" + rest);
    var d0 := Decoder("message", [], yielded, false);
    var d1 := Decoder(name, [], yielded, false);
    var d2 := Decoder(name, [body], yielded, false);
    assert DecodeText(codec, true, d0, FrameBody(name, body, rest)) == DecodeText(codec, true, d1, tail) by {
      DecodePrintedLine(codec, true, d0, "event: " + name, tail);
      DecodeEventLine(codec, d0, name);
    }
    assert DecodeText(codec, true, d1, tail) == DecodeText(codec, true, d2, "\n" + rest) by {
      DecodePrintedLine(codec, true, d1, "data: " + body, "\n" + rest);
      DecodeDataLine(codec, d1, body);
      assert [] + [body] == [body];
    }
    assert "" + "\n" == "\n";
    DecodePrintedLine(codec, true, d2, "", rest);
    DecodeBlankLine(codec, d2, value);
  }

  lemma DecodeFrame<V>(codec: Codec<V>, session: string, f: Frame<V>, yielded: seq<Decoded<V>>, rest: string)
    requires PrintsBack(codec, f.value) && PlainName(f.name) && '\n' !in session
    ensures DecodeText(codec, true, Decoder("message", [], yielded, false), PrintFrame(codec, session, f) + rest)
         == DecodeText(codec, true, Decoder("message", [], yielded + [Wrap(f.name, f.value)], false), rest)
  {
    hide DecodeText, DecodeLine, FrameBody, PrintFrame, EventId;
    FrameLines(codec, session, f, rest);
    var d := Decoder("message", [], yielded, false);
    var body := FrameBody(f.name, codec.dump(f.value), rest);
    if f.seqNo.Some? {
      var id := "id: " + EventId(session, f.seqNo.value);
      assert '\n' !in id by { NoNewlineInId(session, f.seqNo.value); }
      DecodePrintedLine(codec, true, d, id, body);
      DecodeIdLine(codec, d, session, f.seqNo.value);
    } else {
      assert "" + body == body;
    }
    DecodeFrameBody(codec, f.name, f.value, yielded, rest);
  }

  lemma NoNewlineInId(session: string, seqNo: nat)
    requires '\n' !in session
    ensures '\n' !in EventId(session, seqNo)
  {
  }

  /** The text of an event whose value was split over several `data:` lines. */
  function DataText(lines: seq<string>): string {
    if lines == [] then "" else "data: " + lines[0] + "\n" + DataText(lines[1..])
  }

  predicate DataLineText(line: string) {
    line != "" && !IsSpace(line[0]) && '\n' !in line && !IsEol(line[|line| - 1])
  }

  lemma DecodeTextLine<V>(codec: Codec<V>, d: Decoder<V>, line: string)
    requires DataLineText(line) && !d.failed
    ensures DecodeLine(codec, true, d, "data: " + line + "\n") == d.(dataLines := d.dataLines + [line])
  {
    var printed := "data: " + line;
    StripEolLine(printed);
    assert printed[..5] == "data:" && printed[5..] == " " + line && printed[0] == 'd';
    assert LStrip(" " + line) == line by { assert (" " + line)[1..] == line; }
  }

  lemma {:induction false} DecodeDataText<V>(codec: Codec<V>, d: Decoder<V>, lines: seq<string>, rest: string)
    requires !d.failed && forall line <- lines :: DataLineText(line)
    ensures DecodeText(codec, true, d, DataText(lines) + rest) == DecodeText(codec, true, d.(dataLines := d.dataLines + lines), rest)
    decreases |lines|
  {
    hide DecodeText, DecodeLine;
    if lines == [] {
      assert d.dataLines + lines == d.dataLines && "" + rest == rest;
    } else {
      var more := DataText(lines[1..]) + rest;
      assert DataText(lines) + rest == "data: " + lines[0] + "\n" + more;
      assert DataLineText(lines[0]);
      DecodePrintedLine(codec, true, d, "data: " + lines[0], more);
      DecodeTextLine(codec, d, lines[0]);
      DecodeDataText(codec, d.(dataLines := d.dataLines + [lines[0]]), lines[1..], rest);
      assert d.dataLines + [lines[0]] + lines[1..] == d.dataLines + lines;
    }
  }

  /** An event split over several `data:` lines is the value of the lines joined by newlines; the decoder
      is then ready for the next event, and fails if they are no value. */
  lemma {:induction false} SplitDataJoins<V>(codec: Codec<V>, lines: seq<string>, rest: string)
    requires lines != [] && forall line <- lines :: DataLineText(line)
    ensures DecodeText(codec, true, Start(), DataText(lines) + ("\n" + rest))
         == match codec.load(JoinLines(lines))
            case Some(value) => DecodeText(codec, true, Decoder("message", [], [Plain(value)], false), rest)
            case None => Decoder("message", lines, [], true)
  {
    hide DecodeText, DataLineText, DataText, JoinLines;
    DecodeDataText(codec, Start(), lines, "\n" + rest);
    var d := Decoder("message", [] + lines, [], false);
    assert [] + lines == lines;
    assert "" + "\n" == "\n";
    DecodePrintedLine(codec, true, d, "", rest);
    StripEolLine("");
    assert DecodeLine(codec, true, d, "\n")
        == match codec.load(JoinLines(lines)) { case Some(value) => Decoder("message", [], [Plain(value)], false) case None => d.(failed := true) };
    if codec.load(JoinLines(lines)).None? {
      FailedStays(codec, true, d.(failed := true), rest);
    }
  }

  /** Decoding any concatenation of printed frames yields the frame values in order, snapshot
      and error frames wrapped as coded, and does not raise. */
  lemma {:induction false} SseRoundTrip<V>(codec: Codec<V>, session: string, fs: seq<Frame<V>>)
    requires '\n' !in session
    requires forall f <- fs :: PlainName(f.name) && PrintsBack(codec, f.value)
    ensures var d := DecodeText(codec, true, Start(), PrintFrames(codec, session, fs));
      d.yielded == Wrapped(fs) && !d.failed
  {
    hide PlainName, PrintsBack, DecodeText, PrintFrames;
    SseRoundTripFrom(codec, session, fs, []);
    assert [] + Wrapped(fs) == Wrapped(fs);
  }

  lemma {:induction false} SseRoundTripFrom<V>(codec: Codec<V>, session: string, fs: seq<Frame<V>>, yielded: seq<Decoded<V>>)
    requires '\n' !in session
    requires forall f <- fs :: PlainName(f.name) && PrintsBack(codec, f.value)
    ensures DecodeText(codec, true, Decoder("message", [], yielded, false), PrintFrames(codec, session, fs))
         == Decoder("message", [], yielded + Wrapped(fs), false)
  {
    hide PlainName, PrintsBack, DecodeLine, PrintFrame;
    if fs == [] {
      assert yielded + Wrapped(fs) == yielded;
    } else {
      DecodeFrame(codec, session, fs[0], yielded, PrintFrames(codec, session, fs[1..]));
      var more := yielded + [Wrap(fs[0].name, fs[0].value)];
      SseRoundTripFrom(codec, session, fs[1..], more);
      assert more + Wrapped(fs[1..]) == yielded + Wrapped(fs);
    }
  }

  // The newline-delimited form of the chat stream.

  function PrintNdjson<V>(codec: Codec<V>, values: seq<V>): string {
    if values == [] then "" else codec.dump(values[0]) + "\n" + PrintNdjson(codec, values[1..])
  }

  function Plains<V>(values: seq<V>): seq<Decoded<V>> {
    seq(|values|, i requires 0 <= i < |values| => Plain(values[i]))
  }

  lemma DecodeObjectLine<V>(codec: Codec<V>, value: V, d: Decoder<V>)
    requires PrintsBack(codec, value) && codec.isObject(value) && !d.failed
    ensures DecodeLine(codec, false, d, codec.dump(value) + "\n") == d.(yielded := d.yielded + [Plain(value)])
  {
    StripEolLine(codec.dump(value));
  }

  lemma PrintedObject<V>(codec: Codec<V>, value: V)
    requires PrintsBack(codec, value)
    ensures '\n' !in codec.dump(value)
  {
  }

  /** Decoding printed objects, one per line, in front of any text. */
  lemma {:induction false} DecodeObjects<V>(codec: Codec<V>, values: seq<V>, d: Decoder<V>, tail: string)
    requires !d.failed && forall v <- values :: PrintsBack(codec, v) && codec.isObject(v)
    ensures DecodeText(codec, false, d, PrintNdjson(codec, values) + tail)
         == DecodeText(codec, false, d.(yielded := d.yielded + Plains(values)), tail)
  {
    hide DecodeLine, DecodeText, PrintsBack;
    if values == [] {
      assert d.yielded + Plains(values) == d.yielded && "" + tail == tail;
    } else {
      var line, more := codec.dump(values[0]), PrintNdjson(codec, values[1..]) + tail;
      assert PrintNdjson(codec, values) + tail == line + "\n" + more;
      PrintedObject(codec, values[0]);
      DecodePrintedLine(codec, false, d, line, more);
      DecodeObjectLine(codec, values[0], d);
      var next := d.(yielded := d.yielded + [Plain(values[0])]);
      DecodeObjects(codec, values[1..], next, tail);
      assert next.yielded + Plains(values[1..]) == d.yielded + Plains(values);
    }
  }

  /** Decoding printed objects, one per line, yields the same objects in order and does not raise. */
  lemma {:induction false} NdjsonRoundTrip<V>(codec: Codec<V>, values: seq<V>)
    requires forall v <- values :: PrintsBack(codec, v) && codec.isObject(v)
    ensures DecodeText(codec, false, Start(), PrintNdjson(codec, values)) == Decoder("message", [], Plains(values), false)
  {
    hide DecodeLine, PrintsBack, PrintNdjson;
    DecodeObjects(codec, values, Start(), "");
    assert PrintNdjson(codec, values) + "" == PrintNdjson(codec, values) && [] + Plains(values) == Plains(values);
  }

  /** A line that is no object ends the newline-delimited stream, whatever came before and follows. */
  lemma {:induction false} NdjsonRefusesNonObjects<V>(codec: Codec<V>, values: seq<V>, line: string, rest: string)
    requires forall v <- values :: PrintsBack(codec, v) && codec.isObject(v)
    requires line != "" && '\n' !in line && StripEol(line + "\n") == line
    requires codec.load(line).None? || !codec.isObject(codec.load(line).value)
    ensures DecodeText(codec, false, Start(), PrintNdjson(codec, values) + (line + "\n" + rest))
         == Decoder("message", [], Plains(values), true)
  {
    hide DecodeText, PrintsBack, PrintNdjson, StripEol;
    var tail := line + "\n" + rest;
    DecodeObjects(codec, values, Start(), tail);
    assert [] + Plains(values) == Plains(values);
    DecodePrintedLine(codec, false, Decoder("message", [], Plains(values), false), line, rest);
    FailedStays(codec, false, Decoder("message", [], Plains(values), true), rest);
  }
}
