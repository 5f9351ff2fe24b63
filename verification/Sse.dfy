/** transports/http/wire.py encode_sse and web/src/api/client.ts sseMessages: server-sent events (section
    9.2 of the WHATWG HTML standard) as the server prints and the browser parses them. */
module Sse {
  import opened Wrappers

  // ---------------------------------------------------------------- printing

  /** One event with its JSON text, or a heartbeat comment. */
  datatype Frame = Event(sequence: nat, json: string) | Keepalive

  const AGENT_EVENT := "agent-event"

  predicate OneLine(text: string) {
    '\n' !in text && '\r' !in text
  }

  /** JSON text escapes control characters. */
  predicate Printable(f: Frame) {
    f.Event? ==> OneLine(f.json)
  }

  function Encode(f: Frame): string {
    match f
    case Event(sequence, json) =>
      "id: " + Decimal(sequence) + "\n" + ("event: " + AGENT_EVENT + "\n" + ("data: " + json + "\n" + "\n"))
    case Keepalive => ": keepalive\n" + "\n"
  }

  function EncodeAll(fs: seq<Frame>): string {
    if fs == [] then "" else Encode(fs[0]) + EncodeAll(fs[1..])
  }

  // ---------------------------------------------------------------- parsing, character by character

  datatype Fields = Fields(id: Option<string>, event: string, data: seq<string>)

  datatype Message = Message(id: Option<string>, raw: string)

  /** The fields collected so far, the unfinished line, and the messages that were yielded. */
  datatype Parser = Parser(fields: Fields, line: string, out: seq<Message>)

  const NO_FIELDS := Fields(None, "", [])

  function IndexOf(line: string, c: char): (i: nat)
    ensures i <= |line| && (i < |line| ==> line[i] == c) && c !in line[..i]
  {
    if line == "" || line[0] == c then 0
    else
      var i := IndexOf(line[1..], c);
      assert line[..i + 1] == [line[0]] + line[1..][..i];
      i + 1
  }

  function FieldOf(line: string): string {
    line[..IndexOf(line, ':')]
  }

  function ValueOf(line: string): string {
    var i := IndexOf(line, ':');
    if i == |line| then ""
    else
      var value := line[i + 1..];
      if value != "" && value[0] == ' ' then value[1..] else value
  }

  function ParseLine(line: string, fields: Fields): Fields {
    if line != "" && line[0] == ':' then fields
    else
      var field, value := FieldOf(line), ValueOf(line);
      if field == "id" then fields.(id := Some(value))
      else if field == "event" then fields.(event := value)
      else if field == "data" then fields.(data := fields.data + [value])
      else fields
  }

  function Join(parts: seq<string>): string {
    if parts == [] then "" else if |parts| == 1 then parts[0] else parts[0] + "\n" + Join(parts[1..])
  }

  /** A blank line. Fields without data are kept, and only agent events are yielded. */
  function Dispatch(p: Parser): Parser {
    if p.fields.data == [] then p
    else
      Parser(NO_FIELDS, p.line,
             p.out + if p.fields.event == AGENT_EVENT then [Message(p.fields.id, Join(p.fields.data))] else [])
  }

  function EndLine(p: Parser): Parser {
    if p.line == "" then Dispatch(p) else p.(fields := ParseLine(p.line, p.fields), line := "")
  }

  function Run(p: Parser, text: string): Parser
    decreases |text|
  {
    if text == "" then p
    else Run(if text[0] == '\n' then EndLine(p) else p.(line := p.line + [text[0]]), text[1..])
  }

  /** The end of the body: the unfinished line counts, and what was collected is dispatched. */
  function End(p: Parser): Parser {
    Dispatch(if p.line == "" then p else EndLine(p))
  }

  function Normalize(text: string): (t: string)
    ensures '\r' !in t
  {
    if text == "" then ""
    else if text[0] == '\r' then
      "\n" + if |text| > 1 && text[1] == '\n' then Normalize(text[2..]) else Normalize(text[1..])
    else [text[0]] + Normalize(text[1..])
  }

  function Feed(p: Parser, chunks: seq<string>): Parser
    decreases |chunks|
  {
    if chunks == [] then p else Feed(Run(p, Normalize(chunks[0])), chunks[1..])
  }

  /** What a body yields, chunk by chunk. */
  function Parsed(chunks: seq<string>): seq<Message> {
    End(Feed(Parser(NO_FIELDS, "", []), chunks)).out
  }

  // ---------------------------------------------------------------- the parser as it is written

  /** split('\n') */
  method Split(text: string) returns (lines: seq<string>)
    ensures |lines| > 0 && forall i :: 0 <= i < |lines| ==> '\n' !in lines[i]
    ensures text == Unsplit(lines)
  {
    lines := [];
    var line := "";
    for i := 0 to |text|
      invariant '\n' !in line && forall k :: 0 <= k < |lines| ==> '\n' !in lines[k]
      invariant text[..i] == Unsplit(lines + [line])
    {
      UnsplitSnoc(lines, line);
      if text[i] == '\n' {
        lines, line := lines + [line], "";
      } else {
        line := line + [text[i]];
      }
      UnsplitSnoc(lines, line);
      assert text[..i + 1] == text[..i] + [text[i]];
    }
    assert text[..|text|] == text;
    lines := lines + [line];
  }

  function Terminate(lines: seq<string>): string {
    if lines == [] then "" else lines[0] + "\n" + Terminate(lines[1..])
  }

  function Unsplit(lines: seq<string>): string
    requires lines != []
  {
    Terminate(lines[..|lines| - 1]) + lines[|lines| - 1]
  }

  lemma {:induction false} TerminateSnoc(lines: seq<string>, line: string)
    ensures Terminate(lines + [line]) == Terminate(lines) + line + "\n"
  {
    if lines == [] {
      assert lines + [line] == [line] && [line][1..] == [];
    } else {
      assert (lines + [line])[0] == lines[0] && (lines + [line])[1..] == lines[1..] + [line];
      TerminateSnoc(lines[1..], line);
    }
  }

  lemma {:induction false} UnsplitSnoc(lines: seq<string>, line: string)
    ensures Unsplit(lines + [line]) == Terminate(lines) + line
    ensures lines != [] ==>
              Terminate(lines) == Terminate(lines[..|lines| - 1]) + lines[|lines| - 1] + "\n"
  {
    assert (lines + [line])[..|lines|] == lines;
    if lines != [] {
      TerminateSnoc(lines[..|lines| - 1], lines[|lines| - 1]);
      assert lines == lines[..|lines| - 1] + [lines[|lines| - 1]];
    }
  }

  lemma {:induction false} RunConcat(p: Parser, a: string, b: string)
    ensures Run(p, a + b) == Run(Run(p, a), b)
    decreases |a|
  {
    if a == "" {
      assert a + b == b;
    } else {
      assert (a + b)[0] == a[0] && (a + b)[1..] == a[1..] + b;
      RunConcat(if a[0] == '\n' then EndLine(p) else p.(line := p.line + [a[0]]), a[1..], b);
    }
  }

  lemma {:induction false} RunPart(p: Parser, text: string)
    requires '\n' !in text
    ensures Run(p, text) == p.(line := p.line + text)
    decreases |text|
  {
    if text == "" {
      assert p.line + text == p.line;
    } else {
      RunPart(p.(line := p.line + [text[0]]), text[1..]);
      assert p.line + [text[0]] + text[1..] == p.line + text;
    }
  }

  /** One whole line. */
  lemma {:induction false} RunLine(fields: Fields, out: seq<Message>, line: string)
    requires '\n' !in line
    ensures Run(Parser(fields, "", out), line + "\n") == EndLine(Parser(fields, line, out))
  {
    var p := Parser(fields, "", out);
    RunConcat(p, line, "\n");
    RunPart(p, line);
    assert "" + line == line;
    assert "\n"[1..] == "";
  }

  /** The lines of one chunk. */
  method ParseLines(fields: Fields, out: seq<Message>, lines: seq<string>)
    returns (next: Fields, messages: seq<Message>)
    requires forall i :: 0 <= i < |lines| ==> '\n' !in lines[i]
    ensures Run(Parser(fields, "", out), Terminate(lines)) == Parser(next, "", messages)
  {
    next, messages := fields, out;
    for i := 0 to |lines|
      invariant Run(Parser(fields, "", out), Terminate(lines[..i])) == Parser(next, "", messages)
    {
      ghost var before := Terminate(lines[..i]);
      assert lines[..i + 1] == lines[..i] + [lines[i]];
      TerminateSnoc(lines[..i], lines[i]);
      assert before + lines[i] + "\n" == before + (lines[i] + "\n");
      RunConcat(Parser(fields, "", out), before, lines[i] + "\n");
      RunLine(next, messages, lines[i]);
      if lines[i] == "" {
        var p := Dispatch(Parser(next, "", messages));
        next, messages := p.fields, p.out;
      } else {
        next := ParseLine(lines[i], next);
      }
    }
    assert lines[..|lines|] == lines;
  }

  lemma {:induction false} NormalizeBuffer(buffer: string, chunk: string)
    requires '\r' !in buffer
    ensures Normalize(buffer + chunk) == buffer + Normalize(chunk)
  {
    if buffer == "" {
      assert buffer + chunk == chunk;
    } else {
      assert (buffer + chunk)[0] == buffer[0] && (buffer + chunk)[1..] == buffer[1..] + chunk;
      NormalizeBuffer(buffer[1..], chunk);
    }
  }

  lemma {:induction false} FeedSnoc(p: Parser, chunks: seq<string>, chunk: string)
    ensures Feed(p, chunks + [chunk]) == Run(Feed(p, chunks), Normalize(chunk))
    decreases |chunks|
  {
    if chunks == [] {
      assert chunks + [chunk] == [chunk] && [chunk][1..] == [];
    } else {
      assert (chunks + [chunk])[0] == chunks[0] && (chunks + [chunk])[1..] == chunks[1..] + [chunk];
      FeedSnoc(Run(p, Normalize(chunks[0])), chunks[1..], chunk);
    }
  }

  /** One chunk, buffered line by line. */
  method ReadChunk(fields: Fields, buffer: string, out: seq<Message>, chunk: string)
    returns (next: Fields, rest: string, messages: seq<Message>)
    requires '\r' !in buffer && '\n' !in buffer
    ensures '\r' !in rest && '\n' !in rest
    ensures Parser(next, rest, messages) == Run(Parser(fields, buffer, out), Normalize(chunk))
  {
    var normalized := Normalize(buffer + chunk);
    NormalizeBuffer(buffer, chunk);
    var lines := Split(normalized);
    rest := lines[|lines| - 1];
    ghost var whole := Terminate(lines[..|lines| - 1]);
    assert normalized == whole + rest;
    assert forall c :: c in rest ==> c in normalized;
    next, messages := ParseLines(fields, out, lines[..|lines| - 1]);
    RunConcat(Parser(fields, "", out), whole, rest);
    RunPart(Parser(next, "", messages), rest);
    assert "" + rest == rest && "" + buffer == buffer;
    RunConcat(Parser(fields, "", out), buffer, Normalize(chunk));
    RunPart(Parser(fields, "", out), buffer);
  }

  /** sseMessages: what is yielded depends on the body as the character parser says. */
  method SseMessages(chunks: seq<string>) returns (messages: seq<Message>)
    ensures messages == Parsed(chunks)
  {
    var fields, buffer := NO_FIELDS, "";
    messages := [];
    for i := 0 to |chunks|
      invariant '\r' !in buffer && '\n' !in buffer
      invariant Parser(fields, buffer, messages) == Feed(Parser(NO_FIELDS, "", []), chunks[..i])
    {
      assert chunks[..i + 1] == chunks[..i] + [chunks[i]];
      FeedSnoc(Parser(NO_FIELDS, "", []), chunks[..i], chunks[i]);
      fields, buffer, messages := ReadChunk(fields, buffer, messages, chunks[i]);
    }
    assert chunks[..|chunks|] == chunks;
    if |buffer| > 0 {
      fields := ParseLine(buffer, fields);
    }
    var last := Dispatch(Parser(fields, "", messages));
    messages := last.out;
  }

  // ---------------------------------------------------------------- chunking does not matter

  function Concat(chunks: seq<string>): string {
    if chunks == [] then "" else chunks[0] + Concat(chunks[1..])
  }

  /** No chunk ends between a carriage return and its line feed. */
  predicate KeepsPairs(chunks: seq<string>) {
    |chunks| > 1 ==>
      && !(EndsIn(chunks[0], '\r') && StartsWith(Concat(chunks[1..]), '\n'))
      && KeepsPairs(chunks[1..])
  }

  predicate EndsIn(text: string, c: char) {
    text != "" && text[|text| - 1] == c
  }

  predicate StartsWith(text: string, c: char) {
    text != "" && text[0] == c
  }

  lemma {:induction false} NormalizeConcat(a: string, b: string)
    requires !(EndsIn(a, '\r') && StartsWith(b, '\n'))
    ensures Normalize(a + b) == Normalize(a) + Normalize(b)
    decreases |a|
  {
    if a == "" {
      assert a + b == b;
    } else {
      assert (a + b)[0] == a[0] && (a + b)[1..] == a[1..] + b;
      if |a| > 1 && a[0] == '\r' && a[1] == '\n' {
        assert (a + b)[1] == a[1] && (a + b)[2..] == a[2..] + b;
        NormalizeConcat(a[2..], b);
      } else {
        if |a| > 1 {
          assert (a + b)[1] == a[1];
        }
        NormalizeConcat(a[1..], b);
      }
    }
  }

  /** However the body is cut into chunks, the same messages are yielded, as long as no cut separates a
      carriage return from its line feed. */
  lemma {:induction false} ChunkingInvisible(p: Parser, chunks: seq<string>)
    requires KeepsPairs(chunks)
    ensures Feed(p, chunks) == Run(p, Normalize(Concat(chunks)))
    decreases |chunks|
  {
    if chunks != [] {
      var first, rest := chunks[0], Concat(chunks[1..]);
      if |chunks| == 1 {
        assert rest == "" && first + rest == first;
      } else {
        ChunkingInvisible(Run(p, Normalize(first)), chunks[1..]);
        NormalizeConcat(first, rest);
        RunConcat(p, Normalize(first), Normalize(rest));
      }
    }
  }

  lemma {:induction false} AbsentConcat(a: string, b: string, c: char)
    requires c !in a && c !in b
    ensures c !in a + b
  {
  }

  lemma {:induction false} TwoFields(first: string, second: string, out: seq<Message>)
    requires OneLine(first) && OneLine(second)
    ensures var start := Parser(Fields(None, AGENT_EVENT, [first]), "", out);
            && Run(start, "data: " + second + "\n" + "\n") ==
               Parser(NO_FIELDS, "", out + [Message(None, first + "\n" + second)])
            && Run(start, "\n" + ("data: " + second + "\n" + "\n")) ==
               Parser(NO_FIELDS, "", out + [Message(None, first)])
  {
    hide Run, IndexOf, FieldOf, ValueOf;
    var fields, data := Fields(None, AGENT_EVENT, [first]), "data: " + second;
    assert data == "data" + ": " + second && '\n' !in data && "" + "\n" == "\n";
    PrefixedLine("data", second);
    RunConcat(Parser(fields, "", out), data + "\n", "\n");
    RunLine(fields, out, data);
    RunLine(fields.(data := [first, second]), out, "");
    RunConcat(Parser(fields, "", out), "\n", data + "\n" + "\n");
    RunLine(fields, out, "");
    var sent := out + [Message(None, first)];
    RunConcat(Parser(NO_FIELDS, "", sent), data + "\n", "\n");
    RunLine(NO_FIELDS, sent, data);
    RunLine(NO_FIELDS.(data := [second]), sent, "");
    assert [first] + [second] == [first, second] && [] + [second] == [second];
    assert [first, second][1..] == [second] && Join([first, second]) == first + "\n" + second;
    assert sent + [] == sent;
  }

  lemma {:induction false} ReturnsNormalized(rest: string)
    requires '\r' !in rest
    ensures Normalize("\r\n" + rest) == "\n" + rest && Normalize("\r") == "\n" && Normalize("\n" + rest) == "\n" + rest
  {
    var both := "\r\n" + rest;
    assert both[2..] == rest;
    NormalizeSame(rest);
    assert ("\n" + rest)[1..] == rest;
    assert "\r"[1..] == "" && Normalize("") == "";
  }

  lemma {:induction false} LastLine(p: Parser, rest: string)
    ensures Run(p, "\n" + rest) == Run(EndLine(p), rest) && Run(p, "\n") == EndLine(p)
  {
    assert ("\n" + rest)[1..] == rest && "\n"[1..] == "";
  }

  /** A cut between the two is not invisible: read in one chunk, the carriage return and the line feed
      end one line of one message; read in two, the line feed is a blank line that dispatches early. */
  lemma {:induction false} SplitPairMatters(first: string, second: string)
    requires OneLine(first) && OneLine(second)
    ensures var p := Parser(Fields(None, AGENT_EVENT, []), "data: " + first, []);
            var rest := "data: " + second + "\n" + "\n";
            && Feed(p, ["\r\n" + rest]).out == [Message(None, first + "\n" + second)]
            && Feed(p, ["\r", "\n" + rest]).out == [Message(None, first)]
  {
    hide Run, IndexOf, FieldOf, ValueOf, Normalize;
    var p := Parser(Fields(None, AGENT_EVENT, []), "data: " + first, []);
    var rest := "data: " + second + "\n" + "\n";
    AbsentConcat("data: ", second, '\r');
    AbsentConcat("data: " + second, "\n", '\r');
    AbsentConcat("data: " + second + "\n", "\n", '\r');
    ReturnsNormalized(rest);
    PrefixedLine("data", first);
    assert "data: " + first == "data" + ": " + first && [] + [first] == [first];
    LastLine(p, rest);
    TwoFields(first, second, []);
    FeedSnoc(p, [], "\r\n" + rest);
    FeedSnoc(p, [], "\r");
    FeedSnoc(p, ["\r"], "\n" + rest);
    assert [] + ["\r\n" + rest] == ["\r\n" + rest] && [] + ["\r"] == ["\r"];
    assert ["\r"] + ["\n" + rest] == ["\r", "\n" + rest];
  }

  /** Exactly when the line that the pair ends leaves no data is such a cut harmless there: the second
      line end is one blank line more, which only data notices. */
  lemma {:induction false} SplitPairExactly(p: Parser, a: string)
    ensures Feed(p, [a + "\r", "\n"]) == Feed(p, [a + "\r\n"]) <==> EndLine(Run(p, Normalize(a))).fields.data == []
  {
    hide Run, EndLine;
    var q := Run(p, Normalize(a));
    ReturnsNormalized("");
    assert "\r\n" + "" == "\r\n" && "\n" + "" == "\n";
    NormalizeConcat(a, "\r");
    NormalizeConcat(a, "\r\n");
    RunConcat(p, Normalize(a), "\n");
    LastLine(q, "");
    LastLine(EndLine(q), "");
    FeedSnoc(p, [], a + "\r\n");
    FeedSnoc(p, [], a + "\r");
    FeedSnoc(p, [a + "\r"], "\n");
    assert [] + [a + "\r\n"] == [a + "\r\n"] && [] + [a + "\r"] == [a + "\r"];
    assert [a + "\r"] + ["\n"] == [a + "\r", "\n"];
    BlankLine(q);
  }

  lemma {:induction false} BlankLine(q: Parser)
    ensures EndLine(EndLine(q)) == EndLine(q) <==> EndLine(q).fields.data == []
  {
    assert EndLine(q).line == "";
  }

  lemma {:induction false} NormalizeSame(text: string)
    requires '\r' !in text
    ensures Normalize(text) == text
  {
    if text != "" {
      NormalizeSame(text[1..]);
    }
  }

  lemma {:induction false} PairsWithoutReturns(chunks: seq<string>)
    requires '\r' !in Concat(chunks)
    ensures KeepsPairs(chunks)
  {
    if |chunks| > 1 {
      assert Concat(chunks) == chunks[0] + Concat(chunks[1..]);
      PairsWithoutReturns(chunks[1..]);
      assert forall c :: c in chunks[0] ==> c in Concat(chunks);
    }
  }

  // ---------------------------------------------------------------- print, then parse

  lemma {:induction false} EncodedPlain(f: Frame)
    requires Printable(f)
    ensures '\r' !in Encode(f)
  {
    if f.Event? {
      var id, event := "id: ", "event: " + AGENT_EVENT + "\n";
      AbsentConcat(id, Decimal(f.sequence), '\r');
      AbsentConcat(id + Decimal(f.sequence), "\n", '\r');
      AbsentConcat("data: ", f.json, '\r');
      AbsentConcat("data: " + f.json, "\n", '\r');
      AbsentConcat("data: " + f.json + "\n", "\n", '\r');
      AbsentConcat(event, "data: " + f.json + "\n" + "\n", '\r');
      AbsentConcat(id + Decimal(f.sequence) + "\n", event + ("data: " + f.json + "\n" + "\n"), '\r');
    }
  }

  function MessageOf(f: Frame): seq<Message> {
    if f.Event? then [Message(Some(Decimal(f.sequence)), f.json)] else []
  }

  function MessagesOf(fs: seq<Frame>): seq<Message> {
    if fs == [] then [] else MessageOf(fs[0]) + MessagesOf(fs[1..])
  }

  lemma {:induction false} FirstIndex(name: string, c: char, rest: string)
    requires c !in name
    ensures IndexOf(name + [c] + rest, c) == |name|
  {
    var line := name + [c] + rest;
    if name != "" {
      assert line[0] == name[0] && line[1..] == name[1..] + [c] + rest;
      FirstIndex(name[1..], c, rest);
    }
  }

  lemma {:induction false} PrefixedLine(name: string, value: string)
    requires ':' !in name
    ensures FieldOf(name + ": " + value) == name && ValueOf(name + ": " + value) == value
  {
    var line := name + ": " + value;
    FirstIndex(name, ':', " " + value);
    assert line == name + [':'] + (" " + value);
    assert line[|name| + 1..] == " " + value;
  }

  /** The lines of an event before its data. */
  function HeadText(sequence: nat): string {
    "id: " + Decimal(sequence) + "\n" + ("event: " + AGENT_EVENT + "\n")
  }

  lemma {:induction false} HeadParsed(sequence: nat, out: seq<Message>)
    ensures Run(Parser(NO_FIELDS, "", out), HeadText(sequence)) ==
            Parser(Fields(Some(Decimal(sequence)), AGENT_EVENT, []), "", out)
  {
    var id, event := "id: " + Decimal(sequence), "event: " + AGENT_EVENT;
    var p := Parser(NO_FIELDS, "", out);
    PrefixedLine("id", Decimal(sequence));
    PrefixedLine("event", AGENT_EVENT);
    assert '\n' !in id && '\n' !in event;
    assert id == "id" + ": " + Decimal(sequence) && event == "event" + ": " + AGENT_EVENT;
    RunConcat(p, id + "\n", event + "\n");
    RunLine(NO_FIELDS, out, id);
    RunLine(NO_FIELDS.(id := Some(Decimal(sequence))), out, event);
  }

  lemma {:induction false} EncodeParts(f: Frame)
    requires f.Event?
    ensures Encode(f) == HeadText(f.sequence) + ("data: " + f.json + "\n" + "\n")
  {
  }

  lemma {:induction false} DataParsed(fields: Fields, json: string, out: seq<Message>)
    requires OneLine(json) && fields.data == []
    ensures Run(Parser(fields, "", out), "data: " + json + "\n" + "\n") ==
            Dispatch(Parser(fields.(data := [json]), "", out))
  {
    var data := "data: " + json;
    PrefixedLine("data", json);
    assert data == "data" + ": " + json && '\n' !in data;
    assert fields.data + [json] == [json] && "" + "\n" == "\n";
    RunConcat(Parser(fields, "", out), data + "\n", "\n");
    RunLine(fields, out, data);
    RunLine(fields.(data := [json]), out, "");
  }

  lemma {:induction false} KeepaliveParsed(out: seq<Message>)
    ensures Run(Parser(NO_FIELDS, "", out), Encode(Keepalive)) == Parser(NO_FIELDS, "", out)
  {
    hide Run, IndexOf, FieldOf, ValueOf, Join;
    var line := ": keepalive";
    assert '\n' !in line && "" + "\n" == "\n";
    RunConcat(Parser(NO_FIELDS, "", out), line + "\n", "\n");
    RunLine(NO_FIELDS, out, line);
    RunLine(NO_FIELDS, out, "");
    assert Encode(Keepalive) == line + "\n" + "\n";
  }

  /** Parsing one printed frame yields exactly its event and leaves the parser clean. */
  lemma {:induction false} FrameParsed(f: Frame, out: seq<Message>)
    requires Printable(f)
    ensures Run(Parser(NO_FIELDS, "", out), Encode(f)) == Parser(NO_FIELDS, "", out + MessageOf(f))
  {
    hide Run, ParseLine, EndLine;
    if f.Event? {
      EncodeParts(f);
      hide Encode, HeadText;
      RunConcat(Parser(NO_FIELDS, "", out), HeadText(f.sequence), "data: " + f.json + "\n" + "\n");
      HeadParsed(f.sequence, out);
      DataParsed(Fields(Some(Decimal(f.sequence)), AGENT_EVENT, []), f.json, out);
    } else {
      KeepaliveParsed(out);
      assert out + [] == out;
    }
  }

  lemma {:induction false} FramesParsed(fs: seq<Frame>, out: seq<Message>, rest: string)
    requires forall i :: 0 <= i < |fs| ==> Printable(fs[i])
    ensures Run(Parser(NO_FIELDS, "", out), EncodeAll(fs) + rest) ==
            Run(Parser(NO_FIELDS, "", out + MessagesOf(fs)), rest)
    decreases |fs|
  {
    hide Run, Encode, MessageOf;
    if fs == [] {
      assert EncodeAll(fs) + rest == rest && out + [] == out;
    } else {
      assert EncodeAll(fs) + rest == Encode(fs[0]) + (EncodeAll(fs[1..]) + rest);
      RunConcat(Parser(NO_FIELDS, "", out), Encode(fs[0]), EncodeAll(fs[1..]) + rest);
      FrameParsed(fs[0], out);
      FramesParsed(fs[1..], out + MessageOf(fs[0]), rest);
      assert out + MessageOf(fs[0]) + MessagesOf(fs[1..]) == out + MessagesOf(fs);
    }
  }

  lemma {:induction false} AllPlain(fs: seq<Frame>)
    requires forall i :: 0 <= i < |fs| ==> Printable(fs[i])
    ensures '\r' !in EncodeAll(fs)
  {
    if fs != [] {
      EncodedPlain(fs[0]);
      AllPlain(fs[1..]);
    }
  }

  lemma {:induction false} ParsedWhole(chunks: seq<string>)
    requires '\r' !in Concat(chunks)
    ensures Parsed(chunks) == End(Run(Parser(NO_FIELDS, "", []), Concat(chunks))).out
  {
    PairsWithoutReturns(chunks);
    ChunkingInvisible(Parser(NO_FIELDS, "", []), chunks);
    NormalizeSame(Concat(chunks));
  }

  /** Print, cut into chunks, parse: exactly the printed events come out, in order, whatever heartbeats
      stand between them. */
  lemma {:induction false} RoundTrip(fs: seq<Frame>, chunks: seq<string>)
    requires forall i :: 0 <= i < |fs| ==> Printable(fs[i])
    requires Concat(chunks) == EncodeAll(fs)
    ensures Parsed(chunks) == MessagesOf(fs)
  {
    AllPlain(fs);
    ParsedWhole(chunks);
    FramesParsed(fs, [], "");
    assert EncodeAll(fs) + "" == EncodeAll(fs) && [] + MessagesOf(fs) == MessagesOf(fs);
  }

  // ---------------------------------------------------------------- a body that ends too early

  /** Where a prefix of the printed text stops: behind n whole frames, inside the next. */
  lemma {:induction false} CutFrame(fs: seq<Frame>, k: nat) returns (n: nat, part: string)
    requires k <= |EncodeAll(fs)|
    ensures n <= |fs| && EncodeAll(fs)[..k] == EncodeAll(fs[..n]) + part
    ensures if n == |fs| then part == "" else part < Encode(fs[n])
    decreases |fs|
  {
    hide Encode;
    if fs == [] {
      n, part := 0, "";
    } else {
      var first := Encode(fs[0]);
      assert EncodeAll(fs) == first + EncodeAll(fs[1..]);
      if k < |first| {
        n, part := 0, first[..k];
        assert fs[..0] == [];
      } else {
        var m, rest := CutFrame(fs[1..], k - |first|);
        CutBehind(first, EncodeAll(fs[1..]), k);
        assert fs[..m + 1] == [fs[0]] + fs[1..][..m];
        n, part := m + 1, rest;
      }
    }
  }

  lemma {:induction false} CutBehind(first: string, rest: string, k: nat)
    requires |first| <= k <= |first| + |rest|
    ensures (first + rest)[..k] == first + rest[..k - |first|]
  {
  }

  /** At most one message, with the next event's identifier and the beginning of its data. */
  predicate PartOf(extra: seq<Message>, f: Frame) {
    extra == [] || (f.Event? && |extra| == 1 && extra[0].id == Some(Decimal(f.sequence)) && extra[0].raw <= f.json)
  }

  /** No data field is collected from a line that does not start with d. */
  lemma {:induction false} NoData(line: string, fields: Fields)
    requires line != "" && line[0] != 'd'
    ensures ParseLine(line, fields).data == fields.data
  {
    if IndexOf(line, ':') > 0 {
      assert FieldOf(line)[0] == line[0];
    }
  }

  lemma {:induction false} HeadPart(sequence: nat, part: string, out: seq<Message>)
    requires part <= HeadText(sequence)
    ensures End(Run(Parser(NO_FIELDS, "", out), part)).out == out
  {
    var id, event := "id: " + Decimal(sequence), "event: " + AGENT_EVENT;
    var p := Parser(NO_FIELDS, "", out);
    assert '\n' !in id && '\n' !in event;
    if |part| <= |id| {
      assert part == id[..|part|];
      assert forall c :: c in part ==> c in id;
      RunPart(p, part);
      assert "" + part == part;
      if part != "" {
        NoData(part, NO_FIELDS);
      }
    } else {
      var rest := part[|id| + 1..];
      assert part == id + "\n" + rest && rest <= event + "\n";
      RunConcat(p, id + "\n", rest);
      RunLine(NO_FIELDS, out, id);
      NoData(id, NO_FIELDS);
      var fields := ParseLine(id, NO_FIELDS);
      if |rest| <= |event| {
        assert rest == event[..|rest|];
        assert forall c :: c in rest ==> c in event;
        RunPart(Parser(fields, "", out), rest);
        assert "" + rest == rest;
        if rest != "" {
          NoData(rest, fields);
        }
      } else {
        assert rest == event + "\n";
        RunLine(fields, out, event);
        NoData(event, fields);
      }
    }
  }

  /** A cut data line yields nothing before its name is complete, and then a prefix of the data. */
  lemma {:induction false} DataPart(fields: Fields, json: string, part: string)
    requires OneLine(json) && part <= "data: " + json && part != ""
    ensures var next := ParseLine(part, fields);
            && next.id == fields.id && next.event == fields.event
            && (next.data == fields.data || exists raw :: raw <= json && next.data == fields.data + [raw])
  {
    var line := "data: " + json;
    if |part| <= 4 {
      assert part == "data"[..|part|];
      NoIndex(part, ':');
      assert FieldOf(part) == part;
      if |part| == 4 {
        assert "" <= json;
      }
    } else {
      var rest := part[5..];
      FirstIndex("data", ':', rest);
      assert part == "data" + [':'] + rest;
      if rest == "" {
        assert "" <= json;
      } else {
        assert rest == (" " + json)[..|rest|];
        assert rest[1..] == json[..|rest| - 1];
        assert rest[1..] <= json;
      }
    }
  }

  lemma {:induction false} NoIndex(line: string, c: char)
    requires c !in line
    ensures IndexOf(line, c) == |line|
  {
  }

  lemma {:induction false} NoPart(f: Frame, out: seq<Message>)
    ensures PartOf([], f) && out + [] == out
  {
  }

  lemma {:induction false} EventPart(f: Frame, part: string, out: seq<Message>)
    requires f.Event? && Printable(f) && part < Encode(f)
    ensures exists extra :: PartOf(extra, f) && End(Run(Parser(NO_FIELDS, "", out), part)).out == out + extra
  {
    EncodeParts(f);
    hide Run, HeadText, Encode, PartOf, End;
    var head, data := HeadText(f.sequence), "data: " + f.json + "\n";
    if |part| <= |head| {
      HeadPart(f.sequence, part, out);
      NoPart(f, out);
    } else {
      var rest := part[|head|..];
      assert part == head + rest && rest <= data && rest != "";
      RunConcat(Parser(NO_FIELDS, "", out), head, rest);
      HeadParsed(f.sequence, out);
      TailPart(f, rest, out);
    }
  }

  lemma {:induction false} TailPart(f: Frame, rest: string, out: seq<Message>)
    requires f.Event? && Printable(f) && rest <= "data: " + f.json + "\n" && rest != ""
    ensures var p := Parser(Fields(Some(Decimal(f.sequence)), AGENT_EVENT, []), "", out);
            exists extra :: PartOf(extra, f) && End(Run(p, rest)).out == out + extra
  {
    hide Run, ParseLine, PartOf;
    var data, fields := "data: " + f.json, Fields(Some(Decimal(f.sequence)), AGENT_EVENT, []);
    var line := if |rest| <= |data| then rest else data;
    assert line == data[..|line|] && forall c :: c in line ==> c in data;
    DataPart(fields, f.json, line);
    if |rest| <= |data| {
      RunPart(Parser(fields, "", out), rest);
      assert "" + rest == rest;
    } else {
      assert rest == data + "\n";
      RunLine(fields, out, data);
    }
    DataYields(ParseLine(line, fields), f, out);
  }

  lemma {:induction false} DataYields(fields: Fields, f: Frame, out: seq<Message>)
    requires f.Event? && fields.id == Some(Decimal(f.sequence)) && fields.event == AGENT_EVENT
    requires fields.data == [] || exists raw :: raw <= f.json && fields.data == [] + [raw]
    ensures exists extra :: PartOf(extra, f) && Dispatch(Parser(fields, "", out)).out == out + extra
  {
    if fields.data == [] {
      assert PartOf([], f) && out + [] == out;
    } else {
      var extra := [Message(fields.id, Join(fields.data))];
      assert PartOf(extra, f);
    }
  }

  lemma {:induction false} KeepalivePart(part: string, out: seq<Message>)
    requires part < Encode(Keepalive)
    ensures End(Run(Parser(NO_FIELDS, "", out), part)).out == out
  {
    var line := ": keepalive";
    if |part| <= |line| {
      assert part == line[..|part|];
      assert forall c :: c in part ==> c in line;
      RunPart(Parser(NO_FIELDS, "", out), part);
      assert "" + part == part;
    } else {
      assert part == line + "\n";
      RunLine(NO_FIELDS, out, line);
    }
  }

  /** A body that stops between two characters yields the events that were sent whole, and at most one
      more message whose data is a prefix of the next event's. */
  lemma {:induction false} TruncatedStream(fs: seq<Frame>, chunks: seq<string>, k: nat)
    requires forall i :: 0 <= i < |fs| ==> Printable(fs[i])
    requires k <= |EncodeAll(fs)| && Concat(chunks) == EncodeAll(fs)[..k]
    ensures exists n, extra :: 0 <= n <= |fs| && Parsed(chunks) == MessagesOf(fs[..n]) + extra
              && if n == |fs| then extra == [] else PartOf(extra, fs[n])
  {
    AllPlain(fs);
    assert forall c :: c in Concat(chunks) ==> c in EncodeAll(fs);
    ParsedWhole(chunks);
    var n, part := CutFrame(fs, k);
    FramesParsed(fs[..n], [], part);
    assert [] + MessagesOf(fs[..n]) == MessagesOf(fs[..n]);
    var out := MessagesOf(fs[..n]);
    if n == |fs| {
      assert Parsed(chunks) == out + [];
    } else if fs[n].Keepalive? {
      KeepalivePart(part, out);
      assert Parsed(chunks) == out + [];
      assert PartOf([], fs[n]);
    } else {
      EventPart(fs[n], part, out);
      var extra :| PartOf(extra, fs[n]) && End(Run(Parser(NO_FIELDS, "", out), part)).out == out + extra;
      assert Parsed(chunks) == out + extra;
    }
  }

  // ---------------------------------------------------------------- a body that ends inside a character

  /** What the decoder puts for a character that never arrives whole (section 8.1.1 of the WHATWG Encoding
      standard). */
  const REPLACEMENT := '\U{FFFD}'

  /** The bytes of a character in UTF-8 (section 3 of RFC 3629). */
  function Width(c: char): (bytes: nat)
    ensures 1 <= bytes <= 4
  {
    var code := c as int;
    if code < 0x80 then 1 else if code < 0x800 then 2 else if code < 0x10000 then 3 else 4
  }

  /** What is decoded from the first k bytes of a text. */
  function Received(text: string, k: nat): string {
    if text == "" || k == 0 then ""
    else if k < Width(text[0]) then [REPLACEMENT]
    else [text[0]] + Received(text[1..], k - Width(text[0]))
  }

  /** The text in front of a cut, and whether the cut lies inside the next character. */
  lemma {:induction false} ReceivedParts(text: string, k: nat) returns (m: nat, inside: bool)
    ensures m <= |text| && (inside ==> m < |text| && Width(text[m]) > 1)
    ensures Received(text, k) == text[..m] + if inside then [REPLACEMENT] else ""
  {
    if text == "" || k == 0 {
      m, inside := 0, false;
    } else if k < Width(text[0]) {
      m, inside := 0, true;
    } else {
      m, inside := ReceivedParts(text[1..], k - Width(text[0]));
      hide Width;
      assert [text[0]] + text[1..][..m] == text[..m + 1];
      m := m + 1;
    }
  }

  predicate Narrow(text: string) {
    forall i :: 0 <= i < |text| ==> Width(text[i]) == 1
  }

  lemma {:induction false} NarrowConcat(a: string, b: string)
    requires Narrow(a) && Narrow(b)
    ensures Narrow(a + b)
  {
  }

  /** Only the data of an event has characters of more than one byte. */
  lemma {:induction false} NarrowFrames(f: Frame)
    ensures f.Keepalive? ==> Narrow(Encode(f))
    ensures f.Event? ==> Narrow(HeadText(f.sequence) + "data: ")
  {
    if f.Event? {
      assert Narrow(Decimal(f.sequence)) by {
        assert forall i :: 0 <= i < |Decimal(f.sequence)| ==> Decimal(f.sequence)[i] in Decimal(f.sequence);
      }
      NarrowConcat("id: ", Decimal(f.sequence));
      NarrowConcat("id: " + Decimal(f.sequence), "\n");
      NarrowConcat("id: " + Decimal(f.sequence) + "\n", "event: " + AGENT_EVENT + "\n");
      NarrowConcat(HeadText(f.sequence), "data: ");
    }
  }

  lemma {:induction false} WideBetween(front: string, middle: string, end: string, i: nat) returns (j: nat)
    requires Narrow(front) && Narrow(end)
    requires i < |front + middle + end| && Width((front + middle + end)[i]) > 1
    ensures j < |middle| && (front + middle + end)[..i] == front + middle[..j] && middle[j] == (front + middle + end)[i]
  {
    assert |front| <= i < |front| + |middle|;
    j := i - |front|;
  }

  lemma {:induction false} Regrouped(a: string, b: string, c: string, d: string, e: string)
    ensures a + (b + c + d + e) == a + b + c + (d + e)
  {
  }

  /** A wide character of a frame belongs to its data. */
  lemma {:induction false} WideInData(f: Frame, i: nat) returns (j: nat)
    requires i < |Encode(f)| && Width(Encode(f)[i]) > 1
    ensures f.Event? && j < |f.json| && Encode(f)[..i] == HeadText(f.sequence) + "data: " + f.json[..j]
    ensures f.json[j] == Encode(f)[i]
  {
    NarrowFrames(f);
    assert Narrow("\n" + "\n");
    hide HeadText, Width, Encode;
    assert f.Event?;
    EncodeParts(f);
    Regrouped(HeadText(f.sequence), "data: ", f.json, "\n", "\n");
    j := WideBetween(HeadText(f.sequence) + "data: ", f.json, "\n" + "\n", i);
  }

  lemma {:induction false} EncodeSplit(fs: seq<Frame>, n: nat)
    requires n < |fs|
    ensures EncodeAll(fs) == EncodeAll(fs[..n]) + Encode(fs[n]) + EncodeAll(fs[n + 1..])
  {
    hide Encode;
    if n == 0 {
      assert fs[..0] == [] && EncodeAll([]) == "";
    } else {
      EncodeSplit(fs[1..], n - 1);
      assert fs[..n] == [fs[0]] + fs[1..][..n - 1] && fs[1..][n..] == fs[n + 1..];
      assert EncodeAll(fs[..n]) == Encode(fs[0]) + EncodeAll(fs[1..][..n - 1]);
    }
  }

  lemma {:induction false} ReplacedPrefix(json: string, m: nat)
    requires m < |json|
    ensures json[..m] + [REPLACEMENT] <= json <==> json[m] == REPLACEMENT
    ensures OneLine(json) ==> OneLine(json[..m] + [REPLACEMENT])
  {
    var raw := json[..m] + [REPLACEMENT];
    if raw <= json {
      assert raw[m] == json[m];
    } else {
      assert json[..m + 1] == json[..m] + [json[m]];
    }
  }

  /** An unfinished data line at the end of the body. */
  lemma {:induction false} DataAtEnd(sequence: nat, raw: string, out: seq<Message>)
    requires OneLine(raw)
    ensures End(Run(Parser(NO_FIELDS, "", out), HeadText(sequence) + ("data: " + raw))).out ==
            out + [Message(Some(Decimal(sequence)), raw)]
  {
    hide Run, HeadText, IndexOf, FieldOf, ValueOf;
    var part, fields := "data: " + raw, Fields(Some(Decimal(sequence)), AGENT_EVENT, []);
    assert "" + part == part && [] + [raw] == [raw] && '\n' !in part;
    RunConcat(Parser(NO_FIELDS, "", out), HeadText(sequence), part);
    HeadParsed(sequence, out);
    RunPart(Parser(fields, "", out), part);
    PrefixedLine("data", raw);
    assert part == "data" + ": " + raw;
  }

  lemma {:induction false} HeadPlain(sequence: nat)
    ensures '\r' !in HeadText(sequence)
  {
    AbsentConcat("id: ", Decimal(sequence), '\r');
    AbsentConcat("id: " + Decimal(sequence), "\n", '\r');
    AbsentConcat("id: " + Decimal(sequence) + "\n", "event: " + AGENT_EVENT + "\n", '\r');
  }

  /** A body that stops inside a character of an event's data: the last message ends in the replacement,
      so its data is no prefix of the event's, unless the character was the replacement itself. */
  lemma {:induction false} CutInsideCharacter(fs: seq<Frame>, chunks: seq<string>, n: nat, m: nat)
    requires forall i :: 0 <= i < |fs| ==> Printable(fs[i])
    requires n < |fs| && fs[n].Event? && m < |fs[n].json|
    requires Concat(chunks) ==
             EncodeAll(fs[..n]) + (HeadText(fs[n].sequence) + ("data: " + (fs[n].json[..m] + [REPLACEMENT])))
    ensures var raw := fs[n].json[..m] + [REPLACEMENT];
            && Parsed(chunks) == MessagesOf(fs[..n]) + [Message(Some(Decimal(fs[n].sequence)), raw)]
            && (raw <= fs[n].json <==> fs[n].json[m] == REPLACEMENT)
  {
    hide Run, HeadText, Encode, EncodeAll, End;
    var f, raw, out := fs[n], fs[n].json[..m] + [REPLACEMENT], MessagesOf(fs[..n]);
    ReplacedPrefix(f.json, m);
    AllPlain(fs[..n]);
    HeadPlain(f.sequence);
    AbsentConcat("data: ", raw, '\r');
    AbsentConcat(HeadText(f.sequence), "data: " + raw, '\r');
    AbsentConcat(EncodeAll(fs[..n]), HeadText(f.sequence) + ("data: " + raw), '\r');
    ParsedWhole(chunks);
    FramesParsed(fs[..n], [], HeadText(f.sequence) + ("data: " + raw));
    assert [] + out == out;
    DataAtEnd(f.sequence, raw, out);
  }

  /** At most one message with the next event's identifier; its data is what is decoded from a byte prefix
      of that event's. */
  ghost predicate BytesOf(extra: seq<Message>, f: Frame) {
    extra == [] || (f.Event? && exists k :: extra == [Message(Some(Decimal(f.sequence)), Received(f.json, k))])
  }

  lemma {:induction false} ReceivedPrefix(text: string, part: string) returns (k: nat)
    requires part <= text
    ensures Received(text, k) == part
  {
    if part == "" {
      k := 0;
    } else {
      k := ReceivedPrefix(text[1..], part[1..]);
      k := k + Width(text[0]);
    }
  }

  lemma {:induction false} ReceivedInside(text: string, m: nat) returns (k: nat)
    requires m < |text| && Width(text[m]) > 1
    ensures Received(text, k) == text[..m] + [REPLACEMENT]
  {
    if m == 0 {
      k := 1;
    } else {
      k := ReceivedInside(text[1..], m - 1);
      k := k + Width(text[0]);
    }
  }

  lemma {:induction false} PartIsBytes(extra: seq<Message>, f: Frame)
    requires PartOf(extra, f)
    ensures BytesOf(extra, f)
  {
    if extra != [] {
      var k := ReceivedPrefix(f.json, extra[0].raw);
      assert extra == [Message(Some(Decimal(f.sequence)), Received(f.json, k))];
    }
  }

  /** A connection that breaks after any byte yields the events that were sent whole, and at most one
      more message, whose data is what is decoded from a byte prefix of the next event's. */
  lemma {:induction false} TruncatedBytes(fs: seq<Frame>, chunks: seq<string>, k: nat)
    requires forall i :: 0 <= i < |fs| ==> Printable(fs[i])
    requires Concat(chunks) == Received(EncodeAll(fs), k)
    ensures exists n, extra :: 0 <= n <= |fs| && Parsed(chunks) == MessagesOf(fs[..n]) + extra
              && if n == |fs| then extra == [] else BytesOf(extra, fs[n])
  {
    hide Parsed, EncodeAll, Encode, HeadText, PartOf, Received, BytesOf;
    var m, inside := ReceivedParts(EncodeAll(fs), k);
    if inside {
      CutWide(fs, chunks, m);
    } else {
      assert EncodeAll(fs)[..m] + "" == EncodeAll(fs)[..m];
      TruncatedStream(fs, chunks, m);
      var n, extra :| 0 <= n <= |fs| && Parsed(chunks) == MessagesOf(fs[..n]) + extra
                      && if n == |fs| then extra == [] else PartOf(extra, fs[n]);
      if n < |fs| {
        PartIsBytes(extra, fs[n]);
      }
    }
  }

  lemma {:induction false} CutWide(fs: seq<Frame>, chunks: seq<string>, m: nat)
    requires forall i :: 0 <= i < |fs| ==> Printable(fs[i])
    requires m < |EncodeAll(fs)| && Width(EncodeAll(fs)[m]) > 1
    requires Concat(chunks) == EncodeAll(fs)[..m] + [REPLACEMENT]
    ensures exists n, extra :: 0 <= n < |fs| && Parsed(chunks) == MessagesOf(fs[..n]) + extra && BytesOf(extra, fs[n])
  {
    hide Parsed, Encode, HeadText;
    var n, part := CutFrame(fs, m);
    assert n < |fs| by {
      assert fs[..|fs|] == fs;
    }
    EncodeSplit(fs, n);
    hide EncodeAll;
    assert EncodeAll(fs)[m] == Encode(fs[n])[|part|];
    var j := WideInData(fs[n], |part|);
    var front := EncodeAll(fs[..n]);
    var raw := fs[n].json[..j] + [REPLACEMENT];
    assert front + part + [REPLACEMENT] ==
           front + (HeadText(fs[n].sequence) + ("data: " + raw));
    CutInsideCharacter(fs, chunks, n, j);
    var bytes := ReceivedInside(fs[n].json, j);
    assert BytesOf([Message(Some(Decimal(fs[n].sequence)), raw)], fs[n]);
  }
}
