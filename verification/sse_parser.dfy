/** The incremental parser of server-sent events used by the load tests. */
module SseParser {
  import opened Common

  datatype Event = Event(event: string, data: string)

  /** What has been collected since the last dispatch, and everything dispatched so far. */
  datatype Acc = Acc(name: string, data: seq<string>, events: seq<Event>)

  datatype State = State(buffer: string, acc: Acc)

  const START := State("", Acc("message", [], []))

  function Join(lines: seq<string>): string {
    if lines == [] then "" else if |lines| == 1 then lines[0]
    else Join(lines[..|lines| - 1]) + "\n" + lines[|lines| - 1]
  }

  function Dispatched(acc: Acc): Acc {
    Acc("message", [], if acc.data == [] then acc.events else acc.events + [Event(acc.name, Join(acc.data))])
  }

  function IndexOf(s: string, c: char): (i: nat)
    ensures i <= |s| && c !in s[..i] && (i < |s| ==> s[i] == c)
  {
    if s == "" || s[0] == c then 0 else 1 + IndexOf(s[1..], c)
  }

  function WithoutCr(line: string): string {
    if line != "" && line[|line| - 1] == '\r' then line[..|line| - 1] else line
  }

  function FieldOf(line: string): string {
    line[..IndexOf(line, ':')]
  }

  function ValueOf(line: string): string {
    var i := IndexOf(line, ':');
    var value := if i == |line| then "" else line[i + 1..];
    if value != "" && value[0] == ' ' then value[1..] else value
  }

  function Consumed(acc: Acc, line: string): Acc {
    if line == "" then Dispatched(acc)
    else if line[0] == ':' then acc
    else if FieldOf(line) == "event" then acc.(name := ValueOf(line))
    else if FieldOf(line) == "data" then acc.(data := acc.data + [ValueOf(line)])
    else acc
  }

  /** The parser as a machine that reads one character at a time. */
  function Read(st: State, c: char): State {
    if c == '\n' then State("", Consumed(st.acc, WithoutCr(st.buffer))) else st.(buffer := st.buffer + [c])
  }

  function Feed(st: State, text: string): State {
    if text == "" then st else Read(Feed(st, text[..|text| - 1]), text[|text| - 1])
  }

  function Finished(st: State): State {
    State("", Dispatched(if st.buffer == "" then st.acc else Consumed(st.acc, WithoutCr(st.buffer))))
  }

  lemma {:induction false} FeedConcat(st: State, a: string, b: string)
    ensures Feed(st, a + b) == Feed(Feed(st, a), b)
  {
    if b == "" {
      assert a + b == a;
    } else {
      FeedConcat(st, a, b[..|b| - 1]);
      assert (a + b)[..|a + b| - 1] == a + b[..|b| - 1];
    }
  }

  lemma {:induction false} FeedPlain(st: State, text: string)
    requires '\n' !in text
    ensures Feed(st, text) == st.(buffer := st.buffer + text)
  {
    if text == "" {
      assert st.buffer + text == st.buffer;
    } else {
      FeedPlain(st, text[..|text| - 1]);
      assert text[|text| - 1] in text;
      assert st.buffer + text[..|text| - 1] + [text[|text| - 1]] == st.buffer + text;
    }
  }

  /** A whole line read into an empty buffer. */
  lemma FeedLine(acc: Acc, line: string)
    requires '\n' !in line
    ensures Feed(State("", acc), line + "\n") == State("", Consumed(acc, WithoutCr(line)))
  {
    FeedConcat(State("", acc), line, "\n");
    FeedPlain(State("", acc), line);
    assert "" + line == line;
    assert "\n"[..0] == "";
    assert Feed(State(line, acc), "\n") == Read(Feed(State(line, acc), ""), '\n');
  }

  lemma FeedFirstLine(acc: Acc, text: string)
    requires IndexOf(text, '\n') < |text|
    ensures var n := IndexOf(text, '\n');
      Feed(State("", acc), text) == Feed(State("", Consumed(acc, WithoutCr(text[..n]))), text[n + 1..])
  {
    var n := IndexOf(text, '\n');
    assert text == (text[..n] + "\n") + text[n + 1..];
    FeedConcat(State("", acc), text[..n] + "\n", text[n + 1..]);
    FeedLine(acc, text[..n]);
  }

  /** Text without a line end that is still in the buffer may as well be read now. */
  lemma FeedRest(acc: Acc, buffer: string, more: string)
    requires '\n' !in buffer
    ensures Feed(State("", acc), buffer + more) == Feed(State(buffer, acc), more)
  {
    FeedConcat(State("", acc), buffer, more);
    FeedPlain(State("", acc), buffer);
    assert "" + buffer == buffer;
  }

  class Parser {
    var buffer: string
    var eventName: string
    var data: seq<string>
    var events: seq<Event>      // what was handed to the callback

    ghost function Now(): State
      reads this
    {
      State(buffer, Acc(eventName, data, events))
    }

    constructor ()
      ensures Now() == START
    {
      buffer, eventName, data, events := "", "message", [], [];
    }

    method Push(chunk: string)
      requires '\n' !in buffer
      modifies this
      ensures Now() == Feed(old(Now()), chunk)
      ensures '\n' !in buffer
    {
      ghost var was := Now();
      FeedRest(was.acc, buffer, chunk);
      buffer := buffer + chunk;
      var newline := IndexOf(buffer, '\n');
      while newline < |buffer|
        invariant newline == IndexOf(buffer, '\n')
        invariant Feed(State("", Now().acc), buffer) == Feed(was, chunk)
        decreases |buffer|
      {
        var rawLine := buffer[..newline];
        FeedFirstLine(Now().acc, buffer);
        buffer := buffer[newline + 1..];
        ConsumeLine(WithoutCr(rawLine));
        newline := IndexOf(buffer, '\n');
      }
      assert buffer[..newline] == buffer;
      FeedRest(Now().acc, buffer, "");
      assert buffer + "" == buffer;
    }

    method Finish()
      modifies this
      ensures Now() == Finished(old(Now()))
    {
      if |buffer| > 0 { ConsumeLine(WithoutCr(buffer)); }
      buffer := "";
      Dispatch();
    }

    method ConsumeLine(line: string)
      modifies this
      ensures Now() == State(old(buffer), Consumed(old(Now()).acc, line))
    {
      if line == "" {
        Dispatch();
        return;
      }
      if line[0] == ':' { return; }
      var separator := IndexOf(line, ':');
      var field := line[..separator];
      var value := if separator == |line| then "" else line[separator + 1..];
      if value != "" && value[0] == ' ' { value := value[1..]; }
      if field == "event" { eventName := value; }
      if field == "data" { data := data + [value]; }
    }

    method Dispatch()
      modifies this
      ensures Now() == State(old(buffer), Dispatched(old(Now()).acc))
    {
      if |data| > 0 { events := events + [Event(eventName, Join(data))]; }
      eventName := "message";
      data := [];
    }
  }

  // ---- chunking ----

  function Flat(chunks: seq<string>): string {
    if chunks == [] then "" else Flat(chunks[..|chunks| - 1]) + chunks[|chunks| - 1]
  }

  function FeedAll(st: State, chunks: seq<string>): State {
    if chunks == [] then st else Feed(FeedAll(st, chunks[..|chunks| - 1]), chunks[|chunks| - 1])
  }

  /** However a stream is cut into chunks, the parser ends in the same state. */
  lemma {:induction false} ChunkingIsInvisible(st: State, chunks: seq<string>)
    ensures FeedAll(st, chunks) == Feed(st, Flat(chunks))
  {
    if chunks != [] {
      var last := |chunks| - 1;
      ChunkingIsInvisible(st, chunks[..last]);
      FeedConcat(st, Flat(chunks[..last]), chunks[last]);
    }
  }

  method ParseChunks(chunks: seq<string>) returns (events: seq<Event>)
    ensures events == Finished(Feed(START, Flat(chunks))).acc.events
  {
    var parser := new Parser();
    for i := 0 to |chunks|
      invariant fresh(parser) && '\n' !in parser.buffer
      invariant parser.Now() == FeedAll(START, chunks[..i])
    {
      assert chunks[..i + 1][..i] == chunks[..i];
      parser.Push(chunks[i]);
    }
    assert chunks[..|chunks|] == chunks;
    ChunkingIsInvisible(START, chunks);
    parser.Finish();
    events := parser.events;
  }

  // ---- printing ----

  /** The lines of a text, split at LF. */
  function Lines(text: string): (r: seq<string>)
    ensures r != []
  {
    if text == "" then [""]
    else
      GrowLines(Lines(text[..|text| - 1]), text[|text| - 1])
  }

  predicate OneLine(text: string) {
    '\n' !in text && '\r' !in text
  }

  function FieldText(field: string, value: string): string {
    field + ": " + value + "\n"
  }

  function PrintData(lines: seq<string>): string {
    if lines == [] then "" else PrintData(lines[..|lines| - 1]) + FieldText("data", lines[|lines| - 1])
  }

  /** A frame: the event name, one data line per line of the payload, a blank line. */
  function Print(e: Event): string {
    FieldText("event", e.event) + PrintData(Lines(e.data)) + "\n"
  }

  function PrintAll(es: seq<Event>): string {
    if es == [] then "" else PrintAll(es[..|es| - 1]) + Print(es[|es| - 1])
  }

  predicate Printable(e: Event) {
    OneLine(e.event) && '\r' !in e.data
  }

  function GrowLines(lines: seq<string>, c: char): (r: seq<string>)
    requires lines != []
    ensures r != []
  {
    if c == '\n' then lines + [""] else lines[..|lines| - 1] + [lines[|lines| - 1] + [c]]
  }

  lemma JoinGrows(lines: seq<string>, c: char)
    requires lines != []
    ensures Join(GrowLines(lines, c)) == Join(lines) + [c]
  {
    if c == '\n' {
      assert (lines + [""])[..|lines|] == lines;
      assert Join(lines) + "\n" + "" == Join(lines) + [c];
    } else {
      JoinExtends(lines, c);
    }
  }

  lemma {:induction false} LinesJoin(text: string)
    ensures Join(Lines(text)) == text
  {
    if text != "" {
      var before, c := text[..|text| - 1], text[|text| - 1];
      LinesJoin(before);
      JoinGrows(Lines(before), c);
      assert before + [c] == text;
    }
  }

  predicate AllOneLine(lines: seq<string>) {
    forall i :: 0 <= i < |lines| ==> OneLine(lines[i])
  }

  lemma GrowsOneLine(lines: seq<string>, c: char)
    requires lines != [] && AllOneLine(lines) && c != '\r'
    ensures AllOneLine(GrowLines(lines, c))
  {
    var last := lines[|lines| - 1];
    assert OneLine(last);
    assert c != '\n' ==> OneLine(last + [c]);
  }

  lemma {:induction false} LinesAreOneLine(text: string)
    requires '\r' !in text
    ensures AllOneLine(Lines(text))
  {
    if text != "" {
      var before, c := text[..|text| - 1], text[|text| - 1];
      assert c in text && '\r' !in before;
      LinesAreOneLine(before);
      GrowsOneLine(Lines(before), c);
    }
  }

  lemma JoinExtends(lines: seq<string>, c: char)
    requires lines != []
    ensures Join(lines[..|lines| - 1] + [lines[|lines| - 1] + [c]]) == Join(lines) + [c]
  {
    var n := |lines| - 1;
    var now := lines[..n] + [lines[n] + [c]];
    assert now[..n] == lines[..n] && now[n] == lines[n] + [c];
    if n > 0 {
      AppendChar(Join(lines[..n]) + "\n", lines[n], c);
    }
  }

  lemma AppendChar(a: string, b: string, c: char)
    ensures a + (b + [c]) == a + b + [c]
  {
  }

  /** The name and the value of a printed field line. */
  lemma LineParts(field: string, value: string)
    requires ':' !in field && field != ""
    ensures var line := field + (": " + value);
      line != "" && line[0] != ':' && FieldOf(line) == field && ValueOf(line) == value
  {
    var tail := ": " + value;
    var line := field + tail;
    ColonAt(field, tail);
    assert line[0] == field[0] && field[0] in field;
    assert line[..|field|] == field;
    assert line[|field| + 1..] == tail[1..] == " " + value;
    assert (" " + value)[1..] == value;
  }

  lemma PrintedLineIsPlain(field: string, value: string)
    requires OneLine(value) && OneLine(field)
    ensures var line := field + (": " + value);
      '\n' !in line && WithoutCr(line) == line && FieldText(field, value) == line + "\n"
  {
    var tail := ": " + value;
    var line := field + tail;
    assert '\n' !in tail && '\r' !in tail;
    assert line[|line| - 1] == tail[|tail| - 1] && tail[|tail| - 1] in tail;
    assert field + ": " + value == line;
  }

  /** A printed field line is read back as that field. */
  lemma FieldLine(acc: Acc, field: string, value: string)
    requires OneLine(value) && (field == "event" || field == "data")
    ensures Feed(State("", acc), FieldText(field, value))
      == State("", if field == "event" then acc.(name := value) else acc.(data := acc.data + [value]))
  {
    FieldNamesAreOneLine();
    LineParts(field, value);
    PrintedLineIsPlain(field, value);
    FeedLine(acc, field + (": " + value));
  }

  lemma FieldNamesAreOneLine()
    ensures OneLine("event") && OneLine("data") && ':' !in "event" && ':' !in "data" && "event" != "data"
  {
    assert |"event"| == 5 && |"data"| == 4;
  }

  lemma {:induction false} ColonAt(field: string, rest: string)
    requires ':' !in field && rest != "" && rest[0] == ':'
    ensures IndexOf(field + rest, ':') == |field|
  {
    if field == "" {
      assert field + rest == rest;
    } else {
      assert field[0] in field && (field + rest)[1..] == field[1..] + rest;
      ColonAt(field[1..], rest);
    }
  }

  ghost predicate ReadsData(acc: Acc, text: string, lines: seq<string>) {
    Feed(State("", acc), text) == State("", acc.(data := acc.data + lines))
  }

  lemma DataLineAppends(acc: Acc, text: string, before: seq<string>, line: string, lines: seq<string>)
    requires ReadsData(acc, text, before) && OneLine(line) && lines == before + [line]
    ensures ReadsData(acc, text + FieldText("data", line), lines)
  {
    FeedConcat(State("", acc), text, FieldText("data", line));
    FieldLine(acc.(data := acc.data + before), "data", line);
    assert acc.data + before + [line] == acc.data + lines;
  }

  lemma PrintDataSnoc(lines: seq<string>)
    requires lines != []
    ensures var before, line := lines[..|lines| - 1], lines[|lines| - 1];
      lines == before + [line] && PrintData(lines) == PrintData(before) + FieldText("data", line)
  {
  }

  lemma {:induction false} PrintedDataIsRead(acc: Acc, lines: seq<string>)
    requires AllOneLine(lines)
    ensures ReadsData(acc, PrintData(lines), lines)
  {
    if lines == [] {
      assert acc.data + lines == acc.data;
    } else {
      var before, line := lines[..|lines| - 1], lines[|lines| - 1];
      PrintedDataIsRead(acc, before);
      PrintDataSnoc(lines);
      DataLineAppends(acc, PrintData(before), before, line, lines);
    }
  }

  lemma FrameIsRead(events: seq<Event>, e: Event)
    requires Printable(e)
    ensures Feed(State("", Acc("message", [], events)), Print(e)) == State("", Acc("message", [], events + [e]))
  {
    var start := State("", Acc("message", [], events));
    var head, body := FieldText("event", e.event), PrintData(Lines(e.data));
    FieldLine(start.acc, "event", e.event);
    assert Feed(start, head) == State("", Acc(e.event, [], events));
    LinesAreOneLine(e.data);
    PrintedDataIsRead(Acc(e.event, [], events), Lines(e.data));
    assert [] + Lines(e.data) == Lines(e.data);
    FeedConcat(start, head, body);
    FeedConcat(start, head + body, "\n");
    BlankLineDispatches(e, events);
  }

  lemma BlankLineDispatches(e: Event, events: seq<Event>)
    requires Printable(e)
    ensures Feed(State("", Acc(e.event, Lines(e.data), events)), "\n") == State("", Acc("message", [], events + [e]))
  {
    LinesJoin(e.data);
    FeedLine(Acc(e.event, Lines(e.data), events), "");
    assert "" + "\n" == "\n";
  }

  ghost predicate Reads(text: string, es: seq<Event>) {
    Feed(START, text) == State("", Acc("message", [], es))
  }

  lemma FrameAppends(text: string, before: seq<Event>, e: Event, es: seq<Event>)
    requires Reads(text, before) && Printable(e) && es == before + [e]
    ensures Reads(text + Print(e), es)
  {
    FeedConcat(START, text, Print(e));
    FrameIsRead(before, e);
  }

  predicate AllPrintable(es: seq<Event>) {
    es == [] || (AllPrintable(es[..|es| - 1]) && Printable(es[|es| - 1]))
  }

  lemma {:induction false} AllPrintableIff(es: seq<Event>)
    ensures AllPrintable(es) <==> forall i :: 0 <= i < |es| ==> Printable(es[i])
  {
    if es != [] {
      AllPrintableIff(es[..|es| - 1]);
    }
  }

  lemma PrintAllSnoc(es: seq<Event>)
    requires es != []
    ensures var before, e := es[..|es| - 1], es[|es| - 1];
      es == before + [e] && PrintAll(es) == PrintAll(before) + Print(e)
  {
  }

  lemma {:induction false} PrintedIsRead(es: seq<Event>)
    requires AllPrintable(es)
    ensures Reads(PrintAll(es), es)
  {
    if es != [] {
      PrintedIsRead(es[..|es| - 1]);
      PrintAllSnoc(es);
      FrameAppends(PrintAll(es[..|es| - 1]), es[..|es| - 1], es[|es| - 1], es);
    }
  }

  /** Events whose names have no line ends and whose payloads have no CR survive printing and
      parsing, in whatever chunks the text arrives. */
  lemma RoundTrip(es: seq<Event>, chunks: seq<string>)
    requires forall i :: 0 <= i < |es| ==> Printable(es[i])
    requires Flat(chunks) == PrintAll(es)
    ensures Finished(FeedAll(START, chunks)).acc.events == es
  {
    AllPrintableIff(es);
    PrintedIsRead(es);
    ChunkingIsInvisible(START, chunks);
  }
}
