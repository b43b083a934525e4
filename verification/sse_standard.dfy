/** The event-stream interpretation of section 9.2.6 of the WHATWG HTML Standard, and exactly
    where the load-test parser departs from it. */
module SseStandard {
  import opened Common
  import opened SseParser

  datatype Pending = Pending(eventType: string, data: string, events: seq<Event>)

  /** Lines end with CRLF, LF or CR; the second part is the unfinished last line. */
  function SplitLines(text: string, line: string): (seq<string>, string) {
    if text == "" then ([], line)
    else if text[0] == '\n' then var r := SplitLines(text[1..], ""); ([line] + r.0, r.1)
    else if text[0] == '\r' then
      var r := SplitLines(if |text| > 1 && text[1] == '\n' then text[2..] else text[1..], "");
      ([line] + r.0, r.1)
    else SplitLines(text[1..], line + [text[0]])
  }

  function DispatchStandard(p: Pending): Pending {
    if p.data == "" then Pending("", "", p.events)
    else
      Pending("", "", p.events + [Event(if p.eventType == "" then "message" else p.eventType,
                                        if p.data[|p.data| - 1] == '\n' then p.data[..|p.data| - 1] else p.data)])
  }

  function ProcessLine(p: Pending, line: string): Pending {
    if line == "" then DispatchStandard(p)
    else if line[0] == ':' then p
    else if FieldOf(line) == "event" then p.(eventType := ValueOf(line))
    else if FieldOf(line) == "data" then p.(data := p.data + ValueOf(line) + "\n")
    else p
  }

  function ProcessLines(p: Pending, lines: seq<string>): Pending {
    if lines == [] then p else ProcessLine(ProcessLines(p, lines[..|lines| - 1]), lines[|lines| - 1])
  }

  /** An event left incomplete at the end of the stream is discarded. */
  function StandardEvents(text: string): seq<Event> {
    ProcessLines(Pending("", "", []), SplitLines(text, "").0).events
  }

  // ---- lines ----

  predicate NoBareCr(text: string) {
    forall i :: 0 <= i < |text| && text[i] == '\r' ==> i + 1 < |text| && text[i + 1] == '\n'
  }

  function ConsumeLines(acc: Acc, lines: seq<string>): Acc {
    if lines == [] then acc else Consumed(ConsumeLines(acc, lines[..|lines| - 1]), lines[|lines| - 1])
  }

  lemma ConsumeSnoc(acc: Acc, lines: seq<string>, line: string)
    ensures ConsumeLines(acc, lines + [line]) == Consumed(ConsumeLines(acc, lines), line)
  {
    assert (lines + [line])[..|lines|] == lines;
  }

  lemma {:induction false} ConsumeFirst(acc: Acc, line: string, lines: seq<string>)
    ensures ConsumeLines(acc, [line] + lines) == ConsumeLines(Consumed(acc, line), lines)
  {
    if lines == [] {
      ConsumeSnoc(acc, [], line);
      assert [line] + lines == [] + [line];
    } else {
      var before, last := lines[..|lines| - 1], lines[|lines| - 1];
      ConsumeFirst(acc, line, before);
      ConsumeSnoc(acc, [line] + before, last);
      ConsumeSnoc(Consumed(acc, line), before, last);
      assert [line] + lines == [line] + before + [last] && before + [last] == lines;
    }
  }

  lemma FeedOne(st: State, c: char, text: string)
    ensures Feed(st, [c] + text) == Feed(Read(st, c), text)
  {
    FeedConcat(st, [c], text);
    assert [c][..0] == "";
    assert Feed(st, [c]) == Read(Feed(st, [c][..0]), c);
  }

  lemma CrLfRead(acc: Acc, line: string, text: string)
    requires NoBareCr(text) && text != "" && text[0] == '\r'
    ensures |text| > 1 && text[1] == '\n' && NoBareCr(text[2..])
    ensures Feed(State(line, acc), text) == Feed(State("", Consumed(acc, line)), text[2..])
  {
    var after := text[2..];
    assert text == ['\r'] + (['\n'] + after);
    FeedOne(State(line, acc), '\r', ['\n'] + after);
    FeedOne(State(line + ['\r'], acc), '\n', after);
    assert WithoutCr(line + ['\r']) == line;
    assert forall i :: 0 <= i < |after| ==> after[i] == text[i + 2];
  }

  /** Without a bare CR the parser sees the same lines as the standard. */
  lemma {:induction false} SplitsAlike(acc: Acc, line: string, text: string)
    requires NoBareCr(text) && '\r' !in line
    ensures var r := SplitLines(text, line); Feed(State(line, acc), text) == State(r.1, ConsumeLines(acc, r.0))
    ensures '\r' !in SplitLines(text, line).1
    decreases |text|
  {
    if text != "" {
      var c, rest := text[0], text[1..];
      assert text == [c] + rest && NoBareCr(rest);
      FeedOne(State(line, acc), c, rest);
      if c == '\n' {
        assert WithoutCr(line) == line by { assert line != "" ==> line[|line| - 1] in line; }
        SplitsAlike(Consumed(acc, line), "", rest);
        ConsumeFirst(acc, line, SplitLines(rest, "").0);
      } else if c == '\r' {
        CrLfRead(acc, line, text);
        SplitsAlike(Consumed(acc, line), "", text[2..]);
        ConsumeFirst(acc, line, SplitLines(text[2..], "").0);
      } else {
        SplitsAlike(acc, line + [c], rest);
      }
    }
  }

  // ---- the two interpretations side by side ----

  function Terminated(lines: seq<string>): string {
    if lines == [] then "" else Terminated(lines[..|lines| - 1]) + lines[|lines| - 1] + "\n"
  }

  lemma {:induction false} JoinIsTerminated(lines: seq<string>)
    requires lines != []
    ensures Terminated(lines) == Join(lines) + "\n"
  {
    if |lines| == 1 {
      assert lines[..0] == [] && Terminated(lines[..0]) == "";
      assert "" + lines[0] == lines[0];
    } else {
      JoinIsTerminated(lines[..|lines| - 1]);
    }
  }

  function Named(name: string): string {
    if name == "" then "message" else name
  }

  function Renamed(es: seq<Event>): seq<Event> {
    seq(|es|, i requires 0 <= i < |es| => Event(Named(es[i].event), es[i].data))
  }

  predicate Alike(acc: Acc, p: Pending) {
    p.data == Terminated(acc.data) && Named(acc.name) == Named(p.eventType) && p.events == Renamed(acc.events)
  }

  lemma LineKeepsAlike(acc: Acc, p: Pending, line: string)
    requires Alike(acc, p)
    ensures Alike(Consumed(acc, line), ProcessLine(p, line))
  {
    if line == "" {
      if acc.data != [] {
        JoinIsTerminated(acc.data);
        assert p.data[..|p.data| - 1] == Join(acc.data);
        assert Renamed(acc.events + [Event(acc.name, Join(acc.data))])
            == Renamed(acc.events) + [Event(Named(acc.name), Join(acc.data))];
      }
    } else if line[0] != ':' && FieldOf(line) == "data" {
      assert (acc.data + [ValueOf(line)])[..|acc.data|] == acc.data;
    }
  }

  lemma {:induction false} LinesKeepAlike(acc: Acc, p: Pending, lines: seq<string>)
    requires Alike(acc, p)
    ensures Alike(ConsumeLines(acc, lines), ProcessLines(p, lines))
  {
    if lines != [] {
      LinesKeepAlike(acc, p, lines[..|lines| - 1]);
      LineKeepsAlike(ConsumeLines(acc, lines[..|lines| - 1]), ProcessLines(p, lines[..|lines| - 1]), lines[|lines| - 1]);
    }
  }

  /** Before the end of the stream the parser emits the standard's events, except that an event
      whose name was set to nothing keeps the empty name. */
  lemma EventsUpToNames(text: string)
    requires NoBareCr(text)
    ensures StandardEvents(text) == Renamed(Feed(START, text).acc.events)
  {
    SplitsAlike(START.acc, "", text);
    LinesKeepAlike(START.acc, Pending("", "", []), SplitLines(text, "").0);
  }

  // ---- exactly when they agree ----

  /** The event name in force after some lines, and whether data is pending. */
  function NameAfter(lines: seq<string>): string {
    if lines == [] then "message" else
      var last := lines[|lines| - 1];
      if last == "" then "message"
      else if last[0] != ':' && FieldOf(last) == "event" then ValueOf(last)
      else NameAfter(lines[..|lines| - 1])
  }

  predicate DataField(line: string) {
    line != "" && line[0] != ':' && FieldOf(line) == "data"
  }

  predicate HasData(lines: seq<string>) {
    lines != [] && lines[|lines| - 1] != "" && (DataField(lines[|lines| - 1]) || HasData(lines[..|lines| - 1]))
  }

  /** A blank line that ends a block with data whose last `event` field is empty. */
  predicate Nameless(lines: seq<string>, k: int) {
    0 <= k < |lines| && lines[k] == "" && HasData(lines[..k]) && NameAfter(lines[..k]) == ""
  }

  predicate AllNamed(es: seq<Event>) {
    forall i :: 0 <= i < |es| ==> es[i].event != ""
  }

  lemma {:induction false} NamelessIff(lines: seq<string>)
    ensures var acc := ConsumeLines(START.acc, lines);
      && acc.name == NameAfter(lines) && (acc.data != [] <==> HasData(lines))
      && (AllNamed(acc.events) <==> forall k :: !Nameless(lines, k))
  {
    if lines != [] {
      var shorter, n := lines[..|lines| - 1], |lines| - 1;
      NamelessIff(shorter);
      assert forall k :: 0 <= k < n ==> lines[..k] == shorter[..k];
      assert forall k :: 0 <= k < n ==> (Nameless(lines, k) <==> Nameless(shorter, k));
      var before := ConsumeLines(START.acc, shorter);
      if lines[n] == "" && before.data != [] {
        var e := Event(before.name, Join(before.data));
        assert (before.events + [e])[|before.events|] == e;
        assert forall i :: 0 <= i < |before.events| ==> (before.events + [e])[i] == before.events[i];
        assert Nameless(lines, n) <==> before.name == "";
      }
    }
  }

  lemma RenamedSame(es: seq<Event>)
    ensures Renamed(es) == es <==> AllNamed(es)
  {
    if AllNamed(es) {
      assert Renamed(es) == es;
    } else {
      var i :| 0 <= i < |es| && es[i].event == "";
      assert Renamed(es)[i].event != es[i].event;
    }
  }

  /** Ending the stream adds an event exactly when data is still pending or the unfinished line
      is a data field; the standard would discard it. */
  lemma FinishAdds(st: State)
    ensures Finished(st).acc.events == st.acc.events <==> st.acc.data == [] && !DataField(WithoutCr(st.buffer))
  {
  }

  /** The parser gives exactly the standard's events if and only if no block with data ends with
      an emptied name and nothing is pending at the end of the stream. */
  lemma AgreesWithStandardIff(text: string)
    requires NoBareCr(text)
    ensures var lines := SplitLines(text, "");
      Finished(Feed(START, text)).acc.events == StandardEvents(text)
      <==> (forall k :: !Nameless(lines.0, k)) && !HasData(lines.0) && !DataField(lines.1)
  {
    var lines, st := SplitLines(text, ""), Feed(START, text);
    EventsUpToNames(text);
    SplitsAlike(START.acc, "", text);
    NamelessIff(lines.0);
    RenamedSame(st.acc.events);
    FinishAdds(st);
    assert WithoutCr(lines.1) == lines.1 by { assert lines.1 != "" ==> lines.1[|lines.1| - 1] in lines.1; }
    FinishLonger(st);
  }

  lemma FinishLonger(st: State)
    ensures Finished(st).acc.events != st.acc.events ==> |Finished(st).acc.events| > |st.acc.events|
  {
  }

  lemma {:induction false} PrintedDataHasNoCr(lines: seq<string>)
    requires AllOneLine(lines)
    ensures '\r' !in PrintData(lines)
  {
    if lines != [] {
      PrintedDataHasNoCr(lines[..|lines| - 1]);
    }
  }

  /** A printed frame with an empty name: the parser returns that name, the standard "message". */
  lemma EmptyNameDiffers(data: string)
    requires '\r' !in data
    ensures var text := Print(Event("", data));
      && NoBareCr(text) && Finished(Feed(START, text)).acc.events == [Event("", data)]
      && StandardEvents(text) == [Event("message", data)]
  {
    var e := Event("", data);
    LinesAreOneLine(data);
    PrintedDataHasNoCr(Lines(data));
    assert NoBareCr(Print(e));
    FrameIsRead([], e);
    assert [] + [e] == [e];
    EventsUpToNames(Print(e));
  }
}
