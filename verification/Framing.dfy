/** The event reader of a device connection: cutting a byte stream into TPCI messages at `>` and
    parsing each one. */
module Framing {
  import opened Text
  import opened Tpci

  /** The messages of a stream, said without the reader's chunks: from a `<` to the next `>`, then on. */
  function Messages(stream: string): seq<string>
    decreases |stream|, 1
  {
    var open := Find(stream, '<');
    if open == -1 then [] else Opened(stream[open..])
  }

  /** The messages of text that starts one. */
  function Opened(text: string): seq<string>
    decreases |text|, 0
  {
    var close := Find(text, '>');
    if close == -1 then [] else [text[..close + 1]] + Messages(text[close + 1..])
  }

  /** The values that are there, in order. */
  function Present<T>(options: seq<Option<T>>): seq<T> {
    if options == [] then []
    else
      var last := options[|options| - 1];
      Present(options[..|options| - 1]) + (if last.Some? then [last.value] else [])
  }

  function Parses(messages: seq<string>): seq<Option<Report>> {
    seq(|messages|, k requires 0 <= k < |messages| => Parse(messages[k]))
  }

  /** The reports among the messages, in order. */
  function Reports(messages: seq<string>): seq<Report> {
    Present(Parses(messages))
  }

  // ---------------------------------------------------------------- the reader

  /** The first message of a stream in parts: what precedes the `<`, the body, and the rest. */
  lemma FirstMessage(junk: string, body: string, rest: string)
    requires FreeOf(junk, Only('<')) && FreeOf(body, Only('>'))
    ensures Messages(junk + ("<" + body + ">" + rest)) == ["<" + body + ">"] + Messages(rest)
  {
    hide Messages;
    SkipJunk(junk, "<" + body + ">" + rest);
    FirstOpened(body, rest);
  }

  lemma FirstOpened(body: string, rest: string)
    requires FreeOf(body, Only('>'))
    ensures Messages("<" + body + ">" + rest) == ["<" + body + ">"] + Messages(rest)
  {
    var inner := "<" + body;
    var text := inner + ['>'] + rest;
    assert Find(text, '<') == 0 && text[0..] == text;
    FindFirst(inner, '>', rest);
    assert text[..|inner| + 1] == "<" + body + ">" && text[|inner| + 1..] == rest;
  }

  /** Text without a `<` contributes no message. */
  lemma SkipJunk(junk: string, rest: string)
    requires FreeOf(junk, Only('<'))
    ensures Messages(junk + rest) == Messages(rest)
  {
    hide Find, Opened;
    FindSkips(junk, '<', rest);
    var open := Find(rest, '<');
    if open != -1 {
      assert (junk + rest)[|junk| + open..] == rest[open..];
    }
  }

  /** A search for a character passes over text that does not hold it. */
  lemma FindSkips(junk: string, c: char, rest: string)
    requires FreeOf(junk, Only(c))
    ensures Find(junk + rest, c) == if Find(rest, c) == -1 then -1 else |junk| + Find(rest, c)
  {
    var s := junk + rest;
    assert forall k :: 0 <= k < |junk| ==> s[k] == junk[k];
    assert forall k :: 0 <= k < |rest| ==> s[|junk| + k] == rest[k];
  }

  /** The message in a chunk: from its first `<` on. */
  function ChunkContent(line: string): seq<string> {
    var at := Find(line, '<');
    if at == -1 then [] else [line[at..]]
  }

  /** A chunk that ends at its first `>` is worth its content. */
  lemma ChunkMessage(line: string, rest: string)
    requires line != "" && Find(line, '>') == |line| - 1
    ensures Messages(line + rest) == ChunkContent(line) + Messages(rest)
  {
    hide Find, Messages;
    var at := Find(line, '<');
    if at == -1 {
      SkipJunk(line, rest);
    } else {
      var junk, body := line[..at], line[at + 1..|line| - 1];
      assert line[at..] == "<" + body + ">";
      assert line + rest == junk + ("<" + body + ">" + rest);
      FirstMessage(junk, body, rest);
    }
  }

  /** What one turn of the reader takes off the stream. */
  lemma ReadStep(before: string, cut: nat)
    requires Find(before, '>') == cut
    ensures Find(before[..cut + 1], '>') == cut
    ensures Messages(before) == ChunkContent(before[..cut + 1]) + Messages(before[cut + 1..])
  {
    hide Messages, ChunkContent;
    var line, rest := before[..cut + 1], before[cut + 1..];
    assert before == line + rest;
    assert line[cut] == '>';
    ChunkMessage(line, rest);
  }

  lemma ChunkAlone(before: string, cut: nat)
    requires Find(before, '>') == cut
    ensures Messages(before[..cut + 1]) == ChunkContent(before[..cut + 1])
  {
    hide Messages, ChunkContent;
    ReadStep(before, cut);
    var line := before[..cut + 1];
    ReadStep(line, cut);
    assert line[..cut + 1] == line && line[cut + 1..] == "";
    NothingLeft();
  }

  lemma NothingLeft()
    ensures Messages("") == []
  {
  }

  /** What follows the end of a message is read for itself. */
  lemma {:induction false} MessagesSum(a: string, b: string)
    requires a == "" || a[|a| - 1] == '>'
    ensures Messages(a + b) == Messages(a) + Messages(b)
    decreases |a|
  {
    hide Messages, ChunkContent;
    if a == "" {
      assert a + b == b;
      NothingLeft();
    } else {
      var cut := Find(a, '>');
      var line, rest := a[..cut + 1], a[cut + 1..];
      assert a + b == line + (rest + b);
      FoundInHead(a, b, cut);
      ReadStep(a, cut);
      ReadStep(a + b, cut);
      MessagesSum(rest, b);
    }
  }

  lemma FoundInHead(a: string, b: string, cut: nat)
    requires a != "" && a[|a| - 1] == '>' && Find(a, '>') == cut
    ensures Find(a + b, '>') == cut
    ensures (a + b)[..cut + 1] == a[..cut + 1] && (a + b)[cut + 1..] == a[cut + 1..] + b
  {
    assert forall k :: 0 <= k < |a| ==> (a + b)[k] == a[k];
  }

  lemma NoCloseNoMessage(s: string)
    requires Find(s, '>') == -1
    ensures Messages(s) == []
  {
  }

  /** Blanks in front of a chunk take nothing from its first `<` on. */
  lemma PaddedChunk(pad: string, kept: string)
    requires Within(pad, Space)
    ensures ChunkContent(pad + kept) == ChunkContent(kept)
  {
    hide Find;
    FindSkips(pad, '<', kept);
    var at := Find(kept, '<');
    if at != -1 {
      assert (pad + kept)[|pad| + at..] == kept[at..];
    }
  }

  /** Trimming a chunk takes nothing from its first `<` on. */
  lemma TrimmedChunk(line: string)
    requires line != "" && line[|line| - 1] == '>'
    ensures ChunkContent(Trim(line, Space)) == ChunkContent(line)
  {
    hide ChunkContent, TrimLeft, TrimRight;
    TrimLeftPrefix(line, "", Space);
    assert line + "" == line;
    var kept := TrimLeft(line, Space);
    TrimLeftSuffix(line, Space);
    TrimRightStops(kept, "", Space);
    assert kept + "" == kept;
    TrimmedWithin(line);
    PaddedChunk(line[..|line| - |kept|], kept);
    assert line == line[..|line| - |kept|] + kept;
  }

  lemma {:induction false} TrimmedWithin(line: string)
    ensures Within(line[..|line| - |TrimLeft(line, Space)|], Space)
  {
    if line != "" && Space.Has(line[0]) {
      TrimmedWithin(line[1..]);
      var n := |line| - |TrimLeft(line, Space)|;
      assert line[..n] == [line[0]] + line[1..][..n - 1];
    }
  }

  /** Cleaning a chunk up: blanks and junk before the `<` go; a chunk without `<` is dropped. */
  method Clean(line: string) returns (msg: Option<string>)
    requires line != "" && line[|line| - 1] == '>'
    ensures ChunkContent(line) == if msg.Some? then [msg.value] else []
  {
    TrimmedChunk(line);
    var text := Trim(line, Space);
    if !HasPrefix(text, "<") {
      var start := Find(text, '<');
      if start == -1 {
        return None;
      }
      text := text[start..];
    }
    return Some(text);
  }

  /** Parsing one message and sending it on if it is a report. */
  method Emit(ghost messages: seq<string>, events: seq<Report>, msg: string) returns (after: seq<Report>)
    requires events == Reports(messages)
    ensures after == Reports(messages + [msg])
  {
    var event := Parse(msg);
    after := if event.Some? then events + [event.value] else events;
    assert Parses(messages + [msg])[..|messages|] == Parses(messages);
  }

  /** One turn of the reading loop. */
  method ReadChunk(rest: string, messages: seq<string>, events: seq<Report>)
    returns (rest': string, messages': seq<string>, events': seq<Report>)
    requires Find(rest, '>') != -1 && events == Reports(messages)
    ensures rest' == rest[Find(rest, '>') + 1..]
    ensures messages' == messages + Messages(rest[..Find(rest, '>') + 1])
    ensures events' == Reports(messages')
  {
    hide Messages, Reports, Find, ChunkContent;
    var cut := Find(rest, '>');
    ChunkAlone(rest, cut);
    var msg := Clean(rest[..cut + 1]);
    rest', messages', events' := rest[cut + 1..], messages, events;
    if msg.Some? {
      events' := Emit(messages, events, msg.value);
      messages' := messages + [msg.value];
    }
  }

  /** How many messages' ends there are. */
  function Ends(s: string): nat {
    multiset(s)['>']
  }

  /** The part of a stream that so many turns of the reader take off: up to just behind that many ends, or behind
      the last one where there are fewer. */
  predicate TakenBy(stream: string, turns: nat, cut: int) {
    && 0 <= cut <= |stream| && (cut == 0 || stream[cut - 1] == '>')
    && Ends(stream[..cut]) == if turns < Ends(stream) then turns else Ends(stream)
  }

  lemma EndsSum(a: string, b: string)
    ensures Ends(a + b) == Ends(a) + Ends(b)
  {
  }

  lemma NoEnds(s: string)
    ensures Ends(s) == 0 <==> Find(s, '>') == -1
  {
    if Ends(s) == 0 {
      assert forall k :: 0 <= k < |s| ==> s[k] in multiset(s);
    }
  }

  /** Up to its first end a text has one. */
  lemma OneEnd(s: string, at: nat)
    requires Find(s, '>') == at
    ensures Ends(s[..at + 1]) == 1
  {
    assert s[..at + 1] == s[..at] + ['>'];
    NoEnds(s[..at]);
    EndsSum(s[..at], ['>']);
    assert Find(s[..at], '>') == -1;
  }

  /** One more turn takes the next chunk. */
  lemma TakeOne(stream: string, cut: nat, at: nat)
    requires cut <= |stream| && (cut == 0 || stream[cut - 1] == '>') && Find(stream[cut..], '>') == at
    ensures cut + at + 1 <= |stream| && stream[cut + at] == '>'
    ensures stream[cut..][at + 1..] == stream[cut + at + 1..]
    ensures Ends(stream[..cut + at + 1]) == Ends(stream[..cut]) + 1
    ensures Messages(stream[..cut + at + 1]) == Messages(stream[..cut]) + Messages(stream[cut..][..at + 1])
  {
    hide Messages, Ends;
    var rest := stream[cut..];
    assert rest[at] == stream[cut + at];
    OneEnd(rest, at);
    assert stream[..cut + at + 1] == stream[..cut] + rest[..at + 1];
    EndsSum(stream[..cut], rest[..at + 1]);
    MessagesSum(stream[..cut], rest[..at + 1]);
  }

  /** The reading loop over everything one connection delivers; an incomplete last message is the read
      error that ends it, or it is stopped in its turn number `turns`, by cancelling or closing. Whenever that is,
      it has yielded all the messages of the part it has taken off the stream. */
  method ReadEvents(stream: string, turns: nat) returns (messages: seq<string>, events: seq<Report>)
    ensures events == Reports(messages)
    ensures exists cut :: TakenBy(stream, turns, cut) && messages == Messages(stream[..cut])
    ensures turns >= Ends(stream) ==> messages == Messages(stream)
  {
    hide Messages, Reports, Ends, Find;
    messages, events := [], [];
    NoReports();
    NothingTaken();
    var rest, turn := stream, 0;
    ghost var cut := 0;
    while turn < turns && Find(rest, '>') != -1
      invariant 0 <= cut <= |stream| && rest == stream[cut..] && turn <= turns
      invariant (cut == 0 || stream[cut - 1] == '>') && Ends(stream[..cut]) == turn
      invariant messages == Messages(stream[..cut]) && events == Reports(messages)
      decreases |rest|
    {
      ghost var at := Find(rest, '>');
      TakeOne(stream, cut, at);
      rest, messages, events := ReadChunk(rest, messages, events);
      cut, turn := cut + at + 1, turn + 1;
    }
    StoppedAt(stream, turns, cut);
  }

  lemma StoppedAt(stream: string, turns: nat, cut: nat)
    requires cut <= |stream| && (cut == 0 || stream[cut - 1] == '>') && Ends(stream[..cut]) <= turns
    requires Ends(stream[..cut]) == turns || Find(stream[cut..], '>') == -1
    ensures TakenBy(stream, turns, cut)
    ensures turns >= Ends(stream) ==> Messages(stream[..cut]) == Messages(stream)
  {
    hide Messages, Ends;
    var head, rest := stream[..cut], stream[cut..];
    assert stream == head + rest;
    EndsSum(head, rest);
    NoEnds(rest);
    MessagesSum(head, rest);
    if turns >= Ends(stream) {
      NoCloseNoMessage(rest);
    }
  }

  lemma NothingTaken()
    ensures Messages("") == [] && Ends("") == 0
  {
  }

  lemma NoReports()
    ensures Reports([]) == []
  {
  }

  /** The reports among the messages are those of the messages that parse, each once, in order. */
  lemma {:induction false} ReportsExactly(messages: seq<string>) returns (at: seq<nat>)
    ensures Choice(at, 0, |messages|) && |Reports(messages)| == |at|
    ensures forall k :: 0 <= k < |at| ==> Parse(messages[at[k]]) == Some(Reports(messages)[k])
    ensures forall j :: 0 <= j < |messages| ==> (j in at <==> Parse(messages[j]).Some?)
  {
    hide Parse;
    at := [];
    if messages != [] {
      var n := |messages| - 1;
      at := ReportsExactly(messages[..n]);
      assert Parses(messages)[..n] == Parses(messages[..n]);
      assert forall k :: 0 <= k < |at| ==> messages[..n][at[k]] == messages[at[k]];
      assert forall j :: 0 <= j < n ==> messages[..n][j] == messages[j];
      if Parse(messages[n]).Some? {
        at := at + [n];
      }
    }
  }

  // ---------------------------------------------------------------- framing is exact

  /** Something before a message, and the message's body. */
  datatype Part = Part(junk: string, body: string)

  function StreamOf(parts: seq<Part>, tail: string): string {
    if parts == [] then tail
    else parts[0].junk + ("<" + parts[0].body + ">" + StreamOf(parts[1..], tail))
  }

  function Framed(parts: seq<Part>): seq<string> {
    seq(|parts|, k requires 0 <= k < |parts| => "<" + parts[k].body + ">")
  }

  lemma FramedSplit(parts: seq<Part>)
    requires parts != []
    ensures Framed(parts) == ["<" + parts[0].body + ">"] + Framed(parts[1..])
  {
  }

  /** Whatever stands between the messages, the reader yields exactly the messages, once each, in order:
      junk may hold anything but `<`, bodies anything but `>`. */
  lemma {:induction false} FramingExact(parts: seq<Part>, tail: string)
    requires forall k :: 0 <= k < |parts| ==>
               FreeOf(parts[k].junk, Only('<')) && FreeOf(parts[k].body, Only('>'))
    ensures Messages(StreamOf(parts, tail)) == Framed(parts) + Messages(tail)
  {
    hide Messages;
    if parts != [] {
      var first, more := parts[0], parts[1..];
      FramingExact(more, tail);
      FirstMessage(first.junk, first.body, StreamOf(more, tail));
      FramedSplit(parts);
    }
  }

  /** A tail that closes no message it opens yields nothing. */
  lemma IncompleteTail(junk: string, started: string)
    requires FreeOf(junk, Only('<')) && FreeOf(started, Only('>'))
    ensures Messages(junk + started) == []
  {
    SkipJunk(junk, started);
    NoCloseNoMessage(started);
  }

  /** A report line as the builder prints it, after some junk; its value is quoted, or bare. */
  datatype Sent = Sent(junk: string, kind: string, index: Option<int>, key: string, value: string, quoted: bool) {
    predicate Clean() {
      && FreeOf(junk, Only('<')) && Printable(kind, index)
      && FreeOf(key, Only('>')) && FreeOf(value, Only('>'))
      && if quoted then ReadsBack(kind, index, key, value)
         else Bare(value) && TokenReadsBack(kind, index, key, value)
    }

    function Body(): string {
      if quoted then BodyText(kind, index, key, value) else TokenBody(kind, index, key, value)
    }

    function AsPart(): Part {
      Part(junk, " " + Body() + " ")
    }

    function Line(): string {
      if quoted then ReportLine(kind, index, key, value) else TokenLine(kind, index, key, value)
    }

    function Report(): Report {
      if quoted then Meant(kind, index, key, value) else TokenMeant(kind, index, key, value)
    }
  }

  lemma SentBody(m: Sent)
    requires m.Clean()
    ensures FreeOf(m.AsPart().body, Only('>'))
    ensures "<" + m.AsPart().body + ">" == m.Line()
  {
    hide ReadsBack, TokenReadsBack, Bare, HeadText;
    var head := HeadText(m.kind, m.index);
    HeadFree(m.kind, m.index);
    FreeOfSum(head, m.key, '>');
    FreeOfSum(head + m.key, if m.quoted then " {" + m.value + "}" else " " + m.value, '>');
    FreeOfSum(" ", m.Body(), '>');
    FreeOfSum(" " + m.Body(), " ", '>');
    FrameApart(m.Body());
  }

  lemma FrameApart(body: string)
    ensures "<" + (" " + body + " ") + ">" == "< " + body + " >"
  {
  }

  lemma FreeOfSum(a: string, b: string, c: char)
    requires FreeOf(a, Only(c)) && FreeOf(b, Only(c))
    ensures FreeOf(a + b, Only(c))
  {
  }

  lemma HeadFree(kind: string, index: Option<int>)
    requires kind in KINDS
    ensures FreeOf(HeadText(kind, index), Only('>'))
  {
    if index.Some? {
      ItoaChars(index.value);
    }
  }

  /** From the builder's lines, with junk in between, through the reader and the parser: the reports
      meant, all of them, in order, and no other. */
  lemma ReportsDelivered(sent: seq<Sent>, tail: string)
    requires forall k :: 0 <= k < |sent| ==> sent[k].Clean()
    requires Messages(tail) == []
    ensures Reports(Messages(StreamOf(seq(|sent|, k requires 0 <= k < |sent| => sent[k].AsPart()), tail)))
         == seq(|sent|, k requires 0 <= k < |sent| => sent[k].Report())
  {
    hide Messages, StreamOf, Present, Parse, ReadsBack, TokenReadsBack, Bare;
    var parts := seq(|sent|, k requires 0 <= k < |sent| => sent[k].AsPart());
    var meant := seq(|sent|, k requires 0 <= k < |sent| => sent[k].Report());
    forall k | 0 <= k < |sent|
      ensures FreeOf(parts[k].junk, Only('<')) && FreeOf(parts[k].body, Only('>'))
      ensures Parse(Framed(parts)[k]) == Some(meant[k])
    {
      SentBody(sent[k]);
      if sent[k].quoted {
        ParseInvertsPrint(sent[k].kind, sent[k].index, sent[k].key, sent[k].value);
      } else {
        ParseInvertsToken(sent[k].kind, sent[k].index, sent[k].key, sent[k].value);
      }
    }
    FramingExact(parts, tail);
    assert Framed(parts) + [] == Framed(parts);
    AllPresent(Parses(Framed(parts)), meant);
  }

  lemma {:induction false} AllPresent<T>(options: seq<Option<T>>, values: seq<T>)
    requires |options| == |values| && forall k :: 0 <= k < |values| ==> options[k] == Some(values[k])
    ensures Present(options) == values
  {
    if values != [] {
      var n := |values| - 1;
      AllPresent(options[..n], values[..n]);
      assert values == values[..n] + [values[n]];
    }
  }
}
