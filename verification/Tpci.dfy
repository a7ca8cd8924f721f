/** The TPCI text protocol: the command builder that prints `< COMMAND [INDEX] PARAMETER VALUE >`
    and the parser that reads reports back, with the exact condition under which they are inverse. */
module Tpci {
  import opened Text

  // ---------------------------------------------------------------- printing

  /** A parameter value as the builder distinguishes them; `Preformatted` stands for the string-valued
      protocol enumerations, printed as they are, and for values of types it does not know, by the text the
      default format gives them. */
  datatype Value =
    | Absent
    | Quoted(text: string)
    | Number(number: int)
    | Switch(on: bool)
    | Gain(level: int)
    | Preformatted(token: string)

  /** `%03d` of an integer. */
  function PadThree(i: int): string {
    var sign := if i < 0 then "-" else "";
    var digits := Digits(if i < 0 then -i else i);
    var width := |sign| + |digits|;
    if width >= 3 then sign + digits
    else if width == 2 then sign + "0" + digits
    else sign + "00" + digits
  }

  function ValueText(v: Value): string
    requires !v.Absent?
  {
    match v
    case Quoted(text) => "{" + text + "}"
    case Number(i) => Itoa(i)
    case Switch(on) => if on then "ON" else "OFF"
    case Gain(level) => PadThree(level)
    case Preformatted(token) => token
  }

  function ParamText(key: string, v: Value): string {
    (if v.Absent? then key else key + " " + ValueText(v)) + " "
  }

  function HeadText(command: string, index: Option<int>): string {
    command + " " + (if index.Some? then Itoa(index.value) + " " else "")
  }

  function ParamsText(params: map<string, Value>, order: seq<string>): string
    requires forall k :: k in order ==> k in params
  {
    if order == [] then ""
    else ParamsText(params, order[..|order| - 1]) + ParamText(order[|order| - 1], params[order[|order| - 1]])
  }

  /** `order` lists every key of `params` once. */
  ghost predicate Lists(order: seq<string>, keys: set<string>) {
    (forall k :: k in order <==> k in keys) && |order| == |keys|
  }

  lemma ListOneMore(params: map<string, Value>, order: seq<string>, keys: set<string>, key: string,
                    head: string)
    requires Lists(order, keys) && keys <= params.Keys && key in params.Keys - keys
    ensures Lists(order + [key], keys + {key})
    ensures head + ParamsText(params, order) + ParamText(key, params[key]) == head + ParamsText(params, order + [key])
  {
    assert (order + [key])[..|order|] == order;
  }

  /** The command builder. Its parameters live in a dictionary, so their order is not fixed. */
  class ShureCommandBuilder {
    var command: string
    var index: Option<int>
    var params: map<string, Value>

    constructor (command: string)
      ensures this.command == ToUpper(command) && index == None && params == map[]
    {
      this.command := ToUpper(command);
      index := None;
      params := map[];
    }

    method WithIndex(index: int)
      modifies this`index
      ensures this.index == Some(index)
    {
      this.index := Some(index);
    }

    method WithParam(key: string, value: Value)
      modifies this`params
      ensures params == old(params)[ToUpper(key) := value]
    {
      params := params[ToUpper(key) := value];
    }

    /** The part of the line before the parameters. */
    method BuildHead() returns (line: string)
      ensures line == "< " + HeadText(command, index)
    {
      hide Itoa;
      line := "< " + command + " ";
      if index.Some? {
        line := line + Itoa(index.value) + " ";
      }
    }

    /** The command line, with the parameters in some order. */
    method Build() returns (line: string)
      ensures exists order :: Lists(order, params.Keys) &&
                              line == "< " + HeadText(command, index) + ParamsText(params, order) + ">"
    {
      line := BuildHead();
      ghost var head := line;
      var left := params.Keys;
      ghost var done := {};
      ghost var order := [];
      while left != {}
        invariant done + left == params.Keys && done !! left
        invariant Lists(order, done) && line == head + ParamsText(params, order)
        decreases left
      {
        var key :| key in left;
        line := line + ParamText(key, params[key]);
        ListOneMore(params, order, done, key, head);
        order, done, left := order + [key], done + {key}, left - {key};
      }
      line := line + ">";
    }
  }

  /** The line without its frame. */
  function BodyText(kind: string, index: Option<int>, key: string, value: string): string {
    HeadText(kind, index) + key + (" {" + value + "}")
  }

  /** The report line a builder with one quoted parameter prints. */
  function ReportLine(kind: string, index: Option<int>, key: string, value: string): string {
    "< " + BodyText(kind, index, key, value) + " >"
  }

  lemma OneEntry(order: seq<string>, key: string)
    requires Lists(order, {key})
    ensures order == [key]
  {
    assert order[0] in order;
  }

  /** With one parameter there is one order, so what Build promises is that line. */
  lemma SingleParameterLine(kind: string, index: Option<int>, key: string, value: string, order: seq<string>)
    requires Lists(order, {key})
    ensures "< " + HeadText(kind, index) + ParamsText(map[key := Quoted(value)], order) + ">"
         == ReportLine(kind, index, key, value)
  {
    hide HeadText;
    OneEntry(order, key);
    assert order[..0] == [];
    assert ParamsText(map[key := Quoted(value)], order) == "" + (key + " " + ("{" + value + "}") + " ");
    RejoinQuoted("< " + HeadText(kind, index), key, value);
  }

  lemma RejoinQuoted(head: string, key: string, value: string)
    ensures head + ("" + (key + " " + ("{" + value + "}") + " ")) + ">" == head + key + (" {" + value + "}") + " >"
  {
    assert " " + ("{" + value + "}") == " {" + value + "}";
  }

  // ---------------------------------------------------------------- parsing

  datatype Report = Report(kind: string, channel: int, param: string, value: string, raw: string)

  const KINDS: set<string> := {"REP", "SAMPLE"}

  /** What the text after the parameter name means: braces and padding go when both braces are there. */
  function ValueOf(text: string): string {
    var v := Trim(text, Space);
    if HasPrefix(v, "{") && HasSuffix(v, "}") then Trim(Trim(v, Brace), Space) else v
  }

  function Parse(response: string): Option<Report> {
    var trimmed := Trim(response, Frame);
    var parts := Fields(trimmed);
    assert forall w :: w in parts ==> Index(trimmed, w) >= 0 by {
      forall w | w in parts ensures Index(trimmed, w) >= 0 { FieldFound(trimmed, w); }
    }
    ParseParts(trimmed, parts, response)
  }

  function ParseParts(trimmed: string, parts: seq<string>, response: string): Option<Report>
    requires forall w :: w in parts ==> Index(trimmed, w) >= 0
  {
    if |parts| < 2 then None
    else if parts[0] !in KINDS then None
    else
      var number := Atoi(parts[1]);
      var channel := if number.Some? then number.value else 0;
      var at := if number.Some? then 2 else 1;
      if at >= |parts| then Some(Report(parts[0], channel, "", "", response))
      else
        var param := parts[at];
        Some(Report(parts[0], channel, param, ValueOf(trimmed[Index(trimmed, param) + |param|..]), response))
  }

  // ---------------------------------------------------------------- the parser inverts the printer

  /** What the caller of the builder has to check of the parameter for its line to read back. */
  predicate KeyReadsBack(kind: string, index: Option<int>, key: string) {
    && IsWord(key)
    && !Occurs(kind, key)
    && (index.Some? ==> !Occurs(Itoa(index.value), key))
    && (index.None? ==> Atoi(key).None?)
  }

  /** And of the parameter and a quoted value. */
  predicate ReadsBack(kind: string, index: Option<int>, key: string, value: string) {
    KeyReadsBack(kind, index, key) && BareEnds(value, SpaceOrBrace)
  }

  function Meant(kind: string, index: Option<int>, key: string, value: string): Report {
    Report(kind, if index.Some? then index.value else 0, key, value, ReportLine(kind, index, key, value))
  }

  predicate Printable(kind: string, index: Option<int>) {
    kind in KINDS && (index.Some? ==> MIN_INT <= index.value <= MAX_INT)
  }

  /** The words before the parameter. */
  function HeadWords(kind: string, index: Option<int>): seq<string> {
    if index.Some? then [kind, Itoa(index.value)] else [kind]
  }

  /** The frame characters go and nothing else does. */
  lemma TrimmedLine(kind: string, index: Option<int>, key: string, value: string)
    requires Printable(kind, index)
    ensures Trim(ReportLine(kind, index, key, value), Frame) == BodyText(kind, index, key, value)
  {
    var core := BodyText(kind, index, key, value);
    BodyEnds(HeadText(kind, index), key, value);
    HeadStart(kind, index);
    TrimExact("< ", core, " >", Frame);
  }

  lemma HeadStart(kind: string, index: Option<int>)
    requires kind in KINDS
    ensures HeadText(kind, index) != "" && !Frame.Has(HeadText(kind, index)[0])
  {
    assert HeadText(kind, index)[0] == kind[0];
  }

  lemma BodyEnds(head: string, key: string, value: string)
    requires head != ""
    ensures var body := head + key + (" {" + value + "}");
            body != "" && body[0] == head[0] && body[|body| - 1] == '}'
  {
  }

  lemma FieldsOfTwo(first: string, second: string, rest: string)
    requires IsWord(first) && IsWord(second)
    ensures Fields(first + " " + (second + " " + rest)) == [first, second] + Fields(rest)
  {
    FieldsCons(second, rest);
    FieldsCons(first, second + " " + rest);
    assert [first] + ([second] + Fields(rest)) == [first, second] + Fields(rest);
  }

  lemma HeadTextShape(kind: string, index: Option<int>, rest: string)
    ensures HeadText(kind, index) + rest ==
            if index.Some? then kind + " " + (Itoa(index.value) + " " + rest) else kind + " " + rest
  {
  }

  lemma HeadFields(kind: string, index: Option<int>, rest: string)
    requires Printable(kind, index)
    ensures Fields(HeadText(kind, index) + rest) == HeadWords(kind, index) + Fields(rest)
  {
    HeadTextShape(kind, index, rest);
    if index.Some? {
      ItoaChars(index.value);
      FieldsOfTwo(kind, Itoa(index.value), rest);
    } else {
      FieldsCons(kind, rest);
    }
  }

  /** The first word of text that starts with a visible character starts with it too. */
  lemma FirstFieldStart(s: string)
    requires s != "" && !Space.Has(s[0])
    ensures |Fields(s)| > 0 && Fields(s)[0] != "" && Fields(s)[0][0] == s[0]
  {
    assert TrimLeft(s, Space) == s;
  }

  lemma BracedFieldStart(value: string)
    ensures |Fields("{" + value + "}")| > 0 && Fields("{" + value + "}")[0] != "" &&
            Fields("{" + value + "}")[0][0] == '{'
  {
    FirstFieldStart("{" + value + "}");
  }

  /** Taking the braces off gives the value back exactly when its ends are neither space nor brace. */
  lemma ValueOfBraced(v: string)
    ensures ValueOf(" {" + v + "}") == v <==> BareEnds(v, SpaceOrBrace)
  {
    hide TrimLeft, TrimRight, Trim;
    var braced := "{" + v + "}";
    TrimExact(" ", braced, "", Space);
    assert " " + braced + "" == " {" + v + "}";
    assert HasSuffix(braced, "}");
    var inner := Trim(braced, Brace);
    assert ValueOf(" {" + v + "}") == Trim(inner, Space);
    BracesGo(v);
    if BareEnds(v, SpaceOrBrace) {
      if v != "" {
        TrimExact("{", v, "}", Brace);
      }
      TrimBare(v, Space);
    }
    if Trim(inner, Space) == v {
      UntrimmedIsBare(inner, v);
    }
  }

  /** Trimming spaces off text with brace-free ends to no shorter text leaves fully bare ends. */
  lemma UntrimmedIsBare(inner: string, v: string)
    requires BareEnds(inner, Brace) && |inner| <= |v| && Trim(inner, Space) == v
    ensures BareEnds(v, SpaceOrBrace)
  {
    TrimBare(inner, Space);
    assert inner == v;
  }

  lemma BracesGo(v: string)
    ensures |Trim("{" + v + "}", Brace)| <= |v|
  {
    var braced := "{" + v + "}";
    var left := TrimLeft(braced, Brace);
    TrimLeftSuffix(braced, Brace);
    assert braced[1..] == v + "}";
    assert left == TrimLeft(v + "}", Brace);
    assert |left| <= |v| + 1;
    if left != "" {
      assert left[|left| - 1] == braced[|braced| - 1] == '}';
      assert |TrimRight(left, Brace)| < |left|;
    }
  }

  /** When the parameter is found too early the value keeps the text in between, so it is too long. */
  lemma EarlyValueTooLong(before: string, key: string, tail: string)
    requires IsWord(key) && FreeOf(before + key, Only('{')) && tail != "" && !Space.Has(tail[|tail| - 1])
    ensures |ValueOf(before + key + tail)| > |tail|
  {
    var y := before + key;
    assert y[|before|] == key[0];
    TrimLeftPrefix(y, tail, Space);
    TrimLeftSuffix(y, Space);
    var kept := TrimLeft(y, Space) + tail;
    assert kept[|kept| - 1] == tail[|tail| - 1];
    TrimRightStops(kept, "", Space);
    assert kept + "" == kept;
    assert kept[0] in y;
    assert Trim(y + tail, Space) == kept;
  }

  /** Where the value starts decides whether it is read as printed. */
  lemma ValueAfterHead(head: string, key: string, tail: string, value: string, text: string)
    requires IsWord(key) && head != "" && Space.Has(head[|head| - 1]) && FreeOf(head, Only('{'))
    requires tail != "" && tail[0] == ' ' && !Space.Has(tail[|tail| - 1]) && |value| <= |tail|
    requires text == head + key + tail
    ensures Index(text, key) >= 0 &&
            (ValueOf(text[Index(text, key) + |key|..]) == value <==> !Occurs(head, key) && ValueOf(tail) == value)
  {
    hide ValueOf, Index, Occurs;
    WordAfterHead(head, key, tail);
    var at := Index(text, key);
    RestAfter(head, key, tail, text, at);
    if Occurs(head, key) {
      var before := head[at + |key|..];
      assert FreeOf(key, Only('{')) by {
        assert key == head[at..at + |key|];
      }
      EarlyValueTooLong(before, key, tail);
    }
  }

  lemma RestAfter(head: string, key: string, tail: string, text: string, at: nat)
    requires text == head + key + tail && at <= |head| && OccursAt(text, key, at)
    requires at < |head| ==> at + |key| < |head|
    ensures at == |head| ==> text[at + |key|..] == tail
    ensures at < |head| ==> key == head[at..at + |key|] && text[at + |key|..] == head[at + |key|..] + key + tail
  {
  }

  lemma HeadHolds(kind: string, index: Option<int>, key: string)
    requires kind in KINDS && IsWord(key)
    ensures var head := HeadText(kind, index);
            head != "" && Space.Has(head[|head| - 1]) && FreeOf(head, Only('{')) &&
            (Occurs(head, key) <==> Occurs(kind, key) || (index.Some? && Occurs(Itoa(index.value), key)))
  {
    if index.Some? {
      var text := Itoa(index.value);
      ItoaChars(index.value);
      BlankEnd(text, key);
      WordInSides(kind, text + " ", key);
      assert HeadText(kind, index) == kind + " " + (text + " ");
    } else {
      BlankEnd(kind, key);
      assert HeadText(kind, index) == kind + " ";
    }
  }

  /** A blank at the end adds no occurrence of a word. */
  lemma BlankEnd(text: string, w: string)
    requires IsWord(w)
    ensures Occurs(text + " ", w) <==> Occurs(text, w)
  {
    WordNotInEmpty(w);
    WordInSides(text, "", w);
    assert text + " " + "" == text + " ";
  }

  lemma WordNotInEmpty(w: string)
    requires IsWord(w)
    ensures !Occurs("", w)
  {
  }

  /** Parsing works on the words of the text inside the frame. */
  lemma ParseOfText(line: string, text: string)
    requires Trim(line, Frame) == text
    ensures (forall w :: w in Fields(text) ==> IsWord(w) && Index(text, w) >= 0) &&
            Parse(line) == ParseParts(text, Fields(text), line)
  {
    forall w | w in Fields(text)
      ensures IsWord(w) && Index(text, w) >= 0
    {
      FieldFound(text, w);
      FieldIsWord(text, w);
    }
  }

  /** The words of a printed report whose parameter is one word. */
  lemma ReportFields(kind: string, index: Option<int>, key: string, value: string)
    requires Printable(kind, index) && IsWord(key)
    ensures Fields(BodyText(kind, index, key, value)) == HeadWords(kind, index) + ([key] + Fields("{" + value + "}"))
  {
    var braced := "{" + value + "}";
    var rest := key + " " + braced;
    assert BodyText(kind, index, key, value) == HeadText(kind, index) + rest;
    HeadFields(kind, index, rest);
    FieldsCons(key, braced);
  }

  /** Reading words that are the head, a parameter, and more. */
  lemma PartsWithParameter(kind: string, index: Option<int>, text: string, parts: seq<string>, response: string)
    requires Printable(kind, index) && HeadWords(kind, index) <= parts && |parts| > |HeadWords(kind, index)|
    requires forall w :: w in parts ==> Index(text, w) >= 0
    requires index.None? ==> Atoi(parts[1]).None?
    ensures var param := parts[|HeadWords(kind, index)|];
            ParseParts(text, parts, response) ==
            Some(Report(kind, if index.Some? then index.value else 0, param,
                        ValueOf(text[Index(text, param) + |param|..]), response))
  {
    hide Atoi, Itoa, Index, ValueOf;
    assert parts[0] == HeadWords(kind, index)[0];
    if index.Some? {
      AtoiItoa(index.value);
      assert parts[1] == HeadWords(kind, index)[1];
    }
  }

  /** Parsing a line, given its text and the words of the text. */
  lemma ParseByWords(kind: string, index: Option<int>, line: string, text: string, words: seq<string>)
    requires Printable(kind, index) && Trim(line, Frame) == text && Fields(text) == words
    requires HeadWords(kind, index) <= words && |words| > |HeadWords(kind, index)|
    requires index.None? ==> Atoi(words[1]).None?
    ensures var param := words[|HeadWords(kind, index)|];
            Index(text, param) >= 0 &&
            Parse(line) ==
            Some(Report(kind, if index.Some? then index.value else 0, param,
                        ValueOf(text[Index(text, param) + |param|..]), line))
  {
    hide ValueOf, Index, Fields, Trim;
    ParseOfText(line, text);
    PartsWithParameter(kind, index, text, words, line);
  }

  /** A word that is no misplaced number is read as the parameter; its value decides the rest. */
  lemma WordKeyReadFrom(kind: string, index: Option<int>, key: string, value: string,
                        line: string, text: string, words: seq<string>, valueRead: bool)
    requires Printable(kind, index) && (index.None? ==> Atoi(key).None?)
    requires Trim(line, Frame) == text && Fields(text) == words && HeadWords(kind, index) + [key] <= words
    requires Index(text, key) >= 0 && (ValueOf(text[Index(text, key) + |key|..]) == value <==> valueRead)
    ensures Parse(line) == Some(Report(kind, if index.Some? then index.value else 0, key, value, line)) <==> valueRead
  {
    hide Parse, ValueOf, Trim, Fields, Index;
    assert words[|HeadWords(kind, index)|] == (HeadWords(kind, index) + [key])[|HeadWords(kind, index)|] == key;
    ParseByWords(kind, index, line, text, words);
  }

  lemma WordKeyRead(kind: string, index: Option<int>, key: string, value: string)
    requires Printable(kind, index) && IsWord(key) && (index.None? ==> Atoi(key).None?)
    ensures Parse(ReportLine(kind, index, key, value)) == Some(Meant(kind, index, key, value))
       <==> ReadsBack(kind, index, key, value)
  {
    hide Parse, ValueOf, Trim, Fields, Index, HeadText;
    var text := BodyText(kind, index, key, value);
    TrimmedLine(kind, index, key, value);
    ReportFields(kind, index, key, value);
    HeadHolds(kind, index, key);
    ValueAfterHead(HeadText(kind, index), key, " {" + value + "}", value, text);
    ValueOfBraced(value);
    WordKeyReadFrom(kind, index, key, value, ReportLine(kind, index, key, value), text, Fields(text),
                    !Occurs(HeadText(kind, index), key) && BareEnds(value, SpaceOrBrace));
  }

  /** A number where the index would be is read as the channel. */
  lemma NumericKeyMisread(kind: string, key: string, value: string)
    requires kind in KINDS && IsWord(key) && Atoi(key).Some?
    ensures Parse(ReportLine(kind, None, key, value)) != Some(Meant(kind, None, key, value))
  {
    TrimmedLine(kind, None, key, value);
    ReportFields(kind, None, key, value);
    BracedFieldStart(value);
    NumberTakenAsChannel(ReportLine(kind, None, key, value), BodyText(kind, None, key, value), kind, key,
                         Fields("{" + value + "}"));
  }

  lemma NumberTakenAsChannel(line: string, text: string, kind: string, number: string, rest: seq<string>)
    requires kind in KINDS && Atoi(number).Some? && rest != [] && rest[0] != "" && rest[0][0] == '{'
    requires Trim(line, Frame) == text && Fields(text) == HeadWords(kind, None) + ([number] + rest)
    ensures Parse(line).Some? && Parse(line).value.param != number
  {
    hide ValueOf, Index, Fields, Trim;
    BraceIsNoNumber(rest[0]);
    ParseOfText(line, text);
    var words := HeadWords(kind, None) + ([number] + rest);
    assert words[0] == kind && words[1] == number && words[2] == rest[0];
  }

  lemma BraceIsNoNumber(w: string)
    requires w != "" && w[0] == '{'
    ensures Atoi(w).None?
  {
  }

  lemma EmptyKeyFields(kind: string, index: Option<int>, value: string)
    requires Printable(kind, index)
    ensures Fields(BodyText(kind, index, "", value)) == HeadWords(kind, index) + Fields("{" + value + "}")
  {
    var braced := "{" + value + "}";
    assert BodyText(kind, index, "", value) == HeadText(kind, index) + ([' '] + braced);
    HeadFields(kind, index, [' '] + braced);
    FieldsSkipSpace(' ', braced);
  }

  /** An empty parameter vanishes between its spaces. */
  lemma EmptyKeyMisread(kind: string, index: Option<int>, value: string)
    requires Printable(kind, index)
    ensures Parse(ReportLine(kind, index, "", value)) != Some(Meant(kind, index, "", value))
  {
    TrimmedLine(kind, index, "", value);
    EmptyKeyFields(kind, index, value);
    BracedFieldStart(value);
    EmptyKeyMisreadFrom(kind, index, ReportLine(kind, index, "", value), BodyText(kind, index, "", value),
                        Fields("{" + value + "}"));
  }

  lemma EmptyKeyMisreadFrom(kind: string, index: Option<int>, line: string, text: string, rest: seq<string>)
    requires Printable(kind, index) && rest != [] && rest[0] != "" && rest[0][0] == '{'
    requires Trim(line, Frame) == text && Fields(text) == HeadWords(kind, index) + rest
    ensures Parse(line).Some? && Parse(line).value.param != ""
  {
    BraceIsNoNumber(rest[0]);
    var words := HeadWords(kind, index) + rest;
    assert words[|HeadWords(kind, index)|] == rest[0];
    ParseByWords(kind, index, line, text, words);
  }

  /** A parameter with a space in it is cut. */
  lemma SpacedKeyMisread(kind: string, index: Option<int>, key: string, value: string)
    requires Printable(kind, index) && !FreeOf(key, Space)
    ensures Parse(ReportLine(kind, index, key, value)) != Some(Meant(kind, index, key, value))
  {
    ParseOfText(ReportLine(kind, index, key, value), Trim(ReportLine(kind, index, key, value), Frame));
  }

  /** A one-parameter report with a quoted value reads back as it was meant if and only if the
      parameter is one word that occurs in neither the kind nor the index, is no number when there is
      no index, and the value starts and ends with neither a space nor a brace. */
  lemma ParseInvertsPrint(kind: string, index: Option<int>, key: string, value: string)
    requires Printable(kind, index)
    ensures Parse(ReportLine(kind, index, key, value)) == Some(Meant(kind, index, key, value))
       <==> ReadsBack(kind, index, key, value)
  {
    if key == "" {
      EmptyKeyMisread(kind, index, value);
    } else if !FreeOf(key, Space) {
      SpacedKeyMisread(kind, index, key, value);
    } else if index.None? && Atoi(key).Some? {
      NumericKeyMisread(kind, key, value);
    } else {
      WordKeyRead(kind, index, key, value);
    }
  }

  // ---------------------------------------------------------------- values printed without braces

  /** What a value printed as it is has to be to be read at all: one or more words, without blanks at the ends, and
      without a frame character at the end, not in braces. */
  predicate Bare(text: string) {
    && text != "" && BareEnds(text, Space) && !Frame.Has(text[|text| - 1])
    && !(HasPrefix(text, "{") && HasSuffix(text, "}"))
  }

  /** Numbers, switches and gains always are, in one word, and they say what they should: numbers and gains read
      back, gains take three characters or more and no more than needed, switches are these two words. */
  lemma PrintedAreTokens(v: Value)
    requires v.Number? || v.Switch? || v.Gain?
    ensures Bare(ValueText(v)) && IsWord(ValueText(v))
    ensures v.Number? && MIN_INT <= v.number <= MAX_INT ==> Atoi(ValueText(v)) == Some(v.number)
    ensures v.Gain? && MIN_INT <= v.level <= MAX_INT ==> Atoi(ValueText(v)) == Some(v.level)
    ensures v.Gain? ==> |ValueText(v)| == if |Itoa(v.level)| < 3 then 3 else |Itoa(v.level)|
    ensures v.Switch? ==> ValueText(v) == if v.on then "ON" else "OFF"
  {
    match v
    case Number(i) =>
      ItoaChars(i);
      if MIN_INT <= i <= MAX_INT {
        AtoiItoa(i);
      }
    case Gain(level) =>
      GainChars(level);
      GainReadsBack(level);
    case Switch(_) =>
  }

  lemma GainChars(level: int)
    ensures Within(PadThree(level), Numeric) && PadThree(level) != ""
  {
    hide Digits;
    assert Within(Digits(if level < 0 then -level else level), Digit);
  }

  lemma ZeroFirst(s: string)
    requires Within(s, Digit)
    ensures Within("0" + s, Digit) && DigitsValue("0" + s) == DigitsValue(s)
  {
    if s == "" {
      assert "0" + s == "0" && "0"[..0] == "";
    } else {
      var n := |s| - 1;
      assert ("0" + s)[..|s|] == "0" + s[..n];
      ZeroFirst(s[..n]);
    }
  }

  lemma GainReadsBack(level: int)
    ensures |PadThree(level)| == if |Itoa(level)| < 3 then 3 else |Itoa(level)|
    ensures MIN_INT <= level <= MAX_INT ==> Atoi(PadThree(level)) == Some(level)
  {
    hide Digits, DigitsValue;
    var n := if level < 0 then -level else level;
    var digits, sign := Digits(n), if level < 0 then "-" else "";
    DigitsValueOfDigits(n);
    ZeroFirst(digits);
    ZeroFirst("0" + digits);
    var body := if |sign| + |digits| >= 3 then digits
                else if |sign| + |digits| == 2 then "0" + digits else "00" + digits;
    assert "00" + digits == "0" + ("0" + digits);
    assert PadThree(level) == sign + body;
    assert Digit.Has(body[0]);
    if level < 0 {
      assert (sign + body)[0] == '-' && (sign + body)[1..] == body;
    } else {
      assert sign + body == body;
    }
  }

  function TokenBody(kind: string, index: Option<int>, key: string, token: string): string {
    HeadText(kind, index) + key + (" " + token)
  }

  function TokenLine(kind: string, index: Option<int>, key: string, token: string): string {
    "< " + TokenBody(kind, index, key, token) + " >"
  }

  /** The line a builder with one such parameter prints. */
  lemma SingleTokenLine(kind: string, index: Option<int>, key: string, v: Value, order: seq<string>)
    requires Lists(order, {key}) && !v.Absent?
    ensures "< " + HeadText(kind, index) + ParamsText(map[key := v], order) + ">"
         == TokenLine(kind, index, key, ValueText(v))
  {
    hide HeadText, ValueText;
    OneEntry(order, key);
    assert order[..0] == [];
    assert ParamsText(map[key := v], order) == "" + ParamText(key, v);
    Rejoin("< " + HeadText(kind, index), key, ValueText(v));
  }

  lemma Rejoin(head: string, key: string, text: string)
    ensures head + ("" + (key + " " + text + " ")) + ">" == head + key + (" " + text) + " >"
  {
  }

  function TokenMeant(kind: string, index: Option<int>, key: string, token: string): Report {
    Report(kind, if index.Some? then index.value else 0, key, token, TokenLine(kind, index, key, token))
  }

  /** The parameter has to be as for quoted values; besides, without an index a zero that the value starts with
      reads back by accident. */
  predicate TokenReadsBack(kind: string, index: Option<int>, key: string, token: string) {
    || KeyReadsBack(kind, index, key)
    || (index.None? && Atoi(key) == Some(0) && key == FirstWord(token))
  }

  function FirstWord(text: string): string {
    if Fields(text) == [] then "" else Fields(text)[0]
  }

  lemma TokenText(kind: string, index: Option<int>, key: string, token: string)
    requires Printable(kind, index) && Bare(token)
    ensures Trim(TokenLine(kind, index, key, token), Frame) == TokenBody(kind, index, key, token)
  {
    var core := TokenBody(kind, index, key, token);
    HeadStart(kind, index);
    assert core[0] == HeadText(kind, index)[0] && core[|core| - 1] == token[|token| - 1];
    TrimExact("< ", core, " >", Frame);
  }

  lemma BareHasWords(text: string)
    requires Bare(text)
    ensures Fields(text) != [] && forall w :: w in Fields(text) ==> w != ""
  {
    assert TrimLeft(text, Space) == text;
    forall w | w in Fields(text)
      ensures w != ""
    {
      FieldIsWord(text, w);
    }
  }

  lemma TokenValue(token: string)
    requires Bare(token)
    ensures ValueOf(" " + token) == token
  {
    TrimExact(" ", token, "", Space);
    assert " " + token + "" == " " + token;
  }

  lemma TokenWordKey(kind: string, index: Option<int>, key: string, token: string)
    requires Printable(kind, index) && Bare(token) && IsWord(key) && (index.None? ==> Atoi(key).None?)
    ensures Parse(TokenLine(kind, index, key, token)) == Some(TokenMeant(kind, index, key, token))
       <==> KeyReadsBack(kind, index, key)
  {
    hide Parse, ValueOf, Trim, Fields, Index, HeadText, Atoi, Itoa;
    var text, line := TokenBody(kind, index, key, token), TokenLine(kind, index, key, token);
    TokenText(kind, index, key, token);
    WordsOfToken(kind, index, key, token);
    HeadHolds(kind, index, key);
    ValueAfterHead(HeadText(kind, index), key, " " + token, token, text);
    TokenValue(token);
    WordKeyReadFrom(kind, index, key, token, line, text, Fields(text), !Occurs(HeadText(kind, index), key));
  }

  lemma WordsOfToken(kind: string, index: Option<int>, key: string, token: string)
    requires Printable(kind, index) && IsWord(key)
    ensures Fields(TokenBody(kind, index, key, token)) == HeadWords(kind, index) + ([key] + Fields(token))
  {
    assert TokenBody(kind, index, key, token) == HeadText(kind, index) + (key + " " + token);
    HeadFields(kind, index, key + " " + token);
    FieldsCons(key, token);
  }

  /** A number where the index would be is taken for the channel, and the value for the parameter. */
  lemma TokenNumericKey(kind: string, key: string, token: string)
    requires kind in KINDS && Bare(token) && IsWord(key) && Atoi(key).Some?
    ensures Parse(TokenLine(kind, None, key, token)) == Some(TokenMeant(kind, None, key, token))
       <==> Atoi(key) == Some(0) && key == FirstWord(token)
  {
    hide ValueOf, Trim, Fields, Index, HeadText, Occurs, Atoi;
    var text, line := TokenBody(kind, None, key, token), TokenLine(kind, None, key, token);
    TokenText(kind, None, key, token);
    WordsOfToken(kind, None, key, token);
    ParseOfText(line, text);
    BareHasWords(token);
    var words := HeadWords(kind, None) + ([key] + Fields(token));
    assert words[0] == kind && words[1] == key && words[2] == FirstWord(token);
    HeadHolds(kind, None, key);
    NumberNotInKind(kind, key);
    ValueAfterHead(HeadText(kind, None), key, " " + token, token, text);
    TokenValue(token);
  }

  lemma NumberNotInKind(kind: string, number: string)
    requires kind in KINDS && number != "" && Within(number, Numeric)
    ensures !Occurs(kind, number)
  {
    forall at | 0 <= at <= |kind|
      ensures !OccursAt(kind, number, at)
    {
      assert at + |number| <= |kind| ==> kind[at..at + |number|][0] == kind[at] && !Numeric.Has(kind[at]);
    }
  }

  lemma TokenEmptyKey(kind: string, index: Option<int>, token: string)
    requires Printable(kind, index) && Bare(token)
    ensures Parse(TokenLine(kind, index, "", token)) != Some(TokenMeant(kind, index, "", token))
  {
    hide ValueOf, Trim, Index;
    var text, line := TokenBody(kind, index, "", token), TokenLine(kind, index, "", token);
    TokenText(kind, index, "", token);
    EmptyKeyWords(kind, index, token, text);
    ParseOfText(line, text);
    if index.Some? {
      AtoiItoa(index.value);
    }
    BareHasWords(token);
    var words := HeadWords(kind, index) + Fields(token);
    assert words[0] == kind && forall k :: |HeadWords(kind, index)| <= k < |words| ==> words[k] in Fields(token);
  }

  lemma EmptyKeyWords(kind: string, index: Option<int>, token: string, text: string)
    requires Printable(kind, index) && text == TokenBody(kind, index, "", token)
    ensures Fields(text) == HeadWords(kind, index) + Fields(token)
  {
    assert text == HeadText(kind, index) + ([' '] + token);
    HeadFields(kind, index, [' '] + token);
    FieldsSkipSpace(' ', token);
  }

  lemma TokenSpacedKey(kind: string, index: Option<int>, key: string, token: string)
    requires Printable(kind, index) && !FreeOf(key, Space)
    ensures Parse(TokenLine(kind, index, key, token)) != Some(TokenMeant(kind, index, key, token))
  {
    ParseOfText(TokenLine(kind, index, key, token), Trim(TokenLine(kind, index, key, token), Frame));
  }

  /** A one-parameter report of a number, switch, gain or other bare text, of one word or more, reads back as it was
      meant if and only if the parameter is one word that occurs in neither the kind nor the index and is no number
      when there is no index, or else is a zero printed like the first word of its value. */
  lemma ParseInvertsToken(kind: string, index: Option<int>, key: string, token: string)
    requires Printable(kind, index) && Bare(token)
    ensures Parse(TokenLine(kind, index, key, token)) == Some(TokenMeant(kind, index, key, token))
       <==> TokenReadsBack(kind, index, key, token)
  {
    hide Parse, Trim, Fields, Index, Occurs;
    if key == "" {
      TokenEmptyKey(kind, index, token);
    } else if !FreeOf(key, Space) {
      TokenSpacedKey(kind, index, key, token);
    } else if index.None? && Atoi(key).Some? {
      TokenNumericKey(kind, key, token);
    } else {
      TokenWordKey(kind, index, key, token);
    }
  }

  /** Only reports of these two kinds are read, and both kinds are; and what is read keeps the line. */
  lemma OnlyReports(line: string)
    ensures Parse(line).Some? ==>
              (Parse(line).value.kind == "REP" || Parse(line).value.kind == "SAMPLE") && Parse(line).value.raw == line
    ensures Printable("REP", None) && Printable("SAMPLE", None)
  {
  }

  /** A report that ends after its index has neither parameter nor value, and without an index it is none. */
  lemma HeadRead(kind: string, index: Option<int>)
    requires Printable(kind, index)
    ensures var line := "< " + HeadText(kind, index) + ">";
            Parse(line) == if index.Some? then Some(Report(kind, index.value, "", "", line)) else None
  {
    hide ValueOf, Trim, Index;
    var line, text := "< " + HeadText(kind, index) + ">", HeadText(kind, index)[..|HeadText(kind, index)| - 1];
    HeadTrimmed(kind, index);
    HeadFields(kind, index, "");
    assert HeadText(kind, index) + "" == HeadText(kind, index);
    HeadWordsOf(kind, index);
    ParseOfText(line, text);
    if index.Some? {
      AtoiItoa(index.value);
    }
  }

  lemma HeadTrimmed(kind: string, index: Option<int>)
    requires Printable(kind, index)
    ensures var head := HeadText(kind, index);
            head != "" && Trim("< " + head + ">", Frame) == head[..|head| - 1]
  {
    var head := HeadText(kind, index);
    var text := head[..|head| - 1];
    HeadStart(kind, index);
    if index.Some? {
      ItoaChars(index.value);
      assert text == kind + " " + Itoa(index.value);
      assert text[|text| - 1] == Itoa(index.value)[|Itoa(index.value)| - 1];
    } else {
      assert text == kind;
    }
    TrimExact("< ", text, " >", Frame);
    assert "< " + head + ">" == "< " + text + " >";
  }

  lemma HeadWordsOf(kind: string, index: Option<int>)
    requires Printable(kind, index)
    ensures var head := HeadText(kind, index);
            head != "" && Fields(head[..|head| - 1]) == HeadWords(kind, index)
  {
    var head := HeadText(kind, index);
    if index.Some? {
      ItoaChars(index.value);
      assert head[..|head| - 1] == kind + " " + Itoa(index.value);
      FieldsCons(kind, Itoa(index.value));
      OneWord(Itoa(index.value));
    } else {
      assert head[..|head| - 1] == kind;
      OneWord(kind);
    }
  }

  lemma OneWord(w: string)
    requires IsWord(w)
    ensures Fields(w) == [w]
  {
    FieldsOfWord(w, "");
    assert w + "" == w;
  }
}
