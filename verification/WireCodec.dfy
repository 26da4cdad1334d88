/** The text frames between the master and a worker: `CalcWebApp`, `WorkUnit`,
    `CalcData` print them, and the line-counting readers of `RequestServer` and
    `WorkerConnectionHandler` read them back. */
module WireCodec {
  import opened Channels
  import opened Decimal
  import opened Sockets
  import opened Tokenizer
  import Sequences

  /** The applications chained to the server: home page, factorization, Goldbach
      and the not-found page. Only the middle two answer units. */
  const APPLICATIONS := 4
  const FACT := 1
  const GOLDBACH := 2

  predicate Calculates(app: nat) { app == FACT || app == GOLDBACH }

  const REQUEST_BUFFER_LINES_COUNT := 3
  const RESPONSE_BUFFER_LINES_COUNT := 3

  /** A unit on its way to a worker; `address` identifies the data on the master. */
  datatype Request = Request(app: nat, address: nat, index: nat, query: int)

  /** The answer on its way back. */
  datatype Response = Response(app: nat, address: nat, index: nat, values: seq<int>)

  /** What a 64-bit build can put in a frame. */
  predicate Addressable(app: nat, address: nat, index: nat) {
    Calculates(app) && 0 < address && Word64(address) && Word64(index)
  }

  predicate Sendable(u: Request) { Addressable(u.app, u.address, u.index) && Int64(u.query) }

  predicate AllInt64(values: seq<int>) { forall k :: 0 <= k < |values| ==> Int64(values[k]) }

  /** The values before the first one that does not fit in 64 bits. */
  function Fitting(values: seq<int>): seq<int> {
    if values == [] || !Int64(values[0]) then [] else [values[0]] + Fitting(values[1..])
  }

  predicate Returnable(r: Response) { Addressable(r.app, r.address, r.index) && AllInt64(r.values) }

  // ----------------------------------------------------------------- printing

  function Line(text: string): string { text + "\n" }

  function PrintRequest(u: Request): string {
    Line(ToString(u.app)) + (Line(ToString(u.address)) + (Line(ToString(u.index)) + Line(ToString(u.query))))
  }

  /** Each value followed by a comma. */
  function Listed(values: seq<int>): string {
    if values == [] then "" else ToString(values[0]) + "," + Listed(values[1..])
  }

  /** The prefix and the listed values without the last character: a lone prefix
      is removed as well, so that an empty result is an empty line. */
  function ResultText(values: seq<int>): string {
    var text := "=" + Listed(values);
    text[..|text| - 1]
  }

  function PrintResponse(r: Response): string {
    Line(ToString(r.app)) + (Line(ToString(r.address)) + (Line(ToString(r.index)) + Line(ResultText(r.values))))
  }

  const STOP := "-1\n"

  function PrintRequests(units: seq<Request>): string {
    if units == [] then "" else PrintRequest(units[0]) + PrintRequests(units[1..])
  }

  function PrintResponses(units: seq<Response>): string {
    if units == [] then "" else PrintResponse(units[0]) + PrintResponses(units[1..])
  }

  // ------------------------------------------------------------ reading lines

  /** The outcome of `readLine` on the lines that the socket still gives. */
  datatype LineRead = NoLine | OneLine(text: string, rest: seq<string>)

  function ReadLine(lines: seq<string>): (r: LineRead)
    ensures r.NoLine? <==> lines == []
    ensures r.OneLine? ==> lines == [r.text] + r.rest
  {
    if lines == [] then NoLine else OneLine(lines[0], lines[1..])
  }

  /** Reads `count` lines and appends them to the buffer. */
  function ReadLines(lines: seq<string>, count: nat, buffer: string): (r: LineRead)
    ensures r.OneLine? ==> |r.rest| <= |lines|
    decreases count
  {
    if count == 0 then OneLine(buffer, lines)
    else
      match ReadLine(lines)
      case NoLine => NoLine
      case OneLine(text, rest) => ReadLines(rest, count - 1, buffer + Line(text))
  }

  // ----------------------------------------------------------- reading frames

  /** A reader gives a unit, stops, or leaves with an exception that its thread
      does not catch. */
  datatype Read<+T> = Unit(value: T, rest: seq<string>) | Stopped(rest: seq<string>) | Thrown

  /** The application line: an index that is not a number or too large stops the
      reader, a number that overflows is not caught. */
  datatype Dispatch = Application(app: nat) | NoApplication | Uncaught

  function ParseApplication(line: string): Dispatch {
    match Stoul(line)
    case Number(value, _) => if value < APPLICATIONS then Application(value) else NoApplication
    case InvalidArgument => NoApplication
    case OutOfRange => Uncaught
  }

  /** `CalcWebApp::deserializeRequest`; `None` is its exception. */
  function DeserializeRequest(text: string): Option<Request> {
    var request := NonEmpty(Split(text, "\n"));
    if |request| < REQUEST_BUFFER_LINES_COUNT + 1 then None
    else
      var app, address, index, query := Stoul(request[0]), Stoul(request[1]), Stoul(request[2]), Stoll(request[3]);
      if app.Number? && address.Number? && address.value != 0 && index.Number? && query.Number?
      then Some(Request(app.value, address.value, index.value, query.value)) else None
  }

  /** `RequestServer::readRequestFromMaster`. */
  function ReadRequest(lines: seq<string>): (r: Read<Request>)
    ensures r.Unit? ==> |r.rest| < |lines|
  {
    match ReadLine(lines)
    case NoLine => Stopped(lines)
    case OneLine(line, rest) =>
      match ParseApplication(line)
      case NoApplication => Stopped(rest)
      case Uncaught => Thrown
      case Application(app) =>
        match ReadLines(rest, REQUEST_BUFFER_LINES_COUNT, Line(line))
        case NoLine => Stopped([])
        case OneLine(buffer, after) =>
          if !Calculates(app) then Stopped(after)
          else
            match DeserializeRequest(buffer)
            case None => Thrown
            case Some(u) => Unit(u, after)
  }

  /** The values converted before the first text that is not a number. */
  datatype Values = Values(read: seq<int>, complete: bool)

  function ParseValues(texts: seq<string>): Values {
    if texts == [] then Values([], true)
    else
      match Stoll(texts[0])
      case Number(value, _) =>
        var others := ParseValues(texts[1..]);
        Values([value] + others.read, others.complete)
      case _ => Values([], false)
  }

  /** `CalcData::deserializeResult`: the values it appends to the slot. Without a
      prefix in the text, `npos + 1` wraps to its start. */
  function ParseResult(text: string): Values {
    if text == "" then Values([], true)
    else
      var pos := Find(text, "=");
      ParseValues(NonEmpty(Split(text[if pos == |text| then 0 else pos + 1..], ",")))
  }

  /** The address and index lines of `CalcWebApp::deserializeResponse`. */
  function ParseOwner(address: string, index: string): Option<(nat, nat)> {
    var a, i := Stoul(address), Stoul(index);
    if a.Number? && a.value != 0 && i.Number? then Some((a.value, i.value)) else None
  }

  /** A response as far as its values could be converted. */
  datatype Delivery = Delivery(response: Response, complete: bool)

  /** `CalcWebApp::deserializeResponse` once it has found the owner: an incomplete
      delivery leaves with an exception after its first values were appended. */
  function DeserializeResponse(app: nat, text: string): Option<Delivery> {
    var response := Split(text, "\n");
    if |response| < RESPONSE_BUFFER_LINES_COUNT then None
    else
      match ParseOwner(response[0], response[1])
      case None => None
      case Some(owner) =>
        var values := ParseResult(response[2]);
        Some(Delivery(Response(app, owner.0, owner.1, values.read), values.complete))
  }

  /** `WorkerConnectionHandler::route`. */
  function ReadDelivery(lines: seq<string>): (r: Read<Delivery>)
    ensures r.Unit? ==> |r.rest| < |lines|
  {
    match ReadLine(lines)
    case NoLine => Stopped(lines)
    case OneLine(line, rest) =>
      match ParseApplication(line)
      case NoApplication => Stopped(rest)
      case Uncaught => Thrown
      case Application(app) =>
        match ReadLines(rest, RESPONSE_BUFFER_LINES_COUNT, "")
        case NoLine => Stopped([])
        case OneLine(buffer, after) =>
          if !Calculates(app) then Stopped(after)
          else
            match DeserializeResponse(app, buffer)
            case None => Thrown
            case Some(d) => Unit(d, after)
  }

  /** The units that a reader's loop produces, and how it ends. */
  datatype Session<T> = Session(units: seq<T>, threw: bool, rest: seq<string>)

  function ReadRequests(lines: seq<string>): Session<Request>
    decreases |lines|
  {
    match ReadRequest(lines)
    case Unit(u, rest) =>
      var others := ReadRequests(rest);
      Session([u] + others.units, others.threw, others.rest)
    case Stopped(rest) => Session([], false, rest)
    case Thrown => Session([], true, lines)
  }

  /** All deliveries of a stream; an incomplete one is the last and ends the reader
      with its exception. */
  function ReadDeliveries(lines: seq<string>): Session<Delivery>
    decreases |lines|
  {
    match ReadDelivery(lines)
    case Unit(d, rest) =>
      if !d.complete then Session([d], true, rest)
      else
        var others := ReadDeliveries(rest);
        Session([d] + others.units, others.threw, others.rest)
    case Stopped(rest) => Session([], false, rest)
    case Thrown => Session([], true, lines)
  }

  /** Complete deliveries of these responses. */
  function Deliveries(responses: seq<Response>): seq<Delivery> {
    if responses == [] then [] else [Delivery(responses[0], true)] + Deliveries(responses[1..])
  }

  // ------------------------------------------------------------- line lemmas

  lemma ReadPrintedLine(text: string, rest: string)
    requires Avoids(text, '\n')
    ensures ReadLine(LinesOf(Line(text) + rest)) == OneLine(text, LinesOf(rest))
  {
    hide LinesOf;
    LinesFirst(text, rest);
  }

  lemma ReadPrintedLines(a: string, b: string, c: string, rest: string, buffer: string)
    requires Avoids(a, '\n') && Avoids(b, '\n') && Avoids(c, '\n')
    ensures ReadLines(LinesOf(Line(a) + (Line(b) + (Line(c) + rest))), 3, buffer)
         == OneLine(buffer + Line(a) + Line(b) + Line(c), LinesOf(rest))
  {
    hide ReadLine, LinesOf;
    var afterB := Line(c) + rest;
    var afterA := Line(b) + afterB;
    ReadPrintedLine(a, afterA);
    ReadPrintedLine(b, afterB);
    ReadPrintedLine(c, rest);
    var whole := buffer + Line(a) + Line(b) + Line(c);
    assert ReadLines(LinesOf(rest), 0, whole) == OneLine(whole, LinesOf(rest));
    assert ReadLines(LinesOf(afterB), 1, buffer + Line(a) + Line(b)) == OneLine(whole, LinesOf(rest));
    assert ReadLines(LinesOf(afterA), 2, buffer + Line(a)) == OneLine(whole, LinesOf(rest));
  }

  lemma SplitPrintedLine(text: string, rest: string)
    requires Avoids(text, '\n')
    ensures Split(Line(text) + rest, "\n") == [text] + Split(rest, "\n")
  {
    SplitFirst(text, '\n', rest);
    assert Line(text) + rest == text + ['\n'] + rest;
  }

  lemma SplitThreeLines(a: string, b: string, c: string)
    requires Avoids(a, '\n') && Avoids(b, '\n') && Avoids(c, '\n')
    ensures Split(Line(a) + Line(b) + Line(c), "\n") == [a, b, c, ""]
  {
    hide Find;
    SplitPrintedLine(c, "");
    SplitPrintedLine(b, Line(c) + "");
    SplitPrintedLine(a, Line(b) + (Line(c) + ""));
    assert Line(a) + (Line(b) + (Line(c) + "")) == Line(a) + Line(b) + Line(c);
    assert Split("", "\n") == [""];
  }

  lemma SplitFourLines(a: string, b: string, c: string, d: string)
    requires Avoids(a, '\n') && Avoids(b, '\n') && Avoids(c, '\n') && Avoids(d, '\n')
    requires a != "" && b != "" && c != "" && d != ""
    ensures NonEmpty(Split(Line(a) + Line(b) + Line(c) + Line(d), "\n")) == [a, b, c, d]
  {
    hide Find, Split, NonEmpty, Line;
    SplitThreeLines(b, c, d);
    SplitPrintedLine(a, Line(b) + Line(c) + Line(d));
    assert Line(a) + (Line(b) + Line(c) + Line(d)) == Line(a) + Line(b) + Line(c) + Line(d) by {
      Sequences.Assoc(Line(a), Line(b) + Line(c), Line(d));
      Sequences.Assoc(Line(a), Line(b), Line(c));
    }
    KeepFour(a, b, c, d);
    assert [a] + [b, c, d, ""] == [a, b, c, d, ""];
  }

  lemma KeepFour(a: string, b: string, c: string, d: string)
    requires a != "" && b != "" && c != "" && d != ""
    ensures NonEmpty([a, b, c, d, ""]) == [a, b, c, d]
  {
    hide NonEmpty;
    KeepOne(d, [""]);
    KeepNone();
    KeepOne(c, [d, ""]);
    KeepOne(b, [c, d, ""]);
    KeepOne(a, [b, c, d, ""]);
    assert [a, b, c, d, ""] == [a] + [b, c, d, ""] && [b, c, d, ""] == [b] + [c, d, ""];
    assert [c, d, ""] == [c] + [d, ""] && [d, ""] == [d] + [""];
  }

  lemma KeepNone()
    ensures NonEmpty([""]) == []
  {
    assert [""][1..] == [];
  }

  lemma KeepOne(token: string, next: seq<string>)
    requires token != ""
    ensures NonEmpty([token] + next) == [token] + NonEmpty(next)
  {
    KeptFirst(token, next, true);
  }

  // -------------------------------------------------------------- round trips

  lemma ApplicationLine(app: nat)
    requires Calculates(app)
    ensures ParseApplication(ToString(app)) == Application(app)
  {
    RoundTrip(app);
  }

  /** A printed request is read back, whatever follows it in the stream. */
  lemma RequestRoundTrip(u: Request, rest: string)
    requires Sendable(u)
    ensures ReadRequest(LinesOf(PrintRequest(u) + rest)) == Unit(u, LinesOf(rest))
  {
    hide LinesOf, Split, NonEmpty, ReadLine, ReadLines, ToString, Stoul, Stoll, ParseApplication;
    var a, b, c, d := ToString(u.app), ToString(u.address), ToString(u.index), ToString(u.query);
    PrintedCharacters(u.app);
    PrintedCharacters(u.address);
    PrintedCharacters(u.index);
    PrintedCharacters(u.query);
    assert PrintRequest(u) + rest == Line(a) + (Line(b) + (Line(c) + (Line(d) + rest)));
    ReadPrintedLine(a, Line(b) + (Line(c) + (Line(d) + rest)));
    ApplicationLine(u.app);
    ReadPrintedLines(b, c, d, rest, Line(a));
    SplitFourLines(a, b, c, d);
    RoundTrip(u.app);
    RoundTrip(u.address);
    RoundTrip(u.index);
    RoundTrip(u.query);
  }

  /** Back-to-back requests followed by the stop frame give exactly these
      requests and then a stop that leaves the rest of the stream alone. */
  lemma {:induction false} RequestStream(units: seq<Request>, rest: string)
    requires forall k :: 0 <= k < |units| ==> Sendable(units[k])
    ensures ReadRequests(LinesOf(PrintRequests(units) + STOP + rest)) == Session(units, false, LinesOf(rest))
  {
    hide ReadRequest, ReadRequests, PrintRequest, PrintRequests, Sendable, LinesOf;
    var stream := PrintRequests(units) + STOP + rest;
    if units == [] {
      StopFrame(rest);
      assert PrintRequests(units) + STOP == STOP by { NoRequests(); Sequences.Nothing(STOP); }
      NextRequest(LinesOf(stream));
    } else {
      var first, others := units[0], units[1..];
      var after := PrintRequests(others) + STOP + rest;
      assert stream == PrintRequest(first) + after by {
        FirstRequest(units);
        Sequences.Assoc(PrintRequest(first), PrintRequests(others), STOP);
        Sequences.Assoc(PrintRequest(first), PrintRequests(others) + STOP, rest);
      }
      RequestRoundTrip(first, after);
      NextRequest(LinesOf(stream));
      RequestStream(others, rest);
      Sequences.HeadTail(units);
    }
  }

  lemma NoRequests()
    ensures PrintRequests([]) == ""
  {
  }

  lemma FirstRequest(units: seq<Request>)
    requires units != []
    ensures PrintRequests(units) == PrintRequest(units[0]) + PrintRequests(units[1..])
  {
  }

  lemma NextRequest(lines: seq<string>)
    ensures match ReadRequest(lines)
            case Unit(u, rest) =>
              var others := ReadRequests(rest);
              ReadRequests(lines) == Session([u] + others.units, others.threw, others.rest)
            case Stopped(rest) => ReadRequests(lines) == Session([], false, rest)
            case Thrown => ReadRequests(lines) == Session([], true, lines)
  {
    hide ReadRequest;
  }

  /** The stop frame is a negative index, which wraps around to a huge one. */
  lemma StopFrame(rest: string)
    ensures ReadRequest(LinesOf(STOP + rest)) == Stopped(LinesOf(rest))
    ensures ReadDelivery(LinesOf(STOP + rest)) == Stopped(LinesOf(rest))
  {
    hide LinesOf;
    var line := "-1";
    ReadPrintedLine(line, rest);
    assert STOP == Line(line);
    assert Digits(1) == "1" && ToString(-1) == line;
    NegativeWraps(-1);
  }

  lemma {:induction false} ListedSplit(values: seq<int>)
    requires values != []
    ensures Listed(values) != "" && Avoids(Listed(values), '\n')
    ensures var text := Listed(values);
            ParseValues(NonEmpty(Split(text[..|text| - 1], ","))) == ParseValues(Texts(values))
  {
    hide Split, Find, Stoll, ParseValues;
    SplitListed(values);
    NoneEmpty(values);
  }

  function Texts(values: seq<int>): seq<string> {
    if values == [] then [] else [ToString(values[0])] + Texts(values[1..])
  }

  lemma {:induction false} NoneEmpty(values: seq<int>)
    ensures NonEmpty(Texts(values)) == Texts(values)
  {
    if values != [] {
      NoneEmpty(values[1..]);
      PrintedCharacters(values[0]);
    }
  }

  lemma {:induction false} SplitListed(values: seq<int>)
    requires values != []
    ensures Listed(values) != "" && Avoids(Listed(values), '\n')
    ensures var text := Listed(values); Split(text[..|text| - 1], ",") == Texts(values)
  {
    hide Split, Find, ToString;
    var text, first := Listed(values), ToString(values[0]);
    PrintedCharacters(values[0]);
    if |values| == 1 {
      var none := values[1..];
      assert none == [] && Listed(none) == "";
      assert first + "," + "" == first + ",";
      assert text == first + ",";
      assert text[..|text| - 1] == first;
      WholeToken(first);
    } else {
      SplitListed(values[1..]);
      var others := Listed(values[1..]);
      assert text[..|text| - 1] == first + [','] + others[..|others| - 1];
      SplitFirst(first, ',', others[..|others| - 1]);
    }
  }

  lemma WholeToken(text: string)
    requires Avoids(text, ',')
    ensures Split(text, ",") == [text]
  {
    FindNone(text, ',');
  }

  lemma {:induction false} ParseTexts(values: seq<int>)
    ensures ParseValues(Texts(values)) == Values(Fitting(values), AllInt64(values))
  {
    hide Stoll, ToString;
    if values != [] {
      RoundTrip(values[0]);
      ParseTexts(values[1..]);
      AllOf(values);
    }
  }

  lemma AllOf(values: seq<int>)
    requires values != []
    ensures AllInt64(values) <==> Int64(values[0]) && AllInt64(values[1..])
  {
    assert forall k :: 0 < k < |values| ==> values[k] == values[1..][k - 1];
  }

  lemma {:induction false} FittingAll(values: seq<int>)
    ensures AllInt64(values) <==> Fitting(values) == values
  {
    if values != [] {
      FittingAll(values[1..]);
      AllOf(values);
      assert values == [values[0]] + values[1..];
    }
  }

  /** A result is read back, the empty one included, and fits on one line. Values
      beyond 64 bits end the reading. */
  lemma ResultRoundTrip(values: seq<int>)
    ensures ParseResult(ResultText(values)) == Values(Fitting(values), AllInt64(values))
    ensures AllInt64(values) <==> Fitting(values) == values
    ensures Avoids(ResultText(values), '\n')
  {
    hide Stoll, ToString, Split, ParseValues;
    FittingAll(values);
    if values != [] {
      var listed := Listed(values);
      ListedSplit(values);
      var text := ResultText(values);
      assert text == "=" + listed[..|listed| - 1];
      assert Find(text, "=") == 0 by { assert "=" <= text; }
      assert text[1..] == listed[..|listed| - 1];
      ParseTexts(values);
    }
  }

  /** A printed response is read back, whatever follows it in the stream. */
  lemma ResponseRoundTrip(r: Response, rest: string)
    requires Addressable(r.app, r.address, r.index)
    ensures ReadDelivery(LinesOf(PrintResponse(r) + rest))
         == Unit(Delivery(r.(values := Fitting(r.values)), AllInt64(r.values)), LinesOf(rest))
    ensures AllInt64(r.values) ==>
              ReadDelivery(LinesOf(PrintResponse(r) + rest)) == Unit(Delivery(r, true), LinesOf(rest))
  {
    hide LinesOf, Split, ReadLine, ReadLines, ToString, Stoul, Stoll, ParseApplication, ParseResult, ResultText;
    var a, b, c, d := ToString(r.app), ToString(r.address), ToString(r.index), ResultText(r.values);
    PrintedCharacters(r.app);
    PrintedCharacters(r.address);
    PrintedCharacters(r.index);
    ResultRoundTrip(r.values);
    assert PrintResponse(r) + rest == Line(a) + (Line(b) + (Line(c) + (Line(d) + rest)));
    ReadPrintedLine(a, Line(b) + (Line(c) + (Line(d) + rest)));
    ApplicationLine(r.app);
    ReadPrintedLines(b, c, d, rest, "");
    assert "" + Line(b) == Line(b);
    SplitThreeLines(b, c, d);
    RoundTrip(r.address);
    RoundTrip(r.index);
  }

  lemma {:induction false} ResponseStream(units: seq<Response>, rest: string)
    requires forall k :: 0 <= k < |units| ==> Returnable(units[k])
    ensures ReadDeliveries(LinesOf(PrintResponses(units) + STOP + rest))
         == Session(Deliveries(units), false, LinesOf(rest))
  {
    hide ReadDelivery, PrintResponse, Addressable, LinesOf;
    var stream := PrintResponses(units) + STOP + rest;
    if units == [] {
      StopFrame(rest);
      assert stream == STOP + rest;
    } else {
      var after := PrintResponses(units[1..]) + STOP + rest;
      assert stream == PrintResponse(units[0]) + after;
      assert Returnable(units[0]);
      ResponseRoundTrip(units[0], after);
      ResponseStream(units[1..], rest);
    }
  }

  /** The frames on the wire, for example. */
  lemma FrameTexts()
    ensures PrintRequest(Request(FACT, 12, 0, 7)) == "1\n12\n0\n7\n"
    ensures PrintResponse(Response(GOLDBACH, 12, 0, [2, 7, -1])) == "2\n12\n0\n=2,7,-1\n"
    ensures PrintResponse(Response(GOLDBACH, 12, 0, [])) == "2\n12\n0\n\n"
  {
    hide ToString, ResultText;
    SmallNumbers();
    ResultTexts();
  }

  lemma SmallNumbers()
    ensures ToString(0) == "0" && ToString(1) == "1" && ToString(2) == "2" && ToString(7) == "7"
    ensures ToString(12) == "12" && ToString(-1) == "-1"
  {
    assert Digits(0) == "0" && Digits(1) == "1" && Digits(2) == "2" && Digits(7) == "7";
    assert Digits(12) == "12";
  }

  lemma ResultTexts()
    ensures ResultText([2, 7, -1]) == "=2,7,-1" && ResultText([]) == ""
  {
    hide ToString;
    SmallNumbers();
    assert [2, 7, -1][1..] == [7, -1] && [7, -1][1..] == [-1] && [-1][1..] == [];
    assert Listed([-1]) == "-1,";
    assert Listed([7, -1]) == "7,-1,";
    assert Listed([2, 7, -1]) == "2,7,-1,";
  }

  /** Nothing that is sent on a link is empty. */
  lemma FramesAreNotEmpty(u: Request, r: Response)
    ensures PrintRequest(u) != "" && PrintResponse(r) != "" && STOP != ""
  {
  }

  /** A frame that is cut inside a line is read as another one: this request for 12 is
      received in two chunks and becomes a request with another owner, and what is left
      stops the reader. */
  lemma CutFrameIsMisread()
    ensures var u := Request(FACT, 12, 0, 7);
            && Sendable(u) && PrintRequest(u) == "1\n1" + "2\n0\n7\n"
            && ReadRequests(ChunkLines(["1\n1", "2\n0\n7\n"])).units == [Request(FACT, 1, 2, 0)]
  {
    hide LinesOf, ChunkLines, PrintRequest, ReadRequest, ReadRequests;
    var misread, rest := Request(FACT, 1, 2, 0), "7\n";
    CutTexts();
    CutIsNewline("1\n1", "2\n0\n7\n");
    RequestRoundTrip(misread, rest);
    NextRequest(LinesOf(PrintRequest(misread) + rest));
    LeftOverStops();
    NextRequest(LinesOf(rest));
  }

  lemma CutTexts()
    ensures PrintRequest(Request(FACT, 12, 0, 7)) == "1\n1" + "2\n0\n7\n"
    ensures PrintRequest(Request(FACT, 1, 2, 0)) + "7\n" == "1\n1" + "\n" + "2\n0\n7\n"
  {
    hide ToString;
    SmallNumbers();
  }

  /** There are not so many applications. */
  lemma LeftOverStops()
    ensures ReadRequest(LinesOf("7\n")).Stopped?
  {
    hide LinesOf;
    assert Digits(7) == "7" && ToString(7) == "7";
    RoundTrip(7);
    ReadPrintedLine("7", "");
    assert Line("7") + "" == "7\n";
  }

  // ----------------------------------------------------------- frames of any kind

  /** What becomes of four lines that may hold anything: a unit if the first names one of
      the two calculators and all are numbers, with an owner that is not null. */
  lemma AnyRequest(a: string, b: string, c: string, d: string, rest: seq<string>)
    requires a != "" && b != "" && c != "" && d != ""
    requires Avoids(a, '\n') && Avoids(b, '\n') && Avoids(c, '\n') && Avoids(d, '\n')
    ensures ReadRequest([a, b, c, d] + rest)
         == if Stoul(a).OutOfRange? then Thrown
            else if Stoul(a).InvalidArgument? || Stoul(a).value >= APPLICATIONS then Stopped([b, c, d] + rest)
            else if !Calculates(Stoul(a).value) then Stopped(rest)
            else if Stoul(b).Number? && Stoul(b).value > 0 && Stoul(c).Number? && Stoll(d).Number? then
              Unit(Request(Stoul(a).value, Stoul(b).value, Stoul(c).value, Stoll(d).value), rest)
            else Thrown
  {
    hide Stoul, Stoll, Split, NonEmpty;
    var lines := [a, b, c, d] + rest;
    assert lines[1..] == [b, c, d] + rest;
    ThreeLines(b, c, d, rest, Line(a));
    SplitFourLines(a, b, c, d);
  }

  lemma ThreeLines(b: string, c: string, d: string, rest: seq<string>, buffer: string)
    ensures ReadLines([b, c, d] + rest, 3, buffer) == OneLine(buffer + Line(b) + Line(c) + Line(d), rest)
  {
    hide Line;
    var three := [b, c, d] + rest;
    assert three[1..] == [c, d] + rest && ([c, d] + rest)[1..] == [d] + rest && ([d] + rest)[1..] == rest;
    var whole := OneLine(buffer + Line(b) + Line(c) + Line(d), rest);
    assert ReadLines(rest, 0, buffer + Line(b) + Line(c) + Line(d)) == whole;
    assert ReadLines([d] + rest, 1, buffer + Line(b) + Line(c)) == whole;
    assert ReadLines([c, d] + rest, 2, buffer + Line(b)) == whole;
  }

  /** The same for a response; its values are those before the first text that is no
      number, and only a complete response goes on. */
  lemma AnyResponse(a: string, b: string, c: string, d: string, rest: seq<string>)
    requires Avoids(b, '\n') && Avoids(c, '\n') && Avoids(d, '\n')
    ensures ReadDelivery([a, b, c, d] + rest)
         == if Stoul(a).OutOfRange? then Thrown
            else if Stoul(a).InvalidArgument? || Stoul(a).value >= APPLICATIONS then Stopped([b, c, d] + rest)
            else if !Calculates(Stoul(a).value) then Stopped(rest)
            else if Stoul(b).Number? && Stoul(b).value > 0 && Stoul(c).Number? then
              Unit(Delivery(Response(Stoul(a).value, Stoul(b).value, Stoul(c).value, ParseResult(d).read),
                            ParseResult(d).complete), rest)
            else Thrown
  {
    hide Stoul, Stoll, Split, ParseResult;
    var lines := [a, b, c, d] + rest;
    assert lines[1..] == [b, c, d] + rest;
    ThreeLines(b, c, d, rest, "");
    assert "" + Line(b) == Line(b);
    SplitThreeLines(b, c, d);
  }

  /** A stream that ends inside a frame stops both readers; one that has ended, too. */
  lemma CutStream(lines: seq<string>)
    requires |lines| < 4 && (lines != [] ==> ParseApplication(lines[0]).Application?)
    ensures ReadRequest(lines) == Stopped([]) && ReadDelivery(lines) == Stopped([])
  {
    hide ParseApplication;
    if lines != [] {
      TooShort(lines[1..], 3, Line(lines[0]));
      TooShort(lines[1..], 3, "");
    }
  }

  lemma {:induction false} TooShort(lines: seq<string>, count: nat, buffer: string)
    requires |lines| < count
    ensures ReadLines(lines, count, buffer) == NoLine
    decreases count
  {
    if lines != [] { TooShort(lines[1..], count - 1, buffer + Line(lines[0])); }
  }
}
