/** The event stream between server and page: records as the server prints them, and the page's
    reader, which gets the text in chunks cut anywhere. Text stands for decoded text: bytes and
    their decoding are not modelled, nor is the parsing of the data as JSON. */
module Sse {
  import opened Text

  datatype Event = Event(name: string, data: string)

  /** `sse` */
  function Record(event: Event): string {
    "event: " + event.name + "\ndata: " + event.data + "\n\n"
  }

  function Stream(events: seq<Event>): string {
    if events == [] then "" else Record(events[0]) + Stream(events[1..])
  }

  /** One-line text without white space at its ends, as every serialised JSON object is. */
  predicate OneLine(s: string) {
    '\n' !in s && '\r' !in s && Trimmed(IsJsSpace, s)
  }

  predicate Printable(events: seq<Event>) {
    forall i | 0 <= i < |events| :: OneLine(events[i].name) && OneLine(events[i].data)
  }

  // The reader's string operations

  predicate StartsWithCrLf(s: string) {
    |s| >= 2 && s[0] == '\r' && s[1] == '\n'
  }

  /** `replace(/\r\n/g, "\n")` */
  function Unified(s: string): string {
    if s == "" then ""
    else if StartsWithCrLf(s) then "\n" + Unified(s[2..])
    else [s[0]] + Unified(s[1..])
  }

  /** `indexOf("\n\n")` */
  function Boundary(s: string): (at: Option<nat>)
    ensures at.Some? ==> at.value + 2 <= |s|
  {
    if |s| < 2 then None
    else if s[0] == '\n' && s[1] == '\n' then Some(0)
    else
      match Boundary(s[1..])
      case None => None
      case Some(at) => Some(at + 1)
  }

  function LineLength(s: string): (n: nat)
    ensures n <= |s| && '\n' !in s[..n]
    ensures n < |s| ==> s[n] == '\n'
  {
    if s == "" || s[0] == '\n' then 0 else 1 + LineLength(s[1..])
  }

  /** `split("\n")` */
  function Lines(s: string): (lines: seq<string>)
    ensures lines != []
    decreases |s|
  {
    var n := LineLength(s);
    if n == |s| then [s] else [s[..n]] + Lines(s[n + 1..])
  }

  // One record

  function NameIn(lines: seq<string>): string {
    if lines == [] then "message"
    else
      var last := lines[|lines| - 1];
      if "event:" <= last then Trim(IsJsSpace, last[6..]) else NameIn(lines[..|lines| - 1])
  }

  function DataIn(lines: seq<string>): seq<string> {
    if lines == [] then []
    else
      var last := lines[|lines| - 1];
      DataIn(lines[..|lines| - 1]) + (if "data:" <= last then [Trim(IsJsSpace, last[5..])] else [])
  }

  function Joined(lines: seq<string>): string {
    if lines == [] then "" else if |lines| == 1 then lines[0] else lines[0] + "\n" + Joined(lines[1..])
  }

  function Parsed(record: string): Option<Event> {
    var lines := Lines(record);
    if DataIn(lines) == [] then None else Some(Event(NameIn(lines), Joined(DataIn(lines))))
  }

  /** The lines of a text are what is between its line feeds. */
  lemma {:induction false} LinesAreSplit(s: string)
    ensures Joined(Lines(s)) == s && forall i | 0 <= i < |Lines(s)| :: '\n' !in Lines(s)[i]
    decreases |s|
  {
    var n := LineLength(s);
    if n < |s| {
      var rest := s[n + 1..];
      LinesAreSplit(rest);
      assert Lines(s) == [s[..n]] + Lines(rest) && Lines(s)[1..] == Lines(rest);
      assert s == s[..n] + "\n" + rest;
    } else {
      assert s[..n] == s;
    }
  }

  /** `value` is what the line carries after the field's name, without the white space around it. */
  ghost predicate Carries(line: string, field: string, value: string) {
    field <= line && Surrounds(IsJsSpace, line[|field|..], value)
  }

  /** The name is the value of the last event line, and "message" without one. */
  ghost predicate NamedBy(lines: seq<string>, name: string) {
    if exists i :: 0 <= i < |lines| && "event:" <= lines[i] then
      exists i | 0 <= i < |lines| ::
        Carries(lines[i], "event:", name) && forall j | i < j < |lines| :: !("event:" <= lines[j])
    else name == "message"
  }

  /** `data` are the values of the data lines, in their order; `at` says where they stand. */
  ghost predicate DataAt(lines: seq<string>, data: seq<string>, at: seq<nat>) {
    && |at| == |data|
    && (forall k | 0 <= k < |at| :: at[k] < |lines| && Carries(lines[at[k]], "data:", data[k]))
    && (forall j, k | 0 <= j < k < |at| :: at[j] < at[k])
    && (forall i: nat | i < |lines| && "data:" <= lines[i] :: i in at)
  }

  lemma {:induction false} NameOfLines(lines: seq<string>)
    ensures NamedBy(lines, NameIn(lines))
  {
    if lines != [] {
      hide Trim, Surrounds, IsJsSpace;
      var n := |lines| - 1;
      NameOfLines(lines[..n]);
      if "event:" <= lines[n] {
        TrimExactly(IsJsSpace, lines[n][6..], NameIn(lines));
        assert Carries(lines[n], "event:", NameIn(lines));
      } else if exists i :: 0 <= i < |lines| && "event:" <= lines[i] {
        assert exists i :: 0 <= i < n && "event:" <= lines[..n][i];
      }
    }
  }

  lemma {:induction false} DataOfLines(lines: seq<string>) returns (at: seq<nat>)
    ensures DataAt(lines, DataIn(lines), at)
  {
    at := [];
    if lines != [] {
      hide Trim, Carries;
      var n := |lines| - 1;
      at := DataOfLines(lines[..n]);
      if "data:" <= lines[n] {
        DataAdded(lines[..n], lines[n], DataIn(lines[..n]), at);
        at := at + [n];
      } else {
        OtherAdded(lines[..n], lines[n], DataIn(lines[..n]), at);
        assert DataIn(lines[..n]) + [] == DataIn(lines[..n]);
      }
      assert lines == lines[..n] + [lines[n]];
    }
  }

  lemma {:induction false} DataAdded(lines: seq<string>, line: string, data: seq<string>, at: seq<nat>)
    requires DataAt(lines, data, at) && "data:" <= line
    ensures DataAt(lines + [line], data + [Trim(IsJsSpace, line[5..])], at + [|lines|])
  {
    assert Carries(line, "data:", Trim(IsJsSpace, line[5..])) by {
      TrimExactly(IsJsSpace, line[5..], Trim(IsJsSpace, line[5..]));
    }
    hide Trim, Carries;
    assert forall i: nat | i in at :: i in at + [|lines|];
    assert (at + [|lines|])[|at|] == |lines|;
  }

  lemma {:induction false} OtherAdded(lines: seq<string>, line: string, data: seq<string>, at: seq<nat>)
    requires DataAt(lines, data, at) && !("data:" <= line)
    ensures DataAt(lines + [line], data, at)
  {
    hide Carries;
  }

  /** What a record says, from its lines: nothing exactly when it has no data line; else the value
      of its last event line, and the values of its data lines joined by line feeds. */
  lemma {:induction false} RecordSays(record: string)
    ensures Parsed(record).None? <==> forall i | 0 <= i < |Lines(record)| :: !("data:" <= Lines(record)[i])
    ensures Parsed(record).Some? ==>
              && NamedBy(Lines(record), Parsed(record).value.name)
              && exists data, at :: DataAt(Lines(record), data, at) && Parsed(record).value.data == Joined(data)
  {
    hide Carries, NamedBy, Lines, NameIn;
    NameOfLines(Lines(record));
    var at := DataOfLines(Lines(record));
    if DataIn(Lines(record)) != [] {
      assert "data:" <= Lines(record)[at[0]] by {
        CarriesItsField(Lines(record)[at[0]], "data:", DataIn(Lines(record))[0]);
      }
    }
  }

  lemma {:induction false} CarriesItsField(line: string, field: string, value: string)
    requires Carries(line, field, value)
    ensures field <= line
  {
  }

  /** `parseSseRecord` */
  method ParseSseRecord(record: string) returns (parsed: Option<Event>)
    ensures parsed == Parsed(record)
  {
    var name, data := "message", [];
    var lines := Lines(record);
    for i := 0 to |lines|
      invariant name == NameIn(lines[..i])
      invariant data == DataIn(lines[..i])
    {
      var line := lines[i];
      assert lines[..i + 1][..i] == lines[..i];
      if "event:" <= line {
        name := Trim(IsJsSpace, line[6..]);
      }
      if "data:" <= line {
        data := data + [Trim(IsJsSpace, line[5..])];
      }
    }
    assert lines[..|lines|] == lines;
    parsed := if data == [] then None else Some(Event(name, Joined(data)));
  }

  // The whole stream

  /** What has been delivered, and the text still waiting for a boundary. */
  datatype Reading = Reading(events: seq<Event>, buffer: string)

  function Delivered(record: string): seq<Event> {
    match Parsed(record)
    case None => []
    case Some(event) => [event]
  }

  /** All complete records taken off the front of a buffer. */
  function Drained(buffer: string): Reading
    decreases |buffer|
  {
    match Boundary(buffer)
    case None => Reading([], buffer)
    case Some(at) =>
      var rest := Drained(buffer[at + 2..]);
      Reading(Delivered(buffer[..at]) + rest.events, rest.buffer)
  }

  function Consumed(chunks: seq<string>): Reading {
    if chunks == [] then Reading([], "")
    else
      var before := Consumed(chunks[..|chunks| - 1]);
      var now := Drained(before.buffer + Unified(chunks[|chunks| - 1]));
      Reading(before.events + now.events, now.buffer)
  }

  lemma {:induction false} DrainOne(s: string, at: nat)
    requires Boundary(s) == Some(at)
    ensures Drained(s) == Reading(Delivered(s[..at]) + Drained(s[at + 2..]).events, Drained(s[at + 2..]).buffer)
  {
    hide Boundary, Delivered;
  }

  lemma {:induction false} DrainNone(s: string)
    requires Boundary(s).None?
    ensures Drained(s) == Reading([], s)
  {
  }

  /** The inner loop of `consumeSse`: complete records leave the front of the buffer. */
  method DrainBuffer(text: string) returns (events: seq<Event>, buffer: string)
    ensures Reading(events, buffer) == Drained(text)
  {
    hide Boundary, Parsed, Drained;
    events, buffer := [], text;
    var boundary := Boundary(buffer);
    while boundary.Some?
      invariant boundary == Boundary(buffer)
      invariant Drained(text) == Reading(events + Drained(buffer).events, Drained(buffer).buffer)
      decreases |buffer|
    {
      DrainOne(buffer, boundary.value);
      var record := buffer[..boundary.value];
      ghost var rest := buffer[boundary.value + 2..];
      assert events + (Delivered(record) + Drained(rest).events) == (events + Delivered(record)) + Drained(rest).events;
      buffer := buffer[boundary.value + 2..];
      var parsed := ParseSseRecord(record);
      if parsed.Some? {
        events := events + [parsed.value];
      }
      boundary := Boundary(buffer);
    }
    DrainNone(buffer);
  }

  /** `consumeSse`, the chunks being what the reader hands over until it is done. */
  method ConsumeSse(chunks: seq<string>) returns (events: seq<Event>, buffer: string)
    ensures Reading(events, buffer) == Consumed(chunks)
  {
    hide Drained, Unified;
    events, buffer := [], "";
    for i := 0 to |chunks|
      invariant Reading(events, buffer) == Consumed(chunks[..i])
    {
      var more, rest := DrainBuffer(buffer + Unified(chunks[i]));
      events, buffer := events + more, rest;
      assert chunks[..i + 1][..i] == chunks[..i];
    }
    assert chunks[..|chunks|] == chunks;
  }

  // Chunks

  function Concat(chunks: seq<string>): string {
    if chunks == [] then "" else Concat(chunks[..|chunks| - 1]) + chunks[|chunks| - 1]
  }

  function UnifiedChunks(chunks: seq<string>): string {
    if chunks == [] then "" else UnifiedChunks(chunks[..|chunks| - 1]) + Unified(chunks[|chunks| - 1])
  }

  lemma {:induction false} BoundaryIsStable(a: string, b: string)
    requires Boundary(a).Some?
    ensures Boundary(a + b) == Boundary(a)
  {
    if !(a[0] == '\n' && a[1] == '\n') {
      BoundaryIsStable(a[1..], b);
      assert (a + b)[1..] == a[1..] + b;
    }
  }

  /** Draining early and again later delivers what draining once delivers. */
  lemma {:induction false} DrainingInTwoSteps(a: string, b: string)
    ensures Drained(a + b).events == Drained(a).events + Drained(Drained(a).buffer + b).events
    ensures Drained(a + b).buffer == Drained(Drained(a).buffer + b).buffer
    decreases |a|
  {
    hide Boundary, Delivered;
    if Boundary(a).Some? {
      var at := Boundary(a).value;
      var rest := a[at + 2..];
      BoundaryIsStable(a, b);
      assert (a + b)[..at] == a[..at] && (a + b)[at + 2..] == rest + b;
      DrainingInTwoSteps(rest, b);
      var first := Delivered(a[..at]);
      assert Drained(a) == Reading(first + Drained(rest).events, Drained(rest).buffer);
      assert Drained(a + b) == Reading(first + Drained(rest + b).events, Drained(rest + b).buffer);
    }
  }

  /** Only the text matters: however it is cut, the reader delivers the records of the chunks'
      unified texts put together. */
  lemma {:induction false} ReadingIsDraining(chunks: seq<string>)
    ensures Consumed(chunks) == Drained(UnifiedChunks(chunks))
  {
    if chunks != [] {
      var front, last := chunks[..|chunks| - 1], chunks[|chunks| - 1];
      ReadingIsDraining(front);
      DrainingInTwoSteps(UnifiedChunks(front), Unified(last));
    }
  }

  // Line ends

  predicate EndsInCr(s: string) {
    s != "" && s[|s| - 1] == '\r'
  }

  predicate StartsWithLf(s: string) {
    s != "" && s[0] == '\n'
  }

  lemma {:induction false} UnifiedStart(s: string)
    requires s != ""
    ensures StartsWithCrLf(s) ==> Unified(s) == "\n" + Unified(s[2..])
    ensures !StartsWithCrLf(s) ==> Unified(s) == [s[0]] + Unified(s[1..])
  {
  }

  lemma {:induction false} UncutPair(a: string, b: string)
    requires StartsWithCrLf(a) && Unified(a[2..] + b) == Unified(a[2..]) + Unified(b)
    ensures Unified(a + b) == Unified(a) + Unified(b)
  {
    hide Unified;
    UnifiedStart(a);
    UnifiedStart(a + b);
    assert StartsWithCrLf(a + b) && (a + b)[2..] == a[2..] + b;
    assert "\n" + (Unified(a[2..]) + Unified(b)) == ("\n" + Unified(a[2..])) + Unified(b);
  }

  lemma {:induction false} UncutCharacter(a: string, b: string)
    requires a != "" && !StartsWithCrLf(a) && !StartsWithCrLf(a + b)
    requires Unified(a[1..] + b) == Unified(a[1..]) + Unified(b)
    ensures Unified(a + b) == Unified(a) + Unified(b)
  {
    hide Unified, StartsWithCrLf;
    UnifiedStart(a);
    UnifiedStart(a + b);
    assert (a + b)[0] == a[0] && (a + b)[1..] == a[1..] + b;
    assert [a[0]] + (Unified(a[1..]) + Unified(b)) == ([a[0]] + Unified(a[1..])) + Unified(b);
  }

  lemma {:induction false} UnifyingUncut(a: string, b: string)
    requires !(EndsInCr(a) && StartsWithLf(b))
    ensures Unified(a + b) == Unified(a) + Unified(b)
    decreases |a|
  {
    if a == "" {
      assert a + b == b && Unified(a) == "";
    } else {
      hide Unified;
      if StartsWithCrLf(a) {
        UnifyingUncut(a[2..], b);
        UncutPair(a, b);
      } else {
        UnifyingUncut(a[1..], b);
        UncutCharacter(a, b);
      }
    }
  }

  lemma {:induction false} UnifyingCut(a: string, b: string)
    requires EndsInCr(a) && StartsWithLf(b)
    ensures |Unified(a) + Unified(b)| == |Unified(a + b)| + 1
  {
    var front, pair := a[..|a| - 1], "\r" + b;
    assert a == front + "\r" && a + b == front + pair;
    UnifyingUncut(front, "\r");
    UnifyingUncut(front, pair);
    assert pair[2..] == b[1..];
  }

  /** Unifying two parts is unifying the whole exactly when no CRLF pair is cut apart; a cut pair
      leaves a stray CR. */
  lemma {:induction false} UnifyingParts(a: string, b: string)
    ensures |Unified(a) + Unified(b)| == |Unified(a + b)| + if EndsInCr(a) && StartsWithLf(b) then 1 else 0
    ensures Unified(a + b) == Unified(a) + Unified(b) <==> !(EndsInCr(a) && StartsWithLf(b))
  {
    if EndsInCr(a) && StartsWithLf(b) {
      UnifyingCut(a, b);
    } else {
      UnifyingUncut(a, b);
    }
  }

  /** Some chunk begins with the LF of a CRLF pair whose CR came before. */
  predicate CutsACrLf(chunks: seq<string>) {
    && chunks != []
    && (|| CutsACrLf(chunks[..|chunks| - 1])
        || (EndsInCr(Concat(chunks[..|chunks| - 1])) && StartsWithLf(chunks[|chunks| - 1])))
  }

  lemma {:induction false} CutsLengthen(chunks: seq<string>)
    ensures |UnifiedChunks(chunks)| >= |Unified(Concat(chunks))|
    ensures |UnifiedChunks(chunks)| == |Unified(Concat(chunks))| <==> !CutsACrLf(chunks)
    ensures UnifiedChunks(chunks) == Unified(Concat(chunks)) <==> !CutsACrLf(chunks)
  {
    if chunks != [] {
      var front, last := chunks[..|chunks| - 1], chunks[|chunks| - 1];
      CutsLengthen(front);
      UnifyingParts(Concat(front), last);
    }
  }

  /** The reader treats a stream of any line ends as if it had come in one chunk, left-over text
      included, provided no chunk begins in the middle of a CRLF pair. */
  lemma {:induction false} UncutChunksReadAlike(chunks: seq<string>)
    requires !CutsACrLf(chunks)
    ensures Consumed(chunks) == Consumed([Concat(chunks)])
  {
    ReadingIsDraining(chunks);
    CutsLengthen(chunks);
    ReadingIsDraining([Concat(chunks)]);
    assert UnifiedChunks([Concat(chunks)]) == Unified(Concat(chunks));
  }

  /** Without that proviso a record can go missing: here its end is never recognised. */
  lemma {:induction false} CutCrLfLosesAnEvent()
    ensures exists chunks :: CutsACrLf(chunks) && Consumed(chunks) != Consumed([Concat(chunks)])
  {
    hide Unified, Consumed, Drained;
    var chunks := ["data:\r\n\r", "\n"];
    ReadingIsDraining(chunks);
    ReadingIsDraining([Concat(chunks)]);
    TwoChunks(chunks[0], chunks[1]);
    UnifiedPieces();
    UnifiedReadings();
    assert CutsACrLf(chunks);
  }

  lemma {:induction false} TwoChunks(a: string, b: string)
    ensures Concat([a, b]) == a + b && Concat([a, b][..1]) == a
    ensures UnifiedChunks([a, b]) == Unified(a) + Unified(b)
    ensures UnifiedChunks([a + b]) == Unified(a + b)
  {
    assert [a, b][..1] == [a] && [a][..0] == [] && [a + b][..0] == [];
    assert Concat([a]) == a && UnifiedChunks([a]) == Unified(a);
  }

  lemma {:induction false} UnifiedReadings()
    ensures Drained("data:\n\r\n").buffer == "data:\n\r\n"
    ensures Drained("data:\n\n").buffer == ""
  {
    NoBlankLine("data:\n\r\n");
    BoundaryAfterLine("data:", "");
    assert "data:" + "\n\n" + "" == "data:\n\n";
    assert "data:\n\n"[7..] == "";
  }

  lemma {:induction false} UnifiedPieces()
    ensures Unified("data:\r\n\r") + Unified("\n") == "data:\n\r\n"
    ensures Unified("data:\r\n\r" + "\n") == "data:\n\n"
  {
    hide Unified;
    UnifiedEnds();
    UnifyingUncut("data:", "\r\n\r");
    UnifyingUncut("data:", "\r\n\r\n");
    WithoutCrNothingIsReplaced("data:");
    assert "data:" + "\r\n\r" == "data:\r\n\r" && "data:" + "\r\n\r\n" == "data:\r\n\r" + "\n";
  }

  lemma {:induction false} UnifiedEnds()
    ensures Unified("\n") == "\n" && Unified("\r\n\r") == "\n\r" && Unified("\r\n\r\n") == "\n\n"
  {
    assert "\r\n\r"[2..] == "\r" && "\r\n\r\n"[2..] == "\r\n";
  }

  lemma {:induction false} NoBlankLine(s: string)
    requires forall i | 0 < i < |s| :: !(s[i - 1] == '\n' && s[i] == '\n')
    ensures Boundary(s).None?
  {
    if |s| >= 2 {
      assert !(s[0] == '\n' && s[1] == '\n');
      NoBlankLine(s[1..]);
    }
  }

  lemma {:induction false} WithoutCrNothingIsCut(chunks: seq<string>)
    requires '\r' !in Concat(chunks)
    ensures !CutsACrLf(chunks)
  {
    if chunks != [] {
      WithoutCrNothingIsCut(chunks[..|chunks| - 1]);
    }
  }

  lemma {:induction false} WithoutCrNothingIsReplaced(s: string)
    requires '\r' !in s
    ensures Unified(s) == s
  {
    if s != "" {
      WithoutCrNothingIsReplaced(s[1..]);
    }
  }

  /** For text without CR the outcome depends on the text alone. */
  lemma {:induction false} CrFreeChunking(chunks: seq<string>)
    requires '\r' !in Concat(chunks)
    ensures Consumed(chunks) == Drained(Concat(chunks))
  {
    WithoutCrNothingIsCut(chunks);
    WithoutCrNothingIsReplaced(Concat(chunks));
    CutsLengthen(chunks);
    ReadingIsDraining(chunks);
  }

  // The round trip

  lemma {:induction false} LineOf(a: string, b: string)
    requires '\n' !in a
    ensures Lines(a) == [a]
    ensures Lines(a + "\n" + b) == [a] + Lines(b)
  {
    var s := a + "\n" + b;
    assert s[|a|] == '\n';
    assert LineLength(s) == |a| && LineLength(a) == |a|;
    assert s[..|a|] == a && s[|a| + 1..] == b;
  }

  lemma {:induction false} BoundaryAfterLine(a: string, b: string)
    requires '\n' !in a
    ensures Boundary(a + "\n\n" + b) == Some(|a|)
    ensures !StartsWithLf(b) && Boundary(b).Some? ==> Boundary(a + "\n" + b) == Some(|a| + 1 + Boundary(b).value)
  {
    if a == "" {
      assert ("\n" + b)[1..] == b;
    } else {
      BoundaryAfterLine(a[1..], b);
      assert (a + "\n\n" + b)[1..] == a[1..] + "\n\n" + b;
      assert (a + "\n" + b)[1..] == a[1..] + "\n" + b;
    }
  }

  lemma {:induction false} FieldIsRead(value: string)
    requires OneLine(value)
    ensures Trim(IsJsSpace, " " + value) == value
  {
    TrimDropsSpace(IsJsSpace, ' ', value);
    TrimmedIsFixed(IsJsSpace, value);
  }

  function Head(event: Event): string {
    "event: " + event.name
  }

  function Tail(event: Event): string {
    "data: " + event.data
  }

  lemma {:induction false} HeadIsRead(event: Event)
    requires OneLine(event.name)
    ensures NameIn([Head(event)]) == event.name && DataIn([Head(event)]) == [] && '\n' !in Head(event)
  {
    hide Trim;
    var head := Head(event);
    FieldIsRead(event.name);
    assert head[..6] == "event:" && head[6..] == " " + event.name;
    assert !("data:" <= head) by {
      assert head[0] != "data:"[0];
    }
    assert DataIn([]) == [] && [head] == [] + [head];
  }

  lemma {:induction false} TailIsRead(event: Event, head: string)
    requires OneLine(event.data)
    ensures DataIn([head, Tail(event)]) == DataIn([head]) + [event.data]
    ensures NameIn([head, Tail(event)]) == NameIn([head]) && '\n' !in Tail(event)
  {
    hide Trim;
    var tail := Tail(event);
    FieldIsRead(event.data);
    assert tail[..5] == "data:" && tail[5..] == " " + event.data;
    assert !("event:" <= tail) by {
      assert tail[0] != "event:"[0];
    }
    assert [head, tail][..1] == [head];
  }

  lemma {:induction false} RecordIsParsed(event: Event)
    requires OneLine(event.name) && OneLine(event.data)
    ensures Parsed(Head(event) + "\n" + Tail(event)) == Some(event)
  {
    hide OneLine, Head, Tail, DataIn, NameIn;
    var head, tail := Head(event), Tail(event);
    HeadIsRead(event);
    TailIsRead(event, head);
    LineOf(head, tail);
    LineOf(tail, "");
    assert [head] + [tail] == [head, tail];
  }

  lemma {:induction false} RecordText(event: Event, rest: string)
    ensures Record(event) + rest == Head(event) + "\n" + (Tail(event) + "\n\n" + rest)
    ensures var s, at := Record(event) + rest, |Head(event)| + 1 + |Tail(event)|;
      at + 2 <= |s| && s[..at] == Head(event) + "\n" + Tail(event) && s[at + 2..] == rest
  {
  }

  lemma {:induction false} RecordEnds(event: Event, rest: string)
    requires OneLine(event.name) && OneLine(event.data)
    ensures Boundary(Record(event) + rest) == Some(|Head(event)| + 1 + |Tail(event)|)
  {
    hide Boundary, Record, DataIn, NameIn;
    HeadIsRead(event);
    TailIsRead(event, "");
    BoundaryAfterLine(Tail(event), rest);
    BoundaryAfterLine(Head(event), Tail(event) + "\n\n" + rest);
    RecordText(event, rest);
  }

  lemma {:induction false} RecordIsTaken(event: Event, rest: string)
    requires OneLine(event.name) && OneLine(event.data)
    ensures Drained(Record(event) + rest)
         == Reading([event] + Drained(rest).events, Drained(rest).buffer)
  {
    hide Parsed, Boundary, Drained, Record, Head, Tail, OneLine;
    RecordText(event, rest);
    RecordEnds(event, rest);
    DrainOne(Record(event) + rest, |Head(event)| + 1 + |Tail(event)|);
    RecordIsParsed(event);
  }

  lemma {:induction false} StreamHasNoCr(events: seq<Event>)
    requires Printable(events)
    ensures '\r' !in Stream(events)
  {
    if events != [] {
      StreamHasNoCr(events[1..]);
    }
  }

  lemma {:induction false} StreamIsDrained(events: seq<Event>)
    requires Printable(events)
    ensures Drained(Stream(events)) == Reading(events, "")
  {
    hide Record, OneLine, Boundary;
    if events != [] {
      StreamIsDrained(events[1..]);
      RecordIsTaken(events[0], Stream(events[1..]));
      assert events == [events[0]] + events[1..];
    }
  }

  /** The round trip: whatever the server prints, cut into chunks anywhere, the page gets exactly
      the events printed, in order, and nothing is left over. */
  lemma {:induction false} StreamRoundTrip(events: seq<Event>, chunks: seq<string>)
    requires Printable(events)
    requires Concat(chunks) == Stream(events)
    ensures Consumed(chunks) == Reading(events, "")
  {
    StreamIsDrained(events);
    StreamHasNoCr(events);
    CrFreeChunking(chunks);
  }

  /** A stream cut short delivers the records that are complete and no part of the next. */
  lemma {:induction false} TruncatedStream(events: seq<Event>, rest: string, chunks: seq<string>)
    requires Printable(events)
    requires '\r' !in rest && Boundary(rest).None?
    requires Concat(chunks) == Stream(events) + rest
    ensures Consumed(chunks) == Reading(events, rest)
  {
    StreamIsDrained(events);
    StreamHasNoCr(events);
    CrFreeChunking(chunks);
    DrainingInTwoSteps(Stream(events), rest);
    assert "" + rest == rest;
  }
}
