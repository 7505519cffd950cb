/** Chunks of a stream whose lines end in CRLF. The page unifies line ends chunk by chunk, so a pair
    that is cut apart leaves a stray CR; this module says exactly when that costs an event. */
module LineEnds {
  import opened Text
  import opened Sse

  // The reader, line by line

  function DeliveredLines(record: seq<string>): seq<Event> {
    if DataIn(record) == [] then [] else [Event(NameIn(record), Joined(DataIn(record)))]
  }

  /** What the reader delivers for the lines of a text, `record` being the lines of the record it is
      in. The last line is not finished; an empty line that is not the record's first ends it. */
  function Folded(record: seq<string>, lines: seq<string>): seq<Event>
    decreases |lines|
  {
    if |lines| <= 1 then []
    else if record != [] && lines[0] == "" then DeliveredLines(record) + Folded([], lines[1..])
    else Folded(record + [lines[0]], lines[1..])
  }

  function Terminated(record: seq<string>): string {
    if record == [] then "" else record[0] + "\n" + Terminated(record[1..])
  }

  predicate Filled(record: seq<string>) {
    forall i | 0 <= i < |record| :: record[i] != "" && '\n' !in record[i]
  }

  /** Lines that a record may begin with: only the first may be empty. */
  predicate Open(record: seq<string>) {
    record != [] ==> '\n' !in record[0] && Filled(record[1..])
  }

  lemma {:induction false} BoundaryPast(a: string, b: string)
    requires '\n' !in a && !StartsWithLf(b)
    ensures Boundary(a + "\n" + b)
         == match Boundary(b) case None => None case Some(at) => Some(|a| + 1 + at)
  {
    if a == "" {
      assert ("" + "\n" + b)[1..] == b;
    } else {
      BoundaryPast(a[1..], b);
      assert (a + "\n" + b)[1..] == a[1..] + "\n" + b;
    }
  }

  lemma {:induction false} FilledStart(record: seq<string>, x: string)
    requires Filled(record) && (record == [] ==> !StartsWithLf(x))
    ensures !StartsWithLf(Terminated(record) + x)
  {
  }

  lemma {:induction false} NoBoundaryInside(record: seq<string>, x: string)
    requires Open(record) && '\n' !in x
    ensures Boundary(Terminated(record) + x).None?
  {
    hide Boundary;
    if record == [] {
      assert Terminated(record) + x == x;
      WithoutLfNoBoundary(x);
    } else {
      var rest := Terminated(record[1..]) + x;
      NoBoundaryInside(record[1..], x);
      FilledStart(record[1..], x);
      BoundaryPast(record[0], rest);
      assert Terminated(record) + x == record[0] + "\n" + rest;
    }
  }

  lemma {:induction false} WithoutLfNoBoundary(x: string)
    requires '\n' !in x
    ensures Boundary(x).None?
  {
    if |x| >= 2 {
      WithoutLfNoBoundary(x[1..]);
    }
  }

  lemma {:induction false} BoundaryAfterRecord(record: seq<string>, y: string)
    requires Open(record) && record != []
    ensures |Terminated(record)| >= 1
    ensures Boundary(Terminated(record) + "\n" + y) == Some(|Terminated(record)| - 1)
  {
    hide Boundary;
    var rest := record[1..];
    if rest == [] {
      assert Terminated(record) == record[0] + "\n";
      BoundaryAfterLine(record[0], y);
      assert Terminated(record) + "\n" + y == record[0] + "\n\n" + y;
    } else {
      BoundaryAfterRecord(rest, y);
      FilledStart(rest, "\n" + y);
      BoundaryPast(record[0], Terminated(rest) + ("\n" + y));
      assert Terminated(rest) + ("\n" + y) == Terminated(rest) + "\n" + y;
      assert Terminated(record) + "\n" + y == record[0] + "\n" + (Terminated(rest) + ("\n" + y));
    }
  }

  lemma {:induction false} TerminatedIsJoined(record: seq<string>)
    requires record != []
    ensures Terminated(record) == Joined(record) + "\n"
  {
    if |record| == 1 {
      assert record[1..] == [] && Terminated(record) == record[0] + "\n" + "";
    } else {
      TerminatedIsJoined(record[1..]);
      assert record[0] + "\n" + (Joined(record[1..]) + "\n") == (record[0] + "\n" + Joined(record[1..])) + "\n";
    }
  }

  lemma {:induction false} LinesOfJoined(record: seq<string>)
    requires Open(record) && record != []
    ensures Lines(Joined(record)) == record
  {
    hide Lines;
    if |record| == 1 {
      LineOf(record[0], "");
    } else {
      LinesOfJoined(record[1..]);
      LineOf(record[0], Joined(record[1..]));
      assert [record[0]] + record[1..] == record;
    }
  }

  lemma {:induction false} TerminatedOneMore(record: seq<string>, line: string)
    ensures Terminated(record + [line]) == Terminated(record) + line + "\n"
  {
    if record == [] {
      assert Terminated([line]) == line + "\n" + "";
    } else {
      TerminatedOneMore(record[1..], line);
      assert (record + [line])[1..] == record[1..] + [line];
    }
  }

  lemma {:induction false} FirstLine(x: string)
    requires LineLength(x) < |x|
    ensures var line, rest := x[..LineLength(x)], x[LineLength(x) + 1..];
      x == line + "\n" + rest && Lines(x) == [line] + Lines(rest) && '\n' !in line
  {
  }

  /** Reading a text delivers what reading its lines delivers. */
  lemma {:induction false} ReadingIsByLines(record: seq<string>, x: string)
    requires Open(record)
    ensures Drained(Terminated(record) + x).events == Folded(record, Lines(x))
    decreases |x|
  {
    hide *;
    if LineLength(x) == |x| {
      NothingFinished(record, x);
    } else {
      var line, rest := x[..LineLength(x)], x[LineLength(x) + 1..];
      FirstLine(x);
      if record != [] && line == "" {
        NothingTerminated(rest);
        ReadingIsByLines([], rest);
        BlankLineEnds(record, rest);
        assert x == "\n" + rest;
      } else {
        OpenOneMore(record, line);
        ReadingIsByLines(record + [line], rest);
        LineJoins(record, line, rest);
      }
    }
  }

  lemma {:induction false} NothingFinished(record: seq<string>, x: string)
    requires Open(record) && LineLength(x) == |x|
    ensures Drained(Terminated(record) + x).events == Folded(record, Lines(x))
  {
    hide Terminated, Boundary, Drained, Open, Lines, LineLength;
    OnlyLine(x);
    NoBoundaryInside(record, x);
    DrainNone(Terminated(record) + x);
  }

  lemma {:induction false} BlankLineEnds(record: seq<string>, rest: string)
    requires Open(record) && record != []
    requires Drained(rest).events == Folded([], Lines(rest))
    ensures Drained(Terminated(record) + ("\n" + rest)).events == Folded(record, [""] + Lines(rest))
  {
    hide Terminated, Drained, Open, Lines, DeliveredLines;
    RecordEndsHere(record, rest);
    assert Terminated(record) + ("\n" + rest) == Terminated(record) + "\n" + rest;
    assert ([""] + Lines(rest))[1..] == Lines(rest);
  }

  lemma {:induction false} LineJoins(record: seq<string>, line: string, rest: string)
    requires record == [] || line != ""
    requires Drained(Terminated(record + [line]) + rest).events == Folded(record + [line], Lines(rest))
    ensures Drained(Terminated(record) + (line + "\n" + rest)).events == Folded(record, [line] + Lines(rest))
  {
    hide Terminated, Drained, Lines, DeliveredLines;
    TerminatedOneMore(record, line);
    assert Terminated(record) + (line + "\n" + rest) == Terminated(record + [line]) + rest;
    assert ([line] + Lines(rest))[1..] == Lines(rest);
  }

  lemma {:induction false} OnlyLine(x: string)
    requires LineLength(x) == |x|
    ensures Lines(x) == [x] && '\n' !in x
  {
    assert x[..|x|] == x;
  }

  lemma {:induction false} NothingTerminated(x: string)
    ensures Open([]) && Terminated([]) + x == x
  {
  }

  lemma {:induction false} OpenOneMore(record: seq<string>, line: string)
    requires Open(record) && '\n' !in line && (record == [] || line != "")
    ensures Open(record + [line])
  {
    if record != [] {
      assert (record + [line])[1..] == record[1..] + [line];
    }
  }

  lemma {:induction false} RecordEndsHere(record: seq<string>, rest: string)
    requires Open(record) && record != []
    ensures Drained(Terminated(record) + "\n" + rest).events == DeliveredLines(record) + Drained(rest).events
  {
    hide Boundary, Drained, Open;
    var s, at := Terminated(record) + "\n" + rest, |Terminated(record)| - 1;
    BoundaryAfterRecord(record, rest);
    TerminatedIsJoined(record);
    LinesOfJoined(record);
    DrainOne(s, at);
    assert s[..at] == Joined(record) && s[at + 2..] == rest;
  }

  // Stray CRs

  /** A line, or that line with a stray CR. */
  predicate Stray(line: string, other: string) {
    other == line || other == line + "\r"
  }

  /** The same lines but for stray CRs at the ends of finished ones. */
  predicate Strayed(a: seq<string>, b: seq<string>) {
    && |a| == |b| >= 1 && a[|a| - 1] == b[|a| - 1]
    && forall i | 0 <= i < |a| - 1 :: Stray(a[i], b[i])
  }

  /** No empty line after the first has one. */
  predicate Harmless(a: seq<string>, b: seq<string>)
    requires |a| == |b|
  {
    forall i | 1 <= i < |a| - 1 :: a[i] == "" ==> b[i] == ""
  }

  lemma {:induction false} TrimDropsLast(space: char -> bool, s: string, c: char)
    requires space(c)
    ensures Trim(space, s + [c]) == Trim(space, s)
  {
    if s == "" {
      assert (s + [c])[1..] == "";
    } else if space(s[0]) {
      TrimDropsLast(space, s[1..], c);
      assert (s + [c])[1..] == s[1..] + [c];
    } else {
      assert (s + [c])[..|s|] == s;
    }
  }

  lemma {:induction false} StrayField(field: string, line: string, other: string)
    requires Stray(line, other) && '\r' !in field
    ensures field <= line <==> field <= other
    ensures field <= line ==> Trim(IsJsSpace, line[|field|..]) == Trim(IsJsSpace, other[|field|..])
  {
    hide Trim;
    if other != line {
      assert other[|other| - 1] == '\r';
      assert field <= other ==> |field| < |other|;
      if field <= line {
        TrimDropsLast(IsJsSpace, line[|field|..], '\r');
        assert other[|field|..] == line[|field|..] + "\r";
      }
    }
  }

  predicate StrayedRecord(a: seq<string>, b: seq<string>) {
    |a| == |b| && forall i | 0 <= i < |a| :: Stray(a[i], b[i])
  }

  /** The page trims a stray CR away. */
  lemma {:induction false} SameRecord(a: seq<string>, b: seq<string>)
    requires StrayedRecord(a, b)
    ensures NameIn(a) == NameIn(b) && DataIn(a) == DataIn(b)
  {
    if a != [] {
      SameRecord(a[..|a| - 1], b[..|b| - 1]);
      StrayField("event:", a[|a| - 1], b[|b| - 1]);
      StrayField("data:", a[|a| - 1], b[|b| - 1]);
    }
  }

  lemma {:induction false} RestIsStrayed(a: seq<string>, b: seq<string>)
    requires Strayed(a, b) && Harmless(a, b) && |a| > 1
    ensures Strayed(a[1..], b[1..]) && Harmless(a[1..], b[1..])
  {
    hide Stray;
    forall i | 0 <= i < |a| - 2
      ensures Stray(a[1..][i], b[1..][i])
    {
      assert Stray(a[i + 1], b[i + 1]);
    }
  }

  lemma {:induction false} SameEvents(r: seq<string>, q: seq<string>, a: seq<string>, b: seq<string>)
    requires StrayedRecord(r, q) && Strayed(a, b) && Harmless(a, b)
    requires |a| > 1 && r != [] && a[0] == "" ==> b[0] == ""
    ensures Folded(r, a) == Folded(q, b)
    decreases |a|
  {
    hide NameIn, DataIn;
    if |a| > 1 {
      assert Stray(a[0], b[0]);
      RestIsStrayed(a, b);
      if r != [] && a[0] == "" {
        SameRecord(r, q);
        SameEvents([], [], a[1..], b[1..]);
      } else {
        SameEvents(r + [a[0]], q + [b[0]], a[1..], b[1..]);
      }
    }
  }

  // Chunks

  /** Some chunk begins with the LF of a pair whose CR came before, directly after another LF: the
      end of a blank line is cut apart. */
  predicate CutsABlankLine(chunks: seq<string>) {
    && chunks != []
    && var before := Concat(chunks[..|chunks| - 1]);
       || CutsABlankLine(chunks[..|chunks| - 1])
       || (&& EndsInCr(before) && StartsWithLf(chunks[|chunks| - 1])
           && |before| >= 2 && before[|before| - 2] == '\n')
  }

  lemma {:induction false} LinesOfConcat(v: string, w: string)
    ensures var a, b := Lines(v), Lines(w);
      Lines(v + w) == a[..|a| - 1] + [a[|a| - 1] + b[0]] + b[1..]
    decreases |v|
  {
    hide Lines, LineLength;
    if LineLength(v) == |v| {
      OnlyLine(v);
      LineOfFront(v, w);
    } else {
      var line, rest := v[..LineLength(v)], v[LineLength(v) + 1..];
      FirstLine(v);
      LinesOfConcat(rest, w);
      LineOf(line, rest + w);
      assert v + w == line + "\n" + (rest + w);
      var front := Lines(rest)[..|Lines(rest)| - 1];
      assert Lines(v)[..|Lines(v)| - 1] == [line] + front;
    }
  }

  lemma {:induction false} LineOfFront(v: string, w: string)
    requires '\n' !in v
    ensures Lines(v + w) == [v + Lines(w)[0]] + Lines(w)[1..]
  {
    hide Lines, LineLength;
    if LineLength(w) == |w| {
      OnlyLine(w);
      LineOf(v + w, "");
    } else {
      FirstLine(w);
      var line, rest := w[..LineLength(w)], w[LineLength(w) + 1..];
      LineOf(v + line, rest);
      assert v + w == (v + line) + "\n" + rest;
    }
  }

  lemma {:induction false} LastLine(s: string)
    ensures Lines(s)[|Lines(s)| - 1] == "" && |Lines(s)| >= 2 <==> s != "" && s[|s| - 1] == '\n'
    decreases |s|
  {
    hide Lines, LineLength;
    if LineLength(s) == |s| {
      OnlyLine(s);
    } else {
      var rest := s[LineLength(s) + 1..];
      FirstLine(s);
      LastLine(rest);
      if LineLength(rest) == |rest| {
        OnlyLine(rest);
      } else {
        FirstLine(rest);
      }
    }
  }

  lemma {:induction false} UnifiedKeepsLast(s: string)
    requires s != ""
    ensures Unified(s) != "" && Unified(s)[|Unified(s)| - 1] == s[|s| - 1]
    decreases |s|
  {
    var n := if StartsWithCrLf(s) then 2 else 1;
    if n < |s| {
      UnifiedKeepsLast(s[n..]);
    } else {
      assert s[n..] == "" && Unified(s[n..]) == "";
    }
  }

  /** The CR of a pair that is cut apart, and what the two parts are made into. */
  lemma {:induction false} CutPair(before: string, chunk: string) returns (head: string, tail: string)
    requires EndsInCr(before) && StartsWithLf(chunk)
    ensures before == head + "\r" && chunk == "\n" + tail
    ensures Unified(before) == Unified(head) + "\r" && Unified(chunk) == "\n" + Unified(tail)
    ensures Unified(before + chunk) == Unified(head) + "\n" + Unified(tail)
  {
    hide Unified;
    head, tail := before[..|before| - 1], chunk[1..];
    UnifyingUncut(head, "\r");
    UnifyingUncut(head, "\r" + chunk);
    UnifyingUncut("\n", tail);
    OneCharacter();
    PairThen(tail);
    assert before + chunk == head + ("\r" + chunk) && "\r" + chunk == "\r\n" + tail;
    assert Unified(head) + ("\n" + Unified(tail)) == Unified(head) + "\n" + Unified(tail);
  }

  lemma {:induction false} OneCharacter()
    ensures Unified("\r") == "\r" && Unified("\n") == "\n"
  {
  }

  lemma {:induction false} PairThen(tail: string)
    ensures Unified("\r\n" + tail) == "\n" + Unified(tail)
  {
    assert ("\r\n" + tail)[2..] == tail;
  }

  /** `a`'s last line ends where the other text goes on. */
  function Glued(a: seq<string>, w: seq<string>): seq<string>
    requires a != [] && w != []
  {
    a[..|a| - 1] + [a[|a| - 1] + w[0]] + w[1..]
  }

  lemma {:induction false} GluingKeeps(a: seq<string>, b: seq<string>, w: seq<string>)
    requires Strayed(a, b) && w != []
    ensures Strayed(Glued(a, w), Glued(b, w))
    ensures Harmless(Glued(a, w), Glued(b, w)) <==> Harmless(a, b)
  {
    var x, y := Glued(a, w), Glued(b, w);
    assert forall i | |a| - 1 <= i < |x| :: x[i] == y[i];
    forall i | 0 <= i < |x| - 1
      ensures Stray(x[i], y[i])
    {
      if i < |a| - 1 {
        assert x[i] == a[i] && y[i] == b[i] && Stray(a[i], b[i]);
      }
    }
    if Harmless(x, y) {
      forall i | 1 <= i < |a| - 1 && a[i] == ""
        ensures b[i] == ""
      {
        assert x[i] == a[i] && y[i] == b[i];
      }
    }
  }

  /** The two sides of a cut pair: `c` are the lines up to it, its last one still unfinished. */
  lemma {:induction false} CuttingStrays(c: seq<string>, a: seq<string>, b: seq<string>, w: seq<string>)
    requires c != [] && w != [] && Strayed(a, b)
    requires a == c[..|c| - 1] + [c[|c| - 1] + "\r"]
    ensures Strayed(c + w, b + w)
    ensures Harmless(c + w, b + w) <==> Harmless(a, b) && !(c[|c| - 1] == "" && |c| >= 2)
  {
    var x, y, last := c + w, b + w, |c| - 1;
    assert |a| == |c| && b[last] == c[last] + "\r";
    forall i | 0 <= i < |x| - 1
      ensures Stray(x[i], y[i])
    {
      if i < last {
        assert Stray(a[i], b[i]) && x[i] == a[i] && y[i] == b[i];
      }
    }
    assert x[last] == c[last] && y[last] == b[last] != "";
    if Harmless(x, y) {
      forall i | 1 <= i < |a| - 1 && a[i] == ""
        ensures b[i] == ""
      {
        assert x[i] == a[i] && y[i] == b[i];
      }
      assert c[last] == "" && last >= 1 ==> false;
    }
  }

  /** The lines the page sees are those of the whole text but for stray CRs, and an empty line has
      one exactly when the end of a blank line was cut apart. */
  lemma {:induction false} LinesOfChunks(chunks: seq<string>)
    ensures var a, b := Lines(Unified(Concat(chunks))), Lines(UnifiedChunks(chunks));
      Strayed(a, b) && (Harmless(a, b) <==> !CutsABlankLine(chunks))
  {
    hide Strayed, Harmless, Unified, Lines;
    if chunks == [] {
      NothingStrays();
    } else {
      var front, chunk := chunks[..|chunks| - 1], chunks[|chunks| - 1];
      var before := Concat(front);
      LinesOfChunks(front);
      if EndsInCr(before) && StartsWithLf(chunk) {
        LinesOfCutChunk(before, UnifiedChunks(front), chunk);
      } else {
        UnifyingUncut(before, chunk);
        LinesOfConcat(Unified(before), Unified(chunk));
        LinesOfConcat(UnifiedChunks(front), Unified(chunk));
        GluingKeeps(Lines(Unified(before)), Lines(UnifiedChunks(front)), Lines(Unified(chunk)));
      }
    }
  }

  lemma {:induction false} NothingStrays()
    ensures Strayed(Lines(Unified("")), Lines("")) && Harmless(Lines(Unified("")), Lines(""))
  {
  }

  lemma {:induction false} LinesOfCutChunk(before: string, seen: string, chunk: string)
    requires EndsInCr(before) && StartsWithLf(chunk)
    requires Strayed(Lines(Unified(before)), Lines(seen))
    ensures var a, b := Lines(Unified(before + chunk)), Lines(seen + Unified(chunk));
      && Strayed(a, b)
      && (Harmless(a, b) <==> Harmless(Lines(Unified(before)), Lines(seen))
                              && !(|before| >= 2 && before[|before| - 2] == '\n'))
  {
    hide Strayed, Harmless, Unified, Lines;
    var head, tail := CutPair(before, chunk);
    var c, w := Lines(Unified(head)), Lines(Unified(tail));
    LinesThen(Unified(head), Unified(tail));
    LinesThen(seen, Unified(tail));
    LinesOfConcat(Unified(head), "\r");
    LineOf("\r", "");
    assert Lines(Unified(before)) == c[..|c| - 1] + [c[|c| - 1] + "\r"];
    CuttingStrays(c, Lines(Unified(before)), Lines(seen), w);
    LastLine(Unified(head));
    if head == "" {
      NothingUnified();
    } else {
      UnifiedKeepsLast(head);
      assert before[|before| - 2] == head[|head| - 1];
    }
  }

  lemma {:induction false} NothingUnified()
    ensures Unified("") == ""
  {
  }

  /** A line end after `v` finishes its last line. */
  lemma {:induction false} LinesThen(v: string, z: string)
    ensures Lines(v + ("\n" + z)) == Lines(v) + Lines(z)
    ensures v + ("\n" + z) == v + "\n" + z
  {
    hide Lines;
    LineOf("", z);
    assert "" + "\n" + z == "\n" + z;
    LinesOfConcat(v, "\n" + z);
    var a := Lines(v);
    var last := a[|a| - 1];
    assert Lines("\n" + z) == [""] + Lines(z) && ([""] + Lines(z))[1..] == Lines(z);
    assert last + "" == last && a[..|a| - 1] + [last] == a;
  }

  /** The page delivers the same events for any chunks as for the whole text, provided the end of no
      blank line is cut apart. */
  lemma {:induction false} ChunksDoNotMatter(chunks: seq<string>)
    requires !CutsABlankLine(chunks)
    ensures Consumed(chunks).events == Consumed([Concat(chunks)]).events
  {
    hide Strayed, Harmless, Unified, Lines, Drained, Consumed, Folded;
    EventsByLines(chunks);
    LinesOfChunks(chunks);
    SameEvents([], [], Lines(Unified(Concat(chunks))), Lines(UnifiedChunks(chunks)));
  }

  lemma {:induction false} EventsByLines(chunks: seq<string>)
    ensures Consumed(chunks).events == Folded([], Lines(UnifiedChunks(chunks)))
    ensures Consumed([Concat(chunks)]).events == Folded([], Lines(Unified(Concat(chunks))))
  {
    hide Unified, Lines, Drained, Consumed, Folded;
    ReadingIsDraining(chunks);
    ReadingIsDraining([Concat(chunks)]);
    OneChunk(Concat(chunks));
    NothingTerminated(UnifiedChunks(chunks));
    NothingTerminated(Unified(Concat(chunks)));
    ReadingIsByLines([], UnifiedChunks(chunks));
    ReadingIsByLines([], Unified(Concat(chunks)));
  }

  lemma {:induction false} OneChunk(text: string)
    ensures UnifiedChunks([text]) == Unified(text)
  {
    assert [text][..0] == [];
  }

  // The converse

  /** The lines of a stream of records, each with a data line, each followed by exactly one blank line. */
  predicate Framed(record: seq<string>, lines: seq<string>)
    decreases |lines|
  {
    if |lines| <= 1 then record == []
    else if lines[0] == "" then DataIn(record) != [] && Framed([], lines[1..])
    else Framed(record + [lines[0]], lines[1..])
  }

  /** How many finished lines are empty. */
  function Blanks(lines: seq<string>): nat {
    if |lines| <= 1 then 0 else (if lines[0] == "" then 1 else 0) + Blanks(lines[1..])
  }

  lemma {:induction false} BlanksBoundEvents(record: seq<string>, lines: seq<string>)
    ensures |Folded(record, lines)| <= Blanks(lines)
    ensures Framed(record, lines) ==> |Folded(record, lines)| == Blanks(lines)
    decreases |lines|
  {
    if |lines| > 1 {
      BlanksBoundEvents([], lines[1..]);
      BlanksBoundEvents(record + [lines[0]], lines[1..]);
    }
  }

  lemma {:induction false} StraysFillBlanks(a: seq<string>, b: seq<string>)
    requires Strayed(a, b)
    ensures Blanks(b) <= Blanks(a)
    ensures (exists i | 0 <= i < |a| - 1 :: a[i] == "" && b[i] != "") ==> Blanks(b) < Blanks(a)
    decreases |a|
  {
    if |a| > 1 {
      forall i | 0 <= i < |a| - 2
        ensures Stray(a[1..][i], b[1..][i])
      {
        assert Stray(a[i + 1], b[i + 1]);
      }
      assert Stray(a[0], b[0]);
      StraysFillBlanks(a[1..], b[1..]);
      if i :| 0 < i < |a| - 1 && a[i] == "" && b[i] != "" {
        assert a[1..][i - 1] == "" && b[1..][i - 1] != "";
      }
    }
  }

  /** For a stream of framed records the proviso is exact: whenever the end of a blank line is cut
      apart, the page delivers fewer events. */
  lemma {:induction false} FramedChunksExactly(chunks: seq<string>)
    requires Framed([], Lines(Unified(Concat(chunks))))
    ensures Consumed(chunks).events == Consumed([Concat(chunks)]).events <==> !CutsABlankLine(chunks)
    ensures CutsABlankLine(chunks) ==> |Consumed(chunks).events| < |Consumed([Concat(chunks)]).events|
  {
    hide Unified, Lines, Consumed, Folded, Framed, Strayed;
    var a, b := Lines(Unified(Concat(chunks))), Lines(UnifiedChunks(chunks));
    if CutsABlankLine(chunks) {
      LinesOfChunks(chunks);
      EventsByLines(chunks);
      BlanksBoundEvents([], a);
      BlanksBoundEvents([], b);
      SameLength(a, b);
      StraysFillBlanks(a, b);
    } else {
      ChunksDoNotMatter(chunks);
    }
  }

  lemma {:induction false} SameLength(a: seq<string>, b: seq<string>)
    requires Strayed(a, b)
    ensures |a| == |b|
  {
  }

  /** What the server prints is such a stream. */
  lemma {:induction false} PrintedIsFramed(events: seq<Event>)
    requires Printable(events)
    ensures Framed([], Lines(Unified(Stream(events))))
  {
    StreamHasNoCr(events);
    WithoutCrNothingIsReplaced(Stream(events));
    StreamIsFramed(events);
  }

  lemma {:induction false} StreamIsFramed(events: seq<Event>)
    requires Printable(events)
    ensures Framed([], Lines(Stream(events)))
  {
    hide OneLine, Head, Tail, DataIn, NameIn, Record, Lines, LineLength;
    if events == [] {
      OnlyNothing();
    } else {
      var event, rest := events[0], Stream(events[1..]);
      StreamIsFramed(events[1..]);
      HeadIsRead(event);
      TailIsRead(event, Head(event));
      RecordText(event, rest);
      FieldsAreNamed(event);
      LineOf("", rest);
      LineOf(Tail(event), "\n" + rest);
      LineOf(Head(event), Tail(event) + "\n\n" + rest);
      assert Tail(event) + "\n" + ("\n" + rest) == Tail(event) + "\n\n" + rest && "" + "\n" + rest == "\n" + rest;
      FramedRecord(Head(event), Tail(event), Lines(rest));
    }
  }

  lemma {:induction false} OnlyNothing()
    ensures Lines("") == [""]
  {
  }

  lemma {:induction false} FieldsAreNamed(event: Event)
    ensures Head(event) != "" && Tail(event) != ""
  {
  }

  lemma {:induction false} FramedRecord(head: string, tail: string, rest: seq<string>)
    requires head != "" && tail != "" && DataIn([head, tail]) != [] && rest != [] && Framed([], rest)
    ensures Framed([], [head] + ([tail] + ([""] + rest)))
  {
    hide DataIn;
    var lines := [head] + ([tail] + ([""] + rest));
    assert lines[1..] == [tail] + ([""] + rest) && lines[1..][1..] == [""] + rest && lines[1..][1..][1..] == rest;
    assert [] + [head] == [head] && [head] + [tail] == [head, tail];
    assert Framed([head, tail], [""] + rest);
    assert Framed([head], [tail] + ([""] + rest));
  }
}
