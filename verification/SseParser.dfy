// The browser's incremental parser of the answer stream, and the frames the server prints.
// JSON.parse and the white space of trim() are given from outside.
module SseParser {
  import opened Options

  datatype Event<J> = Event(name: string, data: J)

  // ---- one block ----

  // text.split('\n')
  function Split(text: string): (lines: seq<string>)
    ensures lines != []
  {
    SplitFrom(text, 0)
  }

  function SplitFrom(text: string, i: nat): (lines: seq<string>)
    requires i <= |text|
    ensures lines != []
    decreases |text| - i
  {
    if i == |text| then [text]
    else if text[i] == '\n' then [text[..i]] + SplitFrom(text[i + 1..], 0)
    else SplitFrom(text, i + 1)
  }

  function Join(lines: seq<string>): string {
    if lines == [] then "" else if |lines| == 1 then lines[0] else lines[0] + "\n" + Join(lines[1..])
  }

  predicate StartsWith(line: string, prefix: string) {
    prefix <= line
  }

  function TrimLeft(s: string, space: char -> bool): string {
    if s != "" && space(s[0]) then TrimLeft(s[1..], space) else s
  }

  function TrimRight(s: string, space: char -> bool): string {
    if s != "" && space(s[|s| - 1]) then TrimRight(s[..|s| - 1], space) else s
  }

  function Trim(s: string, space: char -> bool): string {
    TrimRight(TrimLeft(s, space), space)
  }

  const EVENT := "event:"
  const DATA := "data:"

  // The last event line names the event.
  function NameIn(lines: seq<string>, space: char -> bool): string {
    if lines == [] then "message" else
      var n := |lines| - 1;
      if StartsWith(lines[n], EVENT) then Trim(lines[n][|EVENT|..], space) else NameIn(lines[..n], space)
  }

  function DataIn(lines: seq<string>, space: char -> bool): seq<string> {
    if lines == [] then [] else
      var n := |lines| - 1;
      DataIn(lines[..n], space) +
      if !StartsWith(lines[n], EVENT) && StartsWith(lines[n], DATA) then [Trim(lines[n][|DATA|..], space)] else []
  }

  // ---- a whole text ----

  predicate BlankLineAt(text: string, i: int) {
    0 <= i < |text| - 1 && text[i] == '\n' && text[i + 1] == '\n'
  }

  // text.indexOf('\n\n')
  function IndexOf(text: string): (i: int)
    ensures i == -1 || BlankLineAt(text, i)
    ensures forall j :: BlankLineAt(text, j) ==> 0 <= i <= j
  {
    IndexFrom(text, 0)
  }

  function IndexFrom(text: string, n: nat): (i: int)
    requires n <= |text|
    ensures i == -1 || (n <= i && BlankLineAt(text, i))
    ensures forall j :: BlankLineAt(text, j) && n <= j ==> 0 <= i <= j
    decreases |text| - n
  {
    if n == |text| then -1 else if BlankLineAt(text, n) then n else IndexFrom(text, n + 1)
  }

  // What is delivered, what stays in the buffer, and whether JSON.parse threw.
  datatype Drained<J> = Drained(events: seq<Event<J>>, rest: string, failed: bool)

  function After<J>(events: seq<Event<J>>, d: Drained<J>): Drained<J> {
    d.(events := events + d.events)
  }

  // What one block delivers, or nothing; None means that JSON.parse throws.
  function Block<J>(block: string, parse: string -> Option<J>, space: char -> bool): Option<seq<Event<J>>> {
    var lines := Split(block);
    var data := DataIn(lines, space);
    if data == [] then Some([]) else
      match parse(Join(data))
      case Some(value) => Some([Event(NameIn(lines, space), value)])
      case None => None
  }

  function Drain<J>(text: string, parse: string -> Option<J>, space: char -> bool): Drained<J>
    decreases |text|
  {
    var i := IndexOf(text);
    if i == -1 then Drained([], text, false) else
      match Block(text[..i], parse, space)
      case None => Drained([], text[i + 2..], true)
      case Some(events) => After(events, Drain(text[i + 2..], parse, space))
  }

  function Concat(chunks: seq<string>): string {
    if chunks == [] then "" else Concat(chunks[..|chunks| - 1]) + chunks[|chunks| - 1]
  }

  // ---- the reading loop ----

  method ParseBlock<J>(
    block: string, parse: string -> Option<J>, space: char -> bool) returns (events: seq<Event<J>>, threw: bool)
    ensures Block(block, parse, space) == if threw then None else Some(events)
  {
    var event := "message";
    var dataLines := [];
    var lines := Split(block);
    for i := 0 to |lines|
      invariant event == NameIn(lines[..i], space) && dataLines == DataIn(lines[..i], space)
    {
      var line := lines[i];
      assert lines[..i + 1][..i] == lines[..i];
      if StartsWith(line, EVENT) {
        event := Trim(line[6..], space);
      } else if StartsWith(line, DATA) {
        dataLines := dataLines + [Trim(line[5..], space)];
      }
    }
    assert lines[..|lines|] == lines;
    events, threw := [], false;
    if |dataLines| > 0 {
      var value := parse(Join(dataLines));
      match value
      case Some(v) => events := [Event(event, v)];
      case None => threw := true;
    }
  }

  // The stream read chunk by chunk; an exception from JSON.parse ends it.
  method ReadStream<J>(chunks: seq<string>, parse: string -> Option<J>, space: char -> bool)
    returns (events: seq<Event<J>>, failed: bool)
    ensures Drain(Concat(chunks), parse, space).events == events
    ensures Drain(Concat(chunks), parse, space).failed == failed
  {
    var buffer := "";
    events, failed := [], false;
    for c := 0 to |chunks|
      invariant Drain(Concat(chunks[..c]), parse, space) == Drained(events, buffer, false) && !failed
    {
      assert chunks[..c + 1][..c] == chunks[..c];
      DrainMore(Concat(chunks[..c]), chunks[c], parse, space);
      buffer := buffer + chunks[c];
      var boundary := IndexOf(buffer);
      while boundary != -1
        invariant boundary == IndexOf(buffer) && !failed
        invariant Drain(Concat(chunks[..c + 1]), parse, space) == After(events, Drain(buffer, parse, space))
        decreases |buffer|
      {
        var block := buffer[..boundary];
        buffer := buffer[boundary + 2..];
        var delivered, threw := ParseBlock(block, parse, space);
        if threw {
          failed := true;
          FailedForGood(chunks, c + 1, parse, space);
          return;
        }
        AfterAfter(events, delivered, Drain(buffer, parse, space));
        events := events + delivered;
        boundary := IndexOf(buffer);
      }
    }
    assert chunks[..|chunks|] == chunks;
  }

  lemma AfterAfter<J>(x: seq<Event<J>>, y: seq<Event<J>>, d: Drained<J>)
    ensures After(x, After(y, d)) == After(x + y, d)
  {
    assert x + (y + d.events) == (x + y) + d.events;
  }

  // More text continues from the buffer, unless parsing has already failed.
  lemma {:induction false} DrainMore<J>(text: string, more: string, parse: string -> Option<J>, space: char -> bool)
    ensures var d := Drain(text, parse, space);
            var all := Drain(text + more, parse, space);
            if d.failed then all.events == d.events && all.failed
            else all == After(d.events, Drain(d.rest + more, parse, space))
    decreases |text|
  {
    var i := IndexOf(text);
    if i != -1 {
      assert BlankLineAt(text + more, i);
      forall j | BlankLineAt(text + more, j) ensures i <= j {
        assert j < i ==> BlankLineAt(text, j);
      }
      assert IndexOf(text + more) == i;
      assert (text + more)[..i] == text[..i];
      assert (text + more)[i + 2..] == text[i + 2..] + more;
      DrainMore(text[i + 2..], more, parse, space);
      match Block(text[..i], parse, space)
      case None =>
      case Some(events) =>
        var d := Drain(text[i + 2..], parse, space);
        AfterAfter(events, d.events, Drain(d.rest + more, parse, space));
    } else {
      var d: Drained<J> := Drain(text, parse, space);
      assert d.events == [] && d.rest == text;
    }
  }

  lemma {:induction false} FailedForGood<J>(
    chunks: seq<string>, c: nat, parse: string -> Option<J>, space: char -> bool)
    requires c <= |chunks| && Drain(Concat(chunks[..c]), parse, space).failed
    ensures Drain(Concat(chunks), parse, space).failed
    ensures Drain(Concat(chunks), parse, space).events == Drain(Concat(chunks[..c]), parse, space).events
    decreases |chunks| - c
  {
    if c < |chunks| {
      assert chunks[..c + 1][..c] == chunks[..c];
      DrainMore(Concat(chunks[..c]), chunks[c], parse, space);
      FailedForGood(chunks, c + 1, parse, space);
    } else {
      assert chunks[..c] == chunks;
    }
  }

  // ---- cutting the stream differently ----

  // The parser as a fold over the chunks: buffer, events and failure so far.
  function Received<J>(chunks: seq<string>, parse: string -> Option<J>, space: char -> bool): Drained<J> {
    if chunks == [] then Drained([], "", false) else
      var d := Received(chunks[..|chunks| - 1], parse, space);
      if d.failed then d else After(d.events, Drain(d.rest + chunks[|chunks| - 1], parse, space))
  }

  lemma {:induction false} ReceivedIsDrained<J>(chunks: seq<string>, parse: string -> Option<J>, space: char -> bool)
    ensures var r := Received(chunks, parse, space);
            var d := Drain(Concat(chunks), parse, space);
            r.events == d.events && r.failed == d.failed && (!r.failed ==> r.rest == d.rest)
  {
    if chunks != [] {
      var n := |chunks| - 1;
      ReceivedIsDrained(chunks[..n], parse, space);
      DrainMore(Concat(chunks[..n]), chunks[n], parse, space);
    }
  }

  // The same text in other chunks delivers the same events and fails in the same place.
  lemma CutsDoNotMatter<J>(chunks: seq<string>, others: seq<string>, parse: string -> Option<J>, space: char -> bool)
    requires Concat(chunks) == Concat(others)
    ensures Received(chunks, parse, space).events == Received(others, parse, space).events
    ensures Received(chunks, parse, space).failed == Received(others, parse, space).failed
  {
    ReceivedIsDrained(chunks, parse, space);
    ReceivedIsDrained(others, parse, space);
  }

  // ---- what the server prints ----

  datatype Printed = Printed(id: string, name: string, payload: string)

  function Lines(f: Printed): string {
    ("id: " + f.id) + "\n" + (("event: " + f.name) + "\n" + ("data: " + f.payload))
  }

  function Print(f: Printed): string {
    Lines(f) + "\n\n"
  }

  function PrintAll(frames: seq<Printed>): string {
    if frames == [] then "" else Print(frames[0]) + PrintAll(frames[1..])
  }

  // One line, and nothing for trim() to take away.
  predicate Clean(s: string, space: char -> bool) {
    '\n' !in s && (s != "" ==> !space(s[0]) && !space(s[|s| - 1]))
  }

  predicate Printable(f: Printed, space: char -> bool) {
    '\n' !in f.id && Clean(f.name, space) && Clean(f.payload, space)
  }

  // The frames up to the first that JSON.parse rejects.
  function Expected<J>(frames: seq<Printed>, parse: string -> Option<J>): seq<Event<J>> {
    if frames == [] then [] else
      match parse(frames[0].payload)
      case None => []
      case Some(value) => [Event(frames[0].name, value)] + Expected(frames[1..], parse)
  }

  predicate AllParse<J>(frames: seq<Printed>, parse: string -> Option<J>) {
    forall f :: f in frames ==> parse(f.payload).Some?
  }

  lemma {:induction false} SplitFirst(line: string, rest: string, i: nat)
    requires '\n' !in line && i <= |line|
    ensures SplitFrom(line + "\n" + rest, i) == [line] + Split(rest)
    decreases |line| - i
  {
    var text := line + "\n" + rest;
    if i < |line| {
      assert text[i] == line[i] && line[i] in line;
      SplitFirst(line, rest, i + 1);
    } else {
      assert text[i] == '\n' && text[..i] == line && text[i + 1..] == rest;
    }
  }

  lemma {:induction false} SplitLine(line: string, i: nat)
    requires '\n' !in line && i <= |line|
    ensures SplitFrom(line, i) == [line]
    decreases |line| - i
  {
    if i < |line| {
      assert line[i] in line;
      SplitLine(line, i + 1);
    }
  }

  lemma TrimField(s: string, space: char -> bool)
    requires Clean(s, space) && space(' ')
    ensures Trim(" " + s, space) == s
  {
    assert (" " + s)[1..] == s;
    assert TrimLeft(s, space) == s;
  }

  lemma SplitLines(f: Printed, space: char -> bool)
    requires Printable(f, space)
    ensures Split(Lines(f)) == ["id: " + f.id, "event: " + f.name, "data: " + f.payload]
  {
    var first, second, third := "id: " + f.id, "event: " + f.name, "data: " + f.payload;
    SplitFirst(first, second + "\n" + third, 0);
    SplitFirst(second, third, 0);
    SplitLine(third, 0);
    assert [first] + ([second] + [third]) == [first, second, third];
    assert Lines(f) == first + "\n" + (second + "\n" + third);
  }

  lemma NameOneMore(lines: seq<string>, line: string, space: char -> bool)
    ensures NameIn(lines + [line], space) ==
            if StartsWith(line, EVENT) then Trim(line[|EVENT|..], space) else NameIn(lines, space)
    ensures DataIn(lines + [line], space) ==
            DataIn(lines, space) +
            if !StartsWith(line, EVENT) && StartsWith(line, DATA) then [Trim(line[|DATA|..], space)] else []
  {
    assert (lines + [line])[..|lines|] == lines;
  }

  lemma Prefixes(id: string, name: string, payload: string)
    ensures !StartsWith("id: " + id, EVENT) && !StartsWith("id: " + id, DATA)
    ensures StartsWith("event: " + name, EVENT) && ("event: " + name)[|EVENT|..] == " " + name
    ensures !StartsWith("data: " + payload, EVENT)
    ensures StartsWith("data: " + payload, DATA) && ("data: " + payload)[|DATA|..] == " " + payload
  {
    assert ("id: " + id)[0] == 'i' && ("data: " + payload)[0] == 'd';
  }

  lemma ThreeLines(first: string, second: string, third: string, space: char -> bool)
    requires !StartsWith(first, EVENT) && !StartsWith(first, DATA) && StartsWith(second, EVENT)
    requires !StartsWith(third, EVENT) && StartsWith(third, DATA)
    ensures NameIn([first, second, third], space) == Trim(second[|EVENT|..], space)
    ensures DataIn([first, second, third], space) == [Trim(third[|DATA|..], space)]
  {
    var one, two, three := [first], [first, second], [first, second, third];
    assert three == two + [third] && two == one + [second] && one == [] + [first];
    assert DataIn(one, space) == [] by {
      NameOneMore([], first, space);
    }
    assert NameIn(two, space) == Trim(second[|EVENT|..], space) && DataIn(two, space) == [] by {
      NameOneMore(one, second, space);
    }
    NameOneMore(two, third, space);
  }

  lemma FieldsOf(f: Printed, space: char -> bool)
    requires Printable(f, space) && space(' ')
    ensures NameIn(Split(Lines(f)), space) == f.name && DataIn(Split(Lines(f)), space) == [f.payload]
  {
    SplitLines(f, space);
    Prefixes(f.id, f.name, f.payload);
    ThreeLines("id: " + f.id, "event: " + f.name, "data: " + f.payload, space);
    TrimField(f.name, space);
    TrimField(f.payload, space);
  }

  lemma NewlinesIn(first: string, second: string, third: string, j: nat)
    requires '\n' !in first && '\n' !in second && '\n' !in third
    requires j < |first + "\n" + (second + "\n" + third)|
    ensures (first + "\n" + (second + "\n" + third))[j] == '\n' <==> j == |first| || j == |first| + 1 + |second|
  {
    var text, a, b := first + "\n" + (second + "\n" + third), |first|, |first| + 1 + |second|;
    assert text[j] == if j < a then first[j] else if j == a then '\n' else if j < b then second[j - a - 1]
           else if j == b then '\n' else third[j - b - 1];
    assert j < a ==> first[j] in first;
    assert a < j < b ==> second[j - a - 1] in second;
    assert b < j ==> third[j - b - 1] in third;
  }

  lemma BlankLineEndsFrame(f: Printed, rest: string, space: char -> bool)
    requires Printable(f, space)
    ensures IndexOf(Print(f) + rest) == |Lines(f)|
  {
    var first, second, third := "id: " + f.id, "event: " + f.name, "data: " + f.payload;
    var text, n := Print(f) + rest, |Lines(f)|;
    assert BlankLineAt(text, n);
    forall j: nat | j < n ensures text[j] == '\n' ==> text[j + 1] != '\n' {
      assert text[j] == Lines(f)[j];
      NewlinesIn(first, second, third, j);
      if j + 1 < n {
        assert text[j + 1] == Lines(f)[j + 1];
        NewlinesIn(first, second, third, j + 1);
      }
    }
  }

  lemma DrainFrame<J>(f: Printed, rest: string, parse: string -> Option<J>, space: char -> bool)
    requires Printable(f, space) && space(' ')
    ensures Drain(Print(f) + rest, parse, space) ==
            match parse(f.payload)
            case None => Drained([], rest, true)
            case Some(value) => After([Event(f.name, value)], Drain(rest, parse, space))
  {
    var text := Print(f) + rest;
    BlankLineEndsFrame(f, rest, space);
    assert text[..|Lines(f)|] == Lines(f) && text[|Lines(f)| + 2..] == rest;
    FieldsOf(f, space);
    assert Join([f.payload]) == f.payload;
  }

  // Whatever has been printed is delivered, name and data, in order; a payload that does not
  // parse ends the stream there.
  lemma {:induction false} PrintedIsDelivered<J>(frames: seq<Printed>, parse: string -> Option<J>, space: char -> bool)
    requires space(' ') && forall f :: f in frames ==> Printable(f, space)
    ensures Drain(PrintAll(frames), parse, space).events == Expected(frames, parse)
    ensures Drain(PrintAll(frames), parse, space).failed <==> !AllParse(frames, parse)
  {
    if frames == [] {
      assert IndexOf("") == -1;
    } else {
      assert frames[0] in frames && frames == [frames[0]] + frames[1..];
      DrainFrame(frames[0], PrintAll(frames[1..]), parse, space);
      PrintedIsDelivered(frames[1..], parse, space);
    }
  }

  // A printed stream, cut anyhow on its way, is read as it was printed.
  lemma RoundTrip<J>(frames: seq<Printed>, chunks: seq<string>, parse: string -> Option<J>, space: char -> bool)
    requires space(' ') && Concat(chunks) == PrintAll(frames)
    requires forall f :: f in frames ==> Printable(f, space) && parse(f.payload).Some?
    ensures var r := Received(chunks, parse, space);
            !r.failed && |r.events| == |frames|
            && forall i :: 0 <= i < |frames| ==> r.events[i] == Event(frames[i].name, parse(frames[i].payload).value)
  {
    ReceivedIsDrained(chunks, parse, space);
    PrintedIsDelivered(frames, parse, space);
    ExpectedAt(frames, parse);
  }

  lemma {:induction false} ExpectedAt<J>(frames: seq<Printed>, parse: string -> Option<J>)
    requires AllParse(frames, parse)
    ensures |Expected(frames, parse)| == |frames|
    ensures forall i :: 0 <= i < |frames| ==>
              Expected(frames, parse)[i] == Event(frames[i].name, parse(frames[i].payload).value)
  {
    if frames != [] {
      ExpectedAt(frames[1..], parse);
    }
  }

  // ---- any block, line by line ----

  ghost predicate TrimmedTo(s: string, space: char -> bool, r: string, a: nat, b: nat) {
    && a <= b <= |s| && r == s[a..b]
    && (forall i :: 0 <= i < a || b <= i < |s| ==> space(s[i]))
    && (a < b ==> !space(s[a]) && !space(s[b - 1]))
  }

  ghost predicate IsTrimmed(s: string, space: char -> bool, r: string) {
    exists a, b :: TrimmedTo(s, space, r, a, b)
  }

  lemma {:induction false} LeftTrimmed(s: string, space: char -> bool) returns (a: nat)
    ensures a <= |s| && TrimLeft(s, space) == s[a..] && (a < |s| ==> !space(s[a]))
    ensures forall i :: 0 <= i < a ==> space(s[i])
  {
    if s != "" && space(s[0]) {
      var n := LeftTrimmed(s[1..], space);
      a := n + 1;
      assert s[1..][n..] == s[a..];
      forall i | 0 <= i < a ensures space(s[i]) {
        assert i > 0 ==> s[i] == s[1..][i - 1];
      }
    } else {
      a := 0;
    }
  }

  lemma {:induction false} RightTrimmed(s: string, space: char -> bool) returns (b: nat)
    ensures b <= |s| && TrimRight(s, space) == s[..b] && (b > 0 ==> !space(s[b - 1]))
    ensures forall i :: b <= i < |s| ==> space(s[i])
  {
    if s != "" && space(s[|s| - 1]) {
      b := RightTrimmed(s[..|s| - 1], space);
      assert s[..|s| - 1][..b] == s[..b];
    } else {
      b := |s|;
    }
  }

  lemma TrimAnswers(s: string, space: char -> bool)
    ensures IsTrimmed(s, space, Trim(s, space))
  {
    var a := LeftTrimmed(s, space);
    var left := s[a..];
    var n := RightTrimmed(left, space);
    forall i | a + n <= i < |s| ensures space(s[i]) {
      assert s[i] == left[i - a];
    }
    assert left[..n] == s[a..a + n];
    assert n > 0 ==> left[n - 1] == s[a + n - 1];
    assert TrimmedTo(s, space, Trim(s, space), a, a + n);
  }

  predicate NamesEvent(line: string) {
    |line| >= 6 && line[..6] == "event:"
  }

  predicate HasData(line: string) {
    |line| >= 5 && line[..5] == "data:"
  }

  // The last line that names the event counts.
  ghost predicate NamedBy(lines: seq<string>, space: char -> bool, name: string, i: int) {
    && 0 <= i < |lines| && NamesEvent(lines[i]) && IsTrimmed(lines[i][6..], space, name)
    && forall j :: i < j < |lines| ==> !NamesEvent(lines[j])
  }

  ghost predicate NameIs(lines: seq<string>, space: char -> bool, name: string) {
    if forall i :: 0 <= i < |lines| ==> !NamesEvent(lines[i]) then name == "message"
    else exists i :: NamedBy(lines, space, name, i)
  }

  // The lines at these positions carry the data, and no others do.
  ghost predicate DataAt(lines: seq<string>, space: char -> bool, pieces: seq<string>, at: seq<nat>) {
    && |at| == |pieces|
    && (forall i, j :: 0 <= i < j < |at| ==> at[i] < at[j])
    && (forall j :: 0 <= j < |at| ==>
          at[j] < |lines| && HasData(lines[at[j]]) && IsTrimmed(lines[at[j]][5..], space, pieces[j]))
    && (forall i: nat :: i < |lines| && HasData(lines[i]) ==> i in at)
  }

  lemma PrefixIff(line: string)
    ensures StartsWith(line, EVENT) <==> NamesEvent(line)
    ensures StartsWith(line, DATA) <==> HasData(line)
    ensures !(NamesEvent(line) && HasData(line))
  {
    if NamesEvent(line) {
      assert line[0] == line[..6][0] == 'e';
    }
    if HasData(line) {
      assert line[0] == line[..5][0] == 'd';
    }
  }

  lemma {:induction false} NameAnswers(lines: seq<string>, space: char -> bool)
    ensures NameIs(lines, space, NameIn(lines, space))
  {
    if lines != [] {
      var n := |lines| - 1;
      PrefixIff(lines[n]);
      if NamesEvent(lines[n]) {
        TrimAnswers(lines[n][6..], space);
        assert NamedBy(lines, space, NameIn(lines, space), n);
      } else {
        NameAnswers(lines[..n], space);
        NameBefore(lines, space, NameIn(lines[..n], space));
      }
    }
  }

  lemma NameBefore(lines: seq<string>, space: char -> bool, name: string)
    requires lines != [] && !NamesEvent(lines[|lines| - 1]) && NameIs(lines[..|lines| - 1], space, name)
    ensures NameIs(lines, space, name)
  {
    var n := |lines| - 1;
    assert forall i :: 0 <= i < n ==> lines[..n][i] == lines[i];
    if i :| 0 <= i < n && NamesEvent(lines[..n][i]) {
      var k :| NamedBy(lines[..n], space, name, k);
      assert NamedBy(lines, space, name, k);
    }
  }

  lemma {:induction false} DataAnswers(lines: seq<string>, space: char -> bool) returns (at: seq<nat>)
    ensures DataAt(lines, space, DataIn(lines, space), at)
  {
    if lines == [] {
      at := [];
    } else {
      var n := |lines| - 1;
      at := DataAnswers(lines[..n], space);
      PrefixIff(lines[n]);
      DataOneMore(lines, space, DataIn(lines[..n], space), at);
      if HasData(lines[n]) {
        at := at + [n];
      }
    }
  }

  lemma DataOneMore(lines: seq<string>, space: char -> bool, pieces: seq<string>, at: seq<nat>)
    requires lines != [] && DataAt(lines[..|lines| - 1], space, pieces, at)
    ensures var n := |lines| - 1;
            if HasData(lines[n]) then DataAt(lines, space, pieces + [Trim(lines[n][5..], space)], at + [n])
            else DataAt(lines, space, pieces, at)
  {
    var n := |lines| - 1;
    assert forall i :: 0 <= i < n ==> lines[..n][i] == lines[i];
    if HasData(lines[n]) {
      TrimAnswers(lines[n][5..], space);
    }
  }

  lemma {:induction false} SplitJoin(lines: seq<string>)
    requires lines != [] && forall i :: 0 <= i < |lines| ==> '\n' !in lines[i]
    ensures Split(Join(lines)) == lines
  {
    if |lines| == 1 {
      SplitLine(lines[0], 0);
    } else {
      SplitFirst(lines[0], Join(lines[1..]), 0);
      SplitJoin(lines[1..]);
    }
  }

  ghost predicate BlockIs<J>(lines: seq<string>, parse: string -> Option<J>, space: char -> bool,
                             delivered: Option<seq<Event<J>>>, name: string, pieces: seq<string>, at: seq<nat>)
  {
    && NameIs(lines, space, name) && DataAt(lines, space, pieces, at)
    && delivered == if pieces == [] then Some([])
                    else match parse(Join(pieces))
                         case Some(value) => Some([Event(name, value)])
                         case None => None
  }

  // A block of any lines delivers one event if it has a data line: under the name its last event
  // line gives, or as a message, with the data lines joined by line breaks, each without white
  // space at its ends.
  lemma BlockAnswers<J>(lines: seq<string>, parse: string -> Option<J>, space: char -> bool)
    requires lines != [] && forall i :: 0 <= i < |lines| ==> '\n' !in lines[i]
    ensures exists name, pieces, at :: BlockIs(lines, parse, space, Block(Join(lines), parse, space), name, pieces, at)
  {
    SplitJoin(lines);
    NameAnswers(lines, space);
    var at := DataAnswers(lines, space);
    assert BlockIs(lines, parse, space, Block(Join(lines), parse, space), NameIn(lines, space), DataIn(lines, space),
           at);
  }
}
