/**
 * What a text of server-sent events says, by its grammar: lines that end in CR,
 * LF or both, fields that name themselves, and an empty line after every event.
 * The reader is proved to yield exactly that.
 */
module SseFields {
  import opened Basics
  import opened SseEvents

  // ---- Lines ----

  datatype End = CrLf | Lf | Cr

  function Chars(end: End): string {
    match end
    case CrLf => "\r\n"
    case Lf => "\n"
    case Cr => "\r"
  }

  datatype Line = Line(text: string, end: End)

  predicate Unbroken(s: string) {
    forall i :: 0 <= i < |s| ==> s[i] != '\r' && s[i] != '\n'
  }

  /** A lone CR is the end of a line only if something other than an LF follows. */
  predicate Legible(lines: seq<Line>) {
    && (forall i :: 0 <= i < |lines| ==> Unbroken(lines[i].text))
    && (forall i :: 0 <= i < |lines| && lines[i].end.Cr? ==>
          i + 1 < |lines| && !(lines[i + 1].text == "" && lines[i + 1].end.Lf?))
  }

  function Written(lines: seq<Line>): string
    decreases |lines|
  {
    if lines == [] then "" else lines[0].text + Chars(lines[0].end) + Written(lines[1..])
  }

  function Texts(lines: seq<Line>): seq<string> {
    seq(|lines|, i requires 0 <= i < |lines| => lines[i].text)
  }

  /** What follows a lone CR is there, and is no LF. */
  lemma AfterCr(lines: seq<Line>)
    requires Legible(lines) && lines != [] && lines[0].end.Cr?
    ensures Written(lines[1..]) != "" && Written(lines[1..])[0] != '\n'
  {
    var next := lines[1];
    assert lines[1..][0] == next;
    assert Written(lines[1..]) == next.text + Chars(next.end) + Written(lines[1..][1..]);
    if next.text != "" {
      assert Written(lines[1..])[0] == next.text[0];
    } else {
      assert Written(lines[1..])[0] == Chars(next.end)[0];
    }
  }

  /** The first line ends where it was written to end, and the next starts behind it. */
  lemma FirstLine(line: Line, more: string)
    requires Unbroken(line.text) && (line.end.Cr? ==> more != "" && more[0] != '\n')
    ensures var s := line.text + Chars(line.end) + more;
            var n := |line.text|;
            && Break(s, 0) == n && Complete(s, n) && s[..n] == line.text
            && NextLine(s, n) == n + |Chars(line.end)| && s[n + |Chars(line.end)|..] == more
  {
    var s := line.text + Chars(line.end) + more;
    var n := |line.text|;
    assert forall i :: 0 <= i < n ==> s[i] == line.text[i];
    assert s[n] == Chars(line.end)[0];
    if line.end.CrLf? {
      assert s[n + 1] == '\n';
    } else if line.end.Cr? {
      assert s[n + 1] == more[0];
    }
    BreakIs(s, 0, n);
  }

  lemma FirstLineSplits(line: Line, more: string)
    requires Unbroken(line.text) && (line.end.Cr? ==> more != "" && more[0] != '\n')
    ensures Split(line.text + Chars(line.end) + more) == Cut([line.text] + Split(more).lines, Split(more).rest)
  {
    var s := line.text + Chars(line.end) + more;
    var next := |line.text| + |Chars(line.end)|;
    FirstLine(line, more);
    SplitShift(s, next, 0);
  }

  /** However its lines end, a text is split into them, and nothing is left over. */
  lemma {:induction false} LinesAreFound(lines: seq<Line>)
    requires Legible(lines)
    ensures Split(Written(lines)) == Cut(Texts(lines), "")
    decreases |lines|
  {
    if lines == [] {
      assert Texts(lines) == [];
    } else {
      if lines[0].end.Cr? {
        AfterCr(lines);
      }
      FirstLineSplits(lines[0], Written(lines[1..]));
      RestIsLegible(lines);
      LinesAreFound(lines[1..]);
      assert Texts(lines) == [lines[0].text] + Texts(lines[1..]);
    }
  }

  lemma RestIsLegible(lines: seq<Line>)
    requires Legible(lines) && lines != []
    ensures Legible(lines[1..])
  {
  }

  // ---- Fields ----

  /** A line that is not empty: a comment, a field without a value, or one with a value behind a colon and perhaps a space. */
  datatype Field =
    | Comment(text: string)
    | Bare(name: string)
    | Tight(name: string, value: string)
    | Spaced(name: string, value: string)

  predicate IsName(name: string) {
    name != "" && forall i :: 0 <= i < |name| ==> name[i] != ':'
  }

  predicate Proper(field: Field) {
    match field
    case Comment(_) => true
    case Bare(name) => IsName(name)
    case Tight(name, value) => IsName(name) && (value == "" || value[0] != ' ')
    case Spaced(name, _) => IsName(name)
  }

  function Printed(field: Field): string {
    match field
    case Comment(text) => ":" + text
    case Bare(name) => name
    case Tight(name, value) => name + ":" + value
    case Spaced(name, value) => name + ": " + value
  }

  function NameOf(field: Field): Option<string> {
    if field.Comment? then None else Some(field.name)
  }

  /** At most one space is not part of the value, and nothing but a space. */
  function ValueOf(field: Field): string {
    if field.Tight? || field.Spaced? then field.value else ""
  }

  /** Every line that is not empty is a field, in one way. */
  function AsField(line: string): Field {
    var colon := IndexOf(line, ':', 0);
    if colon == 0 then Comment(line[1..])
    else if colon == -1 then Bare(line)
    else if colon + 1 < |line| && line[colon + 1] == ' ' then Spaced(line[..colon], line[colon + 2..])
    else Tight(line[..colon], line[colon + 1..])
  }

  lemma EveryLineIsAField(line: string)
    requires line != ""
    ensures Proper(AsField(line)) && Printed(AsField(line)) == line
  {
    IndexOfIsFirst(line, ':', 0);
    var colon := IndexOf(line, ':', 0);
    if colon > 0 {
      assert line == line[..colon] + ":" + line[colon + 1..];
      if AsField(line).Spaced? {
        assert line[colon + 1..] == " " + line[colon + 2..];
        assert line[..colon] + ":" + (" " + line[colon + 2..]) == line[..colon] + ": " + line[colon + 2..];
      }
    }
  }

  lemma {:induction false} IndexIs(s: string, c: char, start: nat, n: nat)
    requires start <= n < |s| && s[n] == c && forall i :: start <= i < n ==> s[i] != c
    ensures IndexOf(s, c, start) == n
    decreases n - start
  {
    if start < n {
      IndexIs(s, c, start + 1, n);
    }
  }

  lemma {:induction false} NoIndex(s: string, c: char, start: nat)
    requires start <= |s| && forall i :: start <= i < |s| ==> s[i] != c
    ensures IndexOf(s, c, start) == -1
    decreases |s| - start
  {
    if start < |s| {
      NoIndex(s, c, start + 1);
    }
  }

  /** The first colon of a field that has one. */
  lemma ColonAt(field: Field)
    requires Proper(field) && (field.Tight? || field.Spaced?)
    ensures var line := Printed(field);
            IndexOf(line, ':', 0) == |field.name| && line[..|field.name|] == field.name
            && line[|field.name| + 1..] == (if field.Tight? then field.value else " " + field.value)
  {
    var line, n := Printed(field), |field.name|;
    assert forall i :: 0 <= i < n ==> line[i] == field.name[i];
    assert line[n] == ':';
    IndexIs(line, ':', 0, n);
  }

  /** The line of a field is taken apart into its name and its value. */
  lemma FieldIsRead(field: Field)
    requires Proper(field)
    ensures var line := Printed(field);
            && line != ""
            && (line[..1] == ":" <==> field.Comment?)
            && (!field.Comment? ==> SseEvents.Field(line) == field.name && Value(line) == ValueOf(field))
  {
    var line := Printed(field);
    if field.Tight? || field.Spaced? {
      ColonAt(field);
      assert line[0] == field.name[0];
      assert field.Spaced? ==> (" " + field.value)[1..] == field.value;
    } else if field.Bare? {
      NoIndex(line, ':', 0);
    }
  }

  // ---- Events ----

  /** The values of the fields with this name, in order. */
  function ValuesOf(fields: seq<Field>, name: string): seq<string>
    decreases |fields|
  {
    if fields == [] then []
    else (if NameOf(fields[0]) == Some(name) then [ValueOf(fields[0])] else []) + ValuesOf(fields[1..], name)
  }

  /** One value to a line. */
  function Joined(values: seq<string>): string
    decreases |values|
  {
    if values == [] then "" else if |values| == 1 then values[0] else values[0] + "\n" + Joined(values[1..])
  }

  /** The last value, or none. */
  function Last(values: seq<string>): string {
    if values == [] then "" else values[|values| - 1]
  }

  /**
   * What the fields before an empty line say: the event they name last, or
   * `message`, with all their data; none without data, but for `close`.
   */
  function Meant(fields: seq<Field>): seq<Event> {
    var named := Last(ValuesOf(fields, "event"));
    var data := Joined(ValuesOf(fields, "data"));
    var kind := if named == "" then "message" else named;
    if data == "" && kind != "close" then [] else [Event(kind, data)]
  }

  /** The parser in the middle of an event: its data lines so far, each with an LF. */
  function Collected(values: seq<string>): string
    decreases |values|
  {
    if values == [] then "" else values[0] + "\n" + Collected(values[1..])
  }

  lemma {:induction false} CollectedSnoc(values: seq<string>, value: string)
    ensures Collected(values + [value]) == Collected(values) + value + "\n"
    decreases |values|
  {
    if values == [] {
      assert ([] + [value])[1..] == [];
    } else {
      assert (values + [value])[1..] == values[1..] + [value];
      CollectedSnoc(values[1..], value);
      var rest := Collected(values[1..]);
      assert values[0] + "\n" + (rest + value + "\n") == values[0] + "\n" + rest + value + "\n";
    }
  }

  /** The final LF is the one that is not data. */
  lemma {:induction false} CollectedIsJoined(values: seq<string>)
    ensures Collected(values) == if values == [] then "" else Joined(values) + "\n"
    decreases |values|
  {
    if |values| > 1 {
      CollectedIsJoined(values[1..]);
      var rest := Joined(values[1..]);
      assert values[0] + "\n" + (rest + "\n") == values[0] + "\n" + rest + "\n";
    } else if |values| == 1 {
      assert values[1..] == [];
    }
  }

  lemma {:induction false} ValuesSnoc(fields: seq<Field>, last: Field, name: string)
    ensures ValuesOf(fields + [last], name)
         == ValuesOf(fields, name) + (if NameOf(last) == Some(name) then [ValueOf(last)] else [])
    decreases |fields|
  {
    if fields == [] {
      assert ([] + [last])[1..] == [];
    } else {
      assert (fields + [last])[1..] == fields[1..] + [last];
      ValuesSnoc(fields[1..], last, name);
      var head := if NameOf(fields[0]) == Some(name) then [ValueOf(fields[0])] else [];
      var tail := if NameOf(last) == Some(name) then [ValueOf(last)] else [];
      assert head + (ValuesOf(fields[1..], name) + tail) == head + ValuesOf(fields[1..], name) + tail;
    }
  }

  /** A parser that has read these fields of an event. */
  predicate HasRead(p: Parser, fields: seq<Field>) {
    p == Parser(Collected(ValuesOf(fields, "data")), Last(ValuesOf(fields, "event")))
  }

  lemma OneMoreField(p: Parser, fields: seq<Field>, field: Field)
    requires HasRead(p, fields) && Proper(field)
    ensures HasRead(AfterLine(p, Printed(field)), fields + [field]) && EventOf(p, Printed(field)).None?
  {
    FieldIsRead(field);
    ValuesSnoc(fields, field, "data");
    ValuesSnoc(fields, field, "event");
    var data := ValuesOf(fields, "data");
    CollectedSnoc(data, ValueOf(field));
    assert data + [] == data && ValuesOf(fields, "event") + [] == ValuesOf(fields, "event");
  }

  lemma EventIsComplete(p: Parser, fields: seq<Field>)
    requires HasRead(p, fields)
    ensures Meant(fields) == match EventOf(p, "") case Some(event) => [event] case None => []
  {
    var values := ValuesOf(fields, "data");
    CollectedIsJoined(values);
    if values != [] {
      assert (Joined(values) + "\n")[..|Joined(values)|] == Joined(values);
    }
  }

  function Lines(fields: seq<Field>): seq<string> {
    seq(|fields|, i requires 0 <= i < |fields| => Printed(fields[i]))
  }

  lemma {:induction false} FieldsAreRead(p: Parser, before: seq<Field>, fields: seq<Field>)
    requires HasRead(p, before) && forall i :: 0 <= i < |fields| ==> Proper(fields[i])
    ensures HasRead(AfterLines(p, Lines(fields)), before + fields) && Events(p, Lines(fields)) == []
    decreases |fields|
  {
    if fields == [] {
      NoFields(p, before);
    } else {
      OneMoreField(p, before, fields[0]);
      FieldsAreRead(AfterLine(p, Printed(fields[0])), before + [fields[0]], fields[1..]);
      FirstField(p, before, fields[0], fields[1..]);
      assert fields == [fields[0]] + fields[1..];
    }
  }

  lemma NoFields(p: Parser, before: seq<Field>)
    ensures Lines([]) == [] && before + [] == before && AfterLines(p, []) == p && Events(p, []) == []
  {
  }

  lemma FirstField(p: Parser, before: seq<Field>, field: Field, more: seq<Field>)
    requires var r := AfterLine(p, Printed(field));
             EventOf(p, Printed(field)).None? && Events(r, Lines(more)) == []
    ensures Lines([field] + more) == [Printed(field)] + Lines(more) && before + ([field] + more) == before + [field] + more
    ensures AfterLines(p, Lines([field] + more)) == AfterLines(AfterLine(p, Printed(field)), Lines(more))
    ensures Events(p, Lines([field] + more)) == []
  {
    assert Lines([field] + more) == [Printed(field)] + Lines(more);
    OneLineFirst(p, Printed(field), Lines(more));
  }

  lemma OneLineFirst(p: Parser, line: string, more: seq<string>)
    ensures AfterLines(p, [line] + more) == AfterLines(AfterLine(p, line), more)
    ensures EventOf(p, line).None? ==> Events(p, [line] + more) == Events(AfterLine(p, line), more)
  {
    assert ([line] + more)[1..] == more;
  }

  /** The lines of several events, each followed by an empty one. */
  function AllLines(blocks: seq<seq<Field>>): seq<string>
    decreases |blocks|
  {
    if blocks == [] then [] else Lines(blocks[0]) + [""] + AllLines(blocks[1..])
  }

  function AllMeant(blocks: seq<seq<Field>>): seq<Event>
    decreases |blocks|
  {
    if blocks == [] then [] else Meant(blocks[0]) + AllMeant(blocks[1..])
  }

  lemma OneBlock(fields: seq<Field>)
    requires forall i :: 0 <= i < |fields| ==> Proper(fields[i])
    ensures Events(EMPTY, Lines(fields) + [""]) == Meant(fields) && AfterLines(EMPTY, Lines(fields) + [""]) == EMPTY
  {
    FieldsAreRead(EMPTY, [], fields);
    assert [] + fields == fields;
    var p := AfterLines(EMPTY, Lines(fields));
    EventsInTwo(EMPTY, Lines(fields), [""]);
    EventIsComplete(p, fields);
    assert [""][1..] == [];
    assert Events(p, [""]) == Meant(fields) + [];
  }

  lemma {:induction false} BlocksAreRead(blocks: seq<seq<Field>>)
    requires forall k, i :: 0 <= k < |blocks| && 0 <= i < |blocks[k]| ==> Proper(blocks[k][i])
    ensures Events(EMPTY, AllLines(blocks)) == AllMeant(blocks)
    decreases |blocks|
  {
    if blocks != [] {
      OneBlock(blocks[0]);
      BlocksAreRead(blocks[1..]);
      EventsInTwo(EMPTY, Lines(blocks[0]) + [""], AllLines(blocks[1..]));
    }
  }

  /**
   * A text of any events gives them: of each, the values of its `data` lines joined by
   * LF in order, the last `event` value or `message`; comments and other fields say
   * nothing, at most one space after the colon is dropped, and an event without data
   * is not there unless it is `close`. It does not matter how the lines end.
   */
  lemma TextSaysItsEvents(blocks: seq<seq<Field>>, lines: seq<Line>)
    requires forall k, i :: 0 <= k < |blocks| && 0 <= i < |blocks[k]| ==> Proper(blocks[k][i])
    requires Legible(lines) && Texts(lines) == AllLines(blocks)
    ensures EventsOf(Written(lines)) == AllMeant(blocks)
  {
    LinesAreFound(lines);
    BlocksAreRead(blocks);
  }

  lemma ThreeValues(a: string, b: string, c: string)
    ensures ValuesOf([Spaced("data", a), Spaced("data", b), Spaced("data", c)], "data") == [a, b, c]
    ensures ValuesOf([Spaced("data", a), Spaced("data", b), Spaced("data", c)], "event") == []
    ensures Joined([a, b, c]) == a + "\n" + (b + "\n" + c)
  {
    var x, y, z := Spaced("data", a), Spaced("data", b), Spaced("data", c);
    assert [x, y, z][1..] == [y, z] && [y, z][1..] == [z] && [z][1..] == [];
    assert [a, b, c][1..] == [b, c] && [b, c][1..] == [c];
    assert ValuesOf([z], "data") == [c] && ValuesOf([z], "event") == [];
    assert ValuesOf([y, z], "data") == [b, c] && ValuesOf([y, z], "event") == [];
    assert Joined([b, c]) == b + "\n" + c;
  }

  /** Three data lines make one event with three lines of data. */
  lemma SeveralDataLines(a: string, b: string, c: string)
    requires Unbroken(a) && Unbroken(b) && Unbroken(c)
    ensures EventsOf("data: " + a + "\n" + ("data: " + b + "\n" + ("data: " + c + "\n" + "\n")))
         == [Event("message", a + "\n" + (b + "\n" + c))]
  {
    var fields := [Spaced("data", a), Spaced("data", b), Spaced("data", c)];
    var lines := [Line("data: " + a, Lf), Line("data: " + b, Lf), Line("data: " + c, Lf), Line("", Lf)];
    ThreeValues(a, b, c);
    ThreeLines(a, b, c);
    assert forall i :: 0 <= i < 3 ==> Proper(fields[i]);
    assert forall s :: Unbroken(s) ==> Unbroken("data: " + s);
    TextSaysItsEvents([fields], lines);
    OneMeant(fields);
  }

  lemma OneMeant(fields: seq<Field>)
    ensures AllMeant([fields]) == Meant(fields)
  {
    assert [fields][1..] == [];
    assert AllMeant([fields]) == Meant(fields) + [];
  }

  lemma WrittenFirst(line: Line, more: seq<Line>)
    ensures Written([line] + more) == line.text + Chars(line.end) + Written(more)
  {
    assert ([line] + more)[1..] == more;
  }

  lemma ThreeLines(a: string, b: string, c: string)
    ensures var lines := [Line("data: " + a, Lf), Line("data: " + b, Lf), Line("data: " + c, Lf), Line("", Lf)];
            && Texts(lines) == AllLines([[Spaced("data", a), Spaced("data", b), Spaced("data", c)]])
            && Written(lines) == "data: " + a + "\n" + ("data: " + b + "\n" + ("data: " + c + "\n" + "\n"))
  {
    var w, x, y, z := Line("data: " + a, Lf), Line("data: " + b, Lf), Line("data: " + c, Lf), Line("", Lf);
    var fields := [Spaced("data", a), Spaced("data", b), Spaced("data", c)];
    assert [w, x, y, z] == [w] + [x, y, z] && [x, y, z] == [x] + [y, z] && [y, z] == [y] + [z] && [z] == [z] + [];
    assert forall v :: Printed(Spaced("data", v)) == "data: " + v;
    assert Lines(fields) == [w.text, x.text, y.text];
    assert AllLines([fields]) == Lines(fields) + [""] + [];
    WrittenFirst(w, [x, y, z]);
    WrittenFirst(x, [y, z]);
    WrittenFirst(y, [z]);
    WrittenFirst(z, []);
  }
}
