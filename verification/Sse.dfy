/**
 * Server-sent events over decoded characters, without the byte order mark: an
 * incremental line splitter and event parser, and an encoder that mixes
 * keep-alive comments in between.
 */
module SseEvents {
  import opened Basics

  datatype Event = Event(event: string, data: string)

  // ---- Lines ----

  predicate IsBreak(c: char) {
    c == '\r' || c == '\n'
  }

  predicate Clean(line: string) {
    forall i :: 0 <= i < |line| ==> !IsBreak(line[i])
  }

  /** The first index of `c` at or after `start`, or -1. */
  function IndexOf(s: string, c: char, start: nat): (i: int)
    requires start <= |s|
    ensures i == -1 || (start <= i < |s| && s[i] == c)
    decreases |s| - start
  {
    if start == |s| then -1 else if s[start] == c then start else IndexOf(s, c, start + 1)
  }

  lemma {:induction false} IndexOfIsFirst(s: string, c: char, start: nat)
    requires start <= |s|
    ensures forall k :: start <= k < (if IndexOf(s, c, start) == -1 then |s| else IndexOf(s, c, start)) ==> s[k] != c
    decreases |s| - start
  {
    if start < |s| && s[start] != c {
      IndexOfIsFirst(s, c, start + 1);
    }
  }

  /** The end of the line that starts at `start`: the first CR or LF from there on. */
  function Break(s: string, start: nat): (n: nat)
    requires start <= |s|
    ensures start <= n <= |s|
    decreases |s| - start
  {
    if start == |s| || IsBreak(s[start]) then start else Break(s, start + 1)
  }

  datatype Cut = Cut(lines: seq<string>, rest: string)

  /** Whether a line that ends at `n` is complete; after a final CR an LF may still follow. */
  predicate Complete(s: string, n: nat) {
    n < |s| && (s[n] == '\r' ==> n + 1 < |s|)
  }

  /** Where the line after the one that ends at `n` starts. */
  function NextLine(s: string, n: nat): (next: nat)
    requires Complete(s, n)
    ensures n < next <= |s|
  {
    if s[n] == '\r' && s[n + 1] == '\n' then n + 2 else n + 1
  }

  /** The complete lines from `start` on, and what is left over. */
  function SplitFrom(s: string, start: nat): Cut
    requires start <= |s|
    decreases |s| - start
  {
    var n := Break(s, start);
    if !Complete(s, n) then Cut([], s[start..])
    else
      var r := SplitFrom(s, NextLine(s, n));
      Cut([s[start..n]] + r.lines, r.rest)
  }

  function Split(s: string): Cut {
    SplitFrom(s, 0)
  }

  lemma {:induction false} BreakIs(s: string, start: nat, n: nat)
    requires start <= n <= |s| && (n < |s| ==> IsBreak(s[n])) && forall i :: start <= i < n ==> !IsBreak(s[i])
    ensures Break(s, start) == n
    decreases n - start
  {
    if start < n {
      BreakIs(s, start + 1, n);
    }
  }

  lemma {:induction false} BreakShift(s: string, drop: nat, start: nat)
    requires drop + start <= |s|
    ensures Break(s, drop + start) == drop + Break(s[drop..], start)
    decreases |s| - start
  {
    if drop + start < |s| && !IsBreak(s[drop + start]) {
      BreakShift(s, drop, start + 1);
    }
  }

  lemma {:induction false} BreakMore(a: string, b: string, start: nat)
    requires start <= |a| && Break(a, start) < |a|
    ensures Break(a + b, start) == Break(a, start)
    decreases |a| - start
  {
    if !IsBreak(a[start]) {
      BreakMore(a, b, start + 1);
    }
  }

  /** The next break from the two searches the code does. */
  lemma FirstOf(s: string, start: nat, cr: int, lf: int)
    requires start <= |s| && cr == IndexOf(s, '\r', start) && lf == IndexOf(s, '\n', start)
    ensures Break(s, start) == if lf != -1 && (cr == -1 || lf < cr) then lf else if cr != -1 then cr else |s|
  {
    IndexOfIsFirst(s, '\r', start);
    IndexOfIsFirst(s, '\n', start);
    BreakIs(s, start, if lf != -1 && (cr == -1 || lf < cr) then lf else if cr != -1 then cr else |s|);
  }

  /** The lines cut so far, and the lines still to cut from `start` on. */
  predicate Cutting(s: string, lines: seq<string>, start: nat)
    requires start <= |s|
  {
    Split(s) == Cut(lines + SplitFrom(s, start).lines, SplitFrom(s, start).rest)
  }

  lemma CutOne(s: string, lines: seq<string>, start: nat, n: nat)
    requires start <= n <= |s| && Break(s, start) == n && Complete(s, n) && Cutting(s, lines, start)
    ensures Cutting(s, lines + [s[start..n]], NextLine(s, n))
  {
    var line, r := s[start..n], SplitFrom(s, NextLine(s, n));
    assert lines + ([line] + r.lines) == (lines + [line]) + r.lines;
  }

  lemma CutAll(s: string, lines: seq<string>, start: nat)
    requires start <= |s| && !Complete(s, Break(s, start)) && Cutting(s, lines, start)
    ensures Split(s) == Cut(lines, s[start..])
  {
  }

  /** One turn of the loop: the line it finds, if it finds one, and where it goes on. */
  datatype Turn = Turn(found: bool, n: nat, next: nat)

  function TurnAt(s: string, start: nat): (t: Turn)
    requires start <= |s|
    ensures t.found ==> start <= t.n < t.next <= |s|
  {
    var n := Break(s, start);
    if Complete(s, n) then Turn(true, n, NextLine(s, n)) else Turn(false, n, n)
  }

  lemma TurnIs(s: string, start: nat)
    requires start <= |s|
    ensures var cr, lf := IndexOf(s, '\r', start), IndexOf(s, '\n', start);
            TurnAt(s, start) ==
              if cr == -1 && lf == -1 then Turn(false, |s|, |s|)
              else if lf != -1 && (cr == -1 || lf < cr) then Turn(true, lf, lf + 1)
              else if cr == |s| - 1 then Turn(false, cr, cr)
              else Turn(true, cr, if s[cr + 1] == '\n' then cr + 2 else cr + 1)
  {
    FirstOf(s, start, IndexOf(s, '\r', start), IndexOf(s, '\n', start));
  }

  lemma TakeTurn(s: string, lines: seq<string>, start: nat)
    requires start <= |s| && Cutting(s, lines, start)
    ensures var t := TurnAt(s, start);
            if t.found then Cutting(s, lines + [s[start..t.n]], t.next) else Split(s) == Cut(lines, s[start..])
  {
    var n := Break(s, start);
    if Complete(s, n) {
      CutOne(s, lines, start, n);
    } else {
      CutAll(s, lines, start);
    }
  }

  method SplitLines(buffer: string) returns (lines: seq<string>, rest: string)
    ensures Cut(lines, rest) == Split(buffer)
  {
    lines := [];
    var i := 0;
    while i < |buffer|
      invariant 0 <= i <= |buffer| && Cutting(buffer, lines, i)
      decreases |buffer| - i
    {
      var cr, lf := IndexOf(buffer, '\r', i), IndexOf(buffer, '\n', i);
      TurnIs(buffer, i);
      if cr == -1 && lf == -1 {
        break;
      }
      var n, next;
      if lf != -1 && (cr == -1 || lf < cr) {
        n, next := lf, lf + 1;
      } else if cr == |buffer| - 1 {
        break;
      } else {
        n, next := cr, if buffer[cr + 1] == '\n' then cr + 2 else cr + 1;
      }
      assert TurnAt(buffer, i) == Turn(true, n, next);
      TakeTurn(buffer, lines, i);
      lines := lines + [buffer[i..n]];
      i := next;
    }
    TakeTurn(buffer, lines, i);
    rest := buffer[i..];
  }

  lemma Slices(s: string, drop: nat, from: nat, to: nat)
    requires from <= to && drop + to <= |s|
    ensures s[drop..][from..to] == s[drop + from..drop + to] && s[drop..][from..] == s[drop + from..]
  {
  }

  lemma NextLineShift(s: string, drop: nat, n: nat)
    requires drop <= |s|
    ensures Complete(s[drop..], n) <==> Complete(s, drop + n)
    ensures Complete(s[drop..], n) ==> NextLine(s, drop + n) == drop + NextLine(s[drop..], n)
  {
  }

  /** One line of two texts that continue alike. */
  lemma SplitAlike(s: string, i: nat, m: nat, t: string, j: nat, n: nat)
    requires i <= m <= |s| && j <= n <= |t| && Break(s, i) == m && Break(t, j) == n
    requires s[i..m] == t[j..n] && s[i..] == t[j..] && (Complete(s, m) <==> Complete(t, n))
    requires Complete(s, m) ==> SplitFrom(s, NextLine(s, m)) == SplitFrom(t, NextLine(t, n))
    ensures SplitFrom(s, i) == SplitFrom(t, j)
  {
  }

  lemma {:induction false} SplitShift(s: string, drop: nat, start: nat)
    requires drop + start <= |s|
    ensures SplitFrom(s, drop + start) == SplitFrom(s[drop..], start)
    decreases |s| - start
  {
    var t := s[drop..];
    var n := Break(t, start);
    BreakShift(s, drop, start);
    Slices(s, drop, start, n);
    NextLineShift(s, drop, n);
    if Complete(t, n) {
      SplitShift(s, drop, NextLine(t, n));
    }
    SplitAlike(s, drop + start, drop + n, t, start, n);
  }

  /** A complete line ends and is followed where it was, whatever comes later. */
  lemma LineStays(a: string, b: string, start: nat, n: nat)
    requires start <= n <= |a| && Break(a, start) == n && Complete(a, n)
    ensures Break(a + b, start) == n && Complete(a + b, n) && NextLine(a + b, n) == NextLine(a, n)
    ensures (a + b)[start..n] == a[start..n]
  {
    BreakMore(a, b, start);
  }

  lemma RestMoves(a: string, b: string, start: nat)
    requires start <= |a|
    ensures SplitFrom(a + b, start) == Split(a[start..] + b)
  {
    SplitShift(a + b, start, 0);
    assert (a + b)[start..] == a[start..] + b;
  }

  lemma InTwoStep(a: string, b: string, start: nat, n: nat, more: Cut)
    requires start <= n <= |a| && Break(a, start) == n && Complete(a, n)
    requires var r := SplitFrom(a, NextLine(a, n));
             SplitFrom(a + b, NextLine(a, n)) == Cut(r.lines + more.lines, more.rest)
    ensures SplitFrom(a + b, start) == Cut(SplitFrom(a, start).lines + more.lines, more.rest)
    ensures SplitFrom(a, start).rest == SplitFrom(a, NextLine(a, n)).rest
  {
    LineStays(a, b, start, n);
    var line, r := a[start..n], SplitFrom(a, NextLine(a, n));
    assert [line] + (r.lines + more.lines) == [line] + r.lines + more.lines;
  }

  /** What comes later does not change a line that is complete. */
  lemma {:induction false} SplitFromInTwo(a: string, b: string, start: nat)
    requires start <= |a|
    ensures var cut := SplitFrom(a, start);
            SplitFrom(a + b, start) == Cut(cut.lines + Split(cut.rest + b).lines, Split(cut.rest + b).rest)
    decreases |a| - start
  {
    var n := Break(a, start);
    if Complete(a, n) {
      var next := NextLine(a, n);
      SplitFromInTwo(a, b, next);
      InTwoStep(a, b, start, n, Split(SplitFrom(a, next).rest + b));
    } else {
      RestMoves(a, b, start);
    }
  }

  /** Splitting a text in two loses nothing and joins nothing, wherever the cut falls. */
  lemma SplitInTwo(a: string, b: string)
    ensures Split(a + b) == Cut(Split(a).lines + Split(Split(a).rest + b).lines, Split(Split(a).rest + b).rest)
  {
    SplitFromInTwo(a, b, 0);
  }

  // ---- Events ----

  /** What has been read of the event being built. */
  datatype Parser = Parser(data: string, event: string)

  const EMPTY := Parser("", "")

  function WithoutFinalLf(s: string): string {
    if s != "" && s[|s| - 1] == '\n' then s[..|s| - 1] else s
  }

  /** The event an empty line completes; only `close` may be without data. */
  function Dispatched(p: Parser): Option<Event> {
    var kind := if p.event == "" then "message" else p.event;
    var data := WithoutFinalLf(p.data);
    if kind == "close" then Some(Event("close", data))
    else if data == "" then None
    else Some(Event(kind, data))
  }

  function Field(line: string): string {
    var colon := IndexOf(line, ':', 0);
    if colon == -1 then line else line[..colon]
  }

  function Value(line: string): string {
    var colon := IndexOf(line, ':', 0);
    var value := if colon == -1 then "" else line[colon + 1..];
    if value != "" && value[0] == ' ' then value[1..] else value
  }

  function ReadField(p: Parser, line: string): Parser
    requires line != ""
  {
    if line[..1] == ":" then p
    else if Field(line) == "event" then p.(event := Value(line))
    else if Field(line) == "data" then p.(data := p.data + Value(line) + "\n")
    else p
  }

  function AfterLine(p: Parser, line: string): Parser {
    if line == "" then EMPTY else ReadField(p, line)
  }

  function EventOf(p: Parser, line: string): Option<Event> {
    if line == "" then Dispatched(p) else None
  }

  function AfterLines(p: Parser, lines: seq<string>): Parser
    decreases |lines|
  {
    if lines == [] then p else AfterLines(AfterLine(p, lines[0]), lines[1..])
  }

  function Events(p: Parser, lines: seq<string>): seq<Event>
    decreases |lines|
  {
    if lines == [] then []
    else
      var event := EventOf(p, lines[0]);
      (if event.Some? then [event.value] else []) + Events(AfterLine(p, lines[0]), lines[1..])
  }

  /** One-shot parsing of a whole text. */
  function EventsOf(text: string): seq<Event> {
    Events(EMPTY, Split(text).lines)
  }

  function Concat(chunks: seq<string>): string
    decreases |chunks|
  {
    if chunks == [] then "" else Concat(chunks[..|chunks| - 1]) + chunks[|chunks| - 1]
  }

  lemma {:induction false} EventsInTwo(p: Parser, a: seq<string>, b: seq<string>)
    ensures Events(p, a + b) == Events(p, a) + Events(AfterLines(p, a), b)
    ensures AfterLines(p, a + b) == AfterLines(AfterLines(p, a), b)
    decreases |a|
  {
    if a == [] {
      assert a + b == b;
    } else {
      assert (a + b)[1..] == a[1..] + b;
      EventsInTwo(AfterLine(p, a[0]), a[1..], b);
    }
  }

  class SseReader {
    var buffer: string
    var dataBuf: string
    var eventType: string

    ghost function State(): Parser
      reads this
    {
      Parser(dataBuf, eventType)
    }

    constructor ()
      ensures buffer == "" && State() == EMPTY
    {
      buffer, dataBuf, eventType := "", "", "";
    }

    method Dispatch() returns (event: Option<Event>)
      modifies this`dataBuf, this`eventType
      ensures State() == EMPTY && event == Dispatched(old(State()))
    {
      var kind := if eventType == "" then "message" else eventType;
      var data := dataBuf;
      if data != "" && data[|data| - 1] == '\n' {
        data := data[..|data| - 1];
      }
      dataBuf := "";
      eventType := "";
      if kind == "close" {
        return Some(Event("close", data));
      }
      if data == "" {
        return None;
      }
      return Some(Event(kind, data));
    }

    method ProcessLine(line: string) returns (event: Option<Event>)
      modifies this`dataBuf, this`eventType
      ensures State() == AfterLine(old(State()), line) && event == EventOf(old(State()), line)
    {
      if line == "" {
        event := Dispatch();
        return;
      }
      if line[..1] == ":" {
        return None;
      }
      var colon := IndexOf(line, ':', 0);
      var field := if colon == -1 then line else line[..colon];
      var value := if colon == -1 then "" else line[colon + 1..];
      if value != "" && value[0] == ' ' {
        value := value[1..];
      }
      if field == "event" {
        eventType := value;
      } else if field == "data" {
        dataBuf := dataBuf + value + "\n";
      }
      return None;
    }

    /** One `read()`: everything the chunk completes is yielded, the rest is kept. */
    method ReadChunk(chunk: string) returns (events: seq<Event>)
      modifies this
      ensures var cut := Split(old(buffer) + chunk);
              && buffer == cut.rest
              && events == Events(old(State()), cut.lines)
              && State() == AfterLines(old(State()), cut.lines)
    {
      var lines, rest := SplitLines(buffer + chunk);
      ghost var before := State();
      buffer := rest;
      events := [];
      for i := 0 to |lines|
        invariant buffer == rest
        invariant events == Events(before, lines[..i]) && State() == AfterLines(before, lines[..i])
      {
        EventsInTwo(before, lines[..i], [lines[i]]);
        assert lines[..i] + [lines[i]] == lines[..i + 1];
        var event := ProcessLine(lines[i]);
        if event.Some? {
          events := events + [event.value];
        }
      }
      assert lines[..|lines|] == lines;
    }
  }

  /** The reader is independent of chunking: it yields what one-shot parsing of the whole text yields. */
  method ReadSseEvents(chunks: seq<string>) returns (events: seq<Event>)
    ensures events == EventsOf(Concat(chunks))
  {
    var reader := new SseReader();
    events := [];
    assert chunks[..0] == [];
    for i := 0 to |chunks|
      invariant Split(Concat(chunks[..i])).rest == reader.buffer
      invariant events == EventsOf(Concat(chunks[..i]))
      invariant reader.State() == AfterLines(EMPTY, Split(Concat(chunks[..i])).lines)
    {
      ghost var before := Concat(chunks[..i]);
      assert chunks[..i + 1][..i] == chunks[..i];
      SplitInTwo(before, chunks[i]);
      EventsInTwo(EMPTY, Split(before).lines, Split(Split(before).rest + chunks[i]).lines);
      var more := reader.ReadChunk(chunks[i]);
      events := events + more;
    }
    assert chunks[..|chunks|] == chunks;
  }

  /** More text only adds events: what a reader has yielded it never takes back. */
  lemma EventsOnlyGrow(a: string, b: string)
    ensures EventsOf(a) <= EventsOf(a + b)
    ensures EventsOf(a + b) == EventsOf(a) + Events(AfterLines(EMPTY, Split(a).lines), Split(Split(a).rest + b).lines)
  {
    SplitInTwo(a, b);
    EventsInTwo(EMPTY, Split(a).lines, Split(Split(a).rest + b).lines);
  }
}
