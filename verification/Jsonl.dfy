/** Line-delimited JSON over decoded characters: the incremental line reader and the encoder's framing. */
module Jsonl {
  import opened Basics
  import SseEvents

  // ---- Trimming ----

  /** White space and line terminators, as `trim` removes them. */
  predicate IsSpace(c: char) {
    || c in "\t\n\U{000B}\U{000C}\r \U{00A0}\U{1680}\U{2028}\U{2029}\U{202F}\U{205F}\U{3000}\U{FEFF}"
    || '\U{2000}' <= c <= '\U{200A}'
  }

  function TrimStart(s: string): string {
    if s != "" && IsSpace(s[0]) then TrimStart(s[1..]) else s
  }

  function TrimEnd(s: string): string {
    if s != "" && IsSpace(s[|s| - 1]) then TrimEnd(s[..|s| - 1]) else s
  }

  function Trim(s: string): string {
    TrimEnd(TrimStart(s))
  }

  /** The white space and line terminators of ECMAScript, by code point. */
  predicate White(c: char) {
    var n := c as int;
    || 0x9 <= n <= 0xD || n == 0x20 || n == 0xA0 || n == 0x1680 || 0x2000 <= n <= 0x200A
    || n == 0x2028 || n == 0x2029 || n == 0x202F || n == 0x205F || n == 0x3000 || n == 0xFEFF
  }

  predicate AllWhite(s: string) {
    forall i :: 0 <= i < |s| ==> White(s[i])
  }

  predicate Bordered(s: string) {
    s == "" || (!White(s[0]) && !White(s[|s| - 1]))
  }

  lemma SpaceIsWhite(c: char)
    ensures IsSpace(c) <==> White(c)
  {
    var spaces := "\t\n\U{000B}\U{000C}\r \U{00A0}\U{1680}\U{2028}\U{2029}\U{202F}\U{205F}\U{3000}\U{FEFF}";
    if White(c) && !('\U{2000}' <= c <= '\U{200A}') {
      var n := c as int;
      assert spaces[0] == 0x9 as char && spaces[1] == 0xA as char && spaces[2] == 0xB as char && spaces[3] == 0xC as char;
      assert spaces[4] == 0xD as char && spaces[5] == 0x20 as char && spaces[6] == 0xA0 as char && spaces[7] == 0x1680 as char;
      assert spaces[8] == 0x2028 as char && spaces[9] == 0x2029 as char && spaces[10] == 0x202F as char;
      assert spaces[11] == 0x205F as char && spaces[12] == 0x3000 as char && spaces[13] == 0xFEFF as char;
      assert c == n as char;
    }
  }

  lemma {:induction false} StartIs(s: string) returns (i: nat)
    ensures i <= |s| && TrimStart(s) == s[i..] && AllWhite(s[..i]) && (i < |s| ==> !White(s[i]))
  {
    i := 0;
    if s != "" {
      SpaceIsWhite(s[0]);
      if IsSpace(s[0]) {
        var j := StartIs(s[1..]);
        i := j + 1;
        assert s[1..][j..] == s[i..] && s[..i] == [s[0]] + s[1..][..j];
      }
    }
  }

  lemma {:induction false} EndIs(s: string) returns (j: nat)
    ensures j <= |s| && TrimEnd(s) == s[..j] && AllWhite(s[j..]) && (0 < j ==> !White(s[j - 1]))
  {
    j := |s|;
    if s != "" {
      var last := |s| - 1;
      SpaceIsWhite(s[last]);
      if IsSpace(s[last]) {
        j := EndIs(s[..last]);
        OneMoreWhite(s, j);
      }
    }
  }

  lemma OneMoreWhite(s: string, j: nat)
    requires s != "" && j < |s| && AllWhite(s[..|s| - 1][j..]) && White(s[|s| - 1])
    ensures AllWhite(s[j..]) && s[..|s| - 1][..j] == s[..j] && (j > 0 ==> s[..|s| - 1][j - 1] == s[j - 1])
  {
    assert s[j..] == s[..|s| - 1][j..] + [s[|s| - 1]];
  }

  /** The rest of a string between white space on both sides. */
  ghost predicate Trims(s: string, kept: string) {
    Bordered(kept) && exists i, j :: 0 <= i <= j <= |s| && kept == s[i..j] && AllWhite(s[..i]) && AllWhite(s[j..])
  }

  /** Trimming takes white space off both ends and nothing else, until there is none. */
  lemma TrimIs(s: string)
    ensures Trims(s, Trim(s))
  {
    var i := StartIs(s);
    var t := TrimStart(s);
    var j := EndIs(t);
    assert Trim(s) == s[i..i + j] && s[i + j..] == t[j..];
    if j > 0 {
      assert Trim(s)[0] == s[i] && Trim(s)[|Trim(s)| - 1] == t[j - 1];
    }
  }

  /** A line is dropped if there is nothing in it. */
  function Kept(line: string): seq<string> {
    if Trim(line) == "" then [] else [Trim(line)]
  }

  // ---- Lines of a whole text ----

  function Newline(s: string): (n: int)
    ensures n == -1 || (0 <= n < |s| && s[n] == '\n')
  {
    SseEvents.IndexOf(s, '\n', 0)
  }

  /** The lines that are ended by a line feed. */
  function Ended(s: string): seq<string>
    decreases |s|
  {
    if Newline(s) == -1 then [] else Kept(s[..Newline(s)]) + Ended(s[Newline(s) + 1..])
  }

  /** What follows the last line feed. */
  function Rest(s: string): string
    decreases |s|
  {
    if Newline(s) == -1 then s else Rest(s[Newline(s) + 1..])
  }

  /** The lines of a text, the last one also when no line feed ends it. */
  function LinesOf(s: string): seq<string> {
    Ended(s) + Kept(Rest(s))
  }

  lemma NewlineIs(s: string, n: nat)
    requires n < |s| && s[n] == '\n' && forall i :: 0 <= i < n ==> s[i] != '\n'
    ensures Newline(s) == n
  {
    SseEvents.IndexOfIsFirst(s, '\n', 0);
  }

  lemma NewlineMore(a: string, b: string)
    requires Newline(a) != -1
    ensures Newline(a + b) == Newline(a)
  {
    SseEvents.IndexOfIsFirst(a, '\n', 0);
    NewlineIs(a + b, Newline(a));
  }

  lemma {:induction false} ReadInTwo(a: string, b: string)
    ensures Ended(a + b) == Ended(a) + Ended(Rest(a) + b) && Rest(a + b) == Rest(Rest(a) + b)
    decreases |a|
  {
    var n := Newline(a);
    if n != -1 {
      NewlineMore(a, b);
      assert (a + b)[..n] == a[..n] && (a + b)[n + 1..] == a[n + 1..] + b;
      ReadInTwo(a[n + 1..], b);
    }
  }

  // ---- The reader ----

  /** The lines read so far, with those still to read from the buffer, are the ended lines of a text. */
  predicate Reads(text: string, lines: seq<string>, buffer: string) {
    Ended(text) == lines + Ended(buffer) && Rest(text) == Rest(buffer)
  }

  /** One turn of the inner loop. */
  lemma ReadsOne(text: string, lines: seq<string>, buffer: string, n: nat)
    requires Newline(buffer) == n && Reads(text, lines, buffer)
    ensures Reads(text, lines + Kept(buffer[..n]), buffer[n + 1..])
  {
    assert lines + (Kept(buffer[..n]) + Ended(buffer[n + 1..])) == (lines + Kept(buffer[..n])) + Ended(buffer[n + 1..]);
  }

  lemma ReadsAll(text: string, lines: seq<string>, buffer: string)
    requires Newline(buffer) == -1 && Reads(text, lines, buffer)
    ensures lines == Ended(text) && buffer == Rest(text)
  {
    assert lines + [] == lines;
  }

  /** Another chunk. */
  lemma ReadsMore(text: string, lines: seq<string>, buffer: string, chunk: string)
    requires lines == Ended(text) && buffer == Rest(text)
    ensures Reads(text + chunk, lines, buffer + chunk)
  {
    ReadInTwo(text, chunk);
  }

  /** Independent of chunking: the lines of the chunks are the lines of the whole text. */
  method ReadJsonlLines(chunks: seq<string>) returns (lines: seq<string>)
    ensures lines == LinesOf(SseEvents.Concat(chunks))
  {
    lines := [];
    var buffer := "";
    assert chunks[..0] == [];
    for i := 0 to |chunks|
      invariant lines == Ended(SseEvents.Concat(chunks[..i])) && buffer == Rest(SseEvents.Concat(chunks[..i]))
    {
      ghost var text := SseEvents.Concat(chunks[..i]) + chunks[i];
      assert chunks[..i + 1][..i] == chunks[..i];
      ReadsMore(SseEvents.Concat(chunks[..i]), lines, buffer, chunks[i]);
      buffer := buffer + chunks[i];
      var newline := Newline(buffer);
      while newline != -1
        invariant newline == Newline(buffer) && Reads(text, lines, buffer)
        decreases |buffer|
      {
        ReadsOne(text, lines, buffer, newline);
        var line := Trim(buffer[..newline]);
        buffer := buffer[newline + 1..];
        lines := lines + if |line| > 0 then [line] else [];
        newline := Newline(buffer);
      }
      ReadsAll(text, lines, buffer);
    }
    assert chunks[..|chunks|] == chunks;
    var last := Trim(buffer);
    if |last| > 0 {
      lines := lines + [last];
    }
  }

  // ---- The encoder's framing ----

  /** What `encodeJsonl` enqueues for these lines. */
  function Written(lines: seq<string>): string
    decreases |lines|
  {
    if lines == [] then "" else lines[0] + "\n" + Written(lines[1..])
  }

  predicate OneLine(line: string) {
    forall i :: 0 <= i < |line| ==> line[i] != '\n'
  }

  function AllKept(lines: seq<string>): seq<string>
    decreases |lines|
  {
    if lines == [] then [] else Kept(lines[0]) + AllKept(lines[1..])
  }

  lemma LineIsEnded(line: string, tail: string)
    requires OneLine(line)
    ensures Ended(line + "\n" + tail) == Kept(line) + Ended(tail) && Rest(line + "\n" + tail) == Rest(tail)
  {
    var s := line + "\n" + tail;
    NewlineIs(s, |line|);
    assert s[..|line|] == line && s[|line| + 1..] == tail;
  }

  lemma WrittenCons(lines: seq<string>, tail: string)
    requires lines != []
    ensures Written(lines) + tail == lines[0] + "\n" + (Written(lines[1..]) + tail)
  {
  }

  lemma KeptOneMore(line: string, more: string, kept: seq<string>, tail: string)
    requires OneLine(line) && Ended(more) == kept + Ended(tail) && Rest(more) == Rest(tail)
    ensures Ended(line + "\n" + more) == Kept(line) + kept + Ended(tail) && Rest(line + "\n" + more) == Rest(tail)
  {
    LineIsEnded(line, more);
    assert Kept(line) + (kept + Ended(tail)) == Kept(line) + kept + Ended(tail);
  }

  lemma {:induction false} WrittenIsEnded(lines: seq<string>, tail: string)
    requires forall i :: 0 <= i < |lines| ==> OneLine(lines[i])
    ensures Ended(Written(lines) + tail) == AllKept(lines) + Ended(tail) && Rest(Written(lines) + tail) == Rest(tail)
    decreases |lines|
  {
    if lines == [] {
      assert Written(lines) + tail == tail;
    } else {
      WrittenCons(lines, tail);
      WrittenIsEnded(lines[1..], tail);
      KeptOneMore(lines[0], Written(lines[1..]) + tail, AllKept(lines[1..]), tail);
    }
  }

  /** A line that comes back as it was: not empty, and nothing to trim. */
  predicate Solid(line: string) {
    line != "" && Trim(line) == line
  }

  /** That is: it neither begins nor ends with white space. */
  lemma SolidIs(line: string)
    ensures Solid(line) <==> line != "" && !White(line[0]) && !White(line[|line| - 1])
  {
    TrimIs(line);
    if line != "" && Bordered(line) {
      var i, j :| 0 <= i <= j <= |line| && Trim(line) == line[i..j] && AllWhite(line[..i]) && AllWhite(line[j..]);
      WhiteEnds(line, i, j);
      assert line[0..|line|] == line;
    }
  }

  lemma WhiteEnds(s: string, i: nat, j: nat)
    requires i <= j <= |s| && AllWhite(s[..i]) && AllWhite(s[j..])
    ensures forall k :: 0 <= k < i || j <= k < |s| ==> White(s[k])
  {
    assert forall k :: 0 <= k < i ==> s[k] == s[..i][k];
    assert forall k :: j <= k < |s| ==> s[k] == s[j..][k - j];
  }

  lemma {:induction false} AllKeptExactly(lines: seq<string>)
    ensures |AllKept(lines)| <= |lines|
    ensures AllKept(lines) == lines <==> forall i :: 0 <= i < |lines| ==> Solid(lines[i])
    decreases |lines|
  {
    if lines != [] {
      AllKeptExactly(lines[1..]);
      if Solid(lines[0]) {
        assert AllKept(lines)[1..] == AllKept(lines[1..]);
      } else if Trim(lines[0]) != "" {
        assert AllKept(lines)[0] == Trim(lines[0]);
      }
    }
  }

  /** Reading what was written gives the lines back exactly when each is solid. */
  lemma RoundTrip(lines: seq<string>)
    requires forall i :: 0 <= i < |lines| ==> OneLine(lines[i])
    ensures LinesOf(Written(lines)) == AllKept(lines)
    ensures LinesOf(Written(lines)) == lines <==> forall i :: 0 <= i < |lines| ==> Solid(lines[i])
  {
    WrittenIsEnded(lines, "");
    assert Written(lines) + "" == Written(lines);
    AllKeptExactly(lines);
  }

  lemma NoNewline(line: string)
    requires OneLine(line)
    ensures Newline(line) == -1 && Ended(line) == [] && Rest(line) == line
  {
    SseEvents.IndexOfIsFirst(line, '\n', 0);
  }

  /**
   * A stream cut off inside a line is not noticed here: the part that arrived is
   * read as a line of its own.
   */
  lemma CutLineIsRead(lines: seq<string>, part: string)
    requires forall i :: 0 <= i < |lines| ==> OneLine(lines[i])
    requires OneLine(part)
    ensures LinesOf(Written(lines) + part) == AllKept(lines) + Kept(part)
  {
    WrittenIsEnded(lines, part);
    NoNewline(part);
    assert AllKept(lines) + [] == AllKept(lines);
  }

  lemma {:induction false} AllKeptSnoc(lines: seq<string>, last: string)
    ensures AllKept(lines + [last]) == AllKept(lines) + Kept(last)
    decreases |lines|
  {
    if lines == [] {
      assert [last][1..] == [] && lines + [last] == [last];
    } else {
      assert (lines + [last])[1..] == lines[1..] + [last];
      AllKeptSnoc(lines[1..], last);
    }
  }

  /** A stream cut off inside a line yields no damaged line exactly if none or all of the line had arrived, but for white space. */
  lemma DamagedExactly(lines: seq<string>, part: string, line: string)
    requires forall i :: 0 <= i < |lines| ==> OneLine(lines[i])
    requires OneLine(line) && part <= line
    ensures LinesOf(Written(lines) + part) <= AllKept(lines + [line]) <==> Trim(part) == "" || Trim(part) == Trim(line)
  {
    assert forall i :: 0 <= i < |part| ==> part[i] == line[i];
    CutLineIsRead(lines, part);
    AllKeptSnoc(lines, line);
    var read, sent := AllKept(lines) + Kept(part), AllKept(lines) + Kept(line);
    assert Trim(part) != "" ==> read[|AllKept(lines)|] == Trim(part);
    assert Trim(line) != "" ==> sent[|AllKept(lines)|] == Trim(line);
  }

  /** A number that lost its last digit. */
  lemma CutNumberIsRead()
    ensures "1" < Written(["12"]) && LinesOf("1") == ["1"]
  {
    assert Written(["12"]) == "12" + "\n" + Written([]);
    assert Trim("1") == "1";
    CutLineIsRead([], "1");
    assert Written([]) + "1" == "1" && AllKept([]) + Kept("1") == ["1"];
  }
}
