/**
 * Item streams as server-sent events: the encoder with its keep-alive timer, the
 * reader of output events, and what a reader makes of what an encoder wrote,
 * whole or cut off.
 */
module SseStreams {
  import opened Basics
  import opened SseEvents

  // ---- Writing ----

  /** One `enqueue`: a keep-alive comment, an item, or one of the two ends. */
  datatype Piece = Comment | Message(line: string) | Failure(line: string) | Close

  const COMMENT := ":\n\n"
  const CLOSE_EVENT := "event: close\n\n"

  function EncodeEvent(event: string, data: string): string {
    "event: " + event + "\n" + "data: " + data + "\n" + "\n"
  }

  function Text(piece: Piece): string {
    match piece
    case Comment => COMMENT
    case Message(line) => EncodeEvent("message", line)
    case Failure(line) => EncodeEvent("error", line)
    case Close => CLOSE_EVENT
  }

  function TextOf(pieces: seq<Piece>): string {
    Joined(Texts(pieces))
  }

  function Texts(pieces: seq<Piece>): (texts: seq<string>)
    ensures |texts| == |pieces|
  {
    seq(|pieces|, i requires 0 <= i < |pieces| => Text(pieces[i]))
  }

  function Joined(texts: seq<string>): string
    decreases |texts|
  {
    if texts == [] then "" else texts[0] + Joined(texts[1..])
  }

  predicate IsEnd(piece: Piece) {
    piece.Failure? || piece.Close?
  }

  /** The items among the pieces. */
  function Lines(pieces: seq<Piece>): seq<string>
    decreases |pieces|
  {
    if pieces == [] then [] else (if pieces[0].Message? then [pieces[0].line] else []) + Lines(pieces[1..])
  }

  /** An end comes last, if it comes at all. */
  predicate EndsOnce(pieces: seq<Piece>) {
    forall i :: 0 <= i < |pieces| - 1 ==> !IsEnd(pieces[i])
  }

  predicate Complete(pieces: seq<Piece>) {
    pieces != [] && IsEnd(pieces[|pieces| - 1])
  }

  /** What one `pull` finds: the iterator yields, ends, or it or the item's encoding throws. */
  datatype Next = Yields(line: string) | Ends | Throws(line: string)

  /** `open` is the stream's controller; `pieces` and `pulled` are observations. */
  datatype Encoder = Encoder(timer: bool, closed: bool, open: bool, pieces: seq<Piece>, pulled: seq<string>)

  function Started(keepAliveMs: int): Encoder {
    Encoder(keepAliveMs > 0, false, true, [Comment], [])
  }

  function Stopped(e: Encoder): Encoder {
    e.(closed := true, timer := false)
  }

  function Ticked(e: Encoder): Encoder {
    if !e.timer || e.closed then e else if e.open then e.(pieces := e.pieces + [Comment]) else Stopped(e)
  }

  function Finished(e: Encoder, piece: Piece): Encoder {
    if e.open then Stopped(e.(open := false, pieces := e.pieces + [piece])) else e
  }

  /** A pull that finds the stream cancelled cannot enqueue anything. */
  function Pulled(e: Encoder, next: Next): Encoder {
    match next
    case Yields(line) =>
      if e.open then e.(pieces := e.pieces + [Message(line)], pulled := e.pulled + [line]) else e
    case Ends => Finished(e, Close)
    case Throws(line) => Finished(e, Failure(line))
  }

  function Abandoned(e: Encoder): Encoder {
    Stopped(e.(open := false))
  }

  datatype Event = Ticks | Pulls(next: Next) | Cancels

  function Step(e: Encoder, event: Event): Encoder {
    match event
    case Ticks => Ticked(e)
    case Pulls(next) => Pulled(e, next)
    case Cancels => Abandoned(e)
  }

  function Run(e: Encoder, events: seq<Event>): Encoder
    decreases |events|
  {
    if events == [] then e else Run(Step(e, events[0]), events[1..])
  }

  /** One end at most, nothing behind it, and every pulled item in order. */
  predicate Orderly(e: Encoder) {
    && EndsOnce(e.pieces)
    && Lines(e.pieces) == e.pulled
    && (e.open ==> !e.closed && !Complete(e.pieces))
    && (!e.open ==> e.closed && !e.timer)
    && e.pieces != [] && e.pieces[0].Comment?
  }

  lemma {:induction false} LinesSnoc(pieces: seq<Piece>, last: Piece)
    ensures Lines(pieces + [last]) == Lines(pieces) + (if last.Message? then [last.line] else [])
    decreases |pieces|
  {
    if pieces == [] {
      assert pieces + [last] == [last];
    } else {
      var rest, own := pieces[1..], if pieces[0].Message? then [pieces[0].line] else [];
      LinesSnoc(rest, last);
      assert (pieces + [last])[1..] == rest + [last];
      var tail := if last.Message? then [last.line] else [];
      assert own + (Lines(rest) + tail) == (own + Lines(rest)) + tail;
    }
  }

  lemma StepIsOrderly(e: Encoder, event: Event)
    requires Orderly(e)
    ensures Orderly(Step(e, event))
  {
    LinesSnoc(e.pieces, Comment);
    if event.Pulls? {
      match event.next {
        case Yields(line) => LinesSnoc(e.pieces, Message(line));
        case Ends => LinesSnoc(e.pieces, Close);
        case Throws(line) => LinesSnoc(e.pieces, Failure(line));
      }
    }
  }

  /** However the timer, the iterator and the consumer interleave. */
  lemma {:induction false} EveryRunIsOrderly(e: Encoder, events: seq<Event>)
    requires Orderly(e)
    ensures Orderly(Run(e, events))
    decreases |events|
  {
    if events != [] {
      StepIsOrderly(e, events[0]);
      EveryRunIsOrderly(Step(e, events[0]), events[1..]);
    }
  }

  /**
   * What a consumer is sent after the first comment: every item in order, a comment for
   * every tick if there is a keep-alive, then one end, and nothing once it has cancelled.
   */
  function Expected(timed: bool, events: seq<Event>): seq<Piece>
    decreases |events|
  {
    if events == [] then []
    else
      match events[0]
      case Cancels => []
      case Ticks => (if timed then [Comment] else []) + Expected(timed, events[1..])
      case Pulls(Yields(line)) => [Message(line)] + Expected(timed, events[1..])
      case Pulls(Ends) => [Close]
      case Pulls(Throws(line)) => [Failure(line)]
  }

  /** A stream that is over stays as it is. */
  lemma {:induction false} OverStays(e: Encoder, events: seq<Event>)
    requires !e.open && e.closed && !e.timer
    ensures Run(e, events) == e
    decreases |events|
  {
    if events != [] {
      OverStays(Step(e, events[0]), events[1..]);
    }
  }

  lemma {:induction false} RunWrites(e: Encoder, events: seq<Event>)
    requires e.open && !e.closed
    ensures Run(e, events).pieces == e.pieces + Expected(e.timer, events)
    decreases |events|
  {
    if events == [] {
      assert e.pieces + [] == e.pieces;
    } else {
      var r := Step(e, events[0]);
      if r.open {
        RunWrites(r, events[1..]);
        var news := r.pieces[|e.pieces|..];
        assert r.pieces == e.pieces + news;
        assert e.pieces + news + Expected(e.timer, events[1..]) == e.pieces + (news + Expected(e.timer, events[1..]));
      } else {
        OverStays(r, events[1..]);
        assert e.pieces + [] == e.pieces;
      }
    }
  }

  /** Over every run: what was sent is what the iterator yielded, the ticks and the end, in order and complete. */
  lemma NothingIsLost(keepAliveMs: int, events: seq<Event>)
    ensures var e := Run(Started(keepAliveMs), events);
            && e.pieces == [Comment] + Expected(keepAliveMs > 0, events)
            && e.pulled == Lines(Expected(keepAliveMs > 0, events))
  {
    RunWrites(Started(keepAliveMs), events);
    EveryRunIsOrderly(Started(keepAliveMs), events);
    var sent := Expected(keepAliveMs > 0, events);
    assert ([Comment] + sent)[1..] == sent;
  }

  /** The encoder's object: the timer, the flag its callbacks share, and the chunks enqueued so far. */
  class SseEncoder {
    var timer: bool
    var closed: bool
    var open: bool
    var chunks: seq<string>
    ghost var pieces: seq<Piece>
    ghost var pulled: seq<string>

    ghost function State(): Encoder
      reads this
    {
      Encoder(timer, closed, open, pieces, pulled)
    }

    /** The chunks are the texts of the pieces. */
    ghost predicate Valid()
      reads this
    {
      && |chunks| == |pieces|
      && (forall i :: 0 <= i < |chunks| ==> chunks[i] == Text(pieces[i]))
    }

    constructor (keepAliveMs: int)
      ensures Valid() && State() == Started(keepAliveMs)
    {
      timer, closed, open, chunks := keepAliveMs > 0, false, true, [COMMENT];
      pieces, pulled := [Comment], [];
    }

    /** `controller.enqueue`, which throws on a stream that is no longer open. */
    method Enqueue(text: string, ghost piece: Piece) returns (ok: bool)
      requires Valid() && text == Text(piece)
      modifies this`chunks, this`pieces
      ensures Valid() && ok == open && pieces == if open then old(pieces) + [piece] else old(pieces)
    {
      ok := open;
      if open {
        chunks := chunks + [text];
        pieces := pieces + [piece];
      }
    }

    method Stop()
      modifies this`closed, this`timer
      ensures State() == Stopped(old(State()))
    {
      closed := true;
      timer := false;
    }

    method Tick()
      requires Valid()
      modifies this
      ensures Valid() && State() == Ticked(old(State()))
    {
      if !timer || closed {
        return;
      }
      var ok := Enqueue(COMMENT, Comment);
      if !ok {
        Stop();
      }
    }

    method Pull(next: Next)
      requires Valid()
      modifies this
      ensures Valid() && State() == Pulled(old(State()), next)
    {
      match next
      case Yields(line) =>
        var ok := Enqueue(EncodeEvent("message", line), Message(line));
        if ok {
          pulled := pulled + [line];
        }
      case Ends =>
        var ok := Enqueue(CLOSE_EVENT, Close);
        if ok {
          Stop();
          open := false;
        }
      case Throws(line) =>
        var ok := Enqueue(EncodeEvent("error", line), Failure(line));
        if ok {
          Stop();
          open := false;
        }
    }

    method Cancel()
      requires Valid()
      modifies this
      ensures Valid() && State() == Abandoned(old(State()))
    {
      Stop();
      open := false;
    }
  }

  // ---- Reading what was written ----

  /** A line an event can carry: JSON text has no line breaks and is not empty. */
  predicate Carriable(line: string) {
    line != "" && Clean(line)
  }

  predicate AllCarriable(pieces: seq<Piece>) {
    forall i :: 0 <= i < |pieces| && (pieces[i].Message? || pieces[i].Failure?) ==> Carriable(pieces[i].line)
  }

  /** The events written. */
  function Written(pieces: seq<Piece>): seq<SseEvents.Event>
    decreases |pieces|
  {
    if pieces == [] then []
    else
      (match pieces[0]
       case Comment => []
       case Message(line) => [SseEvents.Event("message", line)]
       case Failure(line) => [SseEvents.Event("error", line)]
       case Close => [SseEvents.Event("close", "")])
      + Written(pieces[1..])
  }

  /** The lines of one piece, each ended by a line feed. */
  function PieceLines(piece: Piece): seq<string> {
    match piece
    case Comment => [":", ""]
    case Message(line) => ["event: " + "message", "data: " + line, ""]
    case Failure(line) => ["event: " + "error", "data: " + line, ""]
    case Close => ["event: " + "close", ""]
  }

  function Terminated(lines: seq<string>): string
    decreases |lines|
  {
    if lines == [] then "" else lines[0] + "\n" + Terminated(lines[1..])
  }

  lemma LineIsCut(line: string, tail: string)
    requires Clean(line)
    ensures Split(line + "\n" + tail) == Cut([line] + Split(tail).lines, Split(tail).rest)
  {
    var s := line + "\n" + tail;
    BreakIs(s, 0, |line|);
    assert s[0..|line|] == line;
    SplitShift(s, |line| + 1, 0);
    assert s[|line| + 1..] == tail;
  }

  lemma OneMoreCut(line: string, more: string, lines: seq<string>, r: Cut)
    requires Clean(line) && Split(more) == Cut(lines + r.lines, r.rest)
    ensures Split(line + "\n" + more) == Cut(([line] + lines) + r.lines, r.rest)
  {
    LineIsCut(line, more);
    assert [line] + (lines + r.lines) == ([line] + lines) + r.lines;
  }

  lemma TerminatedCons(lines: seq<string>, tail: string)
    requires lines != []
    ensures Terminated(lines) + tail == lines[0] + "\n" + (Terminated(lines[1..]) + tail)
  {
  }

  lemma {:induction false} LinesAreCut(lines: seq<string>, tail: string)
    requires forall i :: 0 <= i < |lines| ==> Clean(lines[i])
    ensures Split(Terminated(lines) + tail) == Cut(lines + Split(tail).lines, Split(tail).rest)
    decreases |lines|
  {
    if lines == [] {
      assert Terminated(lines) + tail == tail;
    } else {
      TerminatedCons(lines, tail);
      LinesAreCut(lines[1..], tail);
      OneMoreCut(lines[0], Terminated(lines[1..]) + tail, lines[1..], Split(tail));
      assert [lines[0]] + lines[1..] == lines;
    }
  }

  lemma TerminatedOnes(a: string, b: string)
    ensures Terminated([a, ""]) == a + "\n" + "\n"
    ensures Terminated([a, b, ""]) == a + "\n" + b + "\n" + "\n"
  {
    assert [a, ""][1..] == [""] && [a, b, ""][1..] == [b, ""] && [b, ""][1..] == [""];
    assert Terminated([""]) == "\n";
    assert Terminated([b, ""]) == b + "\n" + "\n";
  }

  lemma PieceText(piece: Piece)
    ensures Text(piece) == Terminated(PieceLines(piece))
  {
    match piece
    case Comment => TerminatedOnes(":", "");
    case Message(line) => TerminatedOnes("event: " + "message", "data: " + line);
    case Failure(line) => TerminatedOnes("event: " + "error", "data: " + line);
    case Close => TerminatedOnes("event: " + "close", "");
  }

  lemma PieceLinesAreClean(piece: Piece)
    requires piece.Message? || piece.Failure? ==> Clean(piece.line)
    ensures forall i :: 0 <= i < |PieceLines(piece)| ==> Clean(PieceLines(piece)[i])
  {
  }

  lemma DataLine(line: string)
    ensures Field("data: " + line) == "data" && Value("data: " + line) == line && ("data: " + line)[..1] != ":"
  {
    var s := "data: " + line;
    IndexOfIsFirst(s, ':', 0);
    assert s[4] == ':' && s[0] != ':' && s[1] != ':' && s[2] != ':' && s[3] != ':';
    assert IndexOf(s, ':', 0) == 4;
    assert s[..4] == "data" && s[5..] == " " + line;
    assert (" " + line)[1..] == line;
  }

  lemma EventLine(kind: string)
    ensures Field("event: " + kind) == "event" && Value("event: " + kind) == kind && ("event: " + kind)[..1] != ":"
  {
    var s := "event: " + kind;
    IndexOfIsFirst(s, ':', 0);
    assert s[5] == ':' && s[0] != ':' && s[1] != ':' && s[2] != ':' && s[3] != ':' && s[4] != ':';
    assert IndexOf(s, ':', 0) == 5;
    assert s[..5] == "event" && s[6..] == " " + kind;
    assert (" " + kind)[1..] == kind;
  }

  /** Event and data come back from their two lines. */
  lemma EventLinesRead(kind: string, data: string)
    requires kind != "" && Carriable(data)
    ensures var lines := ["event: " + kind, "data: " + data, ""];
            Events(EMPTY, lines) == [SseEvents.Event(kind, data)] && AfterLines(EMPTY, lines) == EMPTY
  {
    var lines := ["event: " + kind, "data: " + data, ""];
    EventLine(kind);
    DataLine(data);
    var p1 := AfterLine(EMPTY, lines[0]);
    assert p1 == Parser("", kind);
    var p2 := AfterLine(p1, lines[1]);
    assert p2 == Parser(data + "\n", kind);
    assert WithoutFinalLf(data + "\n") == data;
    assert lines[1..] == [lines[1], ""] && lines[1..][1..] == [""];
    var p3 := AfterLine(p2, "");
    assert p3 == EMPTY && AfterLines(p2, [""]) == AfterLines(p3, []);
    assert AfterLines(p1, lines[1..]) == AfterLines(p2, [""]);
    assert Events(p1, lines[1..]) == Events(p2, [""]);
    assert Events(p2, [""]) == (if Dispatched(p2).Some? then [Dispatched(p2).value] else []);
  }

  lemma CommentRead()
    ensures Events(EMPTY, [":", ""]) == [] && AfterLines(EMPTY, [":", ""]) == EMPTY
  {
    assert [":", ""][1..] == [""];
    assert AfterLine(EMPTY, ":") == EMPTY && AfterLine(EMPTY, "") == EMPTY;
    assert Dispatched(EMPTY).None?;
    assert Events(EMPTY, [""]) == [] && AfterLines(EMPTY, [""]) == EMPTY;
  }

  lemma CloseRead()
    ensures var lines := ["event: " + "close", ""];
            Events(EMPTY, lines) == [SseEvents.Event("close", "")] && AfterLines(EMPTY, lines) == EMPTY
  {
    var lines := ["event: " + "close", ""];
    EventLine("close");
    var p1 := AfterLine(EMPTY, lines[0]);
    assert p1 == Parser("", "close");
    assert lines[1..] == [""];
    assert Events(p1, [""]) == [SseEvents.Event("close", "")] && AfterLines(p1, [""]) == EMPTY;
  }

  lemma PieceRead(piece: Piece)
    requires piece.Message? || piece.Failure? ==> Carriable(piece.line)
    ensures Events(EMPTY, PieceLines(piece)) == Written([piece]) && AfterLines(EMPTY, PieceLines(piece)) == EMPTY
  {
    match piece
    case Comment => CommentRead();
    case Message(line) => EventLinesRead("message", line);
    case Failure(line) => EventLinesRead("error", line);
    case Close => CloseRead();
  }

  lemma WrittenCons(pieces: seq<Piece>)
    requires pieces != []
    ensures Written(pieces) == Written([pieces[0]]) + Written(pieces[1..])
  {
    assert [pieces[0]][1..] == [];
    assert Written([]) == [];
  }

  /** All lines of what was written. */
  function AllLines(pieces: seq<Piece>): seq<string>
    decreases |pieces|
  {
    if pieces == [] then [] else PieceLines(pieces[0]) + AllLines(pieces[1..])
  }

  lemma {:induction false} WrittenIsCut(pieces: seq<Piece>)
    requires AllCarriable(pieces)
    ensures Split(TextOf(pieces)) == Cut(AllLines(pieces), "")
    decreases |pieces|
  {
    if pieces != [] {
      TextCons(pieces);
      PieceText(pieces[0]);
      PieceLinesAreClean(pieces[0]);
      LinesAreCut(PieceLines(pieces[0]), TextOf(pieces[1..]));
      WrittenIsCut(pieces[1..]);
    }
  }

  lemma {:induction false} LinesAreWritten(pieces: seq<Piece>)
    requires AllCarriable(pieces)
    ensures Events(EMPTY, AllLines(pieces)) == Written(pieces) && AfterLines(EMPTY, AllLines(pieces)) == EMPTY
    decreases |pieces|
  {
    if pieces != [] {
      PieceRead(pieces[0]);
      EventsInTwo(EMPTY, PieceLines(pieces[0]), AllLines(pieces[1..]));
      LinesAreWritten(pieces[1..]);
      WrittenCons(pieces);
    }
  }

  /** Reading what was written gives the events written, comments and all left out. */
  lemma RoundTrip(pieces: seq<Piece>)
    requires AllCarriable(pieces)
    ensures EventsOf(TextOf(pieces)) == Written(pieces)
  {
    WrittenIsCut(pieces);
    LinesAreWritten(pieces);
  }

  // ---- Reading items ----

  /** What decoding one event's data comes to. */
  datatype Decoded<+T, +E> = Output(value: T) | Failed(error: E)

  /** How reading ends: at `close`, with the server's error, with a bad error event, or cut off. */
  datatype Ending<+E> = Closed | ServerError(error: E) | InvalidError | Truncated

  datatype Reading<+T, +E> = Reading(outputs: seq<T>, ending: Ending<E>)

  function Read<T, E>(events: seq<SseEvents.Event>, decode: string -> Decoded<T, E>): Reading<T, E>
    decreases |events|
  {
    if events == [] then Reading([], Truncated)
    else if events[0].event == "close" then Reading([], Closed)
    else
      var decoded := decode(events[0].data);
      if events[0].event == "error" then
        Reading([], if decoded.Failed? then ServerError(decoded.error) else InvalidError)
      else if events[0].event != "message" then Read(events[1..], decode)
      else if decoded.Failed? then Reading([], ServerError(decoded.error))
      else
        var r := Read(events[1..], decode);
        Reading([decoded.value] + r.outputs, r.ending)
  }

  /** An event that the reader goes on after: an item that decodes, or one it does not know. */
  predicate Passes<T, E>(event: SseEvents.Event, decode: string -> Decoded<T, E>) {
    if event.event == "message" then decode(event.data).Output? else event.event != "close" && event.event != "error"
  }

  /** The items among these events. */
  function Messages<T, E>(events: seq<SseEvents.Event>, decode: string -> Decoded<T, E>): seq<T>
    requires forall i :: 0 <= i < |events| ==> Passes(events[i], decode)
    decreases |events|
  {
    if events == [] then []
    else
      assert Passes(events[0], decode);
      (if events[0].event == "message" then [decode(events[0].data).value] else []) + Messages(events[1..], decode)
  }

  /**
   * A reader yields the items before the first event it cannot go on after, and ends
   * for the reason that this one gives: `close`, the server's error, an error event
   * without one, or that there is none.
   */
  lemma {:induction false} ReadsToTheEnd<T, E>(events: seq<SseEvents.Event>, n: nat, decode: string -> Decoded<T, E>)
    requires n <= |events| && forall i :: 0 <= i < n ==> Passes(events[i], decode)
    requires n < |events| ==> !Passes(events[n], decode)
    ensures Read(events, decode).outputs == Messages(events[..n], decode)
    ensures var ending := Read(events, decode).ending;
            && (n == |events| ==> ending.Truncated?)
            && (n < |events| && events[n].event == "close" ==> ending.Closed?)
            && (n < |events| && events[n].event != "close" ==>
                  match decode(events[n].data)
                  case Failed(error) => ending == ServerError(error)
                  case Output(_) => ending.InvalidError?)
    decreases n
  {
    if n > 0 {
      assert events[..n][1..] == events[1..][..n - 1];
      ReadsToTheEnd(events[1..], n - 1, decode);
    }
  }

  /** The items yielded so far and the reading of the events still to come make up the whole reading. */
  ghost predicate Reads<T, E>(whole: Reading<T, E>, outputs: seq<T>, rest: seq<SseEvents.Event>, decode: string -> Decoded<T, E>) {
    whole == Reading(outputs + Read(rest, decode).outputs, Read(rest, decode).ending)
  }

  /** What the next event does to a reading. */
  lemma ReadsOne<T, E>(whole: Reading<T, E>, outputs: seq<T>, rest: seq<SseEvents.Event>, decode: string -> Decoded<T, E>)
    requires rest != [] && Reads(whole, outputs, rest, decode)
    ensures var event, decoded := rest[0], decode(rest[0].data);
            if event.event == "close" then whole == Reading(outputs, Closed)
            else if event.event == "error" then
              whole == Reading(outputs, if decoded.Failed? then ServerError(decoded.error) else InvalidError)
            else if event.event != "message" then Reads(whole, outputs, rest[1..], decode)
            else if decoded.Failed? then whole == Reading(outputs, ServerError(decoded.error))
            else Reads(whole, outputs + [decoded.value], rest[1..], decode)
  {
    var more := Read(rest[1..], decode).outputs;
    assert outputs + [] == outputs;
    if decode(rest[0].data).Output? {
      var value := decode(rest[0].data).value;
      assert outputs + ([value] + more) == outputs + [value] + more;
    }
  }

  /** The loop over the events of a stream. */
  method ReadItems<T, E>(events: seq<SseEvents.Event>, decode: string -> Decoded<T, E>)
    returns (outputs: seq<T>, ending: Ending<E>)
    ensures Reading(outputs, ending) == Read(events, decode)
  {
    ghost var whole := Read(events, decode);
    outputs := [];
    var i := 0;
    assert events[0..] == events && [] + whole.outputs == whole.outputs;
    while i < |events|
      invariant 0 <= i <= |events|
      invariant Reads(whole, outputs, events[i..], decode)
    {
      ReadsOne(whole, outputs, events[i..], decode);
      assert events[i..][1..] == events[i + 1..];
      var event := events[i];
      i := i + 1;
      if event.event == "close" {
        return outputs, Closed;
      }
      if event.event == "error" {
        var failure := decode(event.data);
        return outputs, if failure.Failed? then ServerError(failure.error) else InvalidError;
      }
      if event.event != "message" {
        continue;
      }
      var decoded := decode(event.data);
      if decoded.Failed? {
        return outputs, ServerError(decoded.error);
      }
      outputs := outputs + [decoded.value];
    }
    assert outputs + [] == outputs;
    return outputs, Truncated;
  }

  method ReadOutputEvents<T, E>(chunks: seq<string>, decode: string -> Decoded<T, E>)
    returns (outputs: seq<T>, ending: Ending<E>)
    ensures Reading(outputs, ending) == Read(EventsOf(Concat(chunks)), decode)
  {
    var events := ReadSseEvents(chunks);
    outputs, ending := ReadItems(events, decode);
  }

  /** Item lines decode to items, failure lines to errors. */
  ghost predicate Decodes<T, E>(pieces: seq<Piece>, decode: string -> Decoded<T, E>) {
    forall i :: 0 <= i < |pieces| ==>
      && (pieces[i].Message? ==> decode(pieces[i].line).Output?)
      && (pieces[i].Failure? ==> decode(pieces[i].line).Failed?)
  }

  function Items<T, E>(lines: seq<string>, decode: string -> Decoded<T, E>): seq<T>
    requires forall i :: 0 <= i < |lines| ==> decode(lines[i]).Output?
  {
    seq(|lines|, i requires 0 <= i < |lines| => decode(lines[i]).value)
  }

  /** How a reader must end. */
  function EndingOf<T, E>(pieces: seq<Piece>, decode: string -> Decoded<T, E>): Ending<E> {
    if !Complete(pieces) then Truncated
    else
      var last := pieces[|pieces| - 1];
      if last.Close? then Closed
      else
        var decoded := decode(last.line);
        if decoded.Failed? then ServerError(decoded.error) else InvalidError
  }

  lemma {:induction false} LinesDecode<T, E>(pieces: seq<Piece>, decode: string -> Decoded<T, E>)
    requires Decodes(pieces, decode)
    ensures forall i :: 0 <= i < |Lines(pieces)| ==> decode(Lines(pieces)[i]).Output?
    decreases |pieces|
  {
    if pieces != [] {
      LinesDecode(pieces[1..], decode);
    }
  }

  lemma ReadMessage<T, E>(line: string, rest: seq<SseEvents.Event>, decode: string -> Decoded<T, E>)
    requires decode(line).Output?
    ensures var r := Read(rest, decode);
            Read([SseEvents.Event("message", line)] + rest, decode) == Reading([decode(line).value] + r.outputs, r.ending)
  {
    assert ([SseEvents.Event("message", line)] + rest)[1..] == rest;
  }

  lemma ItemsCons<T, E>(line: string, rest: seq<string>, decode: string -> Decoded<T, E>)
    requires decode(line).Output? && forall i :: 0 <= i < |rest| ==> decode(rest[i]).Output?
    ensures Items([line] + rest, decode) == [decode(line).value] + Items(rest, decode)
  {
  }

  /** An end stands alone at the end. */
  lemma ReadEnd<T, E>(end: Piece, decode: string -> Decoded<T, E>)
    requires IsEnd(end)
    ensures Read(Written([end]), decode) == Reading([], EndingOf([end], decode)) && Lines([end]) == []
  {
    assert [end][1..] == [] && Written([]) == [];
  }

  lemma EndingOfRest<T, E>(pieces: seq<Piece>, decode: string -> Decoded<T, E>)
    requires pieces != [] && !IsEnd(pieces[0])
    ensures EndingOf(pieces, decode) == EndingOf(pieces[1..], decode)
  {
    if pieces[1..] == [] {
      assert pieces == [pieces[0]];
    }
  }

  lemma {:induction false} ReadWritten<T, E>(pieces: seq<Piece>, decode: string -> Decoded<T, E>)
    requires EndsOnce(pieces) && Decodes(pieces, decode)
    requires forall i :: 0 <= i < |Lines(pieces)| ==> decode(Lines(pieces)[i]).Output?
    ensures Read(Written(pieces), decode) == Reading(Items(Lines(pieces), decode), EndingOf(pieces, decode))
    decreases |pieces|
  {
    if pieces != [] {
      var rest := pieces[1..];
      if IsEnd(pieces[0]) {
        assert pieces == [pieces[0]];
        ReadEnd(pieces[0], decode);
        assert Items(Lines(pieces), decode) == [];
      } else {
        LinesDecode(rest, decode);
        ReadWritten(rest, decode);
        EndingOfRest(pieces, decode);
        if pieces[0].Message? {
          ReadMessage(pieces[0].line, Written(rest), decode);
          ItemsCons(pieces[0].line, Lines(rest), decode);
        } else {
          assert Written(pieces) == Written(rest) && Lines(pieces) == Lines(rest);
        }
      }
    }
  }

  /**
   * The whole way, for every interleaving of items, keep-alive comments and ends,
   * and every chunking: the reader yields exactly the items pulled so far, and
   * ends as the encoder did.
   */
  lemma StreamRoundTrip<T, E>(keepAliveMs: int, events: seq<Event>, chunks: seq<string>, decode: string -> Decoded<T, E>)
    requires var e := Run(Started(keepAliveMs), events);
             AllCarriable(e.pieces) && Decodes(e.pieces, decode) && Concat(chunks) == TextOf(e.pieces)
    ensures var e := Run(Started(keepAliveMs), events);
            && (forall i :: 0 <= i < |e.pulled| ==> decode(e.pulled[i]).Output?)
            && Read(EventsOf(Concat(chunks)), decode) == Reading(Items(e.pulled, decode), EndingOf(e.pieces, decode))
  {
    var e := Run(Started(keepAliveMs), events);
    EveryRunIsOrderly(Started(keepAliveMs), events);
    RoundTrip(e.pieces);
    LinesDecode(e.pieces, decode);
    ReadWritten(e.pieces, decode);
  }

  // ---- Cut off ----

  lemma {:induction false} JoinedSnoc(texts: seq<string>, last: string)
    ensures Joined(texts + [last]) == Joined(texts) + last
    decreases |texts|
  {
    if texts == [] {
      assert texts + [last] == [last];
      assert [last][1..] == [];
      assert Joined([last]) == last + "";
    } else {
      var first, rest := texts[0], Joined(texts[1..]);
      assert (texts + [last])[1..] == texts[1..] + [last];
      JoinedSnoc(texts[1..], last);
      assert first + (rest + last) == first + rest + last;
    }
  }

  lemma TextSnoc(pieces: seq<Piece>, last: Piece)
    ensures TextOf(pieces + [last]) == TextOf(pieces) + Text(last)
  {
    assert Texts(pieces + [last]) == Texts(pieces) + [Text(last)];
    JoinedSnoc(Texts(pieces), Text(last));
  }

  lemma TextCons(pieces: seq<Piece>)
    requires pieces != []
    ensures TextOf(pieces) == Text(pieces[0]) + TextOf(pieces[1..])
  {
    assert Texts(pieces)[1..] == Texts(pieces[1..]);
  }

  /** Every line of a piece but its last, which is empty. */
  function Almost(piece: Piece): seq<string> {
    PieceLines(piece)[..|PieceLines(piece)| - 1]
  }

  lemma AllButTheLastCharacter(pieces: seq<Piece>)
    requires pieces != []
    ensures var text, init := TextOf(pieces), pieces[..|pieces| - 1];
            text == TextOf(init) + Terminated(Almost(pieces[|pieces| - 1])) + "\n"
  {
    var init, last := pieces[..|pieces| - 1], pieces[|pieces| - 1];
    assert pieces == init + [last];
    TextSnoc(init, last);
    PieceText(last);
    DropsFinalLf(last);
    assert TextOf(init) + (Terminated(Almost(last)) + "\n") == TextOf(init) + Terminated(Almost(last)) + "\n";
  }

  lemma AlmostRead(piece: Piece)
    requires piece.Message? || piece.Failure? ==> Carriable(piece.line)
    ensures EventsOf(Terminated(Almost(piece))) == []
  {
    PieceLinesAreClean(piece);
    LinesAreCut(Almost(piece), "");
    assert Terminated(Almost(piece)) + "" == Terminated(Almost(piece));
    assert Almost(piece) + [] == Almost(piece);
    NoEventYet(piece);
  }

  /** The last event of a complete stream is completed by its very last character. */
  lemma AllButTheEnd(init: seq<Piece>, last: Piece)
    requires AllCarriable(init) && (last.Message? || last.Failure? ==> Carriable(last.line))
    ensures EventsOf(TextOf(init) + Terminated(Almost(last))) == Written(init)
  {
    WrittenIsCut(init);
    LinesAreWritten(init);
    EventsOnlyGrow(TextOf(init), Terminated(Almost(last)));
    assert "" + Terminated(Almost(last)) == Terminated(Almost(last));
    AlmostRead(last);
  }

  lemma DropsFinalLf(last: Piece)
    ensures var lines := PieceLines(last);
            Terminated(lines) == Terminated(Almost(last)) + "\n"
  {
    assert PieceLines(last) == Almost(last) + [""];
    TerminatedSnoc(Almost(last), "");
    assert Terminated(Almost(last)) + "" == Terminated(Almost(last));
  }

  lemma {:induction false} TerminatedSnoc(lines: seq<string>, last: string)
    ensures Terminated(lines + [last]) == Terminated(lines) + last + "\n"
    decreases |lines|
  {
    if lines == [] {
      assert lines + [last] == [last];
      assert [last][1..] == [];
      assert Terminated([last]) == last + "\n" + "";
    } else {
      assert (lines + [last])[1..] == lines[1..] + [last];
      TerminatedSnoc(lines[1..], last);
    }
  }

  lemma {:induction false} NoEventWithoutBlank(p: Parser, lines: seq<string>)
    requires forall i :: 0 <= i < |lines| ==> lines[i] != ""
    ensures Events(p, lines) == []
    decreases |lines|
  {
    if lines != [] {
      NoEventWithoutBlank(AfterLine(p, lines[0]), lines[1..]);
    }
  }

  lemma NoEventYet(last: Piece)
    ensures Events(EMPTY, Almost(last)) == []
  {
    NoEventWithoutBlank(EMPTY, Almost(last));
  }

  lemma {:induction false} ReadPrefix<T, E>(some: seq<SseEvents.Event>, pieces: seq<Piece>, decode: string -> Decoded<T, E>)
    requires some <= Written(pieces) && Decodes(pieces, decode)
    requires forall i :: 0 <= i < |pieces| ==> !IsEnd(pieces[i])
    requires forall i :: 0 <= i < |Lines(pieces)| ==> decode(Lines(pieces)[i]).Output?
    ensures Read(some, decode).ending == Truncated && Read(some, decode).outputs <= Items(Lines(pieces), decode)
    decreases |pieces|
  {
    if some != [] {
      var rest := pieces[1..];
      LinesDecode(rest, decode);
      if pieces[0].Comment? {
        ReadPrefix(some, rest, decode);
      } else {
        assert some[1..] <= Written(rest);
        ReadPrefix(some[1..], rest, decode);
        assert Items(Lines(pieces), decode) == [decode(pieces[0].line).value] + Items(Lines(rest), decode);
      }
    }
  }

  lemma PrefixGrows(text: string, most: string)
    requires text < most + "\n"
    ensures EventsOf(text) <= EventsOf(most)
  {
    assert text + most[|text|..] == most;
    EventsOnlyGrow(text, most[|text|..]);
  }

  /** Whatever is cut off, the last event goes first. */
  lemma CutShort(init: seq<Piece>, last: Piece, text: string)
    requires AllCarriable(init) && (last.Message? || last.Failure? ==> Carriable(last.line))
    requires text < TextOf(init) + Terminated(Almost(last)) + "\n"
    ensures EventsOf(text) <= Written(init)
  {
    AllButTheEnd(init, last);
    PrefixGrows(text, TextOf(init) + Terminated(Almost(last)));
  }

  lemma WithoutEnd<T, E>(pieces: seq<Piece>, decode: string -> Decoded<T, E>)
    requires AllCarriable(pieces) && Decodes(pieces, decode) && Complete(pieces) && EndsOnce(pieces)
    ensures var init := pieces[..|pieces| - 1];
            && AllCarriable(init) && Decodes(init, decode) && Lines(init) == Lines(pieces)
            && forall i :: 0 <= i < |init| ==> !IsEnd(init[i])
  {
    var init, last := pieces[..|pieces| - 1], pieces[|pieces| - 1];
    assert pieces == init + [last];
    LinesSnoc(init, last);
  }

  /**
   * Cutting a complete stream anywhere before its last character yields a prefix
   * of its items, undamaged, and is always noticed.
   */
  lemma TruncationIsNoticed<T, E>(keepAliveMs: int, events: seq<Event>, text: string, decode: string -> Decoded<T, E>)
    requires var e := Run(Started(keepAliveMs), events);
             AllCarriable(e.pieces) && Decodes(e.pieces, decode) && Complete(e.pieces) && text < TextOf(e.pieces)
    ensures var e := Run(Started(keepAliveMs), events);
            && (forall i :: 0 <= i < |e.pulled| ==> decode(e.pulled[i]).Output?)
            && Read(EventsOf(text), decode).ending == Truncated
            && Read(EventsOf(text), decode).outputs <= Items(e.pulled, decode)
  {
    var e := Run(Started(keepAliveMs), events);
    EveryRunIsOrderly(Started(keepAliveMs), events);
    CutOffRead(e.pieces, text, decode);
  }

  lemma CutOffRead<T, E>(pieces: seq<Piece>, text: string, decode: string -> Decoded<T, E>)
    requires AllCarriable(pieces) && Decodes(pieces, decode) && Complete(pieces) && EndsOnce(pieces)
    requires text < TextOf(pieces)
    ensures forall i :: 0 <= i < |Lines(pieces)| ==> decode(Lines(pieces)[i]).Output?
    ensures Read(EventsOf(text), decode).ending == Truncated
    ensures Read(EventsOf(text), decode).outputs <= Items(Lines(pieces), decode)
  {
    var init, last := pieces[..|pieces| - 1], pieces[|pieces| - 1];
    AllButTheLastCharacter(pieces);
    WithoutEnd(pieces, decode);
    CutShort(init, last, text);
    LinesDecode(init, decode);
    ReadPrefix(EventsOf(text), init, decode);
  }
}
