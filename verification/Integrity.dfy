/**
 * What callers and handlers can rely on, over every run of a connection: streams
 * arrive in order, without loss, repetition or items of other ids, and end
 * cleanly only when they are complete.
 */
module Integrity {
  import opened Basics
  import opened FrameCodec
  import opened Wire
  import opened Connection
  import opened Ends
  import opened Linkage
  import opened Streams
  import opened EndToEnd
  import S = Sessions
  import D = MemoryDuplexes
  import Q = PushQueues
  import C = ClientMux
  import CC = ClientCalls
  import V = ServerMux
  import SC = ServerCalls

  /** The values an output or input iterator has handed to its consumer. */
  function Seen(q: Option<Q.Queue<Payload>>): seq<Payload> {
    if q.Some? then Q.Yielded(q.value.settled) else []
  }

  /** A consumer was told that the iteration is over, without an error. */
  predicate SeenEnd(q: Option<Q.Queue<Payload>>) {
    q.Some? && exists i :: 0 <= i < |q.value.settled| && q.value.settled[i].End?
  }

  /** The server instance with this id, if the call ever got there. */
  ghost predicate Serves(w: World, j: nat, id: string) {
    j < |w.server.calls| && w.server.calls[j].id == id
  }

  lemma SeenIsPushed(q: Q.Queue<Payload>)
    requires Q.Good(q)
    ensures Seen(Some(q)) <= q.pushed
    ensures SeenEnd(Some(q)) ==> Seen(Some(q)) == q.pushed && q.closing.Ended?
  {
    if SeenEnd(Some(q)) {
      var i :| 0 <= i < |q.settled| && q.settled[i].End?;
      assert Q.Values(q.entries) == [];
    }
  }

  // ---- Items of prefixes ----

  lemma {:induction false} ItemsPrefix(a: seq<Frame>, b: seq<Frame>)
    requires a <= b
    ensures SC.Items(a) <= SC.Items(b) && CC.InItems(a) <= CC.InItems(b)
    decreases |b|
  {
    if a != b {
      ItemsPrefix(a, b[..|b| - 1]);
    }
  }

  /** Nothing follows a `done`. */
  lemma DoneIsLast(a: seq<Frame>, b: seq<Frame>)
    requires a <= b && SC.Legal(b) && (SC.EndsWithDone(a) || (a != [] && a[|a| - 1].ResultOk?))
    ensures a == b
  {
    assert b[|a| - 1] == a[|a| - 1];
  }

  /** No input follows an `in-done`. */
  lemma {:induction false} InDoneIsLast(a: seq<Frame>, b: seq<Frame>)
    requires a <= b && CC.Legal(b) && CC.HasInDone(a)
    ensures CC.InItems(a) == CC.InItems(b)
    decreases |b|
  {
    if a != b {
      var i :| 0 <= i < |a| && a[i].InDone?;
      assert b[i].InDone? && b[|b| - 1].Cancel?;
      LegalPrefix(b[..|b| - 1], b);
      InDoneIsLast(a, b[..|b| - 1]);
    }
  }

  // ---- From the handler to the caller ----

  lemma InstanceFrames(w: World, j: nat)
    requires Sound(w) && j < |w.server.calls|
    ensures Of(Frames(w.server.log), w.server.calls[j].id) == V.FramesBy(w.server.log, j)
    ensures SC.CallOk(w.server.calls[j], V.FramesBy(w.server.log, j))
  {
    LogLabelled(w.server, w.pipe.toB.received);
    OnlyItsOwn(w.server, w.server.log, j);
  }

  /** An id whose frames reached the client has an instance. */
  lemma FramesHaveAnInstance(w: World, id: string)
    requires Sound(w) && For(w.pipe.toA.received, id) != []
    ensures exists j :: Serves(w, j, id)
  {
    ReceivedWasSent(w, id);
    SentIsLegal(w.server, w.pipe.toB.received, id);
    var j :| 0 <= j < |w.server.calls| && w.server.calls[j].id == id;
    assert Serves(w, j, id);
  }

  lemma TakenWasProduced(w: World, k: nat, j: nat)
    requires Sound(w) && k < |w.client.calls| && Serves(w, j, w.client.calls[k].id)
    ensures Taken(w.client.calls[k]) <= w.server.calls[j].produced
    ensures w.client.calls[k].cause == Some(CC.ByDone) ==>
              w.server.calls[j].exhausted && Taken(w.client.calls[k]) == w.server.calls[j].produced
  {
    var c := w.client.calls[k];
    var received, sent := For(w.pipe.toA.received, c.id), V.FramesBy(w.server.log, j);
    ReceivedWasSent(w, c.id);
    InstanceFrames(w, j);
    ItemsPrefix(received, sent);
    assert OutOk(c, received);
    if c.cause == Some(CC.ByDone) {
      DoneIsLast(received, sent);
    }
  }

  /**
   * What a caller's iterator has yielded is a prefix of what the handler of that
   * id produced. It ends cleanly only when the consumer called `return`, or the
   * handler's iterator ended by itself and everything it produced was yielded.
   */
  lemma OutputIntegrity(setup: Setup, hello: Attempt, events: seq<Event>, k: nat, j: nat)
    requires var w := Run(Begin(setup, hello), events); k < |w.client.calls| && Serves(w, j, w.client.calls[k].id)
    ensures var w := Run(Begin(setup, hello), events);
            var c, h := w.client.calls[k], w.server.calls[j];
            && Seen(c.output) <= h.produced
            && (SeenEnd(c.output) ==> c.cause == Some(CC.ByReturn) || (h.exhausted && Seen(c.output) == h.produced))
  {
    BeginIsSound(setup, hello);
    EveryRunIsSound(Begin(setup, hello), events);
    var w := Run(Begin(setup, hello), events);
    var c := w.client.calls[k];
    TakenWasProduced(w, k, j);
    assert CC.OutputOk(c);
    if c.output.Some? {
      SeenIsPushed(c.output.value);
    }
  }

  lemma UnservedYieldsNothing(w: World, k: nat)
    requires Sound(w) && k < |w.client.calls| && !exists j :: Serves(w, j, w.client.calls[k].id)
    ensures OutOk(w.client.calls[k], [])
  {
    var id := w.client.calls[k].id;
    if For(w.pipe.toA.received, id) != [] {
      FramesHaveAnInstance(w, id);
    }
  }

  lemma NothingGiven(c: CC.CallState)
    requires CC.OutputOk(c) && OutOk(c, [])
    ensures Seen(c.output) == [] && (SeenEnd(c.output) ==> c.cause == Some(CC.ByReturn))
    ensures c.settlements != [] ==> !c.settlements[0].Value?
  {
    if c.output.Some? {
      SeenIsPushed(c.output.value);
    }
  }

  /** A call that no instance serves yields nothing, ends only by `return`, and has no value. */
  lemma NoInstanceNoOutput(setup: Setup, hello: Attempt, events: seq<Event>, k: nat)
    requires var w := Run(Begin(setup, hello), events);
             k < |w.client.calls| && !exists j :: Serves(w, j, w.client.calls[k].id)
    ensures var c := Run(Begin(setup, hello), events).client.calls[k];
            && Seen(c.output) == []
            && (SeenEnd(c.output) ==> c.cause == Some(CC.ByReturn))
            && (c.settlements != [] ==> !c.settlements[0].Value?)
  {
    BeginIsSound(setup, hello);
    EveryRunIsSound(Begin(setup, hello), events);
    var w := Run(Begin(setup, hello), events);
    UnservedYieldsNothing(w, k);
    NothingGiven(w.client.calls[k]);
  }

  /** A call promise that resolves to a value resolves to what the handler of its id returned, sent in one result. */
  lemma ResultIntegrity(setup: Setup, hello: Attempt, events: seq<Event>, k: nat, j: nat)
    requires var w := Run(Begin(setup, hello), events);
             k < |w.client.calls| && Serves(w, j, w.client.calls[k].id)
             && w.client.calls[k].settlements != [] && w.client.calls[k].settlements[0].Value?
    ensures var w := Run(Begin(setup, hello), events);
            var c, h := w.client.calls[k], w.server.calls[j];
            && h.ending == Some(SC.Returned(c.settlements[0].output))
            && V.FramesBy(w.server.log, j) == [ResultOk(c.id, c.settlements[0].output)]
  {
    BeginIsSound(setup, hello);
    EveryRunIsSound(Begin(setup, hello), events);
    var w := Run(Begin(setup, hello), events);
    var c := w.client.calls[k];
    ReceivedWasSent(w, c.id);
    InstanceFrames(w, j);
    assert OutOk(c, For(w.pipe.toA.received, c.id));
    ResultIsExplained(w.server.calls[j], For(w.pipe.toA.received, c.id), V.FramesBy(w.server.log, j),
                      c.id, c.settlements[0].output);
  }

  lemma ResultIsExplained(h: SC.CallState, received: seq<Frame>, sent: seq<Frame>, id: string, output: Payload)
    requires SC.CallOk(h, sent) && received <= sent && received == [ResultOk(id, output)]
    ensures received == sent && h.ending == Some(SC.Returned(output))
  {
    DoneIsLast(received, sent);
    assert SC.Explains(h, sent[|sent| - 1]);
  }

  /** The promise or the iterator of a call failed with this error of the server's. */
  predicate ToldError(c: CC.CallState, error: WireError) {
    || c.settlements == [CC.Failure(Some(error))]
    || (c.output.Some? && exists i :: 0 <= i < |c.output.value.settled| && c.output.value.settled[i] == Q.Error(Some(error)))
  }

  lemma ToldErrorIsCause(c: CC.CallState, frames: seq<Frame>, error: WireError)
    requires CC.CallOk(c, frames) && CC.OutputOk(c) && ToldError(c, error)
    ensures c.cause == Some(CC.ByServerError(error)) || (c.cause.Some? && c.cause.value.BySend?)
    ensures Seen(c.output) == Taken(c)
  {
    if c.settlements != [CC.Failure(Some(error))] {
      var i :| 0 <= i < |c.output.value.settled| && c.output.value.settled[i] == Q.Error(Some(error));
      assert Q.Values(c.output.value.entries) == [];
    }
  }

  /** The server's error is the last frame of the call's own instance. */
  lemma ErrorWasSent(w: World, k: nat, error: WireError) returns (j: nat)
    requires Sound(w) && k < |w.client.calls| && w.client.calls[k].cause == Some(CC.ByServerError(error))
    ensures Serves(w, j, w.client.calls[k].id)
    ensures Seen(w.client.calls[k].output) == Taken(w.client.calls[k]) ==> FailedAs(w.server, j, w.client.calls[k], error)
  {
    var c := w.client.calls[k];
    var received := For(w.pipe.toA.received, c.id);
    assert OutOk(c, received);
    FramesHaveAnInstance(w, c.id);
    j :| Serves(w, j, c.id);
    ReceivedWasSent(w, c.id);
    InstanceFrames(w, j);
    ErrorIsExplained(w.server.calls[j], received, V.FramesBy(w.server.log, j), c.id, error);
  }

  lemma ErrorIsExplained(h: SC.CallState, received: seq<Frame>, sent: seq<Frame>, id: string, error: WireError)
    requires SC.CallOk(h, sent) && received <= sent && EndsWithError(received, id, error)
    ensures received == sent && error == SC.AnswerTo(h.ending, h.lost)
  {
    ErrorIsLast(received, sent);
    assert SC.Explains(h, sent[|sent| - 1]);
  }

  /** Instance `j` answered with this error, after these items, for a reason of its own. */
  ghost predicate FailedAs(m: V.Mux, j: nat, c: CC.CallState, error: WireError)
    requires j < |m.calls|
  {
    var sent := V.FramesBy(m.log, j);
    && EndsWithError(sent, c.id, error)
    && Seen(c.output) == SC.Items(sent)
    && error == SC.AnswerTo(m.calls[j].ending, m.calls[j].lost)
  }

  lemma ErrorIsLast(a: seq<Frame>, b: seq<Frame>)
    requires a <= b && SC.Legal(b) && a != [] && a[|a| - 1].ResultErr?
    ensures a == b
  {
    assert b[|a| - 1] == a[|a| - 1];
  }

  /**
   * A promise or iterator that fails with a server's error, and not because a frame
   * of its own could not go out, fails with the one error result its own handler's
   * instance sent, as its last frame, which says how that handler ended; an iterator
   * has by then yielded every item that instance sent.
   */
  lemma ErrorIntegrity(setup: Setup, hello: Attempt, events: seq<Event>, k: nat, error: WireError)
    requires var w := Run(Begin(setup, hello), events); k < |w.client.calls| && ToldError(w.client.calls[k], error)
    ensures var w := Run(Begin(setup, hello), events);
            var c := w.client.calls[k];
            || (c.cause.Some? && c.cause.value.BySend?)
            || exists j: nat :: Serves(w, j, c.id) && FailedAs(w.server, j, c, error)
  {
    BeginIsSound(setup, hello);
    EveryRunIsSound(Begin(setup, hello), events);
    var w := Run(Begin(setup, hello), events);
    var c := w.client.calls[k];
    assert CC.CallOk(c, C.FramesFor(w.client.log, c.id)) && CC.OutputOk(c);
    ToldErrorIsCause(c, C.FramesFor(w.client.log, c.id), error);
    if c.cause == Some(CC.ByServerError(error)) {
      var j := ErrorWasSent(w, k, error);
    }
  }

  // ---- From the caller to the handler ----

  /** The first frame of a call's id is its own `call` frame, and the instance was started from it. */
  lemma StartedByItsCall(w: World, k: nat, j: nat)
    requires Sound(w) && k < |w.client.calls| && Serves(w, j, w.client.calls[k].id)
    ensures var sent := C.FramesFor(w.client.log, w.client.calls[k].id);
            sent != [] && StartedBy(w.server.calls[j], sent[0]) && CC.Asks(sent[0], w.client.calls[k].request)
  {
    var c, h := w.client.calls[k], w.server.calls[j];
    var received := For(w.pipe.toB.received, c.id);
    ReceivedWasSent(w, c.id);
    assert InOk(h, V.InFlight(w.server, j), received) && CC.CallOk(c, C.FramesFor(w.client.log, c.id));
  }

  /**
   * The handler that serves a call is called with the path the caller gave, with an
   * input iterator exactly if the caller streams its input, and otherwise with the
   * input the caller gave, a `null` becoming `undefined`.
   */
  lemma RequestIntegrity(setup: Setup, hello: Attempt, events: seq<Event>, k: nat, j: nat)
    requires var w := Run(Begin(setup, hello), events); k < |w.client.calls| && Serves(w, j, w.client.calls[k].id)
    ensures var w := Run(Begin(setup, hello), events);
            var asked, h := w.client.calls[k].request, w.server.calls[j];
            && h.path == asked.path
            && (h.input.Some? <==> asked.streaming)
            && (asked.streaming || asked.input == Some(Null) ==> h.argument == None)
            && (!asked.streaming && asked.input != Some(Null) ==> h.argument == asked.input)
  {
    BeginIsSound(setup, hello);
    EveryRunIsSound(Begin(setup, hello), events);
    StartedByItsCall(Run(Begin(setup, hello), events), k, j);
  }

  lemma HeardWasSent(w: World, k: nat, j: nat)
    requires Sound(w) && k < |w.client.calls| && Serves(w, j, w.client.calls[k].id)
    ensures Heard(w.server.calls[j]) <= w.client.calls[k].inputProduced
    ensures var h := w.server.calls[j];
            h.input.Some? && !Hearing(h) && !h.cancelled ==>
              w.client.calls[k].inputEnded && Heard(h) == w.client.calls[k].inputProduced
  {
    var c, h := w.client.calls[k], w.server.calls[j];
    var received, sent := For(w.pipe.toB.received, c.id), C.FramesFor(w.client.log, c.id);
    ReceivedWasSent(w, c.id);
    ItemsPrefix(received, sent);
    assert InOk(h, V.InFlight(w.server, j), received) && CC.CallOk(c, sent);
    if h.input.Some? && !Hearing(h) && !h.cancelled {
      InDoneIsLast(received, sent);
      assert CC.HasInDone(sent) by {
        var i :| 0 <= i < |received| && received[i].InDone?;
        assert sent[i].InDone?;
      }
    }
  }

  /**
   * What a handler's input iterator has yielded is a prefix of what the caller's
   * iterator yielded. If it ends and the call was not cancelled, the caller's
   * iterator had ended and everything it yielded was handed over.
   */
  lemma InputIntegrity(setup: Setup, hello: Attempt, events: seq<Event>, k: nat, j: nat)
    requires var w := Run(Begin(setup, hello), events); k < |w.client.calls| && Serves(w, j, w.client.calls[k].id)
    ensures var w := Run(Begin(setup, hello), events);
            var c, h := w.client.calls[k], w.server.calls[j];
            && Seen(h.input) <= c.inputProduced
            && (SeenEnd(h.input) && !h.cancelled ==> c.inputEnded && Seen(h.input) == c.inputProduced)
  {
    BeginIsSound(setup, hello);
    EveryRunIsSound(Begin(setup, hello), events);
    var w := Run(Begin(setup, hello), events);
    var h := w.server.calls[j];
    HeardWasSent(w, k, j);
    assert SC.InputOk(h);
    if h.input.Some? {
      SeenIsPushed(h.input.value);
    }
  }

  /** Every instance the server ever accepted belongs to one call, and no call to two of them. */
  lemma InstancesMatchCalls(setup: Setup, hello: Attempt, events: seq<Event>, j: nat)
    requires j < |Run(Begin(setup, hello), events).server.calls|
    ensures var w := Run(Begin(setup, hello), events);
            && (exists k :: 0 <= k < |w.client.calls| && w.client.calls[k].id == w.server.calls[j].id)
            && (forall i :: Serves(w, i, w.server.calls[j].id) ==> i == j)
  {
    BeginIsSound(setup, hello);
    EveryRunIsSound(Begin(setup, hello), events);
    var w := Run(Begin(setup, hello), events);
    var id := w.server.calls[j].id;
    ReceivedWasSent(w, id);
    SpokenIsLegal(w.client, id);
  }

  // ---- How much the client holds ----

  predicate FitsIn(a: Attempt, longest: nat) {
    SizeOf(a) <= longest
  }

  /** Every text this event may send is at most this long. */
  predicate Brief(e: Event, longest: nat) {
    match e
    case ClientOpens(_, _, _, first, second) => FitsIn(first, longest) && FitsIn(second, longest)
    case ClientProceeds(_, _, first, second) => FitsIn(first, longest) && FitsIn(second, longest)
    case ServerProceeds(_, _, first, second) => FitsIn(first, longest) && FitsIn(second, longest)
    case HelloSettles(_, attempt) => FitsIn(attempt, longest)
    case Delivers(attempt) => FitsIn(attempt, longest)
    case _ => true
  }

  predicate Short(letters: seq<D.Letter<Frame>>, longest: nat) {
    forall i :: 0 <= i < |letters| ==> letters[i].size <= longest
  }

  lemma SendShort(p: D.Pipe<Frame>, side: D.Side, letter: D.Letter<Frame>, longest: nat)
    requires Short(p.toA.sent, longest) && letter.size <= longest
    ensures Short(D.SendTo(p, side, letter).toA.sent, longest)
  {
    assert D.SendTo(p, side, letter).toA.sent == p.toA.sent || D.SendTo(p, side, letter).toA.sent == p.toA.sent + [letter];
  }

  lemma SendAllShort(p: D.Pipe<Frame>, side: D.Side, frames: seq<Frame>, first: Attempt, second: Attempt, longest: nat)
    requires Short(p.toA.sent, longest) && FitsIn(first, longest) && FitsIn(second, longest)
    ensures Short(SendAll(p, side, frames, first, second).toA.sent, longest)
  {
    if |frames| == 1 {
      SendShort(p, side, D.Letter(frames[0], SizeOf(if first.Fits? then first else second)), longest);
    } else if |frames| > 1 {
      SendShort(p, side, D.Letter(frames[0], SizeOf(first)), longest);
      SendShort(D.SendTo(p, side, D.Letter(frames[0], SizeOf(first))), side, D.Letter(frames[1], SizeOf(second)), longest);
    }
  }

  lemma SyncShort(p: D.Pipe<Frame>, side: D.Side, before: bool, after: bool)
    ensures Sync(p, side, before, after).toA.sent == p.toA.sent && D.CloseBoth(p).toA.sent == p.toA.sent
  {
  }

  lemma MovesShort(w: World, l: C.Link, m: V.Mux, first: Attempt, second: Attempt, longest: nat)
    requires Short(w.pipe.toA.sent, longest) && FitsIn(first, longest) && FitsIn(second, longest)
    ensures Short(ClientMoves(w, l, first, second).pipe.toA.sent, longest)
    ensures Short(ServerMoves(w, m, first, second).pipe.toA.sent, longest)
  {
    var toB, toA := Suffix(l.log, w.client.log), Frames(Suffix(m.log, w.server.log));
    SendAllShort(w.pipe, D.B, toB, first, second, longest);
    SendAllShort(w.pipe, D.A, toA, first, second, longest);
    var p, q := SendAll(w.pipe, D.B, toB, first, second), SendAll(w.pipe, D.A, toA, first, second);
    SyncShort(p, D.A, w.client.gate.paused, l.gate.paused);
    SyncShort(D.CloseBoth(p), D.A, w.client.gate.paused, l.gate.paused);
    SyncShort(q, D.B, w.server.gate.paused, m.gate.paused);
    SyncShort(D.CloseBoth(q), D.B, w.server.gate.paused, m.gate.paused);
  }

  lemma SessionMovesShort(w: World, s: S.Session, a: Attempt, longest: nat)
    requires Short(w.pipe.toA.sent, longest) && FitsIn(a, longest)
    ensures Short(ClientSessionMoves(w, s, a).pipe.toA.sent, longest)
    ensures Short(ServerSessionMoves(w, s, a).pipe.toA.sent, longest)
  {
    var toB := Suffix(Spoken(s.trace), Spoken(w.clientSession.trace));
    var toA := Suffix(Spoken(s.trace), Spoken(w.serverSession.trace));
    SendAllShort(w.pipe, D.B, toB, a, a, longest);
    SendAllShort(w.pipe, D.A, toA, a, a, longest);
    MovesShort(w.(clientSession := s, pipe := SendAll(w.pipe, D.B, toB, a, a)), C.Close(w.client), w.server, a, a, longest);
    MovesShort(w.(serverSession := s, pipe := SendAll(w.pipe, D.A, toA, a, a)), w.client, V.Close(w.server), a, a, longest);
  }

  /** The client holds little, and no text on its way to it is long. */
  ghost predicate Bounded(w: World, longest: nat) {
    Sound(w) && C.Tight(w.client, longest) && Short(w.pipe.toA.sent, longest)
  }

  lemma ToClientBounded(w: World, a: Attempt, longest: nat)
    requires Bounded(w, longest) && w.pipe.flushing == Some(D.A) && D.CanDeliver(w.pipe, D.A) && FitsIn(a, longest)
    ensures C.Tight(DeliverToClient(w, a).client, longest) && Short(DeliverToClient(w, a).pipe.toA.sent, longest)
  {
    var letter := w.pipe.toA.queue[0];
    var w1 := w.(pipe := D.DeliverOne(w.pipe, D.A));
    assert w.pipe.toA.sent[|w.pipe.toA.received|] == letter;
    var text, fate := S.Parsed(EncodeFrame(letter.text)), FateOf(a, w1.pipe, D.B);
    var (s, delivery) := S.OnInbound(w.clientSession, text, fate, false);
    TakenOff(w, D.A);
    InboundMoves(w.clientSession, text, fate);
    ClientSessionMovesLinked(w1, s, a);
    SessionMovesShort(w1, s, a, longest);
    var w2 := ClientSessionMoves(w1, s, a);
    if delivery.Deliver? {
      C.StepTight(w.client, C.Arrives(delivery.frame, letter.size), longest);
      MovesShort(w2, C.Step(w2.client, C.Arrives(delivery.frame, letter.size)), w.server, a, a, longest);
    } else {
      C.CloseTight(w.client, longest);
    }
  }

  lemma ToServerBounded(w: World, a: Attempt, longest: nat)
    requires Short(w.pipe.toA.sent, longest) && D.CanDeliver(w.pipe, D.B) && FitsIn(a, longest)
    ensures DeliverToServer(w, a).client == w.client && Short(DeliverToServer(w, a).pipe.toA.sent, longest)
  {
    var letter := w.pipe.toB.queue[0];
    var w1 := w.(pipe := D.DeliverOne(w.pipe, D.B));
    var text, fate := S.Parsed(EncodeFrame(letter.text)), FateOf(a, w1.pipe, D.A);
    var (s, delivery) := S.OnInbound(w.serverSession, text, fate, false);
    SessionMovesShort(w1, s, a, longest);
    var w2 := ServerSessionMoves(w1, s, a);
    if delivery.Deliver? {
      MovesShort(w2, w.client, V.Step(w2.server, V.Arrives(delivery.frame, letter.size, fate)), a, a, longest);
    } else if delivery.Invalid? {
      MovesShort(w2, w.client, V.Step(w2.server, V.ArrivesInvalid(delivery.id, fate)), a, a, longest);
    }
  }

  lemma ClientStepBounded(w: World, e: Event, longest: nat)
    requires Bounded(w, longest) && Brief(e, longest)
    ensures C.Tight(ClientStep(w, e).client, longest) && Short(ClientStep(w, e).pipe.toA.sent, longest)
  {
    match e
    case ClientOpens(request, signal, aborted, first, second) =>
      var opens := C.Opens(request, signal, aborted, FateOf(first, w.pipe, D.B), FateOf(second, w.pipe, D.B));
      C.StepTight(w.client, opens, longest);
      MovesShort(w, C.Step(w.client, opens), w.server, first, second, longest);
    case ClientProceeds(k, event, first, second) =>
      var proceeds := C.Proceeds(k, event, FateOf(first, w.pipe, D.B), FateOf(second, w.pipe, D.B));
      C.StepTight(w.client, proceeds, longest);
      MovesShort(w, C.Step(w.client, proceeds), w.server, first, second, longest);
    case ClientCloses =>
      C.CloseTight(w.client, longest);
      MovesShort(w, C.Step(w.client, C.Closes), w.server, TooBig, TooBig, longest);
    case ClientTimer =>
      C.CloseTight(w.client, longest);
      SessionMovesShort(w, S.OnHelloTimeout(w.clientSession), TooBig, longest);
    case _ =>
  }

  lemma ServerStepBounded(w: World, e: Event, longest: nat)
    requires Short(w.pipe.toA.sent, longest) && Brief(e, longest)
    ensures ServerStep(w, e).client == w.client && Short(ServerStep(w, e).pipe.toA.sent, longest)
  {
    match e
    case ServerProceeds(k, event, first, second) =>
      var proceeds := V.Proceeds(k, event, FateOf(first, w.pipe, D.A), FateOf(second, w.pipe, D.A));
      MovesShort(w, w.client, V.Step(w.server, proceeds), first, second, longest);
    case ServerConsumes(k) => MovesShort(w, w.client, V.Step(w.server, V.Consumes(k)), TooBig, TooBig, longest);
    case ServerCloses => MovesShort(w, w.client, V.Step(w.server, V.Closes), TooBig, TooBig, longest);
    case ServerTimer => SessionMovesShort(w, S.OnHelloTimeout(w.serverSession), TooBig, longest);
    case HelloSettles(ok, a) =>
      SessionMovesShort(w, S.OnHelloSettled(w.serverSession, ok, FateOf(a, w.pipe, D.A), false), a, longest);
    case _ =>
  }

  lemma CloseToldBounded(w: World, longest: nat)
    requires Bounded(w, longest) && w.pipe.tasks != []
    ensures C.Tight(TellClose(w).client, longest) && Short(TellClose(w).pipe.toA.sent, longest)
  {
    var w1 := w.(pipe := D.RunClose(w.pipe));
    C.CloseTight(w.client, longest);
    SessionMovesShort(w1, S.OnDuplexClose(w.clientSession), TooBig, longest);
    var w2 := ClientSessionMoves(w1, S.OnDuplexClose(w.clientSession), TooBig);
    SessionMovesShort(w2, S.OnDuplexClose(w.serverSession), TooBig, longest);
  }

  lemma FlushStepBounded(w: World, e: Event, side: D.Side, longest: nat)
    requires Bounded(w, longest) && Brief(e, longest) && w.pipe.flushing == Some(side)
    ensures C.Tight(FlushStep(w, e, side).client, longest) && Short(FlushStep(w, e, side).pipe.toA.sent, longest)
  {
    if D.CanDeliver(w.pipe, side) && e.Delivers? {
      if side.A? {
        ToClientBounded(w, e.attempt, longest);
      } else {
        ToServerBounded(w, e.attempt, longest);
      }
    }
  }

  lemma OutsideBounded(w: World, e: Event, longest: nat)
    requires Bounded(w, longest) && Brief(e, longest)
    ensures var r := if AtClient(e) then ClientStep(w, e) else ServerStep(w, e);
            C.Tight(r.client, longest) && Short(r.pipe.toA.sent, longest)
  {
    ClientStepBounded(w, e, longest);
    ServerStepBounded(w, e, longest);
  }

  lemma TaskBounded(w: World, longest: nat)
    requires Bounded(w, longest) && w.pipe.tasks != []
    ensures var r := if w.pipe.tasks[0].FlushTask? then w.(pipe := D.BeginFlush(w.pipe, w.pipe.tasks[0].side)) else TellClose(w);
            C.Tight(r.client, longest) && Short(r.pipe.toA.sent, longest)
  {
    if w.pipe.tasks[0].CloseTask? {
      CloseToldBounded(w, longest);
    }
  }

  lemma StepBounded(w: World, e: Event, longest: nat)
    requires Bounded(w, longest) && Brief(e, longest)
    ensures Bounded(Step(w, e), longest)
  {
    StepSound(w, e);
    if w.pipe.flushing.Some? {
      FlushStepBounded(w, e, w.pipe.flushing.value, longest);
    } else if e.RunsTask? {
      if w.pipe.tasks != [] {
        TaskBounded(w, longest);
      }
    } else {
      OutsideBounded(w, e, longest);
    }
  }

  lemma {:induction false} EveryRunIsBounded(w: World, events: seq<Event>, longest: nat)
    requires Bounded(w, longest) && forall e | e in events :: Brief(e, longest)
    ensures Bounded(Run(w, events), longest)
    decreases |events|
  {
    if events != [] {
      StepBounded(w, events[0], longest);
      EveryRunIsBounded(Step(w, events[0]), events[1..], longest);
    }
  }

  lemma ClientStepMark(l: C.Link, e: C.Event)
    ensures C.Step(l, e).mark == l.mark && C.Close(l).mark == l.mark
  {
  }

  lemma StepMark(w: World, e: Event)
    ensures Step(w, e).client.mark == w.client.mark
  {
    forall event ensures C.Step(w.client, event).mark == C.Close(w.client).mark == w.client.mark {
      ClientStepMark(w.client, event);
    }
    forall event ensures C.Step(C.Close(w.client), event).mark == w.client.mark {
      ClientStepMark(C.Close(w.client), event);
    }
  }

  lemma {:induction false} MarkStays(w: World, events: seq<Event>)
    ensures Run(w, events).client.mark == w.client.mark
    decreases |events|
  {
    if events != [] {
      StepMark(w, events[0]);
      MarkStays(Step(w, events[0]), events[1..]);
    }
  }

  lemma IdleIsTight(mark: Option<nat>, longest: nat)
    ensures C.Tight(C.Fresh(mark), longest) && C.Tight(C.Close(C.Fresh(mark)), longest)
  {
    C.FreshIsGood(mark);
    C.CloseTight(C.Fresh(mark), longest);
  }

  lemma BeginIsShort(setup: Setup, hello: Attempt, longest: nat)
    requires FitsIn(hello, longest)
    ensures var w := Begin(setup, hello);
            && Short(w.pipe.toA.sent, longest)
            && w.client in {C.Fresh(setup.clientMark), C.Close(C.Fresh(setup.clientMark))}
  {
    var w := IdleWorld(setup);
    SessionMovesShort(w, S.Begin(S.ClientRole, setup.clientTimer, setup.meta, FateOf(hello, w.pipe, D.B), false), hello, longest);
  }

  lemma BeginIsBounded(setup: Setup, hello: Attempt, longest: nat)
    requires FitsIn(hello, longest)
    ensures Bounded(Begin(setup, hello), longest) && Begin(setup, hello).client.mark == setup.clientMark
  {
    BeginIsSound(setup, hello);
    BeginIsShort(setup, hello, longest);
    IdleIsTight(setup.clientMark, longest);
  }

  /**
   * With texts of at most `longest`, the client never has more than one paused
   * stream, and no open stream ever holds more than its mark and one text: the
   * duplex stops delivering as soon as a stream pauses.
   */
  lemma FlowControl(setup: Setup, hello: Attempt, events: seq<Event>, longest: nat)
    requires setup.clientMark.Some? && FitsIn(hello, longest) && forall e | e in events :: Brief(e, longest)
    ensures var l := Run(Begin(setup, hello), events).client;
            && C.CountPaused(l.calls) <= 1
            && forall k :: 0 <= k < |l.calls| && l.calls[k].output.Some? && l.calls[k].output.value.closing.Open? ==>
                 l.calls[k].output.value.buffered <= setup.clientMark.value + longest
  {
    BeginIsBounded(setup, hello, longest);
    EveryRunIsBounded(Begin(setup, hello), events, longest);
    MarkStays(Begin(setup, hello), events);
  }
}
