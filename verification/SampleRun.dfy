/** One run of a whole connection: the handshake, a call that is made and accepted, and its answer. */
module SampleRun {
  import opened Basics
  import opened FrameCodec
  import opened Reads
  import opened Wire
  import opened Connection
  import opened Integrity
  import S = Sessions
  import D = MemoryDuplexes
  import C = ClientMux
  import CC = ClientCalls
  import V = ServerMux
  import SC = ServerCalls

  const SETUP := Setup(None, None, None, false, false, false, None)

  /** The hello is taken, and answered. */
  const SHAKE := [RunsTask, Delivers(Fits(1)), EndsFlush, HelloSettles(true, Fits(1)), RunsTask, Delivers(Fits(1)), EndsFlush]

  /** A unary call is made, delivered, and answered with what its handler returns. */
  function Ask(request: CC.Request): seq<Event> {
    [ClientOpens(request, false, false, Fits(1), Fits(1)), RunsTask, Delivers(Fits(1)), EndsFlush]
  }

  function Answer(output: Payload): seq<Event> {
    [ServerProceeds(0, V.DispatchSettles(SC.Returns(output)), Fits(1), Fits(1)), RunsTask, Delivers(Fits(1)), EndsFlush]
  }

  function Mail(frame: Frame): D.Letter<Frame> {
    D.Letter(frame, 1)
  }

  /** An end that has received these texts and holds this one. */
  function End(received: seq<D.Letter<Frame>>, queue: seq<D.Letter<Frame>>): D.Inbox<Frame> {
    D.Inbox(queue, |queue|, false, queue != [], [], received + queue, received, 0, [], false)
  }

  function Calm(toA: D.Inbox<Frame>, toB: D.Inbox<Frame>, tasks: seq<D.Task>): D.Pipe<Frame> {
    D.Pipe(None, toA, toB, false, false, None, tasks)
  }

  /** One whole flush that delivers one text. */
  lemma FlushDelivers(w: World, side: D.Side, received: seq<D.Letter<Frame>>, frame: Frame, w1: World)
    requires w.pipe.tasks == [D.FlushTask(side)] && w.pipe.flushing.None? && D.At(w.pipe, side) == End(received, [Mail(frame)])
    requires var w0 := w.(pipe := D.BeginFlush(w.pipe, side));
             w1 == if side.A? then DeliverToClient(w0, Fits(1)) else DeliverToServer(w0, Fits(1))
    requires w1.pipe.flushing == Some(side) && D.At(w1.pipe, side).queue == []
    ensures Run(w, [RunsTask, Delivers(Fits(1)), EndsFlush]) == w1.(pipe := D.EndFlush(w1.pipe, side))
  {
    var e0, e1, e2 := RunsTask, Delivers(Fits(1)), EndsFlush;
    var w0 := w.(pipe := D.BeginFlush(w.pipe, side));
    assert [e0, e1, e2][1..] == [e1, e2] && [e1, e2][1..] == [e2] && [e2][1..] == [];
    assert Step(w, e0) == w0 && Step(w0, e1) == w1 && Step(w1, e2) == w1.(pipe := D.EndFlush(w1.pipe, side));
    assert Run(w, [e0, e1, e2]) == Run(w0, [e1, e2]) == Run(w1, [e2]);
  }

  const HELLO := Mail(Hello(None))
  const WELCOME := Mail(HelloOk)

  function CallMail(request: CC.Request): D.Letter<Frame> {
    Mail(Frame.Call("1", request.path, request.input, false))
  }

  function ResultMail(output: Payload): D.Letter<Frame> {
    Mail(ResultOk("1", output))
  }

  const GREETING := S.See(S.Idle(S.ClientRole, false), S.Transmitted(Hello(None)))
  const ACCEPTING := S.Idle(S.ServerRole, false).(helloInFlight := true, accept := Some(0))
  const SERVING := S.SucceedReady(S.See(S.See(ACCEPTING.(accept := None), S.Transmitted(HelloOk)).(phase := S.Ready, helloInFlight := false),
                                       S.BecameReady))
  const GREETED := S.SucceedReady(S.See(GREETING.(phase := S.Ready), S.BecameReady))

  /** The client has said hello. */
  lemma Said()
    ensures Begin(SETUP, Fits(1)) == World(C.Fresh(None), GREETING, V.Fresh(None, false), S.Idle(S.ServerRole, false),
                                           Calm(End([], []), End([], [HELLO]), [D.FlushTask(D.B)]))
  {
    assert Suffix(Spoken(GREETING.trace), []) == [Hello(None)];
  }

  /** A frame that a ready client takes without sending, pausing or closing. */
  lemma ClientTakes(w: World, a: Attempt, frame: Frame, s: S.Session, l: C.Link)
    requires D.CanDeliver(w.pipe, D.A) && w.client.open && l.open && l.log == w.client.log && l.gate == w.client.gate
    requires var letter := w.pipe.toA.queue[0];
             && S.OnInbound(w.clientSession, S.Parsed(EncodeFrame(letter.text)), FateOf(a, D.DeliverOne(w.pipe, D.A), D.B), false)
                == (s, S.Deliver(frame))
             && C.Step(w.client, C.Arrives(frame, letter.size)) == l
    requires !s.phase.Shut? && Suffix(Spoken(s.trace), Spoken(w.clientSession.trace)) == []
    ensures DeliverToClient(w, a) == w.(client := l, clientSession := s, pipe := D.DeliverOne(w.pipe, D.A))
  {
    assert Suffix(l.log, w.client.log) == [];
  }

  lemma ServerTakes(w: World, a: Attempt, frame: Frame, s: S.Session, m: V.Mux)
    requires D.CanDeliver(w.pipe, D.B) && w.server.open && m.open && m.log == w.server.log && m.gate == w.server.gate
    requires var letter, fate := w.pipe.toB.queue[0], FateOf(a, D.DeliverOne(w.pipe, D.B), D.A);
             && S.OnInbound(w.serverSession, S.Parsed(EncodeFrame(letter.text)), fate, false) == (s, S.Deliver(frame))
             && V.Step(w.server, V.Arrives(frame, letter.size, fate)) == m
    requires !s.phase.Shut? && Suffix(Spoken(s.trace), Spoken(w.serverSession.trace)) == []
    ensures DeliverToServer(w, a) == w.(server := m, serverSession := s, pipe := D.DeliverOne(w.pipe, D.B))
  {
    assert Frames(Suffix(m.log, w.server.log)) == [];
  }

  /** An end that has one text to deliver has delivered it. */
  lemma OneDelivered(p: D.Pipe<Frame>, side: D.Side, received: seq<D.Letter<Frame>>, letter: D.Letter<Frame>)
    requires D.At(p, side) == End(received, [letter]).(flushScheduled := false) && letter.size == 1
    ensures D.DeliverOne(p, side) == D.With(p, side, End(received + [letter], []))
  {
    assert [letter][1..] == [];
    assert received + [letter] + [] == received + [letter];
  }

  /** A text of the handshake that is answered with nothing, or not yet. */
  lemma HandshakeTakes(w: World, a: Attempt, s: S.Session)
    requires !s.phase.Shut?
    ensures D.CanDeliver(w.pipe, D.A)
            && S.OnInbound(w.clientSession, S.Parsed(EncodeFrame(w.pipe.toA.queue[0].text)),
                           FateOf(a, D.DeliverOne(w.pipe, D.A), D.B), false) == (s, S.Nothing)
            && Suffix(Spoken(s.trace), Spoken(w.clientSession.trace)) == []
            ==> DeliverToClient(w, a) == w.(clientSession := s, pipe := D.DeliverOne(w.pipe, D.A))
    ensures D.CanDeliver(w.pipe, D.B)
            && S.OnInbound(w.serverSession, S.Parsed(EncodeFrame(w.pipe.toB.queue[0].text)),
                           FateOf(a, D.DeliverOne(w.pipe, D.B), D.A), false) == (s, S.Nothing)
            && Suffix(Spoken(s.trace), Spoken(w.serverSession.trace)) == []
            ==> DeliverToServer(w, a) == w.(serverSession := s, pipe := D.DeliverOne(w.pipe, D.B))
  {
  }

  lemma HelloTaken(w: World)
    requires w.pipe == Calm(End([], []), End([], [HELLO]), [D.FlushTask(D.B)])
    requires w.server == V.Fresh(None, false) && w.serverSession == S.Idle(S.ServerRole, false)
    ensures Run(w, [RunsTask, Delivers(Fits(1)), EndsFlush])
         == w.(serverSession := ACCEPTING, pipe := Calm(End([], []), End([HELLO], []), []))
  {
    RoundTrip(Hello(None));
    var w0 := w.(pipe := D.BeginFlush(w.pipe, D.B));
    assert Suffix(Spoken(ACCEPTING.trace), Spoken(w.serverSession.trace)) == [];
    HandshakeTakes(w0, Fits(1), ACCEPTING);
    OneDelivered(w0.pipe, D.B, [], HELLO);
    assert [] + [HELLO] == [HELLO];
    FlushDelivers(w, D.B, [], Hello(None), DeliverToServer(w0, Fits(1)));
  }

  lemma Welcomed(w: World)
    requires w.pipe == Calm(End([], []), End([HELLO], []), []) && w.serverSession == ACCEPTING && w.server == V.Fresh(None, false)
    ensures Step(w, HelloSettles(true, Fits(1)))
         == w.(serverSession := SERVING, pipe := Calm(End([], [WELCOME]), End([HELLO], []), [D.FlushTask(D.A)]))
  {
    assert S.OnHelloSettled(w.serverSession, true, S.Sent(false), false) == SERVING;
    assert Spoken(SERVING.trace) == [HelloOk] && Spoken(ACCEPTING.trace) == [];
    assert Suffix([HelloOk], []) == [HelloOk];
  }

  lemma Greeted(w: World)
    requires w.pipe == Calm(End([], [WELCOME]), End([HELLO], []), [D.FlushTask(D.A)])
    requires w.clientSession == GREETING && w.client == C.Fresh(None)
    ensures Run(w, [RunsTask, Delivers(Fits(1)), EndsFlush])
         == w.(clientSession := GREETED, pipe := Calm(End([WELCOME], []), End([HELLO], []), []))
  {
    RoundTrip(HelloOk);
    var w0 := w.(pipe := D.BeginFlush(w.pipe, D.A));
    assert Spoken(GREETED.trace) == [Hello(None)] == Spoken(GREETING.trace);
    assert Suffix([Hello(None)], [Hello(None)]) == [];
    HandshakeTakes(w0, Fits(1), GREETED);
    OneDelivered(w0.pipe, D.A, [], WELCOME);
    assert [] + [WELCOME] == [WELCOME];
    FlushDelivers(w, D.A, [], HelloOk, DeliverToClient(w0, Fits(1)));
  }

  function Asking(request: CC.Request): C.Link {
    C.Link(true, None, 2, [CC.Fresh("1", request)], map["1" := 0], Gate(0, false), [CallMail(request).text])
  }

  function Served(request: CC.Request): SC.CallState {
    SC.Fresh(Normal(CallMail(request).text), None)
  }

  function Serving(request: CC.Request): V.Mux {
    V.Mux(true, None, false, [Served(request)], map["1" := 0], Gate(0, false), [])
  }

  function Answered(request: CC.Request, output: Payload): V.Mux {
    V.Mux(true, None, false, [Served(request).(phase := SC.Finished, ending := Some(SC.Returned(output)))], map[], Gate(0, false),
          [V.Outgoing(ResultMail(output).text, V.ByCall(0), true)])
  }

  function Told(request: CC.Request, output: Payload): CC.CallState {
    CC.Finish(CC.Fresh("1", request), CC.ByResult).(settlements := [CC.Value(output)])
  }

  function Settled(request: CC.Request, output: Payload): C.Link {
    Asking(request).(calls := [Told(request, output)], inflight := map[])
  }

  function Asked(request: CC.Request): S.Session {
    S.See(GREETED, S.Transmitted(CallMail(request).text))
  }

  lemma AskIsSent(w: World, request: CC.Request)
    requires w.pipe == Calm(End([WELCOME], []), End([HELLO], []), []) && !request.streaming
    requires w.clientSession == GREETED && w.client == C.Fresh(None)
    ensures Step(w, Ask(request)[0])
         == w.(client := Asking(request), clientSession := Asked(request),
               pipe := Calm(End([WELCOME], []), End([HELLO], [CallMail(request)]), [D.FlushTask(D.B)]))
  {
    assert C.Step(w.client, C.Opens(request, false, false, S.Sent(false), S.Sent(false))) == Asking(request);
    assert Suffix(Asking(request).log, []) == [CallMail(request).text];
  }

  /** A ready session hands a call or result frame up. */
  lemma Handed(s: S.Session, frame: Frame, fate: S.Fate)
    requires s.phase.Ready? && (frame.Call? || frame.ResultOk?) && WellFormed(frame)
    ensures S.OnInbound(s, S.Parsed(EncodeFrame(frame)), fate, false)
         == (S.See(s, S.HandedUp(Normal(frame))), S.Deliver(Normal(frame)))
    ensures Suffix(Spoken(S.See(s, S.HandedUp(Normal(frame))).trace), Spoken(s.trace)) == []
  {
    RoundTrip(frame);
  }

  lemma AskIsTaken(w: World, request: CC.Request)
    requires w.pipe == Calm(End([WELCOME], []), End([HELLO], [CallMail(request)]), [D.FlushTask(D.B)])
    requires w.server == V.Fresh(None, false) && w.serverSession == SERVING
    ensures var r := Run(w, [RunsTask, Delivers(Fits(1)), EndsFlush]);
            && r.server == Serving(request)
            && r.pipe == Calm(End([WELCOME], []), End([HELLO, CallMail(request)], []), [])
            && r.client == w.client && r.clientSession == w.clientSession && r.serverSession.phase.Ready?
  {
    var letter := CallMail(request);
    Handed(SERVING, letter.text, S.Sent(false));
    var w0 := w.(pipe := D.BeginFlush(w.pipe, D.B));
    var s := S.See(SERVING, S.HandedUp(Normal(letter.text)));
    assert V.Step(w.server, V.Arrives(Normal(letter.text), 1, S.Sent(false))) == Serving(request);
    ServerTakes(w0, Fits(1), Normal(letter.text), s, Serving(request));
    OneDelivered(w0.pipe, D.B, [HELLO], letter);
    FlushDelivers(w, D.B, [HELLO], letter.text, DeliverToServer(w0, Fits(1)));
    assert [HELLO] + [letter] == [HELLO, letter];
  }

  lemma AnswerIsSent(w: World, request: CC.Request, output: Payload)
    requires w.pipe == Calm(End([WELCOME], []), End([HELLO, CallMail(request)], []), []) && w.server == Serving(request)
    requires w.serverSession.phase.Ready?
    ensures Step(w, Answer(output)[0])
         == w.(server := Answered(request, output),
               serverSession := S.See(w.serverSession, S.Transmitted(ResultMail(output).text)),
               pipe := Calm(End([WELCOME], [ResultMail(output)]), End([HELLO, CallMail(request)], []), [D.FlushTask(D.A)]))
  {
    var e := V.Proceeds(0, V.DispatchSettles(SC.Returns(output)), S.Sent(false), S.Sent(false));
    var r := Answered(request, output);
    assert V.Step(w.server, e).log == r.log;
    assert V.Step(w.server, e).inflight == map[];
    assert V.Step(w.server, e).calls == r.calls;
    assert V.Step(w.server, e) == r;
    assert Frames(Suffix(r.log, w.server.log)) == [ResultMail(output).text];
  }

  lemma ClientTold(request: CC.Request, output: Payload)
    ensures C.Step(Asking(request), C.Arrives(ResultMail(output).text, 1)) == Settled(request, output)
  {
    var c := CC.Fresh("1", request);
    assert c.settlements + [CC.Value(output)] == [CC.Value(output)];
    assert CC.OnFrame(c, ResultMail(output).text, 1, None) == CC.Effect(Told(request, output), [], true, false);
    var l := C.Step(Asking(request), C.Arrives(ResultMail(output).text, 1));
    assert l.calls == [Told(request, output)] && l.inflight == map[] && l.log == Asking(request).log + [] == Asking(request).log;
  }

  lemma AnswerIsTaken(w: World, request: CC.Request, output: Payload)
    requires w.pipe == Calm(End([WELCOME], [ResultMail(output)]), End([HELLO, CallMail(request)], []), [D.FlushTask(D.A)])
    requires w.client == Asking(request) && w.clientSession == Asked(request)
    ensures var r := Run(w, [RunsTask, Delivers(Fits(1)), EndsFlush]); r.client == Settled(request, output) && r.server == w.server
  {
    var letter := ResultMail(output);
    Handed(Asked(request), letter.text, S.Sent(false));
    var w0 := w.(pipe := D.BeginFlush(w.pipe, D.A));
    ClientTold(request, output);
    ClientTakes(w0, Fits(1), letter.text, S.See(Asked(request), S.HandedUp(letter.text)), Settled(request, output));
    OneDelivered(w0.pipe, D.A, [WELCOME], letter);
    FlushDelivers(w, D.A, [WELCOME], letter.text, DeliverToClient(w0, Fits(1)));
  }

  lemma {:induction false} RunThen(w: World, a: seq<Event>, b: seq<Event>)
    ensures Run(w, a + b) == Run(Run(w, a), b)
    decreases |a|
  {
    if a == [] {
      assert a + b == b;
    } else {
      assert (a + b)[1..] == a[1..] + b;
      RunThen(Step(w, a[0]), a[1..], b);
    }
  }

  lemma StepThen(w: World, e: Event, b: seq<Event>)
    ensures Run(w, [e] + b) == Run(Step(w, e), b)
  {
    assert ([e] + b)[1..] == b;
  }

  lemma Shaken()
    ensures var w := Run(Begin(SETUP, Fits(1)), SHAKE);
            && w.pipe == Calm(End([WELCOME], []), End([HELLO], []), [])
            && w.client == C.Fresh(None) && w.clientSession == GREETED
            && w.server == V.Fresh(None, false) && w.serverSession == SERVING
  {
    var w0 := Begin(SETUP, Fits(1));
    var flush := [RunsTask, Delivers(Fits(1)), EndsFlush];
    Said();
    HelloTaken(w0);
    var w1 := Run(w0, flush);
    Welcomed(w1);
    Greeted(Step(w1, HelloSettles(true, Fits(1))));
    ShakeIs(w0);
  }

  lemma ShakeIs(w: World)
    ensures var flush := [RunsTask, Delivers(Fits(1)), EndsFlush];
            Run(w, SHAKE) == Run(Step(Run(w, flush), HelloSettles(true, Fits(1))), flush)
  {
    var flush := [RunsTask, Delivers(Fits(1)), EndsFlush];
    assert SHAKE == flush + ([HelloSettles(true, Fits(1))] + flush);
    RunThen(w, flush, [HelloSettles(true, Fits(1))] + flush);
    StepThen(Run(w, flush), HelloSettles(true, Fits(1)), flush);
  }

  /** The call is with the server. */
  ghost predicate Pending(w: World, request: CC.Request) {
    && w.pipe == Calm(End([WELCOME], []), End([HELLO, CallMail(request)], []), [])
    && w.client == Asking(request) && w.clientSession == Asked(request)
    && w.server == Serving(request) && w.serverSession.phase.Ready?
  }

  lemma AskThen(w: World, request: CC.Request)
    ensures Run(w, Ask(request)) == Run(Step(w, Ask(request)[0]), [RunsTask, Delivers(Fits(1)), EndsFlush])
  {
    assert Ask(request) == [Ask(request)[0]] + [RunsTask, Delivers(Fits(1)), EndsFlush];
    StepThen(w, Ask(request)[0], [RunsTask, Delivers(Fits(1)), EndsFlush]);
  }

  lemma CallIsServed(w: World, request: CC.Request)
    requires w.pipe == Calm(End([WELCOME], []), End([HELLO], []), []) && !request.streaming
    requires w.client == C.Fresh(None) && w.clientSession == GREETED && w.server == V.Fresh(None, false) && w.serverSession == SERVING
    ensures Pending(Run(w, Ask(request)), request)
  {
    AskIsSent(w, request);
    AskIsTaken(Step(w, Ask(request)[0]), request);
    AskThen(w, request);
  }

  lemma CallIsAnswered(w: World, request: CC.Request, output: Payload)
    requires Pending(w, request)
    ensures var r := Run(w, Answer(output)); r.client == Settled(request, output) && r.server == Answered(request, output)
  {
    AnswerIsSent(w, request, output);
    AnswerIsTaken(Step(w, Answer(output)[0]), request, output);
    assert Answer(output) == [Answer(output)[0]] + [RunsTask, Delivers(Fits(1)), EndsFlush];
    StepThen(w, Answer(output)[0], [RunsTask, Delivers(Fits(1)), EndsFlush]);
  }

  /**
   * A unary call that is made, accepted, answered and settled, with any path, input
   * and output: the handler gets what the caller asked, the caller what the handler
   * returned. It is the run that the theorems about runs are not empty for.
   */
  lemma ACallIsServed(path: seq<string>, input: Payload, output: Payload)
    ensures var request := CC.Request(path, input, false);
            var w := Run(Begin(SETUP, Fits(1)), SHAKE + (Ask(request) + Answer(output)));
            && |w.client.calls| == 1 && w.client.calls[0].settlements == [CC.Value(output)]
            && Serves(w, 0, w.client.calls[0].id)
            && w.server.calls[0].path == path && w.server.calls[0].argument == (if input == Some(Null) then None else input)
            && V.FramesBy(w.server.log, 0) == [ResultOk("1", output)]
  {
    Shaken();
    var request := CC.Request(path, input, false);
    var w := Run(Begin(SETUP, Fits(1)), SHAKE);
    RunThen(Begin(SETUP, Fits(1)), SHAKE, Ask(request) + Answer(output));
    RunThen(w, Ask(request), Answer(output));
    CallIsServed(w, request);
    CallIsAnswered(Run(w, Ask(request)), request, output);
    V.FramesBySnoc([], Answered(request, output).log[0], 0);
    assert [] + [Answered(request, output).log[0]] == Answered(request, output).log;
  }
}
