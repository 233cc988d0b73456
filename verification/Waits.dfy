/**
 * Calls that wait for the duplex to drain, inside a whole connection: which drain
 * promise a call waits for, and that it is settled as soon as the peer's end has
 * drained or the close is told.
 */
module Waits {
  import opened Basics
  import opened FrameCodec
  import opened Wire
  import opened Connection
  import opened Linkage
  import opened EndToEnd
  import opened Integrity
  import opened Composed
  import S = Sessions
  import D = MemoryDuplexes
  import C = ClientMux
  import CC = ClientCalls
  import V = ServerMux
  import SC = ServerCalls

  // ---- Waiting calls ----

  predicate InputWaits(l: C.Link, k: nat) {
    k < |l.calls| && l.calls[k].pump == CC.AwaitingDrain(None)
  }

  predicate OutputWaits(m: V.Mux, k: nat) {
    k < |m.calls| && m.calls[k].phase == SC.Draining(None)
  }

  /** An input item that is answered with a drain promise: the only thing that makes a client's call wait. */
  predicate InputOverMark(e: C.Event, k: nat) {
    && e.Proceeds? && e.call == k && e.event.InputSettles? && e.event.next.InYields?
    && e.first == S.Sent(true)
  }

  predicate OutputOverMark(e: V.Event, k: nat) {
    && e.Proceeds? && e.call == k && e.event.NextSettles? && e.event.next.Yields?
    && e.first == S.Sent(true)
  }

  lemma FailedWaitsNot(c: CC.CallState, cause: CC.Cause)
    ensures CC.Failed(c, cause).pump != CC.AwaitingDrain(None)
  {
  }

  /** What makes one call wait. */
  lemma InputStepWaits(c: CC.CallState, event: C.CallEvent, net: CC.Net)
    requires C.CallStep(c, event, net).call.pump == CC.AwaitingDrain(None) && c.pump != CC.AwaitingDrain(None)
    ensures event.InputSettles? && event.next.InYields? && net.first == S.Sent(true) && net.open
    ensures C.CallStep(c, event, net).sent == [InItem(c.id, event.next.input)] && !C.CallStep(c, event, net).close
  {
    match event
    case Aborts => FailedWaitsNot(c, CC.ByAbort);
    case _ =>
  }

  lemma FrameWaitsNot(c: CC.CallState, frame: Frame, size: nat, mark: Option<nat>)
    ensures CC.OnFrame(c, frame, size, mark).call.pump == CC.AwaitingDrain(None) ==> c.pump == CC.AwaitingDrain(None)
  {
  }

  lemma OpenWaitsNot(c: CC.CallState, signal: bool, aborted: bool, net: CC.Net)
    requires c.pump != CC.AwaitingDrain(None)
    ensures CC.Open(c, signal, aborted, net).call.pump != CC.AwaitingDrain(None)
  {
    FailedWaitsNot(c, CC.BySend(if net.open then CC.RefusalOf(net.first) else CC.Closed));
    FailedWaitsNot(c, CC.ByClose);
    FailedWaitsNot(c, CC.ByAbort);
  }

  lemma ClientCloseWaitsNot(l: C.Link, k: nat)
    requires InputWaits(C.Close(l), k)
    ensures InputWaits(l, k)
  {
  }

  lemma AppliedWaits(l: C.Link, j: nat, e: CC.Effect, k: nat)
    requires j < |l.calls| && InputWaits(C.Apply(l, j, e), k)
    ensures if j == k then e.call.pump == CC.AwaitingDrain(None) else InputWaits(l, k)
  {
    if e.close {
      ClientCloseWaitsNot(C.Apply(l, j, e.(close := false)), k);
    }
  }

  /** A step of the client that makes a call wait sends exactly the item the call waits behind. */
  lemma InputBeginsToWait(l: C.Link, e: C.Event, k: nat)
    requires InputWaits(C.Step(l, e), k) && !InputWaits(l, k)
    ensures InputOverMark(e, k) && l.open && k < |l.calls|
    ensures C.Step(l, e).log == l.log + [InItem(l.calls[k].id, e.event.next.input)]
  {
    match e
    case Opens(request, signal, aborted, first, second) =>
      var c := CC.Fresh(Decimal(l.nextId), request);
      var net := CC.Net(l.open, first, second);
      OpenWaitsNot(c, signal, aborted, net);
      if l.open {
        AppliedWaits(C.Allocate(l, c), |l.calls|, CC.Open(c, signal, aborted, net), k);
      }
    case Arrives(frame, size) =>
      if l.open && (frame.Hello? || frame.HelloOk? || frame.HelloError?) {
        ClientCloseWaitsNot(l, k);
      } else if l.open && frame.id in l.inflight && l.inflight[frame.id] < |l.calls| {
        var j := l.inflight[frame.id];
        FrameWaitsNot(l.calls[j], frame, size, l.mark);
        AppliedWaits(l, j, CC.OnFrame(l.calls[j], frame, size, l.mark), k);
      }
    case Proceeds(j, event, first, second) =>
      if j < |l.calls| {
        var net := CC.Net(l.open, first, second);
        AppliedWaits(l, j, C.CallStep(l.calls[j], event, net), k);
        InputStepWaits(l.calls[j], event, net);
      }
    case Closes => ClientCloseWaitsNot(l, k);
  }

  lemma NextWaits(c: SC.CallState, next: SC.Next, net: SC.Net)
    requires SC.OnNext(c, next, net).call.phase == SC.Draining(None) && c.phase != SC.Draining(None)
    ensures next.Yields? && net.first == S.Sent(true) && net.open
    ensures SC.OnNext(c, next, net).sent == [Item(c.id, next.output)] && !SC.OnNext(c, next, net).close
  {
  }

  lemma DispatchWaitsNot(c: SC.CallState, result: SC.Dispatched, net: SC.Net)
    requires c.phase != SC.Draining(None)
    ensures SC.OnDispatched(c, result, net).call.phase != SC.Draining(None)
  {
  }

  lemma ReportWaitsNot(c: SC.CallState, net: SC.Net)
    requires c.phase != SC.Draining(None)
    ensures SC.OnReported(c, net).call.phase != SC.Draining(None)
    ensures SC.OnDrainResumed(c, net).call.phase != SC.Draining(None)
  {
  }

  lemma OutputStepWaits(c: SC.CallState, event: V.CallEvent, net: SC.Net)
    requires V.CallStep(c, event, net).call.phase == SC.Draining(None) && c.phase != SC.Draining(None)
    ensures event.NextSettles? && event.next.Yields? && net.first == S.Sent(true) && net.open
    ensures V.CallStep(c, event, net).sent == [Item(c.id, event.next.output)] && !V.CallStep(c, event, net).close
  {
    match event
    case NextSettles(next) => NextWaits(c, next, net);
    case DispatchSettles(result) => DispatchWaitsNot(c, result, net);
    case DrainSettles(_) =>
    case _ => ReportWaitsNot(c, net);
  }

  lemma ServerCloseWaitsNot(m: V.Mux, k: nat)
    requires OutputWaits(V.Close(m), k)
    ensures OutputWaits(m, k)
  {
  }

  lemma ServerAppliedWaits(m: V.Mux, j: nat, e: SC.Effect, k: nat)
    requires j < |m.calls| && OutputWaits(V.Apply(m, j, e), k)
    ensures if j == k then e.call.phase == SC.Draining(None) else OutputWaits(m, k)
  {
    if e.close {
      ServerCloseWaitsNot(V.Apply(m, j, e.(close := false)), k);
    }
  }

  lemma FrameStartsNoWait(m: V.Mux, frame: Frame, size: nat, fate: S.Fate, k: nat)
    requires OutputWaits(V.OnFrame(m, frame, size, fate), k)
    ensures OutputWaits(m, k)
  {
  }

  /** A step of the server that is no call's own makes no call wait. */
  lemma OnlyCallsWait(m: V.Mux, e: V.Event, k: nat)
    requires OutputWaits(V.Step(m, e), k) && !e.Proceeds?
    ensures OutputWaits(m, k)
  {
    match e
    case Arrives(frame, size, fate) => if m.open { FrameStartsNoWait(m, frame, size, fate, k); }
    case ArrivesInvalid(_, _) => assert V.Close(m) == m || OutputWaits(V.Close(m), k) ==> OutputWaits(m, k);
    case Consumes(_) =>
    case _ =>
  }

  /** A step of the server that makes a call wait sends exactly the item the call waits behind. */
  lemma OutputBeginsToWait(m: V.Mux, e: V.Event, k: nat)
    requires OutputWaits(V.Step(m, e), k) && !OutputWaits(m, k)
    ensures OutputOverMark(e, k) && m.open && k < |m.calls|
    ensures Frames(Suffix(V.Step(m, e).log, m.log)) == [Item(m.calls[k].id, e.event.next.output)]
  {
    if e.Proceeds? {
      if e.call < |m.calls| {
        var net := SC.Net(m.open, e.first, e.second, m.reports);
        ServerAppliedWaits(m, e.call, V.CallStep(m.calls[e.call], e.event, net), k);
        OutputStepWaits(m.calls[e.call], e.event, net);
      }
    } else {
      OnlyCallsWait(m, e, k);
    }
  }

  // ---- Which promise a call waits for ----

  /** For each waiting call, client and server, the number of the promise it waits for. */
  datatype Watch = Watch(client: map<nat, nat>, server: map<nat, nat>)

  /** The promise a session was given last. */
  function Newest(s: S.Session): nat {
    if s.nextDrain > 0 then s.nextDrain - 1 else 0
  }

  /** A call that has begun to wait waits for the promise that its session was given last. */
  function Noted(w: World, r: World, watch: Watch): Watch {
    Watch(
      map k: nat | k < |r.client.calls| && InputWaits(r.client, k) ::
        if InputWaits(w.client, k) && k in watch.client then watch.client[k] else Newest(r.clientSession),
      map k: nat | k < |r.server.calls| && OutputWaits(r.server, k) ::
        if OutputWaits(w.server, k) && k in watch.server then watch.server[k] else Newest(r.serverSession))
  }

  function Watching(w: World, watch: Watch, events: seq<Event>): Watch
    decreases |events|
  {
    if events == [] then watch else Watching(Step(w, events[0]), Noted(w, Step(w, events[0]), watch), events[1..])
  }

  const NOBODY := Watch(map[], map[])

  /** Every waiting call waits for a promise that was given. */
  ghost predicate Backed(w: World, watch: Watch) {
    && (forall k :: InputWaits(w.client, k) ==> k in watch.client && watch.client[k] < w.clientSession.nextDrain)
    && (forall k :: OutputWaits(w.server, k) ==> k in watch.server && watch.server[k] < w.serverSession.nextDrain)
  }

  // ---- Promises are never taken back ----

  lemma IssuedGrows(p: D.Pipe<Frame>, e: D.Event<Frame>)
    ensures D.Step(p, e).toA.issued >= p.toA.issued && D.Step(p, e).toB.issued >= p.toB.issued
  {
    if e.Sends? && !p.closed {
      D.SendToIs(p, e.side, e.letter);
    }
  }

  lemma {:induction false} RunIssuedGrows(p: D.Pipe<Frame>, events: seq<D.Event<Frame>>)
    ensures D.Run(p, events).toA.issued >= p.toA.issued && D.Run(p, events).toB.issued >= p.toB.issued
    decreases |events|
  {
    if events != [] {
      IssuedGrows(p, events[0]);
      RunIssuedGrows(D.Step(p, events[0]), events[1..]);
    }
  }

  /** A size that no text of the event exceeds. */
  function Extent(e: Event): nat {
    match e
    case ClientOpens(_, _, _, first, second) => SizeOf(first) + SizeOf(second)
    case ClientProceeds(_, _, first, second) => SizeOf(first) + SizeOf(second)
    case ServerProceeds(_, _, first, second) => SizeOf(first) + SizeOf(second)
    case HelloSettles(_, a) => SizeOf(a)
    case Delivers(a) => SizeOf(a)
    case _ => 0
  }

  lemma PromisesStay(w: World, e: Event)
    requires SessionsOk(w) && Sound(w)
    ensures Step(w, e).clientSession.nextDrain >= w.clientSession.nextDrain
    ensures Step(w, e).serverSession.nextDrain >= w.serverSession.nextDrain
  {
    StepOk(w, e);
    assert Brief(e, Extent(e));
    StepByRun(w, e, Extent(e));
    var own :| AllShort(own, Extent(e)) && Step(w, e).pipe == D.Run(w.pipe, own);
    RunIssuedGrows(w.pipe, own);
  }

  // ---- How a call of a connection begins to wait ----

  lemma SessionMovesWait(w: World, s: S.Session, a: Attempt, k: nat)
    ensures InputWaits(ClientSessionMoves(w, s, a).client, k) ==> InputWaits(w.client, k)
    ensures OutputWaits(ServerSessionMoves(w, s, a).server, k) ==> OutputWaits(w.server, k)
    ensures ClientSessionMoves(w, s, a).server == w.server && ServerSessionMoves(w, s, a).client == w.client
  {
    if InputWaits(C.Close(w.client), k) {
      ClientCloseWaitsNot(w.client, k);
    }
    if OutputWaits(V.Close(w.server), k) {
      ServerCloseWaitsNot(w.server, k);
    }
  }

  lemma DeliveryWaits(w: World, a: Attempt, k: nat)
    ensures D.CanDeliver(w.pipe, D.A) ==>
              && (InputWaits(DeliverToClient(w, a).client, k) ==> InputWaits(w.client, k))
              && DeliverToClient(w, a).server == w.server
    ensures D.CanDeliver(w.pipe, D.B) ==>
              && (OutputWaits(DeliverToServer(w, a).server, k) ==> OutputWaits(w.server, k))
              && DeliverToServer(w, a).client == w.client
  {
    if D.CanDeliver(w.pipe, D.A) {
      ToClientWaits(w, a, k);
    }
    if D.CanDeliver(w.pipe, D.B) {
      ToServerWaits(w, a, k);
    }
  }

  lemma ToClientWaits(w: World, a: Attempt, k: nat)
    requires D.CanDeliver(w.pipe, D.A)
    ensures InputWaits(DeliverToClient(w, a).client, k) ==> InputWaits(w.client, k)
    ensures DeliverToClient(w, a).server == w.server
  {
    var letter, w1 := w.pipe.toA.queue[0], w.(pipe := D.DeliverOne(w.pipe, D.A));
    var (s, delivery) := S.OnInbound(w.clientSession, S.Parsed(EncodeFrame(letter.text)), FateOf(a, w1.pipe, D.B), false);
    var w2 := ClientSessionMoves(w1, s, a);
    SessionMovesWait(w1, s, a, k);
    if delivery.Deliver? && InputWaits(DeliverToClient(w, a).client, k) && !InputWaits(w2.client, k) {
      InputBeginsToWait(w2.client, C.Arrives(delivery.frame, letter.size), k);
    }
  }

  lemma ToServerWaits(w: World, a: Attempt, k: nat)
    requires D.CanDeliver(w.pipe, D.B)
    ensures OutputWaits(DeliverToServer(w, a).server, k) ==> OutputWaits(w.server, k)
    ensures DeliverToServer(w, a).client == w.client
  {
    var letter, w1 := w.pipe.toB.queue[0], w.(pipe := D.DeliverOne(w.pipe, D.B));
    var fate := FateOf(a, w1.pipe, D.A);
    var (s, delivery) := S.OnInbound(w.serverSession, S.Parsed(EncodeFrame(letter.text)), fate, false);
    var w2 := ServerSessionMoves(w1, s, a);
    SessionMovesWait(w1, s, a, k);
    if !delivery.Nothing? && OutputWaits(DeliverToServer(w, a).server, k) && !OutputWaits(w2.server, k) {
      var e := if delivery.Deliver? then V.Arrives(delivery.frame, letter.size, fate) else V.ArrivesInvalid(delivery.id, fate);
      OutputBeginsToWait(w2.server, e, k);
    }
  }

  /** A session that sends one text with a promise. */
  lemma SaidWithPromise(s: S.Session, p: D.Pipe<Frame>, side: D.Side, frame: Frame, first: Attempt, second: Attempt)
    requires FateOf(first, p, side) == S.Sent(true) && !s.phase.Shut?
    ensures Saying(s, p, side, [frame], first, second).nextDrain == s.nextDrain + 1
  {
  }

  lemma ClientStepWaits(w: World, e: Event, k: nat)
    requires InputWaits(ClientStep(w, e).client, k) && !InputWaits(w.client, k)
    ensures e.ClientProceeds? && ClientStep(w, e).server == w.server
    ensures InputOverMark(C.Proceeds(e.call, e.clientEvent, FateOf(e.first, w.pipe, D.B), FateOf(e.second, w.pipe, D.B)), k)
  {
    match e
    case ClientOpens(request, signal, aborted, first, second) =>
      if w.clientSession.phase.Ready? {
        InputBeginsToWait(w.client, C.Opens(request, signal, aborted, FateOf(first, w.pipe, D.B),
                                            FateOf(second, w.pipe, D.B)), k);
      }
    case ClientProceeds(j, event, first, second) =>
      InputBeginsToWait(w.client, C.Proceeds(j, event, FateOf(first, w.pipe, D.B), FateOf(second, w.pipe, D.B)), k);
    case ClientCloses => InputBeginsToWait(w.client, C.Closes, k);
    case ClientTimer => SessionMovesWait(w, S.OnHelloTimeout(w.clientSession), TooBig, k);
    case _ =>
  }

  lemma ServerStepWaits(w: World, e: Event, k: nat)
    requires OutputWaits(ServerStep(w, e).server, k) && !OutputWaits(w.server, k)
    ensures e.ServerProceeds? && ServerStep(w, e).client == w.client
    ensures OutputOverMark(V.Proceeds(e.call, e.serverEvent, FateOf(e.first, w.pipe, D.A), FateOf(e.second, w.pipe, D.A)), k)
  {
    match e
    case ServerProceeds(j, event, first, second) =>
      OutputBeginsToWait(w.server, V.Proceeds(j, event, FateOf(first, w.pipe, D.A), FateOf(second, w.pipe, D.A)), k);
    case ServerConsumes(j) => OutputBeginsToWait(w.server, V.Consumes(j), k);
    case ServerCloses => OutputBeginsToWait(w.server, V.Closes, k);
    case ServerTimer => SessionMovesWait(w, S.OnHelloTimeout(w.serverSession), TooBig, k);
    case HelloSettles(ok, a) =>
      SessionMovesWait(w, S.OnHelloSettled(w.serverSession, ok, FateOf(a, w.pipe, D.A), false), a, k);
    case _ =>
  }

  lemma CloseToldWaits(w: World, k: nat)
    requires w.pipe.tasks != []
    ensures InputWaits(TellClose(w).client, k) ==> InputWaits(w.client, k)
    ensures OutputWaits(TellClose(w).server, k) ==> OutputWaits(w.server, k)
  {
    var w1 := w.(pipe := D.RunClose(w.pipe));
    var w2 := ClientSessionMoves(w1, S.OnDuplexClose(w.clientSession), TooBig);
    SessionMovesWait(w1, S.OnDuplexClose(w.clientSession), TooBig, k);
    SessionMovesWait(w2, S.OnDuplexClose(w.serverSession), TooBig, k);
  }

  lemma OthersKeepClient(w: World, e: Event)
    ensures ServerStep(w, e).client == w.client && ClientStep(w, e).server == w.server
  {
  }

  /** Only a call's own step makes it wait. */
  lemma OnlyOwnStepsWait(w: World, e: Event, k: nat)
    ensures InputWaits(Step(w, e).client, k) && !InputWaits(w.client, k) ==> Step(w, e) == ClientStep(w, e)
    ensures OutputWaits(Step(w, e).server, k) && !OutputWaits(w.server, k) ==> Step(w, e) == ServerStep(w, e)
  {
    OthersKeepClient(w, e);
    if w.pipe.flushing.Some? {
      DeliveryWaits(w, if e.Delivers? then e.attempt else TooBig, k);
    } else if e.RunsTask? && w.pipe.tasks != [] {
      CloseToldWaits(w, k);
    }
  }

  /**
   * A client's call begins to wait when it has sent an input item, and then the
   * session has just been given a promise for that item.
   */
  lemma ClientBeginsToWait(w: World, e: Event, k: nat)
    requires Sound(w) && SessionsOk(w) && InputWaits(Step(w, e).client, k) && !InputWaits(w.client, k)
    ensures e.ClientProceeds? && e.call == k && k < |w.client.calls| && e.clientEvent.InputSettles? && e.clientEvent.next.InYields?
    ensures var r := Step(w, e);
            && Suffix(r.client.log, w.client.log) == [InItem(w.client.calls[k].id, e.clientEvent.next.input)]
            && r.clientSession.nextDrain == w.clientSession.nextDrain + 1
  {
    OnlyOwnStepsWait(w, e, k);
    ClientStepWaits(w, e, k);
    var one, two := FateOf(e.first, w.pipe, D.B), FateOf(e.second, w.pipe, D.B);
    var step := C.Proceeds(e.call, e.clientEvent, one, two);
    assert Step(w, e) == ClientMoves(w, C.Step(w.client, step), e.first, e.second);
    InputBeginsToWait(w.client, step, k);
    ClientSaysWithPromise(w, C.Step(w.client, step), InItem(w.client.calls[k].id, e.clientEvent.next.input), e.first, e.second);
  }

  lemma ClientSaysWithPromise(w: World, l: C.Link, item: Frame, first: Attempt, second: Attempt)
    requires Suffix(l.log, w.client.log) == [item] && FateOf(first, w.pipe, D.B) == S.Sent(true)
    requires !w.clientSession.phase.Shut?
    ensures ClientMoves(w, l, first, second).clientSession.nextDrain == w.clientSession.nextDrain + 1
  {
    SaidWithPromise(w.clientSession, w.pipe, D.B, item, first, second);
  }

  lemma ServerBeginsToWait(w: World, e: Event, k: nat)
    requires Sound(w) && SessionsOk(w) && OutputWaits(Step(w, e).server, k) && !OutputWaits(w.server, k)
    ensures e.ServerProceeds? && e.call == k && k < |w.server.calls| && e.serverEvent.NextSettles? && e.serverEvent.next.Yields?
    ensures var r := Step(w, e);
            && Frames(Suffix(r.server.log, w.server.log)) == [Item(w.server.calls[k].id, e.serverEvent.next.output)]
            && r.serverSession.nextDrain == w.serverSession.nextDrain + 1
  {
    OnlyOwnStepsWait(w, e, k);
    ServerStepWaits(w, e, k);
    var one, two := FateOf(e.first, w.pipe, D.A), FateOf(e.second, w.pipe, D.A);
    var step := V.Proceeds(e.call, e.serverEvent, one, two);
    assert Step(w, e) == ServerMoves(w, V.Step(w.server, step), e.first, e.second);
    OutputBeginsToWait(w.server, step, k);
    ServerSaysWithPromise(w, V.Step(w.server, step), Item(w.server.calls[k].id, e.serverEvent.next.output), e.first, e.second);
  }

  lemma ServerSaysWithPromise(w: World, m: V.Mux, item: Frame, first: Attempt, second: Attempt)
    requires Frames(Suffix(m.log, w.server.log)) == [item] && FateOf(first, w.pipe, D.A) == S.Sent(true)
    requires !w.serverSession.phase.Shut?
    ensures ServerMoves(w, m, first, second).serverSession.nextDrain == w.serverSession.nextDrain + 1
  {
    SaidWithPromise(w.serverSession, w.pipe, D.A, item, first, second);
  }

  lemma ClientStaysBacked(w: World, r: World, watch: Watch, e: Event, k: nat)
    requires Sound(w) && SessionsOk(w) && Backed(w, watch) && r == Step(w, e) && InputWaits(r.client, k)
    ensures k in Noted(w, r, watch).client && Noted(w, r, watch).client[k] < r.clientSession.nextDrain
  {
    PromisesStay(w, e);
    NewWaitIsPromised(w, e, k);
  }

  /** The promise a new wait is for is the newest of its session. */
  lemma NewWaitIsPromised(w: World, e: Event, k: nat)
    requires Sound(w) && SessionsOk(w)
    ensures InputWaits(Step(w, e).client, k) && !InputWaits(w.client, k) ==> Step(w, e).clientSession.nextDrain > 0
    ensures OutputWaits(Step(w, e).server, k) && !OutputWaits(w.server, k) ==> Step(w, e).serverSession.nextDrain > 0
  {
    if InputWaits(Step(w, e).client, k) && !InputWaits(w.client, k) {
      ClientBeginsToWait(w, e, k);
    }
    if OutputWaits(Step(w, e).server, k) && !OutputWaits(w.server, k) {
      ServerBeginsToWait(w, e, k);
    }
  }

  lemma ServerStaysBacked(w: World, r: World, watch: Watch, e: Event, k: nat)
    requires Sound(w) && SessionsOk(w) && Backed(w, watch) && r == Step(w, e) && OutputWaits(r.server, k)
    ensures k in Noted(w, r, watch).server && Noted(w, r, watch).server[k] < r.serverSession.nextDrain
  {
    PromisesStay(w, e);
    NewWaitIsPromised(w, e, k);
  }

  lemma StepBacked(w: World, watch: Watch, e: Event)
    requires Sound(w) && SessionsOk(w) && Backed(w, watch)
    ensures Backed(Step(w, e), Noted(w, Step(w, e), watch))
  {
    var r := Step(w, e);
    forall k | InputWaits(r.client, k)
      ensures k in Noted(w, r, watch).client && Noted(w, r, watch).client[k] < r.clientSession.nextDrain
    {
      ClientStaysBacked(w, r, watch, e, k);
    }
    forall k | OutputWaits(r.server, k)
      ensures k in Noted(w, r, watch).server && Noted(w, r, watch).server[k] < r.serverSession.nextDrain
    {
      ServerStaysBacked(w, r, watch, e, k);
    }
  }

  lemma {:induction false} EveryRunIsBacked(w: World, watch: Watch, events: seq<Event>)
    requires Sound(w) && SessionsOk(w) && Backed(w, watch)
    ensures var r := Run(w, events); Sound(r) && SessionsOk(r) && Backed(r, Watching(w, watch, events))
    decreases |events|
  {
    if events != [] {
      StepBacked(w, watch, events[0]);
      StepSound(w, events[0]);
      StepOk(w, events[0]);
      EveryRunIsBacked(Step(w, events[0]), Noted(w, Step(w, events[0]), watch), events[1..]);
    }
  }

  /** A promise of this end is settled, or else the end is over its mark or in a flush, and the close has not been told. */
  ghost predicate SettledOrFull(p: D.Pipe<Frame>, side: D.Side, drain: nat) {
    var inbox := D.At(p, side);
    && drain < inbox.issued
    && (drain in inbox.settled || (drain in inbox.drains && !p.notified && (p.flushing == Some(side) || D.OverMark(p.mark, inbox.bytes))))
  }

  lemma GivenIsSettledOrFull(p: D.Pipe<Frame>, side: D.Side, drain: nat)
    requires D.Good(p) && drain < D.At(p, side).issued
    ensures SettledOrFull(p, side, drain)
  {
    var inbox := D.At(p, side);
    assert D.GoodInbox(p, side);
    if drain < |inbox.settled| {
      assert inbox.settled[drain] == drain;
    } else {
      assert inbox.drains[drain - |inbox.settled|] == drain;
    }
  }

  lemma BeginIsBacked(setup: Setup, hello: Attempt)
    ensures Backed(Begin(setup, hello), NOBODY)
  {
    assert Begin(setup, hello).client.calls == [] && Begin(setup, hello).server.calls == [];
  }

  /**
   * Over every run of a connection, a call that waits for the duplex to drain waits
   * for a promise it was given, and that promise is settled as soon as the peer's
   * end is at or below its mark after a flush, or the close is told: until then,
   * and only until then, the wait is in order.
   */
  lemma WaitsEndWithTheirReason(setup: Setup, hello: Attempt, events: seq<Event>)
    ensures var w, watch := Run(Begin(setup, hello), events), Watching(Begin(setup, hello), NOBODY, events);
            && (forall k :: InputWaits(w.client, k) ==>
                  k in watch.client && SettledOrFull(w.pipe, D.B, watch.client[k]))
            && (forall k :: OutputWaits(w.server, k) ==>
                  k in watch.server && SettledOrFull(w.pipe, D.A, watch.server[k]))
  {
    var w0 := Begin(setup, hello);
    BeginIsOk(setup, hello);
    BeginIsBacked(setup, hello);
    EveryRunIsBacked(w0, NOBODY, events);
    var w, watch := Run(w0, events), Watching(w0, NOBODY, events);
    forall k | InputWaits(w.client, k) ensures SettledOrFull(w.pipe, D.B, watch.client[k]) {
      GivenIsSettledOrFull(w.pipe, D.B, watch.client[k]);
    }
    forall k | OutputWaits(w.server, k) ensures SettledOrFull(w.pipe, D.A, watch.server[k]) {
      GivenIsSettledOrFull(w.pipe, D.A, watch.server[k]);
    }
  }
}
