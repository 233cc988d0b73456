/**
 * One whole connection: a client link and a server multiplexer, each behind its
 * session, joined by the in-memory duplex. End A is the client's, end B the
 * server's. Every event is one run-to-completion step, picked by an adversary:
 * callers, handlers, consumers, timers, microtasks and send failures come in any
 * order. A text on the wire is the JSON of a frame, and is decoded on arrival.
 */
module Connection {
  import opened Basics
  import opened FrameCodec
  import S = Sessions
  import D = MemoryDuplexes
  import Q = PushQueues
  import C = ClientMux
  import CC = ClientCalls
  import V = ServerMux
  import SC = ServerCalls
  import opened Wire

  datatype World = World(
    client: C.Link,
    clientSession: S.Session,
    server: V.Mux,
    serverSession: S.Session,
    pipe: D.Pipe<Frame>)

  /** One send: the size of its text, or why it cannot go out. */
  datatype Attempt = Fits(size: nat) | TooBig | Unencodable

  /** Whether a text of this size is answered with a drain promise; a closed duplex gives none. */
  predicate IsPromised(p: D.Pipe<Frame>, side: D.Side, size: nat) {
    !p.closed && D.AboveAfter(p, side, size)
  }

  /** The memory duplex never throws; it answers with a drain promise when the peer is above the mark. */
  function FateOf(a: Attempt, p: D.Pipe<Frame>, side: D.Side): S.Fate {
    match a
    case Fits(size) => S.Sent(IsPromised(p, side, size))
    case TooBig => S.TooLarge
    case Unencodable => S.Unserializable
  }

  function SizeOf(a: Attempt): nat {
    if a.Fits? then a.size else 0
  }

  // ---- Onto the wire ----

  /** The frames of one step go out in order; a lone frame is the attempt that fits. */
  function SendAll(p: D.Pipe<Frame>, side: D.Side, frames: seq<Frame>, first: Attempt, second: Attempt): D.Pipe<Frame> {
    if |frames| == 0 then p
    else if |frames| == 1 then D.SendTo(p, side, D.Letter(frames[0], SizeOf(if first.Fits? then first else second)))
    else
      D.SendTo(D.SendTo(p, side, D.Letter(frames[0], SizeOf(first))), side, D.Letter(frames[1], SizeOf(second)))
  }

  /** The session that hands these frames of its owner to the duplex, and remembers the drain promises. */
  function Saying(s: S.Session, p: D.Pipe<Frame>, side: D.Side, frames: seq<Frame>, first: Attempt, second: Attempt): S.Session {
    if |frames| == 0 then s
    else if |frames| == 1 then Says(s, p, side, D.Letter(frames[0], SizeOf(if first.Fits? then first else second)))
    else
      var one := D.Letter(frames[0], SizeOf(first));
      Says(Says(s, p, side, one), D.SendTo(p, side, one), side, D.Letter(frames[1], SizeOf(second)))
  }

  function Says(s: S.Session, p: D.Pipe<Frame>, side: D.Side, letter: D.Letter<Frame>): S.Session {
    S.Send(s, letter.text, S.Sent(IsPromised(p, side, letter.size)), false).0
  }

  /** The read gate drives its own end of the duplex. */
  function Sync(p: D.Pipe<Frame>, side: D.Side, before: bool, after: bool): D.Pipe<Frame> {
    if before == after then p else if after then D.PauseEnd(p, side) else D.ResumeEnd(p, side)
  }

  /** The client link has moved: its session sends its frames, a close closes the duplex, its gate is followed. */
  function ClientMoves(w: World, l: C.Link, first: Attempt, second: Attempt): World {
    var closing, frames := w.client.open && !l.open, Suffix(l.log, w.client.log);
    var s := Saying(w.clientSession, w.pipe, D.B, frames, first, second);
    var p1 := SendAll(w.pipe, D.B, frames, first, second);
    var p2 := if closing then D.CloseBoth(p1) else p1;
    w.(client := l,
       clientSession := if closing then S.Close(s) else s,
       pipe := Sync(p2, D.A, w.client.gate.paused, l.gate.paused))
  }

  function ServerMoves(w: World, m: V.Mux, first: Attempt, second: Attempt): World {
    var closing, frames := w.server.open && !m.open, Frames(Suffix(m.log, w.server.log));
    var s := Saying(w.serverSession, w.pipe, D.A, frames, first, second);
    var p1 := SendAll(w.pipe, D.A, frames, first, second);
    var p2 := if closing then D.CloseBoth(p1) else p1;
    w.(server := m,
       serverSession := if closing then S.Close(s) else s,
       pipe := Sync(p2, D.B, w.server.gate.paused, m.gate.paused))
  }

  /** The texts a session has handed to its duplex. */
  function Spoken(trace: S.Trace): seq<Frame> {
    match trace
    case Start => []
    case Then(past, seen) => Spoken(past) + (if seen.Transmitted? then [seen.frame] else [])
  }

  /** A session has moved on its own: its hello frame goes out, and its close takes its owner along. */
  function ClientSessionMoves(w: World, s: S.Session, a: Attempt): World {
    var w1 := w.(clientSession := s,
                 pipe := SendAll(w.pipe, D.B, Suffix(Spoken(s.trace), Spoken(w.clientSession.trace)), a, a));
    if s.phase.Shut? then ClientMoves(w1, C.Close(w.client), a, a) else w1
  }

  function ServerSessionMoves(w: World, s: S.Session, a: Attempt): World {
    var w1 := w.(serverSession := s,
                 pipe := SendAll(w.pipe, D.A, Suffix(Spoken(s.trace), Spoken(w.serverSession.trace)), a, a));
    if s.phase.Shut? then ServerMoves(w1, V.Close(w.server), a, a) else w1
  }

  // ---- Off the wire ----

  function DeliverToClient(w: World, a: Attempt): World
    requires D.CanDeliver(w.pipe, D.A)
  {
    var letter := w.pipe.toA.queue[0];
    var w1 := w.(pipe := D.DeliverOne(w.pipe, D.A));
    var (s, delivery) := S.OnInbound(w.clientSession, S.Parsed(EncodeFrame(letter.text)), FateOf(a, w1.pipe, D.B), false);
    var w2 := ClientSessionMoves(w1, s, a);
    if delivery.Deliver? then ClientMoves(w2, C.Step(w2.client, C.Arrives(delivery.frame, letter.size)), a, a) else w2
  }

  function DeliverToServer(w: World, a: Attempt): World
    requires D.CanDeliver(w.pipe, D.B)
  {
    var letter := w.pipe.toB.queue[0];
    var w1 := w.(pipe := D.DeliverOne(w.pipe, D.B));
    var fate := FateOf(a, w1.pipe, D.A);
    var (s, delivery) := S.OnInbound(w.serverSession, S.Parsed(EncodeFrame(letter.text)), fate, false);
    var w2 := ServerSessionMoves(w1, s, a);
    match delivery
    case Nothing => w2
    case Deliver(frame) => ServerMoves(w2, V.Step(w2.server, V.Arrives(frame, letter.size, fate)), a, a)
    case Invalid(id) => ServerMoves(w2, V.Step(w2.server, V.ArrivesInvalid(id, fate)), a, a)
  }

  // ---- Events ----

  datatype Event =
    | ClientOpens(request: CC.Request, signal: bool, aborted: bool, first: Attempt, second: Attempt)
    | ClientProceeds(call: nat, clientEvent: C.CallEvent, first: Attempt, second: Attempt)
    | ClientCloses
    | ClientTimer
    | ClientDrains(drain: nat)
    | ServerProceeds(call: nat, serverEvent: V.CallEvent, first: Attempt, second: Attempt)
    | ServerConsumes(call: nat)
    | ServerCloses
    | ServerTimer
    | ServerDrains(drain: nat)
    | HelloSettles(ok: bool, attempt: Attempt)
    | RunsTask
    | Delivers(attempt: Attempt)
    | EndsFlush

  /** An event at the client, outside a flush; a drain promise that the duplex has settled reaches the session later. */
  function ClientStep(w: World, e: Event): World {
    match e
    case ClientOpens(request, signal, aborted, first, second) =>
      if !w.clientSession.phase.Ready? then w
      else
        var one, two := FateOf(first, w.pipe, D.B), FateOf(second, w.pipe, D.B);
        ClientMoves(w, C.Step(w.client, C.Opens(request, signal, aborted, one, two)), first, second)
    case ClientProceeds(k, event, first, second) =>
      var one, two := FateOf(first, w.pipe, D.B), FateOf(second, w.pipe, D.B);
      ClientMoves(w, C.Step(w.client, C.Proceeds(k, event, one, two)), first, second)
    case ClientCloses => ClientMoves(w, C.Step(w.client, C.Closes), TooBig, TooBig)
    case ClientTimer => ClientSessionMoves(w, S.OnHelloTimeout(w.clientSession), TooBig)
    case ClientDrains(drain) =>
      if drain in w.pipe.toB.settled then w.(clientSession := S.OnDrain(w.clientSession, drain, true)) else w
    case _ => w
  }

  /** An event at the server, outside a flush. */
  function ServerStep(w: World, e: Event): World {
    match e
    case ServerProceeds(k, event, first, second) =>
      var one, two := FateOf(first, w.pipe, D.A), FateOf(second, w.pipe, D.A);
      ServerMoves(w, V.Step(w.server, V.Proceeds(k, event, one, two)), first, second)
    case ServerConsumes(k) => ServerMoves(w, V.Step(w.server, V.Consumes(k)), TooBig, TooBig)
    case ServerCloses => ServerMoves(w, V.Step(w.server, V.Closes), TooBig, TooBig)
    case ServerTimer => ServerSessionMoves(w, S.OnHelloTimeout(w.serverSession), TooBig)
    case ServerDrains(drain) =>
      if drain in w.pipe.toA.settled then w.(serverSession := S.OnDrain(w.serverSession, drain, true)) else w
    case HelloSettles(ok, a) =>
      ServerSessionMoves(w, S.OnHelloSettled(w.serverSession, ok, FateOf(a, w.pipe, D.A), false), a)
    case _ => w
  }

  predicate AtClient(e: Event) {
    e.ClientOpens? || e.ClientProceeds? || e.ClientCloses? || e.ClientTimer? || e.ClientDrains?
  }

  /** The close microtask: both sessions hear of it. */
  function TellClose(w: World): World
    requires w.pipe.tasks != []
  {
    var w1 := w.(pipe := D.RunClose(w.pipe));
    var w2 := ClientSessionMoves(w1, S.OnDuplexClose(w.clientSession), TooBig);
    ServerSessionMoves(w2, S.OnDuplexClose(w.serverSession), TooBig)
  }

  /** One turn of a running flush. */
  function FlushStep(w: World, e: Event, side: D.Side): World {
    if D.CanDeliver(w.pipe, side) then
      if !e.Delivers? then w else if side.A? then DeliverToClient(w, e.attempt) else DeliverToServer(w, e.attempt)
    else if e.EndsFlush? then w.(pipe := D.EndFlush(w.pipe, side))
    else w
  }

  /** While a flush runs, nothing else does. */
  function Step(w: World, e: Event): World {
    if w.pipe.flushing.Some? then FlushStep(w, e, w.pipe.flushing.value)
    else if e.RunsTask? then
      if w.pipe.tasks == [] then w
      else if w.pipe.tasks[0].FlushTask? then w.(pipe := D.BeginFlush(w.pipe, w.pipe.tasks[0].side))
      else TellClose(w)
    else if AtClient(e) then ClientStep(w, e)
    else ServerStep(w, e)
  }

  function Run(w: World, events: seq<Event>): World
    decreases |events|
  {
    if events == [] then w else Run(Step(w, events[0]), events[1..])
  }

  /** Settings of the two ends and of the duplex between them. */
  datatype Setup = Setup(
    duplexMark: Option<nat>,
    clientMark: Option<nat>,
    serverMark: Option<nat>,
    clientTimer: bool,
    serverTimer: bool,
    reports: bool,
    meta: Payload)

  /** Both ends attached, nothing said yet. */
  function IdleWorld(setup: Setup): World {
    World(C.Fresh(setup.clientMark), S.Idle(S.ClientRole, setup.clientTimer),
          V.Fresh(setup.serverMark, setup.reports), S.Idle(S.ServerRole, setup.serverTimer),
          D.Fresh<Frame>(setup.duplexMark))
  }

  /** The client's constructor says hello. */
  function Begin(setup: Setup, hello: Attempt): World {
    var w := IdleWorld(setup);
    ClientSessionMoves(w, S.Begin(S.ClientRole, setup.clientTimer, setup.meta, FateOf(hello, w.pipe, D.B), false), hello)
  }
}
