/**
 * The whole connection: what both ends, their sessions and the duplex keep
 * together in every run, and what that means for the streams of a call.
 */
module EndToEnd {
  import opened Basics
  import opened FrameCodec
  import opened Wire
  import opened Connection
  import opened Linkage
  import opened Ends
  import opened Streams
  import S = Sessions
  import D = MemoryDuplexes
  import Q = PushQueues
  import C = ClientMux
  import CC = ClientCalls
  import V = ServerMux
  import SC = ServerCalls

  // ---- The parts in step ----

  ghost predicate PartsGood(w: World) {
    C.Good(w.client) && V.Good(w.server) && D.Good(w.pipe)
  }

  /** Each read gate and its end of the duplex agree. */
  predicate Synced(w: World) {
    w.pipe.toA.paused == w.client.gate.paused && w.pipe.toB.paused == w.server.gate.paused
  }

  /** Each end is open as long as its session is, and has calls only after the handshake. */
  predicate Housed(w: World) {
    && w.clientSession.role.ClientRole? && w.serverSession.role.ServerRole?
    && (w.client.open <==> !w.clientSession.phase.Shut?)
    && (w.server.open <==> !w.serverSession.phase.Shut?)
    && (w.client.calls != [] ==> !w.clientSession.phase.WaitingHello?)
    && (w.server.calls != [] ==> !w.serverSession.phase.WaitingHello?)
  }

  predicate AllFromClient(letters: seq<D.Letter<Frame>>) {
    forall i :: 0 <= i < |letters| ==> FromClient(letters[i].text)
  }

  ghost predicate Wired(w: World) {
    && Mirrors(w.pipe.toB.sent, w.client.log, w.pipe.closed)
    && Mirrors(w.pipe.toA.sent, Frames(w.server.log), w.pipe.closed)
    && AllFromClient(w.pipe.toB.sent)
  }

  ghost predicate Linked(w: World) {
    PartsGood(w) && Synced(w) && Housed(w) && Wired(w)
  }

  /** A move that delivers nothing. */
  predicate SameReceived(w: World, r: World) {
    && r.pipe.toA.received == w.pipe.toA.received && r.pipe.toB.received == w.pipe.toB.received
    && r.pipe.flushing == w.pipe.flushing
  }

  lemma AllFromClientMore(p: D.Pipe<Frame>, r: D.Pipe<Frame>, frames: seq<Frame>)
    requires AllFromClient(p.toB.sent) && Carries(p, r, D.B, frames)
    requires forall i :: 0 <= i < |frames| ==> FromClient(frames[i])
    ensures AllFromClient(r.toB.sent)
  {
    forall i | 0 <= i < |r.toB.sent| ensures FromClient(r.toB.sent[i].text) {
      assert Texts(r.toB.sent)[i] == r.toB.sent[i].text;
      if i < |p.toB.sent| {
        assert Texts(p.toB.sent)[i] == p.toB.sent[i].text;
      }
    }
  }

  /** Frames sent to one end are mirrored there, and change nothing at the other. */
  lemma MirrorsCarried(p: D.Pipe<Frame>, r: D.Pipe<Frame>, side: D.Side, frames: seq<Frame>, log: seq<Frame>, other: seq<Frame>)
    requires Carries(p, r, side, frames)
    requires Mirrors(D.At(p, side).sent, log, p.closed) && Mirrors(D.At(p, D.Other(side)).sent, other, p.closed)
    ensures Mirrors(D.At(r, side).sent, log + frames, r.closed) && Mirrors(D.At(r, D.Other(side)).sent, other, r.closed)
  {
    MirrorsMore(D.At(p, side).sent, D.At(r, side).sent, log, frames, p.closed, r.closed);
    var texts := Texts(D.At(p, D.Other(side)).sent);
    assert texts + [] == texts && other + [] == other;
    MirrorsMore(D.At(p, D.Other(side)).sent, D.At(r, D.Other(side)).sent, other, [], p.closed, r.closed);
  }

  // ---- The client moves ----

  lemma LoggedFromClient(l: C.Link, before: seq<Frame>)
    requires C.Numbered(l) && before <= l.log
    ensures l.log == before + Suffix(l.log, before)
    ensures forall i :: 0 <= i < |Suffix(l.log, before)| ==> FromClient(Suffix(l.log, before)[i])
  {
    KnownIsFromClient(l);
  }

  /** The duplex after a move of the client. */
  function ClientPipe(w: World, l: C.Link, first: Attempt, second: Attempt): D.Pipe<Frame> {
    Moved(w.pipe, D.A, Suffix(l.log, w.client.log), first, second, w.client.open && !l.open,
          w.client.gate.paused, l.gate.paused)
  }

  lemma ClientMovesPipe(w: World, l: C.Link, first: Attempt, second: Attempt)
    requires D.Good(w.pipe) && Synced(w) && C.Grown(w.client, l)
    ensures ClientMoves(w, l, first, second).pipe == ClientPipe(w, l, first, second)
    ensures var r := ClientPipe(w, l, first, second);
            && Carries(w.pipe, r, D.B, Suffix(l.log, w.client.log))
            && r.toA.paused == l.gate.paused && r.toB.paused == w.pipe.toB.paused
  {
    MovedCarries(w.pipe, D.A, Suffix(l.log, w.client.log), first, second, w.client.open && !l.open,
                 w.client.gate.paused, l.gate.paused);
  }

  lemma ClientMovesWired(w: World, l: C.Link, first: Attempt, second: Attempt)
    requires Linked(w) && C.Good(l) && C.Grown(w.client, l)
    ensures var r := ClientMoves(w, l, first, second);
            && Wired(r) && D.Good(r.pipe) && SameReceived(w, r)
            && r.pipe.toA.paused == l.gate.paused && r.pipe.toB.paused == w.pipe.toB.paused
  {
    var frames, pipe := Suffix(l.log, w.client.log), ClientPipe(w, l, first, second);
    ClientMovesPipe(w, l, first, second);
    MirrorsCarried(w.pipe, pipe, D.B, frames, w.client.log, Frames(w.server.log));
    LoggedFromClient(l, w.client.log);
    AllFromClientMore(w.pipe, pipe, frames);
  }

  lemma ClientMovesLinked(w: World, l: C.Link, first: Attempt, second: Attempt)
    requires Linked(w) && C.Good(l) && C.Grown(w.client, l)
    requires l.calls != [] ==> !w.clientSession.phase.WaitingHello?
    ensures Linked(ClientMoves(w, l, first, second)) && SameReceived(w, ClientMoves(w, l, first, second))
  {
    var frames := Suffix(l.log, w.client.log);
    ClientMovesWired(w, l, first, second);
    SayingStays(w.clientSession, w.pipe, D.B, frames, first, second);
    CloseMoves(Saying(w.clientSession, w.pipe, D.B, frames, first, second));
  }

  lemma FramesSplit(log: seq<V.Outgoing>, log': seq<V.Outgoing>)
    requires log <= log'
    ensures Frames(log') == Frames(log) + Frames(Suffix(log', log))
  {
  }

  lemma ServerMovesWired(w: World, m: V.Mux, first: Attempt, second: Attempt)
    requires Linked(w) && V.Good(m) && V.Grown(w.server, m)
    ensures var r := ServerMoves(w, m, first, second);
            && Wired(r) && D.Good(r.pipe) && SameReceived(w, r)
            && r.pipe.toB.paused == m.gate.paused && r.pipe.toA.paused == w.pipe.toA.paused
  {
    var frames := Frames(Suffix(m.log, w.server.log));
    var pipe := Moved(w.pipe, D.B, frames, first, second, w.server.open && !m.open, w.server.gate.paused, m.gate.paused);
    assert ServerMoves(w, m, first, second).pipe == pipe;
    MovedCarries(w.pipe, D.B, frames, first, second, w.server.open && !m.open, w.server.gate.paused, m.gate.paused);
    FramesSplit(w.server.log, m.log);
    MirrorsCarried(w.pipe, pipe, D.A, frames, Frames(w.server.log), w.client.log);
  }

  lemma ServerMovesLinked(w: World, m: V.Mux, first: Attempt, second: Attempt)
    requires Linked(w) && V.Good(m) && V.Grown(w.server, m)
    requires m.calls != [] ==> !w.serverSession.phase.WaitingHello?
    ensures Linked(ServerMoves(w, m, first, second)) && SameReceived(w, ServerMoves(w, m, first, second))
  {
    var frames := Frames(Suffix(m.log, w.server.log));
    ServerMovesWired(w, m, first, second);
    SayingStays(w.serverSession, w.pipe, D.A, frames, first, second);
    CloseMoves(Saying(w.serverSession, w.pipe, D.A, frames, first, second));
  }

  // ---- A session moves ----

  /** What a session's own move puts on the wire. */
  lemma Uttered(s: S.Session, r: S.Session)
    requires SessionMoved(s, r)
    ensures var hellos := Suffix(Spoken(r.trace), Spoken(s.trace));
            |hellos| <= 1 && forall i :: 0 <= i < |hellos| ==> IsHello(hellos[i])
  {
  }

  lemma MirrorsHello(p: D.Pipe<Frame>, r: D.Pipe<Frame>, side: D.Side, hellos: seq<Frame>, log: seq<Frame>, other: seq<Frame>)
    requires Carries(p, r, side, hellos) && forall i :: 0 <= i < |hellos| ==> IsHello(hellos[i])
    requires Mirrors(D.At(p, side).sent, log, p.closed) && Mirrors(D.At(p, D.Other(side)).sent, other, p.closed)
    ensures Mirrors(D.At(r, side).sent, log, r.closed) && Mirrors(D.At(r, D.Other(side)).sent, other, r.closed)
  {
    MirrorsHellos(D.At(p, side).sent, D.At(r, side).sent, log, hellos, p.closed, r.closed);
    var texts := Texts(D.At(p, D.Other(side)).sent);
    assert texts + [] == texts;
    MirrorsHellos(D.At(p, D.Other(side)).sent, D.At(r, D.Other(side)).sent, other, [], p.closed, r.closed);
  }

  /** The world once a session has spoken, before a close takes its end along. */
  lemma ClientSpeaksLinked(w: World, s: S.Session, a: Attempt)
    requires Linked(w) && SessionMoved(w.clientSession, s)
    ensures var r := SendAll(w.pipe, D.B, Suffix(Spoken(s.trace), Spoken(w.clientSession.trace)), a, a);
            Linked(w.(pipe := r)) && SameReceived(w, w.(pipe := r))
  {
    var hellos := Suffix(Spoken(s.trace), Spoken(w.clientSession.trace));
    var pipe := SendAll(w.pipe, D.B, hellos, a, a);
    Uttered(w.clientSession, s);
    SendAllCarries(w.pipe, D.B, hellos, a, a);
    MirrorsHello(w.pipe, pipe, D.B, hellos, w.client.log, Frames(w.server.log));
    AllFromClientMore(w.pipe, pipe, hellos);
  }

  lemma ServerSpeaksLinked(w: World, s: S.Session, a: Attempt)
    requires Linked(w) && SessionMoved(w.serverSession, s)
    ensures var r := SendAll(w.pipe, D.A, Suffix(Spoken(s.trace), Spoken(w.serverSession.trace)), a, a);
            Linked(w.(pipe := r)) && SameReceived(w, w.(pipe := r))
  {
    var hellos := Suffix(Spoken(s.trace), Spoken(w.serverSession.trace));
    var pipe := SendAll(w.pipe, D.A, hellos, a, a);
    Uttered(w.serverSession, s);
    SendAllCarries(w.pipe, D.A, hellos, a, a);
    MirrorsHello(w.pipe, pipe, D.A, hellos, Frames(w.server.log), w.client.log);
  }

  lemma ClientSessionMovesLinked(w: World, s: S.Session, a: Attempt)
    requires Linked(w) && SessionMoved(w.clientSession, s)
    ensures var r := ClientSessionMoves(w, s, a);
            && Linked(r) && SameReceived(w, r) && r.clientSession == s
            && r.client == (if s.phase.Shut? then C.Close(w.client) else w.client)
            && r.server == w.server && r.serverSession == w.serverSession
  {
    var pipe := SendAll(w.pipe, D.B, Suffix(Spoken(s.trace), Spoken(w.clientSession.trace)), a, a);
    ClientSpeaksLinked(w, s, a);
    if s.phase.Shut? {
      var w1 := w.(pipe := pipe);
      C.CloseKeeps(w.client);
      ClientMovesLinked(w1, C.Close(w.client), a, a);
      ClosedWith(w, s, a);
    }
  }

  /** A session that has shut takes its owner along, and stays shut. */
  lemma ClosedWith(w: World, s: S.Session, a: Attempt)
    requires s.phase.Shut?
    ensures var w1 := w.(pipe := SendAll(w.pipe, D.B, Suffix(Spoken(s.trace), Spoken(w.clientSession.trace)), a, a));
            ClientSessionMoves(w, s, a) == ClientMoves(w1, C.Close(w.client), a, a).(clientSession := s)
  {
  }

  lemma ServerSessionMovesLinked(w: World, s: S.Session, a: Attempt)
    requires Linked(w) && SessionMoved(w.serverSession, s)
    ensures var r := ServerSessionMoves(w, s, a);
            && Linked(r) && SameReceived(w, r) && r.serverSession == s
            && r.server == (if s.phase.Shut? then V.Close(w.server) else w.server)
            && r.client == w.client && r.clientSession == w.clientSession
  {
    var pipe := SendAll(w.pipe, D.A, Suffix(Spoken(s.trace), Spoken(w.serverSession.trace)), a, a);
    ServerSpeaksLinked(w, s, a);
    if s.phase.Shut? {
      var w1 := w.(pipe := pipe);
      V.CloseKeeps(w.server);
      ServerMovesLinked(w1, V.Close(w.server), a, a);
      assert ServerSessionMoves(w, s, a) == ServerMoves(w1, V.Close(w.server), a, a).(serverSession := s);
    }
  }

  // ---- What both ends have made of what they received ----

  ghost predicate Heeded(w: World, toA: seq<D.Letter<Frame>>, toB: seq<D.Letter<Frame>>) {
    OutsOk(w.client, toA) && Unshared(w.server, toB) && InsOk(w.server, toB)
  }

  /** The invariant of the whole connection. */
  ghost predicate Sound(w: World) {
    Linked(w) && Heeded(w, w.pipe.toA.received, w.pipe.toB.received)
  }

  lemma ForPrefix(a: seq<D.Letter<Frame>>, b: seq<D.Letter<Frame>>, id: string)
    ensures For(a, id) <= For(a + b, id)
  {
    assert Texts(a + b) == Texts(a) + Texts(b);
    OfSplit(Texts(a), Texts(b), id);
  }

  /** Where the frames an end has received come from. */
  lemma ReceivedWasSent(w: World, id: string)
    requires Linked(w)
    ensures For(w.pipe.toB.received, id) <= C.FramesFor(w.client.log, id)
    ensures For(w.pipe.toA.received, id) <= Of(Frames(w.server.log), id)
  {
    ReceivedPrefix(w.pipe, D.A, id);
    ReceivedPrefix(w.pipe, D.B, id);
    SpokenIsLegal(w.client, id);
  }

  /** The server has sent nothing for an id the client has not given out yet. */
  lemma NothingForFreshId(w: World)
    requires Sound(w)
    ensures For(w.pipe.toA.received, Decimal(w.client.nextId)) == []
  {
    var id := Decimal(w.client.nextId);
    ReceivedWasSent(w, id);
    C.FreshIdIsUnused(w.client);
    SentIsLegal(w.server, w.pipe.toB.received, id);
  }

  /** The next letter keeps to what was logged for an id. */
  lemma NextIsPrefix(inbox: D.Inbox<Frame>, letter: D.Letter<Frame>, log: seq<Frame>, id: string)
    requires D.Fifo(inbox) && inbox.queue != [] && letter == inbox.queue[0]
    requires For(inbox.sent, id) <= Of(log, id)
    ensures For(inbox.received + [letter], id) <= Of(log, id)
    ensures SC.Legal(Of(log, id)) ==> SC.Legal(For(inbox.received + [letter], id))
    ensures CC.Legal(Of(log, id)) ==> CC.Legal(For(inbox.received + [letter], id))
    ensures inbox.sent[|inbox.received|] == letter
  {
    assert inbox.sent == inbox.received + [letter] + inbox.queue[1..];
    ForPrefix(inbox.received + [letter], inbox.queue[1..], id);
    LegalPrefix(For(inbox.received + [letter], id), Of(log, id));
  }

  lemma SentFollows(w: World, letter: D.Letter<Frame>)
    requires Sound(w) && D.CanDeliver(w.pipe, D.A) && letter == w.pipe.toA.queue[0]
    ensures Follows(w.client, w.pipe.toA.received, letter)
  {
    forall k | 0 <= k < |w.client.calls| ensures SC.Legal(For(w.pipe.toA.received + [letter], w.client.calls[k].id)) {
      var id := w.client.calls[k].id;
      SentIsLegal(w.server, w.pipe.toB.received, id);
      NextIsPrefix(w.pipe.toA, letter, Frames(w.server.log), id);
    }
  }

  lemma LegalPrefix(a: seq<Frame>, b: seq<Frame>)
    requires a <= b
    ensures SC.Legal(b) ==> SC.Legal(a)
    ensures CC.Legal(b) ==> CC.Legal(a)
  {
    if SC.Legal(b) && a != [] {
      assert b[0] == a[0];
    }
  }

  lemma SentObeys(w: World, letter: D.Letter<Frame>)
    requires Sound(w) && D.CanDeliver(w.pipe, D.B) && letter == w.pipe.toB.queue[0]
    ensures Obeys(w.pipe.toB.received, letter)
  {
    forall id ensures CC.Legal(For(w.pipe.toB.received + [letter], id)) {
      SpokenIsLegal(w.client, id);
      NextIsPrefix(w.pipe.toB, letter, w.client.log, id);
    }
    NextIsPrefix(w.pipe.toB, letter, w.client.log, "");
  }

  // ---- Off the wire ----

  /** Taking a letter off the wire changes nothing else. */
  lemma TakenOff(w: World, side: D.Side)
    requires Linked(w) && D.CanDeliver(w.pipe, side) && w.pipe.flushing == Some(side)
    ensures Linked(w.(pipe := D.DeliverOne(w.pipe, side)))
  {
    D.DeliverKeeps(w.pipe);
  }

  lemma HelloHasNoId(frame: Frame)
    requires IsHello(frame)
    ensures DecodeFrame(EncodeFrame(frame)).Rejected? ==> DecodeFrame(EncodeFrame(frame)).id == None
  {
    assert "id" !in Body(frame);
    EncodedDispatch(frame);
  }

  /** What the session hands up for the text of a frame: the frame itself, or nothing the stream could use. */
  lemma HandedUp(s: S.Session, frame: Frame, fate: S.Fate)
    ensures var d := S.OnInbound(s, S.Parsed(EncodeFrame(frame)), fate, false).1;
            && (d.Deliver? ==> d.frame == Normal(frame))
            && (s.phase.Ready? && WellFormed(frame) ==> d == S.Deliver(Normal(frame)))
            && (IsHello(frame) ==> !d.Invalid?)
  {
    RoundTrip(frame);
    if IsHello(frame) {
      HelloHasNoId(frame);
    }
  }

  lemma ClientHears(w: World, w2: World, letter: D.Letter<Frame>, a: Attempt)
    requires C.Good(w.client) && w.client.open && Heeded(w, w.pipe.toA.received, w.pipe.toB.received)
    requires Follows(w.client, w.pipe.toA.received, letter)
    requires Linked(w2) && w2.client == w.client && w2.server == w.server
    requires w2.pipe.toA.received == w.pipe.toA.received + [letter] && w2.pipe.toB.received == w.pipe.toB.received
    ensures Sound(ClientMoves(w2, C.Step(w2.client, C.Arrives(Normal(letter.text), letter.size)), a, a))
  {
    OutsArrive(w.client, w.pipe.toA.received, letter);
    ClientStepLinked(w2, C.Arrives(Normal(letter.text), letter.size), a, a);
  }

  lemma ClientIsNotGiven(w: World, w2: World, letter: D.Letter<Frame>)
    requires C.Good(w.client) && Heeded(w, w.pipe.toA.received, w.pipe.toB.received) && Follows(w.client, w.pipe.toA.received, letter)
    requires w.client.open && w.client.calls != [] ==> !letter.text.Item? || letter.text.id == ""
    requires Linked(w2) && (w2.client == w.client || w2.client == C.Close(w.client)) && w2.server == w.server
    requires w2.pipe.toA.received == w.pipe.toA.received + [letter] && w2.pipe.toB.received == w.pipe.toB.received
    ensures Sound(w2)
  {
    OutsSkip(w.client, w.pipe.toA.received, letter);
    OutsClose(w.client, w.pipe.toA.received + [letter]);
  }

  lemma ToClientSound(w: World, a: Attempt)
    requires Sound(w) && w.pipe.flushing == Some(D.A) && D.CanDeliver(w.pipe, D.A)
    ensures Sound(DeliverToClient(w, a))
  {
    var letter := w.pipe.toA.queue[0];
    var w1 := w.(pipe := D.DeliverOne(w.pipe, D.A));
    TakenOff(w, D.A);
    SentFollows(w, letter);
    var text, fate := S.Parsed(EncodeFrame(letter.text)), FateOf(a, w1.pipe, D.B);
    var (s, delivery) := S.OnInbound(w.clientSession, text, fate, false);
    InboundMoves(w.clientSession, text, fate);
    HandedUp(w.clientSession, letter.text, fate);
    ClientSessionMovesLinked(w1, s, a);
    if delivery.Deliver? {
      ClientHears(w, ClientSessionMoves(w1, s, a), letter, a);
    } else {
      ClientIsNotGiven(w, ClientSessionMoves(w1, s, a), letter);
    }
  }

  lemma ClientStepLinked(w: World, e: C.Event, first: Attempt, second: Attempt)
    requires Linked(w) && (e.Opens? ==> !w.clientSession.phase.WaitingHello?)
    ensures Linked(ClientMoves(w, C.Step(w.client, e), first, second))
    ensures SameReceived(w, ClientMoves(w, C.Step(w.client, e), first, second))
  {
    C.StepKeeps(w.client, e);
    C.StepGrows(w.client, e);
    OnlyOpenOpens(w.client, e);
    var l := C.Step(w.client, e);
    assert l.calls != [] ==> !w.clientSession.phase.WaitingHello?;
    ClientMovesLinked(w, l, first, second);
  }

  lemma OnlyOpenOpens(l: C.Link, e: C.Event)
    ensures !e.Opens? ==> |C.Step(l, e).calls| == |l.calls|
  {
  }

  lemma ServerStepLinked(w: World, e: V.Event, first: Attempt, second: Attempt)
    requires Linked(w) && (e.Arrives? ==> !w.serverSession.phase.WaitingHello?)
    ensures Linked(ServerMoves(w, V.Step(w.server, e), first, second))
    ensures SameReceived(w, ServerMoves(w, V.Step(w.server, e), first, second))
  {
    V.StepKeeps(w.server, e);
    V.StepGrows(w.server, e);
    OnlyArrivalsStart(w.server, e);
    var m := V.Step(w.server, e);
    assert m.calls != [] ==> !w.serverSession.phase.WaitingHello?;
    ServerMovesLinked(w, m, first, second);
  }

  lemma OnlyArrivalsStart(m: V.Mux, e: V.Event)
    ensures !e.Arrives? ==> |V.Step(m, e).calls| == |m.calls|
  {
  }

  lemma ToServerSound(w: World, a: Attempt)
    requires Sound(w) && w.pipe.flushing == Some(D.B) && D.CanDeliver(w.pipe, D.B)
    ensures Sound(DeliverToServer(w, a))
  {
    var letter := w.pipe.toB.queue[0];
    var text, fate := S.Parsed(EncodeFrame(letter.text)), FateOf(a, D.DeliverOne(w.pipe, D.B), D.A);
    var (s, delivery) := S.OnInbound(w.serverSession, text, fate, false);
    SentObeys(w, letter);
    InboundMoves(w.serverSession, text, fate);
    HandedUp(w.serverSession, letter.text, fate);
    MovedByInbound(w, a, s, delivery, fate);
  }

  /** What the server makes of its next letter, whatever its session says to it. */
  /** What the server's session hands up arrives at the server. */
  lemma MovedByFrame(w: World, a: Attempt, s: S.Session, fate: S.Fate)
    requires Sound(w) && w.pipe.flushing == Some(D.B) && D.CanDeliver(w.pipe, D.B)
    requires Obeys(w.pipe.toB.received, w.pipe.toB.queue[0])
    requires SessionMoved(w.serverSession, s) && w.serverSession.phase.Ready? && s.phase.Ready?
    ensures var letter, w2 := w.pipe.toB.queue[0], ServerSessionMoves(w.(pipe := D.DeliverOne(w.pipe, D.B)), s, a);
            Sound(ServerMoves(w2, V.Step(w2.server, V.Arrives(Normal(letter.text), letter.size, fate)), a, a))
  {
    var w1 := w.(pipe := D.DeliverOne(w.pipe, D.B));
    TakenOff(w, D.B);
    ServerSessionMovesLinked(w1, s, a);
    ServerHears(w, ServerSessionMoves(w1, s, a), w.pipe.toB.queue[0], fate, a);
  }

  lemma MovedUnheard(w: World, a: Attempt, s: S.Session)
    requires Sound(w) && w.pipe.flushing == Some(D.B) && D.CanDeliver(w.pipe, D.B)
    requires Obeys(w.pipe.toB.received, w.pipe.toB.queue[0]) && SessionMoved(w.serverSession, s)
    requires !(w.serverSession.phase.Ready? && WellFormed(w.pipe.toB.queue[0].text))
    ensures Sound(ServerSessionMoves(w.(pipe := D.DeliverOne(w.pipe, D.B)), s, a))
  {
    var w1 := w.(pipe := D.DeliverOne(w.pipe, D.B));
    TakenOff(w, D.B);
    ServerSessionMovesLinked(w1, s, a);
    ServerIsNotGiven(w, ServerSessionMoves(w1, s, a), w.pipe.toB.queue[0]);
  }

  lemma MovedByInbound(w: World, a: Attempt, s: S.Session, delivery: S.Delivery, fate: S.Fate)
    requires Sound(w) && w.pipe.flushing == Some(D.B) && D.CanDeliver(w.pipe, D.B)
    requires Obeys(w.pipe.toB.received, w.pipe.toB.queue[0])
    requires SessionMoved(w.serverSession, s)
    requires !delivery.Nothing? ==> w.serverSession.phase.Ready? && s.phase.Ready?
    requires delivery.Deliver? ==> delivery.frame == Normal(w.pipe.toB.queue[0].text)
    requires w.serverSession.phase.Ready? && WellFormed(w.pipe.toB.queue[0].text) ==> delivery.Deliver?
    requires IsHello(w.pipe.toB.queue[0].text) ==> !delivery.Invalid?
    ensures var letter, w2 := w.pipe.toB.queue[0], ServerSessionMoves(w.(pipe := D.DeliverOne(w.pipe, D.B)), s, a);
            match delivery
            case Nothing => Sound(w2)
            case Deliver(frame) => Sound(ServerMoves(w2, V.Step(w2.server, V.Arrives(frame, letter.size, fate)), a, a))
            case Invalid(id) => Sound(ServerMoves(w2, V.Step(w2.server, V.ArrivesInvalid(id, fate)), a, a))
  {
    if delivery.Deliver? {
      MovedByFrame(w, a, s, fate);
    } else {
      assert delivery.Nothing?;
      MovedUnheard(w, a, s);
    }
  }

  /** The letter has left the duplex, and the session, closed perhaps, keeps it to itself. */
  lemma ServerIsNotGiven(w: World, w2: World, letter: D.Letter<Frame>)
    requires V.Good(w.server) && Heeded(w, w.pipe.toA.received, w.pipe.toB.received) && Obeys(w.pipe.toB.received, letter)
    requires w.server.open && w.server.calls != [] && !IsHello(letter.text) ==>
               !letter.text.InItem? || letter.text.id !in w.server.inflight
    requires Linked(w2) && (w2.server == w.server || w2.server == V.Close(w.server)) && w2.client == w.client
    requires w2.pipe.toA.received == w.pipe.toA.received && w2.pipe.toB.received == w.pipe.toB.received + [letter]
    ensures Sound(w2)
  {
    SkippedAtServer(w.server, w.pipe.toB.received, letter);
  }

  /** The letter has left the duplex, and the ready session hands its frame up. */
  lemma ServerHears(w: World, w2: World, letter: D.Letter<Frame>, fate: S.Fate, a: Attempt)
    requires V.Good(w.server) && w.server.open && Heeded(w, w.pipe.toA.received, w.pipe.toB.received)
    requires Obeys(w.pipe.toB.received, letter)
    requires Linked(w2) && w2.server == w.server && w2.client == w.client && !w2.serverSession.phase.WaitingHello?
    requires w2.pipe.toA.received == w.pipe.toA.received && w2.pipe.toB.received == w.pipe.toB.received + [letter]
    ensures Sound(ServerMoves(w2, V.Step(w2.server, V.Arrives(Normal(letter.text), letter.size, fate)), a, a))
  {
    InsArrive(w.server, w.pipe.toB.received, letter, fate);
    ServerStepLinked(w2, V.Arrives(Normal(letter.text), letter.size, fate), a, a);
  }

  /** A letter that the server is not given, whether it closes the connection or not. */
  lemma SkippedAtServer(m: V.Mux, received: seq<D.Letter<Frame>>, letter: D.Letter<Frame>)
    requires V.Good(m) && Unshared(m, received) && InsOk(m, received) && Obeys(received, letter)
    requires m.open && m.calls != [] && !IsHello(letter.text) ==> !letter.text.InItem? || letter.text.id !in m.inflight
    ensures Unshared(m, received + [letter]) && InsOk(m, received + [letter])
    ensures Unshared(V.Close(m), received + [letter]) && InsOk(V.Close(m), received + [letter])
  {
    InsSkip(m, received, letter);
    CloseQuieter(m);
    QuieterOk(m, V.Close(m), received + [letter]);
  }

  // ---- Every event ----

  /** An event of the client's own. */
  lemma ClientActs(w: World, e: C.Event, first: Attempt, second: Attempt)
    requires Sound(w) && !e.Arrives? && (e.Opens? ==> !w.clientSession.phase.WaitingHello?)
    ensures Sound(ClientMoves(w, C.Step(w.client, e), first, second))
  {
    ClientStepLinked(w, e, first, second);
    NothingForFreshId(w);
    OutsStep(w.client, e, w.pipe.toA.received);
  }

  lemma ServerActs(w: World, e: V.Event, first: Attempt, second: Attempt)
    requires Sound(w) && !e.Arrives? && !e.ArrivesInvalid?
    ensures Sound(ServerMoves(w, V.Step(w.server, e), first, second))
  {
    ServerStepLinked(w, e, first, second);
    StepQuieter(w.server, e);
    QuieterOk(w.server, V.Step(w.server, e), w.pipe.toB.received);
  }

  lemma ClientSessionActs(w: World, s: S.Session, a: Attempt)
    requires Sound(w) && SessionMoved(w.clientSession, s)
    ensures Sound(ClientSessionMoves(w, s, a)) && SameReceived(w, ClientSessionMoves(w, s, a))
    ensures ClientSessionMoves(w, s, a).serverSession == w.serverSession
  {
    ClientSessionMovesLinked(w, s, a);
    OutsClose(w.client, w.pipe.toA.received);
  }

  lemma ServerSessionActs(w: World, s: S.Session, a: Attempt)
    requires Sound(w) && SessionMoved(w.serverSession, s)
    ensures Sound(ServerSessionMoves(w, s, a))
  {
    ServerSessionMovesLinked(w, s, a);
    CloseQuieter(w.server);
    QuieterOk(w.server, V.Close(w.server), w.pipe.toB.received);
  }

  /** The duplex goes on by itself. */
  lemma PipeActs(w: World, p: D.Pipe<Frame>)
    requires Sound(w) && D.Good(p) && SamePauses(w.pipe, p) && p.closed == w.pipe.closed
    requires p.toA.sent == w.pipe.toA.sent && p.toB.sent == w.pipe.toB.sent
    requires p.toA.received == w.pipe.toA.received && p.toB.received == w.pipe.toB.received
    ensures Sound(w.(pipe := p))
  {
  }

  /** The duplex tells both sessions that it has closed. */
  lemma CloseToldSound(w: World)
    requires Sound(w) && w.pipe.flushing.None? && w.pipe.tasks != [] && w.pipe.tasks[0].CloseTask?
    ensures Sound(TellClose(w))
  {
    var p := D.RunClose(w.pipe);
    D.RunCloseKeeps(w.pipe);
    PipeActs(w, p);
    var w1 := w.(pipe := p);
    CloseMoves(w.clientSession);
    CloseMoves(w.serverSession);
    ClientSessionActs(w1, S.OnDuplexClose(w.clientSession), TooBig);
    var w2 := ClientSessionMoves(w1, S.OnDuplexClose(w.clientSession), TooBig);
    ServerSessionActs(w2, S.OnDuplexClose(w.serverSession), TooBig);
  }

  lemma BeginFlushSound(w: World)
    requires Sound(w) && w.pipe.flushing.None? && w.pipe.tasks != [] && w.pipe.tasks[0].FlushTask?
    ensures Sound(w.(pipe := D.BeginFlush(w.pipe, w.pipe.tasks[0].side)))
  {
    D.BeginKeeps(w.pipe);
    PipeActs(w, D.BeginFlush(w.pipe, w.pipe.tasks[0].side));
  }

  lemma EndFlushSound(w: World)
    requires Sound(w) && w.pipe.flushing.Some? && !D.CanDeliver(w.pipe, w.pipe.flushing.value)
    ensures Sound(w.(pipe := D.EndFlush(w.pipe, w.pipe.flushing.value)))
  {
    D.EndKeeps(w.pipe);
    PipeActs(w, D.EndFlush(w.pipe, w.pipe.flushing.value));
  }

  lemma FlushSound(w: World, e: Event, side: D.Side)
    requires Sound(w) && w.pipe.flushing == Some(side)
    ensures Sound(FlushStep(w, e, side))
  {
    if D.CanDeliver(w.pipe, side) {
      if e.Delivers? && side.A? {
        ToClientSound(w, e.attempt);
      } else if e.Delivers? {
        ToServerSound(w, e.attempt);
      }
    } else {
      EndFlushSound(w);
    }
  }

  lemma OpensSound(w: World, e: Event)
    requires Sound(w) && e.ClientOpens?
    ensures Sound(ClientStep(w, e))
  {
    if w.clientSession.phase.Ready? {
      var one, two := FateOf(e.first, w.pipe, D.B), FateOf(e.second, w.pipe, D.B);
      ClientActs(w, C.Opens(e.request, e.signal, e.aborted, one, two), e.first, e.second);
    }
  }

  lemma ClientProceedsSound(w: World, e: Event)
    requires Sound(w) && e.ClientProceeds?
    ensures Sound(ClientStep(w, e))
  {
    var one, two := FateOf(e.first, w.pipe, D.B), FateOf(e.second, w.pipe, D.B);
    ClientActs(w, C.Proceeds(e.call, e.clientEvent, one, two), e.first, e.second);
  }

  lemma ClientStepSound(w: World, e: Event)
    requires Sound(w)
    ensures Sound(ClientStep(w, e))
  {
    if e.ClientOpens? {
      OpensSound(w, e);
    } else if e.ClientProceeds? {
      ClientProceedsSound(w, e);
    } else if e.ClientCloses? {
      ClientActs(w, C.Closes, TooBig, TooBig);
    } else if e.ClientTimer? {
      TimeoutMoves(w.clientSession);
      ClientSessionActs(w, S.OnHelloTimeout(w.clientSession), TooBig);
    }
  }

  lemma ServerProceedsSound(w: World, e: Event)
    requires Sound(w) && e.ServerProceeds?
    ensures Sound(ServerStep(w, e))
  {
    var one, two := FateOf(e.first, w.pipe, D.A), FateOf(e.second, w.pipe, D.A);
    ServerActs(w, V.Proceeds(e.call, e.serverEvent, one, two), e.first, e.second);
  }

  lemma HelloSettlesSound(w: World, e: Event, s: S.Session, fate: S.Fate)
    requires Sound(w) && e.HelloSettles? && fate == FateOf(e.attempt, w.pipe, D.A)
    requires s == S.OnHelloSettled(w.serverSession, e.ok, fate, false) && SessionMoved(w.serverSession, s)
    ensures Sound(ServerStep(w, e))
  {
    assert ServerStep(w, e) == ServerSessionMoves(w, s, e.attempt);
    ServerSessionActs(w, s, e.attempt);
  }

  lemma ServerStepSound(w: World, e: Event)
    requires Sound(w)
    ensures Sound(ServerStep(w, e))
  {
    if e.ServerProceeds? {
      ServerProceedsSound(w, e);
    } else if e.ServerConsumes? {
      ServerActs(w, V.Consumes(e.call), TooBig, TooBig);
    } else if e.ServerCloses? {
      ServerActs(w, V.Closes, TooBig, TooBig);
    } else if e.ServerTimer? {
      TimeoutMoves(w.serverSession);
      ServerSessionActs(w, S.OnHelloTimeout(w.serverSession), TooBig);
    } else if e.HelloSettles? {
      var fate := FateOf(e.attempt, w.pipe, D.A);
      HelloSettledMoves(w.serverSession, e.ok, fate);
      HelloSettlesSound(w, e, S.OnHelloSettled(w.serverSession, e.ok, fate, false), fate);
    }
  }

  lemma StepSound(w: World, e: Event)
    requires Sound(w)
    ensures Sound(Step(w, e))
  {
    if w.pipe.flushing.Some? {
      FlushSound(w, e, w.pipe.flushing.value);
    } else if e.RunsTask? {
      if w.pipe.tasks != [] && w.pipe.tasks[0].FlushTask? {
        BeginFlushSound(w);
      } else if w.pipe.tasks != [] {
        CloseToldSound(w);
      }
    } else {
      ClientStepSound(w, e);
      ServerStepSound(w, e);
    }
  }

  lemma {:induction false} EveryRunIsSound(w: World, events: seq<Event>)
    requires Sound(w)
    ensures Sound(Run(w, events))
    decreases |events|
  {
    if events != [] {
      StepSound(w, events[0]);
      EveryRunIsSound(Step(w, events[0]), events[1..]);
    }
  }

  lemma NothingMirrored(closed: bool)
    ensures Mirrors([], [], closed)
  {
    forall id ensures For([], id) == [] {
      assert Texts([]) == [];
    }
  }

  lemma IdleWorldIsSound(setup: Setup)
    ensures Sound(IdleWorld(setup))
  {
    var w := IdleWorld(setup);
    C.FreshIsGood(setup.clientMark);
    V.FreshIsGood(setup.serverMark, setup.reports);
    NothingMirrored(false);
    assert PartsGood(w);
    assert Frames(w.server.log) == [];
    assert Linked(w);
    assert Heeded(w, [], []);
  }

  lemma BeginMoves(timer: bool, meta: Payload, fate: S.Fate)
    ensures SessionMoved(S.Idle(S.ClientRole, timer), S.Begin(S.ClientRole, timer, meta, fate, false))
  {
    var idle := S.Idle(S.ClientRole, timer);
    SendSpeaks(idle, Hello(meta), fate);
    var s1 := S.Send(idle, Hello(meta), fate, false).0;
    CloseHushed(S.FailReady(s1));
    EndingsHushed(s1);
  }

  lemma BeginIsSound(setup: Setup, hello: Attempt)
    ensures Sound(Begin(setup, hello))
  {
    var w := IdleWorld(setup);
    var fate := FateOf(hello, w.pipe, D.B);
    IdleWorldIsSound(setup);
    BeginMoves(setup.clientTimer, setup.meta, fate);
    ClientSessionActs(w, S.Begin(S.ClientRole, setup.clientTimer, setup.meta, fate, false), hello);
  }
}
