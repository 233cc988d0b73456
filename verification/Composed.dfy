/**
 * The parts inside the whole: over every run of a connection its two sessions keep
 * their lifecycle, its duplex makes only runs of its own, and what it holds is
 * bounded.
 */
module Composed {
  import opened Basics
  import opened FrameCodec
  import opened Wire
  import opened Connection
  import opened Integrity
  import opened Linkage
  import opened EndToEnd
  import S = Sessions
  import D = MemoryDuplexes
  import C = ClientMux
  import CC = ClientCalls
  import V = ServerMux
  import SC = ServerCalls

  // ---- What a session does about drain promises ----

  /** A move of a session that sends nothing and is promised nothing. */
  ghost predicate Quiet(s: S.Session, r: S.Session) {
    && Hushed(s, r) && r.nextDrain == s.nextDrain
    && (r.phase.Shut? || r.drains == s.drains)
  }

  /** A move that hands at most one hello frame to the duplex, and remembers the promise it got for it. */
  ghost predicate Uttered(s: S.Session, r: S.Session, fate: S.Fate) {
    || Quiet(s, r)
    || (&& fate.Sent?
        && (exists hello :: IsHello(hello) && Spoken(r.trace) == Spoken(s.trace) + [hello])
        && r.nextDrain == s.nextDrain + (if fate.above then 1 else 0)
        && (r.phase.Shut? || r.drains == s.drains + (if fate.above then {s.nextDrain} else {})))
  }

  lemma ThenQuiet(s: S.Session, q: S.Session, r: S.Session, fate: S.Fate)
    requires Uttered(s, q, fate) && Quiet(q, r) && (q.phase.Shut? ==> r.phase.Shut?) && r.role == s.role
    ensures Uttered(s, r, fate)
  {
  }

  lemma QuietThen(s: S.Session, q: S.Session, r: S.Session, fate: S.Fate)
    requires Quiet(s, q) && Uttered(q, r, fate) && (q.phase.Shut? ==> r.phase.Shut?) && r.role == s.role
    ensures Uttered(s, r, fate)
  {
  }

  lemma EndingsQuiet(s: S.Session)
    ensures Quiet(s, S.FailReady(s)) && Quiet(s, S.SucceedReady(s)) && Quiet(s, S.Close(s)) && Quiet(s, S.OnDuplexClose(s))
    ensures Quiet(s, S.Close(S.FailReady(s))) && S.Close(S.FailReady(s)).phase.Shut?
  {
    EndingsHushed(s);
    CloseHushed(s);
    CloseHushed(S.FailReady(s));
  }

  lemma SendUtters(s: S.Session, hello: Frame, fate: S.Fate)
    requires IsHello(hello) && !fate.Thrown?
    ensures Uttered(s, S.Send(s, hello, fate, false).0, fate)
    ensures S.Send(s, hello, fate, false).0.phase == s.phase && S.Send(s, hello, fate, false).0.role == s.role
  {
    SeeHushed(s, S.Transmitted(hello));
  }

  lemma FailHandshakeUtters(s: S.Session, error: WireError, fate: S.Fate)
    requires !fate.Thrown?
    ensures Uttered(s, S.FailHandshake(s, error, fate, false), fate)
  {
    if !s.phase.Shut? {
      var s1 := S.FailReady(s);
      var s2 := S.Send(s1, HelloError(error), fate, false).0;
      EndingsQuiet(s);
      SendUtters(s1, HelloError(error), fate);
      EndingsQuiet(s2);
      CloseHushed(s2);
      ThenQuiet(s1, s2, S.Close(s2), fate);
      QuietThen(s, s1, S.Close(s2), fate);
    }
  }

  lemma BecomesReadyQuiet(s: S.Session, accepting: bool)
    ensures Quiet(s, S.SucceedReady(S.See(s.(phase := S.Ready, timer := false, helloInFlight := accepting), S.BecameReady)))
  {
    BecomeReadyHushed(s, accepting);
  }

  lemma AcceptUtters(s: S.Session, ok: bool, fate: S.Fate)
    requires !fate.Thrown?
    ensures Uttered(s, S.OnHelloSettled(s, ok, fate, false), fate)
  {
    var s0 := s.(accept := None);
    if s.accept.Some? && !s.phase.Shut? && s.accept.value == s.generation {
      if !ok {
        FailHandshakeUtters(s0, WireError("INTERNAL", "Internal server error", None), fate);
        QuietThen(s, s0, S.OnHelloSettled(s, ok, fate, false), fate);
      } else {
        WelcomeUtters(s, s0, fate);
      }
    }
  }

  lemma WelcomeUtters(s: S.Session, s0: S.Session, fate: S.Fate)
    requires !fate.Thrown? && s0 == s.(accept := None)
    requires s.accept.Some? && !s.phase.Shut? && s.accept.value == s.generation
    ensures Uttered(s, S.OnHelloSettled(s, true, fate, false), fate)
  {
    var s1 := S.Send(s0, HelloOk, fate, false).0;
    SendUtters(s0, HelloOk, fate);
    QuietThen(s, s0, s1, fate);
    EndingsQuiet(s1);
    BecomesReadyQuiet(s1, false);
    CloseHushed(S.FailReady(s1));
    ThenQuiet(s, s1, S.OnHelloSettled(s, true, fate, false), fate);
  }

  lemma HandshakeUtters(s: S.Session, text: S.Text, fate: S.Fate)
    requires s.phase.WaitingHello? && !fate.Thrown?
    ensures Uttered(s, S.Handshake(s, text, fate, false), fate)
  {
    EndingsQuiet(s);
    if text.Parsed? && text.value.Obj? {
      if s.role.ClientRole? {
        BecomesReadyQuiet(s, s.helloInFlight);
      } else {
        FailHandshakeUtters(s, WireError("BAD_REQUEST", S.Complaint(text.value.fields), None), fate);
      }
    }
  }

  lemma ReadyQuiet(s: S.Session, text: S.Text)
    requires s.phase.Ready?
    ensures Quiet(s, S.ReadyMessage(s, text).0)
  {
    EndingsQuiet(s);
    if text.Parsed? && text.value.Obj? {
      var decoded := DecodeFrame(text.value);
      if decoded.Accepted? {
        SeeHushed(s, S.HandedUp(decoded.frame));
      } else if decoded.id.Some? {
        SeeHushed(s, S.HandedInvalid(decoded.id.value));
      }
    }
  }

  lemma InboundUtters(s: S.Session, text: S.Text, fate: S.Fate)
    requires !fate.Thrown?
    ensures Uttered(s, S.OnInbound(s, text, fate, false).0, fate)
  {
    EndingsQuiet(s);
    if s.phase.WaitingHello? {
      HandshakeUtters(s, text, fate);
    } else if s.phase.Ready? {
      ReadyQuiet(s, text);
    }
  }

  // ---- The sessions and the duplex ----

  /** A session was given every promise the duplex issued to it, and remembers the pending ones until it is closed. */
  ghost predicate InStep(s: S.Session, inbox: D.Inbox<Frame>) {
    && s.nextDrain == inbox.issued
    && (!s.phase.Shut? ==> forall d: nat :: |inbox.settled| <= d < inbox.issued ==> d in s.drains)
  }

  ghost predicate SessionOk(s: S.Session, inbox: D.Inbox<Frame>) {
    S.Good(s) && InStep(s, inbox)
  }

  ghost predicate SessionsOk(w: World) {
    SessionOk(w.clientSession, w.pipe.toB) && SessionOk(w.serverSession, w.pipe.toA)
  }

  /** No promise more at this end, and some may have been settled. */
  predicate NoMorePromises<T>(a: D.Inbox<T>, b: D.Inbox<T>) {
    b.issued == a.issued && a.settled <= b.settled
  }

  lemma StaysInStep(s: S.Session, a: D.Inbox<Frame>, b: D.Inbox<Frame>)
    requires SessionOk(s, a) && NoMorePromises(a, b)
    ensures SessionOk(s, b)
  {
  }

  lemma QuietInStep(s: S.Session, r: S.Session, inbox: D.Inbox<Frame>)
    requires SessionOk(s, inbox) && Quiet(s, r) && S.Good(r) && (s.phase.Shut? ==> r.phase.Shut?)
    ensures SessionOk(r, inbox)
  {
  }

  /** One text more at an end, with a promise or without. */
  lemma SentInbox(p: D.Pipe<Frame>, side: D.Side, letter: D.Letter<Frame>)
    ensures var a, b := D.At(p, side), D.At(D.SendTo(p, side, letter), side);
            && b.settled == a.settled
            && b.issued == a.issued + (if IsPromised(p, side, letter.size) then 1 else 0)
            && D.At(D.SendTo(p, side, letter), D.Other(side)) == D.At(p, D.Other(side))
  {
    if !p.closed {
      D.SendToIs(p, side, letter);
    }
  }

  lemma SaysOk(s: S.Session, p: D.Pipe<Frame>, side: D.Side, letter: D.Letter<Frame>)
    requires SessionOk(s, D.At(p, side)) && !letter.text.HelloOk? && !s.phase.Shut?
    ensures SessionOk(Says(s, p, side, letter), D.At(D.SendTo(p, side, letter), side))
    ensures !Says(s, p, side, letter).phase.Shut?
  {
    SentInbox(p, side, letter);
    S.SendKeeps(s, letter.text, S.Sent(IsPromised(p, side, letter.size)));
  }

  lemma SayingOk(s: S.Session, p: D.Pipe<Frame>, side: D.Side, frames: seq<Frame>, first: Attempt, second: Attempt)
    requires SessionOk(s, D.At(p, side)) && (frames != [] ==> !s.phase.Shut?) && |frames| <= 2
    requires forall i :: 0 <= i < |frames| ==> !frames[i].HelloOk?
    ensures SessionOk(Saying(s, p, side, frames, first, second), D.At(SendAll(p, side, frames, first, second), side))
    ensures D.At(SendAll(p, side, frames, first, second), D.Other(side)) == D.At(p, D.Other(side))
  {
    if |frames| == 1 {
      var one := D.Letter(frames[0], SizeOf(if first.Fits? then first else second));
      SentInbox(p, side, one);
      SaysOk(s, p, side, one);
    } else if |frames| == 2 {
      var one, two := D.Letter(frames[0], SizeOf(first)), D.Letter(frames[1], SizeOf(second));
      SentInbox(p, side, one);
      SaysOk(s, p, side, one);
      SentInbox(D.SendTo(p, side, one), side, two);
      SaysOk(Says(s, p, side, one), D.SendTo(p, side, one), side, two);
    }
  }

  /** A session's own frame, on its way to the duplex. */
  lemma UtteredOk(s: S.Session, r: S.Session, p: D.Pipe<Frame>, side: D.Side, a: Attempt)
    requires SessionOk(s, D.At(p, side)) && S.Good(r) && Uttered(s, r, FateOf(a, p, side)) && (s.phase.Shut? ==> r.phase.Shut?)
    ensures var q := SendAll(p, side, Suffix(Spoken(r.trace), Spoken(s.trace)), a, a);
            SessionOk(r, D.At(q, side)) && D.At(q, D.Other(side)) == D.At(p, D.Other(side))
  {
    if Quiet(s, r) {
      assert Suffix(Spoken(r.trace), Spoken(s.trace)) == [];
      QuietInStep(s, r, D.At(p, side));
    } else {
      var hello :| IsHello(hello) && Spoken(r.trace) == Spoken(s.trace) + [hello];
      assert Suffix(Spoken(r.trace), Spoken(s.trace)) == [hello];
      SentInbox(p, side, D.Letter(hello, a.size));
    }
  }

  // ---- What the two ends say ----

  /** What a call frame is not: the owner of a session leaves the handshake to it. */
  predicate Spare(frames: seq<Frame>) {
    forall i :: 0 <= i < |frames| ==> !frames[i].HelloOk?
  }

  lemma ClosedClientIsMute(l: C.Link, e: C.Event)
    requires C.Good(l) && !l.open
    ensures C.Step(l, e).log == l.log
  {
    if e.Proceeds? && e.call < |l.calls| {
      var c := l.calls[e.call];
      C.CallStepOk(c, C.FramesFor(l.log, c.id), e.event, CC.Net(false, e.first, e.second));
      assert l.log + [] == l.log;
    }
  }

  /** What a step of the client gives its session to send. */
  lemma ClientFrames(l: C.Link, e: C.Event)
    requires C.Good(l)
    ensures var frames := Suffix(C.Step(l, e).log, l.log);
            |frames| <= 2 && Spare(frames) && (frames != [] ==> l.open)
  {
    var r := C.Step(l, e);
    C.StepKeeps(l, e);
    C.StepGrows(l, e);
    if !l.open {
      ClosedClientIsMute(l, e);
    }
    LoggedIsSpare(r);
    SuffixIsSpare(r.log, l.log);
  }

  lemma SuffixIsSpare(after: seq<Frame>, before: seq<Frame>)
    requires Spare(after)
    ensures Spare(Suffix(after, before))
  {
  }

  lemma LoggedIsSpare(l: C.Link)
    requires C.Numbered(l)
    ensures Spare(l.log)
  {
    forall i | 0 <= i < |l.log| ensures !l.log[i].HelloOk? {
      assert C.Known(l.calls, l.log[i]);
    }
  }

  lemma {:induction false} LoggedBy(log: seq<V.Outgoing>, i: nat)
    requires i < |log| && log[i].from.ByCall?
    ensures log[i].frame in V.FramesBy(log, log[i].from.call)
  {
    var n := |log| - 1;
    assert log == log[..n] + [log[n]];
    V.FramesBySnoc(log[..n], log[n], log[i].from.call);
    if i < n {
      LoggedBy(log[..n], i);
    }
  }

  lemma ClosedServerIsMute(m: V.Mux, e: V.Event)
    requires V.Good(m) && !m.open
    ensures V.Step(m, e).log == m.log
  {
    if e.Proceeds? && e.call < |m.calls| {
      V.CallStepOk(m.calls[e.call], V.FramesBy(m.log, e.call), e.event, SC.Net(false, e.first, e.second, m.reports));
      assert m.log + [] == m.log;
    }
  }

  lemma ServerFrames(m: V.Mux, e: V.Event)
    requires V.Good(m)
    ensures var frames := Frames(Suffix(V.Step(m, e).log, m.log));
            |frames| <= 2 && Spare(frames) && (frames != [] ==> m.open)
  {
    var r := V.Step(m, e);
    V.StepKeeps(m, e);
    V.StepGrows(m, e);
    if !m.open {
      ClosedServerIsMute(m, e);
    }
    forall i | 0 <= i < |r.log| ensures !r.log[i].frame.HelloOk? {
      if r.log[i].from.ByCall? {
        LoggedBy(r.log, i);
        assert SC.CallOk(r.calls[r.log[i].from.call], V.FramesBy(r.log, r.log[i].from.call));
      }
    }
  }

  // ---- Every step keeps both sessions in step ----

  /** A close and the read gate's doing leave the promises alone. */
  lemma SettledAlone(p: D.Pipe<Frame>, side: D.Side, closing: bool, before: bool, after: bool)
    ensures var q := Sync(if closing then D.CloseBoth(p) else p, side, before, after);
            NoMorePromises(p.toA, q.toA) && NoMorePromises(p.toB, q.toB)
  {
  }

  lemma ClosingOk(s: S.Session, inbox: D.Inbox<Frame>, closing: bool)
    requires SessionOk(s, inbox)
    ensures SessionOk(if closing then S.Close(s) else s, inbox)
  {
    S.CloseKeeps(s);
    EndingsQuiet(s);
  }

  lemma ClientMovesOk(w: World, l: C.Link, first: Attempt, second: Attempt)
    requires SessionsOk(w)
    requires var frames := Suffix(l.log, w.client.log);
             |frames| <= 2 && Spare(frames) && (frames != [] ==> !w.clientSession.phase.Shut?)
    ensures SessionsOk(ClientMoves(w, l, first, second))
  {
    var frames, closing := Suffix(l.log, w.client.log), w.client.open && !l.open;
    var p := SendAll(w.pipe, D.B, frames, first, second);
    var r := ClientMoves(w, l, first, second);
    SayingOk(w.clientSession, w.pipe, D.B, frames, first, second);
    SettledAlone(p, D.A, closing, w.client.gate.paused, l.gate.paused);
    ClosingOk(Saying(w.clientSession, w.pipe, D.B, frames, first, second), p.toB, closing);
    StaysInStep(r.clientSession, p.toB, r.pipe.toB);
    StaysInStep(r.serverSession, w.pipe.toA, r.pipe.toA);
  }

  lemma ServerMovesOk(w: World, m: V.Mux, first: Attempt, second: Attempt)
    requires SessionsOk(w)
    requires var frames := Frames(Suffix(m.log, w.server.log));
             |frames| <= 2 && Spare(frames) && (frames != [] ==> !w.serverSession.phase.Shut?)
    ensures SessionsOk(ServerMoves(w, m, first, second))
  {
    var frames, closing := Frames(Suffix(m.log, w.server.log)), w.server.open && !m.open;
    var p := SendAll(w.pipe, D.A, frames, first, second);
    var r := ServerMoves(w, m, first, second);
    SayingOk(w.serverSession, w.pipe, D.A, frames, first, second);
    SettledAlone(p, D.B, closing, w.server.gate.paused, m.gate.paused);
    ClosingOk(Saying(w.serverSession, w.pipe, D.A, frames, first, second), p.toA, closing);
    StaysInStep(r.serverSession, p.toA, r.pipe.toA);
    StaysInStep(r.clientSession, w.pipe.toB, r.pipe.toB);
  }

  /** A session that moves on its own; its close takes its owner along. */
  lemma ClientSessionOk(w: World, s: S.Session, a: Attempt)
    requires SessionsOk(w) && S.Good(s) && Uttered(w.clientSession, s, FateOf(a, w.pipe, D.B))
    requires w.clientSession.phase.Shut? ==> s.phase.Shut?
    ensures SessionsOk(ClientSessionMoves(w, s, a))
  {
    var p := SendAll(w.pipe, D.B, Suffix(Spoken(s.trace), Spoken(w.clientSession.trace)), a, a);
    UtteredOk(w.clientSession, s, w.pipe, D.B, a);
    var w1 := w.(clientSession := s, pipe := p);
    if s.phase.Shut? {
      assert Suffix(C.Close(w.client).log, w.client.log) == [];
      ClientMovesOk(w1, C.Close(w.client), a, a);
    }
  }

  lemma ServerSessionOk(w: World, s: S.Session, a: Attempt)
    requires SessionsOk(w) && S.Good(s) && Uttered(w.serverSession, s, FateOf(a, w.pipe, D.A))
    requires w.serverSession.phase.Shut? ==> s.phase.Shut?
    ensures SessionsOk(ServerSessionMoves(w, s, a))
  {
    var p := SendAll(w.pipe, D.A, Suffix(Spoken(s.trace), Spoken(w.serverSession.trace)), a, a);
    UtteredOk(w.serverSession, s, w.pipe, D.A, a);
    var w1 := w.(serverSession := s, pipe := p);
    if s.phase.Shut? {
      assert Frames(Suffix(V.Close(w.server).log, w.server.log)) == [];
      ServerMovesOk(w1, V.Close(w.server), a, a);
    }
  }

  lemma ClientStepsOk(w: World, e: C.Event, first: Attempt, second: Attempt)
    requires SessionsOk(w) && C.Good(w.client) && (w.client.open ==> !w.clientSession.phase.Shut?)
    ensures SessionsOk(ClientMoves(w, C.Step(w.client, e), first, second))
  {
    ClientFrames(w.client, e);
    ClientMovesOk(w, C.Step(w.client, e), first, second);
  }

  lemma ServerStepsOk(w: World, e: V.Event, first: Attempt, second: Attempt)
    requires SessionsOk(w) && V.Good(w.server) && (w.server.open ==> !w.serverSession.phase.Shut?)
    ensures SessionsOk(ServerMoves(w, V.Step(w.server, e), first, second))
  {
    ServerFrames(w.server, e);
    ServerMovesOk(w, V.Step(w.server, e), first, second);
  }

  lemma TimerOk(s: S.Session, fate: S.Fate)
    requires S.Good(s)
    ensures S.Good(S.OnHelloTimeout(s)) && Uttered(s, S.OnHelloTimeout(s), fate)
    ensures s.phase.Shut? ==> S.OnHelloTimeout(s).phase.Shut?
  {
    S.FailKeeps(s);
    EndingsQuiet(s);
  }

  /** A settled promise reaches its session. */
  lemma DrainTold(s: S.Session, inbox: D.Inbox<Frame>, mark: Option<nat>, idle: bool, notified: bool, drain: nat)
    requires SessionOk(s, inbox) && D.Promises(inbox, mark, idle, notified) && drain in inbox.settled
    ensures SessionOk(S.OnDrain(s, drain, true), inbox)
  {
    var r := S.OnDrain(s, drain, true);
    assert drain < |inbox.settled|;
    assert r.settledDrains + r.drains == s.settledDrains + s.drains;
  }

  lemma ToClientOk(w: World, a: Attempt)
    requires SessionsOk(w) && Sound(w) && w.pipe.flushing == Some(D.A) && D.CanDeliver(w.pipe, D.A)
    ensures SessionsOk(DeliverToClient(w, a))
  {
    var letter := w.pipe.toA.queue[0];
    var w1 := w.(pipe := D.DeliverOne(w.pipe, D.A));
    StaysInStep(w.serverSession, w.pipe.toA, w1.pipe.toA);
    var text, fate := S.Parsed(EncodeFrame(letter.text)), FateOf(a, w1.pipe, D.B);
    var (s, delivery) := S.OnInbound(w.clientSession, text, fate, false);
    S.InboundKeeps(w.clientSession, text, fate);
    InboundUtters(w.clientSession, text, fate);
    InboundMoves(w.clientSession, text, fate);
    ClientSessionOk(w1, s, a);
    if delivery.Deliver? {
      ClientStepsOk(ClientSessionMoves(w1, s, a), C.Arrives(delivery.frame, letter.size), a, a);
    }
  }

  lemma ToServerOk(w: World, a: Attempt)
    requires SessionsOk(w) && Sound(w) && w.pipe.flushing == Some(D.B) && D.CanDeliver(w.pipe, D.B)
    ensures SessionsOk(DeliverToServer(w, a))
  {
    var letter := w.pipe.toB.queue[0];
    var w1 := w.(pipe := D.DeliverOne(w.pipe, D.B));
    StaysInStep(w.clientSession, w.pipe.toB, w1.pipe.toB);
    var text, fate := S.Parsed(EncodeFrame(letter.text)), FateOf(a, w1.pipe, D.A);
    var (s, delivery) := S.OnInbound(w.serverSession, text, fate, false);
    S.InboundKeeps(w.serverSession, text, fate);
    InboundUtters(w.serverSession, text, fate);
    InboundMoves(w.serverSession, text, fate);
    ServerSessionOk(w1, s, a);
    if !delivery.Nothing? {
      var e := if delivery.Deliver? then V.Arrives(delivery.frame, letter.size, fate) else V.ArrivesInvalid(delivery.id, fate);
      ServerStepsOk(ServerSessionMoves(w1, s, a), e, a, a);
    }
  }

  lemma CloseToldOk(w: World)
    requires SessionsOk(w) && w.pipe.tasks != []
    ensures SessionsOk(TellClose(w))
  {
    var w1 := w.(pipe := D.RunClose(w.pipe));
    StaysInStep(w.clientSession, w.pipe.toB, w1.pipe.toB);
    StaysInStep(w.serverSession, w.pipe.toA, w1.pipe.toA);
    S.CloseKeeps(w.clientSession);
    S.CloseKeeps(w.serverSession);
    EndingsQuiet(w.clientSession);
    EndingsQuiet(w.serverSession);
    ClientSessionOk(w1, S.OnDuplexClose(w.clientSession), TooBig);
    ServerSessionOk(ClientSessionMoves(w1, S.OnDuplexClose(w.clientSession), TooBig), S.OnDuplexClose(w.serverSession), TooBig);
  }

  lemma ClientStepOk(w: World, e: Event)
    requires SessionsOk(w) && Sound(w)
    ensures SessionsOk(ClientStep(w, e))
  {
    match e
    case ClientOpens(request, signal, aborted, first, second) =>
      var one, two := FateOf(first, w.pipe, D.B), FateOf(second, w.pipe, D.B);
      ClientStepsOk(w, C.Opens(request, signal, aborted, one, two), first, second);
    case ClientProceeds(k, event, first, second) =>
      ClientStepsOk(w, C.Proceeds(k, event, FateOf(first, w.pipe, D.B), FateOf(second, w.pipe, D.B)), first, second);
    case ClientCloses => ClientStepsOk(w, C.Closes, TooBig, TooBig);
    case ClientTimer =>
      TimerOk(w.clientSession, FateOf(TooBig, w.pipe, D.B));
      ClientSessionOk(w, S.OnHelloTimeout(w.clientSession), TooBig);
    case ClientDrains(drain) =>
      if drain in w.pipe.toB.settled {
        DrainTold(w.clientSession, w.pipe.toB, w.pipe.mark, D.Idle(w.pipe, D.B), w.pipe.notified, drain);
      }
    case _ =>
  }

  lemma AcceptOk(w: World, ok: bool, a: Attempt)
    requires SessionsOk(w)
    ensures SessionsOk(ServerSessionMoves(w, S.OnHelloSettled(w.serverSession, ok, FateOf(a, w.pipe, D.A), false), a))
  {
    var fate := FateOf(a, w.pipe, D.A);
    S.AcceptKeeps(w.serverSession, ok, fate);
    AcceptUtters(w.serverSession, ok, fate);
    HelloSettledMoves(w.serverSession, ok, fate);
    ServerSessionOk(w, S.OnHelloSettled(w.serverSession, ok, fate, false), a);
  }

  lemma ServerStepOk(w: World, e: Event)
    requires SessionsOk(w) && Sound(w)
    ensures SessionsOk(ServerStep(w, e))
  {
    match e
    case ServerProceeds(k, event, first, second) =>
      ServerStepsOk(w, V.Proceeds(k, event, FateOf(first, w.pipe, D.A), FateOf(second, w.pipe, D.A)), first, second);
    case ServerConsumes(k) => ServerStepsOk(w, V.Consumes(k), TooBig, TooBig);
    case ServerCloses => ServerStepsOk(w, V.Closes, TooBig, TooBig);
    case ServerTimer =>
      TimerOk(w.serverSession, FateOf(TooBig, w.pipe, D.A));
      ServerSessionOk(w, S.OnHelloTimeout(w.serverSession), TooBig);
    case HelloSettles(ok, a) =>
      AcceptOk(w, ok, a);
    case ServerDrains(drain) =>
      if drain in w.pipe.toA.settled {
        DrainTold(w.serverSession, w.pipe.toA, w.pipe.mark, D.Idle(w.pipe, D.A), w.pipe.notified, drain);
      }
    case _ =>
  }

  lemma EndFlushOk(w: World, side: D.Side)
    requires SessionsOk(w)
    ensures SessionsOk(w.(pipe := D.EndFlush(w.pipe, side)))
  {
    var q := D.EndFlush(w.pipe, side);
    StaysInStep(w.clientSession, w.pipe.toB, q.toB);
    StaysInStep(w.serverSession, w.pipe.toA, q.toA);
  }

  lemma FlushOk(w: World, e: Event, side: D.Side)
    requires SessionsOk(w) && Sound(w) && w.pipe.flushing == Some(side)
    ensures SessionsOk(FlushStep(w, e, side))
  {
    if !D.CanDeliver(w.pipe, side) {
      EndFlushOk(w, side);
    } else if e.Delivers? && side.A? {
      ToClientOk(w, e.attempt);
    } else if e.Delivers? {
      ToServerOk(w, e.attempt);
    }
  }

  lemma TaskOk(w: World)
    requires SessionsOk(w) && w.pipe.tasks != []
    ensures SessionsOk(TellClose(w))
    ensures w.pipe.tasks[0].FlushTask? ==> SessionsOk(w.(pipe := D.BeginFlush(w.pipe, w.pipe.tasks[0].side)))
  {
    CloseToldOk(w);
    if w.pipe.tasks[0].FlushTask? {
      var q := D.BeginFlush(w.pipe, w.pipe.tasks[0].side);
      StaysInStep(w.clientSession, w.pipe.toB, q.toB);
      StaysInStep(w.serverSession, w.pipe.toA, q.toA);
    }
  }

  lemma StepOk(w: World, e: Event)
    requires SessionsOk(w) && Sound(w)
    ensures SessionsOk(Step(w, e))
  {
    if w.pipe.flushing.Some? {
      FlushOk(w, e, w.pipe.flushing.value);
    } else if e.RunsTask? {
      if w.pipe.tasks != [] {
        TaskOk(w);
      }
    } else if AtClient(e) {
      ClientStepOk(w, e);
    } else {
      ServerStepOk(w, e);
    }
  }

  lemma {:induction false} EveryRunIsOk(w: World, events: seq<Event>)
    requires SessionsOk(w) && Sound(w)
    ensures SessionsOk(Run(w, events)) && Sound(Run(w, events))
    decreases |events|
  {
    if events != [] {
      StepOk(w, events[0]);
      StepSound(w, events[0]);
      EveryRunIsOk(Step(w, events[0]), events[1..]);
    }
  }

  lemma BeginIsOk(setup: Setup, hello: Attempt)
    ensures SessionsOk(Begin(setup, hello)) && Sound(Begin(setup, hello))
  {
    var w := IdleWorld(setup);
    var fate := FateOf(hello, w.pipe, D.B);
    var s := S.Begin(S.ClientRole, setup.clientTimer, setup.meta, fate, false);
    var s1 := S.Send(w.clientSession, Hello(setup.meta), fate, false).0;
    assert S.Good(w.clientSession) && S.Good(w.serverSession);
    S.BeginIsGood(S.ClientRole, setup.clientTimer, setup.meta, fate);
    SendUtters(w.clientSession, Hello(setup.meta), fate);
    EndingsQuiet(s1);
    CloseHushed(S.FailReady(s1));
    EndingsHushed(s1);
    if s != s1 {
      ThenQuiet(w.clientSession, s1, s, fate);
    }
    ClientSessionOk(w, s, hello);
    BeginIsSound(setup, hello);
  }

  /**
   * Over every run of a connection both of its sessions are lawful, with all that
   * their owners have sent, and know of every drain promise of the duplex that is
   * pending, until they are closed.
   */
  lemma SessionsAreLawful(setup: Setup, hello: Attempt, events: seq<Event>)
    ensures var w := Run(Begin(setup, hello), events);
            && SessionsOk(w)
            && S.Lawful(S.Listed(w.clientSession.trace)) && S.Lawful(S.Listed(w.serverSession.trace))
  {
    BeginIsOk(setup, hello);
    EveryRunIsOk(Begin(setup, hello), events);
    var w := Run(Begin(setup, hello), events);
    S.UnbrokenIsLawful(w.clientSession.trace);
    S.UnbrokenIsLawful(w.serverSession.trace);
  }

  // ---- The duplex ----

  predicate AllShort(events: seq<D.Event<Frame>>, longest: nat) {
    forall e :: e in events ==> D.Short(e, longest)
  }

  /** The duplex got from one state to the other by events of its own, with texts of at most `longest`. */
  ghost predicate ByRun(p: D.Pipe<Frame>, q: D.Pipe<Frame>, longest: nat) {
    exists events :: AllShort(events, longest) && q == D.Run(p, events)
  }

  lemma Stays(p: D.Pipe<Frame>, longest: nat)
    ensures ByRun(p, p, longest)
  {
    assert AllShort([], longest) && p == D.Run(p, []);
  }

  lemma OneStep(p: D.Pipe<Frame>, e: D.Event<Frame>, longest: nat)
    requires D.Short(e, longest)
    ensures ByRun(p, D.Step(p, e), longest)
  {
    assert [e][1..] == [];
    assert AllShort([e], longest) && D.Step(p, e) == D.Run(p, [e]);
  }

  lemma Then(p: D.Pipe<Frame>, q: D.Pipe<Frame>, r: D.Pipe<Frame>, longest: nat)
    requires ByRun(p, q, longest) && ByRun(q, r, longest)
    ensures ByRun(p, r, longest)
  {
    var a :| AllShort(a, longest) && q == D.Run(p, a);
    var b :| AllShort(b, longest) && r == D.Run(q, b);
    D.RunSplit(p, a, b);
    assert AllShort(a + b, longest);
  }

  lemma SendByRun(p: D.Pipe<Frame>, side: D.Side, letter: D.Letter<Frame>, longest: nat)
    requires letter.size <= longest
    ensures ByRun(p, D.SendTo(p, side, letter), longest)
  {
    OneStep(p, D.Sends(side, letter), longest);
  }

  lemma SendAllByRun(p: D.Pipe<Frame>, side: D.Side, frames: seq<Frame>, first: Attempt, second: Attempt, longest: nat)
    requires FitsIn(first, longest) && FitsIn(second, longest)
    ensures ByRun(p, SendAll(p, side, frames, first, second), longest)
  {
    Stays(p, longest);
    if |frames| == 1 {
      SendByRun(p, side, D.Letter(frames[0], SizeOf(if first.Fits? then first else second)), longest);
    } else if |frames| > 1 {
      var one, two := D.Letter(frames[0], SizeOf(first)), D.Letter(frames[1], SizeOf(second));
      SendByRun(p, side, one, longest);
      SendByRun(D.SendTo(p, side, one), side, two, longest);
      Then(p, D.SendTo(p, side, one), D.SendTo(D.SendTo(p, side, one), side, two), longest);
    }
  }

  /** A close and the read gate's doing. */
  lemma SettleByRun(p: D.Pipe<Frame>, side: D.Side, closing: bool, before: bool, after: bool, longest: nat)
    ensures ByRun(p, Sync(if closing then D.CloseBoth(p) else p, side, before, after), longest)
  {
    var q := if closing then D.CloseBoth(p) else p;
    Stays(p, longest);
    Stays(q, longest);
    OneStep(p, D.ClosesBoth, longest);
    OneStep(q, D.PausesEnd(side), longest);
    OneStep(q, D.ResumesEnd(side), longest);
    Then(p, q, Sync(q, side, before, after), longest);
  }

  lemma MovesByRun(w: World, l: C.Link, m: V.Mux, first: Attempt, second: Attempt, longest: nat)
    requires FitsIn(first, longest) && FitsIn(second, longest)
    ensures ByRun(w.pipe, ClientMoves(w, l, first, second).pipe, longest)
    ensures ByRun(w.pipe, ServerMoves(w, m, first, second).pipe, longest)
  {
    var toB, toA := Suffix(l.log, w.client.log), Frames(Suffix(m.log, w.server.log));
    var p, q := SendAll(w.pipe, D.B, toB, first, second), SendAll(w.pipe, D.A, toA, first, second);
    SendAllByRun(w.pipe, D.B, toB, first, second, longest);
    SendAllByRun(w.pipe, D.A, toA, first, second, longest);
    SettleByRun(p, D.A, w.client.open && !l.open, w.client.gate.paused, l.gate.paused, longest);
    SettleByRun(q, D.B, w.server.open && !m.open, w.server.gate.paused, m.gate.paused, longest);
    Then(w.pipe, p, ClientMoves(w, l, first, second).pipe, longest);
    Then(w.pipe, q, ServerMoves(w, m, first, second).pipe, longest);
  }

  lemma SessionMovesByRun(w: World, s: S.Session, a: Attempt, longest: nat)
    requires FitsIn(a, longest)
    ensures ByRun(w.pipe, ClientSessionMoves(w, s, a).pipe, longest)
    ensures ByRun(w.pipe, ServerSessionMoves(w, s, a).pipe, longest)
  {
    var toB := Suffix(Spoken(s.trace), Spoken(w.clientSession.trace));
    var toA := Suffix(Spoken(s.trace), Spoken(w.serverSession.trace));
    var w1 := w.(clientSession := s, pipe := SendAll(w.pipe, D.B, toB, a, a));
    var w2 := w.(serverSession := s, pipe := SendAll(w.pipe, D.A, toA, a, a));
    SendAllByRun(w.pipe, D.B, toB, a, a, longest);
    SendAllByRun(w.pipe, D.A, toA, a, a, longest);
    MovesByRun(w1, C.Close(w.client), w.server, a, a, longest);
    MovesByRun(w2, w.client, V.Close(w.server), a, a, longest);
    Then(w.pipe, w1.pipe, ClientMoves(w1, C.Close(w.client), a, a).pipe, longest);
    Then(w.pipe, w2.pipe, ServerMoves(w2, V.Close(w.server), a, a).pipe, longest);
  }

  lemma ToClientByRun(w: World, a: Attempt, longest: nat)
    requires w.pipe.flushing == Some(D.A) && D.CanDeliver(w.pipe, D.A) && FitsIn(a, longest)
    ensures ByRun(w.pipe, DeliverToClient(w, a).pipe, longest)
  {
    var letter := w.pipe.toA.queue[0];
    var w1 := w.(pipe := D.DeliverOne(w.pipe, D.A));
    OneStep(w.pipe, D.Delivers, longest);
    var (s, delivery) := S.OnInbound(w.clientSession, S.Parsed(EncodeFrame(letter.text)), FateOf(a, w1.pipe, D.B), false);
    var w2 := ClientSessionMoves(w1, s, a);
    SessionMovesByRun(w1, s, a, longest);
    Then(w.pipe, w1.pipe, w2.pipe, longest);
    if delivery.Deliver? {
      var l := C.Step(w2.client, C.Arrives(delivery.frame, letter.size));
      MovesByRun(w2, l, w2.server, a, a, longest);
      Then(w.pipe, w2.pipe, ClientMoves(w2, l, a, a).pipe, longest);
    }
  }

  lemma ToServerByRun(w: World, a: Attempt, longest: nat)
    requires w.pipe.flushing == Some(D.B) && D.CanDeliver(w.pipe, D.B) && FitsIn(a, longest)
    ensures ByRun(w.pipe, DeliverToServer(w, a).pipe, longest)
  {
    var letter := w.pipe.toB.queue[0];
    var w1 := w.(pipe := D.DeliverOne(w.pipe, D.B));
    OneStep(w.pipe, D.Delivers, longest);
    var fate := FateOf(a, w1.pipe, D.A);
    var (s, delivery) := S.OnInbound(w.serverSession, S.Parsed(EncodeFrame(letter.text)), fate, false);
    var w2 := ServerSessionMoves(w1, s, a);
    SessionMovesByRun(w1, s, a, longest);
    Then(w.pipe, w1.pipe, w2.pipe, longest);
    if !delivery.Nothing? {
      var e := if delivery.Deliver? then V.Arrives(delivery.frame, letter.size, fate) else V.ArrivesInvalid(delivery.id, fate);
      MovesByRun(w2, w2.client, V.Step(w2.server, e), a, a, longest);
      Then(w.pipe, w2.pipe, ServerMoves(w2, V.Step(w2.server, e), a, a).pipe, longest);
    }
  }

  lemma FlushByRun(w: World, e: Event, side: D.Side, longest: nat)
    requires w.pipe.flushing == Some(side) && Brief(e, longest)
    ensures ByRun(w.pipe, FlushStep(w, e, side).pipe, longest)
  {
    Stays(w.pipe, longest);
    OneStep(w.pipe, D.EndsFlush, longest);
    if D.CanDeliver(w.pipe, side) && e.Delivers? {
      if side.A? {
        ToClientByRun(w, e.attempt, longest);
      } else {
        ToServerByRun(w, e.attempt, longest);
      }
    }
  }

  lemma RunCloseByRun(p: D.Pipe<Frame>, longest: nat)
    requires p.flushing.None? && p.tasks != [] && p.tasks[0].CloseTask?
    ensures ByRun(p, D.RunClose(p), longest)
  {
    OneStep(p, D.RunsTask, longest);
  }

  lemma CloseToldByRun(w: World, longest: nat)
    requires w.pipe.flushing.None? && w.pipe.tasks != [] && w.pipe.tasks[0].CloseTask?
    ensures ByRun(w.pipe, TellClose(w).pipe, longest)
  {
    RunCloseByRun(w.pipe, longest);
    BothToldByRun(w.(pipe := D.RunClose(w.pipe)), S.OnDuplexClose(w.clientSession), S.OnDuplexClose(w.serverSession), longest);
    Then(w.pipe, D.RunClose(w.pipe), TellClose(w).pipe, longest);
  }

  lemma BothToldByRun(w: World, c: S.Session, s: S.Session, longest: nat)
    ensures ByRun(w.pipe, ServerSessionMoves(ClientSessionMoves(w, c, TooBig), s, TooBig).pipe, longest)
  {
    var w1 := ClientSessionMoves(w, c, TooBig);
    SessionMovesByRun(w, c, TooBig, longest);
    SessionMovesByRun(w1, s, TooBig, longest);
    Then(w.pipe, w1.pipe, ServerSessionMoves(w1, s, TooBig).pipe, longest);
  }

  lemma ClientStepByRun(w: World, e: Event, longest: nat)
    requires Brief(e, longest)
    ensures ByRun(w.pipe, ClientStep(w, e).pipe, longest)
  {
    Stays(w.pipe, longest);
    match e
    case ClientOpens(request, signal, aborted, first, second) =>
      var opens := C.Opens(request, signal, aborted, FateOf(first, w.pipe, D.B), FateOf(second, w.pipe, D.B));
      MovesByRun(w, C.Step(w.client, opens), w.server, first, second, longest);
    case ClientProceeds(k, event, first, second) =>
      var proceeds := C.Proceeds(k, event, FateOf(first, w.pipe, D.B), FateOf(second, w.pipe, D.B));
      MovesByRun(w, C.Step(w.client, proceeds), w.server, first, second, longest);
    case ClientCloses => MovesByRun(w, C.Step(w.client, C.Closes), w.server, TooBig, TooBig, longest);
    case ClientTimer => SessionMovesByRun(w, S.OnHelloTimeout(w.clientSession), TooBig, longest);
    case _ =>
  }

  lemma ServerStepByRun(w: World, e: Event, longest: nat)
    requires Brief(e, longest)
    ensures ByRun(w.pipe, ServerStep(w, e).pipe, longest)
  {
    Stays(w.pipe, longest);
    match e
    case ServerProceeds(k, event, first, second) =>
      var proceeds := V.Proceeds(k, event, FateOf(first, w.pipe, D.A), FateOf(second, w.pipe, D.A));
      MovesByRun(w, w.client, V.Step(w.server, proceeds), first, second, longest);
    case ServerConsumes(k) => MovesByRun(w, w.client, V.Step(w.server, V.Consumes(k)), TooBig, TooBig, longest);
    case ServerCloses => MovesByRun(w, w.client, V.Step(w.server, V.Closes), TooBig, TooBig, longest);
    case ServerTimer => SessionMovesByRun(w, S.OnHelloTimeout(w.serverSession), TooBig, longest);
    case HelloSettles(ok, a) =>
      SessionMovesByRun(w, S.OnHelloSettled(w.serverSession, ok, FateOf(a, w.pipe, D.A), false), a, longest);
    case _ =>
  }

  lemma StepByRun(w: World, e: Event, longest: nat)
    requires Brief(e, longest)
    ensures ByRun(w.pipe, Step(w, e).pipe, longest)
  {
    if w.pipe.flushing.Some? {
      FlushByRun(w, e, w.pipe.flushing.value, longest);
    } else if e.RunsTask? {
      Stays(w.pipe, longest);
      OneStep(w.pipe, D.RunsTask, longest);
      if w.pipe.tasks != [] && w.pipe.tasks[0].CloseTask? {
        CloseToldByRun(w, longest);
      }
    } else if AtClient(e) {
      ClientStepByRun(w, e, longest);
    } else {
      ServerStepByRun(w, e, longest);
    }
  }

  lemma {:induction false} EveryRunByRun(w: World, events: seq<Event>, longest: nat)
    requires forall e | e in events :: Brief(e, longest)
    ensures ByRun(w.pipe, Run(w, events).pipe, longest)
    decreases |events|
  {
    if events == [] {
      Stays(w.pipe, longest);
    } else {
      StepByRun(w, events[0], longest);
      EveryRunByRun(Step(w, events[0]), events[1..], longest);
      Then(w.pipe, Step(w, events[0]).pipe, Run(w, events).pipe, longest);
    }
  }

  lemma OwnRunIsBounded(mark: Option<nat>, p: D.Pipe<Frame>, longest: nat)
    requires ByRun(D.Fresh(mark), p, longest)
    ensures D.Good(p) && (!p.notified ==> D.Bounded(p, longest))
  {
    var own :| AllShort(own, longest) && p == D.Run(D.Fresh(mark), own);
    D.EveryRunIsGood(D.Fresh(mark), own);
    if !p.notified {
      D.EveryRunIsBounded(D.Fresh(mark), own, longest);
    }
  }

  /**
   * Whatever a connection does to its duplex is a run of the duplex alone, so each
   * end holds at most the mark and one longest text per pending drain promise,
   * until a close is told.
   */
  lemma PipeIsBounded(setup: Setup, hello: Attempt, events: seq<Event>, longest: nat)
    requires FitsIn(hello, longest) && forall e | e in events :: Brief(e, longest)
    ensures var p := Run(Begin(setup, hello), events).pipe;
            && ByRun(D.Fresh(setup.duplexMark), p, longest)
            && D.Good(p)
            && (!p.notified ==> D.Bounded(p, longest))
  {
    var w := IdleWorld(setup);
    var w0 := Begin(setup, hello);
    SessionMovesByRun(w, S.Begin(S.ClientRole, setup.clientTimer, setup.meta, FateOf(hello, w.pipe, D.B), false), hello, longest);
    EveryRunByRun(w0, events, longest);
    Then(w.pipe, w0.pipe, Run(w0, events).pipe, longest);
    OwnRunIsBounded(setup.duplexMark, Run(w0, events).pipe, longest);
  }
}
