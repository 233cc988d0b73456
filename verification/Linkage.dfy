/**
 * How one connection hangs together: what its moves put on the wire, what its
 * sessions say, and what keeps both ends, both sessions and the duplex in step.
 */
module Linkage {
  import opened Basics
  import opened FrameCodec
  import opened Wire
  import opened Connection
  import opened Ends
  import S = Sessions
  import D = MemoryDuplexes
  import C = ClientMux
  import CC = ClientCalls
  import V = ServerMux
  import SC = ServerCalls

  // ---- What a move does to the duplex ----

  /** These texts were sent to one end (unless the duplex was closed); nothing was delivered. */
  ghost predicate Carries(p: D.Pipe<Frame>, r: D.Pipe<Frame>, side: D.Side, frames: seq<Frame>) {
    && D.Good(r)
    && Texts(D.At(r, side).sent) == Texts(D.At(p, side).sent) + (if p.closed then [] else frames)
    && D.At(r, D.Other(side)).sent == D.At(p, D.Other(side)).sent
    && r.toA.received == p.toA.received && r.toB.received == p.toB.received
    && (p.closed ==> r.closed)
    && r.flushing == p.flushing
  }

  /** Neither end was paused or resumed. */
  predicate SamePauses(p: D.Pipe<Frame>, r: D.Pipe<Frame>) {
    r.toA.paused == p.toA.paused && r.toB.paused == p.toB.paused
  }

  lemma TextsSnoc(letters: seq<D.Letter<Frame>>, last: D.Letter<Frame>)
    ensures Texts(letters + [last]) == Texts(letters) + [last.text]
  {
  }

  lemma SendCarries(p: D.Pipe<Frame>, side: D.Side, letter: D.Letter<Frame>)
    requires D.Good(p)
    ensures Carries(p, D.SendTo(p, side, letter), side, [letter.text])
    ensures SamePauses(p, D.SendTo(p, side, letter)) && D.SendTo(p, side, letter).closed == p.closed
  {
    var r := D.SendTo(p, side, letter);
    D.SendKeeps(p, side, letter);
    if p.closed {
      CarriesNothing(p, side);
    } else {
      D.SendToIs(p, side, letter);
      TextsSnoc(D.At(p, side).sent, letter);
    }
  }

  lemma CarriesNothing(p: D.Pipe<Frame>, side: D.Side)
    requires D.Good(p)
    ensures Carries(p, p, side, [])
  {
    assert Texts(D.At(p, side).sent) + [] == Texts(D.At(p, side).sent);
  }

  lemma CarriesMore(p: D.Pipe<Frame>, q: D.Pipe<Frame>, r: D.Pipe<Frame>, side: D.Side, a: seq<Frame>, b: seq<Frame>)
    requires Carries(p, q, side, a) && Carries(q, r, side, b) && q.closed == p.closed
    ensures Carries(p, r, side, a + b)
  {
    assert Texts(D.At(p, side).sent) + a + b == Texts(D.At(p, side).sent) + (a + b);
    assert Texts(D.At(p, side).sent) + [] == Texts(D.At(p, side).sent);
  }

  lemma TwoCarry(p: D.Pipe<Frame>, side: D.Side, one: D.Letter<Frame>, two: D.Letter<Frame>)
    requires D.Good(p)
    ensures var r := D.SendTo(D.SendTo(p, side, one), side, two);
            Carries(p, r, side, [one.text] + [two.text]) && SamePauses(p, r) && r.closed == p.closed
  {
    var q := D.SendTo(p, side, one);
    SendCarries(p, side, one);
    SendCarries(q, side, two);
    CarriesMore(p, q, D.SendTo(q, side, two), side, [one.text], [two.text]);
  }

  lemma OneCarries(p: D.Pipe<Frame>, side: D.Side, frame: Frame, attempt: Attempt)
    requires D.Good(p)
    ensures var r := D.SendTo(p, side, D.Letter(frame, SizeOf(attempt)));
            Carries(p, r, side, [frame]) && SamePauses(p, r) && r.closed == p.closed
  {
    SendCarries(p, side, D.Letter(frame, SizeOf(attempt)));
  }

  lemma SendOneCarries(p: D.Pipe<Frame>, side: D.Side, frames: seq<Frame>, first: Attempt, second: Attempt)
    requires D.Good(p) && |frames| == 1
    ensures var r := SendAll(p, side, frames, first, second); Carries(p, r, side, frames) && SamePauses(p, r) && r.closed == p.closed
  {
    OneCarries(p, side, frames[0], if first.Fits? then first else second);
    assert frames == [frames[0]];
  }

  lemma SendTwoCarries(p: D.Pipe<Frame>, side: D.Side, frames: seq<Frame>, first: Attempt, second: Attempt)
    requires D.Good(p) && |frames| == 2
    ensures var r := SendAll(p, side, frames, first, second); Carries(p, r, side, frames) && SamePauses(p, r) && r.closed == p.closed
  {
    TwoCarry(p, side, D.Letter(frames[0], SizeOf(first)), D.Letter(frames[1], SizeOf(second)));
    assert frames == [frames[0]] + [frames[1]];
  }

  lemma SendAllCarries(p: D.Pipe<Frame>, side: D.Side, frames: seq<Frame>, first: Attempt, second: Attempt)
    requires D.Good(p) && |frames| <= 2
    ensures Carries(p, SendAll(p, side, frames, first, second), side, frames)
    ensures SamePauses(p, SendAll(p, side, frames, first, second))
    ensures SendAll(p, side, frames, first, second).closed == p.closed
  {
    if frames == [] {
      CarriesNothing(p, side);
    } else if |frames| == 1 {
      SendOneCarries(p, side, frames, first, second);
    } else {
      SendTwoCarries(p, side, frames, first, second);
    }
  }

  /** A session that sends its owner's frames stays where it is. */
  lemma SaysStays(s: S.Session, p: D.Pipe<Frame>, side: D.Side, letter: D.Letter<Frame>)
    ensures Says(s, p, side, letter).phase == s.phase && Says(s, p, side, letter).role == s.role
  {
  }

  lemma SayingStays(s: S.Session, p: D.Pipe<Frame>, side: D.Side, frames: seq<Frame>, first: Attempt, second: Attempt)
    ensures var r := Saying(s, p, side, frames, first, second); r.phase == s.phase && r.role == s.role
  {
    if |frames| == 1 {
      SaysStays(s, p, side, D.Letter(frames[0], SizeOf(if first.Fits? then first else second)));
    } else if |frames| > 1 {
      var one, two := D.Letter(frames[0], SizeOf(first)), D.Letter(frames[1], SizeOf(second));
      SaysStays(s, p, side, one);
      SaysStays(Says(s, p, side, one), D.SendTo(p, side, one), side, two);
    }
  }

  /** Sending, closing if need be, and following the gate: one move of the end `own`. */
  function Moved(p: D.Pipe<Frame>, own: D.Side, frames: seq<Frame>, first: Attempt, second: Attempt,
                 closing: bool, before: bool, after: bool): D.Pipe<Frame> {
    var p1 := SendAll(p, D.Other(own), frames, first, second);
    Sync(if closing then D.CloseBoth(p1) else p1, own, before, after)
  }

  lemma CloseCarries(p: D.Pipe<Frame>, side: D.Side)
    requires D.Good(p)
    ensures D.Good(D.CloseBoth(p)) && SamePauses(p, D.CloseBoth(p)) && D.CloseBoth(p).closed
    ensures D.At(D.CloseBoth(p), side) == D.At(p, side) && D.CloseBoth(p).flushing == p.flushing
  {
    D.CloseKeeps(p);
  }

  lemma SyncCarries(p: D.Pipe<Frame>, own: D.Side, before: bool, after: bool)
    requires D.Good(p) && D.At(p, own).paused == before
    ensures var r := Sync(p, own, before, after);
            && D.Good(r) && r.closed == p.closed && r.flushing == p.flushing
            && D.At(r, own).paused == after && D.At(r, D.Other(own)) == D.At(p, D.Other(own))
            && D.At(r, own).sent == D.At(p, own).sent && D.At(r, own).received == D.At(p, own).received
  {
    D.PauseKeeps(p, own);
    D.ResumeKeeps(p, own);
  }

  lemma SentAndClosedCarries(p: D.Pipe<Frame>, side: D.Side, frames: seq<Frame>, first: Attempt, second: Attempt,
                             closing: bool)
    requires D.Good(p) && |frames| <= 2
    ensures var p1 := SendAll(p, side, frames, first, second);
            var p2 := if closing then D.CloseBoth(p1) else p1;
            Carries(p, p2, side, frames) && SamePauses(p, p2)
  {
    var p1 := SendAll(p, side, frames, first, second);
    SendAllCarries(p, side, frames, first, second);
    CloseCarries(p1, side);
    CloseCarries(p1, D.Other(side));
  }

  lemma MovedCarries(p: D.Pipe<Frame>, own: D.Side, frames: seq<Frame>, first: Attempt, second: Attempt,
                     closing: bool, before: bool, after: bool)
    requires D.Good(p) && |frames| <= 2 && D.At(p, own).paused == before
    ensures var r := Moved(p, own, frames, first, second, closing, before, after);
            && Carries(p, r, D.Other(own), frames)
            && D.At(r, own).paused == after && D.At(r, D.Other(own)).paused == D.At(p, D.Other(own)).paused
  {
    SentAndClosedCarries(p, D.Other(own), frames, first, second, closing);
    var p1 := SendAll(p, D.Other(own), frames, first, second);
    SyncCarries(if closing then D.CloseBoth(p1) else p1, own, before, after);
  }

  // ---- What the wire carries of a log ----

  /** For every id the wire carries what was logged for it, all of it until the duplex is closed. */
  ghost predicate Mirrors(letters: seq<D.Letter<Frame>>, log: seq<Frame>, closed: bool) {
    forall id :: For(letters, id) <= Of(log, id) && (!closed ==> For(letters, id) == Of(log, id))
  }

  lemma MirrorsMore(letters: seq<D.Letter<Frame>>, letters': seq<D.Letter<Frame>>, log: seq<Frame>, frames: seq<Frame>,
                    closed: bool, closed': bool)
    requires Mirrors(letters, log, closed) && (closed ==> closed')
    requires Texts(letters') == Texts(letters) + (if closed then [] else frames)
    ensures Mirrors(letters', log + frames, closed')
  {
    forall id ensures For(letters', id) <= Of(log + frames, id) && (!closed' ==> For(letters', id) == Of(log + frames, id)) {
      assert For(letters, id) <= Of(log, id);
      OfSplit(log, frames, id);
      OfSplit(Texts(letters), if closed then [] else frames, id);
    }
  }

  lemma {:induction false} HellosBearNothing(frames: seq<Frame>, id: string)
    requires forall i :: 0 <= i < |frames| ==> IsHello(frames[i])
    ensures Of(frames, id) == []
  {
    if frames != [] {
      HellosBearNothing(frames[..|frames| - 1], id);
    }
  }

  lemma MirrorsHellos(letters: seq<D.Letter<Frame>>, letters': seq<D.Letter<Frame>>, log: seq<Frame>, hellos: seq<Frame>,
                      closed: bool, closed': bool)
    requires Mirrors(letters, log, closed) && (closed ==> closed')
    requires Texts(letters') == Texts(letters) + (if closed then [] else hellos)
    requires forall i :: 0 <= i < |hellos| ==> IsHello(hellos[i])
    ensures Mirrors(letters', log, closed')
  {
    forall id ensures For(letters', id) <= Of(log, id) && (!closed' ==> For(letters', id) == Of(log, id)) {
      assert For(letters, id) <= Of(log, id);
      var extra := if closed then [] else hellos;
      OfSplit(Texts(letters), extra, id);
      HellosBearNothing(extra, id);
    }
  }

  // ---- What a session says ----

  /** A move of a session on its own: it says at most one hello frame, and never goes back. */
  ghost predicate SessionMoved(s: S.Session, r: S.Session) {
    && r.role == s.role
    && (s.phase.Shut? ==> r.phase.Shut?)
    && (r.phase.WaitingHello? ==> s.phase.WaitingHello?)
    && Spoke(s, r)
  }

  /** At most one frame, of the handshake. */
  ghost predicate Spoke(s: S.Session, r: S.Session) {
    || Spoken(r.trace) == Spoken(s.trace)
    || (exists hello :: IsHello(hello) && Spoken(r.trace) == Spoken(s.trace) + [hello])
  }

  /** The session said nothing. */
  predicate Hushed(s: S.Session, r: S.Session) {
    Spoken(r.trace) == Spoken(s.trace) && r.role == s.role
  }

  lemma SeeHushed(s: S.Session, seen: S.Seen)
    ensures !seen.Transmitted? ==> Hushed(s, S.See(s, seen))
    ensures seen.Transmitted? ==> Spoken(S.See(s, seen).trace) == Spoken(s.trace) + [seen.frame]
  {
  }

  lemma EndingsHushed(s: S.Session)
    ensures Hushed(s, S.FailReady(s)) && Hushed(s, S.SucceedReady(s)) && Hushed(s, S.EnterClosed(s))
    ensures Hushed(s, S.NotifyOnClose(s))
    ensures S.FailReady(s).phase == S.SucceedReady(s).phase == s.phase
  {
  }

  lemma CloseHushed(s: S.Session)
    ensures Hushed(s, S.Close(s)) && Hushed(s, S.OnDuplexClose(s))
    ensures S.Close(s).phase.Shut? && S.OnDuplexClose(s).phase.Shut?
  {
    EndingsHushed(s);
    var s1 := S.EnterClosed(s);
    EndingsHushed(s1);
    var s2 := S.FailReady(s1);
    SeeHushed(s2, S.ClosedDuplex);
    EndingsHushed(s2);
    EndingsHushed(S.See(s2, S.ClosedDuplex));
  }

  lemma CloseMoves(s: S.Session)
    ensures SessionMoved(s, S.Close(s)) && SessionMoved(s, S.OnDuplexClose(s)) && SessionMoved(s, S.Close(S.FailReady(s)))
    ensures S.Close(S.FailReady(s)).phase.Shut?
  {
    CloseHushed(s);
    EndingsHushed(s);
    CloseHushed(S.FailReady(s));
  }

  lemma TimeoutMoves(s: S.Session)
    ensures SessionMoved(s, S.OnHelloTimeout(s))
  {
    CloseMoves(s);
  }

  /** A hello frame sent by the session itself. */
  lemma SendSpeaks(s: S.Session, hello: Frame, fate: S.Fate)
    requires IsHello(hello)
    ensures var r := S.Send(s, hello, fate, false).0;
            r.role == s.role && (fate.Thrown? || r.phase == s.phase)
            && (Spoken(r.trace) == Spoken(s.trace) || Spoken(r.trace) == Spoken(s.trace) + [hello])
  {
    CloseHushed(s);
    SeeHushed(s, S.Transmitted(hello));
  }

  lemma FailHandshakeMoves(s: S.Session, error: WireError, fate: S.Fate)
    ensures SessionMoved(s, S.FailHandshake(s, error, fate, false)) && S.FailHandshake(s, error, fate, false).phase.Shut?
  {
    EndingsHushed(s);
    SendSpeaks(S.FailReady(s), HelloError(error), fate);
    CloseHushed(S.Send(S.FailReady(s), HelloError(error), fate, false).0);
  }

  lemma BecomeReadyHushed(s: S.Session, accepting: bool)
    ensures Hushed(s, S.SucceedReady(S.See(s.(phase := S.Ready, timer := false, helloInFlight := accepting), S.BecameReady)))
  {
    var s1 := s.(phase := S.Ready, timer := false, helloInFlight := accepting);
    SeeHushed(s1, S.BecameReady);
    EndingsHushed(S.See(s1, S.BecameReady));
  }

  lemma HelloSettledMoves(s: S.Session, ok: bool, fate: S.Fate)
    ensures SessionMoved(s, S.OnHelloSettled(s, ok, fate, false))
  {
    var s0 := s.(accept := None);
    if s.accept.Some? && !s.phase.Shut? && s.accept.value == s.generation {
      if !ok {
        FailHandshakeMoves(s0, WireError("INTERNAL", "Internal server error", None), fate);
      } else {
        var s1 := S.Send(s0, HelloOk, fate, false).0;
        SendSpeaks(s0, HelloOk, fate);
        EndingsHushed(s1);
        CloseHushed(S.FailReady(s1));
        BecomeReadyHushed(s1, false);
      }
    }
  }

  lemma ClientHandshakeMoves(s: S.Session, decoded: DecodeResult)
    requires s.phase.WaitingHello?
    ensures SessionMoved(s, S.ClientHandshake(s, decoded))
  {
    CloseMoves(s);
    BecomeReadyHushed(s, s.helloInFlight);
  }

  lemma HandshakeMoves(s: S.Session, text: S.Text, fate: S.Fate)
    requires s.phase.WaitingHello?
    ensures SessionMoved(s, S.Handshake(s, text, fate, false))
  {
    CloseMoves(s);
    if text.Parsed? && text.value.Obj? {
      if s.role.ClientRole? {
        ClientHandshakeMoves(s, DecodeFrame(text.value));
      } else {
        FailHandshakeMoves(s, WireError("BAD_REQUEST", S.Complaint(text.value.fields), None), fate);
      }
    }
  }

  lemma ReadyMessageMoves(s: S.Session, text: S.Text)
    requires s.phase.Ready?
    ensures SessionMoved(s, S.ReadyMessage(s, text).0)
    ensures S.ReadyMessage(s, text).1 != S.Nothing ==> S.ReadyMessage(s, text).0.phase.Ready?
  {
    if !text.Parsed? || !text.value.Obj? {
      CloseMoves(s);
    } else {
      DecodedMoves(s, text, DecodeFrame(text.value));
    }
  }

  lemma DecodedMoves(s: S.Session, text: S.Text, decoded: DecodeResult)
    requires s.phase.Ready? && text.Parsed? && text.value.Obj? && decoded == DecodeFrame(text.value)
    ensures var (r, d) := S.ReadyMessage(s, text); SessionMoved(s, r) && (d != S.Nothing ==> r.phase.Ready?)
  {
    if decoded.Accepted? {
      SeeHushed(s, S.HandedUp(decoded.frame));
    } else if decoded.id.Some? {
      SeeHushed(s, S.HandedInvalid(decoded.id.value));
    } else {
      CloseMoves(s);
    }
  }

  lemma InboundMoves(s: S.Session, text: S.Text, fate: S.Fate)
    ensures SessionMoved(s, S.OnInbound(s, text, fate, false).0)
    ensures S.OnInbound(s, text, fate, false).1 != S.Nothing ==> s.phase.Ready? && S.OnInbound(s, text, fate, false).0.phase.Ready?
  {
    CloseMoves(s);
    if s.phase.WaitingHello? {
      HandshakeMoves(s, text, fate);
    } else if s.phase.Ready? {
      ReadyMessageMoves(s, text);
    }
  }
}
