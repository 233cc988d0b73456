/** The session object: the fields that the handshake, the sends and the close paths update. */
module MessageSessions {
  import opened Basics
  import opened FrameCodec
  import S = Sessions

  class MessageSession {
    const role: S.Role
    var phase: S.Phase
    var ready: S.Promise
    var helloInFlight: bool
    var helloGeneration: nat
    var suspended: Option<nat>
    var closeNotified: bool
    var timerArmed: bool
    var pendingDrains: set<nat>
    var nextDrain: nat
    ghost var settledDrains: set<nat>
    ghost var trace: S.Trace

    ghost function State(): S.Session
      reads this
    {
      S.Session(role, phase, ready, helloInFlight, helloGeneration, suspended, closeNotified, timerArmed,
                pendingDrains, settledDrains, nextDrain, trace)
    }

    constructor (role: S.Role, timer: bool, meta: Payload, fate: S.Fate, reentrant: bool)
      ensures State() == S.Begin(role, timer, meta, fate, reentrant)
    {
      this.role := role;
      phase, ready, helloInFlight, helloGeneration := S.WaitingHello, S.Pending, false, 0;
      suspended, closeNotified, timerArmed := None, false, timer;
      pendingDrains, nextDrain := {}, 0;
      settledDrains, trace := {}, S.Trace.Start;
      new;
      if role.ClientRole? {
        var sent := Send(Hello(meta), fate, reentrant);
        if !sent.SentOk? {
          FailReady();
          Close();
        }
      }
    }

    ghost method See(seen: S.Seen)
      modifies this`trace
      ensures trace == S.Then(old(trace), seen)
    {
      trace := S.Then(trace, seen);
    }

    method Send(frame: Frame, fate: S.Fate, reentrant: bool) returns (outcome: S.SendOutcome)
      modifies this
      ensures (State(), outcome) == S.Send(old(State()), frame, fate, reentrant)
    {
      if phase.Shut? {
        return S.NotSent(S.ClosedSession);
      }
      if fate.Unserializable? {
        return S.NotSent(S.UnencodableFrame);
      }
      if fate.TooLarge? {
        return S.NotSent(S.OversizeFrame);
      }
      if fate.Thrown? {
        if reentrant {
          OnDuplexClose();
        }
        Close();
        return S.NotSent(S.ClosedSession);
      }
      See(S.Transmitted(frame));
      if reentrant {
        OnDuplexClose();
      }
      UntilDrainedOrClosed(fate.above);
      outcome := S.SentOk(fate.above);
    }

    method UntilDrainedOrClosed(above: bool)
      modifies this
      ensures State() == S.UntilDrainedOrClosed(old(State()), above)
    {
      if above {
        pendingDrains := pendingDrains + {nextDrain};
        nextDrain := nextDrain + 1;
      }
    }

    method Close()
      modifies this
      ensures State() == S.Close(old(State()))
    {
      if phase.Shut? {
        return;
      }
      EnterClosed();
      FailReady();
      See(S.ClosedDuplex);
      NotifyOnClose();
    }

    method EnterClosed()
      modifies this
      ensures State() == S.EnterClosed(old(State()))
    {
      phase := S.Shut;
      helloGeneration := helloGeneration + 1;
      timerArmed := false;
      See(S.BecameClosed);
      label settling:
      while pendingDrains != {}
        invariant unchanged@settling(`phase, `ready, `helloInFlight, `helloGeneration, `suspended, `closeNotified,
                                     `timerArmed, `nextDrain, `trace)
        invariant pendingDrains <= old@settling(pendingDrains)
        invariant settledDrains + pendingDrains == old@settling(settledDrains + pendingDrains)
        decreases pendingDrains
      {
        var drain :| drain in pendingDrains;
        pendingDrains := pendingDrains - {drain};
        settledDrains := settledDrains + {drain};
      }
    }

    method FailReady()
      modifies this
      ensures State() == S.FailReady(old(State()))
    {
      if ready.Pending? {
        ready := S.Failed;
        See(S.ReadyRejected);
      }
    }

    method SucceedReady()
      modifies this
      ensures State() == S.SucceedReady(old(State()))
    {
      if ready.Pending? {
        ready := S.Resolved;
        See(S.ReadyResolved);
      }
    }

    method NotifyOnClose()
      modifies this
      ensures State() == S.NotifyOnClose(old(State()))
    {
      if !closeNotified {
        closeNotified := true;
        See(S.NotifiedClose);
      }
    }

    method OnDuplexClose()
      modifies this
      ensures State() == S.OnDuplexClose(old(State()))
    {
      if !phase.Shut? {
        EnterClosed();
        FailReady();
      }
      NotifyOnClose();
    }

    method OnHelloTimeout()
      modifies this
      ensures State() == S.OnHelloTimeout(old(State()))
    {
      if timerArmed && phase.WaitingHello? {
        FailReady();
        Close();
      }
    }

    method OnInbound(text: S.Text, fate: S.Fate, reentrant: bool) returns (delivery: S.Delivery)
      modifies this
      ensures (State(), delivery) == S.OnInbound(old(State()), text, fate, reentrant)
    {
      delivery := S.Nothing;
      if phase.Shut? {
        return;
      }
      if text.Oversize? {
        FailReady();
        Close();
        return;
      }
      if phase.WaitingHello? {
        Handshake(text, fate, reentrant);
        return;
      }
      delivery := ReadyMessage(text);
    }

    method Handshake(text: S.Text, fate: S.Fate, reentrant: bool)
      modifies this
      ensures State() == S.Handshake(old(State()), text, fate, reentrant)
    {
      if !text.Parsed? || !text.value.Obj? {
        if role.ClientRole? {
          FailReady();
        }
        Close();
        return;
      }
      var decoded := DecodeFrame(text.value);
      if role.ClientRole? {
        ClientHandshake(decoded);
      } else if decoded.Accepted? && decoded.frame.Hello? && !helloInFlight {
        helloInFlight := true;
        suspended := Some(helloGeneration);
      } else {
        FailHandshake(WireError("BAD_REQUEST", S.Complaint(text.value.fields), None), fate, reentrant);
      }
    }

    method ClientHandshake(decoded: DecodeResult)
      modifies this
      ensures State() == S.ClientHandshake(old(State()), decoded)
    {
      if decoded.Accepted? && decoded.frame.HelloOk? {
        timerArmed := false;
        phase := S.Ready;
        See(S.BecameReady);
        SucceedReady();
        return;
      }
      FailReady();
      Close();
    }

    method FailHandshake(error: WireError, fate: S.Fate, reentrant: bool)
      modifies this
      ensures State() == S.FailHandshake(old(State()), error, fate, reentrant)
    {
      if phase.Shut? {
        return;
      }
      FailReady();
      var _ := Send(HelloError(error), fate, reentrant);
      Close();
    }

    /** The accept goes on after `onHello`. */
    method OnHelloSettled(ok: bool, fate: S.Fate, reentrant: bool)
      modifies this
      ensures State() == S.OnHelloSettled(old(State()), ok, fate, reentrant)
    {
      if suspended.None? {
        return;
      }
      var generation := suspended.value;
      suspended := None;
      if phase.Shut? || generation != helloGeneration {
        return;
      }
      if !ok {
        FailHandshake(WireError("INTERNAL", "Internal server error", None), fate, reentrant);
        return;
      }
      var sent := Send(HelloOk, fate, reentrant);
      if !sent.SentOk? {
        FailReady();
        Close();
        return;
      }
      timerArmed := false;
      phase := S.Ready;
      helloInFlight := false;
      See(S.BecameReady);
      SucceedReady();
    }

    method ReadyMessage(text: S.Text) returns (delivery: S.Delivery)
      modifies this
      ensures (State(), delivery) == S.ReadyMessage(old(State()), text)
    {
      delivery := S.Nothing;
      if !text.Parsed? || !text.value.Obj? {
        Close();
        return;
      }
      var decoded := DecodeFrame(text.value);
      match decoded {
        case Accepted(frame) =>
          See(S.HandedUp(frame));
          delivery := S.Deliver(frame);
        case Rejected(id, _) =>
          if id.None? {
            Close();
          } else {
            See(S.HandedInvalid(id.value));
            delivery := S.Invalid(id.value);
          }
      }
    }

    method OnDrain(drain: nat, ok: bool)
      modifies this
      ensures State() == S.OnDrain(old(State()), drain, ok)
    {
      if !ok {
        Close();
      }
      if drain in pendingDrains {
        pendingDrains := pendingDrains - {drain};
        settledDrains := settledDrains + {drain};
      }
    }
  }
}
