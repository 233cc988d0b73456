/** One id on the server as an object: the fields its steps update, its input queue and the connection's read gate. */
module ServerCallObjects {
  import opened Basics
  import opened FrameCodec
  import opened Reads
  import S = Sessions
  import Q = PushQueues
  import SC = ServerCalls

  /** What a step asks of its connection. */
  datatype Output = Output(sent: seq<Frame>, settle: bool, close: bool)

  const SILENT := Output([], false, false)

  class ServerCall {
    const id: string
    const path: seq<string>
    const argument: Payload
    const inputQueue: Option<Q.PushQueue<Payload>>
    const gate: ReadGate
    ghost const serial: nat
    var phase: SC.Phase
    var cancelled: bool
    var aborted: bool
    var iterating: bool
    ghost var streamed: bool
    ghost var produced: seq<Payload>
    ghost var exhausted: bool
    ghost var returned: nat
    ghost var ending: Option<SC.Ending>
    ghost var lost: Option<S.Fate>

    ghost function Queues(): set<Q.PushQueue<Payload>> {
      if inputQueue.Some? then {inputQueue.value} else {}
    }

    /** The input queue pauses and resumes the connection's reads. */
    ghost predicate Gated() {
      inputQueue.Some? ==> inputQueue.value.gate == gate
    }

    ghost function State(): SC.CallState
      reads this, Queues()
    {
      SC.CallState(id, path, argument, phase, cancelled, aborted, iterating,
                   if inputQueue.Some? then Some(inputQueue.value.State()) else None,
                   streamed, produced, exhausted, returned, ending, lost)
    }

    constructor (call: Frame, mark: Option<nat>, gate: ReadGate, ghost serial: nat)
      requires call.Call?
      ensures Gated() && this.gate == gate && this.serial == serial && State() == SC.Fresh(call, mark)
      ensures forall o | o in Queues() :: fresh(o)
    {
      id, path, this.gate, this.serial := call.id, call.path, gate, serial;
      argument := if call.stream || call.input == Some(Null) then None else call.input;
      ending, lost := None, None;
      phase, cancelled, aborted, iterating := SC.Dispatching, false, false, false;
      streamed, produced, exhausted, returned := false, [], false, 0;
      if call.stream {
        var queue := new Q.PushQueue(mark, gate);
        inputQueue := Some(queue);
      } else {
        inputQueue := None;
      }
    }

    method EndInput()
      requires Gated()
      modifies Queues(), gate
      ensures State() == SC.EndInput(old(State()))
      ensures gate.State() == Follow(old(gate.State()), SC.Paused(old(State())), SC.Paused(State()))
    {
      if inputQueue.Some? {
        inputQueue.value.Finish(Q.Ended);
      }
    }

    method PushInput(frame: Frame, size: nat)
      requires Gated() && (frame.InItem? || frame.InDone?)
      modifies Queues(), gate
      ensures State() == SC.PushInput(old(State()), frame, size)
      ensures gate.State() == Follow(old(gate.State()), SC.Paused(old(State())), SC.Paused(State()))
    {
      if inputQueue.None? {
        return;
      }
      if frame.InDone? {
        inputQueue.value.Finish(Q.Ended);
        return;
      }
      inputQueue.value.Push(frame.input, size);
    }

    /** The handler asks for its next input. */
    method PullInput()
      requires Gated()
      modifies Queues(), gate
      ensures State() == SC.PullInput(old(State()))
      ensures gate.State() == Follow(old(gate.State()), SC.Paused(old(State())), SC.Paused(State()))
    {
      if inputQueue.Some? {
        var _ := inputQueue.value.Next();
      }
    }

    method CloseIterator()
      modifies this`iterating, this`returned
      ensures State() == SC.CloseIterator(old(State()))
    {
      if iterating {
        iterating := false;
        returned := returned + 1;
      }
    }

    method Cancel()
      requires Gated()
      modifies this, Queues(), gate
      ensures State() == SC.CancelCall(old(State()))
      ensures gate.State() == Follow(old(gate.State()), SC.Paused(old(State())), SC.Paused(State()))
    {
      cancelled, aborted := true, true;
      EndInput();
      if phase == SC.Draining(None) {
        phase := SC.Draining(Some(Cancelled));
      }
      CloseIterator();
    }

    /** The host's `sendResultErr`. */
    method SendResultErr(error: WireError, open: bool, fate: S.Fate) returns (a: SC.Attempt)
      ensures a == SC.SendResultErr(id, error, open, fate)
    {
      if open && fate.Sent? {
        return SC.Attempt([ResultErr(id, error)], true, false, None, None);
      }
      return SC.Attempt([], false, open, None, None);
    }

    /** The one send site. */
    method SendOutbound(frame: Frame, net: SC.Net) returns (a: SC.Attempt)
      ensures a == SC.SendOutbound(State(), frame, net)
    {
      if cancelled || !net.open {
        return SC.Attempt([], false, false, None, None);
      }
      if net.first.Sent? {
        return SC.Attempt([frame], SC.Terminal(frame), false, Some(net.first.above), None);
      }
      if net.first.Thrown? {
        return SC.Attempt([], false, true, None, Some(net.first));
      }
      a := SendResultErr(if net.first.TooLarge? then SC.FRAME_TOO_LARGE else SC.INTERNAL, net.open, net.second);
      a := a.(lost := Some(net.first));
    }

    method EmitLast(frame: Frame, net: SC.Net) returns (out: Output)
      modifies this`phase, this`lost
      ensures SC.Effect(State(), out.sent, out.settle, out.close) == SC.EmitLast(old(State()), frame, net)
    {
      var a := SendOutbound(frame, net);
      phase, lost := SC.Finished, a.lost;
      out := Output(a.sent, a.settle, a.close);
    }

    method Fail(thrown: SC.Throw, net: SC.Net) returns (out: Output)
      modifies this`phase, this`lost
      ensures SC.Effect(State(), out.sent, out.settle, out.close) == SC.Fail(old(State()), thrown, net)
    {
      if cancelled {
        phase := if thrown.OtherError? && net.reports then SC.Reporting(SC.ToWire(thrown)) else SC.Finished;
        return SILENT;
      }
      if !thrown.ProtocolError? && net.reports {
        phase := SC.Reporting(SC.ToWire(thrown));
        return SILENT;
      }
      out := EmitLast(ResultErr(id, SC.ToWire(thrown)), net);
    }

    /** `run` after its `await dispatch()`. */
    method OnDispatched(result: SC.Dispatched, net: SC.Net) returns (out: Output)
      modifies this
      ensures SC.Effect(State(), out.sent, out.settle, out.close) == SC.OnDispatched(old(State()), result, net)
    {
      if !phase.Dispatching? {
        return SILENT;
      }
      if result.DispatchThrows? {
        ending := Some(SC.Threw(result.thrown));
        out := Fail(result.thrown, net);
        return;
      }
      ending := if result.Returns? then Some(SC.Returned(result.output)) else ending;
      if cancelled {
        phase := SC.Finished;
        return SILENT;
      }
      if result.Streams? {
        phase, iterating, streamed := SC.Pulling, true, true;
        return SILENT;
      }
      out := EmitLast(ResultOk(id, result.output), net);
    }

    /** The `catch` of `emitStream`. */
    method FailStream(thrown: SC.Throw, ghost how: SC.Ending, net: SC.Net) returns (out: Output)
      modifies this`phase, this`lost, this`ending, this`iterating, this`returned
      ensures SC.Effect(State(), out.sent, out.settle, out.close)
           == SC.FailStream(old(State()), how, thrown, net)
    {
      ending := Some(how);
      CloseIterator();
      out := Fail(thrown, net);
    }

    /** `emitStream` after its `await iterator.next()`. */
    method OnNext(next: SC.Next, net: SC.Net) returns (out: Output)
      modifies this
      ensures SC.Effect(State(), out.sent, out.settle, out.close) == SC.OnNext(old(State()), next, net)
    {
      if !phase.Pulling? {
        return SILENT;
      }
      match next
      case NextThrows(thrown) => out := FailStream(thrown, SC.Threw(thrown), net);
      case Ends => out := OnIteratorEnd(net);
      case Yields(output, shape) =>
        produced := produced + [output];
        out := OnItem(output, shape, net);
    }

    method OnIteratorEnd(net: SC.Net) returns (out: Output)
      modifies this
      ensures SC.Effect(State(), out.sent, out.settle, out.close) == SC.OnIteratorEnd(old(State()), net)
    {
      exhausted, ending := true, Some(SC.RanOut);
      if cancelled {
        phase := SC.Finished;
        return SILENT;
      }
      out := EmitLast(Done(id), net);
    }

    method OnItem(output: Payload, shape: SC.Shape, net: SC.Net) returns (out: Output)
      modifies this
      ensures SC.Effect(State(), out.sent, out.settle, out.close) == SC.OnItem(old(State()), output, shape, net)
    {
      if cancelled {
        phase := SC.Finished;
        return SILENT;
      }
      if shape.Plain? {
        out := EmitItem(output, net);
      } else {
        out := FailStream(SC.NotAnItem(shape), SC.Offered(shape), net);
      }
    }

    method EmitItem(output: Payload, net: SC.Net) returns (out: Output)
      modifies this`phase, this`iterating, this`returned, this`lost
      ensures SC.Effect(State(), out.sent, out.settle, out.close) == SC.EmitItem(old(State()), output, net)
    {
      var a := SendOutbound(Item(id, output), net);
      if a.above.None? {
        CloseIterator();
        phase := SC.Finished;
      } else {
        phase := if a.above.value then SC.Draining(None) else SC.Pulling;
      }
      lost := a.lost;
      out := Output(a.sent, a.settle, a.close);
    }

    method OnDrainSettled(outcome: DrainOutcome)
      modifies this`phase
      ensures State() == SC.OnDrainSettled(old(State()), outcome)
    {
      if phase == SC.Draining(None) && !outcome.Cancelled? {
        phase := SC.Draining(Some(outcome));
      }
    }

    /** `emitStream` after its `await drain.wait()`. */
    method OnDrainResumed(net: SC.Net) returns (out: Output)
      requires Gated()
      modifies this, Queues(), gate
      ensures SC.Effect(State(), out.sent, out.settle, out.close) == SC.OnDrainResumed(old(State()), net)
      ensures gate.State() == Follow(old(gate.State()), SC.Paused(old(State())), SC.Paused(State()))
    {
      if !phase.Draining? || phase.outcome.None? {
        return SILENT;
      }
      if cancelled || phase.outcome.value.Cancelled? {
        phase := SC.Finished;
        return SILENT;
      }
      if phase.outcome.value.Drained? {
        phase := SC.Pulling;
        return SILENT;
      }
      out := AbortStalled(net);
    }

    /** The call stops its handler and its input, and waits for nothing any more. */
    method GiveUp()
      requires Gated()
      modifies this, Queues(), gate
      ensures State() == SC.GivenUp(old(State()))
      ensures gate.State() == Follow(old(gate.State()), SC.Paused(old(State())), SC.Paused(State()))
    {
      cancelled, aborted, phase, ending := true, true, SC.Finished, Some(SC.Stalled);
      EndInput();
      CloseIterator();
    }

    method AbortStalled(net: SC.Net) returns (out: Output)
      requires Gated()
      modifies this, Queues(), gate
      ensures SC.Effect(State(), out.sent, out.settle, out.close) == SC.AbortStalled(old(State()), net)
      ensures gate.State() == Follow(old(gate.State()), SC.Paused(old(State())), SC.Paused(State()))
    {
      GiveUp();
      var a := SendResultErr(SC.NOT_DRAINED, net.open, net.first);
      lost := a.lost;
      out := Output(a.sent, a.settle, a.close);
    }

    /** `fail` after its `await onError()`. */
    method OnReported(net: SC.Net) returns (out: Output)
      modifies this`phase, this`lost
      ensures SC.Effect(State(), out.sent, out.settle, out.close) == SC.OnReported(old(State()), net)
    {
      if !phase.Reporting? {
        return SILENT;
      }
      if cancelled {
        phase := SC.Finished;
        return SILENT;
      }
      var error := phase.error;
      out := EmitLast(ResultErr(id, error), net);
    }
  }
}
