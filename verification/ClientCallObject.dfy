/** One id on the client as an object: the fields its steps update, its output queue and the link's read gate. */
module ClientCallObjects {
  import opened Basics
  import opened FrameCodec
  import opened Reads
  import S = Sessions
  import Q = PushQueues
  import CC = ClientCalls

  /** What a step asks of its link. */
  datatype Output = Output(sent: seq<Frame>, settle: bool, close: bool)

  const SILENT := Output([], false, false)

  class ClientCall {
    const id: string
    const request: CC.Request
    const mark: Option<nat>
    const gate: ReadGate
    ghost const serial: nat
    var mode: CC.Mode
    var sendingInput: bool
    var pump: CC.Pump
    var abortArmed: bool
    var output: Option<Q.PushQueue<Payload>>
    ghost var settlements: seq<CC.Settlement>
    ghost var cause: Option<CC.Cause>
    ghost var departures: nat
    ghost var inputProduced: seq<Payload>
    ghost var inputEnded: bool
    ghost var inputReturned: nat

    ghost function Queues(): set<Q.PushQueue<Payload>>
      reads this
    {
      if output.Some? then {output.value} else {}
    }

    /** The output queue pauses and resumes the link's reads. */
    ghost predicate Gated()
      reads this
    {
      output.Some? ==> output.value.gate == gate
    }

    ghost function State(): CC.CallState
      reads this, Queues()
    {
      CC.CallState(id, request, mode, sendingInput, pump, abortArmed,
                   if output.Some? then Some(output.value.State()) else None,
                   settlements, cause, departures, inputProduced, inputEnded, inputReturned)
    }

    constructor (id: string, request: CC.Request, mark: Option<nat>, gate: ReadGate, ghost serial: nat)
      ensures Gated() && this.gate == gate && this.mark == mark && this.serial == serial && Queues() == {}
      ensures State() == CC.Fresh(id, request)
    {
      this.id, this.request, this.mark, this.gate, this.serial := id, request, mark, gate, serial;
      mode, sendingInput, pump, abortArmed, output := CC.PendingFirst, false, CC.NoPump, false, None;
      settlements, cause, departures := [], None, 0;
      inputProduced, inputEnded, inputReturned := [], false, 0;
    }

    /** The promise's `resolve` or `reject`. */
    ghost method Settle(settlement: CC.Settlement)
      modifies this`settlements
      ensures settlements == old(settlements) + [settlement]
    {
      settlements := settlements + [settlement];
    }

    /** The one-shot terminal transition, up to its action. */
    method Finish(cause: CC.Cause)
      modifies this
      ensures output == old(output) && State() == CC.Finish(old(State()), cause)
    {
      mode := CC.Over;
      sendingInput := false;
      departures := departures + 1;
      abortArmed := false;
      if pump == CC.AwaitingDrain(None) {
        pump := CC.AwaitingDrain(Some(Cancelled));
      }
      if pump != CC.NoPump {
        inputReturned := inputReturned + 1;
      }
      this.cause := Some(cause);
    }

    method CloseOutput(closing: Q.Closing)
      requires Gated() && !closing.Open?
      modifies Queues(), gate
      ensures State() == CC.CloseOutput(old(State()), closing)
      ensures gate.State() == Follow(old(gate.State()), CC.Paused(old(State())), CC.Paused(State()))
    {
      if output.Some? {
        output.value.Finish(closing);
      }
    }

    /** Reject the promise before the first frame, fail the iterator after it. */
    method FailWith(cause: CC.Cause)
      requires Gated()
      modifies this, Queues(), gate
      ensures output == old(output) && State() == CC.Failed(old(State()), cause)
      ensures gate.State() == Follow(old(gate.State()), CC.Paused(old(State())), CC.Paused(State()))
    {
      var pending := mode.PendingFirst?;
      Finish(cause);
      if pending {
        Settle(CC.Failure(CC.ErrorOf(cause)));
      } else {
        CloseOutput(Q.Failed(CC.ErrorOf(cause)));
      }
    }

    method Fail(cause: CC.Cause) returns (out: Output)
      requires Gated()
      modifies this, Queues(), gate
      ensures output == old(output)
      ensures CC.Effect(State(), out.sent, out.settle, out.close) == CC.Fail(old(State()), cause)
      ensures gate.State() == Follow(old(gate.State()), CC.Paused(old(State())), CC.Paused(State()))
    {
      if mode.Over? {
        return SILENT;
      }
      FailWith(cause);
      out := Output([], true, false);
    }

    method FailAndCancel(cause: CC.Cause, open: bool, fate: S.Fate) returns (out: Output)
      requires Gated()
      modifies this, Queues(), gate
      ensures output == old(output)
      ensures CC.Effect(State(), out.sent, out.settle, out.close) == CC.FailAndCancel(old(State()), cause, open, fate)
      ensures gate.State() == Follow(old(gate.State()), CC.Paused(old(State())), CC.Paused(State()))
    {
      if mode.Over? {
        return SILENT;
      }
      FailWith(cause);
      out := Output(CC.Transmitted(FrameCodec.Frame.Cancel(id), open, fate), true, open && fate.Thrown?);
    }

    /** The duplex threw: the session closes, which fails this call with the others. */
    method ClosedBySend() returns (out: Output)
      requires Gated()
      modifies this, Queues(), gate
      ensures output == old(output)
      ensures CC.Effect(State(), out.sent, out.settle, out.close) == CC.ClosedBySend(old(State()))
      ensures gate.State() == Follow(old(gate.State()), CC.Paused(old(State())), CC.Paused(State()))
    {
      FailWith(CC.ByClose);
      out := Output([], true, true);
    }

    method Open(signal: bool, aborted: bool, net: CC.Net) returns (out: Output)
      requires Gated()
      modifies this, Queues(), gate
      ensures output == old(output)
      ensures CC.Effect(State(), out.sent, out.settle, out.close) == CC.Open(old(State()), signal, aborted, net)
      ensures gate.State() == Follow(old(gate.State()), CC.Paused(old(State())), CC.Paused(State()))
    {
      var streaming := request.streaming;
      var call := Frame.Call(id, request.path, if streaming then None else request.input, streaming);
      if !net.open {
        out := Fail(CC.BySend(CC.Closed));
        return;
      }
      if net.first.Thrown? {
        out := ClosedBySend();
        return;
      }
      if !net.first.Sent? {
        out := Fail(CC.BySend(CC.RefusalOf(net.first)));
        return;
      }
      if signal && aborted {
        out := FailAndCancel(CC.ByAbort, net.open, net.second);
        return out.(sent := [call] + out.sent);
      }
      abortArmed := signal;
      sendingInput := streaming;
      pump := if streaming then CC.PullingInput else CC.NoPump;
      out := Output([call], false, false);
    }

    method OnAbort(net: CC.Net) returns (out: Output)
      requires Gated()
      modifies this, Queues(), gate
      ensures output == old(output)
      ensures CC.Effect(State(), out.sent, out.settle, out.close) == CC.OnAbort(old(State()), net)
      ensures gate.State() == Follow(old(gate.State()), CC.Paused(old(State())), CC.Paused(State()))
    {
      if !abortArmed {
        return SILENT;
      }
      out := FailAndCancel(CC.ByAbort, net.open, net.first);
    }

    method OnConsumerNext()
      requires Gated()
      modifies Queues(), gate
      ensures State() == CC.OnConsumerNext(old(State()))
      ensures gate.State() == Follow(old(gate.State()), CC.Paused(old(State())), CC.Paused(State()))
    {
      if output.Some? {
        var _ := output.value.Next();
      }
    }

    /** The consumer's `return()` (clean) or `throw()`. */
    method OnConsumerStop(clean: bool, net: CC.Net) returns (out: Output)
      requires Gated()
      modifies this, Queues(), gate
      ensures output == old(output)
      ensures CC.Effect(State(), out.sent, out.settle, out.close) == CC.OnConsumerStop(old(State()), clean, net)
      ensures gate.State() == Follow(old(gate.State()), CC.Paused(old(State())), CC.Paused(State()))
    {
      if mode.Over? || output.None? {
        return SILENT;
      }
      Finish(if clean then CC.ByReturn else CC.ByThrow);
      CloseOutput(if clean then Q.Ended else Q.Failed(None));
      out := Output(CC.Transmitted(FrameCodec.Frame.Cancel(id), net.open, net.first), true, net.open && net.first.Thrown?);
    }

    // ---- Inbound frames ----

    method CreateOutput() returns (queue: Q.PushQueue<Payload>)
      ensures fresh(queue) && queue.gate == gate && queue.State() == Q.Fresh(mark)
    {
      queue := new Q.PushQueue(mark, gate);
    }

    method OnFirstFrame(frame: Frame, size: nat) returns (out: Output)
      requires Gated() && mode.PendingFirst? && output.None?
      modifies this, gate
      ensures Gated() && fresh(Queues())
      ensures CC.Effect(State(), out.sent, out.settle, out.close) == CC.OnFirstFrame(old(State()), frame, size, mark)
      ensures gate.State() == Follow(old(gate.State()), CC.Paused(old(State())), CC.Paused(State()))
    {
      if frame.ResultOk? {
        Finish(CC.ByResult);
        Settle(CC.Value(frame.output));
        return Output([], true, false);
      }
      if frame.ResultErr? {
        out := Fail(CC.ByServerError(frame.error));
        return;
      }
      if frame.Item? {
        mode := CC.StreamingOut;
        var queue := CreateOutput();
        output := Some(queue);
        queue.Push(frame.output, size);
        Settle(CC.Stream);
        return SILENT;
      }
      if frame.Done? {
        var queue := CreateOutput();
        output := Some(queue);
        queue.Finish(Q.Ended);
        Settle(CC.Stream);
        Finish(CC.ByDone);
        return Output([], true, false);
      }
      out := Fail(CC.ByInvalid);
    }

    method OnStreamFrame(frame: Frame, size: nat) returns (out: Output)
      requires Gated() && mode.StreamingOut?
      modifies this, Queues(), gate
      ensures output == old(output)
      ensures CC.Effect(State(), out.sent, out.settle, out.close) == CC.OnStreamFrame(old(State()), frame, size)
      ensures gate.State() == Follow(old(gate.State()), CC.Paused(old(State())), CC.Paused(State()))
    {
      if frame.Item? {
        if output.Some? {
          output.value.Push(frame.output, size);
        }
        return SILENT;
      }
      if frame.Done? {
        Finish(CC.ByDone);
        CloseOutput(Q.Ended);
        return Output([], true, false);
      }
      if frame.ResultErr? {
        out := Fail(CC.ByServerError(frame.error));
        return;
      }
      return SILENT;
    }

    method OnFrame(frame: Frame, size: nat) returns (out: Output)
      requires Gated() && (mode.PendingFirst? ==> output.None?)
      modifies this, Queues(), gate
      ensures Gated() && (output == old(output) || fresh(Queues()))
      ensures CC.Effect(State(), out.sent, out.settle, out.close) == CC.OnFrame(old(State()), frame, size, mark)
      ensures gate.State() == Follow(old(gate.State()), CC.Paused(old(State())), CC.Paused(State()))
    {
      if mode.Over? {
        return SILENT;
      }
      if mode.StreamingOut? {
        out := OnStreamFrame(frame, size);
        return;
      }
      out := OnFirstFrame(frame, size);
    }

    // ---- The input pump ----

    method StopPump()
      modifies this`pump
      ensures State() == old(State()).(pump := CC.PumpStopped)
    {
      pump := CC.PumpStopped;
    }

    method SendInput(input: Payload, net: CC.Net) returns (out: Output)
      requires Gated()
      modifies this, Queues(), gate
      ensures output == old(output)
      ensures CC.Effect(State(), out.sent, out.settle, out.close) == CC.SendInput(old(State()), input, net)
      ensures gate.State() == Follow(old(gate.State()), CC.Paused(old(State())), CC.Paused(State()))
    {
      if !net.open {
        out := Fail(CC.BySend(CC.Closed));
      } else if net.first.Sent? {
        pump := if net.first.above then CC.AwaitingDrain(None) else CC.PullingInput;
        return Output([InItem(id, input)], false, false);
      } else if net.first.Thrown? {
        out := ClosedBySend();
      } else {
        out := FailAndCancel(CC.BySend(CC.RefusalOf(net.first)), net.open, net.second);
      }
      StopPump();
    }

    method OnInputEnd(net: CC.Net) returns (out: Output)
      requires pump.PullingInput?
      modifies this
      ensures output == old(output)
      ensures CC.Effect(State(), out.sent, out.settle, out.close) == CC.OnInput(old(State()), CC.InEnds, net)
    {
      inputEnded := true;
      if !sendingInput || mode.Over? {
        out := SILENT;
      } else {
        sendingInput := false;
        out := Output(CC.Transmitted(InDone(id), net.open, net.first), false, net.open && net.first.Thrown?);
      }
      StopPump();
    }

    method OnInputItem(input: Payload, net: CC.Net) returns (out: Output)
      requires Gated() && pump.PullingInput?
      modifies this, Queues(), gate
      ensures output == old(output)
      ensures CC.Effect(State(), out.sent, out.settle, out.close) == CC.OnInput(old(State()), CC.InYields(input), net)
      ensures gate.State() == Follow(old(gate.State()), CC.Paused(old(State())), CC.Paused(State()))
    {
      inputProduced := inputProduced + [input];
      if !sendingInput || mode.Over? {
        StopPump();
        return SILENT;
      }
      out := SendInput(input, net);
    }

    /** `pumpInput` after its `await iterator.next()`. */
    method OnInput(next: CC.InputNext, net: CC.Net) returns (out: Output)
      requires Gated()
      modifies this, Queues(), gate
      ensures output == old(output)
      ensures CC.Effect(State(), out.sent, out.settle, out.close) == CC.OnInput(old(State()), next, net)
      ensures gate.State() == Follow(old(gate.State()), CC.Paused(old(State())), CC.Paused(State()))
    {
      if !pump.PullingInput? {
        return SILENT;
      }
      match next
      case InThrows =>
        out := FailAndCancel(CC.ByPump, net.open, net.first);
        StopPump();
      case InEnds => out := OnInputEnd(net);
      case InYields(input) => out := OnInputItem(input, net);
    }

    method OnDrainSettled(outcome: DrainOutcome)
      modifies this`pump
      ensures State() == CC.OnDrainSettled(old(State()), outcome)
    {
      if pump == CC.AwaitingDrain(None) && !outcome.Cancelled? {
        pump := CC.AwaitingDrain(Some(outcome));
      }
    }

    /** `pumpInput` after its `await drain.wait()`. */
    method OnDrainResumed(net: CC.Net) returns (out: Output)
      requires Gated()
      modifies this, Queues(), gate
      ensures output == old(output)
      ensures CC.Effect(State(), out.sent, out.settle, out.close) == CC.OnDrainResumed(old(State()), net)
      ensures gate.State() == Follow(old(gate.State()), CC.Paused(old(State())), CC.Paused(State()))
    {
      if pump == CC.AwaitingDrain(Some(TimedOut)) {
        out := FailAndCancel(CC.ByPump, net.open, net.first);
        StopPump();
        return;
      }
      if pump == CC.AwaitingDrain(Some(Cancelled)) {
        pump := CC.PumpStopped;
      } else if pump == CC.AwaitingDrain(Some(Drained)) {
        pump := if sendingInput then CC.PullingInput else CC.PumpStopped;
      }
      return SILENT;
    }
  }
}
