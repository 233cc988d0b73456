/**
 * What one end of a connection has made of the frames it received for one id:
 * the client's output iterator against the server's frames, and the handler's
 * input iterator against the client's.
 */
module Streams {
  import opened Basics
  import opened FrameCodec
  import S = Sessions
  import Q = PushQueues
  import C = ClientMux
  import CC = ClientCalls
  import V = ServerMux
  import SC = ServerCalls

  // ---- The client's side of a call ----

  /** The items accepted into a call's output iterator. */
  function Taken(c: CC.CallState): seq<Payload> {
    if c.output.Some? then c.output.value.pushed else []
  }

  predicate FailedByServer(c: CC.CallState) {
    c.cause.Some? && c.cause.value.ByServerError?
  }

  predicate EndsWithError(frames: seq<Frame>, id: string, error: WireError) {
    frames != [] && frames[|frames| - 1] == ResultErr(id, error)
  }

  /** A call against the frames received for its id. */
  predicate OutOk(c: CC.CallState, received: seq<Frame>) {
    && Taken(c) <= SC.Items(received)
    && (CC.Live(c) ==> Taken(c) == SC.Items(received))
    // `done` came last, after every item
    && (c.cause == Some(CC.ByDone) ==> SC.EndsWithDone(received) && Taken(c) == SC.Items(received))
    // so did an error result
    && (FailedByServer(c) ==> EndsWithError(received, c.id, c.cause.value.error) && Taken(c) == SC.Items(received))
    // the promise's value is the one result frame
    && (c.settlements != [] && c.settlements[0].Value? ==> received == [ResultOk(c.id, c.settlements[0].output)])
  }

  /** What an output iterator was given stays, whatever else happens to the call. */
  predicate SameOut(c: CC.CallState, r: CC.CallState) {
    && Taken(r) == Taken(c)
    && r.id == c.id
    && (CC.Live(r) ==> CC.Live(c))
    && (r.cause == Some(CC.ByDone) ==> c.cause == Some(CC.ByDone))
    && (FailedByServer(r) ==> c.cause == r.cause)
    && (r.settlements != [] && r.settlements[0].Value? ==> c.settlements != [] && r.settlements[0] == c.settlements[0])
  }

  lemma FailedSameOut(c: CC.CallState, cause: CC.Cause)
    requires !cause.ByDone? && !cause.ByServerError?
    ensures SameOut(c, CC.Failed(c, cause))
  {
  }

  lemma FailAndCancelSameOut(c: CC.CallState, cause: CC.Cause, open: bool, fate: S.Fate)
    requires !cause.ByDone? && !cause.ByServerError?
    ensures SameOut(c, CC.FailAndCancel(c, cause, open, fate).call)
    ensures SameOut(c, CC.StopPump(CC.FailAndCancel(c, cause, open, fate)).call)
  {
    FailedSameOut(c, cause);
  }

  lemma SendInputSameOut(c: CC.CallState, input: Payload, net: CC.Net)
    ensures SameOut(c, CC.SendInput(c, input, net).call)
  {
    if !net.open {
      FailedSameOut(c, CC.BySend(CC.Closed));
    } else if net.first.Thrown? {
      FailedSameOut(c, CC.ByClose);
    } else if !net.first.Sent? {
      FailAndCancelSameOut(c, CC.BySend(CC.RefusalOf(net.first)), net.open, net.second);
    }
  }

  lemma InputSameOut(c: CC.CallState, next: CC.InputNext, net: CC.Net)
    ensures SameOut(c, CC.OnInput(c, next, net).call)
  {
    if c.pump.PullingInput? {
      match next
      case InThrows => FailAndCancelSameOut(c, CC.ByPump, net.open, net.first);
      case InEnds =>
      case InYields(input) => SendInputSameOut(c.(inputProduced := c.inputProduced + [input]), input, net);
    }
  }

  lemma DrainSettledSameOut(c: CC.CallState, outcome: DrainOutcome)
    ensures SameOut(c, CC.OnDrainSettled(c, outcome))
  {
  }

  lemma DrainResumedSameOut(c: CC.CallState, net: CC.Net)
    ensures SameOut(c, CC.OnDrainResumed(c, net).call)
  {
    if c.pump == CC.AwaitingDrain(Some(TimedOut)) {
      FailAndCancelSameOut(c, CC.ByPump, net.open, net.first);
    }
  }

  lemma NextSameOut(c: CC.CallState)
    ensures SameOut(c, CC.OnConsumerNext(c))
  {
    assert c.output.Some? ==> Q.Pulled(c.output.value).pushed == c.output.value.pushed;
  }

  lemma StopSameOut(c: CC.CallState, clean: bool, net: CC.Net)
    ensures SameOut(c, CC.OnConsumerStop(c, clean, net).call)
  {
    if c.output.Some? {
      assert Q.ClosedWith(c.output.value, if clean then Q.Ended else Q.Failed(None)).pushed == c.output.value.pushed;
    }
  }

  /** Only a frame changes what an output iterator was given. */
  lemma CallStepSameOut(c: CC.CallState, e: C.CallEvent, net: CC.Net)
    ensures SameOut(c, C.CallStep(c, e, net).call)
  {
    match e
    case Aborts => FailAndCancelSameOut(c, CC.ByAbort, net.open, net.first);
    case InputSettles(next) => InputSameOut(c, next, net);
    case DrainSettles(outcome) => DrainSettledSameOut(c, outcome);
    case DrainResumes => DrainResumedSameOut(c, net);
    case ConsumerPulls => NextSameOut(c);
    case ConsumerStops(clean) => StopSameOut(c, clean, net);
  }

  lemma OpenSameOut(id: string, request: CC.Request, signal: bool, aborted: bool, net: CC.Net)
    ensures OutOk(CC.Open(CC.Fresh(id, request), signal, aborted, net).call, [])
  {
    var c := CC.Fresh(id, request);
    FailedSameOut(c, CC.BySend(if net.open then CC.RefusalOf(net.first) else CC.Closed));
    FailedSameOut(c, CC.ByAbort);
    FailedSameOut(c, CC.ByClose);
  }

  lemma FirstFrameOut(c: CC.CallState, received: seq<Frame>, frame: Frame, size: nat, mark: Option<nat>)
    requires OutOk(c, received) && c.mode.PendingFirst? && c.settlements == [] && c.output.None? && c.cause.None?
    requires SC.Legal(received + [frame]) && Bears(frame, c.id)
    ensures OutOk(CC.OnFirstFrame(c, frame, size, mark).call, received + [frame])
  {
    SC.ItemsSnoc(received, frame);
    assert (received + [frame])[|received|] == frame;
    if frame.ResultOk? {
      assert received == [];
      assert received + [frame] == [frame];
    }
  }

  lemma StreamFrameOut(c: CC.CallState, received: seq<Frame>, frame: Frame, size: nat)
    requires OutOk(c, received) && c.mode.StreamingOut? && c.settlements == [CC.Stream] && c.cause.None?
    requires c.output.Some? && c.output.value.closing.Open?
    requires SC.Legal(received + [frame]) && Bears(frame, c.id)
    ensures OutOk(CC.OnStreamFrame(c, frame, size).call, received + [frame])
  {
    SC.ItemsSnoc(received, frame);
    assert (received + [frame])[|received|] == frame;
  }

  /** A frame that the call is not given: it is over, or the frame is no item. */
  lemma SkippedFrameOut(c: CC.CallState, received: seq<Frame>, frame: Frame)
    requires OutOk(c, received) && SC.Legal(received + [frame])
    requires CC.Live(c) ==> !frame.Item? && c.cause.None? && (c.settlements != [] ==> !c.settlements[0].Value?)
    ensures OutOk(c, received + [frame])
  {
    SC.ItemsSnoc(received, frame);
    assert forall i :: 0 <= i < |received| ==> (received + [frame])[i] == received[i];
  }

  /** A call's next frame, whatever it is and whatever the call has become. */
  lemma FrameOut(c: CC.CallState, sent: seq<Frame>, received: seq<Frame>, frame: Frame, size: nat, mark: Option<nat>)
    requires CC.CallOk(c, sent) && CC.OutputOk(c) && OutOk(c, received)
    requires SC.Legal(received + [frame]) && Bears(frame, c.id)
    ensures OutOk(CC.OnFrame(c, frame, size, mark).call, received + [frame])
  {
    match c.mode
    case PendingFirst =>
      assert [CC.Stream] != [];
      FirstFrameOut(c, received, frame, size, mark);
    case StreamingOut => StreamFrameOut(c, received, frame, size);
    case Over => SkippedFrameOut(c, received, frame);
  }

  // ---- The handler's side of a call ----

  /** The items accepted into a handler's input iterator. */
  function Heard(c: SC.CallState): seq<Payload> {
    if c.input.Some? then c.input.value.pushed else []
  }

  predicate Hearing(c: SC.CallState) {
    c.input.Some? && c.input.value.closing.Open?
  }

  /** The handler is called with what this `call` frame carries; a `null` input is none. */
  predicate StartedBy(c: SC.CallState, call: Frame) {
    && call.Call?
    && c.path == call.path
    && (c.input.Some? <==> call.stream)
    && c.argument == (if call.stream || call.input == Some(Null) then None else call.input)
  }

  /** A call instance against the frames received for its id. */
  predicate InOk(c: SC.CallState, inflight: bool, received: seq<Frame>) {
    && received != [] && StartedBy(c, received[0])
    && Heard(c) <= CC.InItems(received)
    && (inflight && Hearing(c) ==> Heard(c) == CC.InItems(received))
    // an input that ended without a cancel ended with `in-done`, after every item
    && (c.input.Some? && !Hearing(c) && !c.cancelled ==> CC.HasInDone(received) && Heard(c) == CC.InItems(received))
  }

  /** What an input iterator was given stays, and it ends only with a cancel. */
  predicate SameIn(c: SC.CallState, r: SC.CallState) {
    && Heard(r) == Heard(c)
    && r.path == c.path && r.argument == c.argument
    && (r.input.Some? <==> c.input.Some?)
    && (Hearing(r) ==> Hearing(c))
    && (c.cancelled ==> r.cancelled)
    && (c.input.Some? && !Hearing(r) && !r.cancelled ==> !Hearing(c))
  }

  lemma SameInOk(c: SC.CallState, r: SC.CallState, before: bool, after: bool, received: seq<Frame>)
    requires InOk(c, before, received) && SameIn(c, r) && (after ==> before)
    ensures InOk(r, after, received)
  {
  }

  lemma EffectSameIn(c: SC.CallState, frames: seq<Frame>, e: SC.Effect, open: bool)
    requires SC.EffectOk(c, frames, e, open)
    ensures SameIn(c, e.call)
  {
  }

  lemma PullSameIn(c: SC.CallState)
    ensures SameIn(c, SC.PullInput(c))
  {
  }

  lemma CancelSameIn(c: SC.CallState)
    ensures SameIn(c, SC.CancelCall(c))
  {
  }

  lemma HasInDoneSnoc(frames: seq<Frame>, last: Frame)
    ensures CC.HasInDone(frames + [last]) <==> CC.HasInDone(frames) || last.InDone?
  {
    assert (frames + [last])[|frames|] == last;
    assert forall i :: 0 <= i < |frames| ==> (frames + [last])[i] == frames[i];
  }

  lemma OnlyCancelAfterInDone(frames: seq<Frame>, last: Frame)
    requires CC.Legal(frames + [last]) && CC.HasInDone(frames)
    ensures last.Cancel?
  {
    var i :| 0 <= i < |frames| && frames[i].InDone?;
    assert (frames + [last])[i].InDone? && (frames + [last])[|frames|] == last;
  }

  /** A frame that the call is not given: its id is not in flight, or the frame is no input item. */
  lemma SkippedFrameIn(c: SC.CallState, inflight: bool, received: seq<Frame>, frame: Frame)
    requires InOk(c, inflight, received) && CC.Legal(received + [frame])
    requires inflight ==> !frame.InItem?
    ensures InOk(c, inflight, received + [frame])
  {
    CC.InItemsSnoc(received, frame);
    HasInDoneSnoc(received, frame);
    if CC.HasInDone(received) {
      OnlyCancelAfterInDone(received, frame);
    }
  }

  lemma InItemIn(c: SC.CallState, received: seq<Frame>, frame: Frame, size: nat)
    requires InOk(c, true, received) && CC.Legal(received + [frame]) && frame.InItem?
    ensures InOk(SC.PushInput(c, frame, size), true, received + [frame])
  {
    CC.InItemsSnoc(received, frame);
    HasInDoneSnoc(received, frame);
    if CC.HasInDone(received) {
      OnlyCancelAfterInDone(received, frame);
    }
    if Hearing(c) {
      PushHears(c.input.value, frame.input, size);
    }
  }

  lemma PushHears(q: Q.Queue<Payload>, value: Payload, size: nat)
    requires q.closing.Open?
    ensures Q.Pushed(q, value, size).pushed == q.pushed + [value] && Q.Pushed(q, value, size).closing.Open?
  {
  }

  lemma InDoneIn(c: SC.CallState, received: seq<Frame>, frame: Frame, size: nat)
    requires InOk(c, true, received) && CC.Legal(received + [frame]) && frame.InDone?
    ensures InOk(SC.PushInput(c, frame, size), true, received + [frame])
  {
    CC.InItemsSnoc(received, frame);
    HasInDoneSnoc(received, frame);
  }

  /** An input frame for a call in flight. */
  lemma InputFrameIn(c: SC.CallState, received: seq<Frame>, frame: Frame, size: nat)
    requires InOk(c, true, received) && CC.Legal(received + [frame])
    requires frame.InItem? || frame.InDone?
    ensures InOk(SC.PushInput(c, frame, size), true, received + [frame])
  {
    if frame.InItem? {
      InItemIn(c, received, frame, size);
    } else {
      InDoneIn(c, received, frame, size);
    }
  }
}
