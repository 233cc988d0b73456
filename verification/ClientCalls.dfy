/**
 * One id on the client side, between two awaits: the call promise, the output
 * iterator it may resolve to, the pump of a streamed input, and the abort
 * listener. Each function is one run-to-completion step as an `Effect` on the
 * connection.
 */
module ClientCalls {
  import opened Basics
  import opened FrameCodec
  import S = Sessions
  import Q = PushQueues

  datatype Mode = PendingFirst | StreamingOut | Over

  datatype Pump = NoPump | PullingInput | AwaitingDrain(outcome: Option<DrainOutcome>) | PumpStopped

  /** A call of the promise's `resolve` or `reject`. */
  datatype Settlement = Value(output: Payload) | Stream | Failure(error: Option<WireError>)

  /** Why a frame did not go out. */
  datatype Refusal = Oversize | Stringify | Closed

  /** Why the call is over. */
  datatype Cause =
    | ByResult | ByDone | ByServerError(error: WireError) | ByInvalid | ByClose
    | BySend(reason: Refusal) | ByAbort | ByPump | ByReturn | ByThrow

  /** What the caller asks for; an input that is streamed comes from an iterator instead of `input`. */
  datatype Request = Request(path: seq<string>, input: Payload, streaming: bool)

  /**
   * `request` is what the call was made with. `settlements` to `inputReturned` are
   * observations: how the promise was settled, why the call ended, how often its id
   * was given up, what the input iterator yielded, whether it ended by itself, and
   * how often it was returned.
   */
  datatype CallState = CallState(
    id: string,
    request: Request,
    mode: Mode,
    sendingInput: bool,
    pump: Pump,
    abortArmed: bool,
    output: Option<Q.Queue<Payload>>,
    settlements: seq<Settlement>,
    cause: Option<Cause>,
    departures: nat,
    inputProduced: seq<Payload>,
    inputEnded: bool,
    inputReturned: nat)

  datatype InputNext = InYields(input: Payload) | InEnds | InThrows

  datatype Net = Net(open: bool, first: S.Fate, second: S.Fate)

  datatype Effect = Effect(call: CallState, sent: seq<Frame>, settle: bool, close: bool)

  function Fresh(id: string, request: Request): CallState {
    CallState(id, request, PendingFirst, false, NoPump, false, None, [], None, 0, [], false, 0)
  }

  function Quiet(c: CallState): Effect {
    Effect(c, [], false, false)
  }

  function Transmitted(frame: Frame, open: bool, fate: S.Fate): seq<Frame> {
    if open && fate.Sent? then [frame] else []
  }

  // ---- Ending ----

  /** The one-shot terminal transition, up to its action. */
  function Finish(c: CallState, cause: Cause): CallState {
    c.(mode := Over,
       sendingInput := false,
       pump := if c.pump == AwaitingDrain(None) then AwaitingDrain(Some(Cancelled)) else c.pump,
       abortArmed := false,
       cause := Some(cause),
       departures := c.departures + 1,
       inputReturned := if c.pump != NoPump then c.inputReturned + 1 else c.inputReturned)
  }

  function CloseOutput(c: CallState, closing: Q.Closing): CallState
    requires !closing.Open?
  {
    if c.output.None? then c else c.(output := Some(Q.ClosedWith(c.output.value, closing)))
  }

  const FRAME_TOO_LARGE := WireError("PAYLOAD_TOO_LARGE", "Frame too large", None)
  const INTERNAL := WireError("INTERNAL", "Internal server error", None)

  /** The error a call fails with: the server's, one that reads like it, or a local failure. */
  function ErrorOf(cause: Cause): Option<WireError> {
    match cause
    case ByServerError(error) => Some(error)
    case BySend(Oversize) => Some(FRAME_TOO_LARGE)
    case BySend(Stringify) => Some(INTERNAL)
    case _ => None
  }

  /** Reject the promise before the first frame, fail the iterator after it. */
  function Failed(c: CallState, cause: Cause): CallState {
    var c1 := Finish(c, cause);
    if c.mode.PendingFirst? then c1.(settlements := c1.settlements + [Failure(ErrorOf(cause))])
    else CloseOutput(c1, Q.Failed(ErrorOf(cause)))
  }

  /** `fail` without a cancel: the server or the close ended the call. */
  function Fail(c: CallState, cause: Cause): Effect {
    if c.mode.Over? then Quiet(c) else Effect(Failed(c, cause), [], true, false)
  }

  /** `fail` with a cancel for the server. */
  function FailAndCancel(c: CallState, cause: Cause, open: bool, fate: S.Fate): Effect {
    if c.mode.Over? then Quiet(c)
    else Effect(Failed(c, cause), Transmitted(FrameCodec.Frame.Cancel(c.id), open, fate), true, open && fate.Thrown?)
  }

  /** The duplex threw: the session closes, which fails this call with the others. */
  function ClosedBySend(c: CallState): Effect {
    Effect(Failed(c, ByClose), [], true, true)
  }

  // ---- The steps ----

  function CallFrame(id: string, request: Request): Frame {
    FrameCodec.Frame.Call(id, request.path, if request.streaming then None else request.input, request.streaming)
  }

  function RefusalOf(fate: S.Fate): Refusal {
    if fate.TooLarge? then Oversize else if fate.Unserializable? then Stringify else Closed
  }

  /** Send `call`, arm the signal, start pumping. */
  function Open(c: CallState, signal: bool, aborted: bool, net: Net): Effect {
    var call := CallFrame(c.id, c.request);
    if !net.open then Fail(c, BySend(Closed))
    else if net.first.Thrown? then ClosedBySend(c)
    else if !net.first.Sent? then Fail(c, BySend(RefusalOf(net.first)))
    else if signal && aborted then
      var e := FailAndCancel(c, ByAbort, net.open, net.second);
      e.(sent := [call] + e.sent)
    else
      Effect(c.(abortArmed := signal, sendingInput := c.request.streaming,
                pump := if c.request.streaming then PullingInput else NoPump),
             [call], false, false)
  }

  function OnFrame(c: CallState, frame: Frame, size: nat, mark: Option<nat>): Effect {
    match c.mode
    case Over => Quiet(c)
    case StreamingOut => OnStreamFrame(c, frame, size)
    case PendingFirst => OnFirstFrame(c, frame, size, mark)
  }

  function OnFirstFrame(c: CallState, frame: Frame, size: nat, mark: Option<nat>): Effect {
    match frame
    case ResultOk(_, output) =>
      Effect(Finish(c, ByResult).(settlements := c.settlements + [Value(output)]), [], true, false)
    case ResultErr(_, error) => Fail(c, ByServerError(error))
    case Item(_, output) =>
      Quiet(c.(mode := StreamingOut,
               output := Some(Q.Pushed(Q.Fresh(mark), output, size)),
               settlements := c.settlements + [Stream]))
    case Done(_) =>
      Effect(Finish(c.(output := Some(Q.ClosedWith(Q.Fresh(mark), Q.Ended)), settlements := c.settlements + [Stream]), ByDone),
             [], true, false)
    case _ => Fail(c, ByInvalid)
  }

  function OnStreamFrame(c: CallState, frame: Frame, size: nat): Effect {
    if frame.Item? then
      Quiet(if c.output.None? then c else c.(output := Some(Q.Pushed(c.output.value, frame.output, size))))
    else if frame.Done? then Effect(CloseOutput(Finish(c, ByDone), Q.Ended), [], true, false)
    else if frame.ResultErr? then Fail(c, ByServerError(frame.error))
    else Quiet(c)
  }

  function OnAbort(c: CallState, net: Net): Effect {
    if !c.abortArmed then Quiet(c) else FailAndCancel(c, ByAbort, net.open, net.first)
  }

  function OnConsumerNext(c: CallState): CallState {
    if c.output.None? then c else c.(output := Some(Q.Pulled(c.output.value)))
  }

  /** The consumer's `return()` (clean) or `throw()`. */
  function OnConsumerStop(c: CallState, clean: bool, net: Net): Effect {
    if c.mode.Over? || c.output.None? then Quiet(c)
    else
      Effect(CloseOutput(Finish(c, if clean then ByReturn else ByThrow), if clean then Q.Ended else Q.Failed(None)),
             Transmitted(FrameCodec.Frame.Cancel(c.id), net.open, net.first), true, net.open && net.first.Thrown?)
  }

  function StopPump(e: Effect): Effect {
    e.(call := e.call.(pump := PumpStopped))
  }

  /** The input iterator's `next()` settled. */
  function OnInput(c: CallState, next: InputNext, net: Net): Effect {
    if !c.pump.PullingInput? then Quiet(c)
    else
      match next
      case InThrows => StopPump(FailAndCancel(c, ByPump, net.open, net.first))
      case InEnds =>
        var c1 := c.(inputEnded := true);
        if !c.sendingInput || c.mode.Over? then StopPump(Quiet(c1))
        else
          StopPump(Effect(c1.(sendingInput := false), Transmitted(InDone(c.id), net.open, net.first), false,
                          net.open && net.first.Thrown?))
      case InYields(input) =>
        var c1 := c.(inputProduced := c.inputProduced + [input]);
        if !c.sendingInput || c.mode.Over? then StopPump(Quiet(c1)) else SendInput(c1, input, net)
  }

  function SendInput(c: CallState, input: Payload, net: Net): Effect {
    if !net.open then StopPump(Fail(c, BySend(Closed)))
    else
      match net.first
      case Sent(above) =>
        Effect(c.(pump := if above then AwaitingDrain(None) else PullingInput), [InItem(c.id, input)], false, false)
      case Thrown => StopPump(ClosedBySend(c))
      case _ => StopPump(FailAndCancel(c, BySend(RefusalOf(net.first)), net.open, net.second))
  }

  function OnDrainSettled(c: CallState, outcome: DrainOutcome): CallState {
    if c.pump == AwaitingDrain(None) && !outcome.Cancelled? then c.(pump := AwaitingDrain(Some(outcome))) else c
  }

  function OnDrainResumed(c: CallState, net: Net): Effect {
    if c.pump == AwaitingDrain(Some(TimedOut)) then StopPump(FailAndCancel(c, ByPump, net.open, net.first))
    else Quiet(DrainContinued(c))
  }

  /** What a drained or cancelled wait leaves of a call. */
  function DrainContinued(c: CallState): CallState {
    if c.pump == AwaitingDrain(Some(Cancelled)) then c.(pump := PumpStopped)
    else if c.pump == AwaitingDrain(Some(Drained)) then c.(pump := if c.sendingInput then PullingInput else PumpStopped)
    else c
  }

  // ---- What a call keeps ----

  predicate Live(c: CallState) {
    !c.mode.Over?
  }

  predicate Paused(c: CallState) {
    c.output.Some? && c.output.value.paused
  }

  function InItems(frames: seq<Frame>): seq<Payload> {
    if frames == [] then []
    else
      var last := frames[|frames| - 1];
      InItems(frames[..|frames| - 1]) + (if last.InItem? then [last.input] else [])
  }

  lemma InItemsSnoc(frames: seq<Frame>, last: Frame)
    ensures InItems(frames + [last]) == InItems(frames) + (if last.InItem? then [last.input] else [])
  {
    assert (frames + [last])[..|frames|] == frames;
  }

  /** `call (in-item)* (in-done)? (cancel)?`, or nothing yet. */
  predicate Legal(frames: seq<Frame>) {
    && (forall i :: 0 <= i < |frames| ==> (frames[i].Call? <==> i == 0))
    && (forall i :: 0 < i < |frames| ==> frames[i].InItem? || frames[i].InDone? || frames[i].Cancel?)
    && (forall i :: 0 <= i < |frames| - 1 ==> !frames[i].Cancel?)
    && (forall i, j :: 0 <= i < j < |frames| && frames[i].InDone? ==> frames[j].Cancel?)
  }

  predicate HasCancel(frames: seq<Frame>) {
    exists i :: 0 <= i < |frames| && frames[i].Cancel?
  }

  predicate HasInDone(frames: seq<Frame>) {
    exists i :: 0 <= i < |frames| && frames[i].InDone?
  }

  /** Ends that the server or the connection decided; they send no cancel. */
  predicate FromOutside(cause: Cause) {
    cause.ByResult? || cause.ByDone? || cause.ByServerError? || cause.ByInvalid? || cause.ByClose?
  }

  /** A call and the frames sent for it. */
  ghost predicate CallOk(c: CallState, frames: seq<Frame>) {
    // the outbound language of the id, which begins with what the caller asked for
    && Legal(frames)
    && (frames != [] ==> Asks(frames[0], c.request))
    && (forall i :: 0 <= i < |frames| ==> AddressedTo(frames[i], c.id))
    && (Live(c) ==> !HasCancel(frames))
    && (c.cause.Some? && FromOutside(c.cause.value) ==> !HasCancel(frames))
    && (c.sendingInput ==> Live(c) && frames != [] && !HasInDone(frames))
    // the input stream: what went out is a prefix of what the iterator yielded
    && InItems(frames) <= c.inputProduced
    && (Live(c) && (c.pump.PullingInput? || c.pump.AwaitingDrain?) ==> c.sendingInput)
    && (c.sendingInput ==> InItems(frames) == c.inputProduced && !c.inputEnded && c.pump != NoPump)
    && (HasInDone(frames) ==> c.inputEnded && InItems(frames) == c.inputProduced && c.pump.PumpStopped?)
    && (c.pump == AwaitingDrain(Some(Cancelled)) ==> !Live(c))
    && (c.pump == AwaitingDrain(None) ==> Live(c))
    && (c.pump.NoPump? ==> c.inputProduced == [] && !c.inputEnded)
    // the promise settles once, and the id is given up once
    && (c.mode.PendingFirst? <==> c.settlements == [])
    && |c.settlements| <= 1
    && (c.mode.StreamingOut? ==> c.settlements == [Stream])
    && (c.cause.Some? <==> !Live(c))
    && c.departures == (if Live(c) then 0 else 1)
    && c.inputReturned == (if !Live(c) && c.pump != NoPump then 1 else 0)
    && (c.abortArmed ==> Live(c))
    && (c.output.Some? <==> c.settlements == [Stream])
    && (c.settlements != [] && c.settlements[0].Failure? ==> c.cause.Some? && c.settlements[0].error == ErrorOf(c.cause.value))
  }

  /** The `call` frame carries this request: its path, and its input exactly if it is not streamed. */
  predicate Asks(call: Frame, request: Request) {
    && call.Call?
    && call.path == request.path
    && call.stream == request.streaming
    && (!request.streaming ==> call.input == request.input)
    && (request.streaming ==> call.input.None?)
  }

  predicate AddressedTo(frame: Frame, id: string) {
    && (frame.Call? || frame.InItem? || frame.InDone? || frame.Cancel?)
    && frame.id == id
    && (frame.Call? && frame.stream ==> frame.input.None?)
  }

  /** The output iterator: open while the call streams, closed when it is over, cleanly only for a reason. */
  ghost predicate OutputOk(c: CallState) {
    c.output.Some? ==>
      && Q.Good(c.output.value)
      && (c.output.value.closing.Open? <==> Live(c))
      && (c.output.value.closing.Ended? ==> c.cause == Some(ByDone) || c.cause == Some(ByReturn))
      && (c.output.value.closing.Failed? ==> c.cause.Some? && c.output.value.closing.error == ErrorOf(c.cause.value))
  }

  ghost predicate EffectOk(c: CallState, frames: seq<Frame>, e: Effect, open: bool) {
    && e.call.id == c.id && e.call.request == c.request
    && CallOk(e.call, frames + e.sent)
    && (e.sent != [] ==> Live(c) && open)
    && (!Live(c) ==> !Live(e.call) && !e.settle && !e.close && e.sent == [])
    && (Live(c) ==> (Live(e.call) <==> !e.settle))
    && (e.close ==> open)
    && |e.sent| <= 2
  }

  lemma FreshOk(id: string, request: Request)
    ensures CallOk(Fresh(id, request), []) && OutputOk(Fresh(id, request))
  {
  }

  lemma QuietOk(c: CallState, frames: seq<Frame>, c': CallState, open: bool)
    requires CallOk(c', frames) && c'.id == c.id && c'.request == c.request && (Live(c') <==> Live(c))
    ensures EffectOk(c, frames, Quiet(c'), open)
  {
    assert frames + [] == frames;
  }

  lemma LegalSnoc(frames: seq<Frame>, last: Frame)
    requires Legal(frames) && !HasCancel(frames)
    requires last.Call? ==> frames == []
    requires !last.Call? ==> frames != [] && (last.InItem? || last.InDone? || last.Cancel?)
    requires last.InItem? || last.InDone? ==> !HasInDone(frames)
    ensures Legal(frames + [last])
    ensures HasCancel(frames + [last]) <==> last.Cancel?
    ensures HasInDone(frames + [last]) <==> HasInDone(frames) || last.InDone?
    ensures InItems(frames + [last]) == InItems(frames) + (if last.InItem? then [last.input] else [])
  {
    var sent := frames + [last];
    assert sent[|frames|] == last;
    assert forall i :: 0 <= i < |frames| ==> sent[i] == frames[i];
    InItemsSnoc(frames, last);
  }

  lemma FailedOk(c: CallState, frames: seq<Frame>, cause: Cause)
    requires CallOk(c, frames) && Live(c)
    ensures CallOk(Failed(c, cause), frames) && Failed(c, cause).id == c.id && Failed(c, cause).request == c.request
  {
    assert c.mode.PendingFirst? ==> Failed(c, cause).settlements == [] + [Failure(ErrorOf(cause))] == [Failure(ErrorOf(cause))];
  }

  lemma FailOk(c: CallState, frames: seq<Frame>, cause: Cause, open: bool)
    requires CallOk(c, frames)
    ensures EffectOk(c, frames, Fail(c, cause), open)
  {
    assert frames + [] == frames;
    if Live(c) {
      FailedOk(c, frames, cause);
    }
  }

  /** A cancel is the last frame of its id, and only the caller's own ends send one. */
  lemma CancelSentOk(c: CallState, frames: seq<Frame>, c1: CallState, open: bool, fate: S.Fate)
    requires CallOk(c, frames) && Live(c) && frames != []
    requires CallOk(c1, frames) && c1.id == c.id && c1.request == c.request && !Live(c1) && !FromOutside(c1.cause.value)
    ensures CallOk(c1, frames + Transmitted(FrameCodec.Frame.Cancel(c.id), open, fate))
  {
    if open && fate.Sent? {
      LegalSnoc(frames, FrameCodec.Frame.Cancel(c.id));
    } else {
      assert frames + [] == frames;
    }
  }

  lemma FailAndCancelOk(c: CallState, frames: seq<Frame>, cause: Cause, open: bool, fate: S.Fate)
    requires CallOk(c, frames) && !FromOutside(cause) && (Live(c) ==> frames != [])
    ensures EffectOk(c, frames, FailAndCancel(c, cause, open, fate), open)
  {
    if Live(c) {
      FailedOk(c, frames, cause);
      CancelSentOk(c, frames, Failed(c, cause), open, fate);
    } else {
      QuietOk(c, frames, c, open);
    }
  }

  lemma OpenOk(id: string, request: Request, signal: bool, aborted: bool, net: Net)
    ensures EffectOk(Fresh(id, request), [], Open(Fresh(id, request), signal, aborted, net), net.open)
  {
    var c := Fresh(id, request);
    var call := CallFrame(id, request);
    FreshOk(id, request);
    if !net.open || !net.first.Sent? {
      UnsentOpenOk(c, BySend(if net.open then RefusalOf(net.first) else Closed), net);
    } else if signal && aborted {
      AbortedOpenOk(c, call, net);
    } else {
      OpenedOk(c, call, signal, net.open);
    }
  }

  /** A call frame that could not be sent fails the call at once. */
  lemma UnsentOpenOk(c: CallState, cause: Cause, net: Net)
    requires CallOk(c, []) && Live(c)
    ensures EffectOk(c, [], Fail(c, cause), net.open)
    ensures net.open ==> EffectOk(c, [], ClosedBySend(c), net.open)
  {
    FailOk(c, [], cause, net.open);
    FailedOk(c, [], ByClose);
  }

  lemma OpenedOk(c: CallState, call: Frame, signal: bool, open: bool)
    requires c == Fresh(c.id, c.request) && AddressedTo(call, c.id) && Asks(call, c.request) && open
    ensures var called := c.(abortArmed := signal, sendingInput := c.request.streaming,
                             pump := if c.request.streaming then PullingInput else NoPump);
            EffectOk(c, [], Effect(called, [call], false, false), open)
  {
    CalledOk(c, call);
    CallAlone(call);
    assert [] + [call] == [call];
  }

  lemma CallAlone(call: Frame)
    requires call.Call?
    ensures Legal([call]) && !HasCancel([call]) && !HasInDone([call]) && InItems([call]) == []
  {
    InItemsSnoc([], call);
    assert [] + [call] == [call];
  }

  lemma CalledOk(c: CallState, call: Frame)
    requires c == Fresh(c.id, c.request) && AddressedTo(call, c.id) && Asks(call, c.request)
    ensures CallOk(c.(abortArmed := true), [call])
  {
    CallAlone(call);
    var called := c.(abortArmed := true);
    assert called.settlements == [] && called.inputProduced == [];
    assert [Stream] != [];
  }

  /** The effect of a step after which the same frames are sent as one would expect. */
  lemma OverOk(c: CallState, r: CallState, sent: seq<Frame>, close: bool, open: bool)
    requires CallOk(r, sent) && r.id == c.id && r.request == c.request && Live(c) && !Live(r) && open && |sent| <= 2
    ensures EffectOk(c, [], Effect(r, sent, true, close), open)
  {
    assert [] + sent == sent;
  }

  lemma AbortedOpenOk(c: CallState, call: Frame, net: Net)
    requires c == Fresh(c.id, c.request) && AddressedTo(call, c.id) && Asks(call, c.request) && net.open
    ensures var e := FailAndCancel(c, ByAbort, net.open, net.second);
            EffectOk(c, [], e.(sent := [call] + e.sent), net.open)
  {
    var called, r := c.(abortArmed := true), Failed(c, ByAbort);
    CalledOk(c, call);
    FailedOk(called, [call], ByAbort);
    assert Failed(called, ByAbort) == r;
    CancelSentOk(called, [call], r, net.open, net.second);
    var sent := Transmitted(FrameCodec.Frame.Cancel(c.id), net.open, net.second);
    OverOk(c, r, [call] + sent, net.open && net.second.Thrown?, net.open);
  }

  lemma FinishedOk(c: CallState, frames: seq<Frame>, cause: Cause, settled: seq<Settlement>)
    requires CallOk(c, frames) && Live(c)
    requires c.mode.PendingFirst? ==> |settled| == 1 && settled[0].Value?
    requires c.mode.StreamingOut? ==> settled == [Stream]
    ensures CallOk(Finish(c, cause).(settlements := settled), frames)
  {
  }

  lemma FirstFrameOk(c: CallState, frames: seq<Frame>, frame: Frame, size: nat, mark: Option<nat>, open: bool)
    requires CallOk(c, frames) && c.mode.PendingFirst?
    ensures EffectOk(c, frames, OnFirstFrame(c, frame, size, mark), open)
  {
    assert frames + [] == frames;
    if frame.ResultOk? {
      assert c.settlements + [Value(frame.output)] == [Value(frame.output)];
      assert [Value(frame.output)][0] != [Stream][0];
      FinishedOk(c, frames, ByResult, [Value(frame.output)]);
    } else if frame.Item? || frame.Done? {
      assert c.settlements + [Stream] == [Stream];
    } else {
      FailOk(c, frames, if frame.ResultErr? then ByServerError(frame.error) else ByInvalid, open);
    }
  }

  lemma StreamFrameOk(c: CallState, frames: seq<Frame>, frame: Frame, size: nat, open: bool)
    requires CallOk(c, frames) && c.mode.StreamingOut?
    ensures EffectOk(c, frames, OnStreamFrame(c, frame, size), open)
  {
    assert frames + [] == frames;
    if frame.Done? {
      FinishedOk(c, frames, ByDone, [Stream]);
    } else if frame.ResultErr? {
      FailOk(c, frames, ByServerError(frame.error), open);
    }
  }

  lemma FrameOk(c: CallState, frames: seq<Frame>, frame: Frame, size: nat, mark: Option<nat>, open: bool)
    requires CallOk(c, frames)
    ensures EffectOk(c, frames, OnFrame(c, frame, size, mark), open)
  {
    match c.mode
    case Over => QuietOk(c, frames, c, open);
    case StreamingOut => StreamFrameOk(c, frames, frame, size, open);
    case PendingFirst => FirstFrameOk(c, frames, frame, size, mark, open);
  }

  lemma ConsumerStopOk(c: CallState, frames: seq<Frame>, clean: bool, net: Net)
    requires CallOk(c, frames) && (Live(c) ==> frames != [])
    ensures EffectOk(c, frames, OnConsumerStop(c, clean, net), net.open)
  {
    if Live(c) && c.output.Some? {
      var cause := if clean then ByReturn else ByThrow;
      FinishedOk(c, frames, cause, [Stream]);
      CancelSentOk(c, frames, OnConsumerStop(c, clean, net).call, net.open, net.first);
    } else {
      QuietOk(c, frames, c, net.open);
    }
  }

  lemma StopPumpOk(c: CallState, frames: seq<Frame>, e: Effect, open: bool)
    requires EffectOk(c, frames, e, open) && !e.call.sendingInput && e.call.pump != NoPump
    ensures EffectOk(c, frames, StopPump(e), open)
  {
  }

  /** An item that could not go out ends the call; the pulled value stays unsent. */
  lemma UnsentOk(c: CallState, frames: seq<Frame>, input: Payload, cause: Cause)
    requires CallOk(c, frames) && Live(c) && c.pump.PullingInput?
    ensures var c1 := c.(inputProduced := c.inputProduced + [input]);
            CallOk(Failed(c1, cause).(pump := PumpStopped), frames) && CallOk(Failed(c1, cause), frames)
  {
    FailedOk(c, frames, cause);
    var c1 := c.(inputProduced := c.inputProduced + [input]);
    assert Failed(c1, cause) == Failed(c, cause).(inputProduced := c1.inputProduced);
  }

  /** The item went out. */
  lemma InputSentOk(c: CallState, frames: seq<Frame>, input: Payload, pump: Pump)
    requires CallOk(c, frames) && Live(c) && c.pump.PullingInput?
    requires pump == AwaitingDrain(None) || pump == PullingInput
    ensures CallOk(c.(inputProduced := c.inputProduced + [input], pump := pump), frames + [InItem(c.id, input)])
  {
    LegalSnoc(frames, InItem(c.id, input));
    assert InItems(frames + [InItem(c.id, input)]) == c.inputProduced + [input];
  }

  /** The item could not go out, and the call is over. */
  lemma InputUnsentOk(c: CallState, frames: seq<Frame>, input: Payload, net: Net)
    requires CallOk(c, frames) && Live(c) && c.pump.PullingInput? && !(net.open && net.first.Sent?)
    ensures var e := SendInput(c.(inputProduced := c.inputProduced + [input]), input, net);
            CallOk(e.call, frames + e.sent) && !Live(e.call)
  {
    assert frames + [] == frames;
    var c1 := c.(inputProduced := c.inputProduced + [input]);
    var cause := BySend(if net.open then RefusalOf(net.first) else Closed);
    UnsentOk(c, frames, input, cause);
    UnsentOk(c, frames, input, ByClose);
    if net.open && !net.first.Thrown? {
      CancelSentOk(c, frames, Failed(c1, cause).(pump := PumpStopped), net.open, net.second);
    }
  }

  lemma SendInputOk(c: CallState, frames: seq<Frame>, input: Payload, net: Net)
    requires CallOk(c, frames) && Live(c) && c.pump.PullingInput?
    ensures EffectOk(c, frames, SendInput(c.(inputProduced := c.inputProduced + [input]), input, net), net.open)
  {
    if net.open && net.first.Sent? {
      InputSentOk(c, frames, input, if net.first.above then AwaitingDrain(None) else PullingInput);
    } else {
      InputUnsentOk(c, frames, input, net);
    }
  }

  lemma EndInputOk(c: CallState, frames: seq<Frame>, net: Net)
    requires CallOk(c, frames) && Live(c) && c.pump.PullingInput?
    ensures EffectOk(c, frames, OnInput(c, InEnds, net), net.open)
  {
    var c1 := c.(inputEnded := true, sendingInput := false, pump := PumpStopped);
    InputEndedOk(c, frames);
    if net.open && net.first.Sent? {
      LegalSnoc(frames, InDone(c.id));
      assert CallOk(c1, frames + [InDone(c.id)]);
    } else {
      assert frames + [] == frames;
    }
  }

  lemma InputEndedOk(c: CallState, frames: seq<Frame>)
    requires CallOk(c, frames) && Live(c) && c.pump.PullingInput?
    ensures CallOk(c.(inputEnded := true, sendingInput := false, pump := PumpStopped), frames)
  {
  }

  lemma InputOk(c: CallState, frames: seq<Frame>, next: InputNext, net: Net)
    requires CallOk(c, frames)
    ensures EffectOk(c, frames, OnInput(c, next, net), net.open)
  {
    if !c.pump.PullingInput? {
      QuietOk(c, frames, c, net.open);
    } else if next.InThrows? {
      FailAndCancelOk(c, frames, ByPump, net.open, net.first);
      StopPumpOk(c, frames, FailAndCancel(c, ByPump, net.open, net.first), net.open);
    } else if !Live(c) {
      QuietOk(c, frames, OnInput(c, next, net).call, net.open);
    } else if next.InEnds? {
      EndInputOk(c, frames, net);
    } else {
      SendInputOk(c, frames, next.input, net);
    }
  }

  lemma DrainSettledOk(c: CallState, frames: seq<Frame>, outcome: DrainOutcome)
    requires CallOk(c, frames)
    ensures CallOk(OnDrainSettled(c, outcome), frames) && (Live(OnDrainSettled(c, outcome)) <==> Live(c))
  {
  }

  lemma DrainResumedOk(c: CallState, frames: seq<Frame>, net: Net)
    requires CallOk(c, frames)
    ensures EffectOk(c, frames, OnDrainResumed(c, net), net.open)
  {
    var e := OnDrainResumed(c, net);
    if c.pump == AwaitingDrain(Some(TimedOut)) {
      TimedOutOk(c, frames, net);
      assert e == StopPump(FailAndCancel(c, ByPump, net.open, net.first));
    } else {
      DrainContinuesOk(c, frames);
      var c1 := DrainContinued(c);
      assert e == Quiet(c1) && c1.mode == c.mode;
      QuietOk(c, frames, c1, net.open);
    }
  }

  lemma TimedOutOk(c: CallState, frames: seq<Frame>, net: Net)
    requires CallOk(c, frames) && c.pump == AwaitingDrain(Some(TimedOut))
    ensures EffectOk(c, frames, StopPump(FailAndCancel(c, ByPump, net.open, net.first)), net.open)
  {
    FailAndCancelOk(c, frames, ByPump, net.open, net.first);
    StopPumpOk(c, frames, FailAndCancel(c, ByPump, net.open, net.first), net.open);
  }

  lemma DrainContinuesOk(c: CallState, frames: seq<Frame>)
    requires CallOk(c, frames)
    ensures CallOk(DrainContinued(c), frames)
  {
  }

  // ---- The output iterator ----

  /** What each step does to the output queue. */
  lemma CloseOutputOk(c: CallState, closing: Q.Closing)
    requires !closing.Open? && (c.output.Some? ==> Q.Good(c.output.value))
    ensures var r := CloseOutput(c, closing);
            r.output.Some? ==> Q.Good(r.output.value) && !r.output.value.closing.Open?
    ensures c.output.Some? && c.output.value.closing.Open? ==> CloseOutput(c, closing).output.value.closing == closing
  {
    if c.output.Some? {
      Q.CloseKeeps(c.output.value, closing);
    }
  }

  lemma FailedOutputOk(c: CallState, cause: Cause)
    requires OutputOk(c) && Live(c) && (c.mode.PendingFirst? ==> c.output.None?)
    ensures OutputOk(Failed(c, cause))
  {
    CloseOutputOk(Finish(c, cause), Q.Failed(ErrorOf(cause)));
  }

  lemma FirstItemOk(mark: Option<nat>, output: Payload, size: nat)
    ensures var q := Q.Pushed(Q.Fresh<Payload>(mark), output, size); Q.Good(q) && q.closing.Open?
  {
    Q.FreshIsGood<Payload>(mark);
    Q.PushKeeps(Q.Fresh<Payload>(mark), output, size);
    Q.Buffered(Q.Fresh<Payload>(mark), output, size);
  }

  lemma OnlyDoneOk(mark: Option<nat>)
    ensures var q := Q.ClosedWith(Q.Fresh<Payload>(mark), Q.Ended); Q.Good(q) && q.closing.Ended?
  {
    Q.FreshIsGood<Payload>(mark);
    Q.CloseKeeps(Q.Fresh<Payload>(mark), Q.Ended);
    Q.ClosedIs(Q.Fresh<Payload>(mark), Q.Ended);
  }

  lemma FirstFrameOutputOk(c: CallState, frame: Frame, size: nat, mark: Option<nat>)
    requires c.mode.PendingFirst? && c.output.None?
    ensures OutputOk(OnFirstFrame(c, frame, size, mark).call)
  {
    if frame.Item? {
      FirstItemOk(mark, frame.output, size);
    } else if frame.Done? {
      OnlyDoneOk(mark);
    }
  }

  lemma StreamFrameOutputOk(c: CallState, frame: Frame, size: nat)
    requires OutputOk(c) && c.mode.StreamingOut?
    ensures OutputOk(OnStreamFrame(c, frame, size).call)
  {
    if c.output.Some? {
      if frame.Item? {
        Q.PushKeeps(c.output.value, frame.output, size);
      } else if frame.Done? {
        CloseOutputOk(Finish(c, ByDone), Q.Ended);
      } else if frame.ResultErr? {
        FailedOutputOk(c, ByServerError(frame.error));
      }
    }
  }

  lemma FrameOutputOk(c: CallState, frame: Frame, size: nat, mark: Option<nat>)
    requires OutputOk(c) && (c.mode.PendingFirst? ==> c.output.None?)
    ensures OutputOk(OnFrame(c, frame, size, mark).call)
  {
    match c.mode
    case PendingFirst => FirstFrameOutputOk(c, frame, size, mark);
    case StreamingOut => StreamFrameOutputOk(c, frame, size);
    case Over =>
  }

  lemma ConsumerNextOutputOk(c: CallState)
    requires OutputOk(c)
    ensures OutputOk(OnConsumerNext(c))
  {
    if c.output.Some? {
      Q.NextKeeps(c.output.value);
      assert Q.Pulled(c.output.value).closing == c.output.value.closing;
    }
  }

  lemma ConsumerStopOutputOk(c: CallState, clean: bool, net: Net)
    requires OutputOk(c)
    ensures OutputOk(OnConsumerStop(c, clean, net).call)
  {
    CloseOutputOk(Finish(c, if clean then ByReturn else ByThrow), if clean then Q.Ended else Q.Failed(None));
  }

  lemma FailAndCancelOutputOk(c: CallState, cause: Cause, open: bool, fate: S.Fate)
    requires OutputOk(c) && (c.mode.PendingFirst? ==> c.output.None?)
    ensures OutputOk(FailAndCancel(c, cause, open, fate).call)
  {
    if Live(c) {
      FailedOutputOk(c, cause);
    }
  }

  /** The rest of a call does not matter to its output. */
  lemma SameOutputOk(c: CallState, r: CallState)
    requires OutputOk(c) && r.output == c.output && r.cause == c.cause && (Live(r) <==> Live(c))
    ensures OutputOk(r)
  {
  }

  lemma SendInputOutputOk(c: CallState, input: Payload, net: Net)
    requires OutputOk(c) && Live(c) && (c.mode.PendingFirst? ==> c.output.None?)
    ensures OutputOk(SendInput(c, input, net).call)
  {
    var r := SendInput(c, input, net).call;
    var cause := BySend(if net.open then RefusalOf(net.first) else Closed);
    if !net.open {
      FailedOutputOk(c, cause);
      SameOutputOk(Failed(c, cause), r);
    } else if net.first.Sent? {
      SameOutputOk(c, r);
    } else if net.first.Thrown? {
      FailedOutputOk(c, ByClose);
      SameOutputOk(Failed(c, ByClose), r);
    } else {
      FailAndCancelOutputOk(c, cause, net.open, net.second);
      SameOutputOk(FailAndCancel(c, cause, net.open, net.second).call, r);
    }
  }

  lemma PumpOutputOk(c: CallState, next: InputNext, net: Net)
    requires OutputOk(c) && (c.mode.PendingFirst? ==> c.output.None?)
    ensures OutputOk(OnInput(c, next, net).call)
  {
    var r := OnInput(c, next, net).call;
    if c.pump.PullingInput? && next.InThrows? {
      FailAndCancelOutputOk(c, ByPump, net.open, net.first);
      SameOutputOk(FailAndCancel(c, ByPump, net.open, net.first).call, r);
    } else if c.pump.PullingInput? && next.InYields? && c.sendingInput && Live(c) {
      SendInputOutputOk(c.(inputProduced := c.inputProduced + [next.input]), next.input, net);
    } else {
      SameOutputOk(c, r);
    }
  }

  lemma AbortOutputOk(c: CallState, net: Net)
    requires OutputOk(c) && (c.mode.PendingFirst? ==> c.output.None?)
    ensures OutputOk(OnAbort(c, net).call)
  {
    FailAndCancelOutputOk(c, ByAbort, net.open, net.first);
  }

  lemma DrainOutputOk(c: CallState, net: Net)
    requires OutputOk(c) && (c.mode.PendingFirst? ==> c.output.None?)
    ensures OutputOk(OnDrainResumed(c, net).call)
  {
    var r := OnDrainResumed(c, net).call;
    if c.pump == AwaitingDrain(Some(TimedOut)) {
      FailAndCancelOutputOk(c, ByPump, net.open, net.first);
      SameOutputOk(FailAndCancel(c, ByPump, net.open, net.first).call, r);
    } else {
      SameOutputOk(c, r);
    }
  }

  // ---- What each event comes to ----

  /** One frame is handed to the session, if it is open; only a duplex that throws closes it. */
  predicate Hands(e: Effect, frame: Frame, open: bool, fate: S.Fate) {
    && e.sent == (if open && fate.Sent? then [frame] else [])
    && (e.close <==> open && fate.Thrown?)
  }

  predicate Silent(e: Effect) {
    e.sent == [] && !e.settle && !e.close
  }

  /** The call ends in failure: its promise is rejected, or its iterator fails after it was resolved. */
  predicate EndsWith(c: CallState, e: Effect, cause: Cause, error: Option<WireError>) {
    && e.settle && e.call.mode.Over? && e.call.cause == Some(cause)
    && (c.mode.PendingFirst? ==> e.call.settlements == c.settlements + [Failure(error)])
    && (c.mode.StreamingOut? ==>
          && e.call.settlements == c.settlements
          && (c.output.Some? && c.output.value.closing.Open? ==>
                e.call.output.Some? && e.call.output.value.closing == Q.Failed(error)))
  }

  /** A call whose frame went out waits for its answer and pulls its input; one that is aborted already is cancelled. */
  lemma OpenIsSent(id: string, request: Request, signal: bool, aborted: bool, net: Net)
    requires net.open && net.first.Sent?
    ensures var c := Fresh(id, request);
            var e := Open(c, signal, aborted, net);
            && e.sent != [] && e.sent[0].id == id && Asks(e.sent[0], request)
            && (signal && aborted ==>
                  && EndsWith(c, e, ByAbort, None)
                  && Hands(e.(sent := e.sent[1..]), FrameCodec.Frame.Cancel(id), true, net.second))
            && (!(signal && aborted) ==>
                  && |e.sent| == 1 && !e.settle && !e.close && e.call.mode.PendingFirst? && e.call.settlements == []
                  && e.call.abortArmed == signal
                  && e.call.pump == (if request.streaming then PullingInput else NoPump))
  {
  }

  /** One whose `call` frame could not go out fails with the error that says why, and sends nothing. */
  lemma OpenIsRefused(id: string, request: Request, signal: bool, aborted: bool, net: Net)
    requires !(net.open && net.first.Sent?)
    ensures var c := Fresh(id, request);
            var e := Open(c, signal, aborted, net);
            && e.sent == [] && (e.close <==> net.open && net.first.Thrown?)
            && (!net.open ==> EndsWith(c, e, BySend(Closed), None))
            && (net.open && net.first.Thrown? ==> EndsWith(c, e, ByClose, None))
            && (net.open && net.first.TooLarge? ==>
                  EndsWith(c, e, BySend(Oversize), Some(WireError("PAYLOAD_TOO_LARGE", "Frame too large", None))))
            && (net.open && net.first.Unserializable? ==>
                  EndsWith(c, e, BySend(Stringify), Some(WireError("INTERNAL", "Internal server error", None))))
  {
  }

  /** The first frame decides what the promise comes to. */
  lemma FirstFrameDecides(c: CallState, frame: Frame, size: nat, mark: Option<nat>)
    requires c.mode.PendingFirst? && c.output.None? && c.settlements == []
    ensures var e := OnFrame(c, frame, size, mark);
            && e.sent == [] && !e.close && (e.settle <==> e.call.mode.Over?)
            && (frame.ResultOk? ==> e.settle && e.call.settlements == [Value(frame.output)])
            && (frame.ResultErr? ==> EndsWith(c, e, ByServerError(frame.error), Some(frame.error)))
            && (frame.Item? || frame.Done? ==>
                  && e.call.settlements == [Stream] && e.call.output.Some? && e.call.output.value.mark == mark
                  && (frame.Item? ==>
                        && e.call.mode.StreamingOut? && e.call.output.value.closing.Open?
                        && e.call.output.value.pushed == [frame.output])
                  && (frame.Done? ==>
                        e.settle && e.call.output.value.pushed == [] && e.call.output.value.closing == Q.Ended))
            && (!frame.ResultOk? && !frame.ResultErr? && !frame.Item? && !frame.Done? ==> EndsWith(c, e, ByInvalid, None))
  {
  }

  /** Every later frame goes to the iterator: an item is added, `done` ends it, an error fails it, and nothing else counts. */
  lemma LaterFramesStream(c: CallState, frame: Frame, size: nat, mark: Option<nat>)
    requires c.mode.StreamingOut? && c.output.Some? && c.output.value.closing.Open?
    ensures var e := OnFrame(c, frame, size, mark);
            && e.sent == [] && !e.close && (e.settle <==> e.call.mode.Over?) && e.call.settlements == c.settlements
            && e.call.output.Some?
            && (frame.Item? ==>
                  && !e.settle && e.call.output.value.closing.Open?
                  && e.call.output.value.pushed == c.output.value.pushed + [frame.output])
            && (frame.Done? ==>
                  e.settle && e.call.output.value.pushed == c.output.value.pushed && e.call.output.value.closing == Q.Ended)
            && (frame.ResultErr? ==> EndsWith(c, e, ByServerError(frame.error), Some(frame.error)))
            && (!frame.Item? && !frame.Done? && !frame.ResultErr? ==> e == Quiet(c))
  {
  }

  /** An abort of a call that is not over fails it and cancels it at the server. */
  lemma AbortCancels(c: CallState, net: Net)
    requires Live(c)
    ensures var e := OnAbort(c, net);
            if c.abortArmed then EndsWith(c, e, ByAbort, None) && Hands(e, FrameCodec.Frame.Cancel(c.id), net.open, net.first)
            else e == Quiet(c)
  {
  }

  /** A consumer that stops early ends its iterator and cancels the call at the server. */
  lemma ConsumerCancels(c: CallState, clean: bool, net: Net)
    requires Live(c) && c.output.Some? && c.output.value.closing.Open?
    ensures var e := OnConsumerStop(c, clean, net);
            && e.settle && e.call.mode.Over? && e.call.settlements == c.settlements && e.call.output.Some?
            && e.call.output.value.closing == (if clean then Q.Ended else Q.Failed(None))
            && e.call.cause == Some(if clean then ByReturn else ByThrow)
            && Hands(e, FrameCodec.Frame.Cancel(c.id), net.open, net.first)
  {
  }

  /** A consumer that asks for its next item has asked once more. */
  lemma ConsumerAsks(c: CallState)
    requires c.output.Some? && Q.Good(c.output.value)
    ensures var r := OnConsumerNext(c);
            && r.output.Some? && r.(output := c.output) == c
            && Q.Asked(r.output.value) == Q.Asked(c.output.value) + 1
  {
    Q.ApplyAsks(c.output.value, Q.DoNext);
  }

  /** What the input yields goes out, and it is asked for more at once, or after a drain if the duplex asked for it. */
  lemma InputIsTried(c: CallState, input: Payload, net: Net)
    requires c.pump.PullingInput? && c.sendingInput && Live(c)
    ensures OnInput(c, InYields(input), net) == SendInput(c.(inputProduced := c.inputProduced + [input]), input, net)
  {
  }

  lemma InputIsSent(c: CallState, input: Payload, net: Net)
    requires c.pump.PullingInput? && c.sendingInput && Live(c) && net.open && net.first.Sent?
    ensures var e := OnInput(c, InYields(input), net);
            && e.sent == [InItem(c.id, input)] && !e.settle && !e.close
            && e.call == c.(inputProduced := c.inputProduced + [input],
                            pump := if net.first.above then AwaitingDrain(None) else PullingInput)
  {
  }

  /** An input item that cannot go out fails the call, and cancels it at the server unless the connection is gone. */
  lemma InputIsRefused(c: CallState, input: Payload, net: Net)
    requires Live(c) && !(net.open && net.first.Sent?)
    ensures var e := SendInput(c, input, net);
            && e.call.inputProduced == c.inputProduced && e.call.pump.PumpStopped?
            && (!net.open ==> e.sent == [] && !e.close && EndsWith(c, e, BySend(Closed), None))
            && (net.open && net.first.Thrown? ==> e.sent == [] && e.close && EndsWith(c, e, ByClose, None))
            && (net.open && net.first.TooLarge? ==> EndsWith(c, e, BySend(Oversize), Some(FRAME_TOO_LARGE)))
            && (net.open && net.first.Unserializable? ==> EndsWith(c, e, BySend(Stringify), Some(INTERNAL)))
            && (net.open && !net.first.Thrown? ==> Hands(e, FrameCodec.Frame.Cancel(c.id), true, net.second))
  {
  }

  /** An input that ends is followed by `in-done`; one that throws fails the call and cancels it at the server. */
  lemma InputIsOver(c: CallState, next: InputNext, net: Net)
    requires c.pump.PullingInput? && c.sendingInput && Live(c) && !next.InYields?
    ensures var e := OnInput(c, next, net);
            && e.call.pump.PumpStopped? && !e.call.sendingInput
            && (next.InEnds? ==>
                  && Live(e.call) && !e.settle && e.call.inputEnded && e.call.settlements == c.settlements
                  && Hands(e, InDone(c.id), net.open, net.first))
            && (next.InThrows? ==>
                  && EndsWith(c, e, ByPump, None) && e.call.inputEnded == c.inputEnded
                  && Hands(e, FrameCodec.Frame.Cancel(c.id), net.open, net.first))
  {
  }

  /** What the iterator does after the call is over is dropped. */
  lemma LateInputIsDropped(c: CallState, next: InputNext, net: Net)
    requires c.pump.PullingInput? && !Live(c)
    ensures var e := OnInput(c, next, net);
            && Silent(e) && e.call.pump.PumpStopped?
            && e.call.inputProduced == (if next.InYields? then c.inputProduced + [next.input] else c.inputProduced)
            && e.call.settlements == c.settlements && e.call.cause == c.cause && e.call.output == c.output
  {
  }

  /** A drained pump asks its iterator for more; one whose server did not drain fails the call and cancels it. */
  lemma PumpDrainIsOver(c: CallState, outcome: DrainOutcome, net: Net)
    requires c.pump == AwaitingDrain(Some(outcome))
    ensures var e := OnDrainResumed(c, net);
            && (outcome.Drained? ==> Silent(e) && e.call == c.(pump := if c.sendingInput then PullingInput else PumpStopped))
            && (outcome.Cancelled? ==> Silent(e) && e.call == c.(pump := PumpStopped))
            && (outcome.TimedOut? && Live(c) ==>
                  && e.call.pump.PumpStopped? && EndsWith(c, e, ByPump, None)
                  && Hands(e, FrameCodec.Frame.Cancel(c.id), net.open, net.first))
            && (outcome.TimedOut? && !Live(c) ==> Silent(e) && e.call == c.(pump := PumpStopped))
  {
  }

  lemma PumpDrainIsHeard(c: CallState, outcome: DrainOutcome)
    ensures OnDrainSettled(c, outcome)
         == if c.pump == AwaitingDrain(None) && outcome in {Drained, TimedOut} then c.(pump := AwaitingDrain(Some(outcome))) else c
  {
  }

  /** A call takes no notice of what it does not wait for, nor of frames once it is over. */
  lemma OnlyItsOwnWait(c: CallState, next: InputNext, frame: Frame, size: nat, mark: Option<nat>, net: Net)
    ensures !c.pump.PullingInput? ==> OnInput(c, next, net) == Quiet(c)
    ensures !c.pump.AwaitingDrain? || c.pump.outcome.None? ==> OnDrainResumed(c, net) == Quiet(c)
    ensures !Live(c) ==> OnFrame(c, frame, size, mark) == Quiet(c) && forall clean :: OnConsumerStop(c, clean, net) == Quiet(c)
  {
  }

  /** The end of a call stops its input: the iterator is returned, and a wait for a drain is over. */
  lemma EndStopsInput(c: CallState, cause: Cause)
    requires Live(c)
    ensures var r := Failed(c, cause);
            && !r.sendingInput && !r.abortArmed
            && r.inputReturned == (if c.pump != NoPump then c.inputReturned + 1 else c.inputReturned)
            && r.pump == (if c.pump == AwaitingDrain(None) then AwaitingDrain(Some(Cancelled)) else c.pump)
  {
  }
}
