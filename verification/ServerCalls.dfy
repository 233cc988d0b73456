/**
 * One id on the server side, between two awaits.
 *
 * A call waits in one `Phase` at a time: for its handler, for the handler's
 * next item, for the duplex to drain, or for an error to be reported. Each
 * function below is what the call does when that wait is over, as an `Effect`
 * on its connection.
 */
module ServerCalls {
  import opened Basics
  import opened FrameCodec
  import S = Sessions
  import Q = PushQueues

  /** What a handler may throw. */
  datatype Throw = ProtocolError(error: WireError) | AbortError | OtherError

  datatype Phase =
    | Dispatching
    | Pulling
    | Draining(outcome: Option<DrainOutcome>)
    | Reporting(error: WireError)
    | Finished

  /** How a handler came to its end; `Stalled` is the call that gave up on a peer that did not drain. */
  datatype Ending = Returned(output: Payload) | Threw(thrown: Throw) | RanOut | Offered(shape: Shape) | Stalled

  /** What an iterator yields: a value, or what an item cannot be. */
  datatype Shape = Plain | Iterable | Binary

  /**
   * `path` and `argument` are what the handler is called with; one that streams its
   * input gets `input` in place of an argument. `aborted` is the signal it sees, and
   * `iterating` says that its output iterator is still held. The last six fields are
   * observations: whether that iterator was taken, what it yielded, whether it ended
   * by itself, how often its `return` was called, how the handler ended, and what
   * became of a frame that could not go out.
   */
  datatype CallState = CallState(
    id: string,
    path: seq<string>,
    argument: Payload,
    phase: Phase,
    cancelled: bool,
    aborted: bool,
    iterating: bool,
    input: Option<Q.Queue<Payload>>,
    streamed: bool,
    produced: seq<Payload>,
    exhausted: bool,
    returned: nat,
    ending: Option<Ending>,
    lost: Option<S.Fate>)

  datatype Dispatched = Returns(output: Payload) | Streams | DispatchThrows(thrown: Throw)

  datatype Next = Yields(output: Payload, shape: Shape) | Ends | NextThrows(thrown: Throw)

  /** The connection as a call finds it: open or not, what sends come to, and whether errors are reported. */
  datatype Net = Net(open: bool, first: S.Fate, second: S.Fate, reports: bool)

  /**
   * A send: the frame that went out, whether the id is settled, whether the session
   * must close, whether to wait for a drain, and what became of a frame that was lost.
   */
  datatype Attempt = Attempt(sent: seq<Frame>, settle: bool, close: bool, above: Option<bool>, lost: Option<S.Fate>)

  datatype Effect = Effect(call: CallState, sent: seq<Frame>, settle: bool, close: bool)

  const INTERNAL := WireError("INTERNAL", "Internal server error", None)
  const FRAME_TOO_LARGE := WireError("PAYLOAD_TOO_LARGE", "Frame too large", None)
  const NOT_DRAINED := WireError("INTERNAL", "Peer did not drain", None)
  const NESTED := WireError("BAD_REQUEST", "Nested streams are not supported", None)
  const FILE_ITEM := WireError("BAD_REQUEST", "File values are not supported in streams", None)

  /** The instance that a `call` frame starts. */
  function Fresh(call: Frame, mark: Option<nat>): CallState
    requires call.Call?
  {
    CallState(call.id, call.path, Argument(call), Dispatching, false, false, false,
              if call.stream then Some(Q.Fresh(mark)) else None, false, [], false, 0, None, None)
  }

  /** A `null` input reaches the handler as `undefined`. */
  function Argument(call: Frame): Payload
    requires call.Call?
  {
    if call.stream || call.input == Some(Null) then None else call.input
  }

  function ToWire(thrown: Throw): WireError {
    if thrown.ProtocolError? then thrown.error else INTERNAL
  }

  /** What an item cannot be is thrown at the call as a protocol error. */
  function NotAnItem(shape: Shape): Throw {
    ProtocolError(if shape.Iterable? then NESTED else FILE_ITEM)
  }

  predicate Terminal(frame: Frame) {
    frame.ResultOk? || frame.ResultErr? || frame.Done?
  }

  // ---- Sending ----

  function SendResultErr(id: string, error: WireError, open: bool, fate: S.Fate): Attempt {
    if !open then Attempt([], false, false, None, None)
    else if fate.Sent? then Attempt([ResultErr(id, error)], true, false, None, None)
    else Attempt([], false, true, None, None)
  }

  /** The one send site: a frame that cannot go out is replaced by an error result. */
  function SendOutbound(c: CallState, frame: Frame, net: Net): Attempt {
    if c.cancelled || !net.open then Attempt([], false, false, None, None)
    else
      match net.first
      case Sent(above) => Attempt([frame], Terminal(frame), false, Some(above), None)
      case Thrown => Attempt([], false, true, None, Some(net.first))
      case TooLarge => SendResultErr(c.id, FRAME_TOO_LARGE, net.open, net.second).(lost := Some(net.first))
      case Unserializable => SendResultErr(c.id, INTERNAL, net.open, net.second).(lost := Some(net.first))
  }

  function After(c: CallState, a: Attempt): Effect {
    Effect(c.(lost := a.lost), a.sent, a.settle, a.close)
  }

  function Quiet(c: CallState): Effect {
    Effect(c, [], false, false)
  }

  function CloseIterator(c: CallState): CallState {
    c.(iterating := false, returned := if c.iterating then c.returned + 1 else c.returned)
  }

  function EndInput(c: CallState): CallState {
    if c.input.None? then c else c.(input := Some(Q.ClosedWith(c.input.value, Q.Ended)))
  }

  /** A `cancel` frame, or the connection closing. */
  function CancelCall(c: CallState): CallState {
    var phase := if c.phase == Draining(None) then Draining(Some(Cancelled)) else c.phase;
    CloseIterator(EndInput(c.(cancelled := true, aborted := true, phase := phase)))
  }

  function EmitLast(c: CallState, frame: Frame, net: Net): Effect {
    After(c.(phase := Finished), SendOutbound(c, frame, net))
  }

  /** Report an error unless it is the protocol's own, then answer with it. */
  function Fail(c: CallState, thrown: Throw, net: Net): Effect {
    if c.cancelled then
      Quiet(c.(phase := if thrown.OtherError? && net.reports then Reporting(ToWire(thrown)) else Finished))
    else if !thrown.ProtocolError? && net.reports then Quiet(c.(phase := Reporting(ToWire(thrown))))
    else EmitLast(c, ResultErr(c.id, ToWire(thrown)), net)
  }

  // ---- When a wait is over ----

  function OnDispatched(c: CallState, result: Dispatched, net: Net): Effect {
    if !c.phase.Dispatching? then Quiet(c)
    else
      match result
      case DispatchThrows(thrown) => Fail(c.(ending := Some(Threw(thrown))), thrown, net)
      case Returns(output) =>
        var c1 := c.(ending := Some(Returned(output)));
        if c.cancelled then Quiet(c1.(phase := Finished)) else EmitLast(c1, ResultOk(c.id, output), net)
      case Streams =>
        if c.cancelled then Quiet(c.(phase := Finished)) else Quiet(c.(phase := Pulling, iterating := true, streamed := true))
  }

  function OnNext(c: CallState, next: Next, net: Net): Effect {
    if !c.phase.Pulling? then Quiet(c)
    else
      match next
      case NextThrows(thrown) => FailStream(c, Threw(thrown), thrown, net)
      case Ends => OnIteratorEnd(c, net)
      case Yields(output, shape) => OnItem(c.(produced := c.produced + [output]), output, shape, net)
  }

  /** A throw in the loop over the iterator gives the iterator up first. */
  function FailStream(c: CallState, how: Ending, thrown: Throw, net: Net): Effect {
    Fail(CloseIterator(c.(ending := Some(how))), thrown, net)
  }

  function OnIteratorEnd(c: CallState, net: Net): Effect {
    var c1 := c.(exhausted := true, ending := Some(RanOut));
    if c.cancelled then Quiet(c1.(phase := Finished)) else EmitLast(c1, Done(c.id), net)
  }

  function OnItem(c: CallState, output: Payload, shape: Shape, net: Net): Effect {
    if c.cancelled then Quiet(c.(phase := Finished))
    else if shape.Plain? then EmitItem(c, output, net)
    else FailStream(c, Offered(shape), NotAnItem(shape), net)
  }

  function EmitItem(c: CallState, output: Payload, net: Net): Effect {
    AfterItem(c, SendOutbound(c, Item(c.id, output), net))
  }

  function AfterItem(c: CallState, a: Attempt): Effect {
    match a.above
    case None => After(CloseIterator(c).(phase := Finished), a)
    case Some(above) => After(c.(phase := if above then Draining(None) else Pulling), a)
  }

  /** The drain promise settled, or the drain timer fired. */
  function OnDrainSettled(c: CallState, outcome: DrainOutcome): CallState {
    if c.phase == Draining(None) && !outcome.Cancelled? then c.(phase := Draining(Some(outcome))) else c
  }

  function OnDrainResumed(c: CallState, net: Net): Effect {
    if !c.phase.Draining? || c.phase.outcome.None? then Quiet(c)
    else if c.cancelled || c.phase.outcome.value.Cancelled? then Quiet(c.(phase := Finished))
    else if c.phase.outcome.value.Drained? then Quiet(c.(phase := Pulling))
    else AbortStalled(c, net)
  }

  /** The peer did not drain in time. */
  function AbortStalled(c: CallState, net: Net): Effect {
    After(GivenUp(c), SendResultErr(c.id, NOT_DRAINED, net.open, net.first))
  }

  function GivenUp(c: CallState): CallState {
    CloseIterator(EndInput(c.(cancelled := true, aborted := true, phase := Finished, ending := Some(Stalled))))
  }

  function OnReported(c: CallState, net: Net): Effect {
    if !c.phase.Reporting? then Quiet(c)
    else if c.cancelled then Quiet(c.(phase := Finished))
    else EmitLast(c, ResultErr(c.id, c.phase.error), net)
  }

  /** `in-item` / `in-done`; a call without an input stream ignores them. */
  function PushInput(c: CallState, frame: Frame, size: nat): CallState
    requires frame.InItem? || frame.InDone?
  {
    if c.input.None? then c
    else if frame.InDone? then EndInput(c)
    else c.(input := Some(Q.Pushed(c.input.value, frame.input, size)))
  }

  function PullInput(c: CallState): CallState {
    if c.input.None? then c else c.(input := Some(Q.Pulled(c.input.value)))
  }

  // ---- What a call keeps ----

  /** May still send. */
  predicate Live(c: CallState) {
    !c.cancelled && !c.phase.Finished?
  }

  predicate Paused(c: CallState) {
    c.input.Some? && c.input.value.paused
  }

  function Items(frames: seq<Frame>): seq<Payload> {
    if frames == [] then []
    else
      var last := frames[|frames| - 1];
      Items(frames[..|frames| - 1]) + (if last.Item? then [last.output] else [])
  }

  lemma ItemsSnoc(frames: seq<Frame>, last: Frame)
    ensures Items(frames + [last]) == Items(frames) + (if last.Item? then [last.output] else [])
  {
    assert (frames + [last])[..|frames|] == frames;
  }

  /** `item* (result | done)?`, and a successful result only on its own. */
  predicate Legal(frames: seq<Frame>) {
    && (forall i :: 0 <= i < |frames| - 1 ==> frames[i].Item?)
    && (forall i :: 0 <= i < |frames| ==> frames[i].Item? || Terminal(frames[i]))
    && (forall i :: 0 <= i < |frames| && frames[i].ResultOk? ==> |frames| == 1)
  }

  /** Why a call sent its last frame: what its handler did, or what became of the frame that should have gone out. */
  predicate Explains(c: CallState, frame: Frame) {
    if frame.ResultOk? then c.lost.None? && c.ending == Some(Returned(frame.output))
    else if frame.Done? then c.lost.None? && c.ending == Some(RanOut)
    else if frame.ResultErr? then frame.error == AnswerTo(c.ending, c.lost)
    else false
  }

  /** The error that tells the caller how its call ended. */
  function AnswerTo(ending: Option<Ending>, lost: Option<S.Fate>): WireError {
    match lost
    case Some(fate) =>
      if fate.TooLarge? then WireError("PAYLOAD_TOO_LARGE", "Frame too large", None)
      else WireError("INTERNAL", "Internal server error", None)
    case None =>
      match ending
      case Some(Threw(ProtocolError(error))) => error
      case Some(Offered(Iterable)) => WireError("BAD_REQUEST", "Nested streams are not supported", None)
      case Some(Offered(Binary)) => WireError("BAD_REQUEST", "File values are not supported in streams", None)
      case Some(Stalled) => WireError("INTERNAL", "Peer did not drain", None)
      case _ => WireError("INTERNAL", "Internal server error", None)
  }

  predicate AllItems(frames: seq<Frame>) {
    forall i :: 0 <= i < |frames| ==> frames[i].Item?
  }

  predicate EndsWithDone(frames: seq<Frame>) {
    frames != [] && frames[|frames| - 1].Done?
  }

  /** A call and the frames it has sent. */
  ghost predicate CallOk(c: CallState, frames: seq<Frame>) {
    // the trace language of the id
    && Legal(frames)
    && (forall i :: 0 <= i < |frames| ==> frames[i].id == c.id)
    && (!c.phase.Finished? ==> AllItems(frames))
    // what went out is a prefix of what the handler produced
    && (Items(frames) <= c.produced)
    && (Live(c) && (c.phase.Pulling? || c.phase.Draining?) ==> Items(frames) == c.produced)
    && (c.phase.Dispatching? ==> frames == [] && c.produced == [] && !c.exhausted && !c.streamed)
    // `done` is sent only when the iterator ended by itself and everything before it went out
    && (EndsWithDone(frames) ==> c.phase.Finished? && c.exhausted && Items(frames) == c.produced)
    && (c.exhausted ==> c.phase.Finished?)
    // an iterator that was taken is held as long as it is needed, and returned once when it no longer is
    && c.returned + (if c.iterating then 1 else 0) == (if c.streamed then 1 else 0)
    && (c.phase.Pulling? || c.phase.Draining? || c.exhausted || c.produced != [] ==> c.streamed)
    && (c.iterating <==> c.streamed && !c.cancelled && (c.phase.Pulling? || c.phase.Draining? || c.exhausted))
    // the handler is told to stop exactly when the call was
    && c.aborted == c.cancelled
    // the drain wait is cancelled only with the call
    && (c.phase == Draining(Some(Cancelled)) ==> c.cancelled)
    // a cancelled call does not wait for a drain
    && (c.phase == Draining(None) ==> !c.cancelled)
    // the last frame says how the call ended
    && (frames != [] && Terminal(frames[|frames| - 1]) ==> Explains(c, frames[|frames| - 1]))
    && (c.phase.Reporting? ==> c.ending.Some? && c.lost.None? && c.phase.error == AnswerTo(c.ending, None))
    && (c.phase.Dispatching? || c.phase.Pulling? || c.phase.Draining? ==> c.ending.None? && c.lost.None?)
  }

  /** A call's input stream. */
  ghost predicate InputOk(c: CallState) {
    c.input.Some? ==> Q.Good(c.input.value) && (c.cancelled ==> !c.input.value.closing.Open?)
  }

  /** What one step of a call does to its connection. */
  ghost predicate EffectOk(c: CallState, frames: seq<Frame>, e: Effect, open: bool) {
    && e.call.id == c.id && e.call.path == c.path && e.call.argument == c.argument
    && e.call.input == (if e.call.cancelled && !c.cancelled then EndInput(c).input else c.input)
    && CallOk(e.call, frames + e.sent)
    && |e.sent| <= 1
    && (e.sent != [] ==> Live(c) && open && !e.close)
    && (c.cancelled ==> e.call.cancelled)
    && (!Live(c) ==> !e.settle && !e.close && !Live(e.call) && e.sent == [])
    // while the session is open the id stays taken exactly as long as the call may send
    && (Live(c) && open && !e.close ==> (Live(e.call) <==> !e.settle))
    && (e.settle ==> e.sent != [] && Terminal(e.sent[0]))
    && (e.close ==> open)
  }

  lemma FreshOk(call: Frame, mark: Option<nat>)
    requires call.Call?
    ensures CallOk(Fresh(call, mark), []) && InputOk(Fresh(call, mark))
  {
  }

  lemma CancelOk(c: CallState, frames: seq<Frame>)
    requires CallOk(c, frames) && InputOk(c)
    ensures CallOk(CancelCall(c), frames) && !Live(CancelCall(c)) && CancelCall(c).id == c.id
    ensures InputOk(CancelCall(c)) && !Paused(CancelCall(c))
  {
    EndInputOk(c);
  }

  lemma EndInputOk(c: CallState)
    requires InputOk(c)
    ensures InputOk(EndInput(c)) && !Paused(EndInput(c))
    ensures c.input.Some? ==> !EndInput(c).input.value.closing.Open?
  {
    if c.input.Some? {
      Q.CloseKeeps(c.input.value, Q.Ended);
    }
  }

  lemma PushPullOk(c: CallState, frame: Frame, size: nat)
    requires InputOk(c) && (frame.InItem? || frame.InDone?)
    ensures InputOk(PushInput(c, frame, size)) && InputOk(PullInput(c))
  {
    if c.input.Some? {
      EndInputOk(c);
      if frame.InItem? {
        Q.PushKeeps(c.input.value, frame.input, size);
      }
      Q.NextKeeps(c.input.value);
    }
  }

  lemma LegalSnoc(frames: seq<Frame>, last: Frame)
    requires AllItems(frames) && (last.Item? || Terminal(last)) && (last.ResultOk? ==> frames == [])
    ensures Legal(frames + [last]) && (last.Item? ==> AllItems(frames + [last]))
    ensures EndsWithDone(frames + [last]) <==> last.Done?
  {
  }

  /** Sending nothing leaves the frames as they are. */
  lemma QuietOk(c: CallState, frames: seq<Frame>, c': CallState, open: bool)
    requires CallOk(c', frames) && c'.id == c.id && c'.input == c.input && (Live(c') <==> Live(c))
    requires c'.cancelled == c.cancelled && c'.path == c.path && c'.argument == c.argument
    ensures EffectOk(c, frames, Quiet(c'), open)
  {
    assert frames + [] == frames;
  }

  /** What a live call's attempt to send `frame` can come to. */
  ghost predicate Shaped(c: CallState, frame: Frame, a: Attempt, open: bool) {
    && |a.sent| <= 1
    && (a.sent != [] ==> open && !a.close && a.sent[0] == if a.lost.None? then frame else ResultErr(c.id, AnswerTo(None, a.lost)))
    && (a.settle <==> a.sent != [] && Terminal(a.sent[0]))
    && (a.close ==> open)
    && (open && !a.close ==> a.sent != [])
    && (a.above.Some? ==> a.sent == [frame] && a.lost.None?)
    && (a.sent != [] && a.lost.None? && a.above.None? ==> frame.ResultErr?)
  }

  /**
   * What becomes of the one send site: nothing goes out once the call is cancelled
   * or the session closed; otherwise the frame itself, in its place the error that
   * says it was too large or could not be serialised, or the session closes. The id
   * is given up only with a terminal frame that went out, and only a frame that went
   * out can ask the call to wait.
   */
  lemma OutboundIs(c: CallState, frame: Frame, net: Net)
    requires frame.Item? || Terminal(frame)
    ensures var a := SendOutbound(c, frame, net);
            && (a.sent == [] && !a.close <==> c.cancelled || !net.open)
            && (a.close <==> !c.cancelled && net.open && (net.first.Thrown? || (!net.first.Sent? && !net.second.Sent?)))
            && (!c.cancelled && net.open && net.first.Sent? ==> a.sent == [frame])
            && (!c.cancelled && net.open && net.first.TooLarge? && net.second.Sent? ==>
                  a.sent == [ResultErr(c.id, WireError("PAYLOAD_TOO_LARGE", "Frame too large", None))])
            && (!c.cancelled && net.open && net.first.Unserializable? && net.second.Sent? ==>
                  a.sent == [ResultErr(c.id, WireError("INTERNAL", "Internal server error", None))])
            && (a.settle <==> a.sent != [] && Terminal(a.sent[0]))
            && (net.first.Sent? && a.sent != [] ==> a.above == Some(net.first.above))
            && (a.above.Some? ==> a.sent == [frame] && net.first == S.Sent(a.above.value))
  {
  }

  /** An error result gives its id up exactly if it goes out, and otherwise closes an open session. */
  lemma ResultErrIs(id: string, error: WireError, open: bool, fate: S.Fate)
    ensures var a := SendResultErr(id, error, open, fate);
            && (a.sent == if open && fate.Sent? then [ResultErr(id, error)] else [])
            && (a.settle <==> a.sent != [])
            && (open <==> a.settle != a.close)
            && (a.close ==> open && a.sent == [])
  {
  }

  lemma OutboundShape(c: CallState, frame: Frame, net: Net)
    requires Live(c)
    ensures Shaped(c, frame, SendOutbound(c, frame, net), net.open)
  {
  }

  lemma ResultErrShape(c: CallState, error: WireError, open: bool, fate: S.Fate)
    ensures Shaped(c, ResultErr(c.id, error), SendResultErr(c.id, error, open, fate), open)
  {
  }

  /** A call that has just finished may have sent one terminal frame. */
  lemma TerminalSentOk(c: CallState, frames: seq<Frame>, last: Frame)
    requires CallOk(c, frames) && AllItems(frames) && c.phase.Finished?
    requires Terminal(last) && last.id == c.id && (last.ResultOk? ==> frames == []) && Explains(c, last)
    requires last.Done? ==> c.exhausted && Items(frames) == c.produced
    ensures CallOk(c, frames + [last])
  {
    var sent := frames + [last];
    LegalSnoc(frames, last);
    ItemsSnoc(frames, last);
    SameItemsOk(c, frames, sent);
  }

  /** What a finished call has sent may have grown by anything but items. */
  lemma SameItemsOk(c: CallState, frames: seq<Frame>, sent: seq<Frame>)
    requires CallOk(c, frames) && c.phase.Finished? && Legal(sent) && Items(sent) == Items(frames)
    requires forall i :: 0 <= i < |sent| ==> sent[i].id == c.id
    requires EndsWithDone(sent) ==> c.exhausted && Items(frames) == c.produced
    requires sent != [] && Terminal(sent[|sent| - 1]) ==> Explains(c, sent[|sent| - 1])
    ensures CallOk(c, sent)
  {
  }

  /** The last attempt of a live call, whatever it comes to. */
  lemma LastAttemptOk(c: CallState, frames: seq<Frame>, c1: CallState, frame: Frame, a: Attempt, open: bool)
    requires CallOk(c, frames) && Live(c) && Shaped(c, frame, a, open)
    requires Terminal(frame) && frame.id == c.id && (frame.ResultOk? ==> frames == [])
    requires CallOk(c1, frames) && c1.phase.Finished? && c1.lost.None? && Explains(c1, frame)
    requires c1.id == c.id && c1.path == c.path && c1.argument == c.argument
    requires c1.input == if c1.cancelled then EndInput(c).input else c.input
    requires frame.Done? ==> c1.exhausted && Items(frames) == c1.produced
    ensures EffectOk(c, frames, After(c1, a), open)
  {
    var c2 := c1.(lost := a.lost);
    assert CallOk(c2, frames);
    if a.sent != [] {
      assert a.sent == [a.sent[0]] && AllItems(frames);
      TerminalSentOk(c2, frames, a.sent[0]);
    } else {
      assert frames + a.sent == frames;
    }
  }

  /** The last frame of a live call, whatever becomes of it. */
  lemma EmitLastOk(c: CallState, frames: seq<Frame>, ending: Option<Ending>, frame: Frame, net: Net)
    requires CallOk(c, frames) && Live(c) && Terminal(frame) && frame.id == c.id && c.lost.None?
    requires frame.ResultOk? ==> c.phase.Dispatching?
    requires !frame.Done? && !c.iterating && Explains(c.(ending := ending), frame)
    ensures EffectOk(c, frames, EmitLast(c.(ending := ending), frame, net), net.open)
  {
    var c1 := c.(ending := ending);
    OutboundShape(c1, frame, net);
    LastAttemptOk(c, frames, c1.(phase := Finished), frame, SendOutbound(c1, frame, net), net.open);
  }

  /** A failure gives up the iterator, if there is one, and reports or answers at most once. */
  lemma FailOk(c: CallState, frames: seq<Frame>, thrown: Throw, net: Net)
    requires CallOk(c, frames) && (c.phase.Dispatching? || c.phase.Pulling?) && !c.exhausted
    ensures EffectOk(c, frames, Fail(CloseIterator(c.(ending := Some(Threw(thrown)))), thrown, net), net.open)
  {
    var c1 := CloseIterator(c.(ending := Some(Threw(thrown))));
    if !c.cancelled && (thrown.ProtocolError? || !net.reports) {
      var error := ResultErr(c.id, ToWire(thrown));
      OutboundShape(c1, error, net);
      LastAttemptOk(c, frames, c1.(phase := Finished), error, SendOutbound(c1, error, net), net.open);
    } else {
      QuietOk(c, frames, Fail(c1, thrown, net).call, net.open);
    }
  }

  lemma DispatchedOk(c: CallState, frames: seq<Frame>, result: Dispatched, net: Net)
    requires CallOk(c, frames)
    ensures EffectOk(c, frames, OnDispatched(c, result, net), net.open)
  {
    if c.phase.Dispatching? && result.DispatchThrows? {
      FailOk(c, frames, result.thrown, net);
    } else if c.phase.Dispatching? && result.Returns? && !c.cancelled {
      EmitLastOk(c, frames, Some(Returned(result.output)), ResultOk(c.id, result.output), net);
    } else {
      QuietOk(c, frames, OnDispatched(c, result, net).call, net.open);
    }
  }

  lemma EmitDoneOk(c: CallState, frames: seq<Frame>, net: Net)
    requires CallOk(c, frames) && Live(c) && c.phase.Pulling?
    ensures EffectOk(c, frames, EmitLast(c.(exhausted := true, ending := Some(RanOut)), Done(c.id), net), net.open)
  {
    var c1 := c.(exhausted := true, ending := Some(RanOut));
    OutboundShape(c1, Done(c.id), net);
    LastAttemptOk(c, frames, c1.(phase := Finished), Done(c.id), SendOutbound(c1, Done(c.id), net), net.open);
  }

  lemma ItemSentOk(c: CallState, frames: seq<Frame>, output: Payload, phase: Phase)
    requires CallOk(c, frames) && Live(c) && c.phase.Pulling?
    requires phase == Pulling || phase == Draining(None)
    ensures CallOk(c.(produced := c.produced + [output], phase := phase), frames + [Item(c.id, output)])
  {
    var item := Item(c.id, output);
    var sent := frames + [item];
    LegalSnoc(frames, item);
    ItemsSnoc(frames, item);
    assert sent[|sent| - 1] == item && !EndsWithDone(sent);
    assert forall i :: 0 <= i < |sent| ==> sent[i].id == c.id;
  }

  lemma ItemRefusedOk(c: CallState, frames: seq<Frame>, output: Payload, a: Attempt, open: bool)
    requires CallOk(c, frames) && Live(c) && c.phase.Pulling?
    requires Shaped(c, Item(c.id, output), a, open) && a.above.None?
    ensures EffectOk(c, frames, AfterItem(c.(produced := c.produced + [output]), a), open)
  {
    var c1 := CloseIterator(c.(produced := c.produced + [output])).(phase := Finished);
    assert Items(frames) <= c1.produced;
    LastAttemptOk(c, frames, c1, ResultErr(c.id, INTERNAL), a, open);
  }

  lemma ItemAttemptOk(c: CallState, frames: seq<Frame>, output: Payload, a: Attempt, open: bool)
    requires CallOk(c, frames) && Live(c) && c.phase.Pulling?
    requires Shaped(c, Item(c.id, output), a, open)
    ensures EffectOk(c, frames, AfterItem(c.(produced := c.produced + [output]), a), open)
  {
    if a.above.Some? {
      ItemSentOk(c, frames, output, if a.above.value then Draining(None) else Pulling);
    } else {
      ItemRefusedOk(c, frames, output, a, open);
    }
  }

  lemma EmitItemOk(c: CallState, frames: seq<Frame>, output: Payload, net: Net)
    requires CallOk(c, frames) && Live(c) && c.phase.Pulling?
    ensures EffectOk(c, frames, EmitItem(c.(produced := c.produced + [output]), output, net), net.open)
  {
    var c1 := c.(produced := c.produced + [output]);
    OutboundShape(c1, Item(c.id, output), net);
    ItemAttemptOk(c, frames, output, SendOutbound(c1, Item(c.id, output), net), net.open);
  }

  /** What the iterator yielded last is a nested stream or a file. */
  lemma YieldRefusedOk(c: CallState, frames: seq<Frame>, output: Payload, shape: Shape, net: Net)
    requires CallOk(c, frames) && Live(c) && c.phase.Pulling? && !shape.Plain?
    ensures var c1 := CloseIterator(c.(produced := c.produced + [output], ending := Some(Offered(shape))));
            EffectOk(c, frames, Fail(c1, NotAnItem(shape), net), net.open)
  {
    var c1 := CloseIterator(c.(produced := c.produced + [output], ending := Some(Offered(shape))));
    var error := ResultErr(c.id, NotAnItem(shape).error);
    OutboundShape(c1, error, net);
    LastAttemptOk(c, frames, c1.(phase := Finished), error, SendOutbound(c1, error, net), net.open);
  }

  lemma NextOk(c: CallState, frames: seq<Frame>, next: Next, net: Net)
    requires CallOk(c, frames)
    ensures EffectOk(c, frames, OnNext(c, next, net), net.open)
  {
    if !c.phase.Pulling? {
      QuietOk(c, frames, c, net.open);
    } else if next.NextThrows? {
      FailOk(c, frames, next.thrown, net);
    } else if c.cancelled {
      QuietOk(c, frames, OnNext(c, next, net).call, net.open);
    } else if next.Ends? {
      EmitDoneOk(c, frames, net);
    } else if next.shape.Plain? {
      EmitItemOk(c, frames, next.output, net);
    } else {
      YieldRefusedOk(c, frames, next.output, next.shape, net);
    }
  }

  lemma StalledOk(c: CallState, frames: seq<Frame>, net: Net)
    requires CallOk(c, frames) && Live(c) && c.phase.Draining?
    ensures EffectOk(c, frames, AbortStalled(c, net), net.open)
  {
    var c1 := GivenUp(c);
    ResultErrShape(c, NOT_DRAINED, net.open, net.first);
    LastAttemptOk(c, frames, c1, ResultErr(c.id, NOT_DRAINED),
                  SendResultErr(c.id, NOT_DRAINED, net.open, net.first), net.open);
  }

  lemma DrainSettledOk(c: CallState, frames: seq<Frame>, outcome: DrainOutcome)
    requires CallOk(c, frames)
    ensures CallOk(OnDrainSettled(c, outcome), frames) && (Live(OnDrainSettled(c, outcome)) <==> Live(c))
  {
  }

  lemma DrainResumedOk(c: CallState, frames: seq<Frame>, net: Net)
    requires CallOk(c, frames)
    ensures EffectOk(c, frames, OnDrainResumed(c, net), net.open)
  {
    if Live(c) && c.phase == Draining(Some(TimedOut)) {
      StalledOk(c, frames, net);
    } else {
      QuietOk(c, frames, OnDrainResumed(c, net).call, net.open);
    }
  }

  lemma ReportedOk(c: CallState, frames: seq<Frame>, net: Net)
    requires CallOk(c, frames)
    ensures EffectOk(c, frames, OnReported(c, net), net.open)
  {
    if c.phase.Reporting? && !c.cancelled {
      EmitLastOk(c, frames, c.ending, ResultErr(c.id, c.phase.error), net);
    } else {
      QuietOk(c, frames, OnReported(c, net).call, net.open);
    }
  }

  // ---- What each wait comes to ----

  /** A live call's frame goes out, or the error that says why it could not, or the session closes. */
  predicate Delivers(e: Effect, c: CallState, frame: Frame, net: Net) {
    && (!net.open ==> e.sent == [] && !e.close)
    && (net.open && net.first.Sent? ==> e.sent == [frame])
    && (net.open && (net.first.TooLarge? || net.first.Unserializable?) && net.second.Sent? ==>
          e.sent == [ResultErr(c.id, AnswerTo(None, Some(net.first)))])
    && (net.open && !net.first.Sent? && (net.first.Thrown? || !net.second.Sent?) ==> e.sent == [] && e.close)
  }

  /** A cancelled or closed call says nothing. */
  predicate Silent(e: Effect) {
    e.sent == [] && !e.settle && !e.close
  }

  /** A throw is answered at once if it is the protocol's own or nobody wants to hear of it, and reported first otherwise. */
  ghost predicate Answered(c: CallState, e: Effect, thrown: Throw, net: Net) {
    var error := AnswerTo(Some(Threw(thrown)), None);
    && e.call.ending == Some(Threw(thrown))
    && (c.cancelled ==> Silent(e) && e.call.phase == (if thrown.OtherError? && net.reports then Reporting(error) else Finished))
    && (!c.cancelled && net.reports && !thrown.ProtocolError? ==> Silent(e) && e.call.phase == Reporting(error))
    && (!c.cancelled && (thrown.ProtocolError? || !net.reports) ==>
          e.call.phase.Finished? && Delivers(e, c, ResultErr(c.id, error), net))
  }

  /** A handler that returned is answered with what it returned; one that streams is asked for its first item. */
  lemma HandlerSettles(c: CallState, result: Dispatched, net: Net)
    requires c.phase.Dispatching?
    ensures var e := OnDispatched(c, result, net);
            && (result.Returns? ==>
                  && e.call.phase.Finished? && e.call.ending == Some(Returned(result.output))
                  && (if c.cancelled then Silent(e) else Delivers(e, c, ResultOk(c.id, result.output), net)))
            && (result.Streams? ==> Silent(e) && (if c.cancelled then e.call.phase.Finished? else e.call.phase.Pulling?))
            && (result.DispatchThrows? ==> Answered(c, e, result.thrown, net))
  {
    if result.DispatchThrows? {
      ThrowIsAnswered(c, c.(ending := Some(Threw(result.thrown))), result.thrown, net);
    }
  }

  lemma ThrowIsAnswered(c: CallState, failing: CallState, thrown: Throw, net: Net)
    requires failing.id == c.id && failing.cancelled == c.cancelled && failing.ending == Some(Threw(thrown))
    ensures Answered(c, Fail(failing, thrown, net), thrown, net)
  {
  }

  /** The last item of an iterator is followed by `done`, and a throw by its error. */
  lemma IteratorEnds(c: CallState, next: Next, net: Net)
    requires c.phase.Pulling? && !next.Yields?
    ensures var e := OnNext(c, next, net);
            && (next.NextThrows? ==> Answered(c, e, next.thrown, net))
            && (next.Ends? ==>
                  && e.call.phase.Finished? && e.call.ending == Some(RanOut)
                  && (if c.cancelled then Silent(e) else Delivers(e, c, Done(c.id), net)))
  {
    if next.NextThrows? {
      ThrowIsAnswered(c, CloseIterator(c.(ending := Some(Threw(next.thrown)))), next.thrown, net);
    }
  }

  /** An item goes out, and the handler is asked for the next one at once, or after a drain if the duplex asked for it. */
  lemma ItemIsEmitted(c: CallState, output: Payload, net: Net)
    requires c.phase.Pulling? && !c.cancelled
    ensures var e := OnNext(c, Yields(output, Plain), net);
            && e.call.produced == c.produced + [output]
            && Delivers(e, c, Item(c.id, output), net)
            && e.call.phase == if !net.open || !net.first.Sent? then Finished
                               else if net.first.above then Draining(None) else Pulling
  {
  }

  /** What is not an item ends the call with its own error. */
  lemma NonItemIsRefused(c: CallState, output: Payload, shape: Shape, net: Net)
    requires c.phase.Pulling? && !c.cancelled && !shape.Plain?
    ensures var e := OnNext(c, Yields(output, shape), net);
            && e.call.produced == c.produced + [output]
            && Delivers(e, c, ResultErr(c.id, AnswerTo(Some(Offered(shape)), None)), net)
            && e.call.phase.Finished? && e.call.ending == Some(Offered(shape))
  {
  }

  lemma LateItemIsDropped(c: CallState, output: Payload, shape: Shape, net: Net)
    requires c.phase.Pulling? && c.cancelled
    ensures var e := OnNext(c, Yields(output, shape), net);
            Silent(e) && e.call.phase.Finished? && e.call.produced == c.produced + [output]
  {
  }

  /**
   * A drained call asks its handler for the next item. One whose peer did not drain
   * is given up: handler and input are told to stop, and the peer gets an error.
   */
  lemma DrainIsOver(c: CallState, outcome: DrainOutcome, net: Net)
    requires c.phase == Draining(Some(outcome))
    ensures var e := OnDrainResumed(c, net);
            && (c.cancelled || outcome.Cancelled? ==> Silent(e) && e.call.phase.Finished?)
            && (!c.cancelled && outcome.Drained? ==> Silent(e) && e.call == c.(phase := Pulling))
            && (!c.cancelled && outcome.TimedOut? ==>
                  && e.call.phase.Finished? && e.call.ending == Some(Stalled)
                  && e.call.cancelled && e.call.aborted && !e.call.iterating
                  && (e.call.input.Some? ==> !e.call.input.value.closing.Open?)
                  && (!net.open ==> Silent(e))
                  && (net.open && net.first.Sent? ==> e.settle && e.sent == [ResultErr(c.id, AnswerTo(Some(Stalled), None))])
                  && (net.open && !net.first.Sent? ==> e.close && e.sent == []))
  {
  }

  lemma DrainIsHeard(c: CallState, outcome: DrainOutcome)
    ensures var r := OnDrainSettled(c, outcome);
            r == if c.phase == Draining(None) && outcome in {Drained, TimedOut} then c.(phase := Draining(Some(outcome))) else c
  {
  }

  /** An error that has been reported is answered then, unless the call was cancelled meanwhile. */
  lemma ReportIsOver(c: CallState, error: WireError, net: Net)
    requires c.phase == Reporting(error)
    ensures var e := OnReported(c, net);
            && e.call.phase.Finished?
            && (if c.cancelled then Silent(e) else Delivers(e, c, ResultErr(c.id, error), net))
  {
  }

  /** A call takes no notice of what it does not wait for. */
  lemma OnlyItsOwnWait(c: CallState, result: Dispatched, next: Next, net: Net)
    ensures !c.phase.Dispatching? ==> OnDispatched(c, result, net) == Quiet(c)
    ensures !c.phase.Pulling? ==> OnNext(c, next, net) == Quiet(c)
    ensures !c.phase.Draining? || c.phase.outcome.None? ==> OnDrainResumed(c, net) == Quiet(c)
    ensures !c.phase.Reporting? ==> OnReported(c, net) == Quiet(c)
  {
  }

  /** A cancel stops the handler, its input, its iterator and its wait for a drain. */
  lemma CancelStops(c: CallState)
    requires InputOk(c)
    ensures var r := CancelCall(c);
            && r.cancelled && r.aborted && !r.iterating
            && r.returned == (if c.iterating then c.returned + 1 else c.returned)
            && (r.input.Some? <==> c.input.Some?)
            && (c.input.Some? && c.input.value.closing.Open? ==> r.input.value.closing == Q.Ended)
            && r.phase == (if c.phase == Draining(None) then Draining(Some(Cancelled)) else c.phase)
            && r.ending == c.ending && r.produced == c.produced
  {
  }
}
