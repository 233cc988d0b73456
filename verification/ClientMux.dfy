/**
 * The client side of one connection: every call it has made, the ids in flight,
 * and the call frames it has sent. The server may answer with any frames in any
 * order; callers, timers and sends may come out in any way.
 */
module ClientMux {
  import opened Basics
  import opened FrameCodec
  import opened Reads
  import opened ClientCalls
  import S = Sessions
  import Q = PushQueues

  datatype Link = Link(
    open: bool,
    mark: Option<nat>,
    nextId: nat,
    calls: seq<CallState>,
    inflight: map<string, nat>,
    gate: Gate,
    log: seq<Frame>)

  function Fresh(mark: Option<nat>): Link {
    Link(true, mark, 1, [], map[], Gate(0, false), [])
  }

  predicate InFlight(l: Link, k: nat) {
    k < |l.calls| && l.calls[k].id in l.inflight && l.inflight[l.calls[k].id] == k
  }

  // ---- The operations ----

  function CountPaused(calls: seq<CallState>): nat {
    CountOf(calls, Paused)
  }

  /** The close fails every call in flight, without a cancel. */
  function FailAll(l: Link): seq<CallState> {
    seq(|l.calls|, i requires 0 <= i < |l.calls| =>
      if InFlight(l, i) && Live(l.calls[i]) then Failed(l.calls[i], ByClose) else l.calls[i])
  }

  function OnClose(l: Link): Link {
    var calls := FailAll(l);
    var resumed := CountPaused(l.calls) - CountPaused(calls);
    l.(open := false,
       calls := calls,
       inflight := map[],
       gate := ResumeMany(l.gate, if resumed >= 0 then resumed else 0))
  }

  function Close(l: Link): Link {
    if !l.open then l else OnClose(l)
  }

  function Update(l: Link, k: nat, c: CallState): Link
    requires k < |l.calls|
  {
    l.(calls := l.calls[k := c], gate := Follow(l.gate, Paused(l.calls[k]), Paused(c)))
  }

  function Apply(l: Link, k: nat, e: Effect): Link
    requires k < |l.calls|
  {
    var l1 := Update(l, k, e.call).(log := l.log + e.sent,
                                    inflight := if e.settle then l.inflight - {e.call.id} else l.inflight);
    if e.close then Close(l1) else l1
  }

  function Allocate(l: Link, c: CallState): Link {
    l.(nextId := l.nextId + 1, calls := l.calls + [c], inflight := l.inflight[c.id := |l.calls|])
  }

  /** Take the next id and send the call. */
  function OpenCall(l: Link, request: Request, signal: bool, aborted: bool,
                    first: S.Fate, second: S.Fate): Link
  {
    if !l.open then l
    else
      var id := Decimal(l.nextId);
      var c := ClientCalls.Fresh(id, request);
      Apply(Allocate(l, c), |l.calls|, Open(c, signal, aborted, Net(l.open, first, second)))
  }

  /** Frames route by id; a handshake frame closes; a frame for no call in flight is dropped. */
  function Route(l: Link, frame: Frame, size: nat): Link {
    if frame.Hello? || frame.HelloOk? || frame.HelloError? then Close(l)
    else if frame.id in l.inflight && l.inflight[frame.id] < |l.calls| then
      var k := l.inflight[frame.id];
      Apply(l, k, OnFrame(l.calls[k], frame, size, l.mark))
    else l
  }

  // ---- All runs ----

  datatype CallEvent =
    | Aborts
    | InputSettles(next: InputNext)
    | DrainSettles(outcome: DrainOutcome)
    | DrainResumes
    | ConsumerPulls
    | ConsumerStops(clean: bool)

  datatype Event =
    | Opens(request: Request, signal: bool, aborted: bool, first: S.Fate, second: S.Fate)
    | Arrives(frame: Frame, size: nat)
    | Proceeds(call: nat, event: CallEvent, first: S.Fate, second: S.Fate)
    | Closes

  function CallStep(c: CallState, e: CallEvent, net: Net): Effect {
    match e
    case Aborts => OnAbort(c, net)
    case InputSettles(next) => OnInput(c, next, net)
    case DrainSettles(outcome) => Quiet(OnDrainSettled(c, outcome))
    case DrainResumes => OnDrainResumed(c, net)
    case ConsumerPulls => Quiet(OnConsumerNext(c))
    case ConsumerStops(clean) => OnConsumerStop(c, clean, net)
  }

  function Step(l: Link, e: Event): Link {
    match e
    case Opens(request, signal, aborted, first, second) =>
      OpenCall(l, request, signal, aborted, first, second)
    case Arrives(frame, size) => if l.open then Route(l, frame, size) else l
    case Proceeds(k, event, first, second) =>
      if k < |l.calls| then Apply(l, k, CallStep(l.calls[k], event, Net(l.open, first, second))) else l
    case Closes => Close(l)
  }

  function Run(l: Link, events: seq<Event>): Link
    decreases |events|
  {
    if events == [] then l else Run(Step(l, events[0]), events[1..])
  }

  // ---- What every run keeps ----

  /** The frames sent for one id. */
  function FramesFor(log: seq<Frame>, id: string): seq<Frame> {
    if log == [] then []
    else
      var last := log[|log| - 1];
      FramesFor(log[..|log| - 1], id) + (if AddressedTo(last, id) then [last] else [])
  }

  /** Ids count up and are never reused. */
  ghost predicate Numbered(l: Link) {
    && l.nextId == |l.calls| + 1
    && (forall k :: 0 <= k < |l.calls| ==> l.calls[k].id == Decimal(k + 1))
    && (forall i :: 0 <= i < |l.log| ==> Known(l.calls, l.log[i]))
  }

  /** A frame of one of these calls. */
  predicate Known(calls: seq<CallState>, frame: Frame) {
    exists k :: 0 <= k < |calls| && AddressedTo(frame, calls[k].id)
  }

  /** The ids in flight are those of the live calls. */
  ghost predicate Routed(l: Link) {
    && (forall id :: id in l.inflight ==>
          l.inflight[id] < |l.calls| && l.calls[l.inflight[id]].id == id && Live(l.calls[l.inflight[id]]))
    && (forall k :: 0 <= k < |l.calls| && Live(l.calls[k]) ==> InFlight(l, k))
    && (!l.open ==> l.inflight == map[])
  }

  /** The read gate counts the paused output queues, and the duplex is paused while there is one. */
  ghost predicate Counted(l: Link) {
    Exact(l.gate) && l.gate.pausedQueues == CountPaused(l.calls)
  }

  ghost predicate CallsOk(l: Link) {
    forall k :: 0 <= k < |l.calls| ==> CallOk(l.calls[k], FramesFor(l.log, l.calls[k].id))
  }

  /** Every live call has sent its `call` frame. */
  ghost predicate Called(l: Link) {
    CalledBut(l, |l.calls|)
  }

  /** The same, leaving out a call that is just being opened. */
  ghost predicate CalledBut(l: Link, opening: nat) {
    forall k :: 0 <= k < |l.calls| && k != opening && Live(l.calls[k]) ==> FramesFor(l.log, l.calls[k].id) != []
  }

  ghost predicate OutputsOk(l: Link) {
    forall k :: 0 <= k < |l.calls| ==> OutputOk(l.calls[k])
  }

  ghost predicate Good(l: Link) {
    GoodBut(l, |l.calls|)
  }

  ghost predicate GoodBut(l: Link, opening: nat) {
    Numbered(l) && Routed(l) && Counted(l) && CallsOk(l) && CalledBut(l, opening) && OutputsOk(l)
  }

  lemma {:induction false} FramesForSplit(a: seq<Frame>, b: seq<Frame>, id: string)
    ensures FramesFor(a + b, id) == FramesFor(a, id) + FramesFor(b, id)
  {
    if b == [] {
      assert a + b == a;
    } else {
      var n := |b| - 1;
      assert (a + b)[..|a| + n] == a + b[..n];
      FramesForSplit(a, b[..n], id);
    }
  }

  /** The frames of one call's step belong to that call alone. */
  lemma {:induction false} OwnFrames(frames: seq<Frame>, id: string, other: string)
    requires forall i :: 0 <= i < |frames| ==> AddressedTo(frames[i], id)
    ensures FramesFor(frames, other) == if other == id then frames else []
  {
    if frames != [] {
      var n := |frames| - 1;
      assert AddressedTo(frames[n], id);
      OwnFrames(frames[..n], id, other);
    }
  }

  lemma {:induction false} NoFramesYet(log: seq<Frame>, id: string)
    requires forall i :: 0 <= i < |log| ==> !AddressedTo(log[i], id)
    ensures FramesFor(log, id) == []
  {
    if log != [] {
      NoFramesYet(log[..|log| - 1], id);
    }
  }

  // ---- Counting paused queues ----

  lemma UpdateCounted(l: Link, k: nat, c: CallState)
    requires Counted(l) && k < |l.calls|
    ensures Counted(Update(l, k, c))
  {
    CountUpdate(l.calls, k, c, Paused);
    if Paused(l.calls[k]) {
      CountPositive(l.calls, k, Paused);
    }
    FollowKeepsExact(l.gate, Paused(l.calls[k]), Paused(c));
  }

  // ---- Each operation ----

  lemma SentIsOwn(c: CallState, frames: seq<Frame>, e: Effect, open: bool)
    requires EffectOk(c, frames, e, open)
    ensures forall i :: 0 <= i < |e.sent| ==> AddressedTo(e.sent[i], c.id)
  {
    forall i | 0 <= i < |e.sent| ensures AddressedTo(e.sent[i], c.id) {
      assert (frames + e.sent)[|frames| + i] == e.sent[i];
    }
  }

  lemma DistinctIds(l: Link, j: nat, k: nat)
    requires Numbered(l) && j < |l.calls| && k < |l.calls|
    ensures l.calls[j].id == l.calls[k].id ==> j == k
  {
    DecimalInjective(j + 1, k + 1);
  }

  /** A call's step adds to the frames of its own id and of no other. */
  lemma AppendedFrames(log: seq<Frame>, sent: seq<Frame>, id: string, other: string)
    requires forall i :: 0 <= i < |sent| ==> AddressedTo(sent[i], id)
    ensures FramesFor(log + sent, other) == FramesFor(log, other) + (if other == id then sent else [])
  {
    FramesForSplit(log, sent, other);
    OwnFrames(sent, id, other);
  }

  lemma FramesApplied(l: Link, k: nat, e: Effect, j: nat)
    requires Numbered(l) && j < |l.calls| && k < |l.calls|
    requires forall i :: 0 <= i < |e.sent| ==> AddressedTo(e.sent[i], l.calls[k].id)
    ensures FramesFor(l.log + e.sent, l.calls[j].id)
         == if j == k then FramesFor(l.log, l.calls[k].id) + e.sent else FramesFor(l.log, l.calls[j].id)
  {
    AppendedFrames(l.log, e.sent, l.calls[k].id, l.calls[j].id);
    DistinctIds(l, j, k);
  }

  lemma ApplyCallsOk(l: Link, k: nat, e: Effect)
    requires Numbered(l) && CallsOk(l) && CalledBut(l, k) && k < |l.calls|
    requires EffectOk(l.calls[k], FramesFor(l.log, l.calls[k].id), e, l.open)
    requires Live(e.call) ==> FramesFor(l.log, l.calls[k].id) + e.sent != []
    ensures var r := Apply(l, k, e.(close := false)); CallsOk(r) && Called(r)
  {
    var r := Apply(l, k, e.(close := false));
    assert r.calls == l.calls[k := e.call] && r.log == l.log + e.sent;
    SentIsOwn(l.calls[k], FramesFor(l.log, l.calls[k].id), e, l.open);
    forall j | 0 <= j < |r.calls|
      ensures CallOk(r.calls[j], FramesFor(r.log, r.calls[j].id))
      ensures Live(r.calls[j]) ==> FramesFor(r.log, r.calls[j].id) != []
    {
      FramesApplied(l, k, e, j);
      assert r.calls[j] == if j == k then e.call else l.calls[j];
    }
  }

  lemma ApplyNumbered(l: Link, k: nat, e: Effect)
    requires Numbered(l) && k < |l.calls| && e.call.id == l.calls[k].id
    requires forall i :: 0 <= i < |e.sent| ==> AddressedTo(e.sent[i], e.call.id)
    ensures Numbered(Apply(l, k, e.(close := false)))
  {
    var r := Apply(l, k, e.(close := false));
    forall i | 0 <= i < |r.log| ensures Known(r.calls, r.log[i]) {
      if i < |l.log| {
        var j :| 0 <= j < |l.calls| && AddressedTo(l.log[i], l.calls[j].id);
        assert AddressedTo(r.log[i], r.calls[j].id);
      } else {
        assert AddressedTo(r.log[i], r.calls[k].id);
      }
    }
  }

  lemma ApplyRouted(l: Link, k: nat, e: Effect)
    requires Routed(l) && k < |l.calls| && e.call.id == l.calls[k].id
    requires Live(l.calls[k]) ==> (Live(e.call) <==> !e.settle)
    requires !Live(l.calls[k]) ==> !e.settle && !Live(e.call)
    ensures Routed(Apply(l, k, e.(close := false)))
  {
    var r := Apply(l, k, e.(close := false));
    assert Live(l.calls[k]) ==> InFlight(l, k);
    forall j | 0 <= j < |r.calls| && Live(r.calls[j]) ensures InFlight(r, j) {
      assert InFlight(l, j);
    }
  }

  /** Everything but the gate, which needs only the call that changed. */
  lemma ApplyKeeps(l: Link, k: nat, e: Effect)
    requires GoodBut(l, k) && k < |l.calls| && OutputOk(e.call)
    requires EffectOk(l.calls[k], FramesFor(l.log, l.calls[k].id), e, l.open)
    requires Live(e.call) ==> FramesFor(l.log, l.calls[k].id) + e.sent != []
    ensures Good(Apply(l, k, e))
  {
    var l1 := Apply(l, k, e.(close := false));
    SentIsOwn(l.calls[k], FramesFor(l.log, l.calls[k].id), e, l.open);
    ApplyCallsOk(l, k, e);
    ApplyNumbered(l, k, e);
    ApplyRouted(l, k, e);
    UpdateCounted(l, k, e.call);
    assert Good(l1);
    CloseKeeps(l1);
    assert Apply(l, k, e) == if e.close then Close(l1) else l1;
  }

  lemma SameIdsNumbered(l: Link, r: Link)
    requires Numbered(l) && r.nextId == l.nextId && r.log == l.log && |r.calls| == |l.calls|
    requires forall k :: 0 <= k < |l.calls| ==> r.calls[k].id == l.calls[k].id
    ensures Numbered(r)
  {
    forall i | 0 <= i < |r.log| ensures Known(r.calls, r.log[i]) {
      assert Known(l.calls, l.log[i]);
      var k :| 0 <= k < |l.calls| && AddressedTo(l.log[i], l.calls[k].id);
      assert AddressedTo(r.log[i], r.calls[k].id);
    }
  }

  lemma FailedAll(l: Link)
    requires Good(l)
    ensures var calls := FailAll(l);
            && |calls| == |l.calls|
            && CountPaused(calls) == 0
            && forall k :: 0 <= k < |calls| ==>
                 CallOk(calls[k], FramesFor(l.log, calls[k].id)) && OutputOk(calls[k]) && !Live(calls[k])
                 && calls[k].id == l.calls[k].id
  {
    var calls := FailAll(l);
    forall k | 0 <= k < |calls|
      ensures CallOk(calls[k], FramesFor(l.log, calls[k].id)) && OutputOk(calls[k]) && !Live(calls[k])
      ensures calls[k].id == l.calls[k].id && !Paused(calls[k])
    {
      assert Live(l.calls[k]) ==> InFlight(l, k);
      if Live(l.calls[k]) {
        FailedOk(l.calls[k], FramesFor(l.log, l.calls[k].id), ByClose);
        FailedOutputOk(l.calls[k], ByClose);
      }
    }
    CountZero(calls, Paused);
  }

  lemma NothingPausedWhenClosed(l: Link)
    requires Good(l) && !l.open
    ensures l.gate == Gate(0, false)
  {
    forall k | 0 <= k < |l.calls| ensures !Paused(l.calls[k]) {
      assert Live(l.calls[k]) ==> InFlight(l, k);
      assert OutputOk(l.calls[k]);
    }
    CountZero(l.calls, Paused);
  }

  lemma CloseKeeps(l: Link)
    requires Good(l)
    ensures Good(Close(l)) && !Close(l).open && Close(l).inflight == map[]
    ensures Close(l).gate == Gate(0, false) && Close(l).log == l.log
  {
    if l.open {
      FailedAll(l);
      SameIdsNumbered(l, OnClose(l));
      ResumeManyKeepsExact(l.gate, CountPaused(l.calls));
    } else {
      NothingPausedWhenClosed(l);
    }
  }

  lemma OpenedNet(c: CallState, signal: bool, aborted: bool, net: Net)
    requires c == ClientCalls.Fresh(c.id, c.request)
    ensures OutputOk(Open(c, signal, aborted, net).call)
    ensures Live(Open(c, signal, aborted, net).call) ==> Open(c, signal, aborted, net).sent != []
  {
    FailedOutputOk(c, BySend(if net.open then RefusalOf(net.first) else Closed));
    FailedOutputOk(c, ByAbort);
    FailedOutputOk(c, ByClose);
  }

  lemma OpenKeeps(l: Link, request: Request, signal: bool, aborted: bool,
                  first: S.Fate, second: S.Fate)
    requires Good(l)
    ensures Good(OpenCall(l, request, signal, aborted, first, second))
  {
    if l.open {
      var id := Decimal(l.nextId);
      var c := ClientCalls.Fresh(id, request);
      AllocateKeeps(l, c);
      FreshIdIsUnused(l);
      var net := Net(l.open, first, second);
      OpenOk(id, request, signal, aborted, net);
      OpenedNet(c, signal, aborted, net);
      ApplyKeeps(Allocate(l, c), |l.calls|, Open(c, signal, aborted, net));
    }
  }

  lemma FreshIdIsUnused(l: Link)
    requires Numbered(l)
    ensures forall k :: 0 <= k < |l.calls| ==> l.calls[k].id != Decimal(l.nextId)
    ensures FramesFor(l.log, Decimal(l.nextId)) == []
  {
    forall k | 0 <= k < |l.calls| ensures l.calls[k].id != Decimal(l.nextId) {
      DecimalInjective(k + 1, l.nextId);
    }
    forall i | 0 <= i < |l.log| ensures !AddressedTo(l.log[i], Decimal(l.nextId)) {
      var k :| 0 <= k < |l.calls| && AddressedTo(l.log[i], l.calls[k].id);
    }
    NoFramesYet(l.log, Decimal(l.nextId));
  }

  lemma AllocateRouted(l: Link, c: CallState)
    requires Routed(l) && l.open && Live(c) && forall k :: 0 <= k < |l.calls| ==> l.calls[k].id != c.id
    ensures Routed(Allocate(l, c))
  {
    var r := Allocate(l, c);
    forall k | 0 <= k < |r.calls| && Live(r.calls[k]) ensures InFlight(r, k) {
      assert k < |l.calls| ==> InFlight(l, k);
    }
  }

  lemma AllocateCallsOk(l: Link, c: CallState)
    requires CallsOk(l) && CalledBut(l, |l.calls|) && OutputsOk(l)
    requires CallOk(c, FramesFor(l.log, c.id)) && OutputOk(c)
    ensures var r := Allocate(l, c); CallsOk(r) && CalledBut(r, |l.calls|) && OutputsOk(r)
  {
    var r := Allocate(l, c);
    forall k | 0 <= k < |r.calls|
      ensures CallOk(r.calls[k], FramesFor(r.log, r.calls[k].id)) && OutputOk(r.calls[k])
      ensures k != |l.calls| && Live(r.calls[k]) ==> FramesFor(r.log, r.calls[k].id) != []
    {
      assert r.calls[k] == if k < |l.calls| then l.calls[k] else c;
    }
  }

  lemma AllocateCounted(l: Link, c: CallState)
    requires Counted(l) && !Paused(c)
    ensures Counted(Allocate(l, c))
  {
    CountSnoc(l.calls, c, Paused);
  }

  lemma AllocateKeeps(l: Link, c: CallState)
    requires Good(l) && l.open && c == ClientCalls.Fresh(Decimal(l.nextId), c.request)
    ensures GoodBut(Allocate(l, c), |l.calls|)
  {
    FreshIdIsUnused(l);
    FreshOk(c.id, c.request);
    AllocateCounted(l, c);
    AllocateNumbered(l, c);
    AllocateRouted(l, c);
    AllocateCallsOk(l, c);
  }

  lemma AllocateNumbered(l: Link, c: CallState)
    requires Numbered(l) && c.id == Decimal(l.nextId)
    ensures Numbered(Allocate(l, c))
  {
    var calls := l.calls + [c];
    forall i | 0 <= i < |l.log| ensures Known(calls, l.log[i]) {
      var k :| 0 <= k < |l.calls| && AddressedTo(l.log[i], l.calls[k].id);
      assert AddressedTo(l.log[i], calls[k].id);
    }
  }

  lemma CallStepOk(c: CallState, frames: seq<Frame>, e: CallEvent, net: Net)
    requires CallOk(c, frames) && OutputOk(c) && (Live(c) ==> frames != [])
    ensures EffectOk(c, frames, CallStep(c, e, net), net.open) && OutputOk(CallStep(c, e, net).call)
  {
    match e
    case Aborts =>
      if c.abortArmed { FailAndCancelOk(c, frames, ByAbort, net.open, net.first); } else { QuietOk(c, frames, c, net.open); }
      AbortOutputOk(c, net);
    case InputSettles(next) =>
      InputOk(c, frames, next, net);
      PumpOutputOk(c, next, net);
    case DrainSettles(outcome) =>
      DrainSettledOk(c, frames, outcome);
      QuietOk(c, frames, OnDrainSettled(c, outcome), net.open);
    case DrainResumes =>
      DrainResumedOk(c, frames, net);
      DrainOutputOk(c, net);
    case ConsumerPulls =>
      QuietOk(c, frames, OnConsumerNext(c), net.open);
      ConsumerNextOutputOk(c);
    case ConsumerStops(clean) =>
      ConsumerStopOk(c, frames, clean, net);
      ConsumerStopOutputOk(c, clean, net);
  }

  lemma DeliverKeeps(l: Link, k: nat, frame: Frame, size: nat)
    requires Good(l) && k < |l.calls|
    ensures Good(Apply(l, k, OnFrame(l.calls[k], frame, size, l.mark)))
  {
    var frames := FramesFor(l.log, l.calls[k].id);
    FrameOk(l.calls[k], frames, frame, size, l.mark, l.open);
    FrameOutputOk(l.calls[k], frame, size, l.mark);
    ApplyKeeps(l, k, OnFrame(l.calls[k], frame, size, l.mark));
  }

  lemma RouteKeeps(l: Link, frame: Frame, size: nat)
    requires Good(l)
    ensures Good(Route(l, frame, size))
  {
    if frame.Hello? || frame.HelloOk? || frame.HelloError? {
      CloseKeeps(l);
    } else if frame.id in l.inflight {
      var k := l.inflight[frame.id];
      DeliverKeeps(l, k, frame, size);
      assert Route(l, frame, size) == Apply(l, k, OnFrame(l.calls[k], frame, size, l.mark));
    }
  }

  lemma ProceedKeeps(l: Link, k: nat, event: CallEvent, first: S.Fate, second: S.Fate)
    requires Good(l) && k < |l.calls|
    ensures Good(Apply(l, k, CallStep(l.calls[k], event, Net(l.open, first, second))))
  {
    var net := Net(l.open, first, second);
    CallStepOk(l.calls[k], FramesFor(l.log, l.calls[k].id), event, net);
    ApplyKeeps(l, k, CallStep(l.calls[k], event, net));
  }

  lemma StepKeeps(l: Link, e: Event)
    requires Good(l)
    ensures Good(Step(l, e))
  {
    match e
    case Opens(request, signal, aborted, first, second) =>
      assert Step(l, e) == OpenCall(l, request, signal, aborted, first, second);
      OpenKeeps(l, request, signal, aborted, first, second);
    case Arrives(frame, size) =>
      assert Step(l, e) == if l.open then Route(l, frame, size) else l;
      RouteKeeps(l, frame, size);
    case Proceeds(k, event, first, second) =>
      if k < |l.calls| {
        assert Step(l, e) == Apply(l, k, CallStep(l.calls[k], event, Net(l.open, first, second)));
        ProceedKeeps(l, k, event, first, second);
      }
    case Closes => CloseKeeps(l);
  }

  lemma FreshIsGood(mark: Option<nat>)
    ensures Good(Fresh(mark))
  {
  }

  lemma {:induction false} EveryRunIsGood(l: Link, events: seq<Event>)
    requires Good(l)
    ensures Good(Run(l, events))
    decreases |events|
  {
    if events != [] {
      StepKeeps(l, events[0]);
      EveryRunIsGood(Step(l, events[0]), events[1..]);
    }
  }

  // ---- What follows for the caller and the server ----

  /** The outbound language of every id, and what may follow what, under any interleaving. */
  lemma EveryCallSpeaksItsLanguage(mark: Option<nat>, events: seq<Event>, k: nat)
    requires k < |Run(Fresh(mark), events).calls|
    ensures var l := Run(Fresh(mark), events);
            var c := l.calls[k];
            var frames := FramesFor(l.log, c.id);
            && Legal(frames)
            && (frames != [] ==> Asks(frames[0], c.request))
            && InItems(frames) <= c.inputProduced
            && (HasInDone(frames) ==> c.inputEnded && InItems(frames) == c.inputProduced)
            && (HasCancel(frames) ==> c.cause.Some? && !FromOutside(c.cause.value))
  {
    FreshIsGood(mark);
    EveryRunIsGood(Fresh(mark), events);
  }

  /** Each call settles once, gives its id up once, and ids are never reused. */
  lemma EveryCallSettlesOnce(mark: Option<nat>, events: seq<Event>, k: nat)
    requires k < |Run(Fresh(mark), events).calls|
    ensures var l := Run(Fresh(mark), events);
            var c := l.calls[k];
            && |c.settlements| <= 1
            && (c.settlements == [] <==> c.mode.PendingFirst?)
            && c.departures == (if InFlight(l, k) then 0 else 1)
            && (InFlight(l, k) <==> Live(c))
            && c.inputReturned == (if !Live(c) && c.pump != NoPump then 1 else 0)
            && (forall j :: 0 <= j < |l.calls| && l.calls[j].id == c.id ==> j == k)
  {
    FreshIsGood(mark);
    EveryRunIsGood(Fresh(mark), events);
    var l := Run(Fresh(mark), events);
    forall j | 0 <= j < |l.calls| && l.calls[j].id == l.calls[k].id ensures j == k {
      DistinctIds(l, j, k);
    }
  }

  /** A close leaves nothing in flight and nobody waiting. */
  lemma CloseSettlesEverything(mark: Option<nat>, events: seq<Event>)
    ensures var l := Close(Run(Fresh(mark), events));
            && l.inflight == map[]
            && l.gate == Gate(0, false)
            && forall k :: 0 <= k < |l.calls| ==>
                 |l.calls[k].settlements| == 1
                 && (l.calls[k].output.Some? ==> !l.calls[k].output.value.closing.Open? && !l.calls[k].output.value.waiting)
  {
    FreshIsGood(mark);
    EveryRunIsGood(Fresh(mark), events);
    var l := Run(Fresh(mark), events);
    CloseKeeps(l);
    var r := Close(l);
    forall k | 0 <= k < |r.calls|
      ensures |r.calls[k].settlements| == 1
      ensures r.calls[k].output.Some? ==> !r.calls[k].output.value.closing.Open? && !r.calls[k].output.value.waiting
    {
      assert Live(r.calls[k]) ==> InFlight(r, k);
      assert CallOk(r.calls[k], FramesFor(r.log, r.calls[k].id)) && OutputOk(r.calls[k]);
    }
  }

  /**
   * Read pausing is exact: the gate counts the paused queues of the calls in
   * flight, the duplex is paused exactly while there is one, and none is left
   * once every call has settled.
   */
  lemma PausingIsExact(mark: Option<nat>, events: seq<Event>)
    ensures var l := Run(Fresh(mark), events);
            && l.gate.pausedQueues == CountPaused(l.calls)
            && (forall k :: 0 <= k < |l.calls| && Paused(l.calls[k]) ==> InFlight(l, k))
            && (l.gate.paused <==> exists k :: 0 <= k < |l.calls| && Paused(l.calls[k]))
            && (l.inflight == map[] ==> l.gate == Gate(0, false))
  {
    FreshIsGood(mark);
    EveryRunIsGood(Fresh(mark), events);
    var l := Run(Fresh(mark), events);
    forall k | 0 <= k < |l.calls| && Paused(l.calls[k]) ensures InFlight(l, k) && l.gate.paused {
      CountPositive(l.calls, k, Paused);
      assert OutputOk(l.calls[k]);
    }
    if forall k :: 0 <= k < |l.calls| ==> !Paused(l.calls[k]) {
      CountZero(l.calls, Paused);
    }
  }

  /** Call `k` is over, and stays as settled and as silent as it was. */
  ghost predicate Unchanged(l: Link, r: Link, k: nat) {
    && k < |l.calls| && k < |r.calls|
    && !Live(r.calls[k])
    && r.calls[k].id == l.calls[k].id
    && FramesFor(r.log, l.calls[k].id) == FramesFor(l.log, l.calls[k].id)
    && r.calls[k].settlements == l.calls[k].settlements
    && r.calls[k].departures == l.calls[k].departures
  }

  lemma SilentOpen(l: Link, request: Request, signal: bool, aborted: bool,
                   first: S.Fate, second: S.Fate, k: nat)
    requires Good(l) && k < |l.calls| && !Live(l.calls[k])
    ensures Unchanged(l, OpenCall(l, request, signal, aborted, first, second), k)
  {
    if l.open {
      var c := ClientCalls.Fresh(Decimal(l.nextId), request);
      var net := Net(l.open, first, second);
      AllocateKeeps(l, c);
      FreshIdIsUnused(l);
      OpenOk(c.id, request, signal, aborted, net);
      SilentApply(Allocate(l, c), |l.calls|, Open(c, signal, aborted, net), k);
    }
  }

  lemma SilentRoute(l: Link, frame: Frame, size: nat, k: nat)
    requires Good(l) && k < |l.calls| && !Live(l.calls[k])
    ensures Unchanged(l, Route(l, frame, size), k)
  {
    if !frame.Hello? && !frame.HelloOk? && !frame.HelloError? && frame.id in l.inflight {
      var j := l.inflight[frame.id];
      FrameOk(l.calls[j], FramesFor(l.log, l.calls[j].id), frame, size, l.mark, l.open);
      SilentApply(l, j, OnFrame(l.calls[j], frame, size, l.mark), k);
    }
  }

  lemma SilentClose(l: Link, k: nat)
    requires k < |l.calls| && !Live(l.calls[k])
    ensures Unchanged(l, Close(l), k)
  {
  }

  lemma SilentStep(l: Link, e: Event, k: nat)
    requires Good(l) && k < |l.calls| && !Live(l.calls[k])
    ensures Unchanged(l, Step(l, e), k)
  {
    match e
    case Opens(request, signal, aborted, first, second) =>
      SilentOpen(l, request, signal, aborted, first, second, k);
      assert Step(l, e) == OpenCall(l, request, signal, aborted, first, second);
    case Arrives(frame, size) =>
      SilentRoute(l, frame, size, k);
      assert Step(l, e) == if l.open then Route(l, frame, size) else l;
    case Proceeds(j, event, first, second) =>
      if j < |l.calls| {
        var net := Net(l.open, first, second);
        CallStepOk(l.calls[j], FramesFor(l.log, l.calls[j].id), event, net);
        OverStaysSettled(l.calls[j], event, net);
        SilentApply(l, j, CallStep(l.calls[j], event, net), k);
        assert Step(l, e) == Apply(l, j, CallStep(l.calls[j], event, net));
      }
    case Closes => SilentClose(l, k);
  }

  /** A call that is over settles nothing more. */
  lemma OverStaysSettled(c: CallState, e: CallEvent, net: Net)
    ensures !Live(c) ==>
              CallStep(c, e, net).call.settlements == c.settlements && CallStep(c, e, net).call.departures == c.departures
  {
  }

  lemma SilentApply(l: Link, j: nat, e: Effect, k: nat)
    requires Numbered(l) && j < |l.calls| && k < |l.calls| && !Live(l.calls[k])
    requires EffectOk(l.calls[j], FramesFor(l.log, l.calls[j].id), e, l.open)
    requires j == k ==> e.call.settlements == l.calls[k].settlements && e.call.departures == l.calls[k].departures
    ensures Unchanged(l, Apply(l, j, e), k)
  {
    var id := l.calls[k].id;
    SentIsOwn(l.calls[j], FramesFor(l.log, l.calls[j].id), e, l.open);
    AppendedFrames(l.log, e.sent, l.calls[j].id, id);
    DistinctIds(l, j, k);
    assert FramesFor(l.log, id) + [] == FramesFor(l.log, id);
    var r := Apply(l, j, e.(close := false));
    assert FramesFor(r.log, id) == FramesFor(l.log, id);
    assert Apply(l, j, e).log == r.log;
  }

  /** Once a call is over, nothing more is sent for its id and nothing more settles, in any continuation. */
  lemma {:induction false} SilentOnceOver(l: Link, events: seq<Event>, k: nat)
    requires Good(l) && k < |l.calls| && !Live(l.calls[k])
    ensures Unchanged(l, Run(l, events), k)
    decreases |events|
  {
    if events != [] {
      SilentStep(l, events[0], k);
      StepKeeps(l, events[0]);
      SilentOnceOver(Step(l, events[0]), events[1..], k);
    }
  }

  // ---- What each event comes to ----

  /** Nothing has happened to any call but `k`. */
  ghost predicate OnlyTouches(l: Link, r: Link, k: nat) {
    && |r.calls| == |l.calls| && r.open == l.open
    && (forall j :: 0 <= j < |l.calls| && j != k ==> r.calls[j] == l.calls[j] && (InFlight(r, j) <==> InFlight(l, j)))
  }

  /** One call's step, and what it sends, settles or closes. */
  ghost predicate Moves(l: Link, r: Link, k: nat, e: Effect)
    requires k < |l.calls|
  {
    && r.log == l.log + e.sent
    && (e.close && l.open ==> !r.open)
    && (!e.close ==> OnlyTouches(l, r, k) && r.calls[k] == e.call && (InFlight(r, k) <==> InFlight(l, k) && !e.settle))
  }

  lemma ApplyMoves(l: Link, k: nat, e: Effect)
    requires Numbered(l) && k < |l.calls| && e.call.id == l.calls[k].id
    ensures Moves(l, Apply(l, k, e), k, e)
  {
    forall j | 0 <= j < |l.calls| && j != k ensures l.calls[j].id != l.calls[k].id {
      DistinctIds(l, j, k);
    }
  }

  /** Every call on an open link takes the next number as its id and keeps what it was asked; a closed link takes none. */
  lemma OpenIsHeard(l: Link, request: Request, signal: bool, aborted: bool, first: S.Fate, second: S.Fate)
    requires Good(l)
    ensures var r, n := Step(l, Opens(request, signal, aborted, first, second)), |l.calls|;
            && (!l.open ==> r == l)
            && (l.open ==>
                  var c := ClientCalls.Fresh(Decimal(n + 1), request);
                  var e := Open(c, signal, aborted, Net(true, first, second));
                  && |r.calls| == n + 1 && r.calls[n].id == Decimal(n + 1) && r.calls[n].request == request
                  && r.log == l.log + e.sent
                  && (!e.close ==> r.calls[n] == e.call && r.calls[..n] == l.calls && (InFlight(r, n) <==> !e.settle)))
  {
    if l.open {
      var c := ClientCalls.Fresh(Decimal(l.nextId), request);
      AllocateKeeps(l, c);
      OpenOk(c.id, request, signal, aborted, Net(l.open, first, second));
      AllocatedMoves(l, c, Open(c, signal, aborted, Net(l.open, first, second)));
      OpenedIs(l, request, signal, aborted, first, second);
    }
  }

  lemma OpenedIs(l: Link, request: Request, signal: bool, aborted: bool, first: S.Fate, second: S.Fate)
    requires l.open
    ensures var c := ClientCalls.Fresh(Decimal(l.nextId), request);
            Step(l, Opens(request, signal, aborted, first, second))
            == Apply(Allocate(l, c), |l.calls|, Open(c, signal, aborted, Net(l.open, first, second)))
  {
  }

  lemma AllocatedMoves(l: Link, c: CallState, e: Effect)
    requires Numbered(Allocate(l, c)) && e.call.id == c.id && e.call.request == c.request
    ensures var r, n := Apply(Allocate(l, c), |l.calls|, e), |l.calls|;
            && |r.calls| == n + 1 && r.calls[n].id == c.id && r.calls[n].request == c.request
            && r.log == l.log + e.sent
            && (!e.close ==> r.calls[n] == e.call && r.calls[..n] == l.calls && (InFlight(r, n) <==> !e.settle))
  {
    var n := |l.calls|;
    ApplyMoves(Allocate(l, c), n, e);
    var r := Apply(Allocate(l, c), n, e);
    assert Allocate(l, c).calls[..n] == l.calls;
    if !e.close {
      assert r.calls[..n] == l.calls by {
        assert forall j :: 0 <= j < n ==> r.calls[j] == Allocate(l, c).calls[j];
      }
    } else {
      CloseIdentifies(Apply(Allocate(l, c), n, e.(close := false)));
    }
  }

  /** A close leaves every call its id and its request. */
  lemma CloseIdentifies(l: Link)
    ensures var r := Close(l);
            && |r.calls| == |l.calls| && r.log == l.log
            && forall k :: 0 <= k < |l.calls| ==> r.calls[k].id == l.calls[k].id && r.calls[k].request == l.calls[k].request
  {
  }

  /** A frame reaches the call in flight under its id; one for no such call is dropped, and a handshake frame closes. */
  lemma ArrivalIsRouted(l: Link, frame: Frame, size: nat)
    requires Good(l)
    ensures var r := Step(l, Arrives(frame, size));
            && (!l.open ==> r == l)
            && (l.open && IsHello(frame) ==> !r.open && r.log == l.log)
            && (l.open && !IsHello(frame) && frame.id !in l.inflight ==> r == l)
            && (l.open && !IsHello(frame) && frame.id in l.inflight ==>
                  var k := l.inflight[frame.id];
                  Moves(l, r, k, OnFrame(l.calls[k], frame, size, l.mark)))
  {
    if l.open && !IsHello(frame) && frame.id in l.inflight {
      var k := l.inflight[frame.id];
      var e := OnFrame(l.calls[k], frame, size, l.mark);
      FrameOk(l.calls[k], FramesFor(l.log, l.calls[k].id), frame, size, l.mark, l.open);
      ApplyMoves(l, k, e);
      assert Step(l, Arrives(frame, size)) == Apply(l, k, e);
    }
    CloseKeeps(l);
  }

  /** What a caller, an input or a consumer does reaches its own call. */
  lemma ProceedingIsHeard(l: Link, k: nat, event: CallEvent, first: S.Fate, second: S.Fate)
    requires Good(l) && k < |l.calls|
    ensures Moves(l, Step(l, Proceeds(k, event, first, second)), k, CallStep(l.calls[k], event, Net(l.open, first, second)))
  {
    var net := Net(l.open, first, second);
    CallStepOk(l.calls[k], FramesFor(l.log, l.calls[k].id), event, net);
    ApplyMoves(l, k, CallStep(l.calls[k], event, net));
    assert Step(l, Proceeds(k, event, first, second)) == Apply(l, k, CallStep(l.calls[k], event, net));
  }

  /** A close fails every call in flight with a local error, and touches no other. */
  lemma CloseFailsEverything(l: Link)
    requires Good(l) && l.open
    ensures var r := Step(l, Closes);
            && !r.open && r.log == l.log && |r.calls| == |l.calls|
            && forall k :: 0 <= k < |l.calls| ==>
                 if InFlight(l, k) then ClosedOff(l.calls[k], r.calls[k]) else r.calls[k] == l.calls[k]
  {
    var r := Step(l, Closes);
    forall k | 0 <= k < |l.calls| && InFlight(l, k) ensures ClosedOff(l.calls[k], r.calls[k]) {
      assert Live(l.calls[k]);
      CloseEnds(l.calls[k]);
    }
  }

  /** The promise is rejected, or the iterator fails, for no reason of the server's. */
  predicate ClosedOff(c: CallState, r: CallState) {
    EndsWith(c, Effect(r, [], true, false), ByClose, None)
  }

  lemma CloseEnds(c: CallState)
    ensures ClosedOff(c, Failed(c, ByClose))
  {
  }

  // ---- How much a receiver holds ----

  /** A duplex that can pause delivers only while it is not paused, and texts have a longest size. */
  predicate Paced(l: Link, e: Event, longest: nat) {
    e.Arrives? ==> !l.gate.paused && e.size <= longest
  }

  predicate AllPaced(l: Link, events: seq<Event>, longest: nat)
    decreases |events|
  {
    events == [] || (Paced(l, events[0], longest) && AllPaced(Step(l, events[0]), events[1..], longest))
  }

  predicate Held(c: CallState, bound: nat) {
    c.output.Some? && c.output.value.closing.Open? ==> c.output.value.buffered <= bound
  }

  /** At most one queue is paused, and every open one holds at most its mark and one text. */
  ghost predicate Tight(l: Link, longest: nat) {
    l.mark.Some? ==>
      && CountPaused(l.calls) <= 1
      && (forall k :: 0 <= k < |l.calls| ==> Bounded(l.calls[k], l.mark, longest))
  }

  predicate Bounded(c: CallState, mark: Option<nat>, longest: nat)
    requires mark.Some?
  {
    c.output.Some? ==> c.output.value.mark == mark && Held(c, mark.value + longest)
  }

  lemma PulledShrinks(q: Q.Queue<Payload>)
    requires Q.Good(q)
    ensures var r := Q.Pulled(q);
            r.buffered <= q.buffered && (r.paused ==> q.paused) && r.closing == q.closing && r.mark == q.mark
  {
  }

  lemma ClosedIsUnpaused(q: Q.Queue<Payload>, closing: Q.Closing)
    requires Q.Good(q) && !closing.Open?
    ensures var r := Q.ClosedWith(q, closing); !r.paused && !r.closing.Open? && r.mark == q.mark
  {
  }

  /** The output queue is as it was, or its consumer pulled from it, or it was closed. */
  ghost predicate Drawn(c: CallState, r: CallState) {
    || r.output == c.output
    || (c.output.Some? &&
        (|| r.output == Some(Q.Pulled(c.output.value))
         || (exists closing: Q.Closing :: !closing.Open? && r.output == Some(Q.ClosedWith(c.output.value, closing)))))
  }

  lemma FailAndCancelDraws(c: CallState, cause: Cause, open: bool, fate: S.Fate)
    ensures Drawn(c, Failed(c, cause)) && Drawn(c, FailAndCancel(c, cause, open, fate).call)
  {
  }

  lemma InputDraws(c: CallState, next: InputNext, net: Net)
    ensures Drawn(c, OnInput(c, next, net).call)
  {
    if c.pump.PullingInput? {
      match next
      case InThrows => FailAndCancelDraws(c, ByPump, net.open, net.first);
      case InEnds =>
      case InYields(input) => SendInputDraws(c.(inputProduced := c.inputProduced + [input]), input, net);
    }
  }

  lemma SendInputDraws(c: CallState, input: Payload, net: Net)
    ensures Drawn(c, SendInput(c, input, net).call)
  {
    if !net.open {
      FailAndCancelDraws(c, BySend(RefusalOf(net.first)), net.open, net.second);
    } else if net.first.Thrown? {
      FailAndCancelDraws(c, ByClose, net.open, net.second);
    } else if !net.first.Sent? {
      FailAndCancelDraws(c, BySend(RefusalOf(net.first)), net.open, net.second);
    }
  }

  lemma DrainDraws(c: CallState, outcome: DrainOutcome, net: Net)
    ensures Drawn(c, OnDrainSettled(c, outcome)) && Drawn(c, OnDrainResumed(c, net).call)
  {
    if c.pump == AwaitingDrain(Some(TimedOut)) {
      FailAndCancelDraws(c, ByPump, net.open, net.first);
    }
  }

  lemma ConsumerDraws(c: CallState, clean: bool, net: Net)
    ensures Drawn(c, OnConsumerNext(c)) && Drawn(c, OnConsumerStop(c, clean, net).call)
  {
  }

  /** Only frames fill an output queue. */
  lemma CallStepDraws(c: CallState, e: CallEvent, net: Net)
    ensures Drawn(c, CallStep(c, e, net).call)
  {
    match e
    case Aborts => FailAndCancelDraws(c, ByAbort, net.open, net.first);
    case InputSettles(next) => InputDraws(c, next, net);
    case DrainSettles(outcome) => DrainDraws(c, outcome, net);
    case DrainResumes => DrainDraws(c, Drained, net);
    case ConsumerPulls => ConsumerDraws(c, true, net);
    case ConsumerStops(clean) => ConsumerDraws(c, clean, net);
  }

  lemma DrawnHoldsLess(c: CallState, r: CallState, mark: Option<nat>, longest: nat)
    requires OutputOk(c) && mark.Some? && Bounded(c, mark, longest) && Drawn(c, r)
    ensures Bounded(r, mark, longest) && (Paused(r) ==> Paused(c))
  {
    if c.output.Some? {
      PulledShrinks(c.output.value);
      forall closing: Q.Closing | !closing.Open?
        ensures !Q.ClosedWith(c.output.value, closing).paused && !Q.ClosedWith(c.output.value, closing).closing.Open?
        ensures Q.ClosedWith(c.output.value, closing).mark == c.output.value.mark
      {
        ClosedIsUnpaused(c.output.value, closing);
      }
    }
  }

  lemma FirstFrameFills(c: CallState, frame: Frame, size: nat, mark: Option<nat>, longest: nat)
    requires c.output.None? && mark.Some? && size <= longest
    ensures Bounded(OnFirstFrame(c, frame, size, mark).call, mark, longest)
  {
  }

  lemma PushedFills(q: Q.Queue<Payload>, value: Payload, size: nat)
    requires Q.Good(q) && !q.paused && q.mark.Some?
    ensures var r := Q.Pushed(q, value, size);
            r.mark == q.mark && r.closing == q.closing && (q.closing.Open? ==> r.buffered <= q.mark.value + size)
  {
  }

  /** A frame of a stream that is no item fills nothing. */
  lemma StreamFrameDraws(c: CallState, frame: Frame, size: nat)
    requires !frame.Item? || c.output.None?
    ensures Drawn(c, OnStreamFrame(c, frame, size).call)
  {
  }

  lemma StreamFrameFills(c: CallState, frame: Frame, size: nat, mark: Option<nat>, longest: nat)
    requires OutputOk(c) && mark.Some? && !Paused(c) && size <= longest && Bounded(c, mark, longest)
    ensures Bounded(OnStreamFrame(c, frame, size).call, mark, longest)
  {
    if frame.Item? && c.output.Some? {
      PushedFills(c.output.value, frame.output, size);
    } else {
      StreamFrameDraws(c, frame, size);
      DrawnHoldsLess(c, OnStreamFrame(c, frame, size).call, mark, longest);
    }
  }

  /** A frame fills the queue of its own call by at most its own size. */
  lemma FrameFills(c: CallState, frame: Frame, size: nat, mark: Option<nat>, longest: nat)
    requires OutputOk(c) && mark.Some? && !Paused(c) && size <= longest && Bounded(c, mark, longest)
    requires c.mode.PendingFirst? ==> c.output.None?
    ensures Bounded(OnFrame(c, frame, size, mark).call, mark, longest)
  {
    match c.mode
    case PendingFirst => FirstFrameFills(c, frame, size, mark, longest);
    case StreamingOut => StreamFrameFills(c, frame, size, mark, longest);
    case Over =>
  }

  lemma AppliedTight(l: Link, k: nat, e: Effect, longest: nat)
    requires k < |l.calls| && Good(Apply(l, k, e.(close := false))) && Tight(l, longest) && l.mark.Some?
    requires Bounded(e.call, l.mark, longest)
    requires Paused(e.call) && !Paused(l.calls[k]) ==> CountPaused(l.calls) == 0
    ensures Tight(Apply(l, k, e), longest)
  {
    var r := Apply(l, k, e.(close := false));
    CountUpdate(l.calls, k, e.call, Paused);
    assert Tight(r, longest);
    CloseTight(r, longest);
  }

  lemma CloseTight(l: Link, longest: nat)
    requires Good(l) && Tight(l, longest)
    ensures Tight(Close(l), longest)
  {
    if l.open && l.mark.Some? {
      FailedAll(l);
      var r := Close(l);
      forall k | 0 <= k < |r.calls| ensures Bounded(r.calls[k], r.mark, longest) {
        assert Bounded(l.calls[k], l.mark, longest) && OutputOk(l.calls[k]);
        DrawnHoldsLess(l.calls[k], r.calls[k], l.mark, longest);
      }
    }
  }

  lemma ApplyLooselyKeeps(l: Link, k: nat, e: Effect)
    requires GoodBut(l, k) && k < |l.calls| && OutputOk(e.call)
    requires EffectOk(l.calls[k], FramesFor(l.log, l.calls[k].id), e, l.open)
    requires Live(e.call) ==> FramesFor(l.log, l.calls[k].id) + e.sent != []
    ensures Good(Apply(l, k, e.(close := false)))
  {
    var quiet := e.(close := false);
    assert EffectOk(l.calls[k], FramesFor(l.log, l.calls[k].id), quiet, l.open);
    ApplyKeeps(l, k, quiet);
  }

  lemma AllocateTight(l: Link, c: CallState, longest: nat)
    requires Tight(l, longest) && c.output.None?
    ensures Tight(Allocate(l, c), longest)
  {
    CountSnoc(l.calls, c, Paused);
  }

  lemma OpenHasNoOutput(c: CallState, signal: bool, aborted: bool, net: Net)
    requires c == ClientCalls.Fresh(c.id, c.request)
    ensures Open(c, signal, aborted, net).call.output.None?
  {
  }

  lemma OpenTight(l: Link, request: Request, signal: bool, aborted: bool,
                  first: S.Fate, second: S.Fate, longest: nat)
    requires Good(l) && Tight(l, longest)
    ensures Tight(OpenCall(l, request, signal, aborted, first, second), longest)
  {
    if l.open && l.mark.Some? {
      var c := ClientCalls.Fresh(Decimal(l.nextId), request);
      var net := Net(l.open, first, second);
      AllocateKeeps(l, c);
      AllocateTight(l, c, longest);
      FreshIdIsUnused(l);
      OpenOk(c.id, request, signal, aborted, net);
      OpenedNet(c, signal, aborted, net);
      OpenHasNoOutput(c, signal, aborted, net);
      OpenedTight(Allocate(l, c), |l.calls|, Open(c, signal, aborted, net), longest);
    }
  }

  lemma OpenedTight(l: Link, k: nat, e: Effect, longest: nat)
    requires GoodBut(l, k) && k < |l.calls| && Tight(l, longest) && l.mark.Some? && OutputOk(e.call)
    requires EffectOk(l.calls[k], FramesFor(l.log, l.calls[k].id), e, l.open)
    requires Live(e.call) ==> FramesFor(l.log, l.calls[k].id) + e.sent != []
    requires e.call.output.None?
    ensures Tight(Apply(l, k, e), longest)
  {
    ApplyLooselyKeeps(l, k, e);
    AppliedTight(l, k, e, longest);
  }

  lemma RouteTight(l: Link, frame: Frame, size: nat, longest: nat)
    requires Good(l) && Tight(l, longest) && !l.gate.paused && size <= longest
    ensures Tight(Route(l, frame, size), longest)
  {
    if frame.Hello? || frame.HelloOk? || frame.HelloError? {
      CloseTight(l, longest);
    } else if frame.id in l.inflight && l.mark.Some? {
      DeliverTight(l, l.inflight[frame.id], frame, size, longest);
    }
  }

  lemma DeliverTight(l: Link, k: nat, frame: Frame, size: nat, longest: nat)
    requires Good(l) && Tight(l, longest) && !l.gate.paused && size <= longest && k < |l.calls| && l.mark.Some?
    ensures Tight(Apply(l, k, OnFrame(l.calls[k], frame, size, l.mark)), longest)
  {
    var e := OnFrame(l.calls[k], frame, size, l.mark);
    if Paused(l.calls[k]) {
      CountPositive(l.calls, k, Paused);
    }
    FrameOk(l.calls[k], FramesFor(l.log, l.calls[k].id), frame, size, l.mark, l.open);
    FrameOutputOk(l.calls[k], frame, size, l.mark);
    ApplyLooselyKeeps(l, k, e);
    FrameFills(l.calls[k], frame, size, l.mark, longest);
    AppliedTight(l, k, e, longest);
  }

  lemma ProceedTight(l: Link, k: nat, event: CallEvent, first: S.Fate, second: S.Fate, longest: nat)
    requires Good(l) && Tight(l, longest) && k < |l.calls|
    ensures Tight(Apply(l, k, CallStep(l.calls[k], event, Net(l.open, first, second))), longest)
  {
    if l.mark.Some? {
      var net := Net(l.open, first, second);
      var effect := CallStep(l.calls[k], event, net);
      CallStepOk(l.calls[k], FramesFor(l.log, l.calls[k].id), event, net);
      ApplyLooselyKeeps(l, k, effect);
      CallStepDraws(l.calls[k], event, net);
      DrawnHoldsLess(l.calls[k], effect.call, l.mark, longest);
      AppliedTight(l, k, effect, longest);
    }
  }

  lemma StepTight(l: Link, e: Event, longest: nat)
    requires Good(l) && Tight(l, longest) && Paced(l, e, longest)
    ensures Tight(Step(l, e), longest)
  {
    match e
    case Opens(request, signal, aborted, first, second) =>
      assert Step(l, e) == OpenCall(l, request, signal, aborted, first, second);
      OpenTight(l, request, signal, aborted, first, second, longest);
    case Arrives(frame, size) =>
      assert Step(l, e) == if l.open then Route(l, frame, size) else l;
      RouteTight(l, frame, size, longest);
    case Proceeds(k, event, first, second) =>
      if k < |l.calls| {
        assert Step(l, e) == Apply(l, k, CallStep(l.calls[k], event, Net(l.open, first, second)));
        ProceedTight(l, k, event, first, second, longest);
      }
    case Closes => CloseTight(l, longest);
  }

  /**
   * Over a duplex that stops delivering when it is paused, at most one receive
   * queue is ever paused, and an open one never holds more than its mark and one
   * text.
   */
  lemma {:induction false} EveryRunIsTight(l: Link, events: seq<Event>, longest: nat)
    requires Good(l) && Tight(l, longest) && AllPaced(l, events, longest)
    ensures Tight(Run(l, events), longest)
    decreases |events|
  {
    if events != [] {
      StepKeeps(l, events[0]);
      StepTight(l, events[0], longest);
      EveryRunIsTight(Step(l, events[0]), events[1..], longest);
    }
  }

  // ---- What one step adds ----

  /** The log only grows, by at most a call and its cancel, and a closed link stays closed. */
  ghost predicate Grown(l: Link, r: Link) {
    l.log <= r.log && |r.log| <= |l.log| + 2 && (r.open ==> l.open) && |r.calls| >= |l.calls|
  }

  lemma ApplyGrows(l: Link, k: nat, e: Effect)
    requires k < |l.calls| && |e.sent| <= 2
    ensures Grown(l, Apply(l, k, e)) && (e.sent == [] ==> Apply(l, k, e).log == l.log)
  {
    assert l.log + [] == l.log;
  }

  lemma OpenGrows(l: Link, request: Request, signal: bool, aborted: bool,
                  first: S.Fate, second: S.Fate)
    ensures Grown(l, OpenCall(l, request, signal, aborted, first, second))
  {
    if l.open {
      var c := ClientCalls.Fresh(Decimal(l.nextId), request);
      var net := Net(l.open, first, second);
      OpenOk(c.id, request, signal, aborted, net);
      ApplyGrows(Allocate(l, c), |l.calls|, Open(c, signal, aborted, net));
    }
  }

  lemma FramesSendNothing(c: CallState, frame: Frame, size: nat, mark: Option<nat>)
    ensures OnFrame(c, frame, size, mark).sent == [] && !OnFrame(c, frame, size, mark).close
  {
  }

  lemma RouteGrows(l: Link, frame: Frame, size: nat)
    ensures Grown(l, Route(l, frame, size)) && Route(l, frame, size).log == l.log
  {
    if !frame.Hello? && !frame.HelloOk? && !frame.HelloError? && frame.id in l.inflight && l.inflight[frame.id] < |l.calls| {
      var k := l.inflight[frame.id];
      FramesSendNothing(l.calls[k], frame, size, l.mark);
      ApplyGrows(l, k, OnFrame(l.calls[k], frame, size, l.mark));
    }
  }

  lemma ProceedGrows(l: Link, k: nat, event: CallEvent, first: S.Fate, second: S.Fate)
    requires Good(l) && k < |l.calls|
    ensures Grown(l, Apply(l, k, CallStep(l.calls[k], event, Net(l.open, first, second))))
  {
    CallStepOk(l.calls[k], FramesFor(l.log, l.calls[k].id), event, Net(l.open, first, second));
    ApplyGrows(l, k, CallStep(l.calls[k], event, Net(l.open, first, second)));
  }

  lemma StepGrows(l: Link, e: Event)
    requires Good(l)
    ensures Grown(l, Step(l, e)) && (e.Arrives? || e.Closes? ==> Step(l, e).log == l.log)
  {
    match e
    case Opens(request, signal, aborted, first, second) =>
      OpenGrows(l, request, signal, aborted, first, second);
    case Arrives(frame, size) => RouteGrows(l, frame, size);
    case Proceeds(k, event, first, second) => if k < |l.calls| { ProceedGrows(l, k, event, first, second); }
    case Closes =>
  }
}
