/**
 * The server side of one connection: every call it has accepted, the ids in
 * flight, and what it has sent. The peer may send any frames in any order and
 * reuse ids; handlers, timers and sends may come out in any way.
 *
 * `calls` keeps every instance ever accepted, also those whose id has since been
 * given to a newer one; `inflight` maps an id to its present instance.
 */
module ServerMux {
  import opened Basics
  import opened FrameCodec
  import opened Reads
  import opened ServerCalls
  import S = Sessions
  import Q = PushQueues

  datatype Sender = ByCall(call: nat) | ByRouter

  /** A frame handed to the duplex; `busy` says its id was in flight then. */
  datatype Outgoing = Outgoing(frame: Frame, from: Sender, busy: bool)

  datatype Mux = Mux(
    open: bool,
    mark: Option<nat>,
    reports: bool,
    calls: seq<CallState>,
    inflight: map<string, nat>,
    gate: Gate,
    log: seq<Outgoing>)

  function Fresh(mark: Option<nat>, reports: bool): Mux {
    Mux(true, mark, reports, [], map[], Gate(0, false), [])
  }

  predicate InFlight(m: Mux, k: nat) {
    k < |m.calls| && m.calls[k].id in m.inflight && m.inflight[m.calls[k].id] == k
  }

  // ---- The operations ----

  function CountPaused(calls: seq<CallState>): nat {
    CountOf(calls, Paused)
  }

  /** Cancel every call in flight. */
  function CancelAll(m: Mux): seq<CallState> {
    seq(|m.calls|, i requires 0 <= i < |m.calls| => if InFlight(m, i) then CancelCall(m.calls[i]) else m.calls[i])
  }

  function AbortAll(m: Mux): Mux {
    var calls := CancelAll(m);
    var resumed := CountPaused(m.calls) - CountPaused(calls);
    m.(calls := calls, inflight := map[], gate := ResumeMany(m.gate, if resumed >= 0 then resumed else 0))
  }

  function Close(m: Mux): Mux {
    if !m.open then m else AbortAll(m.(open := false))
  }

  /** Put back a changed call; its input queue tells the gate. */
  function Update(m: Mux, k: nat, c: CallState): Mux
    requires k < |m.calls|
  {
    m.(calls := m.calls[k := c], gate := Follow(m.gate, Paused(m.calls[k]), Paused(c)))
  }

  function Tagged(frames: seq<Frame>, from: Sender, inflight: map<string, nat>): seq<Outgoing> {
    seq(|frames|, i requires 0 <= i < |frames| =>
      Outgoing(frames[i], from, !frames[i].Hello? && !frames[i].HelloOk? && !frames[i].HelloError? && frames[i].id in inflight))
  }

  /** What a call's step does to the connection. */
  function Apply(m: Mux, k: nat, e: Effect): Mux
    requires k < |m.calls|
  {
    var m1 := Update(m, k, e.call).(log := m.log + Tagged(e.sent, ByCall(k), m.inflight),
                                    inflight := if e.settle then m.inflight - {e.call.id} else m.inflight);
    if e.close then Close(m1) else m1
  }

  /** An error result for an id that no call answers for. */
  function RouterErr(m: Mux, id: string, message: string, fate: S.Fate): Mux {
    if !m.open then m
    else if fate.Sent? then
      m.(log := m.log + Tagged([ResultErr(id, WireError("BAD_REQUEST", message, None))], ByRouter, m.inflight),
         inflight := m.inflight - {id})
    else Close(m)
  }

  function OnInvalid(m: Mux, id: string, fate: S.Fate): Mux {
    if id in m.inflight then m else RouterErr(m, id, "Invalid frame", fate)
  }

  function StartCall(m: Mux, call: Frame): Mux
    requires call.Call?
  {
    if call.id in m.inflight then m
    else m.(calls := m.calls + [ServerCalls.Fresh(call, m.mark)], inflight := m.inflight[call.id := |m.calls|])
  }

  function OnCancel(m: Mux, id: string): Mux {
    if id in m.inflight && m.inflight[id] < |m.calls|
    then Update(m, m.inflight[id], CancelCall(m.calls[m.inflight[id]])).(inflight := m.inflight - {id})
    else m
  }

  function OnInput(m: Mux, frame: Frame, size: nat): Mux
    requires frame.InItem? || frame.InDone?
  {
    if frame.id in m.inflight && m.inflight[frame.id] < |m.calls|
    then Update(m, m.inflight[frame.id], PushInput(m.calls[m.inflight[frame.id]], frame, size))
    else m
  }

  function OnFrame(m: Mux, frame: Frame, size: nat, fate: S.Fate): Mux {
    if frame.Call? then StartCall(m, frame)
    else if frame.InItem? || frame.InDone? then OnInput(m, frame, size)
    else if frame.Cancel? then OnCancel(m, frame.id)
    else if frame.Hello? || frame.HelloOk? || frame.HelloError? then Close(m)
    else if frame.id in m.inflight then m
    else RouterErr(m, frame.id, "Unexpected frame", fate)
  }

  // ---- All runs ----

  datatype CallEvent =
    | DispatchSettles(result: Dispatched)
    | NextSettles(next: Next)
    | DrainSettles(outcome: DrainOutcome)
    | DrainResumes
    | ReportSettles

  datatype Event =
    | Arrives(frame: Frame, size: nat, fate: S.Fate)
    | ArrivesInvalid(id: string, fate: S.Fate)
    | Proceeds(call: nat, event: CallEvent, first: S.Fate, second: S.Fate)
    | Consumes(call: nat)
    | Closes

  function CallStep(c: CallState, e: CallEvent, net: Net): Effect {
    match e
    case DispatchSettles(result) => OnDispatched(c, result, net)
    case NextSettles(next) => OnNext(c, next, net)
    case DrainSettles(outcome) => Quiet(OnDrainSettled(c, outcome))
    case DrainResumes => OnDrainResumed(c, net)
    case ReportSettles => OnReported(c, net)
  }

  /** A session that has closed hands up no more frames. */
  function Step(m: Mux, e: Event): Mux {
    match e
    case Arrives(frame, size, fate) => if m.open then OnFrame(m, frame, size, fate) else m
    case ArrivesInvalid(id, fate) => if m.open then OnInvalid(m, id, fate) else m
    case Proceeds(k, event, first, second) =>
      if k < |m.calls| then Apply(m, k, CallStep(m.calls[k], event, Net(m.open, first, second, m.reports))) else m
    case Consumes(k) => if k < |m.calls| then Update(m, k, PullInput(m.calls[k])) else m
    case Closes => Close(m)
  }

  function Run(m: Mux, events: seq<Event>): Mux
    decreases |events|
  {
    if events == [] then m else Run(Step(m, events[0]), events[1..])
  }

  // ---- What every run keeps ----

  /** The frames one call instance has sent. */
  function FramesBy(log: seq<Outgoing>, k: nat): seq<Frame> {
    if log == [] then []
    else
      var last := log[|log| - 1];
      FramesBy(log[..|log| - 1], k) + (if last.from == ByCall(k) then [last.frame] else [])
  }

  /** The ids in flight are those of the calls that may still send, one each. */
  ghost predicate Routed(m: Mux) {
    && (forall id :: id in m.inflight ==>
          m.inflight[id] < |m.calls| && m.calls[m.inflight[id]].id == id && Live(m.calls[m.inflight[id]]))
    && (forall k :: 0 <= k < |m.calls| && Live(m.calls[k]) ==> InFlight(m, k))
    && (!m.open ==> m.inflight == map[])
  }

  ghost predicate Counted(m: Mux) {
    Exact(m.gate) && m.gate.pausedQueues == CountPaused(m.calls)
  }

  ghost predicate CallsOk(m: Mux) {
    forall k :: 0 <= k < |m.calls| ==> CallOk(m.calls[k], FramesBy(m.log, k))
  }

  ghost predicate InputsOk(m: Mux) {
    forall k :: 0 <= k < |m.calls| ==> InputOk(m.calls[k])
  }

  /** Nobody answers for an id in flight but its own call. */
  ghost predicate LogOk(m: Mux) {
    forall i :: 0 <= i < |m.log| ==>
      if m.log[i].from.ByCall? then m.log[i].from.call < |m.calls| else m.log[i].frame.ResultErr? && !m.log[i].busy
  }

  ghost predicate Good(m: Mux) {
    Routed(m) && Counted(m) && CallsOk(m) && InputsOk(m) && LogOk(m)
  }

  lemma FramesBySnoc(log: seq<Outgoing>, last: Outgoing, k: nat)
    ensures FramesBy(log + [last], k) == FramesBy(log, k) + (if last.from == ByCall(k) then [last.frame] else [])
  {
    assert (log + [last])[..|log|] == log;
  }

  lemma FramesByTagged(m: Mux, frames: seq<Frame>, from: Sender, k: nat)
    requires |frames| <= 1
    ensures FramesBy(m.log + Tagged(frames, from, m.inflight), k)
         == FramesBy(m.log, k) + (if from == ByCall(k) then frames else [])
  {
    var tail := Tagged(frames, from, m.inflight);
    if frames == [] {
      assert m.log + tail == m.log;
    } else {
      assert tail == [tail[0]] && frames == [frames[0]];
      FramesBySnoc(m.log, tail[0], k);
    }
  }

  lemma {:induction false} NoFramesYet(log: seq<Outgoing>, k: nat)
    requires forall i :: 0 <= i < |log| && log[i].from.ByCall? ==> log[i].from.call < k
    ensures FramesBy(log, k) == []
  {
    if log != [] {
      NoFramesYet(log[..|log| - 1], k);
    }
  }

  // ---- Counting paused queues ----

  lemma UpdateCounted(m: Mux, k: nat, c: CallState)
    requires Counted(m) && k < |m.calls|
    ensures Counted(Update(m, k, c))
  {
    CountUpdate(m.calls, k, c, Paused);
    if Paused(m.calls[k]) {
      CountPositive(m.calls, k, Paused);
    }
    FollowKeepsExact(m.gate, Paused(m.calls[k]), Paused(c));
  }

  // ---- Closing ----

  lemma CancelledAll(m: Mux)
    requires CallsOk(m) && InputsOk(m)
    requires forall k :: 0 <= k < |m.calls| && Live(m.calls[k]) ==> InFlight(m, k)
    ensures var calls := CancelAll(m);
            forall k :: 0 <= k < |calls| ==>
              && CallOk(calls[k], FramesBy(m.log, k)) && InputOk(calls[k]) && !Live(calls[k])
              && (Paused(calls[k]) ==> Paused(m.calls[k]))
  {
    var calls := CancelAll(m);
    forall k | 0 <= k < |calls|
      ensures CallOk(calls[k], FramesBy(m.log, k)) && InputOk(calls[k]) && !Live(calls[k])
      ensures Paused(calls[k]) ==> Paused(m.calls[k])
    {
      CancelOk(m.calls[k], FramesBy(m.log, k));
    }
  }

  lemma CancelledCounted(m: Mux)
    requires Counted(m)
    requires var calls := CancelAll(m); forall k :: 0 <= k < |calls| ==> (Paused(calls[k]) ==> Paused(m.calls[k]))
    ensures Counted(AbortAll(m))
  {
    CountFewer(m.calls, CancelAll(m), Paused);
    ResumeManyKeepsExact(m.gate, CountPaused(m.calls) - CountPaused(CancelAll(m)));
  }

  /** Cancelling everything needs less than a good state: it is enough that every live call is in flight. */
  lemma AbortLooselyKeeps(m: Mux)
    requires Counted(m) && CallsOk(m) && InputsOk(m) && LogOk(m)
    requires forall k :: 0 <= k < |m.calls| && Live(m.calls[k]) ==> InFlight(m, k)
    ensures Good(AbortAll(m)) && AbortAll(m).inflight == map[]
  {
    CancelledAll(m);
    CancelledCounted(m);
    var r := AbortAll(m);
    assert Routed(r);
    assert CallsOk(r) && InputsOk(r) && LogOk(r);
  }

  lemma CloseKeeps(m: Mux)
    requires Good(m)
    ensures Good(Close(m)) && !Close(m).open
  {
    if m.open {
      var m1 := m.(open := false);
      ClosedRouted(m);
    }
  }

  /** What the aborted connection is called does not matter to its calls. */
  lemma ClosedKeeps(m: Mux)
    requires Good(m) && m.inflight == map[]
    ensures Good(m.(open := false))
  {
    assert forall k :: 0 <= k < |m.calls| ==> !Live(m.calls[k]) || InFlight(m, k);
  }

  lemma ClosedRouted(m: Mux)
    requires Good(m)
    ensures Good(AbortAll(m.(open := false)))
  {
    AbortLooselyKeeps(m);
    ClosedKeeps(AbortAll(m));
    ClosedIs(m);
  }

  lemma ClosedIs(m: Mux)
    ensures AbortAll(m.(open := false)) == AbortAll(m).(open := false)
  {
    assert CancelAll(m.(open := false)) == CancelAll(m);
  }

  // ---- Each operation ----

  /** What one call sends is added to its own frames and to no other's. */
  lemma AppliedCallsOk(m: Mux, k: nat, e: Effect)
    requires CallsOk(m) && k < |m.calls| && EffectOk(m.calls[k], FramesBy(m.log, k), e, m.open)
    ensures CallsOk(Apply(m, k, e.(close := false)))
  {
    var m1 := Apply(m, k, e.(close := false));
    forall j | 0 <= j < |m1.calls| ensures CallOk(m1.calls[j], FramesBy(m1.log, j)) {
      FramesByTagged(m, e.sent, ByCall(k), j);
      assert FramesBy(m.log, j) + [] == FramesBy(m.log, j);
      assert j != k ==> CallOk(m.calls[j], FramesBy(m.log, j));
    }
  }

  lemma AppliedLogOk(m: Mux, k: nat, e: Effect)
    requires LogOk(m) && k < |m.calls|
    ensures LogOk(Apply(m, k, e.(close := false)))
  {
  }

  lemma AppliedRouted(m: Mux, k: nat, e: Effect)
    requires Routed(m) && k < |m.calls| && e.call.id == m.calls[k].id && !e.close
    requires Live(m.calls[k]) && m.open ==> (Live(e.call) <==> !e.settle)
    requires !Live(m.calls[k]) ==> !e.settle && !Live(e.call)
    ensures Routed(Apply(m, k, e))
  {
    var m1 := Apply(m, k, e);
    assert Live(m.calls[k]) ==> InFlight(m, k);
    forall j | 0 <= j < |m1.calls| && Live(m1.calls[j]) ensures InFlight(m1, j) {
      assert InFlight(m, j);
    }
  }

  lemma EndedInputOk(c: CallState, e: Effect, frames: seq<Frame>, open: bool)
    requires InputOk(c) && EffectOk(c, frames, e, open)
    ensures InputOk(e.call)
  {
    EndInputOk(c);
  }

  /**
   * A step that must close the session: what it leaves behind is as if the call
   * were still in flight, and the close cancels it with the others.
   */
  lemma ApplyKeeps(m: Mux, k: nat, e: Effect)
    requires Good(m) && k < |m.calls| && EffectOk(m.calls[k], FramesBy(m.log, k), e, m.open)
    requires e.close ==> !e.settle
    ensures Good(Apply(m, k, e))
  {
    AppliedCallsOk(m, k, e);
    AppliedLogOk(m, k, e);
    UpdateCounted(m, k, e.call);
    EndedInputOk(m.calls[k], e, FramesBy(m.log, k), m.open);
    if e.close {
      ClosingApplyKeeps(m, k, e);
    } else {
      AppliedRouted(m, k, e);
    }
  }

  lemma ClosingApplyKeeps(m: Mux, k: nat, e: Effect)
    requires Good(m) && k < |m.calls| && EffectOk(m.calls[k], FramesBy(m.log, k), e, m.open)
    requires e.close && !e.settle
    requires var m1 := Apply(m, k, e.(close := false));
             Counted(m1) && CallsOk(m1) && InputsOk(m1) && LogOk(m1)
    ensures Good(Apply(m, k, e))
  {
    var m1 := Apply(m, k, e.(close := false));
    forall j | 0 <= j < |m1.calls| && Live(m1.calls[j]) ensures InFlight(m1, j) {
      assert InFlight(m, j);
    }
    AbortLooselyKeeps(m1.(open := false));
  }

  lemma RouterErrKeeps(m: Mux, id: string, message: string, fate: S.Fate)
    requires Good(m) && id !in m.inflight
    ensures Good(RouterErr(m, id, message, fate))
  {
    CloseKeeps(m);
    if m.open && fate.Sent? {
      var frame := ResultErr(id, WireError("BAD_REQUEST", message, None));
      RouterFrameKeeps(m, frame);
      assert m.inflight - {id} == m.inflight;
    }
  }

  lemma RouterFrameKeeps(m: Mux, frame: Frame)
    requires Good(m) && frame.ResultErr? && frame.id !in m.inflight
    ensures Good(m.(log := m.log + Tagged([frame], ByRouter, m.inflight)))
  {
    var m1 := m.(log := m.log + Tagged([frame], ByRouter, m.inflight));
    forall k | 0 <= k < |m1.calls| ensures CallOk(m1.calls[k], FramesBy(m1.log, k)) {
      FramesByTagged(m, [frame], ByRouter, k);
      assert FramesBy(m.log, k) + [] == FramesBy(m.log, k);
    }
    forall k | 0 <= k < |m1.calls| && Live(m1.calls[k]) ensures InFlight(m1, k) {
      assert InFlight(m, k);
    }
  }

  lemma StartedRouted(m: Mux, c: CallState)
    requires Routed(m) && m.open && c.id !in m.inflight && Live(c)
    ensures Routed(m.(calls := m.calls + [c], inflight := m.inflight[c.id := |m.calls|]))
  {
    var m1 := m.(calls := m.calls + [c], inflight := m.inflight[c.id := |m.calls|]);
    forall k | 0 <= k < |m1.calls| && Live(m1.calls[k]) ensures InFlight(m1, k) {
      assert k < |m.calls| ==> InFlight(m, k);
    }
  }

  lemma StartedCallsOk(m: Mux, c: CallState)
    requires CallsOk(m) && InputsOk(m) && LogOk(m) && CallOk(c, []) && InputOk(c)
    ensures var m1 := m.(calls := m.calls + [c], inflight := m.inflight[c.id := |m.calls|]);
            CallsOk(m1) && InputsOk(m1) && LogOk(m1)
  {
    NoFramesYet(m.log, |m.calls|);
  }

  lemma StartKeeps(m: Mux, call: Frame)
    requires Good(m) && m.open && call.Call?
    ensures Good(StartCall(m, call))
  {
    if call.id !in m.inflight {
      var c := ServerCalls.Fresh(call, m.mark);
      FreshOk(call, m.mark);
      CountSnoc(m.calls, c, Paused);
      StartedRouted(m, c);
      StartedCallsOk(m, c);
    }
  }

  lemma CancelKeeps(m: Mux, id: string)
    requires Good(m)
    ensures Good(OnCancel(m, id))
  {
    if id in m.inflight {
      var k := m.inflight[id];
      var m1 := OnCancel(m, id);
      CancelOk(m.calls[k], FramesBy(m.log, k));
      UpdateCounted(m, k, CancelCall(m.calls[k]));
      forall j | 0 <= j < |m1.calls| && Live(m1.calls[j]) ensures InFlight(m1, j) {
        assert j != k && InFlight(m, j);
      }
    }
  }

  /** Input streams change nothing but the call's queue and the gate. */
  lemma InputUpdateKeeps(m: Mux, k: nat, c: CallState)
    requires Good(m) && k < |m.calls| && InputOk(c) && c.(input := m.calls[k].input) == m.calls[k]
    ensures Good(Update(m, k, c))
  {
    var m1 := Update(m, k, c);
    UpdateCounted(m, k, c);
    forall j | 0 <= j < |m1.calls|
      ensures CallOk(m1.calls[j], FramesBy(m1.log, j)) && (Live(m1.calls[j]) ==> InFlight(m1, j))
    {
      assert CallOk(m.calls[j], FramesBy(m.log, j));
      assert Live(m.calls[j]) ==> InFlight(m, j);
    }
  }

  lemma FrameKeeps(m: Mux, frame: Frame, size: nat, fate: S.Fate)
    requires Good(m) && m.open
    ensures Good(OnFrame(m, frame, size, fate))
  {
    if frame.Call? {
      StartKeeps(m, frame);
    } else if frame.InItem? || frame.InDone? {
      if frame.id in m.inflight {
        var k := m.inflight[frame.id];
        PushPullOk(m.calls[k], frame, size);
        InputUpdateKeeps(m, k, PushInput(m.calls[k], frame, size));
      }
    } else if frame.Cancel? {
      CancelKeeps(m, frame.id);
    } else if frame.Hello? || frame.HelloOk? || frame.HelloError? {
      CloseKeeps(m);
    } else if frame.id !in m.inflight {
      RouterErrKeeps(m, frame.id, "Unexpected frame", fate);
    }
  }

  lemma CallStepOk(c: CallState, frames: seq<Frame>, e: CallEvent, net: Net)
    requires CallOk(c, frames)
    ensures EffectOk(c, frames, CallStep(c, e, net), net.open)
    ensures CallStep(c, e, net).close ==> !CallStep(c, e, net).settle
  {
    match e
    case DispatchSettles(result) => DispatchedOk(c, frames, result, net);
    case NextSettles(next) => NextOk(c, frames, next, net);
    case DrainSettles(outcome) =>
      DrainSettledOk(c, frames, outcome);
      QuietOk(c, frames, OnDrainSettled(c, outcome), net.open);
    case DrainResumes => DrainResumedOk(c, frames, net);
    case ReportSettles => ReportedOk(c, frames, net);
  }

  lemma StepKeeps(m: Mux, e: Event)
    requires Good(m)
    ensures Good(Step(m, e))
  {
    match e
    case Arrives(frame, size, fate) => if m.open { FrameKeeps(m, frame, size, fate); }
    case ArrivesInvalid(id, fate) => if m.open && id !in m.inflight { RouterErrKeeps(m, id, "Invalid frame", fate); }
    case Proceeds(k, event, first, second) =>
      if k < |m.calls| {
        var net := Net(m.open, first, second, m.reports);
        CallStepOk(m.calls[k], FramesBy(m.log, k), event, net);
        ApplyKeeps(m, k, CallStep(m.calls[k], event, net));
      }
    case Consumes(k) =>
      if k < |m.calls| {
        PushPullOk(m.calls[k], InDone(""), 0);
        InputUpdateKeeps(m, k, PullInput(m.calls[k]));
      }
    case Closes => CloseKeeps(m);
  }

  lemma FreshIsGood(mark: Option<nat>, reports: bool)
    ensures Good(Fresh(mark, reports))
  {
  }

  lemma {:induction false} EveryRunIsGood(m: Mux, events: seq<Event>)
    requires Good(m)
    ensures Good(Run(m, events))
    decreases |events|
  {
    if events != [] {
      StepKeeps(m, events[0]);
      EveryRunIsGood(Step(m, events[0]), events[1..]);
    }
  }

  // ---- What follows for the peer ----

  /** The trace language of every call ever accepted, whatever the peer and the handlers do. */
  lemma EveryCallSpeaksItsLanguage(mark: Option<nat>, reports: bool, events: seq<Event>, k: nat)
    requires k < |Run(Fresh(mark, reports), events).calls|
    ensures var m := Run(Fresh(mark, reports), events);
            var frames := FramesBy(m.log, k);
            && Legal(frames)
            && Items(frames) <= m.calls[k].produced
            && (EndsWithDone(frames) ==> m.calls[k].exhausted && Items(frames) == m.calls[k].produced)
            && (frames != [] && Terminal(frames[|frames| - 1]) ==> !InFlight(m, k) && Explains(m.calls[k], frames[|frames| - 1]))
  {
    FreshIsGood(mark, reports);
    EveryRunIsGood(Fresh(mark, reports), events);
  }

  /**
   * The iterator of every streamed call is returned exactly once, as soon as the
   * call is cancelled or waits for it no longer, unless it ended by itself before;
   * a call that did not stream returns none.
   */
  lemma IteratorsAreReturned(mark: Option<nat>, reports: bool, events: seq<Event>, k: nat)
    requires k < |Run(Fresh(mark, reports), events).calls|
    ensures var c := Run(Fresh(mark, reports), events).calls[k];
            && c.returned <= 1
            && (c.returned == 1 <==> c.streamed && (c.cancelled || !(c.phase.Pulling? || c.phase.Draining? || c.exhausted)))
            && (c.streamed && c.phase.Finished? && !c.exhausted ==> c.returned == 1)
            && (c.streamed <== c.phase.Pulling? || c.phase.Draining? || c.exhausted || c.produced != [])
  {
    FreshIsGood(mark, reports);
    EveryRunIsGood(Fresh(mark, reports), events);
    assert CallOk(Run(Fresh(mark, reports), events).calls[k], FramesBy(Run(Fresh(mark, reports), events).log, k));
  }

  /** Nothing but a handler that streams makes a call take an iterator, and no call forgets that it did. */
  lemma StreamedExactly(c: CallState, e: CallEvent, net: Net)
    ensures CallStep(c, e, net).call.streamed
       <==> c.streamed || (c.phase.Dispatching? && !c.cancelled && e == DispatchSettles(Streams))
  {
    match e
    case DispatchSettles(_) =>
    case NextSettles(next) => NextStreams(c, next, net);
    case _ =>
  }

  lemma NextStreams(c: CallState, next: Next, net: Net)
    ensures OnNext(c, next, net).call.streamed == c.streamed
  {
    if next.Yields? && !next.shape.Plain? {
      var c1 := c.(produced := c.produced + [next.output], ending := Some(Offered(next.shape)));
      FailStreams(CloseIterator(c1), NotAnItem(next.shape), net);
    }
  }

  lemma FailStreams(c: CallState, thrown: Throw, net: Net)
    ensures Fail(c, thrown, net).call.streamed == c.streamed
  {
  }

  /** A handler is told to stop exactly when its call was, and always when the id is given up before it has finished. */
  lemma HandlersAreAborted(mark: Option<nat>, reports: bool, events: seq<Event>, k: nat)
    requires k < |Run(Fresh(mark, reports), events).calls|
    ensures var m := Run(Fresh(mark, reports), events);
            var c := m.calls[k];
            && (c.aborted <==> c.cancelled)
            && (!c.phase.Finished? && !InFlight(m, k) ==> c.aborted)
            && (c.aborted ==> c.input.Some? ==> !c.input.value.closing.Open?)
  {
    FreshIsGood(mark, reports);
    EveryRunIsGood(Fresh(mark, reports), events);
    var m := Run(Fresh(mark, reports), events);
    assert CallOk(m.calls[k], FramesBy(m.log, k)) && InputOk(m.calls[k]);
  }

  /** Nobody answers for a busy id: a router error never hits an id in flight. */
  lemma RouterNeverAnswersBusyIds(mark: Option<nat>, reports: bool, events: seq<Event>, i: nat)
    requires i < |Run(Fresh(mark, reports), events).log|
    ensures var o := Run(Fresh(mark, reports), events).log[i];
            o.from.ByRouter? ==> o.frame.ResultErr? && !o.busy
  {
    FreshIsGood(mark, reports);
    EveryRunIsGood(Fresh(mark, reports), events);
  }

  /** A call that is over (finished, cancelled or closed) changes nothing on the connection any more. */
  lemma OldInstanceIsHarmless(m: Mux, k: nat, e: CallEvent, first: S.Fate, second: S.Fate)
    requires Good(m) && k < |m.calls| && !Live(m.calls[k])
    ensures var r := Step(m, Proceeds(k, e, first, second));
            r.log == m.log && r.inflight == m.inflight && r.open == m.open && r.gate == m.gate
            && !Live(r.calls[k]) && forall j :: 0 <= j < |m.calls| && j != k ==> r.calls[j] == m.calls[j]
  {
    var net := Net(m.open, first, second, m.reports);
    CallStepOk(m.calls[k], FramesBy(m.log, k), e, net);
    assert m.log + [] == m.log;
  }

  lemma ApplyIsLocal(m: Mux, k: nat, e: Effect)
    requires Routed(m) && k < |m.calls| && e.call.id == m.calls[k].id && (e.settle ==> InFlight(m, k))
    ensures var r := Apply(m, k, e.(close := false));
            forall j :: 0 <= j < |m.calls| && j != k ==> r.calls[j] == m.calls[j] && (InFlight(r, j) <==> InFlight(m, j))
  {
  }

  /** A step of one call leaves every other id as it was, unless it has to close the session. */
  lemma CallsAreIndependent(m: Mux, k: nat, e: CallEvent, first: S.Fate, second: S.Fate)
    requires Good(m) && k < |m.calls|
    ensures var r := Step(m, Proceeds(k, e, first, second));
            r.open == m.open ==>
              (forall j :: 0 <= j < |m.calls| && j != k ==> r.calls[j] == m.calls[j] && (InFlight(r, j) <==> InFlight(m, j)))
  {
    var net := Net(m.open, first, second, m.reports);
    var effect := CallStep(m.calls[k], e, net);
    CallStepOk(m.calls[k], FramesBy(m.log, k), e, net);
    ApplyIsLocal(m, k, effect);
    assert effect.close ==> !Step(m, Proceeds(k, e, first, second)).open;
  }

  lemma SilentClose(m: Mux, k: nat)
    requires k < |m.calls| && !Live(m.calls[k])
    ensures var r := Close(m); k < |r.calls| && !Live(r.calls[k]) && r.log == m.log
  {
  }

  lemma SilentApply(m: Mux, j: nat, e: Effect, k: nat)
    requires k < |m.calls| && !Live(m.calls[k]) && j < |m.calls| && |e.sent| <= 1
    requires j == k ==> e.sent == [] && !Live(e.call)
    ensures var r := Apply(m, j, e);
            k < |r.calls| && !Live(r.calls[k]) && FramesBy(r.log, k) == FramesBy(m.log, k)
  {
    FramesByTagged(m, e.sent, ByCall(j), k);
    var m1 := Apply(m, j, e.(close := false));
    assert FramesBy(m1.log, k) == FramesBy(m.log, k) by {
      assert FramesBy(m.log, k) + [] == FramesBy(m.log, k);
    }
    SilentClose(m1, k);
  }

  lemma SilentRouter(m: Mux, id: string, message: string, fate: S.Fate, k: nat)
    requires k < |m.calls| && !Live(m.calls[k])
    ensures var r := RouterErr(m, id, message, fate);
            k < |r.calls| && !Live(r.calls[k]) && FramesBy(r.log, k) == FramesBy(m.log, k)
  {
    AnsweredByRouter(m, id, message);
    SilentClose(m, k);
  }

  /** Putting back a changed call that cannot send leaves those that are over as they are. */
  lemma SilentUpdate(m: Mux, j: nat, c: CallState, k: nat)
    requires k < |m.calls| && !Live(m.calls[k]) && j < |m.calls| && (Live(c) ==> Live(m.calls[j]))
    ensures k < |Update(m, j, c).calls| && !Live(Update(m, j, c).calls[k])
  {
  }

  lemma SilentFrame(m: Mux, frame: Frame, size: nat, fate: S.Fate, k: nat)
    requires Routed(m) && k < |m.calls| && !Live(m.calls[k])
    ensures var r := OnFrame(m, frame, size, fate);
            k < |r.calls| && !Live(r.calls[k]) && FramesBy(r.log, k) == FramesBy(m.log, k)
  {
    if frame.ResultOk? || frame.ResultErr? || frame.Item? || frame.Done? {
      SilentRouter(m, frame.id, "Unexpected frame", fate, k);
    } else if frame.InItem? || frame.InDone? {
      if frame.id in m.inflight {
        SilentUpdate(m, m.inflight[frame.id], PushInput(m.calls[m.inflight[frame.id]], frame, size), k);
      }
    } else if frame.Cancel? {
      if frame.id in m.inflight {
        SilentUpdate(m, m.inflight[frame.id], CancelCall(m.calls[m.inflight[frame.id]]), k);
      }
    } else if !frame.Call? {
      SilentClose(m, k);
    }
  }

  lemma SilentStep(m: Mux, e: Event, k: nat)
    requires Good(m) && k < |m.calls| && !Live(m.calls[k])
    ensures var r := Step(m, e);
            k < |r.calls| && !Live(r.calls[k]) && FramesBy(r.log, k) == FramesBy(m.log, k)
  {
    match e
    case Arrives(frame, size, fate) => SilentFrame(m, frame, size, fate, k);
    case ArrivesInvalid(id, fate) => SilentRouter(m, id, "Invalid frame", fate, k);
    case Proceeds(j, event, first, second) =>
      if j < |m.calls| {
        var net := Net(m.open, first, second, m.reports);
        CallStepOk(m.calls[j], FramesBy(m.log, j), event, net);
        SilentApply(m, j, CallStep(m.calls[j], event, net), k);
      }
    case Consumes(j) =>
    case Closes => SilentClose(m, k);
  }

  /** Nothing is sent for a call after its terminal frame, its cancel or a close, in any continuation. */
  lemma {:induction false} SilentOnceOver(m: Mux, events: seq<Event>, k: nat)
    requires Good(m) && k < |m.calls| && !Live(m.calls[k])
    ensures var r := Run(m, events);
            k < |r.calls| && !Live(r.calls[k]) && FramesBy(r.log, k) == FramesBy(m.log, k)
    decreases |events|
  {
    if events != [] {
      SilentStep(m, events[0], k);
      StepKeeps(m, events[0]);
      SilentOnceOver(Step(m, events[0]), events[1..], k);
    }
  }

  ghost predicate EndsTerminal(frames: seq<Frame>) {
    frames != [] && Terminal(frames[|frames| - 1])
  }

  /** While the session is open, a call that ran to its end has answered: it is never left hanging. */
  ghost predicate Answered(m: Mux) {
    m.open ==> forall k :: 0 <= k < |m.calls| && m.calls[k].phase.Finished? && !m.calls[k].cancelled ==>
      EndsTerminal(FramesBy(m.log, k))
  }

  /** One call's step, before any close. */
  lemma AnsweredChange(m: Mux, k: nat, e: Effect)
    requires Answered(m) && k < |m.calls| && |e.sent| <= 1 && !e.close && m.open
    requires !Live(m.calls[k]) && !m.calls[k].cancelled ==> e.sent == []
    requires m.calls[k].cancelled ==> e.call.cancelled
    requires Live(m.calls[k]) && !Live(e.call) ==> e.sent != [] && Terminal(e.sent[0])
    ensures Answered(Apply(m, k, e))
  {
    var r := Apply(m, k, e);
    forall j | 0 <= j < |r.calls| && r.calls[j].phase.Finished? && !r.calls[j].cancelled
      ensures EndsTerminal(FramesBy(r.log, j))
    {
      FramesByTagged(m, e.sent, ByCall(k), j);
      assert FramesBy(m.log, j) + [] == FramesBy(m.log, j);
    }
  }

  lemma AnsweredApply(m: Mux, k: nat, e: Effect)
    requires Answered(m) && k < |m.calls| && |e.sent| <= 1
    requires !Live(m.calls[k]) && !m.calls[k].cancelled ==> e.sent == []
    requires m.calls[k].cancelled ==> e.call.cancelled
    requires Live(m.calls[k]) && !Live(e.call) && m.open && !e.close ==> e.sent != [] && Terminal(e.sent[0])
    ensures Answered(Apply(m, k, e))
  {
    if m.open && !e.close {
      AnsweredChange(m, k, e);
    } else {
      assert !Apply(m, k, e).open;
    }
  }

  lemma AnsweredStart(m: Mux, call: Frame)
    requires Answered(m) && call.Call?
    ensures Answered(StartCall(m, call))
  {
    var r := StartCall(m, call);
    if r.open {
      forall k | 0 <= k < |r.calls| && r.calls[k].phase.Finished? && !r.calls[k].cancelled
        ensures EndsTerminal(FramesBy(r.log, k))
      {
        assert k < |m.calls| && r.calls[k] == m.calls[k];
      }
    }
  }

  /** Replacing a call by one in the same phase that is cancelled if it was. */
  lemma AnsweredUpdate(m: Mux, k: nat, c: CallState)
    requires Answered(m) && k < |m.calls|
    requires c.phase.Finished? && !c.cancelled ==> m.calls[k].phase.Finished? && !m.calls[k].cancelled
    ensures Answered(Update(m, k, c))
  {
  }

  lemma AnsweredStep(m: Mux, e: Event)
    requires Good(m) && Answered(m)
    ensures Answered(Step(m, e))
  {
    match e
    case Proceeds(k, event, first, second) =>
      if k < |m.calls| {
        var net := Net(m.open, first, second, m.reports);
        CallStepOk(m.calls[k], FramesBy(m.log, k), event, net);
        AnsweredApply(m, k, CallStep(m.calls[k], event, net));
      }
    case Arrives(frame, size, fate) => if m.open { AnsweredFrame(m, frame, size, fate); }
    case ArrivesInvalid(id, fate) => AnsweredByRouter(m, id, "Invalid frame");
    case Consumes(k) => if k < |m.calls| { AnsweredUpdate(m, k, PullInput(m.calls[k])); }
    case Closes =>
  }

  lemma AnsweredFrame(m: Mux, frame: Frame, size: nat, fate: S.Fate)
    requires Good(m) && Answered(m)
    ensures Answered(OnFrame(m, frame, size, fate))
  {
    if frame.Call? {
      AnsweredStart(m, frame);
    } else if frame.InItem? || frame.InDone? {
      if frame.id in m.inflight {
        AnsweredUpdate(m, m.inflight[frame.id], PushInput(m.calls[m.inflight[frame.id]], frame, size));
      }
    } else if frame.Cancel? {
      if frame.id in m.inflight {
        AnsweredUpdate(m, m.inflight[frame.id], CancelCall(m.calls[m.inflight[frame.id]]));
      }
    } else if frame.ResultOk? || frame.ResultErr? || frame.Item? || frame.Done? {
      AnsweredByRouter(m, frame.id, "Unexpected frame");
    }
  }

  lemma AnsweredByRouter(m: Mux, id: string, message: string)
    ensures var error := ResultErr(id, WireError("BAD_REQUEST", message, None));
            forall k :: FramesBy(m.log + Tagged([error], ByRouter, m.inflight), k) == FramesBy(m.log, k)
  {
    var error := ResultErr(id, WireError("BAD_REQUEST", message, None));
    forall k ensures FramesBy(m.log + Tagged([error], ByRouter, m.inflight), k) == FramesBy(m.log, k) {
      FramesByTagged(m, [error], ByRouter, k);
      assert FramesBy(m.log, k) + [] == FramesBy(m.log, k);
    }
  }

  /** Every call that finishes on an open session without being cancelled has sent its terminal frame. */
  lemma {:induction false} EveryFinishedCallIsAnswered(m: Mux, events: seq<Event>)
    requires Good(m) && Answered(m)
    ensures Answered(Run(m, events))
    decreases |events|
  {
    if events != [] {
      StepKeeps(m, events[0]);
      AnsweredStep(m, events[0]);
      EveryFinishedCallIsAnswered(Step(m, events[0]), events[1..]);
    }
  }

  // ---- What each frame of the peer comes to ----

  /** Nothing has happened to any call but `k`, and nothing was sent. */
  ghost predicate OnlyTouches(m: Mux, r: Mux, k: nat) {
    && |r.calls| == |m.calls|
    && (forall j :: 0 <= j < |m.calls| && j != k ==> r.calls[j] == m.calls[j] && (InFlight(r, j) <==> InFlight(m, j)))
    && r.log == m.log && r.open == m.open
  }

  lemma UpdateTouches(m: Mux, k: nat, c: CallState)
    requires k < |m.calls| && c.id == m.calls[k].id
    ensures OnlyTouches(m, Update(m, k, c), k) && Update(m, k, c).calls[k] == c && Update(m, k, c).inflight == m.inflight
  {
  }

  /** Instance `n` is new and was started by this frame. */
  ghost predicate Started(m: Mux, r: Mux, call: Frame)
    requires call.Call?
  {
    var n := |m.calls|;
    && |r.calls| == n + 1 && r.calls[..n] == m.calls && InFlight(r, n)
    && r.log == m.log && r.open == m.open && r.inflight == m.inflight[call.id := n]
    && r.calls[n].id == call.id && r.calls[n].path == call.path
    && r.calls[n].phase.Dispatching? && !r.calls[n].cancelled && !r.calls[n].aborted
    && r.calls[n].argument == (if call.stream || call.input == Some(Null) then None else call.input)
    && r.calls[n].input == (if call.stream then Some(Q.Fresh(m.mark)) else None)
  }

  /**
   * A `call` frame with an id that is not in flight starts its handler, with the path
   * and the input it carries or an input stream; with one in flight it is ignored.
   */
  lemma CallFrameStarts(m: Mux, call: Frame, size: nat, fate: S.Fate)
    requires Good(m) && m.open && call.Call?
    ensures var r := Step(m, Arrives(call, size, fate));
            if call.id in m.inflight then r == m else Started(m, r, call)
  {
  }

  /** A `cancel` frame stops the call in flight under its id and frees the id; any other is ignored. */
  lemma CancelFrameStops(m: Mux, id: string, size: nat, fate: S.Fate)
    requires Good(m) && m.open
    ensures var r := Step(m, Arrives(Frame.Cancel(id), size, fate));
            && (id !in m.inflight ==> r == m)
            && (id in m.inflight ==>
                  var k := m.inflight[id];
                  && OnlyTouches(m, r, k) && id !in r.inflight
                  && Stopped(r.calls[k]))
  {
    if id in m.inflight {
      var k := m.inflight[id];
      UpdateTouches(m, k, CancelCall(m.calls[k]));
      OthersStay(m, k);
    }
  }

  /** Giving up one id leaves the others in flight. */
  lemma OthersStay(m: Mux, k: nat)
    requires Good(m) && InFlight(m, k)
    ensures var r := m.(inflight := m.inflight - {m.calls[k].id});
            forall j :: 0 <= j < |m.calls| && j != k ==> (InFlight(r, j) <==> InFlight(m, j))
  {
  }

  /** What an input frame does to the input stream of its call. */
  ghost predicate Hears(q: Q.Queue<Payload>, r: Q.Queue<Payload>, frame: Frame) {
    && (!q.closing.Open? ==> r == q)
    && (q.closing.Open? && frame.InItem? ==> r.pushed == q.pushed + [frame.input] && r.closing.Open?)
    && (q.closing.Open? && frame.InDone? ==> r.pushed == q.pushed && r.closing == Q.Ended)
  }

  /**
   * An `in-item` reaches the input stream of the call in flight under its id unless
   * that has ended, an `in-done` ends it, and a call without one ignores both.
   */
  lemma InputFrameIsHeard(m: Mux, frame: Frame, size: nat, fate: S.Fate)
    requires Good(m) && m.open && (frame.InItem? || frame.InDone?)
    ensures var r := Step(m, Arrives(frame, size, fate));
            && (frame.id !in m.inflight ==> r == m)
            && (frame.id in m.inflight ==>
                  var k := m.inflight[frame.id];
                  && OnlyTouches(m, r, k) && InFlight(r, k)
                  && r.calls[k].(input := m.calls[k].input) == m.calls[k]
                  && (r.calls[k].input.Some? <==> m.calls[k].input.Some?)
                  && (m.calls[k].input.Some? ==> Hears(m.calls[k].input.value, r.calls[k].input.value, frame)))
  {
    if frame.id in m.inflight {
      var k := m.inflight[frame.id];
      PushIsHeard(m.calls[k], frame, size);
      UpdateTouches(m, k, PushInput(m.calls[k], frame, size));
    }
  }

  lemma PushIsHeard(c: CallState, frame: Frame, size: nat)
    requires InputOk(c) && (frame.InItem? || frame.InDone?)
    ensures var r := PushInput(c, frame, size);
            && (r.input.Some? <==> c.input.Some?)
            && (c.input.Some? ==> Hears(c.input.value, r.input.value, frame))
  {
    if c.input.Some? && c.input.value.closing.Open? && frame.InDone? {
      Q.ClosedIs(c.input.value, Q.Ended);
    }
  }

  /** The error that answers a frame no call is there for, or a close if it cannot be sent. */
  ghost predicate Rejects(m: Mux, r: Mux, id: string, message: string, fate: S.Fate) {
    if fate.Sent?
    then
      && r.log == m.log + [Outgoing(ResultErr(id, WireError("BAD_REQUEST", message, None)), ByRouter, false)]
      && r.calls == m.calls && r.inflight == m.inflight && r.open
    else !r.open && r.log == m.log
  }

  /** A frame that only a server sends, or one that is not valid, is answered unless its id is in flight. */
  lemma StrayFrameIsRejected(m: Mux, frame: Frame, size: nat, fate: S.Fate)
    requires Good(m) && m.open && (frame.ResultOk? || frame.ResultErr? || frame.Item? || frame.Done?)
    ensures var r := Step(m, Arrives(frame, size, fate));
            if frame.id in m.inflight then r == m else Rejects(m, r, frame.id, "Unexpected frame", fate)
    ensures var r := Step(m, ArrivesInvalid(frame.id, fate));
            if frame.id in m.inflight then r == m else Rejects(m, r, frame.id, "Invalid frame", fate)
  {
    assert m.inflight - {frame.id} == m.inflight || frame.id in m.inflight;
  }

  /** A close stops every call in flight, and no other. */
  lemma CloseStopsEverything(m: Mux)
    requires Good(m)
    ensures var r := Step(m, Closes);
            && !r.open && r.inflight == map[] && r.log == m.log && |r.calls| == |m.calls|
            && forall k :: 0 <= k < |m.calls| ==> if InFlight(m, k) then Stopped(r.calls[k]) else r.calls[k] == m.calls[k]
  {
    CloseKeeps(m);
  }

  predicate Stopped(c: CallState) {
    c.cancelled && c.aborted && !c.iterating
  }

  /** A second handshake frame closes, and once closed no frame does anything. */
  lemma HelloCloses(m: Mux, frame: Frame, size: nat, fate: S.Fate)
    ensures m.open && IsHello(frame) ==> Step(m, Arrives(frame, size, fate)) == Step(m, Closes)
    ensures !m.open ==> Step(m, Arrives(frame, size, fate)) == m && forall id :: Step(m, ArrivesInvalid(id, fate)) == m
  {
  }

  /** What a handler does reaches its own call, and the frame it leads to goes out under its own number. */
  lemma ProceedingIsHeard(m: Mux, k: nat, event: CallEvent, first: S.Fate, second: S.Fate)
    requires Good(m) && k < |m.calls|
    ensures var r := Step(m, Proceeds(k, event, first, second));
            var e := CallStep(m.calls[k], event, Net(m.open, first, second, m.reports));
            && FramesBy(r.log, k) == FramesBy(m.log, k) + e.sent
            && (e.close <==> m.open && !r.open)
            && (!e.close ==>
                  && r.calls == m.calls[k := e.call]
                  && r.inflight == if e.settle then m.inflight - {m.calls[k].id} else m.inflight)
  {
    var net := Net(m.open, first, second, m.reports);
    var e := CallStep(m.calls[k], event, net);
    CallStepOk(m.calls[k], FramesBy(m.log, k), event, net);
    FramesByTagged(m, e.sent, ByCall(k), k);
    ApplyIs(m, k, e);
    assert Step(m, Proceeds(k, event, first, second)) == Apply(m, k, e);
  }

  lemma ApplyIs(m: Mux, k: nat, e: Effect)
    requires k < |m.calls|
    ensures var r := Apply(m, k, e);
            && r.log == m.log + Tagged(e.sent, ByCall(k), m.inflight)
            && r.open == (m.open && !e.close)
            && (!e.close ==>
                  && r.calls == m.calls[k := e.call]
                  && r.inflight == if e.settle then m.inflight - {e.call.id} else m.inflight)
  {
  }

  /** A handler that asks for its next input has asked once more. */
  lemma ConsumingIsHeard(m: Mux, k: nat)
    requires Good(m) && k < |m.calls| && m.calls[k].input.Some?
    ensures var r := Step(m, Consumes(k));
            && OnlyTouches(m, r, k) && r.calls[k].input.Some?
            && Q.Asked(r.calls[k].input.value) == Q.Asked(m.calls[k].input.value) + 1
  {
    Q.ApplyAsks(m.calls[k].input.value, Q.DoNext);
    UpdateTouches(m, k, PullInput(m.calls[k]));
  }

  // ---- What one step adds ----

  /** The log only grows, by at most one frame, and a closed connection stays closed. */
  ghost predicate Grown(m: Mux, r: Mux) {
    m.log <= r.log && |r.log| <= |m.log| + 1 && (r.open ==> m.open) && |r.calls| >= |m.calls|
  }

  lemma ApplyGrows(m: Mux, k: nat, e: Effect)
    requires k < |m.calls| && |e.sent| <= 1
    ensures Grown(m, Apply(m, k, e))
  {
  }

  lemma FrameGrows(m: Mux, frame: Frame, size: nat, fate: S.Fate)
    ensures Grown(m, OnFrame(m, frame, size, fate))
  {
  }

  lemma StepGrows(m: Mux, e: Event)
    requires Good(m)
    ensures Grown(m, Step(m, e))
  {
    match e
    case Arrives(frame, size, fate) => FrameGrows(m, frame, size, fate);
    case ArrivesInvalid(id, fate) =>
    case Proceeds(k, event, first, second) =>
      if k < |m.calls| {
        var net := Net(m.open, first, second, m.reports);
        CallStepOk(m.calls[k], FramesBy(m.log, k), event, net);
        ApplyGrows(m, k, CallStep(m.calls[k], event, net));
      }
    case Consumes(k) =>
    case Closes =>
  }

  // ---- What a step does to a call's input ----

  lemma FailKeepsInput(c: CallState, thrown: Throw, net: Net)
    ensures var r := Fail(c, thrown, net).call; r.input == c.input && r.cancelled == c.cancelled
  {
  }

  lemma NextKeepsInput(c: CallState, next: Next, net: Net)
    ensures var r := OnNext(c, next, net).call; r.input == c.input && r.cancelled == c.cancelled
  {
    match next
    case NextThrows(thrown) => FailKeepsInput(CloseIterator(c.(ending := Some(Threw(thrown)))), thrown, net);
    case Ends =>
    case Yields(output, shape) =>
      var c1 := c.(produced := c.produced + [output], ending := Some(Offered(shape)));
      FailKeepsInput(CloseIterator(c1), NotAnItem(shape), net);
  }

  lemma DispatchedKeepsInput(c: CallState, result: Dispatched, net: Net)
    ensures var r := OnDispatched(c, result, net).call; r.input == c.input && r.cancelled == c.cancelled
  {
    if result.DispatchThrows? {
      FailKeepsInput(c.(ending := Some(Threw(result.thrown))), result.thrown, net);
    }
  }

  lemma OthersKeepInput(c: CallState, outcome: DrainOutcome, net: Net)
    ensures var r := OnReported(c, net).call; r.input == c.input && r.cancelled == c.cancelled
    ensures var r := OnDrainSettled(c, outcome); r.input == c.input && r.cancelled == c.cancelled
  {
  }

  lemma ResumedInput(c: CallState, net: Net)
    ensures var r := OnDrainResumed(c, net).call;
            (r.input == c.input && r.cancelled == c.cancelled) || r.input == EndInput(c).input
  {
    GivenUpInput(c);
  }

  lemma GivenUpInput(c: CallState)
    ensures GivenUp(c).input == EndInput(c).input
  {
  }

  lemma ResumedIsHealthy(c: CallState, net: Net)
    requires InputOk(c)
    ensures InputOk(OnDrainResumed(c, net).call)
  {
    ResumedInput(c, net);
    EndInputOk(c);
  }

  /** Only a drain that comes too late touches the input queue. */
  lemma StepKeepsInput(c: CallState, event: CallEvent, net: Net)
    ensures var r := CallStep(c, event, net).call;
            !event.DrainResumes? ==> r.input == c.input && r.cancelled == c.cancelled
  {
    match event
    case DispatchSettles(result) => DispatchedKeepsInput(c, result, net);
    case NextSettles(next) => NextKeepsInput(c, next, net);
    case DrainSettles(outcome) => OthersKeepInput(c, outcome, net);
    case DrainResumes =>
    case ReportSettles => OthersKeepInput(c, Drained, net);
  }

  lemma StepIsHealthy(c: CallState, event: CallEvent, net: Net)
    requires InputOk(c)
    ensures InputOk(CallStep(c, event, net).call)
  {
    StepKeepsInput(c, event, net);
    if event.DrainResumes? {
      ResumedIsHealthy(c, net);
    }
  }

  // ---- When reads stay paused ----

  /** Every queue that pauses the reads belongs to a call in flight. */
  ghost predicate Released(m: Mux) {
    forall k :: 0 <= k < |m.calls| && Paused(m.calls[k]) ==> InFlight(m, k)
  }

  /** What a call answers its caller with, once it gets to it. */
  predicate Answers(c: CallState, event: CallEvent, reports: bool) {
    match event
    case DispatchSettles(result) =>
      c.phase.Dispatching? && (result.Returns? || (result.DispatchThrows? && (result.thrown.ProtocolError? || !reports)))
    case NextSettles(next) =>
      && c.phase.Pulling?
      && (next.Ends? || (next.Yields? && !next.shape.Plain?) || (next.NextThrows? && (next.thrown.ProtocolError? || !reports)))
    case ReportSettles => c.phase.Reporting?
    case _ => false
  }

  predicate EmitsItem(c: CallState, event: CallEvent) {
    event.NextSettles? && c.phase.Pulling? && event.next.Yields? && event.next.shape.Plain?
  }

  /** The substitute for a frame that is too large or cannot be serialised goes out. */
  predicate Replaced(first: S.Fate, second: S.Fate) {
    (first.TooLarge? || first.Unserializable?) && second.Sent?
  }

  /** The step sends its call's last frame. */
  predicate Ends(c: CallState, event: CallEvent, reports: bool, first: S.Fate, second: S.Fate) {
    || (Answers(c, event, reports) && (first.Sent? || Replaced(first, second)))
    || (EmitsItem(c, event) && Replaced(first, second))
  }

  /** A call that is neither cancelled nor closed sends its last frame while its input is over the mark. */
  predicate LeavesPaused(m: Mux, e: Event) {
    && e.Proceeds? && m.open && e.call < |m.calls|
    && Live(m.calls[e.call]) && Paused(m.calls[e.call])
    && Ends(m.calls[e.call], e.event, m.reports, e.first, e.second)
  }

  /** Which steps of a live call settle its id: those that send the last frame, and the one that finds the peer stalled. */
  ghost predicate Settling(c: CallState, event: CallEvent, net: Net) {
    var e := CallStep(c, event, net);
    && (Ends(c, event, net.reports, net.first, net.second) ==> e.settle && e.call.input == c.input)
    && (e.settle && !Ends(c, event, net.reports, net.first, net.second) ==> event.DrainResumes?)
  }

  lemma DispatchSettlesExactly(c: CallState, result: Dispatched, net: Net)
    requires Live(c) && net.open
    ensures Settling(c, DispatchSettles(result), net)
  {
  }

  lemma NextSettlesExactly(c: CallState, next: Next, net: Net)
    requires Live(c) && net.open
    ensures Settling(c, NextSettles(next), net)
  {
    if c.phase.Pulling? {
      NextKeepsInput(c, next, net);
      match next
      case Yields(output, shape) =>
        if shape.Plain? {
          ItemSettlesExactly(c, output, net);
        } else {
          RefusalSettlesExactly(c, output, shape, net);
        }
      case _ => EndSettlesExactly(c, next, net);
    }
  }

  lemma ItemSettlesExactly(c: CallState, output: Payload, net: Net)
    requires Live(c) && net.open && c.phase.Pulling?
    ensures OnNext(c, Yields(output, Plain), net).settle <==> Replaced(net.first, net.second)
  {
  }

  lemma RefusalSettlesExactly(c: CallState, output: Payload, shape: Shape, net: Net)
    requires Live(c) && net.open && c.phase.Pulling? && !shape.Plain?
    ensures OnNext(c, Yields(output, shape), net).settle <==> net.first.Sent? || Replaced(net.first, net.second)
  {
  }

  lemma EndSettlesExactly(c: CallState, next: Next, net: Net)
    requires Live(c) && net.open && c.phase.Pulling? && !next.Yields?
    ensures OnNext(c, next, net).settle
       <==> (next.Ends? || next.thrown.ProtocolError? || !net.reports) && (net.first.Sent? || Replaced(net.first, net.second))
  {
  }

  lemma SettlesExactly(c: CallState, event: CallEvent, net: Net)
    requires Live(c) && net.open
    ensures Settling(c, event, net)
  {
    match event
    case DispatchSettles(result) => DispatchSettlesExactly(c, result, net);
    case NextSettles(next) => NextSettlesExactly(c, next, net);
    case _ =>
  }

  /** A stalled call has ended its input when it gives its id up. */
  lemma StalledSettles(c: CallState, net: Net)
    requires InputOk(c)
    ensures OnDrainResumed(c, net).settle ==> !Paused(OnDrainResumed(c, net).call)
  {
    EndInputOk(c);
  }

  /** No step of a call pauses its own input. */
  lemma StepPausesNothing(c: CallState, event: CallEvent, net: Net)
    requires InputOk(c)
    ensures Paused(CallStep(c, event, net).call) ==> Paused(c)
  {
    StepKeepsInput(c, event, net);
    ResumedInput(c, net);
    EndInputOk(c);
  }

  /** One call changed, and may have given its id up. */
  lemma OneChangedReleased(m: Mux, r: Mux, k: nat)
    requires Released(m) && k < |m.calls| == |r.calls| && r.calls == m.calls[k := r.calls[k]] && r.calls[k].id == m.calls[k].id
    requires r.inflight == m.inflight || (InFlight(m, k) && r.inflight == m.inflight - {m.calls[k].id})
    ensures Released(r) <==> (Paused(r.calls[k]) ==> InFlight(r, k))
  {
    forall j | 0 <= j < |r.calls| && j != k && Paused(r.calls[j]) ensures InFlight(r, j) {
      assert InFlight(m, j);
    }
  }

  /** A close leaves no queue paused. */
  lemma CloseReleases(m: Mux)
    requires InputsOk(m) && Released(m)
    ensures Released(Close(m))
  {
    var calls := CancelAll(m.(open := false));
    forall k | 0 <= k < |m.calls| ensures InFlight(m, k) ==> !Paused(calls[k]) {
      EndInputOk(m.calls[k]);
      assert InFlight(m.(open := false), k) <==> InFlight(m, k);
    }
    assert m.open ==> Close(m).calls == calls;
  }

  lemma RouterErrReleased(m: Mux, id: string, message: string, fate: S.Fate)
    requires InputsOk(m) && Released(m) && id !in m.inflight
    ensures Released(RouterErr(m, id, message, fate))
  {
    CloseReleases(m);
    assert m.inflight - {id} == m.inflight;
  }

  lemma StartReleased(m: Mux, call: Frame)
    requires Released(m) && call.Call?
    ensures Released(StartCall(m, call))
  {
    var r := StartCall(m, call);
    forall k | 0 <= k < |r.calls| && Paused(r.calls[k]) ensures InFlight(r, k) {
      assert k < |m.calls| ==> InFlight(m, k);
    }
  }

  lemma CancelReleased(m: Mux, id: string)
    requires Good(m) && Released(m)
    ensures Released(OnCancel(m, id))
  {
    if id in m.inflight {
      var k := m.inflight[id];
      EndInputOk(m.calls[k]);
      OneChangedReleased(m, OnCancel(m, id), k);
    }
  }

  lemma InputReleased(m: Mux, frame: Frame, size: nat)
    requires Good(m) && Released(m) && (frame.InItem? || frame.InDone?)
    ensures Released(OnInput(m, frame, size))
  {
    if frame.id in m.inflight {
      OneChangedReleased(m, OnInput(m, frame, size), m.inflight[frame.id]);
    }
  }

  lemma FrameReleased(m: Mux, frame: Frame, size: nat, fate: S.Fate)
    requires Good(m) && Released(m)
    ensures Released(OnFrame(m, frame, size, fate))
  {
    if frame.Call? {
      StartReleased(m, frame);
    } else if frame.InItem? || frame.InDone? {
      InputReleased(m, frame, size);
    } else if frame.Cancel? {
      CancelReleased(m, frame.id);
    } else if frame.Hello? || frame.HelloOk? || frame.HelloError? {
      CloseReleases(m);
    } else if frame.id !in m.inflight {
      RouterErrReleased(m, frame.id, "Unexpected frame", fate);
    }
  }

  lemma PullReleased(m: Mux, k: nat)
    requires Released(m) && k < |m.calls|
    ensures Released(Step(m, Consumes(k)))
  {
    var r := Step(m, Consumes(k));
    assert Paused(r.calls[k]) ==> Paused(m.calls[k]);
    OneChangedReleased(m, r, k);
  }

  /** What a step of one call leaves, before any close. */
  lemma AppliedReleased(m: Mux, k: nat, e: Effect)
    requires Good(m) && Released(m) && k < |m.calls| && e.call.id == m.calls[k].id && (Paused(e.call) ==> Paused(m.calls[k]))
    requires e.settle ==> Live(m.calls[k])
    ensures Released(Apply(m, k, e.(close := false))) <==> !(e.settle && Paused(e.call))
  {
    var r := Apply(m, k, e.(close := false));
    assert Live(m.calls[k]) ==> InFlight(m, k);
    OneChangedReleased(m, r, k);
  }

  /** A step gives the id up over a paused input exactly when it sends the last frame there. */
  lemma SettlesPaused(c: CallState, frames: seq<Frame>, event: CallEvent, net: Net)
    requires CallOk(c, frames) && InputOk(c)
    ensures var e := CallStep(c, event, net);
            e.settle && Paused(e.call) <==>
              net.open && Live(c) && Paused(c) && Ends(c, event, net.reports, net.first, net.second)
  {
    CallStepOk(c, frames, event, net);
    StepPausesNothing(c, event, net);
    StalledSettles(c, net);
    if Live(c) && net.open {
      SettlesExactly(c, event, net);
    }
  }

  lemma ProceedReleased(m: Mux, k: nat, event: CallEvent, first: S.Fate, second: S.Fate)
    requires Good(m) && Released(m) && k < |m.calls|
    ensures var e := Proceeds(k, event, first, second); Released(Step(m, e)) <==> !LeavesPaused(m, e)
  {
    var c, net := m.calls[k], Net(m.open, first, second, m.reports);
    var e := CallStep(c, event, net);
    CallStepOk(c, FramesBy(m.log, k), event, net);
    SettlesPaused(c, FramesBy(m.log, k), event, net);
    StepPausesNothing(c, event, net);
    StepIsHealthy(c, event, net);
    assert Step(m, Proceeds(k, event, first, second)) == Apply(m, k, e);
    ReleasedApply(m, k, e);
  }

  /** The same for what the step asks of the connection; one that must close it gives no id up. */
  lemma ReleasedApply(m: Mux, k: nat, e: Effect)
    requires Good(m) && Released(m) && k < |m.calls| && e.call.id == m.calls[k].id && (Paused(e.call) ==> Paused(m.calls[k]))
    requires (e.settle ==> Live(m.calls[k])) && (e.close ==> !e.settle) && InputOk(e.call)
    ensures Released(Apply(m, k, e)) <==> !(e.settle && Paused(e.call))
  {
    AppliedReleased(m, k, e);
    if e.close {
      CloseReleases(Apply(m, k, e.(close := false)));
    }
  }

  /**
   * A queue stays paused behind a call that is gone after exactly one kind of
   * event: a call sends its last frame, neither cancelled nor closed, while its
   * input is over the mark.
   */
  lemma ReleasedExactly(m: Mux, e: Event)
    requires Good(m) && Released(m)
    ensures Released(Step(m, e)) <==> !LeavesPaused(m, e)
  {
    match e
    case Arrives(frame, size, fate) => FrameReleased(m, frame, size, fate);
    case ArrivesInvalid(id, fate) => if id !in m.inflight { RouterErrReleased(m, id, "Invalid frame", fate); }
    case Proceeds(k, event, first, second) => if k < |m.calls| { ProceedReleased(m, k, event, first, second); }
    case Consumes(k) => if k < |m.calls| { PullReleased(m, k); }
    case Closes => CloseReleases(m);
  }

  /** No event of the run leaves a queue paused behind its call. */
  predicate AllReleasing(m: Mux, events: seq<Event>)
    decreases |events|
  {
    events == [] || (!LeavesPaused(m, events[0]) && AllReleasing(Step(m, events[0]), events[1..]))
  }

  lemma {:induction false} EveryRunIsReleased(m: Mux, events: seq<Event>)
    requires Good(m) && Released(m) && AllReleasing(m, events)
    ensures Good(Run(m, events)) && Released(Run(m, events))
    decreases |events|
  {
    if events != [] {
      StepKeeps(m, events[0]);
      ReleasedExactly(m, events[0]);
      EveryRunIsReleased(Step(m, events[0]), events[1..]);
    }
  }

  /** Without such an event read pausing is exact on the server too. */
  lemma PausingIsExact(mark: Option<nat>, reports: bool, events: seq<Event>)
    requires AllReleasing(Fresh(mark, reports), events)
    ensures var m := Run(Fresh(mark, reports), events);
            && m.gate.pausedQueues == CountPaused(m.calls)
            && (m.gate.paused <==> exists k: nat :: InFlight(m, k) && Paused(m.calls[k]))
            && (m.inflight == map[] ==> m.gate == Gate(0, false))
  {
    FreshIsGood(mark, reports);
    EveryRunIsReleased(Fresh(mark, reports), events);
    var m := Run(Fresh(mark, reports), events);
    if k: nat :| InFlight(m, k) && Paused(m.calls[k]) {
      CountPositive(m.calls, k, Paused);
    } else {
      assert forall k: nat :: k < |m.calls| && Paused(m.calls[k]) ==> InFlight(m, k);
      CountZero(m.calls, Paused);
    }
  }

  /** A queue that is over its mark behind a call that is gone. */
  predicate StuckAt(m: Mux, k: nat) {
    k < |m.calls| && Paused(m.calls[k]) && !InFlight(m, k)
  }

  /** Putting back another call, or one whose input is as it was. */
  lemma StuckApply(m: Mux, j: nat, e: Effect, k: nat)
    requires Good(m) && StuckAt(m, k) && j < |m.calls| && e.call.id == m.calls[j].id && (j == k ==> e.call.input == m.calls[j].input)
    ensures StuckAt(Apply(m, j, e), k)
  {
    var r := Apply(m, j, e.(close := false));
    assert StuckAt(r, k);
    StuckClose(r, k);
  }

  lemma OverKeepsInput(c: CallState, event: CallEvent, net: Net)
    ensures !Live(c) ==> CallStep(c, event, net).call.input == c.input
  {
    StepKeepsInput(c, event, net);
  }

  lemma StuckClose(m: Mux, k: nat)
    requires StuckAt(m, k)
    ensures StuckAt(Close(m), k)
  {
  }

  lemma StuckFrame(m: Mux, frame: Frame, size: nat, fate: S.Fate, k: nat)
    requires Good(m) && StuckAt(m, k)
    ensures StuckAt(OnFrame(m, frame, size, fate), k)
  {
    StuckClose(m, k);
    if (frame.InItem? || frame.InDone? || frame.Cancel?) && frame.id in m.inflight {
      assert m.inflight[frame.id] != k;
    }
  }

  lemma StuckStep(m: Mux, e: Event, k: nat)
    requires Good(m) && StuckAt(m, k) && e != Consumes(k)
    ensures StuckAt(Step(m, e), k)
  {
    StuckClose(m, k);
    match e
    case Arrives(frame, size, fate) => StuckFrame(m, frame, size, fate, k);
    case Proceeds(j, event, first, second) =>
      if j < |m.calls| {
        var net := Net(m.open, first, second, m.reports);
        CallStepOk(m.calls[j], FramesBy(m.log, j), event, net);
        OverKeepsInput(m.calls[j], event, net);
        StuckApply(m, j, CallStep(m.calls[j], event, net), k);
      }
    case _ =>
  }

  /** Then reads are paused until its handler pulls, whatever else happens: no other call and no close resumes them. */
  lemma {:induction false} OnlyPullsResume(m: Mux, events: seq<Event>, k: nat)
    requires Good(m) && StuckAt(m, k) && Consumes(k) !in events
    ensures StuckAt(Run(m, events), k) && Run(m, events).gate.paused
    decreases |events|
  {
    if events == [] {
      CountPositive(m.calls, k, Paused);
    } else {
      assert events[0] in events;
      StepKeeps(m, events[0]);
      StuckStep(m, events[0], k);
      OnlyPullsResume(Step(m, events[0]), events[1..], k);
    }
  }

  /** A streamed call with one item above a zero mark, whose handler returns without reading it. */
  const UNREAD := [Arrives(Frame.Call("1", [], None, true), 0, S.Sent(false)),
                   Arrives(InItem("1", None), 1, S.Sent(false)),
                   Proceeds(0, DispatchSettles(Returns(None)), S.Sent(false), S.Sent(false))]

  lemma ReadsStayPaused()
    ensures var m := Run(Fresh(Some(0), false), UNREAD);
            m.inflight == map[] && m.gate == Gate(1, true) && StuckAt(m, 0)
  {
    var m0 := Fresh(Some(0), false);
    var m1 := Step(m0, UNREAD[0]);
    assert m1.calls == [ServerCalls.Fresh(UNREAD[0].frame, Some(0))] && m1.inflight == map["1" := 0];
    var m2 := Step(m1, UNREAD[1]);
    assert m2.calls[0].input.value.paused && m2.gate == Gate(1, true);
    var m3 := Step(m2, UNREAD[2]);
    assert m3.inflight == map[] && m3.gate == m2.gate && m3.calls[0].input == m2.calls[0].input;
    assert UNREAD[1..][1..][1..] == [];
    assert Run(m0, UNREAD) == Run(m1, UNREAD[1..]) == Run(m2, UNREAD[1..][1..]) == Run(m3, UNREAD[1..][1..][1..]);
  }
}
