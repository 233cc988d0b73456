/** The client's link as an object: its map of calls in flight, its id counter, its read gate, and every call it has made. */
module DuplexLinkObjects {
  import opened Basics
  import opened FrameCodec
  import opened Reads
  import opened ClientCallObjects
  import Q = PushQueues
  import S = Sessions
  import CC = ClientCalls
  import C = ClientMux

  // ---- What every call of a link keeps ----

  ghost predicate Healthy(c: CC.CallState) {
    CC.OutputOk(c) && (c.mode.PendingFirst? ==> c.output.None?)
  }

  ghost predicate AllHealthy(states: seq<CC.CallState>) {
    forall k :: 0 <= k < |states| ==> Healthy(states[k])
  }

  /** A step of a call that is not over ends it only by giving up its id. */
  predicate Gives(c: CC.CallState, e: CC.Effect) {
    && (CC.Live(c) ==> CC.Live(e.call) || e.settle)
    && (e.call.mode.PendingFirst? ==> c.mode.PendingFirst? && e.call.output == c.output)
  }

  lemma FailedIsOver(c: CC.CallState, cause: CC.Cause)
    ensures CC.Failed(c, cause).mode.Over?
  {
  }

  lemma FailAndCancelGives(c: CC.CallState, cause: CC.Cause, open: bool, fate: S.Fate)
    ensures Gives(c, CC.FailAndCancel(c, cause, open, fate))
  {
    if CC.Live(c) {
      FailedIsOver(c, cause);
    }
  }

  lemma StopGives(c: CC.CallState, e: CC.Effect)
    requires Gives(c, e)
    ensures Gives(c, CC.StopPump(e))
  {
  }

  lemma FailGives(c: CC.CallState, cause: CC.Cause, open: bool, fate: S.Fate)
    ensures Gives(c, CC.Fail(c, cause)) && Gives(c, CC.ClosedBySend(c))
    ensures Gives(c, CC.FailAndCancel(c, cause, open, fate)) && Gives(c, CC.StopPump(CC.FailAndCancel(c, cause, open, fate)))
  {
    FailedIsOver(c, cause);
    FailedIsOver(c, CC.ByClose);
    FailAndCancelGives(c, cause, open, fate);
    StopGives(c, CC.FailAndCancel(c, cause, open, fate));
  }

  lemma SendInputGives(c: CC.CallState, input: Payload, net: CC.Net)
    ensures Gives(c, CC.SendInput(c, input, net))
  {
    if !net.open {
      FailGives(c, CC.BySend(CC.Closed), false, net.second);
    } else if net.first.Thrown? {
      FailGives(c, CC.ByClose, true, net.second);
    } else if !net.first.Sent? {
      FailGives(c, CC.BySend(CC.RefusalOf(net.first)), true, net.second);
    }
  }

  lemma InputGives(c: CC.CallState, next: CC.InputNext, net: CC.Net)
    ensures Gives(c, CC.OnInput(c, next, net))
  {
    if c.pump.PullingInput? {
      match next
      case InThrows => FailGives(c, CC.ByPump, net.open, net.first);
      case InEnds =>
      case InYields(input) => SendInputGives(c.(inputProduced := c.inputProduced + [input]), input, net);
    }
  }

  lemma DrainGives(c: CC.CallState, outcome: DrainOutcome, net: CC.Net)
    ensures Gives(c, CC.Quiet(CC.OnDrainSettled(c, outcome)))
    ensures Gives(c, CC.OnDrainResumed(c, net))
  {
    if c.pump == CC.AwaitingDrain(Some(TimedOut)) {
      FailGives(c, CC.ByPump, net.open, net.first);
    }
  }

  lemma ConsumerGives(c: CC.CallState, clean: bool, net: CC.Net)
    requires Healthy(c)
    ensures Gives(c, CC.Quiet(CC.OnConsumerNext(c))) && Gives(c, CC.OnConsumerStop(c, clean, net))
  {
  }

  lemma StepGives(c: CC.CallState, event: C.CallEvent, net: CC.Net)
    requires Healthy(c)
    ensures Gives(c, C.CallStep(c, event, net)) && Healthy(C.CallStep(c, event, net).call)
  {
    match event
    case Aborts =>
      FailGives(c, CC.ByAbort, net.open, net.first);
      CC.AbortOutputOk(c, net);
    case InputSettles(next) =>
      InputGives(c, next, net);
      CC.PumpOutputOk(c, next, net);
    case DrainSettles(outcome) => DrainGives(c, outcome, net);
    case DrainResumes =>
      DrainGives(c, Drained, net);
      CC.DrainOutputOk(c, net);
    case ConsumerPulls =>
      ConsumerGives(c, true, net);
      CC.ConsumerNextOutputOk(c);
    case ConsumerStops(clean) =>
      ConsumerGives(c, clean, net);
      CC.ConsumerStopOutputOk(c, clean, net);
  }

  lemma FrameKeepsId(c: CC.CallState, frame: Frame, size: nat, mark: Option<nat>)
    ensures var e := CC.OnFrame(c, frame, size, mark);
            e.call.id == c.id && (CC.Live(c) ==> CC.Live(e.call) || e.settle)
  {
  }

  lemma FrameEndsWaiting(c: CC.CallState, frame: Frame, size: nat, mark: Option<nat>)
    ensures !CC.OnFrame(c, frame, size, mark).call.mode.PendingFirst?
  {
  }

  lemma FrameGives(c: CC.CallState, frame: Frame, size: nat, mark: Option<nat>)
    requires Healthy(c)
    ensures var e := CC.OnFrame(c, frame, size, mark);
            Gives(c, e) && Healthy(e.call) && e.call.id == c.id
  {
    CC.FrameOutputOk(c, frame, size, mark);
    FrameKeepsId(c, frame, size, mark);
    FrameEndsWaiting(c, frame, size, mark);
  }

  lemma OpenGives(id: string, request: CC.Request, signal: bool, aborted: bool, net: CC.Net)
    ensures var c := CC.Fresh(id, request);
            var e := CC.Open(c, signal, aborted, net);
            Gives(c, e) && Healthy(e.call) && Healthy(c)
  {
    var c := CC.Fresh(id, request);
    FailGives(c, CC.BySend(if net.open then CC.RefusalOf(net.first) else CC.Closed), false, net.first);
    FailGives(c, CC.ByAbort, net.open, net.second);
    C.OpenedNet(c, signal, aborted, net);
  }

  /** What `Obey` makes of a link whose call has already changed. */
  ghost function Obeyed(l: C.Link, id: string, out: Output): C.Link {
    var r := l.(log := l.log + out.sent, inflight := if out.settle then l.inflight - {id} else l.inflight);
    if out.close then C.Close(r) else r
  }

  lemma AppliedIsObeyed(l: C.Link, k: nat, e: CC.Effect, out: Output)
    requires k < |l.calls| && out == Output(e.sent, e.settle, e.close) && e.call.id == l.calls[k].id
    ensures C.Apply(l, k, e) == Obeyed(C.Update(l, k, e.call), e.call.id, out)
  {
  }

  /** A frame for a call in flight. */
  lemma RoutedIs(l: C.Link, frame: Frame, size: nat)
    requires l.open && !IsHello(frame) && frame.id in l.inflight && l.inflight[frame.id] < |l.calls|
    ensures var k := l.inflight[frame.id];
            C.Step(l, C.Arrives(frame, size)) == C.Apply(l, k, CC.OnFrame(l.calls[k], frame, size, l.mark))
  {
  }

  lemma OpenedIs(l: C.Link, request: CC.Request, signal: bool, aborted: bool,
                 first: S.Fate, second: S.Fate)
    requires l.open
    ensures var c := CC.Fresh(Decimal(l.nextId), request);
            C.Step(l, C.Opens(request, signal, aborted, first, second))
            == C.Apply(C.Allocate(l, c), |l.calls|, CC.Open(c, signal, aborted, CC.Net(l.open, first, second)))
  {
  }

  // ---- Closing ----

  /** A close in progress: the ids in `todo` are still to be failed. */
  ghost predicate Closing(l: C.Link, todo: set<string>, states: seq<CC.CallState>, gate: Gate) {
    && |states| == |l.calls|
    && (forall k :: 0 <= k < |states| ==>
          states[k] == if C.InFlight(l, k) && l.calls[k].id !in todo then CC.Failed(l.calls[k], CC.ByClose) else l.calls[k])
    && C.CountPaused(l.calls) >= C.CountPaused(states)
    && gate == ResumeMany(l.gate, C.CountPaused(l.calls) - C.CountPaused(states))
  }

  lemma OnlyThisId(l: C.Link, todo: set<string>, states: seq<CC.CallState>, k: nat)
    requires k < |l.calls| == |states| && C.InFlight(l, k) && l.calls[k].id in todo
    requires forall j :: 0 <= j < |states| ==>
               states[j] == if C.InFlight(l, j) && l.calls[j].id !in todo then CC.Failed(l.calls[j], CC.ByClose) else l.calls[j]
    ensures var after, left := states[k := CC.Failed(states[k], CC.ByClose)], todo - {l.calls[k].id};
            forall j :: 0 <= j < |after| ==>
              after[j] == if C.InFlight(l, j) && l.calls[j].id !in left then CC.Failed(l.calls[j], CC.ByClose) else l.calls[j]
  {
  }

  lemma FailedIsUnpaused(c: CC.CallState)
    requires Healthy(c) && CC.Live(c)
    ensures !CC.Paused(CC.Failed(c, CC.ByClose)) && Healthy(CC.Failed(c, CC.ByClose))
  {
    CC.FailedOutputOk(c, CC.ByClose);
  }

  /** Failing one more call: the gate follows its queue. */
  lemma OneMoreFailed(l: C.Link, todo: set<string>, states: seq<CC.CallState>, gate: Gate, k: nat)
    requires k < |l.calls| && C.InFlight(l, k) && l.calls[k].id in todo && Closing(l, todo, states, gate)
    requires !CC.Paused(CC.Failed(states[k], CC.ByClose))
    ensures var c := CC.Failed(states[k], CC.ByClose);
            Closing(l, todo - {l.calls[k].id}, states[k := c], Follow(gate, CC.Paused(states[k]), CC.Paused(c)))
  {
    OneFewerPaused(l.gate, C.CountPaused(l.calls), states, gate, k, CC.Failed(states[k], CC.ByClose), CC.Paused);
    OnlyThisId(l, todo, states, k);
  }

  lemma AllFailed(l: C.Link, states: seq<CC.CallState>, gate: Gate)
    requires Closing(l, {}, states, gate)
    requires forall k :: 0 <= k < |l.calls| && C.InFlight(l, k) ==> CC.Live(l.calls[k])
    ensures C.OnClose(l) == l.(open := false, calls := states, inflight := map[], gate := gate)
  {
    assert states == C.FailAll(l);
  }

  // ---- The link ----

  /** The map with serial numbers in place of the calls. */
  ghost function Serials(inflight: map<string, ClientCall>): map<string, nat> {
    map id | id in inflight :: inflight[id].serial
  }

  lemma SerialsWithout(inflight: map<string, ClientCall>, id: string)
    ensures Serials(inflight - {id}) == Serials(inflight) - {id}
  {
  }

  lemma SerialsWith(inflight: map<string, ClientCall>, id: string, call: ClientCall)
    ensures Serials(inflight[id := call]) == Serials(inflight)[id := call.serial]
  {
  }

  /** The state in which a close began: since then calls have changed, but not which. */
  ghost predicate Began(l: C.Link, inflight: map<string, ClientCall>, calls: seq<ClientCall>) {
    && AllHealthy(l.calls) && l.inflight == Serials(inflight)
    && (|l.calls| == |calls| && forall k :: 0 <= k < |calls| ==> l.calls[k].id == calls[k].id)
    && forall id :: id in inflight ==> inflight[id].serial < |l.calls| && CC.Live(l.calls[inflight[id].serial])
  }

  /** What is left of a map. */
  ghost predicate Left(inflight: map<string, ClientCall>, was: map<string, ClientCall>, todo: set<string>) {
    inflight.Keys == todo && todo <= was.Keys && forall id :: id in todo ==> inflight[id] == was[id]
  }

  lemma LeftWithout(inflight: map<string, ClientCall>, was: map<string, ClientCall>, todo: set<string>, id: string)
    requires Left(inflight, was, todo)
    ensures Left(inflight - {id}, was, todo - {id})
  {
  }

  lemma OneMoreOf(l: C.Link, inflight: map<string, ClientCall>, calls: seq<ClientCall>, todo: set<string>,
                  states: seq<CC.CallState>, gate: Gate, id: string)
    requires Began(l, inflight, calls) && Closing(l, todo, states, gate) && id in inflight && id in todo
    requires inflight[id].serial < |calls| && calls[inflight[id].serial].id == id
    ensures var k := inflight[id].serial; var c := CC.Failed(states[k], CC.ByClose);
            CC.Live(states[k]) && Closing(l, todo - {id}, states[k := c], Follow(gate, CC.Paused(states[k]), CC.Paused(c)))
  {
    var k := inflight[id].serial;
    assert Serials(inflight)[id] == k && states[k] == l.calls[k];
    FailedIsUnpaused(l.calls[k]);
    OneMoreFailed(l, todo, states, gate, k);
  }

  /** `open` is the session's; `calls`, `queues` and `log` are observations. */
  class DuplexLink {
    const mark: Option<nat>
    const gate: ReadGate
    var open: bool
    var nextId: nat
    var inflight: map<string, ClientCall>
    ghost var calls: seq<ClientCall>
    ghost var queues: set<Q.PushQueue<Payload>>
    ghost var log: seq<Frame>

    ghost predicate Owns(k: nat)
      requires k < |calls|
      reads this, calls
    {
      var c := calls[k];
      c.serial == k && c.gate == gate && c.mark == mark && c.Gated() && c.Queues() <= queues
    }

    /** Every call has its own output queue and reports to this gate. */
    ghost predicate Wired()
      reads this, calls
    {
      && (forall k :: 0 <= k < |calls| ==> Owns(k))
      && (forall j, k :: 0 <= j < k < |calls| ==> calls[j].Queues() !! calls[k].Queues())
      && (forall id :: id in inflight ==> Knows(inflight[id]))
    }

    /** A call is known by its serial number. */
    ghost predicate Knows(call: ClientCall)
      reads this
    {
      call.serial < |calls| && calls[call.serial] == call
    }

    ghost function Mapping(): map<string, nat>
      reads this
    {
      Serials(inflight)
    }

    ghost function CallStates(): (states: seq<CC.CallState>)
      requires Wired()
      reads this, calls, queues
      ensures |states| == |calls|
      ensures forall k :: 0 <= k < |calls| ==> Owns(k) && states[k] == calls[k].State()
    {
      seq(|calls|, k requires 0 <= k < |calls| && Owns(k) reads this, calls, queues => calls[k].State())
    }

    ghost function State(): C.Link
      requires Wired()
      reads this, gate, calls, queues
    {
      C.Link(open, mark, nextId, CallStates(), Mapping(), gate.State(), log)
    }

    /** The map names its calls, and every call is healthy. */
    ghost predicate Kept()
      reads this, gate, calls, queues
    {
      Wired() && (forall id :: id in inflight ==> inflight[id].id == id) && AllHealthy(CallStates())
    }

    /** No call in the map is over. */
    ghost predicate Valid()
      reads this, gate, calls, queues
    {
      Kept() && forall id :: id in inflight ==> !inflight[id].mode.Over?
    }

    constructor (mark: Option<nat>)
      ensures Valid() && State() == C.Fresh(mark) && fresh(gate)
    {
      this.mark := mark;
      gate := new ReadGate();
      open, nextId, inflight, calls, queues, log := true, 1, map[], [], {}, [];
      new;
      assert CallStates() == [] && Mapping() == map[];
    }

    /** A call changed with its own queue: the others are as they were. */
    twostate lemma OneChanged(call: ClientCall)
      requires old(Wired()) && old(Knows(call)) && Wired()
      requires calls == old(calls) && old(queues) <= queues
      requires forall c | c in calls && c != call :: unchanged(c)
      requires forall o | o in old(queues) && o !in old(call.Queues()) :: unchanged(o)
      ensures CallStates() == old(CallStates())[call.serial := call.State()]
    {
      forall k | 0 <= k < |calls| && k != call.serial ensures calls[k].State() == old(calls[k].State()) {
        var c := calls[k];
        assert old(Owns(k)) && c in calls && c != call;
        assert old(c.Queues()) !! old(call.Queues());
        if c.output.Some? {
          assert c.output.value in old(c.Queues()) && c.output.value !in old(call.Queues());
          assert unchanged(c.output.value);
        }
      }
    }

    /** No call changed. */
    twostate lemma CallsUntouched()
      requires old(Wired()) && Wired() && calls == old(calls) && queues == old(queues)
      requires forall c | c in calls :: unchanged(c)
      requires forall o | o in queues :: unchanged(o)
      ensures CallStates() == old(CallStates())
    {
      forall k | 0 <= k < |calls| ensures calls[k].State() == old(calls[k].State()) {
        var c := calls[k];
        assert Owns(k) && c in calls;
        assert c.output.Some? ==> c.output.value in queues;
      }
    }

    /** A call in the map is the one its id stands for. */
    lemma MappedIn(l: C.Link, id: string)
      requires Kept() && l.inflight == Mapping() && |l.calls| == |calls| && id in inflight
      requires forall k :: 0 <= k < |calls| ==> l.calls[k].id == calls[k].id
      ensures var k := inflight[id].serial; l.inflight[id] == k && C.InFlight(l, k) && l.calls[k].id == id
    {
      assert Mapping()[id] == inflight[id].serial;
    }

    /** The other calls are still wired when one of them has changed and kept its queue. */
    twostate lemma StaysWired(call: ClientCall)
      requires old(Wired()) && old(Knows(call)) && calls == old(calls) && queues == old(queues) && inflight == old(inflight)
      requires forall c | c in calls && c != call :: unchanged(c)
      requires call.output == old(call.output)
      ensures Wired()
    {
      forall k | 0 <= k < |calls| ensures Owns(k) && calls[k].Queues() == old(calls[k].Queues()) {
        assert old(Owns(k)) && calls[k] in calls;
      }
    }

    method FailCall(call: ClientCall)
      requires Kept() && Knows(call) && !call.mode.Over?
      modifies gate, calls, queues
      ensures unchanged(this)
      ensures Kept() && CallStates() == old(CallStates())[call.serial := CC.Failed(old(call.State()), CC.ByClose)]
      ensures gate.State() == Follow(old(gate.State()), CC.Paused(old(call.State())),
                                     CC.Paused(CC.Failed(old(call.State()), CC.ByClose)))
    {
      assert Owns(call.serial);
      FailedIsUnpaused(call.State());
      var out := call.Fail(CC.ByClose);
      StaysWired(call);
      OneChanged(call);
    }

    /** `settle`: the id is given up. */
    method Forget(id: string)
      requires Kept()
      modifies this`inflight
      ensures Kept() && State() == old(State()).(inflight := old(Mapping()) - {id}) && inflight == old(inflight) - {id}
      ensures CallStates() == old(CallStates()) && gate.State() == old(gate.State())
    {
      SerialsWithout(inflight, id);
      inflight := inflight - {id};
      CallsUntouched();
    }

    /** An `onClose` that began in `l`, with the calls of `was` in the map, has still to fail those under `todo`. */
    ghost predicate Partway(l: C.Link, was: map<string, ClientCall>, todo: set<string>)
      reads this, gate, calls, queues
    {
      && Kept() && Left(inflight, was, todo)
      && Closing(l, todo, CallStates(), gate.State())
    }

    lemma PartwayOn(id: string, l: C.Link, was: map<string, ClientCall>, todo: set<string>)
      requires Began(l, was, calls) && Partway(l, was, todo) && id in todo
      ensures var call := inflight[id]; var c := CC.Failed(call.State(), CC.ByClose);
              Knows(call) && !call.mode.Over?
              && Closing(l, todo - {id}, CallStates()[call.serial := c],
                         Follow(gate.State(), CC.Paused(call.State()), CC.Paused(c)))
    {
      assert Owns(inflight[id].serial);
      OneMoreOf(l, was, calls, todo, CallStates(), gate.State(), id);
    }

    /** One turn of the loop of `onClose`: the call fails and gives its id up. */
    method CloseOne(id: string, ghost l: C.Link, ghost was: map<string, ClientCall>, ghost todo: set<string>)
      requires Began(l, was, calls) && Partway(l, was, todo) && id in todo
      modifies this`inflight, gate, calls, queues
      ensures Partway(l, was, todo - {id}) && unchanged(`calls, `queues)
    {
      PartwayOn(id, l, was, todo);
      FailCall(inflight[id]);
      ForgetFailed(id, l, was, todo);
    }

    /** The call under `id` has failed: its id goes. */
    method ForgetFailed(id: string, ghost l: C.Link, ghost was: map<string, ClientCall>, ghost todo: set<string>)
      requires Kept() && id in todo && Left(inflight, was, todo)
      requires Closing(l, todo - {id}, CallStates(), gate.State())
      modifies this`inflight
      ensures Partway(l, was, todo - {id})
    {
      Forget(id);
      LeftWithout(old(inflight), was, todo, id);
    }

    /** The loop of `onClose`: every call in the map fails and leaves it, one by one and in any order. */
    method CloseEach(ghost l: C.Link, ghost was: map<string, ClientCall>)
      requires Began(l, was, calls) && Partway(l, was, inflight.Keys)
      modifies this`inflight, gate, calls, queues
      ensures Partway(l, was, {}) && unchanged(`calls)
    {
      var todo := inflight.Keys;
      while todo != {}
        invariant calls == old(calls) && queues == old(queues)
        invariant Partway(l, was, todo)
        decreases todo
      {
        var id :| id in todo;
        CloseOne(id, l, was, todo);
        todo := todo - {id};
      }
    }

    lemma NoneFailed(l: C.Link)
      requires Valid() && l == State()
      ensures Began(l, inflight, calls) && Partway(l, inflight, inflight.Keys)
      ensures forall k :: 0 <= k < |l.calls| && C.InFlight(l, k) ==> CC.Live(l.calls[k])
    {
    }

    method Shut(ghost l: C.Link)
      requires Partway(l, inflight, inflight.Keys)
      modifies this`open
      ensures !open && Partway(l, inflight, inflight.Keys)
    {
      open := false;
      CallsUntouched();
    }

    /** `close()`, and the session's `onClose`. */
    method Close()
      requires Valid()
      modifies this`open, this`inflight, gate, calls, queues
      ensures Valid() && State() == C.Close(old(State()))
    {
      if !open {
        return;
      }
      NoneFailed(State());
      Shut(State());
      CloseEach(old(State()), inflight);
      ClosedIs(old(State()), old(inflight));
    }

    /** The loop has failed every call, and the map is empty. */
    lemma ClosedIs(l: C.Link, was: map<string, ClientCall>)
      requires Partway(l, was, {}) && !open && l.open && l.mark == mark && l.nextId == nextId && l.log == log
      requires forall k :: 0 <= k < |l.calls| && C.InFlight(l, k) ==> CC.Live(l.calls[k])
      ensures Valid() && State() == C.Close(l)
    {
      AllFailed(l, CallStates(), gate.State());
      assert inflight == map[] && Mapping() == map[];
    }

    // ---- Steps of calls ----

    /** Every call in the map but this one is not over. */
    ghost predicate OthersAlive(call: ClientCall)
      reads this, calls
    {
      forall id :: id in inflight && inflight[id] in calls && inflight[id] != call ==> !inflight[id].mode.Over?
    }

    /** What has been handed to the duplex is recorded. */
    ghost method Record(frames: seq<Frame>)
      requires Kept()
      modifies this`log
      ensures Kept() && State() == old(State()).(log := old(log) + frames)
    {
      log := log + frames;
      CallsUntouched();
    }

    /** Do what a call's step asks of the link. */
    method Obey(call: ClientCall, out: Output)
      requires Kept() && Knows(call) && OthersAlive(call)
      requires call.id in inflight && inflight[call.id] == call && call.mode.Over? ==> out.settle
      modifies this, gate, calls, queues
      ensures Valid()
      ensures State() == Obeyed(old(State()), call.id, out)
    {
      Record(out.sent);
      if out.settle {
        Forget(call.id);
      }
      assert Valid();
      if out.close {
        Close();
      }
    }

    /** Which callback of the call an event is. */
    static method Dispatch(call: ClientCall, event: C.CallEvent, net: CC.Net) returns (out: Output)
      requires call.Gated()
      modifies call, call.Queues(), call.gate
      ensures call.output == old(call.output)
      ensures CC.Effect(call.State(), out.sent, out.settle, out.close) == C.CallStep(old(call.State()), event, net)
      ensures call.gate.State() == Follow(old(call.gate.State()), CC.Paused(old(call.State())), CC.Paused(call.State()))
    {
      out := SILENT;
      match event {
        case Aborts => out := call.OnAbort(net);
        case InputSettles(next) => out := call.OnInput(next, net);
        case DrainSettles(outcome) => call.OnDrainSettled(outcome);
        case DrainResumes => out := call.OnDrainResumed(net);
        case ConsumerPulls => call.OnConsumerNext();
        case ConsumerStops(clean) => out := call.OnConsumerStop(clean, net);
      }
    }

    /** One step of a call by itself. */
    method StepCall(call: ClientCall, event: C.CallEvent, net: CC.Net) returns (out: Output)
      requires Valid() && Knows(call)
      modifies gate, calls, queues
      ensures unchanged(this)
      ensures Kept() && OthersAlive(call) && (call.mode.Over? && !old(call.mode.Over?) ==> out.settle)
      ensures CC.Effect(call.State(), out.sent, out.settle, out.close) == C.CallStep(old(call.State()), event, net)
      ensures State() == C.Update(old(State()), call.serial, call.State())
    {
      assert Owns(call.serial);
      StepGives(call.State(), event, net);
      out := Dispatch(call, event, net);
      StaysWired(call);
      OneChanged(call);
    }

    /** An abort, a wait of the input pump or the consumer: the call's step, and what it asks of the link. */
    method Proceed(call: ClientCall, event: C.CallEvent, first: S.Fate, second: S.Fate)
      requires Valid() && Knows(call)
      modifies this, gate, calls, queues
      ensures Valid() && State() == C.Step(old(State()), C.Proceeds(call.serial, event, first, second))
    {
      ghost var l, e := State(), C.CallStep(call.State(), event, CC.Net(open, first, second));
      var out := StepCall(call, event, CC.Net(open, first, second));
      AppliedIsObeyed(l, call.serial, e, out);
      Obey(call, out);
    }

    // ---- Inbound frames ----

    /** A call that has just made its output queue. */
    twostate lemma StaysWiredWith(call: ClientCall)
      requires old(Wired()) && old(Knows(call)) && calls == old(calls) && inflight == old(inflight)
      requires queues == old(queues) + call.Queues()
      requires forall c | c in calls && c != call :: unchanged(c)
      requires call.Gated() && (call.Queues() == old(call.Queues()) || call.Queues() !! old(queues))
      ensures Wired()
    {
      forall k | 0 <= k < |calls|
        ensures Owns(k) && (k != call.serial ==> calls[k].Queues() == old(calls[k].Queues()) && calls[k].Queues() !! call.Queues())
      {
        assert old(Owns(k)) && calls[k] in calls;
      }
    }

    /** One inbound frame of a call by itself. */
    static method Hand(call: ClientCall, frame: Frame, size: nat) returns (out: Output)
      requires call.Gated() && Healthy(call.State())
      modifies call, call.Queues(), call.gate
      ensures call.Gated() && (call.output == old(call.output) || fresh(call.Queues()))
      ensures CC.Effect(call.State(), out.sent, out.settle, out.close)
           == CC.OnFrame(old(call.State()), frame, size, call.mark)
      ensures call.gate.State() == Follow(old(call.gate.State()), CC.Paused(old(call.State())), CC.Paused(call.State()))
      ensures Healthy(call.State()) && (call.mode.Over? && !old(call.mode.Over?) ==> out.settle)
    {
      FrameGives(call.State(), frame, size, call.mark);
      out := call.OnFrame(frame, size);
    }

    /** Hand one inbound frame to its call, which may make its output queue. */
    method HandOver(call: ClientCall, frame: Frame, size: nat) returns (out: Output)
      requires Valid() && Knows(call)
      modifies gate, calls, queues, this`queues
      ensures fresh(queues - old(queues)) && Wired()
      ensures Healthy(call.State()) && (call.mode.Over? && !old(call.mode.Over?) ==> out.settle)
      ensures CC.Effect(call.State(), out.sent, out.settle, out.close) == CC.OnFrame(old(call.State()), frame, size, mark)
      ensures gate.State() == Follow(old(gate.State()), CC.Paused(old(call.State())), CC.Paused(call.State()))
      ensures CallStates() == old(CallStates())[call.serial := call.State()]
      ensures forall c | c in calls && c != call :: unchanged(c)
    {
      assert Owns(call.serial);
      out := Hand(call, frame, size);
      queues := queues + call.Queues();
      StaysWiredWith(call);
      OneChanged(call);
    }

    method FrameCall(call: ClientCall, frame: Frame, size: nat) returns (out: Output)
      requires Valid() && Knows(call)
      modifies gate, calls, queues, this`queues
      ensures fresh(queues - old(queues))
      ensures Kept() && OthersAlive(call) && (call.mode.Over? && !old(call.mode.Over?) ==> out.settle)
      ensures CC.Effect(call.State(), out.sent, out.settle, out.close) == CC.OnFrame(old(call.State()), frame, size, mark)
      ensures State() == C.Update(old(State()), call.serial, call.State())
    {
      FrameKeepsId(call.State(), frame, size, mark);
      out := HandOver(call, frame, size);
    }

    method FrameRouted(call: ClientCall, frame: Frame, size: nat)
      requires Valid() && Knows(call) && !call.mode.Over?
      modifies this, gate, calls, queues
      ensures Valid()
      ensures State() == C.Apply(old(State()), call.serial, CC.OnFrame(old(call.State()), frame, size, mark))
    {
      FrameGives(call.State(), frame, size, mark);
      ghost var l, e := State(), CC.OnFrame(call.State(), frame, size, mark);
      var out := FrameCall(call, frame, size);
      AppliedIsObeyed(l, call.serial, e, out);
      Obey(call, out);
    }

    method OnFrame(frame: Frame, size: nat)
      requires Valid() && open
      modifies this, gate, calls, queues
      ensures Valid() && State() == C.Step(old(State()), C.Arrives(frame, size))
    {
      if IsHello(frame) {
        Close();
        return;
      }
      if frame.id in inflight {
        MappedIn(State(), frame.id);
        RoutedIs(State(), frame, size);
        FrameRouted(inflight[frame.id], frame, size);
      }
    }

    // ---- New calls ----

    twostate lemma CallAdded(call: ClientCall)
      requires old(Wired()) && calls == old(calls) + [call] && queues == old(queues) && inflight == old(inflight)
      requires call.serial == |old(calls)| && call.gate == gate && call.mark == mark && call.Gated() && call.Queues() == {}
      requires call !in old(calls)
      requires forall c | c in old(calls) :: unchanged(c)
      requires forall o | o in queues :: unchanged(o)
      ensures Wired() && CallStates() == old(CallStates()) + [call.State()]
    {
      forall k | 0 <= k < |calls|
        ensures Owns(k) && (k < |old(calls)| ==> calls[k].Queues() == old(calls[k].Queues()))
        ensures k < |old(calls)| ==> calls[k].State() == old(calls[k].State())
      {
        var c := calls[k];
        assert k < |old(calls)| ==> old(Owns(k)) && c in old(calls);
        assert k < |old(calls)| && c.output.Some? ==> c.output.value in queues;
      }
    }

    ghost method AddCall(call: ClientCall)
      requires Valid() && call.serial == |calls| && call.gate == gate && call.mark == mark
      requires call.Gated() && call.Queues() == {} && Healthy(call.State()) && call !in calls
      modifies this`calls
      ensures Valid() && calls == old(calls) + [call]
      ensures State() == old(State()).(calls := old(CallStates()) + [call.State()])
    {
      calls := calls + [call];
      CallAdded(call);
    }

    method MapTo(call: ClientCall)
      requires Valid() && Knows(call) && !call.mode.Over?
      modifies this`inflight, this`nextId
      ensures Valid() && State() == old(State()).(inflight := old(Mapping())[call.id := call.serial], nextId := old(nextId) + 1)
      ensures inflight == old(inflight)[call.id := call]
    {
      SerialsWith(inflight, call.id, call);
      inflight := inflight[call.id := call];
      nextId := nextId + 1;
      CallsUntouched();
    }

    method OpenNew(call: ClientCall, signal: bool, aborted: bool, net: CC.Net)
      returns (out: Output)
      requires Valid() && Knows(call) && call.State() == CC.Fresh(call.id, call.request)
      modifies gate, calls, queues
      ensures unchanged(this)
      ensures Kept() && OthersAlive(call) && (call.mode.Over? ==> out.settle)
      ensures CC.Effect(call.State(), out.sent, out.settle, out.close)
           == CC.Open(old(call.State()), signal, aborted, net)
      ensures State() == C.Update(old(State()), call.serial, call.State())
    {
      assert Owns(call.serial);
      OpenGives(call.id, call.request, signal, aborted, net);
      out := call.Open(signal, aborted, net);
      StaysWired(call);
      OneChanged(call);
    }

    /** The next id's call joins the others. */
    method Allocate(request: CC.Request) returns (call: ClientCall)
      requires Valid() && open
      modifies this`inflight, this`nextId, this`calls
      ensures Valid() && Knows(call) && call.State() == CC.Fresh(call.id, request) && call.request == request
      ensures call.id == Decimal(old(nextId)) && call.serial == |old(calls)| && fresh(call)
      ensures State() == C.Allocate(old(State()), CC.Fresh(call.id, request)) && calls == old(calls) + [call]
    {
      call := new ClientCall(Decimal(nextId), request, mark, gate, |calls|);
      FreshIsHealthy(call.id, request);
      CallsUntouched();
      AddCall(call);
      MapTo(call);
    }

    lemma FreshIsHealthy(id: string, request: CC.Request)
      ensures Healthy(CC.Fresh(id, request))
    {
    }

    method OpenAllocated(call: ClientCall, signal: bool, aborted: bool, net: CC.Net)
      requires Valid() && Knows(call) && call.State() == CC.Fresh(call.id, call.request)
      modifies this, gate, calls, queues
      ensures Valid()
      ensures State() == C.Apply(old(State()), call.serial, CC.Open(old(call.State()), signal, aborted, net))
    {
      CC.OpenOk(call.id, call.request, signal, aborted, net);
      ghost var l, e := State(), CC.Open(call.State(), signal, aborted, net);
      var out := OpenNew(call, signal, aborted, net);
      AppliedIsObeyed(l, call.serial, e, out);
      Obey(call, out);
    }

    /** `callInner` once the session is ready: take the next id and open the call. */
    method Call(request: CC.Request, signal: bool, aborted: bool, first: S.Fate, second: S.Fate)
      requires Valid()
      modifies this, gate, calls, queues
      ensures Valid() && State() == C.Step(old(State()), C.Opens(request, signal, aborted, first, second))
    {
      if !open {
        return;
      }
      OpenedIs(State(), request, signal, aborted, first, second);
      var call := Allocate(request);
      OpenAllocated(call, signal, aborted, CC.Net(open, first, second));
    }

    /**
     * `callInner` after its wait for `ready`: a wait that failed or was aborted, a
     * closed link and a signal that is already aborted are refused before an id is
     * taken.
     */
    method CallInner(waited: bool, already: bool, request: CC.Request, signal: bool, aborted: bool,
                     first: S.Fate, second: S.Fate)
      returns (taken: bool)
      requires Valid()
      modifies this, gate, calls, queues
      ensures Valid() && taken == (waited && old(open) && !already)
      ensures State() == if taken then C.Step(old(State()), C.Opens(request, signal, aborted, first, second))
                         else old(State())
      ensures nextId == if taken then old(nextId) + 1 else old(nextId)
    {
      if !waited || !open || already {
        return false;
      }
      Call(request, signal, aborted, first, second);
      taken := true;
    }
  }
}
