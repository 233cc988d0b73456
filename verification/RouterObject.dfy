/** The server's router as an object: its map of calls in flight, its read gate, and every call it has accepted. */
module RouterObjects {
  import opened Basics
  import opened FrameCodec
  import opened Reads
  import opened ServerCallObjects
  import Q = PushQueues
  import S = Sessions
  import SC = ServerCalls
  import V = ServerMux

  /** Every input queue keeps its own rules. */
  ghost predicate Healthy(states: seq<SC.CallState>) {
    forall k :: 0 <= k < |states| ==> SC.InputOk(states[k])
  }

  /** An `AbortAll` in progress: the ids in `todo` are still to be cancelled. */
  ghost predicate Aborting(m: V.Mux, todo: set<string>, states: seq<SC.CallState>, gate: Gate) {
    && |states| == |m.calls|
    && (forall k :: 0 <= k < |states| ==>
          states[k] == if V.InFlight(m, k) && m.calls[k].id !in todo then SC.CancelCall(m.calls[k]) else m.calls[k])
    && V.CountPaused(m.calls) >= V.CountPaused(states)
    && gate == ResumeMany(m.gate, V.CountPaused(m.calls) - V.CountPaused(states))
  }

  /** Cancelling one more call: the gate follows its queue. */
  lemma OneMoreCancelled(m: V.Mux, todo: set<string>, states: seq<SC.CallState>, gate: Gate, k: nat)
    requires Healthy(m.calls) && k < |m.calls| && V.InFlight(m, k) && m.calls[k].id in todo && Aborting(m, todo, states, gate)
    ensures var c := SC.CancelCall(states[k]);
            Aborting(m, todo - {m.calls[k].id}, states[k := c], Follow(gate, SC.Paused(states[k]), SC.Paused(c)))
  {
    assert states[k] == m.calls[k];
    CancelledIsUnpaused(m, k);
    OneFewerPaused(m.gate, V.CountPaused(m.calls), states, gate, k, SC.CancelCall(states[k]), SC.Paused);
    OnlyThisId(m, todo, states, k);
  }

  lemma CancelledIsUnpaused(m: V.Mux, k: nat)
    requires Healthy(m.calls) && k < |m.calls|
    ensures !SC.Paused(SC.CancelCall(m.calls[k]))
  {
    SC.EndInputOk(m.calls[k]);
  }

  lemma OnlyThisId(m: V.Mux, todo: set<string>, states: seq<SC.CallState>, k: nat)
    requires k < |m.calls| == |states| && V.InFlight(m, k) && m.calls[k].id in todo
    requires forall j :: 0 <= j < |states| ==>
               states[j] == if V.InFlight(m, j) && m.calls[j].id !in todo then SC.CancelCall(m.calls[j]) else m.calls[j]
    ensures var after, left := states[k := SC.CancelCall(states[k])], todo - {m.calls[k].id};
            forall j :: 0 <= j < |after| ==>
              after[j] == if V.InFlight(m, j) && m.calls[j].id !in left then SC.CancelCall(m.calls[j]) else m.calls[j]
  {
  }

  lemma AllCancelled(m: V.Mux, states: seq<SC.CallState>, gate: Gate)
    requires Aborting(m, {}, states, gate)
    ensures V.AbortAll(m) == m.(calls := states, inflight := map[], gate := gate)
  {
    assert states == V.CancelAll(m);
  }

  /** What a router makes of the output of a call that has already changed. */
  ghost function Obeyed(m: V.Mux, k: nat, id: string, out: Output): V.Mux {
    var r := m.(log := m.log + V.Tagged(out.sent, V.ByCall(k), m.inflight),
                inflight := if out.settle then m.inflight - {id} else m.inflight);
    if out.close then V.Close(r) else r
  }

  lemma AppliedIsObeyed(m: V.Mux, k: nat, e: SC.Effect, out: Output)
    requires k < |m.calls| && out == Output(e.sent, e.settle, e.close)
    ensures V.Apply(m, k, e) == Obeyed(V.Update(m, k, e.call), k, e.call.id, out)
  {
  }

  /** The map with serial numbers in place of the calls. */
  ghost function Serials(inflight: map<string, ServerCall>): map<string, nat> {
    map id | id in inflight :: inflight[id].serial
  }

  lemma SerialsWithout(inflight: map<string, ServerCall>, id: string)
    ensures Serials(inflight - {id}) == Serials(inflight) - {id}
  {
  }

  lemma SerialsWith(inflight: map<string, ServerCall>, id: string, call: ServerCall)
    ensures Serials(inflight[id := call]) == Serials(inflight)[id := call.serial]
  {
  }

  /** The state in which an `AbortAll` began: since then calls have changed, but not which. */
  ghost predicate Began(m: V.Mux, inflight: map<string, ServerCall>, calls: seq<ServerCall>) {
    && Healthy(m.calls) && m.inflight == Serials(inflight)
    && |m.calls| == |calls| && forall k :: 0 <= k < |calls| ==> m.calls[k].id == calls[k].id
  }

  lemma OneMoreOf(m: V.Mux, inflight: map<string, ServerCall>, calls: seq<ServerCall>, todo: set<string>,
                  states: seq<SC.CallState>, gate: Gate, id: string)
    requires Began(m, inflight, calls) && Aborting(m, todo, states, gate) && id in inflight && id in todo
    requires inflight[id].serial < |calls| && calls[inflight[id].serial].id == id
    ensures var k := inflight[id].serial; var c := SC.CancelCall(states[k]);
            Aborting(m, todo - {id}, states[k := c], Follow(gate, SC.Paused(states[k]), SC.Paused(c)))
  {
    assert Serials(inflight)[id] == inflight[id].serial;
    OneMoreCancelled(m, todo, states, gate, inflight[id].serial);
  }

  /** `open` is the session's; `calls`, `queues` and `log` are observations. */
  class Router {
    const mark: Option<nat>
    const reports: bool
    const gate: ReadGate
    var open: bool
    var inflight: map<string, ServerCall>
    ghost var calls: seq<ServerCall>
    ghost var queues: set<Q.PushQueue<Payload>>
    ghost var log: seq<V.Outgoing>

    ghost predicate Owns(k: nat)
      requires k < |calls|
      reads this
    {
      calls[k].serial == k && calls[k].gate == gate && calls[k].Gated() && calls[k].Queues() <= queues
    }

    /** Every call has its own input queue and reports to this gate. */
    ghost predicate Wired()
      reads this
    {
      && (forall k :: 0 <= k < |calls| ==> Owns(k))
      && (forall j, k :: 0 <= j < k < |calls| ==> calls[j].Queues() !! calls[k].Queues())
      && (forall id :: id in inflight ==> Knows(inflight[id]))
    }

    /** A call is known by its serial number. */
    ghost predicate Knows(call: ServerCall)
      reads this
    {
      call.serial < |calls| && calls[call.serial] == call
    }

    ghost function Mapping(): map<string, nat>
      reads this
    {
      Serials(inflight)
    }

    ghost function CallStates(): (states: seq<SC.CallState>)
      requires Wired()
      reads this, calls, queues
      ensures |states| == |calls|
      ensures forall k :: 0 <= k < |calls| ==> Owns(k) && states[k] == calls[k].State()
    {
      seq(|calls|, k requires 0 <= k < |calls| && Owns(k) reads this, calls, queues => calls[k].State())
    }

    ghost function State(): V.Mux
      requires Wired()
      reads this, gate, calls, queues
    {
      V.Mux(open, mark, reports, CallStates(), Mapping(), gate.State(), log)
    }

    /** The map names its calls, and their queues are healthy. */
    ghost predicate Valid()
      reads this, gate, calls, queues
    {
      Wired() && (forall id :: id in inflight ==> inflight[id].id == id) && Healthy(CallStates())
    }

    constructor (mark: Option<nat>, reports: bool)
      ensures Valid() && State() == V.Fresh(mark, reports) && fresh(gate)
    {
      this.mark, this.reports := mark, reports;
      gate := new ReadGate();
      open, inflight, calls, queues, log := true, map[], [], {}, [];
      new;
      assert CallStates() == [] && Mapping() == map[];
    }

    /** A call changed with its own queue: the others are as they were. */
    twostate lemma OneChanged(call: ServerCall)
      requires old(Wired()) && old(Knows(call)) && Wired()
      requires calls == old(calls) && queues == old(queues)
      requires forall c | c in calls && c != call :: unchanged(c)
      requires forall o | o in queues && o !in call.Queues() :: unchanged(o)
      ensures CallStates() == old(CallStates())[call.serial := call.State()]
    {
      forall k | 0 <= k < |calls| && k != call.serial ensures calls[k].State() == old(calls[k].State()) {
        var c := calls[k];
        assert Owns(k) && c in calls && c != call;
        assert c.Queues() !! call.Queues();
        if c.inputQueue.Some? {
          assert c.inputQueue.value in c.Queues() && c.inputQueue.value !in call.Queues();
          assert unchanged(c.inputQueue.value);
        }
      }
    }

    /** No call changed. */
    twostate lemma CallsUntouched()
      requires old(Wired()) && Wired() && calls == old(calls) && queues == old(queues)
      requires forall c | c in calls :: unchanged(c)
      requires forall o | o in queues :: unchanged(o)
      ensures CallStates() == old(CallStates())
    {
      forall k | 0 <= k < |calls| ensures calls[k].State() == old(calls[k].State()) {
        var c := calls[k];
        assert Owns(k) && c in calls;
        assert c.inputQueue.Some? ==> c.inputQueue.value in queues;
      }
    }

    method CancelCall(call: ServerCall)
      requires Valid() && Knows(call)
      modifies gate, calls, queues
      ensures unchanged(this)
      ensures Valid() && CallStates() == old(CallStates())[call.serial := SC.CancelCall(old(call.State()))]
      ensures gate.State()
           == Follow(old(gate.State()), SC.Paused(old(call.State())), SC.Paused(SC.CancelCall(old(call.State()))))
    {
      assert Owns(call.serial);
      SC.EndInputOk(call.State());
      call.Cancel();
      OneChanged(call);
    }

    /** A call in the map is the one its id stands for. */
    lemma MappedIn(m: V.Mux, id: string)
      requires Valid() && m.inflight == Mapping() && |m.calls| == |calls| && id in inflight
      requires forall k :: 0 <= k < |calls| ==> m.calls[k].id == calls[k].id
      ensures var k := inflight[id].serial; m.inflight[id] == k && V.InFlight(m, k) && m.calls[k].id == id
    {
      assert Mapping()[id] == inflight[id].serial;
    }

    /** An `AbortAll` that began in `m` has still to cancel the calls under `todo`. */
    ghost predicate Partway(m: V.Mux, todo: set<string>)
      reads this, gate, calls, queues
    {
      Valid() && Began(m, inflight, calls) && todo <= inflight.Keys && Aborting(m, todo, CallStates(), gate.State())
    }

    lemma PartwayOn(id: string, m: V.Mux, todo: set<string>)
      requires Partway(m, todo) && id in todo
      ensures var call := inflight[id]; var c := SC.CancelCall(call.State());
              Knows(call)
              && Aborting(m, todo - {id}, CallStates()[call.serial := c],
                          Follow(gate.State(), SC.Paused(call.State()), SC.Paused(c)))
    {
      assert Owns(inflight[id].serial);
      OneMoreOf(m, inflight, calls, todo, CallStates(), gate.State(), id);
    }

    /** One turn of the loop of `AbortAll`. */
    method AbortOne(id: string, ghost m: V.Mux, ghost todo: set<string>)
      requires Partway(m, todo) && id in todo
      modifies gate, calls, queues
      ensures unchanged(this)
      ensures Partway(m, todo - {id})
    {
      PartwayOn(id, m, todo);
      CancelCall(inflight[id]);
    }

    /** The loop of `AbortAll`, over the calls that were in the map when it began. */
    method CancelEach(ghost m: V.Mux)
      requires Partway(m, inflight.Keys)
      modifies gate, calls, queues
      ensures unchanged(this)
      ensures Partway(m, {})
    {
      var todo := inflight.Keys;
      while todo != {}
        invariant Partway(m, todo)
        decreases todo
      {
        var id :| id in todo;
        AbortOne(id, m, todo);
        todo := todo - {id};
      }
    }

    method Clear()
      requires Valid()
      modifies this`inflight
      ensures Valid() && State() == old(State()).(inflight := map[])
    {
      inflight := map[];
      CallsUntouched();
      assert Mapping() == map[];
    }

    method AbortAll()
      requires Valid()
      modifies this`inflight, gate, calls, queues
      ensures Valid() && State() == V.AbortAll(old(State()))
    {
      NoneAborted(State());
      CancelEach(State());
      AllCancelled(old(State()), CallStates(), gate.State());
      Clear();
    }

    lemma NoneAborted(m: V.Mux)
      requires Valid() && m == State()
      ensures Partway(m, inflight.Keys)
    {
    }

    /** `close()`, and the session's `onClose`. */
    method Close()
      requires Valid()
      modifies this`open, this`inflight, gate, calls, queues
      ensures Valid() && State() == V.Close(old(State()))
    {
      if !open {
        return;
      }
      ClosedIsAborted(State());
      AbortAll();
      MarkClosed();
    }

    method MarkClosed()
      requires Valid()
      modifies this`open
      ensures Valid() && State() == old(State()).(open := false)
    {
      open := false;
      CallsUntouched();
    }

    lemma ClosedIsAborted(m: V.Mux)
      ensures V.AbortAll(m.(open := false)) == V.AbortAll(m).(open := false)
    {
      assert V.CancelAll(m.(open := false)) == V.CancelAll(m);
    }

    /** `settle` and `inflight.delete`. */
    method Forget(id: string)
      requires Valid()
      modifies this`inflight
      ensures Valid() && State() == old(State()).(inflight := old(State()).inflight - {id})
    {
      SerialsWithout(inflight, id);
      inflight := inflight - {id};
      CallsUntouched();
    }

    /** What has been handed to the duplex is recorded. */
    ghost method Record(frames: seq<Frame>, from: V.Sender)
      requires Valid()
      modifies this`log
      ensures Valid() && State() == old(State()).(log := old(log) + V.Tagged(frames, from, Mapping()))
    {
      log := log + V.Tagged(frames, from, Mapping());
      CallsUntouched();
    }

    /** The router's own `sendResultErr`, for an id that no call answers for. */
    method SendRouterErr(id: string, message: string, fate: S.Fate)
      requires Valid()
      modifies this, gate, calls, queues
      ensures Valid() && State() == V.RouterErr(old(State()), id, message, fate)
    {
      if !open {
        return;
      }
      if fate.Sent? {
        Record([ResultErr(id, WireError("BAD_REQUEST", message, None))], V.ByRouter);
        Forget(id);
        return;
      }
      Close();
    }

    method HandleInvalid(id: string, fate: S.Fate)
      requires Valid() && open
      modifies this, gate, calls, queues
      ensures Valid() && State() == V.Step(old(State()), V.ArrivesInvalid(id, fate))
    {
      if id in inflight {
        return;
      }
      SendRouterErr(id, "Invalid frame", fate);
    }

    /** A new call joins the others. */
    method Accept(call: ServerCall)
      requires Valid() && call.serial == |calls| && call.gate == gate && call.Gated() && SC.InputOk(call.State())
      requires call !in calls && call.Queues() !! queues
      modifies this`inflight, this`calls, this`queues
      ensures Valid() && calls == old(calls) + [call] && queues == old(queues) + call.Queues()
      ensures State() == old(State()).(calls := old(CallStates()) + [call.State()],
                                       inflight := old(Mapping())[call.id := |old(calls)|])
    {
      AddCall(call);
      MapTo(call);
    }

    method MapTo(call: ServerCall)
      requires Valid() && Knows(call)
      modifies this`inflight
      ensures Valid() && State() == old(State()).(inflight := old(Mapping())[call.id := call.serial])
    {
      SerialsWith(inflight, call.id, call);
      inflight := inflight[call.id := call];
      CallsUntouched();
    }

    ghost method AddCall(call: ServerCall)
      requires Valid() && call.serial == |calls| && call.gate == gate && call.Gated() && SC.InputOk(call.State())
      requires call !in calls && call.Queues() !! queues
      modifies this`calls, this`queues
      ensures Valid() && calls == old(calls) + [call] && queues == old(queues) + call.Queues()
      ensures CallStates() == old(CallStates()) + [call.State()]
    {
      calls := calls + [call];
      queues := queues + call.Queues();
      CallAdded(call);
    }

    twostate lemma CallAdded(call: ServerCall)
      requires old(Wired()) && calls == old(calls) + [call] && queues == old(queues) + call.Queues()
      requires inflight == old(inflight) && call.serial == |old(calls)| && call.gate == gate && call.Gated()
      requires call !in old(calls) && call.Queues() !! old(queues)
      requires forall c | c in calls :: unchanged(c)
      requires forall o | o in queues :: unchanged(o)
      ensures Wired() && CallStates() == old(CallStates()) + [call.State()]
    {
      forall k | 0 <= k < |calls|
        ensures Owns(k) && (k < |old(calls)| ==> calls[k].Queues() !! call.Queues())
        ensures k < |old(calls)| ==> calls[k].State() == old(calls[k].State())
      {
        var c := calls[k];
        assert k < |old(calls)| ==> old(Owns(k));
        assert c in calls && (c.inputQueue.Some? ==> c.inputQueue.value in queues);
      }
    }

    method StartCall(frame: Frame)
      requires Valid() && frame.Call?
      modifies this`inflight, this`calls, this`queues
      ensures Valid() && State() == V.StartCall(old(State()), frame)
    {
      if frame.id in inflight {
        return;
      }
      SC.FreshOk(frame, mark);
      var call := new ServerCall(frame, mark, gate, |calls|);
      assert CallStates() == old(CallStates());
      Accept(call);
    }

    method OnCancel(id: string)
      requires Valid()
      modifies this`inflight, gate, calls, queues
      ensures Valid() && State() == V.OnCancel(old(State()), id)
    {
      if id in inflight {
        MappedIn(State(), id);
        CancelCall(inflight[id]);
        Forget(id);
      }
    }

    method PushTo(call: ServerCall, frame: Frame, size: nat)
      requires Valid() && Knows(call) && (frame.InItem? || frame.InDone?)
      modifies gate, calls, queues
      ensures unchanged(this)
      ensures Valid() && State() == V.Update(old(State()), call.serial, SC.PushInput(old(call.State()), frame, size))
    {
      assert Owns(call.serial);
      SC.PushPullOk(call.State(), frame, size);
      call.PushInput(frame, size);
      OneChanged(call);
    }

    method OnInput(frame: Frame, size: nat)
      requires Valid() && (frame.InItem? || frame.InDone?)
      modifies gate, calls, queues
      ensures unchanged(this)
      ensures Valid() && State() == V.OnInput(old(State()), frame, size)
    {
      if frame.id in inflight {
        MappedIn(State(), frame.id);
        PushTo(inflight[frame.id], frame, size);
      }
    }

    method HandleFrame(frame: Frame, size: nat, fate: S.Fate)
      requires Valid() && open
      modifies this, gate, calls, queues
      ensures Valid() && State() == V.Step(old(State()), V.Arrives(frame, size, fate))
    {
      if frame.Call? {
        StartCall(frame);
      } else if frame.InItem? || frame.InDone? {
        OnInput(frame, size);
      } else if frame.Cancel? {
        OnCancel(frame.id);
      } else if IsHello(frame) {
        Close();
      } else if frame.id !in inflight {
        SendRouterErr(frame.id, "Unexpected frame", fate);
      }
    }

    /** The handler of a call asks for its next input. */
    method Consume(call: ServerCall)
      requires Valid() && Knows(call)
      modifies gate, calls, queues
      ensures unchanged(this)
      ensures Valid() && State() == V.Step(old(State()), V.Consumes(call.serial))
    {
      assert Owns(call.serial);
      SC.PushPullOk(call.State(), InDone(""), 0);
      call.PullInput();
      OneChanged(call);
    }

    /** Which continuation of the call an event is. */
    static method Dispatch(call: ServerCall, event: V.CallEvent, net: SC.Net) returns (out: Output)
      requires call.Gated()
      modifies call, call.Queues(), call.gate
      ensures SC.Effect(call.State(), out.sent, out.settle, out.close) == V.CallStep(old(call.State()), event, net)
      ensures call.gate.State() == Follow(old(call.gate.State()), SC.Paused(old(call.State())), SC.Paused(call.State()))
    {
      V.StepKeepsInput(call.State(), event, net);
      out := SILENT;
      match event {
        case DispatchSettles(result) => out := call.OnDispatched(result, net);
        case NextSettles(next) => out := call.OnNext(next, net);
        case DrainSettles(outcome) => call.OnDrainSettled(outcome);
        case DrainResumes => out := call.OnDrainResumed(net);
        case ReportSettles => out := call.OnReported(net);
      }
    }

    /** One step of a call by itself. */
    method StepCall(call: ServerCall, event: V.CallEvent, net: SC.Net) returns (out: Output)
      requires Valid() && Knows(call)
      modifies gate, calls, queues
      ensures unchanged(this)
      ensures Valid() && SC.Effect(call.State(), out.sent, out.settle, out.close) == V.CallStep(old(call.State()), event, net)
      ensures State() == V.Update(old(State()), call.serial, call.State())
    {
      assert Owns(call.serial);
      V.StepIsHealthy(call.State(), event, net);
      out := Dispatch(call, event, net);
      OneChanged(call);
    }

    /** Do what a call's step asks of the connection. */
    method Obey(call: ServerCall, out: Output)
      requires Valid() && Knows(call)
      modifies this, gate, calls, queues
      ensures Valid() && State() == Obeyed(old(State()), call.serial, call.id, out)
    {
      Record(out.sent, V.ByCall(call.serial));
      if out.settle {
        Forget(call.id);
      }
      if out.close {
        Close();
      }
    }

    /** A wait of a call is over: its step, and what the step asks of the connection. */
    method Proceed(call: ServerCall, event: V.CallEvent, first: S.Fate, second: S.Fate)
      requires Valid() && Knows(call)
      modifies this, gate, calls, queues
      ensures Valid() && State() == V.Step(old(State()), V.Proceeds(call.serial, event, first, second))
    {
      ghost var m, e := State(), V.CallStep(call.State(), event, SC.Net(open, first, second, reports));
      var out := StepCall(call, event, SC.Net(open, first, second, reports));
      AppliedIsObeyed(m, call.serial, e, out);
      Obey(call, out);
    }
  }
}
