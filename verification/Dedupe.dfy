/**
 * Shared in-flight calls: callers with the same key wait for one `next()`, each
 * may leave by aborting, and the last one to leave aborts the shared work.
 *
 * `Plugin` keeps every entry and every caller there ever was; `inflight` maps a
 * key to its joinable entry.
 */
module Deduping {
  import opened Basics

  /** What the promise of `next()` settles with. */
  datatype Answer = Resolved(value: Payload) | Rejected(error: Payload)

  /** `next()` is pending; its `finally` is about to run; the shared promise has settled. */
  datatype Work = Running | Cleaning(answer: Answer) | Settled(answer: Answer)

  /** How a caller's promise settles. */
  datatype Outcome = Shared(answer: Answer) | RequestAborted

  datatype Entry = Entry(key: string, work: Work, waiters: set<nat>, aborts: nat)

  datatype Caller = Caller(entry: Option<nat>, settled: seq<Outcome>)

  datatype Plugin = Plugin(entries: seq<Entry>, inflight: map<string, nat>, callers: seq<Caller>)

  const IDLE := Plugin([], map[], [])

  function WithEntry(p: Plugin, e: nat, entry: Entry): Plugin
    requires e < |p.entries|
  {
    p.(entries := p.entries[e := entry])
  }

  /** A caller whose signal is already aborted waits for nothing. */
  function Refuse(p: Plugin): Plugin {
    p.(callers := p.callers + [Caller(None, [RequestAborted])])
  }

  function Join(p: Plugin, e: nat, aborted: bool): Plugin
    requires e < |p.entries|
  {
    if aborted then Refuse(p)
    else
      WithEntry(p, e, p.entries[e].(waiters := p.entries[e].waiters + {|p.callers|}))
      .(callers := p.callers + [Caller(Some(e), [])])
  }

  /** Call `next()` with a signal of its own. */
  function Start(p: Plugin, key: string): Plugin {
    p.(entries := p.entries + [Entry(key, Running, {}, 0)], inflight := p.inflight[key := |p.entries|])
  }

  /** `abortedInNext`: the caller's signal is aborted while `next()` is being called. */
  function Intercept(p: Plugin, key: string, aborted: bool, abortedInNext: bool): Plugin {
    if key in p.inflight && p.inflight[key] < |p.entries| then Join(p, p.inflight[key], aborted)
    else if aborted then Refuse(p)
    else Join(Start(p, key), |p.entries|, abortedInNext)
  }

  function Unmap(p: Plugin, e: nat): map<string, nat>
    requires e < |p.entries|
  {
    var key := p.entries[e].key;
    if key in p.inflight && p.inflight[key] == e then p.inflight - {key} else p.inflight
  }

  /** The caller still waits for its entry. */
  predicate Waits(p: Plugin, w: nat) {
    && w < |p.callers|
    && p.callers[w].entry.Some?
    && p.callers[w].entry.value < |p.entries|
    && w in p.entries[p.callers[w].entry.value].waiters
  }

  /** Take a caller out of its entry and settle its promise. */
  function Leave(p: Plugin, w: nat, outcome: Outcome): Plugin
    requires Waits(p, w)
  {
    var e := p.callers[w].entry.value;
    WithEntry(p, e, p.entries[e].(waiters := p.entries[e].waiters - {w}))
    .(callers := p.callers[w := p.callers[w].(settled := p.callers[w].settled + [outcome])])
  }

  function OnAbort(p: Plugin, w: nat): Plugin {
    if !Waits(p, w) then p
    else
      var e := p.callers[w].entry.value;
      var r := Leave(p, w, RequestAborted);
      if r.entries[e].waiters == {} then
        WithEntry(r, e, r.entries[e].(aborts := r.entries[e].aborts + 1)).(inflight := Unmap(p, e))
      else r
  }

  /** `next()` has settled; the `finally` callback comes in a later microtask. */
  function OnWork(p: Plugin, e: nat, answer: Answer): Plugin {
    if e < |p.entries| && p.entries[e].work.Running? then WithEntry(p, e, p.entries[e].(work := Cleaning(answer))) else p
  }

  function OnFinally(p: Plugin, e: nat): Plugin {
    if e < |p.entries| && p.entries[e].work.Cleaning? then
      WithEntry(p, e, p.entries[e].(work := Settled(p.entries[e].work.answer))).(inflight := Unmap(p, e))
    else p
  }

  /** The shared promise tells one caller. */
  function OnShared(p: Plugin, w: nat): Plugin {
    if Waits(p, w) && p.entries[p.callers[w].entry.value].work.Settled?
    then Leave(p, w, Shared(p.entries[p.callers[w].entry.value].work.answer))
    else p
  }

  // ---- All runs ----

  /** A call without a key goes past the plugin. */
  datatype Event =
    | Calls(key: Option<string>, aborted: bool, abortedInNext: bool)
    | Aborts(caller: nat)
    | WorkSettles(entry: nat, answer: Answer)
    | FinallyRuns(entry: nat)
    | Tells(caller: nat)

  function Step(p: Plugin, event: Event): Plugin {
    match event
    case Calls(key, aborted, abortedInNext) => if key.None? then p else Intercept(p, key.value, aborted, abortedInNext)
    case Aborts(w) => OnAbort(p, w)
    case WorkSettles(e, answer) => OnWork(p, e, answer)
    case FinallyRuns(e) => OnFinally(p, e)
    case Tells(w) => OnShared(p, w)
  }

  function Run(p: Plugin, events: seq<Event>): Plugin
    decreases |events|
  {
    if events == [] then p else Run(Step(p, events[0]), events[1..])
  }

  predicate Mapped(p: Plugin, e: nat) {
    e < |p.entries| && p.entries[e].key in p.inflight && p.inflight[p.entries[e].key] == e
  }

  /** A mapped entry can still be joined, and work that is running for somebody is mapped. */
  ghost predicate MapOk(p: Plugin) {
    && (forall key :: key in p.inflight ==>
          p.inflight[key] < |p.entries|
          && p.entries[p.inflight[key]].key == key
          && p.entries[p.inflight[key]].aborts == 0
          && !p.entries[p.inflight[key]].work.Settled?)
    && (forall e :: 0 <= e < |p.entries| && p.entries[e].aborts == 0 && !p.entries[e].work.Settled? ==> Mapped(p, e))
  }

  /** Shared work is aborted at most once, and then nobody waits for it. */
  ghost predicate EntriesOk(p: Plugin) {
    forall e :: 0 <= e < |p.entries| ==>
      && p.entries[e].aborts <= 1
      && (p.entries[e].aborts == 1 ==> p.entries[e].waiters == {})
      && forall w :: w in p.entries[e].waiters ==> w < |p.callers| && p.callers[w].entry == Some(e)
  }

  /** A caller waits or has settled, once. */
  ghost predicate CallerOk(p: Plugin, w: nat)
    requires w < |p.callers|
  {
    var c := p.callers[w];
    && |c.settled| <= 1
    && (c.settled == [] <==> Waits(p, w))
    && (c.settled != [] && c.settled[0].Shared? ==>
          c.entry.Some? && c.entry.value < |p.entries| && p.entries[c.entry.value].work == Settled(c.settled[0].answer))
  }

  ghost predicate Good(p: Plugin) {
    MapOk(p) && EntriesOk(p) && forall w :: 0 <= w < |p.callers| ==> CallerOk(p, w)
  }

  lemma RefuseKeeps(p: Plugin)
    requires Good(p)
    ensures Good(Refuse(p))
  {
    var r := Refuse(p);
    forall w | 0 <= w < |r.callers| ensures CallerOk(r, w) {
      if w < |p.callers| {
        assert CallerOk(p, w);
      }
    }
  }

  lemma JoinKeeps(p: Plugin, e: nat)
    requires Good(p) && e < |p.entries| && p.entries[e].aborts == 0
    ensures Good(Join(p, e, false))
  {
    var r := Join(p, e, false);
    forall w | 0 <= w < |r.callers| ensures CallerOk(r, w) {
      if w < |p.callers| {
        assert CallerOk(p, w);
      }
    }
    forall i | 0 <= i < |r.entries| && r.entries[i].aborts == 0 && !r.entries[i].work.Settled? ensures Mapped(r, i) {
      assert Mapped(p, i);
    }
  }

  lemma StartKeeps(p: Plugin, key: string)
    requires Good(p) && key !in p.inflight
    ensures Good(Start(p, key))
  {
    var r := Start(p, key);
    forall w | 0 <= w < |r.callers| ensures CallerOk(r, w) {
      assert CallerOk(p, w);
    }
    forall i | 0 <= i < |r.entries| && r.entries[i].aborts == 0 && !r.entries[i].work.Settled? ensures Mapped(r, i) {
      assert i < |p.entries| ==> Mapped(p, i);
    }
  }

  lemma LeaveKeeps(p: Plugin, w: nat, outcome: Outcome)
    requires Good(p) && Waits(p, w)
    requires outcome.Shared? ==> p.entries[p.callers[w].entry.value].work == Settled(outcome.answer)
    ensures Good(Leave(p, w, outcome))
  {
    var r := Leave(p, w, outcome);
    assert CallerOk(p, w);
    forall i | 0 <= i < |r.callers| ensures CallerOk(r, i) {
      assert CallerOk(p, i);
    }
    forall i | 0 <= i < |r.entries| && r.entries[i].aborts == 0 && !r.entries[i].work.Settled? ensures Mapped(r, i) {
      assert Mapped(p, i);
    }
  }

  /** An entry that nobody may join any more leaves the map. */
  lemma UnmapKeeps(p: Plugin, e: nat, entry: Entry)
    requires Good(p) && e < |p.entries| && entry.key == p.entries[e].key && entry.waiters == p.entries[e].waiters
    requires entry.aborts == 1 || entry.work.Settled?
    requires entry.aborts <= 1 && (entry.aborts == 1 ==> entry.waiters == {})
    requires p.entries[e].work.Settled? ==> entry.work == p.entries[e].work
    ensures Good(WithEntry(p, e, entry).(inflight := Unmap(p, e)))
  {
    var r := WithEntry(p, e, entry).(inflight := Unmap(p, e));
    forall w | 0 <= w < |r.callers| ensures CallerOk(r, w) {
      assert CallerOk(p, w);
    }
    forall i | 0 <= i < |r.entries| && r.entries[i].aborts == 0 && !r.entries[i].work.Settled? ensures Mapped(r, i) {
      assert Mapped(p, i);
    }
  }

  lemma AbortKeeps(p: Plugin, w: nat)
    requires Good(p)
    ensures Good(OnAbort(p, w))
  {
    if Waits(p, w) {
      var e := p.callers[w].entry.value;
      var r := Leave(p, w, RequestAborted);
      LeaveKeeps(p, w, RequestAborted);
      if r.entries[e].waiters == {} {
        UnmapKeeps(r, e, r.entries[e].(aborts := r.entries[e].aborts + 1));
      }
    }
  }

  lemma WorkKeeps(p: Plugin, e: nat, answer: Answer)
    requires Good(p)
    ensures Good(OnWork(p, e, answer))
  {
    var r := OnWork(p, e, answer);
    forall w | 0 <= w < |r.callers| ensures CallerOk(r, w) {
      assert CallerOk(p, w);
    }
    forall i | 0 <= i < |r.entries| && r.entries[i].aborts == 0 && !r.entries[i].work.Settled? ensures Mapped(r, i) {
      assert Mapped(p, i);
    }
  }

  lemma StepKeeps(p: Plugin, event: Event)
    requires Good(p)
    ensures Good(Step(p, event))
    ensures |p.entries| <= |Step(p, event).entries| && |p.callers| <= |Step(p, event).callers|
  {
    match event
    case Calls(key, aborted, abortedInNext) =>
      if key.Some? {
        RefuseKeeps(p);
        if key.value in p.inflight {
          JoinKeeps(p, p.inflight[key.value]);
        } else if !aborted {
          StartKeeps(p, key.value);
          RefuseKeeps(Start(p, key.value));
          JoinKeeps(Start(p, key.value), |p.entries|);
        }
      }
    case Aborts(w) => AbortKeeps(p, w);
    case WorkSettles(e, answer) => WorkKeeps(p, e, answer);
    case FinallyRuns(e) =>
      if e < |p.entries| && p.entries[e].work.Cleaning? {
        UnmapKeeps(p, e, p.entries[e].(work := Settled(p.entries[e].work.answer)));
      }
    case Tells(w) =>
      if Waits(p, w) && p.entries[p.callers[w].entry.value].work.Settled? {
        LeaveKeeps(p, w, Shared(p.entries[p.callers[w].entry.value].work.answer));
      }
  }

  lemma {:induction false} EveryRunIsGood(p: Plugin, events: seq<Event>)
    requires Good(p)
    ensures Good(Run(p, events))
    ensures |p.entries| <= |Run(p, events).entries| && |p.callers| <= |Run(p, events).callers|
    decreases |events|
  {
    if events != [] {
      StepKeeps(p, events[0]);
      EveryRunIsGood(Step(p, events[0]), events[1..]);
    }
  }

  // ---- What follows ----

  /** At any time a key has at most one unaborted `next()` that is still running. */
  lemma OneLiveWorkPerKey(events: seq<Event>, i: nat, j: nat)
    requires var p := Run(IDLE, events);
             && i < |p.entries| && j < |p.entries| && p.entries[i].key == p.entries[j].key
             && p.entries[i].work.Running? && p.entries[i].aborts == 0
             && p.entries[j].work.Running? && p.entries[j].aborts == 0
    ensures i == j
  {
    EveryRunIsGood(IDLE, events);
    var p := Run(IDLE, events);
    assert Mapped(p, i) && Mapped(p, j);
  }

  /** Every caller settles at most once, is settled unless it waits, and a shared outcome is its entry's. */
  lemma EveryCallerSettlesOnce(events: seq<Event>, w: nat)
    requires w < |Run(IDLE, events).callers|
    ensures var p := Run(IDLE, events);
            var c := p.callers[w];
            && |c.settled| == (if Waits(p, w) then 0 else 1)
            && (c.settled != [] && c.settled[0].Shared? ==>
                  c.entry.Some? && c.entry.value < |p.entries| && p.entries[c.entry.value].work == Settled(c.settled[0].answer))
  {
    EveryRunIsGood(IDLE, events);
    assert CallerOk(Run(IDLE, events), w);
  }

  /** Once the shared promise has settled, telling a caller leaves it settled. */
  lemma ToldIsSettled(p: Plugin, w: nat)
    requires Good(p) && w < |p.callers|
    requires Waits(p, w) ==> p.entries[p.callers[w].entry.value].work.Settled?
    ensures |Step(p, Tells(w)).callers[w].settled| == 1
  {
    assert CallerOk(p, w);
  }

  /** Shared work is aborted exactly when an abort takes its last waiter, and by nothing else. */
  lemma AbortExactly(p: Plugin, event: Event, e: nat)
    requires Good(p) && e < |p.entries|
    ensures var r := Step(p, event);
            && e < |r.entries|
            && (r.entries[e].aborts != p.entries[e].aborts <==>
                  event.Aborts? && Waits(p, event.caller) && p.entries[e].waiters == {event.caller})
            && r.entries[e].aborts <= 1
  {
    StepKeeps(p, event);
    if event.Aborts? && Waits(p, event.caller) {
      assert p.entries[e].waiters == {event.caller} ==> event.caller in p.entries[e].waiters;
      if p.callers[event.caller].entry.value == e && p.entries[e].waiters - {event.caller} == {} {
        assert p.entries[e].waiters == {event.caller};
      }
    }
  }

  /** Whoever joins an entry joins work that is neither aborted nor settled. */
  lemma NobodyJoinsAbortedWork(p: Plugin, event: Event, e: nat, w: nat)
    requires Good(p) && e < |Step(p, event).entries| && w in Step(p, event).entries[e].waiters
    requires e >= |p.entries| || w !in p.entries[e].waiters
    ensures event.Calls? && w == |p.callers|
    ensures Step(p, event).entries[e].aborts == 0 && !Step(p, event).entries[e].work.Settled?
  {
  }

  /** A mapped entry has somebody waiting for it. */
  ghost predicate Attended(p: Plugin) {
    forall key :: key in p.inflight && p.inflight[key] < |p.entries| ==> p.entries[p.inflight[key]].waiters != {}
  }

  /** A call that starts work for a signal that is aborted during `next()`. */
  predicate Orphans(p: Plugin, event: Event) {
    event.Calls? && event.key.Some? && event.key.value !in p.inflight && !event.aborted && event.abortedInNext
  }

  lemma AttendedCall(p: Plugin, key: string, aborted: bool, abortedInNext: bool)
    requires Good(p) && Attended(p)
    ensures Attended(Intercept(p, key, aborted, abortedInNext))
       <==> !Orphans(p, Calls(Some(key), aborted, abortedInNext))
  {
    var r := Intercept(p, key, aborted, abortedInNext);
    if key !in p.inflight && !aborted {
      assert key in r.inflight && r.inflight[key] == |p.entries|;
      if !abortedInNext {
        assert |p.callers| in r.entries[|p.entries|].waiters;
      }
    } else if key in p.inflight && !aborted {
      assert |p.callers| in r.entries[p.inflight[key]].waiters;
    }
  }

  /** Every event keeps mapped work attended, but for exactly one kind of call. */
  lemma AttendedExactly(p: Plugin, event: Event)
    requires Good(p) && Attended(p)
    ensures Attended(Step(p, event)) <==> !Orphans(p, event)
  {
    var r := Step(p, event);
    match event
    case Calls(key, aborted, abortedInNext) =>
      if key.Some? {
        AttendedCall(p, key.value, aborted, abortedInNext);
      }
    case Aborts(w) => AttendedAbort(p, w);
    case WorkSettles(e, answer) =>
    case FinallyRuns(e) =>
    case Tells(w) =>
      if Waits(p, w) && p.entries[p.callers[w].entry.value].work.Settled? {
        assert !Mapped(p, p.callers[w].entry.value);
      }
  }

  lemma AttendedAbort(p: Plugin, w: nat)
    requires Good(p) && Attended(p)
    ensures Attended(OnAbort(p, w))
  {
    var r := OnAbort(p, w);
    AbortKeeps(p, w);
    forall key | key in r.inflight ensures r.entries[r.inflight[key]].waiters != {} {
      assert key in p.inflight && r.inflight[key] == p.inflight[key];
    }
  }

  predicate NoOrphans(p: Plugin, events: seq<Event>)
    decreases |events|
  {
    events == [] || (!Orphans(p, events[0]) && NoOrphans(Step(p, events[0]), events[1..]))
  }

  lemma {:induction false} EveryRunIsAttended(p: Plugin, events: seq<Event>)
    requires Good(p) && Attended(p) && NoOrphans(p, events)
    ensures Attended(Run(p, events))
    decreases |events|
  {
    if events != [] {
      StepKeeps(p, events[0]);
      AttendedExactly(p, events[0]);
      EveryRunIsAttended(Step(p, events[0]), events[1..]);
    }
  }

  /** Work left running, mapped and with nobody waiting: no abort can reach it until somebody joins. */
  lemma OrphanedWork(key: string)
    ensures var p := Run(IDLE, [Calls(Some(key), false, true)]);
            && Mapped(p, 0) && p.entries[0].work.Running? && p.entries[0].waiters == {} && p.entries[0].aborts == 0
            && forall w :: OnAbort(p, w) == p
  {
    var p := Intercept(IDLE, key, false, true);
    assert [Calls(Some(key), false, true)][1..] == [];
    assert Run(IDLE, [Calls(Some(key), false, true)]) == Run(p, []);
  }

  // ---- What each event comes to ----

  /** What `next()` has settled with, if it has. */
  function Known(work: Work): Option<Answer> {
    if work.Running? then None else Some(work.answer)
  }

  /** The first answer that these events bring for entry `e`. */
  function Reported(events: seq<Event>, e: nat): Option<Answer>
    decreases |events|
  {
    if events == [] then None
    else if events[0].WorkSettles? && events[0].entry == e then Some(events[0].answer)
    else Reported(events[1..], e)
  }

  /** An entry's work goes from running through its `finally` to settled, with the one answer it got. */
  lemma WorkMovesOn(p: Plugin, event: Event, e: nat)
    requires e < |p.entries|
    ensures var was, r := p.entries[e].work, Step(p, event);
            && e < |r.entries| && r.entries[e].key == p.entries[e].key
            && (was.Running? ==>
                  r.entries[e].work == if event.WorkSettles? && event.entry == e then Cleaning(event.answer) else Running)
            && (was.Cleaning? ==> r.entries[e].work == if event == FinallyRuns(e) then Settled(was.answer) else was)
            && (was.Settled? ==> r.entries[e].work == was)
  {
  }

  lemma {:induction false} AnswerStays(p: Plugin, events: seq<Event>, e: nat)
    requires e < |p.entries| && !p.entries[e].work.Running?
    ensures e < |Run(p, events).entries| && Known(Run(p, events).entries[e].work) == Known(p.entries[e].work)
    decreases |events|
  {
    if events != [] {
      WorkMovesOn(p, events[0], e);
      AnswerStays(Step(p, events[0]), events[1..], e);
    }
  }

  /** Over every run, shared work ends with what its `next()` settled with first. */
  lemma {:induction false} AnswerIsReported(p: Plugin, events: seq<Event>, e: nat)
    requires e < |p.entries| && p.entries[e].work.Running?
    ensures e < |Run(p, events).entries| && Known(Run(p, events).entries[e].work) == Reported(events, e)
    decreases |events|
  {
    if events != [] {
      var r := Step(p, events[0]);
      WorkMovesOn(p, events[0], e);
      if r.entries[e].work.Running? {
        AnswerIsReported(r, events[1..], e);
      } else {
        AnswerStays(r, events[1..], e);
      }
    }
  }

  /**
   * So every caller that is told an outcome is told what the `next()` of the entry it
   * joined settled with first, from any moment at which that was still running.
   */
  lemma SharedIsReported(before: seq<Event>, after: seq<Event>, e: nat, w: nat)
    requires var p, r := Run(IDLE, before), Run(Run(IDLE, before), after);
             && e < |p.entries| && p.entries[e].work.Running?
             && w < |r.callers| && r.callers[w].entry == Some(e)
             && r.callers[w].settled != [] && r.callers[w].settled[0].Shared?
    ensures Reported(after, e) == Some(Run(Run(IDLE, before), after).callers[w].settled[0].answer)
  {
    EveryRunIsGood(IDLE, before);
    var p := Run(IDLE, before);
    EveryRunIsGood(p, after);
    assert CallerOk(Run(p, after), w);
    AnswerIsReported(p, after, e);
  }

  /** A call that is refused leaves only its rejected promise. */
  predicate RefusedBy(p: Plugin, r: Plugin) {
    && r.entries == p.entries && r.inflight == p.inflight
    && r.callers == p.callers + [Caller(None, [RequestAborted])]
  }

  /**
   * A call whose key is in flight waits for that entry, any other starts `next()` under
   * its key and waits for that; one whose signal is aborted is refused, and starts
   * nothing if it was aborted before.
   */
  lemma CallComesTo(p: Plugin, key: string, aborted: bool, abortedInNext: bool)
    requires Good(p)
    ensures var r, n, w := Step(p, Calls(Some(key), aborted, abortedInNext)), |p.entries|, |p.callers|;
            && (aborted ==> RefusedBy(p, r))
            && (!aborted && key in p.inflight ==>
                  var e := p.inflight[key];
                  && r.callers == p.callers + [Caller(Some(e), [])] && r.inflight == p.inflight
                  && r.entries == p.entries[e := p.entries[e].(waiters := p.entries[e].waiters + {w})])
            && (!aborted && key !in p.inflight ==>
                  && r.inflight == p.inflight[key := n]
                  && r.entries == p.entries + [Entry(key, Running, if abortedInNext then {} else {w}, 0)]
                  && r.callers == p.callers + [if abortedInNext then Caller(None, [RequestAborted]) else Caller(Some(n), [])])
  {
    if !aborted && key !in p.inflight {
      var r := Step(p, Calls(Some(key), aborted, abortedInNext));
      var n, w := |p.entries|, |p.callers|;
      assert {} + {w} == {w};
      assert r.entries[..n] == p.entries && r.entries == r.entries[..n] + [r.entries[n]];
    }
  }

  /** A call without a key goes past the plugin. */
  lemma KeylessCallPasses(p: Plugin, aborted: bool, abortedInNext: bool)
    ensures Step(p, Calls(None, aborted, abortedInNext)) == p
  {
  }

  /** A caller that aborts while it waits is rejected and leaves; the last one to leave takes the entry out of the map. */
  lemma AbortComesTo(p: Plugin, w: nat)
    requires Good(p)
    ensures var r := Step(p, Aborts(w));
            && (!Waits(p, w) ==> r == p)
            && (Waits(p, w) ==>
                  var e := p.callers[w].entry.value;
                  var last := p.entries[e].waiters - {w} == {};
                  && r.callers == p.callers[w := p.callers[w].(settled := [RequestAborted])]
                  && r.entries == p.entries[e := p.entries[e].(waiters := p.entries[e].waiters - {w},
                                                               aborts := if last then 1 else p.entries[e].aborts)]
                  && (Mapped(r, e) <==> Mapped(p, e) && !last)
                  && forall key :: key != p.entries[e].key ==> (key in r.inflight <==> key in p.inflight))
  {
    if Waits(p, w) {
      assert CallerOk(p, w);
      assert p.callers[w].settled + [RequestAborted] == [RequestAborted];
      assert w in p.entries[p.callers[w].entry.value].waiters;
    }
  }

  /** Once the shared promise has settled, a caller that still waits is told its answer; and after `finally` nobody can join. */
  lemma TellingComesTo(p: Plugin, w: nat, e: nat)
    requires Good(p)
    ensures var r := Step(p, Tells(w));
            && (!(Waits(p, w) && p.entries[p.callers[w].entry.value].work.Settled?) ==> r == p)
            && (Waits(p, w) && p.entries[p.callers[w].entry.value].work.Settled? ==>
                  var answer := p.entries[p.callers[w].entry.value].work.answer;
                  && r.callers == p.callers[w := p.callers[w].(settled := [Shared(answer)])]
                  && !Waits(r, w) && r.inflight == p.inflight)
    ensures var r := Step(p, FinallyRuns(e));
            e < |p.entries| && p.entries[e].work.Cleaning? ==> !Mapped(r, e) && r.callers == p.callers
  {
    if Waits(p, w) && p.entries[p.callers[w].entry.value].work.Settled? {
      assert CallerOk(p, w);
      var told := Shared(p.entries[p.callers[w].entry.value].work.answer);
      assert p.callers[w].settled + [told] == [told];
    }
  }
}
