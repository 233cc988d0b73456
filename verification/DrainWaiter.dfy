/**
 * The wait of a sender between two frames of one call: until the duplex has
 * drained, a timeout, or a cancel, whichever comes first.
 */
module Drains {
  import opened Basics

  /** One `wait()`: the calls of its promise's `resolve`, and whether its timer is running. */
  datatype Held = Held(settled: seq<DrainOutcome>, timer: bool)

  /** What the `onStall` hook is told. */
  datatype Notice = Stalled | GaveUp(wait: nat)

  /**
   * `timed` is a positive `drainTimeout`, `hooked` an `onStall` that is not off,
   * and `pending` the wait that has not settled. `waits` and `notices` are
   * observations.
   */
  datatype Waiter = Waiter(
    timed: bool,
    hooked: bool,
    stalled: bool,
    pending: Option<nat>,
    waits: seq<Held>,
    notices: seq<Notice>)

  function Fresh(timed: bool, hooked: bool): Waiter {
    Waiter(timed, hooked, false, None, [], [])
  }

  function Told(w: Waiter, notice: Notice): Waiter {
    if w.hooked then w.(notices := w.notices + [notice]) else w
  }

  /** A second wait beside a pending one is refused. */
  function Begin(w: Waiter): (Waiter, bool) {
    if w.pending.Some? then (w, false)
    else
      var w1 := w.(pending := Some(|w.waits|), waits := w.waits + [Held([], w.timed)]);
      (if w.stalled then w1 else Told(w1.(stalled := true), Stalled), true)
  }

  function Settle(w: Waiter, i: nat, outcome: DrainOutcome): Waiter {
    if w.pending != Some(i) || i >= |w.waits| then w
    else
      var w1 := w.(pending := None, waits := w.waits[i := Held(w.waits[i].settled + [outcome], false)]);
      if outcome.TimedOut? then Told(w1, GaveUp(i)) else w1
  }

  function OnTimer(w: Waiter, i: nat): Waiter {
    if i < |w.waits| && w.waits[i].timer then Settle(w, i, TimedOut) else w
  }

  function Cancel(w: Waiter): Waiter {
    if w.pending.Some? then Settle(w, w.pending.value, Cancelled) else w
  }

  /** A drain promise may settle long after its wait has. */
  datatype Event = Waits | DuplexDrains(wait: nat) | TimerFires(wait: nat) | Cancels

  function Step(w: Waiter, e: Event): Waiter {
    match e
    case Waits => Begin(w).0
    case DuplexDrains(i) => Settle(w, i, Drained)
    case TimerFires(i) => OnTimer(w, i)
    case Cancels => Cancel(w)
  }

  function Run(w: Waiter, events: seq<Event>): Waiter
    decreases |events|
  {
    if events == [] then w else Run(Step(w, events[0]), events[1..])
  }

  /** The waits that timed out, in order. */
  function GivenUp(waits: seq<Held>): seq<Notice> {
    if waits == [] then []
    else
      var last := |waits| - 1;
      GivenUp(waits[..last]) + (if waits[last].settled == [TimedOut] then [GaveUp(last)] else [])
  }

  ghost predicate Good(w: Waiter) {
    // one wait at a time, the last one, and every other has settled once
    && (w.pending.Some? ==> w.pending.value == |w.waits| - 1)
    && (forall i :: 0 <= i < |w.waits| ==> |w.waits[i].settled| == if w.pending == Some(i) then 0 else 1)
    // a timer runs only for the pending wait, and only when there is a timeout
    && (forall i :: 0 <= i < |w.waits| ==> (w.waits[i].timer <==> w.timed && w.pending == Some(i)))
    && (!w.timed ==> forall i :: 0 <= i < |w.waits| ==> w.waits[i].settled != [TimedOut])
    // the hook hears of the first wait, once, and of every timeout
    && (w.stalled <==> w.waits != [])
    && w.notices == if w.hooked && w.waits != [] then [Stalled] + GivenUp(w.waits) else []
  }

  lemma GivenUpSnoc(waits: seq<Held>, last: Held)
    ensures GivenUp(waits + [last])
         == GivenUp(waits) + (if last.settled == [TimedOut] then [GaveUp(|waits|)] else [])
  {
    assert (waits + [last])[..|waits|] == waits;
  }

  /** The notices that go with the last wait's outcome. */
  lemma LastGivenUp(waits: seq<Held>, i: nat, outcome: DrainOutcome)
    requires i == |waits| - 1 && waits[i].settled == []
    ensures GivenUp(waits[i := Held([outcome], false)])
         == GivenUp(waits) + (if outcome.TimedOut? then [GaveUp(i)] else [])
  {
    var init := waits[..i];
    assert waits == init + [waits[i]] && waits[i := Held([outcome], false)] == init + [Held([outcome], false)];
    GivenUpSnoc(init, waits[i]);
    GivenUpSnoc(init, Held([outcome], false));
    assert GivenUp(init) + [] == GivenUp(init);
  }

  lemma SettleIs(w: Waiter, i: nat, outcome: DrainOutcome)
    requires w.pending == Some(i) && i < |w.waits| && w.waits[i].settled == []
    ensures Settle(w, i, outcome)
         == w.(pending := None, waits := w.waits[i := Held([outcome], false)],
               notices := if outcome.TimedOut? && w.hooked then w.notices + [GaveUp(i)] else w.notices)
  {
    assert w.waits[i].settled + [outcome] == [outcome];
  }

  lemma SettleKeeps(w: Waiter, i: nat, outcome: DrainOutcome)
    requires Good(w) && (outcome.TimedOut? ==> w.timed)
    ensures Good(Settle(w, i, outcome))
  {
    if w.pending == Some(i) {
      LastGivenUp(w.waits, i, outcome);
      SettleIs(w, i, outcome);
      var g := GivenUp(w.waits);
      assert [Stalled] + (g + [GaveUp(i)]) == [Stalled] + g + [GaveUp(i)] && g + [] == g;
    }
  }

  lemma BeginKeeps(w: Waiter)
    requires Good(w)
    ensures Good(Begin(w).0)
  {
    if w.pending.None? {
      GivenUpSnoc(w.waits, Held([], w.timed));
      assert w.waits == [] ==> GivenUp(w.waits) == [] && [Stalled] + GivenUp(w.waits) == [Stalled];
      assert ([Stalled] + GivenUp(w.waits)) + [] == [Stalled] + GivenUp(w.waits);
    }
  }

  lemma StepKeeps(w: Waiter, e: Event)
    requires Good(w)
    ensures Good(Step(w, e)) && |w.waits| <= |Step(w, e).waits|
  {
    match e
    case Waits => BeginKeeps(w);
    case DuplexDrains(i) => SettleKeeps(w, i, Drained);
    case TimerFires(i) => if i < |w.waits| && w.waits[i].timer { SettleKeeps(w, i, TimedOut); }
    case Cancels => if w.pending.Some? { SettleKeeps(w, w.pending.value, Cancelled); }
  }

  lemma {:induction false} EveryRunIsGood(w: Waiter, events: seq<Event>)
    requires Good(w)
    ensures Good(Run(w, events)) && |w.waits| <= |Run(w, events).waits|
    decreases |events|
  {
    if events != [] {
      StepKeeps(w, events[0]);
      EveryRunIsGood(Step(w, events[0]), events[1..]);
    }
  }

  /** A wait that is not pending is left as it was. */
  lemma StepStays(w: Waiter, e: Event, i: nat)
    requires i < |w.waits| && w.pending != Some(i)
    ensures var r := Step(w, e); i < |r.waits| && r.pending != Some(i) && r.waits[i].settled == w.waits[i].settled
  {
  }

  /** The first outcome of a wait is its only one, whatever still fires. */
  lemma {:induction false} FirstOutcomeStays(w: Waiter, events: seq<Event>, i: nat)
    requires i < |w.waits| && w.pending != Some(i)
    ensures i < |Run(w, events).waits| && Run(w, events).waits[i].settled == w.waits[i].settled
    decreases |events|
  {
    if events != [] {
      StepStays(w, events[0], i);
      FirstOutcomeStays(Step(w, events[0]), events[1..], i);
    }
  }

  /** What decides a wait that has begun: the first of its drain promise, its timer if there is a timeout, and a cancel. */
  function Decided(timed: bool, events: seq<Event>, i: nat): seq<DrainOutcome>
    decreases |events|
  {
    if events == [] then []
    else if events[0] == DuplexDrains(i) then [Drained]
    else if events[0] == TimerFires(i) && timed then [TimedOut]
    else if events[0] == Cancels then [Cancelled]
    else Decided(timed, events[1..], i)
  }

  /** The pending wait comes out as what happens next decides. */
  lemma {:induction false} PendingIsDecided(w: Waiter, events: seq<Event>, i: nat)
    requires Good(w) && w.pending == Some(i)
    ensures i < |Run(w, events).waits| && Run(w, events).waits[i].settled == Decided(w.timed, events, i)
    decreases |events|
  {
    if events != [] {
      var r := Step(w, events[0]);
      StepKeeps(w, events[0]);
      assert w.waits[i].settled == [];
      if r.pending == Some(i) {
        PendingIsDecided(r, events[1..], i);
      } else {
        FirstOutcomeStays(r, events[1..], i);
      }
    }
  }

  lemma {:induction false} RunThen(w: Waiter, a: seq<Event>, b: seq<Event>)
    ensures Run(w, a + b) == Run(Run(w, a), b)
    decreases |a|
  {
    if a == [] {
      assert a + b == b;
    } else {
      assert (a + b)[1..] == a[1..] + b;
      RunThen(Step(w, a[0]), a[1..], b);
    }
  }

  /** A wait begins exactly if every wait before it has settled; otherwise it is refused, and nothing changes. */
  lemma WaitBegins(w: Waiter)
    requires Good(w)
    ensures var (r, ok) := Begin(w);
            && (ok <==> forall i :: 0 <= i < |w.waits| ==> w.waits[i].settled != [])
            && (ok ==> r.pending == Some(|w.waits|) && |r.waits| == |w.waits| + 1 && r.waits[|w.waits|] == Held([], w.timed)
                       && r.waits[..|w.waits|] == w.waits)
            && (!ok ==> r == w)
  {
    if w.pending.Some? {
      assert w.waits[w.pending.value].settled == [];
    }
  }

  lemma {:induction false} SettingsStay(w: Waiter, events: seq<Event>)
    ensures Run(w, events).timed == w.timed && Run(w, events).hooked == w.hooked
    decreases |events|
  {
    if events != [] {
      SettingsStay(Step(w, events[0]), events[1..]);
    }
  }

  /**
   * Over every run, a wait that begins after `before` comes out as the first of its
   * drain, its timeout and a cancel among what follows, once, and hangs if there is
   * none; the hook hears of the first wait and of exactly the waits that timed out.
   */
  lemma FirstComesFirst(timed: bool, hooked: bool, before: seq<Event>, after: seq<Event>)
    requires Run(Fresh(timed, hooked), before).pending.None?
    ensures var w := Run(Fresh(timed, hooked), before + [Waits] + after);
            var i := |Run(Fresh(timed, hooked), before).waits|;
            && i < |w.waits| && w.waits[i].settled == Decided(timed, after, i)
            && w.notices == (if hooked then [Stalled] + GivenUp(w.waits) else [])
  {
    var w0 := Fresh(timed, hooked);
    EveryRunIsGood(w0, before);
    var w1 := Run(w0, before);
    SettingsStay(w0, before);
    RunThen(w0, before + [Waits], after);
    RunThen(w0, before, [Waits]);
    assert [Waits][1..] == [];
    assert Run(w1, [Waits]) == Begin(w1).0;
    StepKeeps(w1, Waits);
    PendingIsDecided(Begin(w1).0, after, |w1.waits|);
    EveryRunIsGood(Begin(w1).0, after);
    SettingsStay(Begin(w1).0, after);
  }

  class DrainWaiter {
    const timed: bool
    const hooked: bool
    var stalled: bool
    var pending: Option<nat>
    var timers: seq<bool>
    ghost var settled: seq<seq<DrainOutcome>>
    ghost var notices: seq<Notice>

    ghost predicate Valid()
      reads this
    {
      |settled| == |timers|
    }

    ghost function State(): Waiter
      requires Valid()
      reads this
    {
      Waiter(timed, hooked, stalled, pending,
             seq(|timers|, i requires 0 <= i < |timers| && |settled| == |timers| reads this => Held(settled[i], timers[i])),
             notices)
    }

    constructor (timed: bool, hooked: bool)
      ensures Valid() && State() == Fresh(timed, hooked)
    {
      this.timed, this.hooked := timed, hooked;
      stalled, pending, timers, settled, notices := false, None, [], [], [];
    }

    method Notify(notice: Notice)
      requires Valid()
      modifies this`notices
      ensures Valid() && State() == Told(old(State()), notice)
    {
      if hooked {
        notices := notices + [notice];
      }
      assert State().waits == old(State()).waits;
    }

    method Wait() returns (ok: bool)
      requires Valid()
      modifies this
      ensures Valid() && (State(), ok) == Begin(old(State()))
    {
      if pending.Some? {
        return false;
      }
      ghost var w := State();
      pending := Some(|timers|);
      timers, settled := timers + [timed], settled + [[]];
      assert State().waits == w.waits + [Held([], timed)];
      assert State() == w.(pending := Some(|w.waits|), waits := w.waits + [Held([], timed)]);
      if !stalled {
        ghost var w1 := State();
        stalled := true;
        assert State().waits == w1.waits;
        Notify(Stalled);
      }
      return true;
    }

    method SettleWait(wait: nat, outcome: DrainOutcome)
      requires Valid()
      modifies this
      ensures Valid() && State() == Settle(old(State()), wait, outcome)
    {
      if pending != Some(wait) || wait >= |timers| {
        return;
      }
      pending := None;
      timers := timers[wait := false];
      settled := settled[wait := settled[wait] + [outcome]];
      assert State().waits == old(State().waits)[wait := Held(settled[wait], false)];
      if outcome.TimedOut? {
        Notify(GaveUp(wait));
      }
    }

    method OnTimerFired(wait: nat)
      requires Valid()
      modifies this
      ensures Valid() && State() == OnTimer(old(State()), wait)
    {
      if wait < |timers| && timers[wait] {
        SettleWait(wait, TimedOut);
      }
    }

    method CancelWait()
      requires Valid()
      modifies this
      ensures Valid() && State() == Cancel(old(State()))
    {
      if pending.Some? {
        SettleWait(pending.value, Cancelled);
      }
    }
  }
}
