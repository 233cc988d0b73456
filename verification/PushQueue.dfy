/** Connection-wide read pausing: how many queues are over their mark. */
module Reads {
  /** `paused` is the state of the duplex as set by its `pause` and `resume`. */
  datatype Gate = Gate(pausedQueues: int, paused: bool)

  function AfterPause(g: Gate): Gate {
    Gate(g.pausedQueues + 1, g.paused || g.pausedQueues + 1 == 1)
  }

  function AfterResume(g: Gate): Gate {
    Gate(g.pausedQueues - 1, g.paused && g.pausedQueues - 1 != 0)
  }

  /** What one queue's `onPause` / `onResume` does to the gate. */
  function Follow(g: Gate, before: bool, after: bool): Gate {
    if before == after then g else if after then AfterPause(g) else AfterResume(g)
  }

  /** Several queues resuming at once, in any order. */
  function ResumeMany(g: Gate, n: nat): Gate {
    if n == 0 then g else AfterResume(ResumeMany(g, n - 1))
  }

  /** The duplex is paused exactly while some queue is over its mark. */
  predicate Exact(g: Gate) {
    g.pausedQueues >= 0 && (g.paused <==> g.pausedQueues > 0)
  }

  lemma FollowKeepsExact(g: Gate, before: bool, after: bool)
    requires Exact(g) && (before ==> g.pausedQueues > 0)
    ensures Exact(Follow(g, before, after))
  {
  }

  lemma {:induction false} ResumeManyKeepsExact(g: Gate, n: nat)
    requires Exact(g) && n <= g.pausedQueues
    ensures Exact(ResumeMany(g, n)) && ResumeMany(g, n).pausedQueues == g.pausedQueues - n
  {
    if n > 0 {
      ResumeManyKeepsExact(g, n - 1);
    }
  }

  // ---- Counting the paused ones ----

  function CountOf<T>(calls: seq<T>, paused: T -> bool): nat {
    if calls == [] then 0
    else CountOf(calls[..|calls| - 1], paused) + (if paused(calls[|calls| - 1]) then 1 else 0)
  }

  lemma {:induction false} CountUpdate<T>(calls: seq<T>, k: nat, c: T, paused: T -> bool)
    requires k < |calls|
    ensures CountOf(calls[k := c], paused) + (if paused(calls[k]) then 1 else 0)
         == CountOf(calls, paused) + (if paused(c) then 1 else 0)
  {
    var n := |calls| - 1;
    if k == n {
      assert calls[k := c][..n] == calls[..n];
    } else {
      assert calls[k := c][..n] == calls[..n][k := c];
      CountUpdate(calls[..n], k, c, paused);
    }
  }

  lemma CountSnoc<T>(calls: seq<T>, c: T, paused: T -> bool)
    ensures CountOf(calls + [c], paused) == CountOf(calls, paused) + (if paused(c) then 1 else 0)
  {
    assert (calls + [c])[..|calls|] == calls;
  }

  lemma {:induction false} CountFewer<T>(a: seq<T>, b: seq<T>, paused: T -> bool)
    requires |a| == |b| && forall i :: 0 <= i < |a| && paused(b[i]) ==> paused(a[i])
    ensures CountOf(b, paused) <= CountOf(a, paused)
  {
    if a != [] {
      CountFewer(a[..|a| - 1], b[..|b| - 1], paused);
    }
  }

  lemma {:induction false} CountPositive<T>(calls: seq<T>, k: nat, paused: T -> bool)
    requires k < |calls| && paused(calls[k])
    ensures CountOf(calls, paused) > 0
  {
    if k < |calls| - 1 {
      CountPositive(calls[..|calls| - 1], k, paused);
    }
  }

  lemma {:induction false} CountZero<T>(calls: seq<T>, paused: T -> bool)
    requires forall k :: 0 <= k < |calls| ==> !paused(calls[k])
    ensures CountOf(calls, paused) == 0
  {
    if calls != [] {
      CountZero(calls[..|calls| - 1], paused);
    }
  }

  /** One more of several queues has resumed, or was not paused. */
  lemma GateFollows(start: Gate, all: nat, before: nat, after: nat, paused: bool)
    requires all >= before && after + (if paused then 1 else 0) == before
    ensures Follow(ResumeMany(start, all - before), paused, false) == ResumeMany(start, all - after)
  {
  }

  lemma OneFewerPaused<T>(start: Gate, all: nat, calls: seq<T>, gate: Gate, k: nat, c: T, paused: T -> bool)
    requires k < |calls| && !paused(c)
    requires all >= CountOf(calls, paused) && gate == ResumeMany(start, all - CountOf(calls, paused))
    ensures all >= CountOf(calls[k := c], paused)
    ensures Follow(gate, paused(calls[k]), paused(c)) == ResumeMany(start, all - CountOf(calls[k := c], paused))
  {
    CountUpdate(calls, k, c, paused);
    GateFollows(start, all, CountOf(calls, paused), CountOf(calls[k := c], paused), paused(calls[k]));
  }

  class ReadGate {
    var pausedQueues: int
    var paused: bool

    ghost function State(): Gate
      reads this
    {
      Gate(pausedQueues, paused)
    }

    constructor ()
      ensures State() == Gate(0, false)
    {
      pausedQueues, paused := 0, false;
    }

    method PauseReads()
      modifies this
      ensures State() == AfterPause(old(State()))
    {
      pausedQueues := pausedQueues + 1;
      if pausedQueues == 1 {
        paused := true;
      }
    }

    method ResumeReads()
      modifies this
      ensures State() == AfterResume(old(State()))
    {
      pausedQueues := pausedQueues - 1;
      if pausedQueues == 0 {
        paused := false;
      }
    }
  }
}

/**
 * The bounded receive queue: a frame callback pushes into it, one consumer
 * pulls from it, and it asks its owner to pause and resume reading.
 *
 * `Queue` is the queue as a value together with what has been observed of it
 * so far; `PushQueue` is the object that updates itself in place.
 */
module PushQueues {
  import opened Basics
  import opened Reads
  import FrameCodec

  datatype Entry<T> = Entry(value: T, size: nat)

  /** `error` is the peer's, if the stream failed by one. */
  datatype Closing = Open | Ended | Failed(error: Option<FrameCodec.WireError>)

  /** What one `next()` settles to. */
  datatype Pull<T> = Value(value: T) | End | Error(error: Option<FrameCodec.WireError>)

  datatype Signal = Pause | Resume

  /**
   * `mark` is the high-water mark (`None` for `Infinity`). `waiting` is a pending
   * `next()`. The last four fields are observations: the values accepted, the
   * results `next()` settled to in order, the `onPause` / `onResume` calls in
   * order, and how many pending `next()` calls a second one overwrote.
   */
  datatype Queue<T> = Queue(
    mark: Option<nat>,
    entries: seq<Entry<T>>,
    buffered: int,
    paused: bool,
    waiting: bool,
    closing: Closing,
    pushed: seq<T>,
    settled: seq<Pull<T>>,
    signals: seq<Signal>,
    overwritten: nat)

  function Fresh<T>(mark: Option<nat>): Queue<T> {
    Queue(mark, [], 0, false, false, Open, [], [], [], 0)
  }

  predicate Over(mark: Option<nat>, size: int) {
    mark.Some? && size > mark.value
  }

  /** At most half the mark. */
  predicate Low(mark: Option<nat>, size: int) {
    mark.None? || 2 * size <= mark.value
  }

  // ---- The operations ----

  /** Hand the oldest entry to a consumer. */
  function Taken<T>(q: Queue<T>): Queue<T>
    requires q.entries != []
  {
    var left := q.buffered - q.entries[0].size;
    var resume := q.paused && Low(q.mark, left);
    q.(entries := q.entries[1..],
       buffered := left,
       paused := q.paused && !resume,
       settled := q.settled + [Value(q.entries[0].value)],
       signals := if resume then q.signals + [Resume] else q.signals)
  }

  /** What a closed, empty queue answers. */
  function Answer<T>(closing: Closing): Pull<T>
    requires !closing.Open?
  {
    if closing.Ended? then End else Error(closing.error)
  }

  /** Settle the pending `next()`, if there is one and there is something to settle it with. */
  function Settled<T>(q: Queue<T>): Queue<T> {
    if !q.waiting then q
    else if q.entries != [] then Taken(q.(waiting := false))
    else if q.closing.Open? then q
    else q.(waiting := false, settled := q.settled + [Answer(q.closing)])
  }

  function Pushed<T>(q: Queue<T>, value: T, size: nat): Queue<T> {
    if !q.closing.Open? then q
    else
      var r := Settled(q.(entries := q.entries + [Entry(value, size)],
                               buffered := q.buffered + size,
                               pushed := q.pushed + [value]));
      if !r.paused && Over(r.mark, r.buffered)
      then r.(paused := true, signals := r.signals + [Pause])
      else r
  }

  function Released<T>(q: Queue<T>): Queue<T> {
    if q.paused then q.(paused := false, signals := q.signals + [Resume]) else q
  }

  function ClosedWith<T>(q: Queue<T>, closing: Closing): Queue<T>
    requires !closing.Open?
  {
    if !q.closing.Open? then q else Released(Settled(q.(closing := closing)))
  }

  function Pulled<T>(q: Queue<T>): Queue<T> {
    if q.entries != [] then Taken(q)
    else if !q.closing.Open? then q.(settled := q.settled + [Answer(q.closing)])
    else if q.waiting then q.(overwritten := q.overwritten + 1)
    else q.(waiting := true)
  }

  // ---- What every run keeps ----

  function Values<T>(entries: seq<Entry<T>>): (values: seq<T>)
    ensures |values| == |entries|
  {
    seq(|entries|, i requires 0 <= i < |entries| => entries[i].value)
  }

  function EntrySize<T>(x: Entry<T>): nat {
    x.size
  }

  function Total<T>(entries: seq<Entry<T>>): nat {
    SumOf(entries, EntrySize)
  }

  /** The values among what `next()` settled to. */
  function Yielded<T>(settled: seq<Pull<T>>): seq<T> {
    if settled == [] then []
    else
      var last := settled[|settled| - 1];
      Yielded(settled[..|settled| - 1]) + (if last.Value? then [last.value] else [])
  }

  /** Once a consumer is told the iteration is over it is told nothing else. */
  ghost predicate OverOnce<T>(settled: seq<Pull<T>>) {
    forall i, j :: 0 <= i < j < |settled| && !settled[i].Value? ==> settled[j] == settled[i]
  }

  /** `onPause` and `onResume` strictly alternate, starting with `onPause`; `paused` is where that leaves off. */
  predicate Alternating(signals: seq<Signal>, paused: bool) {
    if signals == [] then !paused
    else
      var last := |signals| - 1;
      signals[last] == (if paused then Pause else Resume) && Alternating(signals[..last], !paused)
  }

  /** First in, first out, nothing dropped. */
  ghost predicate Fifo<T>(q: Queue<T>) {
    q.pushed == Yielded(q.settled) + Values(q.entries)
  }

  /** The end is seen only after every buffered value, it is the one that was set, and nothing follows it. */
  ghost predicate EndLast<T>(q: Queue<T>) {
    && OverOnce(q.settled)
    && (forall i :: 0 <= i < |q.settled| && !q.settled[i].Value? ==>
          q.entries == [] && !q.closing.Open? && q.settled[i] == Answer(q.closing))
  }

  /** The size is that of the entries, and a consumer waits only at an empty open queue. */
  ghost predicate Accounted<T>(q: Queue<T>) {
    q.buffered == Total(q.entries) && (q.waiting ==> q.entries == [] && q.closing.Open?)
  }

  /** A paused queue is open and holds more than half its mark; an open one that is not holds at most the mark. */
  ghost predicate Paced<T>(q: Queue<T>) {
    && (q.paused ==> q.closing.Open? && q.mark.Some? && 2 * q.buffered > q.mark.value)
    && (q.closing.Open? && !q.paused ==> !Over(q.mark, q.buffered))
  }

  /** The invariant of every reachable queue. */
  ghost predicate Good<T>(q: Queue<T>) {
    Fifo(q) && EndLast(q) && Accounted(q) && Paced(q) && Alternating(q.signals, q.paused)
  }

  lemma FreshIsGood<T>(mark: Option<nat>)
    ensures Good(Fresh<T>(mark))
  {
  }

  lemma YieldedSnoc<T>(settled: seq<Pull<T>>, p: Pull<T>)
    ensures Yielded(settled + [p]) == Yielded(settled) + (if p.Value? then [p.value] else [])
  {
    assert (settled + [p])[..|settled|] == settled;
  }

  lemma AlternatingSnoc(signals: seq<Signal>, paused: bool)
    requires Alternating(signals, !paused)
    ensures Alternating(signals + [if paused then Pause else Resume], paused)
  {
    assert (signals + [if paused then Pause else Resume])[..|signals|] == signals;
  }

  // ---- Taking ----

  lemma TakeFifo<T>(q: Queue<T>)
    requires Fifo(q) && q.entries != []
    ensures Fifo(Taken(q))
  {
    YieldedSnoc(q.settled, Value(q.entries[0].value));
    assert Values(q.entries) == [q.entries[0].value] + Values(q.entries[1..]);
    var y, v := Yielded(q.settled), Values(q.entries[1..]);
    assert y + ([q.entries[0].value] + v) == y + [q.entries[0].value] + v;
  }

  lemma TakeEndLast<T>(q: Queue<T>)
    requires EndLast(q) && q.entries != []
    ensures EndLast(Taken(q))
  {
  }

  lemma TakePaced<T>(q: Queue<T>)
    requires Accounted(q) && Paced(q) && q.entries != []
    ensures Accounted(Taken(q)) && Paced(Taken(q))
  {
  }

  lemma TakeKeeps<T>(q: Queue<T>)
    requires Good(q) && q.entries != []
    ensures Good(Taken(q))
  {
    TakeFifo(q);
    TakeEndLast(q);
    TakePaced(q);
    if q.paused {
      AlternatingSnoc(q.signals, false);
    }
  }

  // ---- Settling the consumer that waits ----

  /** A push to a queue at which a consumer waits goes straight to it. */
  lemma HandedOver<T>(q: Queue<T>, value: T, size: nat)
    requires q.waiting && q.entries == [] && q.closing.Open? && !q.paused && q.buffered == 0
    ensures Pushed(q, value, size)
         == q.(waiting := false, pushed := q.pushed + [value], settled := q.settled + [Value(value)])
  {
    assert q.entries + [Entry(value, size)] == [Entry(value, size)];
    assert [Entry(value, size)][1..] == q.entries;
  }

  /** A push that no consumer waits for is buffered. */
  lemma Buffered<T>(q: Queue<T>, value: T, size: nat)
    requires !q.waiting && q.closing.Open?
    ensures var r := q.(entries := q.entries + [Entry(value, size)], buffered := q.buffered + size, pushed := q.pushed + [value]);
            Pushed(q, value, size)
            == if !q.paused && Over(r.mark, r.buffered) then r.(paused := true, signals := r.signals + [Pause]) else r
  {
  }

  lemma BufferedFifo<T>(q: Queue<T>, value: T, size: nat)
    requires Fifo(q)
    ensures q.pushed + [value] == Yielded(q.settled) + Values(q.entries + [Entry(value, size)])
  {
    assert Values(q.entries + [Entry(value, size)]) == Values(q.entries) + [value];
    var y, v := Yielded(q.settled), Values(q.entries);
    assert y + (v + [value]) == y + v + [value];
  }

  lemma HandedFifo<T>(q: Queue<T>, value: T)
    requires Fifo(q) && q.entries == []
    ensures q.pushed + [value] == Yielded(q.settled + [Value(value)]) + Values(q.entries)
  {
    YieldedSnoc(q.settled, Value(value));
    assert Values(q.entries) == [];
  }

  lemma AnswersLast<T>(settled: seq<Pull<T>>, p: Pull<T>)
    requires OverOnce(settled) && forall i :: 0 <= i < |settled| && !settled[i].Value? ==> settled[i] == p
    ensures OverOnce(settled + [p])
  {
  }

  lemma PushKeeps<T>(q: Queue<T>, value: T, size: nat)
    requires Good(q)
    ensures Good(Pushed(q, value, size))
  {
    if q.closing.Open? {
      var e := Entry(value, size);
      SumSplit(q.entries, [e], EntrySize);
      assert Total([e]) == size;
      if q.waiting {
        AwaitedPushKeeps(q, value, size);
      } else {
        BufferedPushKeeps(q, value, size);
      }
    }
  }

  lemma AwaitedPushKeeps<T>(q: Queue<T>, value: T, size: nat)
    requires Good(q) && q.waiting
    ensures Good(Pushed(q, value, size))
  {
    HandedOver(q, value, size);
    HandedFifo(q, value);
    assert forall i :: 0 <= i < |q.settled| ==> q.settled[i].Value?;
  }

  lemma BufferedPushKeeps<T>(q: Queue<T>, value: T, size: nat)
    requires Good(q) && !q.waiting && q.closing.Open?
    requires Total(q.entries + [Entry(value, size)]) == Total(q.entries) + size
    ensures Good(Pushed(q, value, size))
  {
    Buffered(q, value, size);
    BufferedFifo(q, value, size);
    if !q.paused {
      AlternatingSnoc(q.signals, true);
    }
    assert forall i :: 0 <= i < |q.settled| ==> q.settled[i].Value?;
  }

  /** What a close does: a waiting consumer is answered, and a paused queue resumes. */
  lemma ClosedIs<T>(q: Queue<T>, closing: Closing)
    requires q.closing.Open? && !closing.Open? && (q.waiting ==> q.entries == [])
    ensures ClosedWith(q, closing)
         == q.(closing := closing, waiting := false, paused := false,
               settled := if q.waiting then q.settled + [Answer(closing)] else q.settled,
               signals := if q.paused then q.signals + [Resume] else q.signals)
  {
  }

  lemma CloseKeeps<T>(q: Queue<T>, closing: Closing)
    requires Good(q) && !closing.Open?
    ensures Good(ClosedWith(q, closing))
  {
    if q.closing.Open? {
      ClosedIs(q, closing);
      YieldedSnoc(q.settled, Answer(closing));
      assert forall i :: 0 <= i < |q.settled| ==> q.settled[i].Value?;
      AnswersLast(q.settled, Answer(closing));
      if q.paused {
        AlternatingSnoc(q.signals, false);
      }
    }
  }

  lemma AnswerKeeps<T>(q: Queue<T>)
    requires Good(q) && q.entries == [] && !q.closing.Open?
    ensures Good(q.(settled := q.settled + [Answer(q.closing)]))
  {
    YieldedSnoc(q.settled, Answer(q.closing));
    AnswersLast(q.settled, Answer(q.closing));
  }

  lemma NextKeeps<T>(q: Queue<T>)
    requires Good(q)
    ensures Good(Pulled(q))
  {
    if q.entries != [] {
      TakeKeeps(q);
    } else if !q.closing.Open? {
      AnswerKeeps(q);
    }
  }

  datatype Op<T> = DoPush(value: T, size: nat) | DoEnd | DoFail(error: Option<FrameCodec.WireError>) | DoNext

  function Apply<T>(q: Queue<T>, op: Op<T>): Queue<T> {
    match op
    case DoPush(value, size) => Pushed(q, value, size)
    case DoEnd => ClosedWith(q, Ended)
    case DoFail(error) => ClosedWith(q, Failed(error))
    case DoNext => Pulled(q)
  }

  function Run<T>(q: Queue<T>, ops: seq<Op<T>>): Queue<T>
    decreases |ops|
  {
    if ops == [] then q else Run(Apply(q, ops[0]), ops[1..])
  }

  lemma ApplyKeeps<T>(q: Queue<T>, op: Op<T>)
    requires Good(q)
    ensures Good(Apply(q, op)) && Apply(q, op).mark == q.mark
  {
    match op
    case DoPush(value, size) => PushKeeps(q, value, size);
    case DoEnd => CloseKeeps(q, Ended);
    case DoFail(error) => CloseKeeps(q, Failed(error));
    case DoNext => NextKeeps(q);
  }

  /** Every run of pushes, ends, failures and pulls keeps the queue good. */
  lemma {:induction false} EveryRunIsGood<T>(q: Queue<T>, ops: seq<Op<T>>)
    requires Good(q)
    ensures Good(Run(q, ops))
    ensures Run(q, ops).mark == q.mark
    decreases |ops|
  {
    if ops != [] {
      ApplyKeeps(q, ops[0]);
      EveryRunIsGood(Apply(q, ops[0]), ops[1..]);
    }
  }

  /** How many pulls a run asks for. */
  function Pulls<T>(ops: seq<Op<T>>): nat
    decreases |ops|
  {
    if ops == [] then 0 else (if ops[0].DoNext? then 1 else 0) + Pulls(ops[1..])
  }

  /**
   * Every `next()` is accounted for: it has settled, it is the one waiting, or a
   * second concurrent `next()` overwrote it.
   */
  lemma {:induction false} EveryPullIsAccountedFor<T>(q: Queue<T>, ops: seq<Op<T>>)
    requires Good(q)
    ensures Asked(Run(q, ops)) == Asked(q) + Pulls(ops)
    decreases |ops|
  {
    if ops != [] {
      ApplyKeeps(q, ops[0]);
      ApplyAsks(q, ops[0]);
      EveryPullIsAccountedFor(Apply(q, ops[0]), ops[1..]);
    }
  }

  /** How many pulls have been made: those settled, the one waiting, and those overwritten. */
  function Asked<T>(q: Queue<T>): nat {
    |q.settled| + (if q.waiting then 1 else 0) + q.overwritten
  }

  lemma ApplyAsks<T>(q: Queue<T>, op: Op<T>)
    requires q.waiting ==> q.entries == [] && q.closing.Open?
    ensures Asked(Apply(q, op)) == Asked(q) + (if op.DoNext? then 1 else 0)
  {
    match op
    case DoPush(value, size) => PushAsks(q, value, size);
    case DoEnd => if q.closing.Open? { ClosedIs(q, Ended); }
    case DoFail(error) => if q.closing.Open? { ClosedIs(q, Failed(error)); }
    case DoNext =>
  }

  lemma PushAsks<T>(q: Queue<T>, value: T, size: nat)
    requires q.waiting ==> q.entries == [] && q.closing.Open?
    ensures Asked(Pushed(q, value, size)) == Asked(q)
  {
    if q.closing.Open? && !q.waiting {
      Buffered(q, value, size);
    }
  }

  // ---- When reading pauses ----

  /**
   * Pausing and resuming, exactly: an open queue pauses when a push takes what it
   * holds above the mark, stays paused while it holds more than half the mark, and
   * resumes when a pull leaves half of it or less, or when it is closed.
   */
  lemma PausesExactly<T>(q: Queue<T>, op: Op<T>)
    requires Good(q)
    ensures var r := Apply(q, op);
            && (op.DoPush? ==> (r.paused <==> q.paused || (q.closing.Open? && q.mark.Some? && r.buffered > q.mark.value)))
            && (op.DoNext? ==> (r.paused <==> q.paused && 2 * r.buffered > q.mark.value))
            && (op.DoEnd? || op.DoFail? ==> !r.paused)
  {
    ApplyKeeps(q, op);
    match op
    case DoPush(value, size) =>
      if q.waiting {
        HandedOver(q, value, size);
      }
    case DoEnd => if q.closing.Open? { ClosedIs(q, Ended); }
    case DoFail(error) => if q.closing.Open? { ClosedIs(q, Failed(error)); }
    case DoNext =>
  }

  // ---- A queue is a list with a reader ----

  /** What is pushed before the first end or failure. */
  function Accepted<T>(ops: seq<Op<T>>): seq<T>
    decreases |ops|
  {
    if ops == [] || ops[0].DoEnd? || ops[0].DoFail? then []
    else (if ops[0].DoPush? then [ops[0].value] else []) + Accepted(ops[1..])
  }

  /** The first end or failure. */
  function FirstClose<T>(ops: seq<Op<T>>): Closing
    decreases |ops|
  {
    if ops == [] then Open
    else if ops[0].DoEnd? then Ended
    else if ops[0].DoFail? then Failed(ops[0].error)
    else FirstClose(ops[1..])
  }

  lemma StepAccepts<T>(q: Queue<T>, op: Op<T>)
    requires Good(q) && q.closing.Open?
    ensures var r := Apply(q, op);
            && r.pushed == (if op.DoPush? then q.pushed + [op.value] else q.pushed)
            && r.closing == (if op.DoEnd? then Ended else if op.DoFail? then Failed(op.error) else Open)
  {
    match op
    case DoEnd => ClosedIs(q, Ended);
    case DoFail(error) => ClosedIs(q, Failed(error));
    case _ =>
  }

  lemma {:induction false} RunAccepts<T>(q: Queue<T>, ops: seq<Op<T>>)
    requires Good(q)
    ensures var r := Run(q, ops);
            && r.pushed == (if q.closing.Open? then q.pushed + Accepted(ops) else q.pushed)
            && r.closing == (if q.closing.Open? then FirstClose(ops) else q.closing)
    decreases |ops|
  {
    if ops == [] {
      assert q.pushed + [] == q.pushed;
    } else {
      var op := ops[0];
      ApplyKeeps(q, op);
      RunAccepts(Apply(q, op), ops[1..]);
      if q.closing.Open? {
        StepAccepts(q, op);
        AcceptsFirst(q.pushed, op, ops[1..]);
        assert [op] + ops[1..] == ops;
      } else {
        ClosedStays(q, op);
      }
    }
  }

  lemma AcceptsFirst<T>(pushed: seq<T>, op: Op<T>, more: seq<Op<T>>)
    ensures pushed + Accepted([op] + more)
         == if op.DoPush? then pushed + [op.value] + Accepted(more)
            else if op.DoNext? then pushed + Accepted(more)
            else pushed
  {
    assert ([op] + more)[1..] == more;
  }

  lemma ClosedStays<T>(q: Queue<T>, op: Op<T>)
    requires !q.closing.Open?
    ensures Apply(q, op).pushed == q.pushed && Apply(q, op).closing == q.closing
  {
  }

  /** What the `i`th of the pulls is answered with: the `i`th value, or how the queue was closed. */
  function Answered<T>(values: seq<T>, closing: Closing, i: nat): Pull<T>
    requires i < |values| || !closing.Open?
  {
    if i < |values| then Value(values[i]) else if closing.Ended? then End else Error(closing.error)
  }

  /** A good queue has answered its pulls in order. */
  lemma {:induction false} YieldedAt<T>(settled: seq<Pull<T>>, i: nat)
    requires i < |settled| && forall k :: 0 <= k <= i ==> settled[k].Value?
    ensures i < |Yielded(settled)| && Yielded(settled)[i] == settled[i].value
    ensures |Yielded(settled)| <= |settled|
    decreases |settled|
  {
    var last := |settled| - 1;
    if i < last {
      YieldedAt(settled[..last], i);
    } else {
      AllYielded(settled);
    }
  }

  lemma {:induction false} AllYielded<T>(settled: seq<Pull<T>>)
    requires forall k :: 0 <= k < |settled| ==> settled[k].Value?
    ensures |Yielded(settled)| == |settled| && forall k :: 0 <= k < |settled| ==> Yielded(settled)[k] == settled[k].value
    decreases |settled|
  {
    if settled != [] {
      AllYielded(settled[..|settled| - 1]);
    }
  }

  lemma {:induction false} YieldedUpTo<T>(settled: seq<Pull<T>>, n: nat)
    requires n <= |settled| && forall k :: 0 <= k < |settled| ==> (settled[k].Value? <==> k < n)
    ensures |Yielded(settled)| == n
    decreases |settled|
  {
    if settled == [] {
    } else if n == |settled| {
      AllYielded(settled);
    } else {
      YieldedUpTo(settled[..|settled| - 1], n);
    }
  }

  /** Where the values stop and the end begins. */
  lemma {:induction false} FirstEnd<T>(settled: seq<Pull<T>>) returns (n: nat)
    requires OverOnce(settled)
    ensures n <= |settled| && forall k :: 0 <= k < |settled| ==> (settled[k].Value? <==> k < n)
    decreases |settled|
  {
    n := |settled|;
    if settled != [] {
      var last := |settled| - 1;
      var m := FirstEnd(settled[..last]);
      if m < last || !settled[last].Value? {
        n := m;
        assert m < last ==> settled[last] == settled[m];
      }
    }
  }

  lemma GoodAnswers<T>(q: Queue<T>, i: nat)
    requires Good(q) && i < |q.settled|
    ensures i < |q.pushed| || !q.closing.Open?
    ensures q.settled[i] == Answered(q.pushed, q.closing, i)
  {
    var n := FirstEnd(q.settled);
    YieldedUpTo(q.settled, n);
    if i < n {
      YieldedAt(q.settled, i);
    } else {
      assert Values(q.entries) == [];
    }
  }

  /**
   * Over every run from a new queue: what was pushed before it was closed is answered
   * to the pulls in order, the first to the first, and how it was closed to all the
   * others; a pull hangs only while there is nothing to answer it with.
   */
  lemma AListWithAReader<T>(mark: Option<nat>, ops: seq<Op<T>>)
    ensures var q := Run(Fresh<T>(mark), ops);
            && q.pushed == Accepted(ops) && q.closing == FirstClose(ops)
            && |q.settled| + q.overwritten + (if q.waiting then 1 else 0) == Pulls(ops)
            && (q.waiting ==> q.closing.Open? && |q.settled| == |q.pushed|)
            && forall i :: 0 <= i < |q.settled| ==>
                 (i < |q.pushed| || !q.closing.Open?) && q.settled[i] == Answered(q.pushed, q.closing, i)
  {
    var q0, q := Fresh<T>(mark), Run(Fresh<T>(mark), ops);
    FreshIsGood<T>(mark);
    EveryRunIsGood(q0, ops);
    RunAccepts(q0, ops);
    EveryPullIsAccountedFor(q0, ops);
    assert [] + Accepted(ops) == Accepted(ops);
    forall i | 0 <= i < |q.settled|
      ensures (i < |q.pushed| || !q.closing.Open?) && q.settled[i] == Answered(q.pushed, q.closing, i)
    {
      GoodAnswers(q, i);
    }
    if q.waiting {
      assert Values(q.entries) == [];
      forall i | 0 <= i < |q.settled| ensures q.settled[i].Value? {
        assert !q.closing.Open? || q.settled[i].Value?;
      }
      AllYielded(q.settled);
    }
  }

  /** Only a second pull beside one that waits is lost. */
  lemma OverwrittenExactly<T>(q: Queue<T>, op: Op<T>)
    requires Good(q)
    ensures Apply(q, op).overwritten == q.overwritten + (if op.DoNext? && q.waiting then 1 else 0)
  {
    match op
    case DoPush(value, size) => if q.waiting { HandedOver(q, value, size); }
    case DoEnd => if q.closing.Open? { ClosedIs(q, Ended); }
    case DoFail(error) => if q.closing.Open? { ClosedIs(q, Failed(error)); }
    case DoNext =>
  }

  /**
   * The queue object. Its callbacks go to the connection's read gate; `settled`
   * and the other ghost fields record what consumers and the gate observed.
   */
  class PushQueue<T> {
    const mark: Option<nat>
    const gate: ReadGate
    var entries: seq<Entry<T>>
    var buffered: int
    var paused: bool
    var pending: bool
    var closed: Closing
    ghost var pushed: seq<T>
    ghost var settled: seq<Pull<T>>
    ghost var signals: seq<Signal>
    ghost var overwritten: nat

    ghost function State(): Queue<T>
      reads this
    {
      Queue(mark, entries, buffered, paused, pending, closed, pushed, settled, signals, overwritten)
    }

    constructor (mark: Option<nat>, gate: ReadGate)
      ensures State() == Fresh(mark) && this.gate == gate
    {
      this.mark, this.gate := mark, gate;
      entries, buffered, paused, pending, closed := [], 0, false, false, Open;
      pushed, settled, signals, overwritten := [], [], [], 0;
    }

    method Take() returns (value: T)
      requires entries != []
      modifies this, gate
      ensures State() == Taken(old(State())) && value == old(entries)[0].value
      ensures gate.State() == Follow(old(gate.State()), old(paused), paused)
    {
      var entry := entries[0];
      entries := entries[1..];
      buffered := buffered - entry.size;
      if paused && Low(mark, buffered) {
        paused := false;
        signals := signals + [Resume];
        gate.ResumeReads();
      }
      value := entry.value;
      settled := settled + [Value(value)];
    }

    method Release()
      modifies this, gate
      ensures State() == Released(old(State()))
      ensures gate.State() == Follow(old(gate.State()), old(paused), paused)
    {
      if paused {
        paused := false;
        signals := signals + [Resume];
        gate.ResumeReads();
      }
    }

    method SettleWaiter()
      modifies this, gate
      ensures State() == Settled(old(State()))
      ensures gate.State() == Follow(old(gate.State()), old(paused), paused)
    {
      if !pending {
        return;
      }
      if entries != [] {
        pending := false;
        var _ := Take();
        return;
      }
      if !closed.Open? {
        pending := false;
        settled := settled + [Answer(closed)];
      }
    }

    method Push(value: T, size: nat)
      modifies this, gate
      ensures State() == Pushed(old(State()), value, size)
      ensures gate.State() == Follow(old(gate.State()), old(paused), paused)
    {
      if !closed.Open? {
        return;
      }
      entries := entries + [Entry(value, size)];
      buffered := buffered + size;
      pushed := pushed + [value];
      SettleWaiter();
      if !paused && Over(mark, buffered) {
        paused := true;
        signals := signals + [Pause];
        gate.PauseReads();
      }
    }

    method Finish(closing: Closing)
      requires !closing.Open?
      modifies this, gate
      ensures State() == ClosedWith(old(State()), closing)
      ensures gate.State() == Follow(old(gate.State()), old(paused), paused)
    {
      if !closed.Open? {
        return;
      }
      closed := closing;
      SettleWaiter();
      Release();
    }

    /** The result when it is already there; otherwise the call stays pending. */
    method Next() returns (result: Option<Pull<T>>)
      modifies this, gate
      ensures State() == Pulled(old(State()))
      ensures gate.State() == Follow(old(gate.State()), old(paused), paused)
      ensures result.Some? <==> |settled| == |old(settled)| + 1
      ensures result.Some? ==> settled == old(settled) + [result.value]
    {
      if entries != [] {
        var value := Take();
        return Some(Value(value));
      }
      if !closed.Open? {
        settled := settled + [Answer(closed)];
        return Some(Answer(closed));
      }
      if pending {
        overwritten := overwritten + 1;
      }
      pending := true;
      result := None;
    }
  }
}
