/**
 * Two in-memory duplex ends. Delivery is deferred one microtask; a send above
 * the high-water mark returns a drain promise; a paused end keeps its frames.
 *
 * `Pipe` is the pair of ends as a value, with the microtasks it has queued. The
 * body of `flush` is split at its calls to the message handlers, because a
 * handler may pause, resume, close or send before the loop goes on.
 */
module MemoryDuplexes {
  import opened Basics

  datatype Letter<T> = Letter(text: T, size: nat)

  datatype Side = A | B

  datatype Task = FlushTask(side: Side) | CloseTask

  /**
   * What one end has not received yet. `drains` are the pending drain promises;
   * `sent`, `received`, `issued` and `settled` are observations, and `late` says
   * that the end was resumed after the close.
   */
  datatype Inbox<T> = Inbox(
    queue: seq<Letter<T>>,
    bytes: int,
    paused: bool,
    flushScheduled: bool,
    drains: seq<nat>,
    sent: seq<Letter<T>>,
    received: seq<Letter<T>>,
    issued: nat,
    settled: seq<nat>,
    late: bool)

  datatype Pipe<T> = Pipe(
    mark: Option<nat>,
    toA: Inbox<T>,
    toB: Inbox<T>,
    closed: bool,
    notified: bool,
    flushing: Option<Side>,
    tasks: seq<Task>)

  function EmptyInbox<T>(): Inbox<T> {
    Inbox([], 0, false, false, [], [], [], 0, [], false)
  }

  function Fresh<T>(mark: Option<nat>): Pipe<T> {
    Pipe(mark, EmptyInbox(), EmptyInbox(), false, false, None, [])
  }

  function At<T>(p: Pipe<T>, side: Side): Inbox<T> {
    if side.A? then p.toA else p.toB
  }

  function With<T>(p: Pipe<T>, side: Side, inbox: Inbox<T>): Pipe<T> {
    if side.A? then p.(toA := inbox) else p.(toB := inbox)
  }

  // ---- The operations ----

  function SettleDrains<T>(inbox: Inbox<T>): Inbox<T> {
    inbox.(drains := [], settled := inbox.settled + inbox.drains)
  }

  function ScheduleFlush<T>(p: Pipe<T>, side: Side): Pipe<T> {
    var inbox := At(p, side);
    if inbox.flushScheduled || inbox.paused then p
    else With(p, side, inbox.(flushScheduled := true)).(tasks := p.tasks + [FlushTask(side)])
  }

  predicate OverMark(mark: Option<nat>, bytes: int) {
    mark.Some? && bytes > mark.value
  }

  predicate Above<T>(p: Pipe<T>, bytes: int) {
    OverMark(p.mark, bytes)
  }

  /** Whether a text of this size would be answered with a drain promise. */
  predicate AboveAfter<T>(p: Pipe<T>, side: Side, size: nat) {
    Above(p, At(p, side).bytes + size)
  }

  function Enqueued<T>(p: Pipe<T>, side: Side, letter: Letter<T>): Pipe<T> {
    var inbox := At(p, side);
    ScheduleFlush(
      With(p, side, inbox.(queue := inbox.queue + [letter], bytes := inbox.bytes + letter.size, sent := inbox.sent + [letter])),
      side)
  }

  /** The sender is given a drain promise. */
  function Promised<T>(p: Pipe<T>, side: Side): Pipe<T> {
    var inbox := At(p, side);
    With(p, side, inbox.(drains := inbox.drains + [inbox.issued], issued := inbox.issued + 1))
  }

  function SendTo<T>(p: Pipe<T>, side: Side, letter: Letter<T>): Pipe<T> {
    if p.closed then p
    else if AboveAfter(p, side, letter.size) then Promised(Enqueued(p, side, letter), side)
    else Enqueued(p, side, letter)
  }

  function PauseEnd<T>(p: Pipe<T>, side: Side): Pipe<T> {
    With(p, side, At(p, side).(paused := true))
  }

  function ResumeEnd<T>(p: Pipe<T>, side: Side): Pipe<T> {
    var p1 := With(p, side, At(p, side).(paused := false));
    if p.closed then With(p1, side, At(p1, side).(late := true)) else ScheduleFlush(p1, side)
  }

  function CloseBoth<T>(p: Pipe<T>): Pipe<T> {
    if p.closed then p else p.(closed := true, tasks := p.tasks + [CloseTask])
  }

  /** The microtask of a scheduled flush starts. */
  function BeginFlush<T>(p: Pipe<T>, side: Side): Pipe<T>
    requires p.tasks != []
  {
    With(p, side, At(p, side).(flushScheduled := false)).(flushing := Some(side), tasks := p.tasks[1..])
  }

  predicate CanDeliver<T>(p: Pipe<T>, side: Side) {
    !At(p, side).paused && At(p, side).queue != []
  }

  /** One turn of the flush loop up to its handlers; they get the letter that leaves the queue. */
  function DeliverOne<T>(p: Pipe<T>, side: Side): Pipe<T>
    requires CanDeliver(p, side)
  {
    var inbox := At(p, side);
    With(p, side, inbox.(queue := inbox.queue[1..],
                         bytes := inbox.bytes - inbox.queue[0].size,
                         received := inbox.received + [inbox.queue[0]]))
  }

  function EndFlush<T>(p: Pipe<T>, side: Side): Pipe<T> {
    var inbox := At(p, side);
    (if Above(p, inbox.bytes) then p else With(p, side, SettleDrains(inbox))).(flushing := None)
  }

  /** The microtask of the close: settle everything, then tell both ends. */
  function RunClose<T>(p: Pipe<T>): Pipe<T>
    requires p.tasks != []
  {
    p.(toA := SettleDrains(p.toA), toB := SettleDrains(p.toB), notified := true, tasks := p.tasks[1..])
  }

  // ---- What every run keeps ----

  function LetterSize<T>(x: Letter<T>): nat {
    x.size
  }

  function Total<T>(letters: seq<Letter<T>>): nat {
    SumOf(letters, LetterSize)
  }

  function Count(tasks: seq<Task>, task: Task): nat {
    if tasks == [] then 0 else (if tasks[0] == task then 1 else 0) + Count(tasks[1..], task)
  }

  /** First in, first out, and the size is that of the queue. */
  ghost predicate Fifo<T>(inbox: Inbox<T>) {
    inbox.sent == inbox.received + inbox.queue && inbox.bytes == Total(inbox.queue)
  }

  /** No lost wake-up: an idle end with queued texts is paused, or its flush is scheduled (or it was resumed too late). */
  predicate Awake<T>(inbox: Inbox<T>, idle: bool, closed: bool) {
    && (idle && inbox.queue != [] ==> inbox.paused || inbox.flushScheduled || (closed && inbox.late))
    && (inbox.late ==> closed)
  }

  /** Drain promises are settled in order, pending at an idle end only above the mark, and none once the close is told. */
  ghost predicate Promises<T>(inbox: Inbox<T>, mark: Option<nat>, idle: bool, notified: bool) {
    && |inbox.settled| + |inbox.drains| == inbox.issued
    && (forall i :: 0 <= i < |inbox.settled| ==> inbox.settled[i] == i)
    && (forall i :: 0 <= i < |inbox.drains| ==> inbox.drains[i] == |inbox.settled| + i)
    && (idle && inbox.drains != [] ==> OverMark(mark, inbox.bytes))
    && (notified ==> inbox.drains == [])
  }

  predicate Idle<T>(p: Pipe<T>, side: Side) {
    p.flushing != Some(side)
  }

  ghost predicate GoodInbox<T>(p: Pipe<T>, side: Side) {
    && Fifo(At(p, side))
    && Awake(At(p, side), Idle(p, side), p.closed)
    && Promises(At(p, side), p.mark, Idle(p, side), p.notified)
    // a scheduled flush is one queued microtask
    && Count(p.tasks, FlushTask(side)) == (if At(p, side).flushScheduled then 1 else 0)
  }

  /** Nothing is scheduled behind the close, which is told once. */
  ghost predicate CloseOk<T>(p: Pipe<T>) {
    && (p.notified ==> p.closed)
    && (Count(p.tasks, CloseTask) == if p.closed && !p.notified then 1 else 0)
    && (p.closed && !p.notified ==> p.tasks != [] && p.tasks[|p.tasks| - 1] == CloseTask)
    && (p.notified ==> p.tasks == [] && p.flushing.None?)
  }

  ghost predicate Good<T>(p: Pipe<T>) {
    GoodInbox(p, A) && GoodInbox(p, B) && CloseOk(p)
  }

  datatype Event<T> =
    | Sends(side: Side, letter: Letter<T>)
    | PausesEnd(side: Side)
    | ResumesEnd(side: Side)
    | ClosesBoth
    | RunsTask
    | Delivers
    | EndsFlush

  /** Microtasks run in the order queued, and none runs inside another. */
  function Step<T>(p: Pipe<T>, e: Event<T>): Pipe<T> {
    match e
    case Sends(side, letter) => SendTo(p, side, letter)
    case PausesEnd(side) => PauseEnd(p, side)
    case ResumesEnd(side) => ResumeEnd(p, side)
    case ClosesBoth => CloseBoth(p)
    case RunsTask =>
      if p.flushing.Some? || p.tasks == [] then p
      else if p.tasks[0].CloseTask? then RunClose(p)
      else BeginFlush(p, p.tasks[0].side)
    case Delivers =>
      if p.flushing.Some? && CanDeliver(p, p.flushing.value) then DeliverOne(p, p.flushing.value) else p
    case EndsFlush =>
      if p.flushing.Some? && !CanDeliver(p, p.flushing.value) then EndFlush(p, p.flushing.value) else p
  }

  lemma {:induction false} CountSnoc(tasks: seq<Task>, last: Task, task: Task)
    ensures Count(tasks + [last], task) == Count(tasks, task) + (if last == task then 1 else 0)
  {
    if tasks == [] {
      assert tasks + [last] == [last];
    } else {
      assert (tasks + [last])[1..] == tasks[1..] + [last];
      CountSnoc(tasks[1..], last, task);
    }
  }

  function Other(side: Side): Side {
    if side.A? then B else A
  }

  /** An end that an operation on the other end leaves alone stays good. */
  lemma OtherEndKeeps<T>(p: Pipe<T>, r: Pipe<T>, side: Side)
    requires GoodInbox(p, side) && At(r, side) == At(p, side)
    requires r.mark == p.mark && r.closed == p.closed && r.notified == p.notified && (Idle(r, side) ==> Idle(p, side))
    requires Count(r.tasks, FlushTask(side)) == Count(p.tasks, FlushTask(side))
    ensures GoodInbox(r, side)
  {
  }

  /** The receiving end once a letter has been sent to it. */
  function Sent<T>(inbox: Inbox<T>, letter: Letter<T>, mark: Option<nat>): Inbox<T> {
    var above := OverMark(mark, inbox.bytes + letter.size);
    inbox.(queue := inbox.queue + [letter],
           bytes := inbox.bytes + letter.size,
           sent := inbox.sent + [letter],
           flushScheduled := inbox.flushScheduled || !inbox.paused,
           drains := if above then inbox.drains + [inbox.issued] else inbox.drains,
           issued := if above then inbox.issued + 1 else inbox.issued)
  }

  lemma EnqueuedIs<T>(p: Pipe<T>, side: Side, letter: Letter<T>)
    ensures var inbox := At(p, side);
            var r := Enqueued(p, side, letter);
            && At(r, side) == inbox.(queue := inbox.queue + [letter],
                                     bytes := inbox.bytes + letter.size,
                                     sent := inbox.sent + [letter],
                                     flushScheduled := inbox.flushScheduled || !inbox.paused)
            && At(r, Other(side)) == At(p, Other(side))
            && r.(toA := p.toA, toB := p.toB, tasks := p.tasks) == p
            && r.tasks == if inbox.flushScheduled || inbox.paused then p.tasks else p.tasks + [FlushTask(side)]
  {
  }

  lemma SendToIs<T>(p: Pipe<T>, side: Side, letter: Letter<T>)
    requires !p.closed
    ensures var inbox := At(p, side);
            var r := SendTo(p, side, letter);
            && At(r, side) == Sent(inbox, letter, p.mark)
            && At(r, Other(side)) == At(p, Other(side))
            && r.(toA := p.toA, toB := p.toB, tasks := p.tasks) == p
            && r.tasks == if inbox.flushScheduled || inbox.paused then p.tasks else p.tasks + [FlushTask(side)]
  {
    EnqueuedIs(p, side, letter);
  }

  lemma SentFifo<T>(inbox: Inbox<T>, letter: Letter<T>, mark: Option<nat>)
    requires Fifo(inbox)
    ensures Fifo(Sent(inbox, letter, mark))
  {
    SumSplit(inbox.queue, [letter], LetterSize);
    assert Total([letter]) == letter.size;
    assert inbox.received + (inbox.queue + [letter]) == inbox.received + inbox.queue + [letter];
  }

  lemma SentPromises<T>(inbox: Inbox<T>, letter: Letter<T>, mark: Option<nat>, idle: bool)
    requires Promises(inbox, mark, idle, false)
    ensures Promises(Sent(inbox, letter, mark), mark, idle, false)
  {
  }

  lemma SendKeeps<T>(p: Pipe<T>, side: Side, letter: Letter<T>)
    requires Good(p)
    ensures Good(SendTo(p, side, letter))
  {
    if !p.closed {
      SendToIs(p, side, letter);
      SentFifo(At(p, side), letter, p.mark);
      SentPromises(At(p, side), letter, p.mark, Idle(p, side));
      ScheduleCounts(p.tasks, side);
      OtherEndKeeps(p, SendTo(p, side, letter), Other(side));
    }
  }

  /** One more flush task. */
  lemma ScheduleCounts(tasks: seq<Task>, side: Side)
    ensures Count(tasks + [FlushTask(side)], FlushTask(side)) == Count(tasks, FlushTask(side)) + 1
    ensures Count(tasks + [FlushTask(side)], FlushTask(Other(side))) == Count(tasks, FlushTask(Other(side)))
    ensures Count(tasks + [FlushTask(side)], CloseTask) == Count(tasks, CloseTask)
  {
    CountSnoc(tasks, FlushTask(side), FlushTask(side));
    CountSnoc(tasks, FlushTask(side), FlushTask(Other(side)));
    CountSnoc(tasks, FlushTask(side), CloseTask);
  }

  lemma PauseKeeps<T>(p: Pipe<T>, side: Side)
    requires Good(p)
    ensures Good(PauseEnd(p, side))
  {
    var r := PauseEnd(p, side);
    assert Fifo(At(r, side)) && Promises(At(r, side), p.mark, Idle(p, side), p.notified);
    OtherEndKeeps(p, r, Other(side));
  }

  lemma ResumeIs<T>(p: Pipe<T>, side: Side)
    ensures var inbox := At(p, side);
            var r := ResumeEnd(p, side);
            && At(r, side) == inbox.(paused := false,
                                     late := inbox.late || p.closed,
                                     flushScheduled := inbox.flushScheduled || !p.closed)
            && At(r, Other(side)) == At(p, Other(side))
            && r.(toA := p.toA, toB := p.toB, tasks := p.tasks) == p
            && r.tasks == if inbox.flushScheduled || p.closed then p.tasks else p.tasks + [FlushTask(side)]
  {
  }

  lemma ResumeKeeps<T>(p: Pipe<T>, side: Side)
    requires Good(p)
    ensures Good(ResumeEnd(p, side))
  {
    var r := ResumeEnd(p, side);
    ResumeIs(p, side);
    ScheduleCounts(p.tasks, side);
    assert Fifo(At(r, side)) && Promises(At(r, side), p.mark, Idle(p, side), p.notified);
    OtherEndKeeps(p, r, Other(side));
  }

  lemma CloseKeeps<T>(p: Pipe<T>)
    requires Good(p)
    ensures Good(CloseBoth(p))
  {
    CountSnoc(p.tasks, CloseTask, FlushTask(A));
    CountSnoc(p.tasks, CloseTask, FlushTask(B));
    CountSnoc(p.tasks, CloseTask, CloseTask);
  }

  lemma BeginKeeps<T>(p: Pipe<T>)
    requires Good(p) && p.flushing.None? && p.tasks != [] && p.tasks[0].FlushTask?
    ensures Good(BeginFlush(p, p.tasks[0].side))
  {
    var side := p.tasks[0].side;
    var r := BeginFlush(p, side);
    assert Fifo(At(r, side)) && Promises(At(r, side), p.mark, false, p.notified);
    OtherEndKeeps(p, r, Other(side));
    assert GoodInbox(r, side);
  }

  lemma DeliverFifo<T>(inbox: Inbox<T>)
    requires Fifo(inbox) && inbox.queue != []
    ensures Fifo(inbox.(queue := inbox.queue[1..], bytes := inbox.bytes - inbox.queue[0].size,
                        received := inbox.received + [inbox.queue[0]]))
  {
    assert inbox.received + [inbox.queue[0]] + inbox.queue[1..] == inbox.received + inbox.queue;
  }

  lemma DeliverKeeps<T>(p: Pipe<T>)
    requires Good(p) && p.flushing.Some? && CanDeliver(p, p.flushing.value)
    ensures Good(DeliverOne(p, p.flushing.value))
  {
    var side := p.flushing.value;
    var r := DeliverOne(p, side);
    DeliverFifo(At(p, side));
    assert Promises(At(r, side), p.mark, false, p.notified);
    OtherEndKeeps(p, r, Other(side));
  }

  lemma SettlePromises<T>(inbox: Inbox<T>, mark: Option<nat>, idle: bool, notified: bool, after: bool, told: bool)
    requires Promises(inbox, mark, idle, notified)
    ensures Promises(SettleDrains(inbox), mark, after, told)
  {
  }

  /** An end that its flush has left idle: there is nothing to deliver or it is paused. */
  lemma FlushedOk<T>(inbox: Inbox<T>, mark: Option<nat>, closed: bool, notified: bool)
    requires Fifo(inbox) && Awake(inbox, false, closed) && Promises(inbox, mark, false, notified)
    requires inbox.paused || inbox.queue == []
    ensures var r := if OverMark(mark, inbox.bytes) then inbox else SettleDrains(inbox);
            Fifo(r) && Awake(r, true, closed) && Promises(r, mark, true, notified) && r.flushScheduled == inbox.flushScheduled
  {
    SettlePromises(inbox, mark, false, notified, true, notified);
  }

  lemma EndKeeps<T>(p: Pipe<T>)
    requires Good(p) && p.flushing.Some? && !CanDeliver(p, p.flushing.value)
    ensures Good(EndFlush(p, p.flushing.value))
  {
    var side := p.flushing.value;
    var r := EndFlush(p, side);
    OtherEndKeeps(p, r, Other(side));
    FlushedOk(At(p, side), p.mark, p.closed, p.notified);
    assert At(r, side) == if OverMark(p.mark, At(p, side).bytes) then At(p, side) else SettleDrains(At(p, side));
  }

  lemma RunCloseKeeps<T>(p: Pipe<T>)
    requires Good(p) && p.flushing.None? && p.tasks != [] && p.tasks[0].CloseTask?
    ensures Good(RunClose(p))
  {
    LastOfItsKind(p.tasks);
    SettlePromises(p.toA, p.mark, true, false, true, true);
    SettlePromises(p.toB, p.mark, true, false, true, true);
  }

  /** A close microtask at the head of the queue is its last one. */
  lemma LastOfItsKind(tasks: seq<Task>)
    requires tasks != [] && tasks[0] == CloseTask && tasks[|tasks| - 1] == CloseTask && Count(tasks, CloseTask) == 1
    ensures tasks == [CloseTask]
  {
    if |tasks| > 1 {
      var middle := tasks[1..|tasks| - 1];
      assert tasks[1..] == middle + [CloseTask];
      CountSnoc(middle, CloseTask, CloseTask);
    }
  }

  lemma StepKeeps<T>(p: Pipe<T>, e: Event<T>)
    requires Good(p)
    ensures Good(Step(p, e))
  {
    match e
    case Sends(side, letter) => SendKeeps(p, side, letter);
    case PausesEnd(side) => PauseKeeps(p, side);
    case ResumesEnd(side) => ResumeKeeps(p, side);
    case ClosesBoth => CloseKeeps(p);
    case RunsTask =>
      if p.flushing.None? && p.tasks != [] {
        if p.tasks[0].CloseTask? { RunCloseKeeps(p); } else { BeginKeeps(p); }
      }
    case Delivers => if p.flushing.Some? && CanDeliver(p, p.flushing.value) { DeliverKeeps(p); }
    case EndsFlush => if p.flushing.Some? && !CanDeliver(p, p.flushing.value) { EndKeeps(p); }
  }

  function Run<T>(p: Pipe<T>, events: seq<Event<T>>): Pipe<T>
    decreases |events|
  {
    if events == [] then p else Run(Step(p, events[0]), events[1..])
  }

  /** Delivery is in order and no wake-up is lost, in every run. */
  lemma {:induction false} EveryRunIsGood<T>(p: Pipe<T>, events: seq<Event<T>>)
    requires Good(p)
    ensures Good(Run(p, events))
    decreases |events|
  {
    if events != [] {
      StepKeeps(p, events[0]);
      EveryRunIsGood(Step(p, events[0]), events[1..]);
    }
  }

  /**
   * First in, first out with the close: when the close is about to be told, an
   * end that was never paused has received every text sent to it, and once it
   * has been told no drain promise is pending.
   */
  lemma CloseComesLast<T>(p: Pipe<T>, side: Side)
    requires Good(p) && p.flushing.None? && p.tasks != [] && p.tasks[0].CloseTask?
    requires !At(p, side).paused && !At(p, side).late
    ensures At(p, side).received == At(p, side).sent
    ensures Step(p, RunsTask).notified && At(Step(p, RunsTask), side).drains == []
    ensures |At(Step(p, RunsTask), side).settled| == At(p, side).issued
  {
    LastOfItsKind(p.tasks);
    assert Count([CloseTask], FlushTask(side)) == 0;
    assert At(p, side).queue == [];
  }

  /** What an end holds is bounded by its mark and one longest text per pending drain promise. */
  ghost predicate Bounded<T>(p: Pipe<T>, longest: nat) {
    p.mark.Some? ==>
      && At(p, A).bytes <= p.mark.value + |At(p, A).drains| * longest
      && At(p, B).bytes <= p.mark.value + |At(p, B).drains| * longest
  }

  predicate Short<T>(e: Event<T>, longest: nat) {
    e.Sends? ==> e.letter.size <= longest
  }

  predicate TellsClose<T>(p: Pipe<T>, e: Event<T>) {
    e.RunsTask? && p.flushing.None? && p.tasks != [] && p.tasks[0].CloseTask?
  }

  /** One end's share of the bound. */
  ghost predicate Within(bytes: int, drains: nat, mark: nat, longest: nat) {
    bytes <= mark + drains * longest
  }

  lemma SentWithin<T>(inbox: Inbox<T>, letter: Letter<T>, mark: nat, longest: nat)
    requires Within(inbox.bytes, |inbox.drains|, mark, longest) && letter.size <= longest
    ensures var r := Sent(inbox, letter, Some(mark)); Within(r.bytes, |r.drains|, mark, longest)
  {
    var n := |inbox.drains|;
    assert (n + 1) * longest == n * longest + longest;
  }

  lemma SendStaysBounded<T>(p: Pipe<T>, side: Side, letter: Letter<T>, longest: nat)
    requires Bounded(p, longest) && letter.size <= longest
    ensures Bounded(SendTo(p, side, letter), longest)
  {
    if !p.closed && p.mark.Some? {
      SendToIs(p, side, letter);
      assert Within(At(p, side).bytes, |At(p, side).drains|, p.mark.value, longest);
      SentWithin(At(p, side), letter, p.mark.value, longest);
    }
  }

  lemma CloseStaysBounded<T>(p: Pipe<T>, longest: nat)
    requires Good(p) && Bounded(p, longest) && TellsClose(p, RunsTask)
    ensures Bounded(Step(p, RunsTask), longest) <==> !Above(p, At(p, A).bytes) && !Above(p, At(p, B).bytes)
  {
    var r := Step(p, RunsTask);
    assert r == RunClose(p);
    assert At(r, A).drains == [] && At(r, B).drains == [];
    assert |At(r, A).drains| * longest == 0;
  }

  /** The end of a flush settles promises only at or below the mark. */
  lemma EndStaysBounded<T>(p: Pipe<T>, side: Side, longest: nat)
    requires Bounded(p, longest)
    ensures Bounded(EndFlush(p, side), longest)
  {
    assert 0 * longest == 0;
  }

  lemma DeliverStaysBounded<T>(p: Pipe<T>, side: Side, longest: nat)
    requires Bounded(p, longest) && CanDeliver(p, side)
    ensures Bounded(DeliverOne(p, side), longest)
  {
    var inbox, r := At(p, side), DeliverOne(p, side);
    assert At(r, side).drains == inbox.drains && At(r, side).bytes <= inbox.bytes;
    assert At(r, Other(side)) == At(p, Other(side));
  }

  /** Pausing, resuming, closing and starting a flush change neither what is held nor the promises. */
  lemma OthersStayBounded<T>(p: Pipe<T>, side: Side, longest: nat)
    requires Bounded(p, longest)
    ensures Bounded(PauseEnd(p, side), longest) && Bounded(ResumeEnd(p, side), longest)
    ensures Bounded(CloseBoth(p), longest)
    ensures p.tasks != [] ==> Bounded(BeginFlush(p, side), longest)
  {
  }

  /**
   * An event keeps the bound exactly when it does not tell a close to an end
   * that is still above its mark: the close settles that end's promises, but a
   * paused end keeps what it holds.
   */
  lemma StepStaysBounded<T>(p: Pipe<T>, e: Event<T>, longest: nat)
    requires Good(p) && Bounded(p, longest) && Short(e, longest)
    ensures Bounded(Step(p, e), longest)
       <==> !(TellsClose(p, e) && (Above(p, At(p, A).bytes) || Above(p, At(p, B).bytes)))
  {
    match e
    case Sends(side, letter) => SendStaysBounded(p, side, letter, longest);
    case PausesEnd(side) => OthersStayBounded(p, side, longest);
    case ResumesEnd(side) => OthersStayBounded(p, side, longest);
    case ClosesBoth => OthersStayBounded(p, A, longest);
    case RunsTask =>
      if TellsClose(p, e) {
        CloseStaysBounded(p, longest);
      } else if p.flushing.None? && p.tasks != [] {
        OthersStayBounded(p, p.tasks[0].side, longest);
      }
    case Delivers =>
      if p.flushing.Some? && CanDeliver(p, p.flushing.value) {
        DeliverStaysBounded(p, p.flushing.value, longest);
      }
    case EndsFlush =>
      if p.flushing.Some? && !CanDeliver(p, p.flushing.value) {
        EndStaysBounded(p, p.flushing.value, longest);
      }
  }

  /** A paused end that was sent one text above a zero mark, and then closed. */
  function Held(letter: Letter<bool>): Pipe<bool> {
    var inbox := Inbox([letter], letter.size, true, false, [0], [letter], [], 1, [], false);
    Pipe(Some(0), inbox, EmptyInbox(), true, false, None, [CloseTask])
  }

  lemma HeldIsReached(letter: Letter<bool>)
    requires letter.size > 0
    ensures Held(letter) == Step(Step(Step(Fresh<bool>(Some(0)), PausesEnd(A)), Sends(A, letter)), ClosesBoth)
  {
    var p0 := Fresh<bool>(Some(0));
    var p1 := PauseEnd(p0, A);
    var p2 := SendTo(p1, A, letter);
    assert p1 == p0.(toA := p0.toA.(paused := true));
    assert p2.toA == Held(letter).toA && p2.tasks == [];
  }

  lemma HeldIsGood(letter: Letter<bool>)
    requires letter.size > 0
    ensures Good(Held(letter)) && Bounded(Held(letter), letter.size)
  {
    assert Count([CloseTask], FlushTask(A)) == Count([CloseTask], FlushTask(B)) == 0;
    assert Count([CloseTask], CloseTask) == 1;
    assert [letter][1..] == [] && SumOf([letter][1..], LetterSize<bool>) == 0;
    assert Total([letter]) == LetterSize(letter);
  }

  /** An end still above its mark when its close is told. */
  lemma CloseAboveTheMark(letter: Letter<bool>)
    requires letter.size > 0
    ensures Held(letter) == Step(Step(Step(Fresh<bool>(Some(0)), PausesEnd(A)), Sends(A, letter)), ClosesBoth)
    ensures Good(Held(letter)) && Bounded(Held(letter), letter.size)
    ensures Step(Held(letter), RunsTask).notified && !Bounded(Step(Held(letter), RunsTask), letter.size)
  {
    HeldIsReached(letter);
    HeldIsGood(letter);
    CloseStaysBounded(Held(letter), letter.size);
  }

  /** The bound over every run until a close is told. */
  lemma {:induction false} EveryRunIsBounded<T>(p: Pipe<T>, events: seq<Event<T>>, longest: nat)
    requires Good(p) && Bounded(p, longest)
    requires forall e | e in events :: Short(e, longest)
    requires !Run(p, events).notified
    ensures Bounded(Run(p, events), longest)
    decreases |events|
  {
    if events != [] {
      StepKeeps(p, events[0]);
      if Step(p, events[0]).notified {
        NotifiedStays(Step(p, events[0]), events[1..]);
      }
      StepStaysBounded(p, events[0], longest);
      EveryRunIsBounded(Step(p, events[0]), events[1..], longest);
    }
  }

  lemma {:induction false} NotifiedStays<T>(p: Pipe<T>, events: seq<Event<T>>)
    requires p.notified
    ensures Run(p, events).notified
    decreases |events|
  {
    if events != [] {
      NotifiedStays(Step(p, events[0]), events[1..]);
    }
  }

  // ---- Whole flushes as runs ----

  lemma {:induction false} RunSplit<T>(p: Pipe<T>, first: seq<Event<T>>, second: seq<Event<T>>)
    ensures Run(p, first + second) == Run(Run(p, first), second)
    decreases |first|
  {
    if first == [] {
      assert first + second == second;
    } else {
      assert (first + second)[1..] == first[1..] + second;
      RunSplit(Step(p, first[0]), first[1..], second);
    }
  }

  // ---- Whole flushes ----

  /** What handlers at this end may do before they return: pause, resume, close, and send through their own end. */
  predicate Handler<T>(e: Event<T>, side: Side) {
    e.PausesEnd? || e.ResumesEnd? || e.ClosesBoth? || (e.Sends? && e.side == Other(side))
  }

  ghost predicate AllHandler<T>(reaction: seq<Event<T>>, side: Side) {
    forall e :: e in reaction ==> Handler(e, side)
  }

  ghost predicate Reactions<T>(reactions: seq<seq<Event<T>>>, side: Side) {
    forall reaction :: reaction in reactions ==> AllHandler(reaction, side)
  }

  /** It does not touch what the end still has to receive, and the flush goes on. */
  lemma {:induction false} HandlersKeepQueue<T>(p: Pipe<T>, side: Side, reaction: seq<Event<T>>)
    requires AllHandler(reaction, side)
    ensures var r := Run(p, reaction);
            At(r, side).queue == At(p, side).queue && At(r, side).received == At(p, side).received && r.flushing == p.flushing
    decreases |reaction|
  {
    if reaction != [] {
      assert Handler(reaction[0], side);
      HandlersKeepQueue(Step(p, reaction[0]), side, reaction[1..]);
    }
  }

  function First<T>(reactions: seq<seq<Event<T>>>): seq<Event<T>> {
    if reactions == [] then [] else reactions[0]
  }

  function Rest<T>(reactions: seq<seq<Event<T>>>): seq<seq<Event<T>>> {
    if reactions == [] then [] else reactions[1..]
  }

  lemma RestReactions<T>(reactions: seq<seq<Event<T>>>, side: Side)
    requires Reactions(reactions, side)
    ensures AllHandler(First(reactions), side) && Reactions(Rest(reactions), side)
  {
    assert reactions != [] ==> reactions[0] in reactions;
  }

  /** One turn of the flush loop: the oldest letter leaves, and its handlers react. */
  function Turn<T>(p: Pipe<T>, side: Side, reaction: seq<Event<T>>): Pipe<T>
    requires CanDeliver(p, side)
  {
    Run(DeliverOne(p, side), reaction)
  }

  /** The flush loop against handlers that react as listed (and do nothing after the list). */
  function FlushLoop<T>(p: Pipe<T>, side: Side, reactions: seq<seq<Event<T>>>): Pipe<T>
    requires Reactions(reactions, side)
    decreases |At(p, side).queue|
  {
    if !CanDeliver(p, side) then p
    else
      RestReactions(reactions, side);
      HandlersKeepQueue(DeliverOne(p, side), side, First(reactions));
      FlushLoop(Turn(p, side, First(reactions)), side, Rest(reactions))
  }

  function Flush<T>(p: Pipe<T>, side: Side, reactions: seq<seq<Event<T>>>): Pipe<T>
    requires p.tasks != [] && Reactions(reactions, side)
  {
    EndFlush(FlushLoop(BeginFlush(p, side), side, reactions), side)
  }

  function LoopEvents<T>(p: Pipe<T>, side: Side, reactions: seq<seq<Event<T>>>): seq<Event<T>>
    requires Reactions(reactions, side)
    decreases |At(p, side).queue|
  {
    if !CanDeliver(p, side) then []
    else
      RestReactions(reactions, side);
      HandlersKeepQueue(DeliverOne(p, side), side, First(reactions));
      [Delivers] + First(reactions) + LoopEvents(Turn(p, side, First(reactions)), side, Rest(reactions))
  }

  lemma TurnIsRun<T>(p: Pipe<T>, side: Side, reaction: seq<Event<T>>, tail: seq<Event<T>>)
    requires p.flushing == Some(side) && CanDeliver(p, side)
    ensures Run(p, [Delivers] + reaction + tail) == Run(Turn(p, side, reaction), tail)
  {
    assert ([Delivers] + reaction + tail)[1..] == reaction + tail;
    RunSplit(DeliverOne(p, side), reaction, tail);
  }

  lemma {:induction false} LoopIsRun<T>(p: Pipe<T>, side: Side, reactions: seq<seq<Event<T>>>)
    requires p.flushing == Some(side) && Reactions(reactions, side)
    ensures Run(p, LoopEvents(p, side, reactions)) == FlushLoop(p, side, reactions)
    ensures FlushLoop(p, side, reactions).flushing == Some(side) && !CanDeliver(FlushLoop(p, side, reactions), side)
    decreases |At(p, side).queue|
  {
    if CanDeliver(p, side) {
      RestReactions(reactions, side);
      HandlersKeepQueue(DeliverOne(p, side), side, First(reactions));
      var p2 := Turn(p, side, First(reactions));
      LoopIsRun(p2, side, Rest(reactions));
      TurnIsRun(p, side, First(reactions), LoopEvents(p2, side, Rest(reactions)));
    }
  }

  /** A whole flush is a run of its turns, so every flush keeps the pipe good. */
  lemma FlushIsRun<T>(p: Pipe<T>, side: Side, reactions: seq<seq<Event<T>>>)
    requires p.flushing.None? && p.tasks != [] && p.tasks[0] == FlushTask(side) && Reactions(reactions, side)
    ensures Flush(p, side, reactions)
         == Run(p, [RunsTask] + LoopEvents(BeginFlush(p, side), side, reactions) + [EndsFlush])
    ensures Good(p) ==> Good(Flush(p, side, reactions))
  {
    var p1 := BeginFlush(p, side);
    var events := LoopEvents(p1, side, reactions);
    LoopIsRun(p1, side, reactions);
    var all := [RunsTask] + events + [EndsFlush];
    assert all[1..] == events + [EndsFlush];
    RunSplit(p1, events, [EndsFlush]);
    var p2 := FlushLoop(p1, side, reactions);
    assert Run(p2, [EndsFlush]) == EndFlush(p2, side);
    if Good(p) {
      EveryRunIsGood(p, all);
    }
  }

  /** Handlers that do not pause their end leave it open for more. */
  lemma {:induction false} EagerReaction<T>(p: Pipe<T>, side: Side, reaction: seq<Event<T>>)
    requires AllHandler(reaction, side) && PausesEnd(side) !in reaction && !At(p, side).paused
    ensures !At(Run(p, reaction), side).paused
    decreases |reaction|
  {
    if reaction != [] {
      assert Handler(reaction[0], side) && reaction[0] in reaction;
      EagerReaction(Step(p, reaction[0]), side, reaction[1..]);
    }
  }

  ghost predicate Eager<T>(reactions: seq<seq<Event<T>>>, side: Side) {
    forall reaction :: reaction in reactions ==> PausesEnd(side) !in reaction
  }

  /** Handlers that never pause get everything, and then no sender is kept waiting. */
  lemma {:induction false} EagerLoopDeliversAll<T>(p: Pipe<T>, side: Side, reactions: seq<seq<Event<T>>>)
    requires Reactions(reactions, side) && !At(p, side).paused && Eager(reactions, side)
    ensures At(FlushLoop(p, side, reactions), side).queue == []
    ensures At(FlushLoop(p, side, reactions), side).received == At(p, side).received + At(p, side).queue
    decreases |At(p, side).queue|
  {
    var q := At(p, side).queue;
    if q == [] {
      assert At(p, side).received + q == At(p, side).received;
    } else {
      RestReactions(reactions, side);
      HandlersKeepQueue(DeliverOne(p, side), side, First(reactions));
      EagerReaction(DeliverOne(p, side), side, First(reactions));
      EagerLoopDeliversAll(Turn(p, side, First(reactions)), side, Rest(reactions));
      assert At(p, side).received + [q[0]] + q[1..] == At(p, side).received + q;
    }
  }

  lemma EagerFlushWakesSenders<T>(p: Pipe<T>, side: Side, reactions: seq<seq<Event<T>>>)
    requires Good(p) && p.flushing.None? && p.tasks != [] && p.tasks[0] == FlushTask(side) && Reactions(reactions, side)
    requires !At(p, side).paused && Eager(reactions, side)
    ensures var r := At(Flush(p, side, reactions), side);
            r.received == At(p, side).sent && r.queue == [] && r.drains == []
  {
    EagerLoopDeliversAll(BeginFlush(p, side), side, reactions);
    LoopIsRun(BeginFlush(p, side), side, reactions);
    FlushIsRun(p, side, reactions);
  }

  // ---- What each event comes to, at one end ----

  /** The texts handed to this end before the close. */
  function Accepted<T>(events: seq<Event<T>>, side: Side): seq<Letter<T>>
    decreases |events|
  {
    if events == [] || events[0].ClosesBoth? then []
    else
      (if events[0].Sends? && events[0].side == side then [events[0].letter] else []) + Accepted(events[1..], side)
  }

  /** A send to an open duplex is queued for its end, and nothing else is. */
  lemma OnlySendsQueue<T>(p: Pipe<T>, e: Event<T>, side: Side)
    ensures At(Step(p, e), side).sent
         == At(p, side).sent + (if e.Sends? && e.side == side && !p.closed then [e.letter] else [])
    ensures Step(p, e).closed <==> p.closed || e.ClosesBoth?
  {
    if e.Sends? && !p.closed {
      SendToIs(p, e.side, e.letter);
    } else if e.ResumesEnd? {
      ResumeIs(p, e.side);
    }
  }

  lemma AcceptedFirst<T>(sent: seq<Letter<T>>, e: Event<T>, more: seq<Event<T>>, side: Side)
    requires !e.ClosesBoth?
    ensures var own := if e.Sends? && e.side == side then [e.letter] else [];
            sent + Accepted([e] + more, side) == sent + own + Accepted(more, side)
  {
    assert ([e] + more)[1..] == more;
    var own := if e.Sends? && e.side == side then [e.letter] else [];
    assert sent + (own + Accepted(more, side)) == sent + own + Accepted(more, side);
  }

  lemma {:induction false} RunAccepts<T>(p: Pipe<T>, events: seq<Event<T>>, side: Side)
    ensures At(Run(p, events), side).sent == if p.closed then At(p, side).sent else At(p, side).sent + Accepted(events, side)
    decreases |events|
  {
    var sent := At(p, side).sent;
    assert sent + [] == sent;
    if events != [] {
      OnlySendsQueue(p, events[0], side);
      RunAccepts(Step(p, events[0]), events[1..], side);
      if !p.closed && !events[0].ClosesBoth? {
        AcceptedFirst(sent, events[0], events[1..], side);
        assert [events[0]] + events[1..] == events;
      }
    }
  }

  /** Over every run, what was sent to an end before the close is what it gets, in order; the rest waits in its queue. */
  lemma NothingIsDropped<T>(mark: Option<nat>, events: seq<Event<T>>, side: Side)
    ensures var inbox := At(Run(Fresh<T>(mark), events), side);
            inbox.sent == Accepted(events, side) && inbox.sent == inbox.received + inbox.queue
  {
    RunAccepts(Fresh<T>(mark), events, side);
    assert [] + Accepted(events, side) == Accepted(events, side);
    assert Good(Fresh<T>(mark));
    EveryRunIsGood(Fresh<T>(mark), events);
  }

  /** The sender is given a drain promise exactly if its text leaves more than the mark undelivered. */
  lemma PromisedExactly<T>(p: Pipe<T>, e: Event<T>, side: Side)
    requires Good(p)
    ensures var sent := e.Sends? && e.side == side && !p.closed;
            var over := sent && p.mark.Some? && Total(At(p, side).queue) + e.letter.size > p.mark.value;
            At(Step(p, e), side).issued == At(p, side).issued + (if over then 1 else 0)
  {
    if e.Sends? && !p.closed {
      SendToIs(p, e.side, e.letter);
    } else if e.ResumesEnd? {
      ResumeIs(p, e.side);
    }
  }

  /** Drain promises are settled by a flush that leaves no more than the mark, and by the close, and all of them then. */
  lemma SettledExactly<T>(p: Pipe<T>, e: Event<T>, side: Side)
    requires Good(p)
    ensures var inbox := At(p, side);
            var drained := e.EndsFlush? && p.flushing == Some(side) && (inbox.paused || inbox.queue == [])
                           && (p.mark.None? || Total(inbox.queue) <= p.mark.value);
            var told := e.RunsTask? && p.flushing.None? && p.tasks != [] && p.tasks[0].CloseTask?;
            At(Step(p, e), side).settled == inbox.settled + (if drained || told then inbox.drains else [])
  {
    assert At(p, side).settled + [] == At(p, side).settled;
    if e.Sends? && !p.closed {
      SendToIs(p, e.side, e.letter);
    } else if e.ResumesEnd? {
      ResumeIs(p, e.side);
    }
  }

  /** An end gets a text exactly when its flush comes to it, and is paused from its `pause` to its `resume`. */
  lemma ReceivedExactly<T>(p: Pipe<T>, e: Event<T>, side: Side)
    ensures var inbox, r := At(p, side), At(Step(p, e), side);
            var turn := e.Delivers? && p.flushing == Some(side) && !inbox.paused && inbox.queue != [];
            && r.received == inbox.received + (if turn then [inbox.queue[0]] else [])
            && (r.paused <==> e == PausesEnd(side) || (inbox.paused && e != ResumesEnd(side)))
  {
    assert At(p, side).received + [] == At(p, side).received;
    if e.Sends? && !p.closed {
      SendToIs(p, e.side, e.letter);
    } else if e.ResumesEnd? {
      ResumeIs(p, e.side);
    }
  }

  /** Microtasks run one by one in the order queued; a flush lasts until its end is paused or has nothing left. */
  lemma TasksRunInOrder<T>(p: Pipe<T>, e: Event<T>)
    ensures var r := Step(p, e);
            && (e.RunsTask? && p.flushing.None? && p.tasks != [] ==>
                  && r.tasks == p.tasks[1..]
                  && (p.tasks[0].CloseTask? ==> r.notified && r.flushing.None?)
                  && (p.tasks[0].FlushTask? ==> r.notified == p.notified && r.flushing == Some(p.tasks[0].side)))
            && (!(e.RunsTask? && p.flushing.None? && p.tasks != []) ==> p.tasks <= r.tasks && r.notified == p.notified)
            && (e.EndsFlush? && p.flushing.Some? ==>
                  (r.flushing.None? <==> At(p, p.flushing.value).paused || At(p, p.flushing.value).queue == []))
            && (!e.EndsFlush? && !e.RunsTask? ==> r.flushing == p.flushing)
  {
    if e.Sends? && !p.closed {
      SendToIs(p, e.side, e.letter);
    } else if e.ResumesEnd? {
      ResumeIs(p, e.side);
    }
  }
}
