/** The in-memory duplex as objects: two inboxes updated in place and the microtasks queued for them. */
module MemoryDuplexObjects {
  import opened Basics
  import D = MemoryDuplexes

  class Inbox<T> {
    var queue: seq<D.Letter<T>>
    var bytes: int
    var paused: bool
    var flushScheduled: bool
    var drains: seq<nat>
    var issued: nat
    ghost var sent: seq<D.Letter<T>>
    ghost var received: seq<D.Letter<T>>
    ghost var settled: seq<nat>
    ghost var late: bool

    ghost function State(): D.Inbox<T>
      reads this
    {
      D.Inbox(queue, bytes, paused, flushScheduled, drains, sent, received, issued, settled, late)
    }

    constructor ()
      ensures State() == D.EmptyInbox()
    {
      queue, bytes, paused, flushScheduled, drains, issued := [], 0, false, false, [], 0;
      sent, received, settled, late := [], [], [], false;
    }

    method SettleDrains()
      modifies this
      ensures State() == D.SettleDrains(old(State()))
    {
      settled := settled + drains;
      drains := [];
    }

    method Enqueue(letter: D.Letter<T>)
      modifies this
      ensures State() == old(State()).(queue := old(queue) + [letter], bytes := old(bytes) + letter.size,
                                       sent := old(sent) + [letter])
    {
      queue := queue + [letter];
      bytes := bytes + letter.size;
      sent := sent + [letter];
    }

    /** A new drain promise. */
    method AddDrain() returns (id: nat)
      modifies this`drains, this`issued
      ensures id == old(issued)
      ensures State() == old(State()).(drains := old(drains) + [old(issued)], issued := old(issued) + 1)
    {
      id := issued;
      drains := drains + [issued];
      issued := issued + 1;
    }

    method Dequeue() returns (letter: D.Letter<T>)
      requires queue != []
      modifies this
      ensures letter == old(queue)[0]
      ensures State() == old(State()).(queue := old(queue)[1..], bytes := old(bytes) - letter.size,
                                       received := old(received) + [letter])
    {
      letter := queue[0];
      queue := queue[1..];
      bytes := bytes - letter.size;
      received := received + [letter];
    }
  }

  class MemoryDuplex<T> {
    const mark: Option<nat>
    const toA: Inbox<T>
    const toB: Inbox<T>
    var closed: bool
    var notified: bool
    var tasks: seq<D.Task>
    ghost var flushing: Option<D.Side>

    ghost predicate Valid()
      reads this
    {
      toA != toB
    }

    ghost function State(): D.Pipe<T>
      reads this, toA, toB
    {
      D.Pipe(mark, toA.State(), toB.State(), closed, notified, flushing, tasks)
    }

    constructor (mark: Option<nat>)
      ensures Valid() && fresh(toA) && fresh(toB)
      ensures State() == D.Fresh(mark)
    {
      this.mark := mark;
      toA := new Inbox();
      toB := new Inbox();
      closed, notified, tasks, flushing := false, false, [], None;
    }

    function Cell(side: D.Side): Inbox<T> {
      if side.A? then toA else toB
    }

    method ScheduleFlush(side: D.Side)
      requires Valid()
      modifies this`tasks, Cell(side)`flushScheduled
      ensures State() == D.ScheduleFlush(old(State()), side)
    {
      var inbox := Cell(side);
      if inbox.flushScheduled || inbox.paused {
        return;
      }
      inbox.flushScheduled := true;
      tasks := tasks + [D.FlushTask(side)];
    }

    method Enqueue(side: D.Side, letter: D.Letter<T>)
      requires Valid()
      modifies this`tasks, Cell(side)
      ensures State() == D.Enqueued(old(State()), side, letter)
      ensures Cell(side).bytes == old(Cell(side).bytes) + letter.size
    {
      Cell(side).Enqueue(letter);
      ScheduleFlush(side);
    }

    method AddDrain(side: D.Side) returns (id: nat)
      requires Valid()
      modifies Cell(side)`drains, Cell(side)`issued
      ensures State() == D.Promised(old(State()), side)
    {
      id := Cell(side).AddDrain();
    }

    /** The drain promise, when the receiving end is above the mark. */
    method SendTo(side: D.Side, letter: D.Letter<T>) returns (drain: Option<nat>)
      requires Valid()
      modifies this`tasks, Cell(side)
      ensures State() == D.SendTo(old(State()), side, letter)
      ensures drain.Some? <==> !closed && D.AboveAfter(old(State()), side, letter.size)
    {
      if closed {
        return None;
      }
      Enqueue(side, letter);
      if mark.Some? && Cell(side).bytes > mark.value {
        var id := AddDrain(side);
        return Some(id);
      }
      return None;
    }

    method Pause(side: D.Side)
      requires Valid()
      modifies Cell(side)`paused
      ensures State() == D.PauseEnd(old(State()), side)
    {
      Cell(side).paused := true;
    }

    method Resume(side: D.Side)
      requires Valid()
      modifies this`tasks, Cell(side)
      ensures State() == D.ResumeEnd(old(State()), side)
    {
      Cell(side).paused := false;
      if closed {
        Cell(side).late := true;
      } else {
        ScheduleFlush(side);
      }
    }

    method Close()
      modifies this`closed, this`tasks
      ensures State() == D.CloseBoth(old(State()))
    {
      if !closed {
        closed := true;
        tasks := tasks + [D.CloseTask];
      }
    }

    /** One thing a handler does. */
    method Act(e: D.Event<T>)
      requires Valid() && (e.PausesEnd? || e.ResumesEnd? || e.ClosesBoth? || e.Sends?)
      modifies this`tasks, this`closed, toA, toB
      ensures State() == D.Step(old(State()), e)
    {
      match e {
        case Sends(side, letter) => var _ := SendTo(side, letter);
        case PausesEnd(side) => Pause(side);
        case ResumesEnd(side) => Resume(side);
        case ClosesBoth => Close();
      }
    }

    method React(side: D.Side, reaction: seq<D.Event<T>>)
      requires Valid() && D.AllHandler(reaction, side)
      modifies this`tasks, this`closed, toA, toB
      ensures State() == D.Run(old(State()), reaction)
    {
      var rest := reaction;
      while rest != []
        invariant D.AllHandler(rest, side) && D.Run(State(), rest) == D.Run(old(State()), reaction)
        decreases |rest|
      {
        assert rest[0] in rest && D.Handler(rest[0], side);
        Act(rest[0]);
        rest := rest[1..];
      }
    }

    method BeginFlush(side: D.Side)
      requires Valid() && tasks != []
      modifies this`tasks, this`flushing, Cell(side)`flushScheduled
      ensures State() == D.BeginFlush(old(State()), side)
    {
      tasks := tasks[1..];
      flushing := Some(side);
      Cell(side).flushScheduled := false;
    }

    /** One turn of the flush loop: hand a letter to the handlers, which react. */
    method Turn(side: D.Side, reaction: seq<D.Event<T>>)
      requires Valid() && D.CanDeliver(State(), side) && D.AllHandler(reaction, side)
      modifies this`tasks, this`closed, toA, toB
      ensures State() == D.Turn(old(State()), side, reaction)
    {
      var _ := Cell(side).Dequeue();
      assert State() == D.DeliverOne(old(State()), side);
      React(side, reaction);
    }

    method EndFlush(side: D.Side)
      requires Valid()
      modifies this`flushing, Cell(side)
      ensures State() == D.EndFlush(old(State()), side)
    {
      if !(mark.Some? && Cell(side).bytes > mark.value) {
        Cell(side).SettleDrains();
      }
      flushing := None;
    }

    /** The flush microtask at the head of the queue, against handlers that react as listed. */
    method Flush(side: D.Side, reactions: seq<seq<D.Event<T>>>)
      requires Valid() && tasks != [] && tasks[0] == D.FlushTask(side) && D.Reactions(reactions, side)
      modifies this, toA, toB
      ensures State() == D.Flush(old(State()), side, reactions)
    {
      BeginFlush(side);
      var rest := reactions;
      ghost var started := State();
      while !Cell(side).paused && Cell(side).queue != []
        invariant D.Reactions(rest, side)
        invariant D.FlushLoop(State(), side, rest) == D.FlushLoop(started, side, reactions)
        decreases |Cell(side).queue|
      {
        ghost var before := State();
        D.RestReactions(rest, side);
        D.HandlersKeepQueue(D.DeliverOne(before, side), side, D.First(rest));
        Turn(side, D.First(rest));
        rest := D.Rest(rest);
      }
      EndFlush(side);
    }

    method RunClose()
      requires Valid() && tasks != [] && tasks[0].CloseTask?
      modifies this, toA, toB
      ensures State() == D.RunClose(old(State()))
    {
      toA.SettleDrains();
      toB.SettleDrains();
      notified := true;
      tasks := tasks[1..];
    }
  }
}
