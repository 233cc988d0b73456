/** The plugin's objects: a map of shared entries, and the callbacks that change them in place. */
module DedupePlugins {
  import opened Basics
  import D = Deduping

  /**
   * One shared call. `waiters` holds an identity per waiting caller; `aborts` counts
   * the calls of `ac.abort()`, and `work` is how far the shared promise has come.
   */
  class InFlight {
    const key: string
    ghost const serial: nat
    var work: D.Work
    var waiters: set<nat>
    var aborts: nat

    ghost function State(): D.Entry
      reads this
    {
      D.Entry(key, work, waiters, aborts)
    }

    constructor (key: string, ghost serial: nat)
      ensures this.serial == serial && State() == D.Entry(key, D.Running, {}, 0)
    {
      this.key, this.serial := key, serial;
      work, waiters, aborts := D.Running, {}, 0;
    }
  }

  class DedupePlugin {
    var inflight: map<string, InFlight>
    var nextWaiter: nat
    ghost var entries: seq<InFlight>
    ghost var callers: seq<D.Caller>

    ghost predicate Valid()
      reads this, entries
    {
      && (forall i :: 0 <= i < |entries| ==> entries[i].serial == i)
      && (forall key :: key in inflight ==> inflight[key] in entries)
      && nextWaiter == |callers|
    }

    /** The entries there have been, as values. */
    ghost function Entries(): (s: seq<D.Entry>)
      reads this, entries
      ensures |s| == |entries|
    {
      seq(|entries|, i requires 0 <= i < |entries| reads this, entries => entries[i].State())
    }

    ghost function Mapping(): map<string, nat>
      reads this
    {
      map key | key in inflight :: inflight[key].serial
    }

    ghost function State(): D.Plugin
      reads this, entries
    {
      D.Plugin(Entries(), Mapping(), callers)
    }

    constructor ()
      ensures Valid() && State() == D.IDLE
    {
      inflight, nextWaiter, entries, callers := map[], 0, [], [];
      new;
      assert Mapping() == map[] && Entries() == [];
    }

    /** An entry of this plugin is known by its serial number. */
    ghost predicate Knows(entry: InFlight)
      reads this, entries
    {
      entry.serial < |entries| && entries[entry.serial] == entry
    }

    method Refuse()
      requires Valid()
      modifies this`callers, this`nextWaiter
      ensures Valid() && State() == D.Refuse(old(State()))
    {
      callers := callers + [D.Caller(None, [D.RequestAborted])];
      nextWaiter := nextWaiter + 1;
      assert Entries() == old(Entries());
    }

    method Join(entry: InFlight, aborted: bool)
      requires Valid() && Knows(entry)
      modifies this`callers, this`nextWaiter, entry
      ensures Valid() && State() == D.Join(old(State()), entry.serial, aborted)
    {
      if aborted {
        Refuse();
        return;
      }
      entry.waiters := entry.waiters + {nextWaiter};
      nextWaiter := nextWaiter + 1;
      callers := callers + [D.Caller(Some(entry.serial), [])];
      assert Entries() == old(Entries())[entry.serial := entry.State()];
    }

    method Intercept(key: Option<string>, aborted: bool, abortedInNext: bool)
      requires Valid()
      modifies this, entries
      ensures Valid() && State() == D.Step(old(State()), D.Calls(key, aborted, abortedInNext))
    {
      if key.None? {
        return;
      }
      if key.value in inflight {
        var existing := inflight[key.value];
        Join(existing, aborted);
        return;
      }
      if aborted {
        Refuse();
        return;
      }
      var entry := new InFlight(key.value, |entries|);
      inflight := inflight[key.value := entry];
      entries := entries + [entry];
      assert Mapping() == old(Mapping())[key.value := entry.serial];
      assert Entries() == old(Entries()) + [entry.State()];
      assert State() == D.Start(old(State()), key.value);
      Join(entry, abortedInNext);
    }

    method Unmap(entry: InFlight)
      requires Valid() && Knows(entry)
      modifies this`inflight
      ensures Valid() && Mapping() == D.Unmap(old(State()), entry.serial)
    {
      if entry.key in inflight && inflight[entry.key] == entry {
        inflight := inflight - {entry.key};
      }
      assert forall key :: key in old(inflight) && old(inflight)[key] != entry ==> old(inflight)[key].serial != entry.serial;
    }

    /** The listener that `join` put on a caller's signal. */
    method OnAbort(entry: InFlight, waiter: nat)
      requires Valid() && Knows(entry) && waiter < |callers| && callers[waiter].entry == Some(entry.serial)
      modifies this, entry
      ensures Valid() && State() == D.Step(old(State()), D.Aborts(waiter))
    {
      if waiter !in entry.waiters {
        return;
      }
      entry.waiters := entry.waiters - {waiter};
      callers := callers[waiter := callers[waiter].(settled := callers[waiter].settled + [D.RequestAborted])];
      assert Entries() == old(Entries())[entry.serial := entry.State()];
      assert State() == D.Leave(old(State()), waiter, D.RequestAborted);
      if entry.waiters == {} {
        Unmap(entry);
        entry.aborts := entry.aborts + 1;
        assert Entries() == old(Entries())[entry.serial := entry.State()];
      }
    }

    method OnWork(entry: InFlight, answer: D.Answer)
      requires Valid() && Knows(entry)
      modifies entry
      ensures Valid() && State() == D.Step(old(State()), D.WorkSettles(entry.serial, answer))
    {
      if entry.work.Running? {
        entry.work := D.Cleaning(answer);
      }
      assert Entries() == old(Entries())[entry.serial := entry.State()];
    }

    /** The `finally` callback of the shared promise. */
    method OnFinally(entry: InFlight)
      requires Valid() && Knows(entry)
      modifies this`inflight, entry
      ensures Valid() && State() == D.Step(old(State()), D.FinallyRuns(entry.serial))
    {
      if entry.work.Cleaning? {
        Unmap(entry);
        entry.work := D.Settled(entry.work.answer);
      }
      assert Entries() == old(Entries())[entry.serial := entry.State()];
    }

    /** The callbacks that `join` put on the shared promise. */
    method OnShared(entry: InFlight, waiter: nat)
      requires Valid() && Knows(entry) && waiter < |callers| && callers[waiter].entry == Some(entry.serial)
      modifies this`callers, entry
      ensures Valid() && State() == D.Step(old(State()), D.Tells(waiter))
    {
      if !entry.work.Settled? || waiter !in entry.waiters {
        return;
      }
      entry.waiters := entry.waiters - {waiter};
      callers := callers[waiter := callers[waiter].(settled := callers[waiter].settled + [D.Shared(entry.work.answer)])];
      assert Entries() == old(Entries())[entry.serial := entry.State()];
    }
  }
}
