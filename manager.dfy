/** The manager: an earlier arrangement in which a per-queue manager owns
    the workers and starts its listener.  Its copies of `removeWorkers`,
    `addWorkers` and `setWorkerCount` are declared on the listener and are
    identical to the listener's own, so they are the members of
    `Listeners.Listener`. */
module Managers {
  import opened Errors
  import opened Listeners

  /** `manager`.  `ownerSet` says whether the back-pointer `s` to the
      orchestrator is non-nil; the struct literal of `newManager` never
      sets it. */
  class Manager {
    var queue: string
    var listener: Listener
    var workers: seq<Worker>
    var ownerSet: bool

    /** The struct literal of `newManager`, around a listener made for the
        same queue. */
    constructor (queue: string, listener: Listener)
      ensures this.queue == queue && this.listener == listener
      ensures workers == [] && !ownerSet
    {
      this.queue := queue;
      this.listener := listener;
      workers := [];
      ownerSet := false;
    }

    /** `init(wcount)`: appends `wcount` workers, then sets the listener
        listening (starting its loop is not modelled).  Each new worker
        reads the logger through `m.s`, so while `s` is nil the first
        iteration dereferences a nil pointer and panics. */
    method Init(wcount: int) returns (o: Outcome)
      modifies this`workers, listener`state
      ensures !ownerSet && wcount > 0 ==>
        o == Panicked && workers == old(workers) && listener.state == old(listener.state)
      ensures ownerSet || wcount <= 0 ==>
        o == Returned(None) && workers == old(workers) + FreshWorkers(wcount) &&
        listener.state == Listening
    {
      var i := 0;
      while i < wcount
        invariant 0 <= i && (wcount >= 0 ==> i <= wcount) && (wcount < 0 ==> i == 0)
        invariant workers == old(workers) + FreshWorkers(i)
        invariant listener.state == old(listener.state)
        invariant !ownerSet ==> i == 0
      {
        if !ownerSet {
          return Panicked;
        }
        workers := workers + [Worker(false)];
        i := i + 1;
      }
      listener.state := Listening;
      return Returned(None);
    }
  }

  /** `newManager(queue, wcount, s)`: builds the manager and runs `init`,
      which panics as soon as it has a worker to create. */
  method NewManager(queue: string, listener: Listener, wcount: int) returns (m: Manager, o: Outcome)
    modifies listener`state
    ensures fresh(m) && m.queue == queue && m.listener == listener && !m.ownerSet
    ensures wcount > 0 ==> o == Panicked && m.workers == [] && listener.state == old(listener.state)
    ensures wcount <= 0 ==> o == Returned(None) && m.workers == [] && listener.state == Listening
  {
    m := new Manager(queue, listener);
    o := m.Init(wcount);
  }
}
