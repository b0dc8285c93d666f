/** The per-queue listener: a state machine driven by pause/unpause/stop
    calls and by its own `listen` loop, which polls the task board while
    listening and hands decoded jobs to its workers; and the bookkeeping
    of its slice of workers. */
module Listeners {
  import opened Errors
  import opened Jobs

  /** `addWorkers` refuses to reach this many workers. */
  const MaxWorkers: int := 100

  datatype ListenerState =
    Initializing | Listening | Pausing | Paused | Resuming | Stopping | Stopped

  /** A goroutine worker (`*worker`), as far as the listener affects it. */
  datatype Worker = Worker(stopped: bool)

  /** The `n` workers a `for i := 0; i < n; i++` loop appends: none when
      `n` is not positive. */
  function FreshWorkers(n: int): (ws: seq<Worker>)
    ensures |ws| == if n < 0 then 0 else n
    ensures forall i :: 0 <= i < |ws| ==> !ws[i].stopped
    decreases if n < 0 then 0 else n
  {
    if n <= 0 then [] else FreshWorkers(n - 1) + [Worker(false)]
  }

  /** The same workers after `stop()` was called on each. */
  function AllStopped(ws: seq<Worker>): (r: seq<Worker>)
    ensures |r| == |ws| && forall i :: 0 <= i < |r| ==> r[i].stopped
  {
    seq(|ws|, i => Worker(true))
  }

  /** The case a `select` of the `listen` loop takes: a receive from
      `stopChan`, a receive from `pauseChan`, or `default`. */
  datatype Event = StopSignal | PauseSignal | NoSignal

  /** What `run` gets from the task board: `Pop` failed, or it returned
      bytes that did not unmarshal, or bytes that decoded to a job. */
  datatype Poll = PopFailed(err: Error) | DecodeFailed(err: Error) | Decoded(job: Job)

  /** The observable state of a listener.  The unbuffered channels are
      modelled by how many senders are blocked on them (`stopSignals`,
      `pauseSignals`) and, for `jobsChan`, by the jobs sent on it so far;
      `pops` counts the calls to the task board's `Pop`; `exited` says that
      `listen` has returned. */
  datatype Snapshot = Snapshot(state: ListenerState, workers: seq<Worker>, jobs: seq<Job>,
                       pops: nat, stopSignals: nat, pauseSignals: nat, exited: bool)

  /** `pause()`. */
  function PauseSpec(v: Snapshot): Snapshot {
    if v.state == Listening then v.(state := Pausing, pauseSignals := v.pauseSignals + 1) else v
  }

  /** `unpause()`. */
  function UnpauseSpec(v: Snapshot): Snapshot {
    if v.state == Paused then v.(state := Resuming, pauseSignals := v.pauseSignals + 1) else v
  }

  /** `stop()`. */
  function StopSpec(v: Snapshot): Snapshot {
    v.(state := Stopping, stopSignals := v.stopSignals + 1)
  }

  /** Whether one more iteration of `listen` can take `ev`: the loop must
      still be running, a receive needs a blocked sender, and `default` is
      taken only when no receive is ready. */
  predicate Enabled(v: Snapshot, ev: Event) {
    && !v.exited
    && match ev
       case StopSignal => v.stopSignals > 0
       case PauseSignal => v.pauseSignals > 0
       case NoSignal => v.stopSignals == 0 && v.pauseSignals == 0
  }

  /** `run()`: one `Pop`, and a send on `jobsChan` only for a decoded job. */
  function RunSpec(v: Snapshot, poll: Poll): Snapshot {
    v.(pops := v.pops + 1, jobs := if poll.Decoded? then v.jobs + [poll.job] else v.jobs)
  }

  /** One iteration of the `listen` loop; `poll` is what `run` would get. */
  function StepSpec(v: Snapshot, ev: Event, poll: Poll): Snapshot
    requires Enabled(v, ev)
  {
    match ev
    case StopSignal =>
      v.(stopSignals := v.stopSignals - 1, state := Stopped,
         workers := AllStopped(v.workers), exited := true)
    case PauseSignal =>
      var w := v.(pauseSignals := v.pauseSignals - 1);
      if v.state == Pausing then w.(state := Paused)
      else if v.state == Resuming then w.(state := Listening)
      else w
    case NoSignal =>
      if v.state != Listening then v else RunSpec(v, poll)
  }

  /** Something that happens to a listener: a control call from outside,
      or one iteration of its loop. */
  datatype Action = CallPause | CallUnpause | CallStop | Iterate(ev: Event, poll: Poll)

  predicate Allowed(v: Snapshot, a: Action) {
    a.Iterate? ==> Enabled(v, a.ev)
  }

  function Apply(v: Snapshot, a: Action): Snapshot
    requires Allowed(v, a)
  {
    match a
    case CallPause => PauseSpec(v)
    case CallUnpause => UnpauseSpec(v)
    case CallStop => StopSpec(v)
    case Iterate(ev, poll) => StepSpec(v, ev, poll)
  }

  /** Every action in `acts` can happen in turn, starting from `v`. */
  predicate Feasible(v: Snapshot, acts: seq<Action>)
    decreases |acts|
  {
    |acts| == 0 || (Allowed(v, acts[0]) && Feasible(Apply(v, acts[0]), acts[1..]))
  }

  /** The listener after `acts`, starting from `v`. */
  function Replay(v: Snapshot, acts: seq<Action>): Snapshot
    requires Feasible(v, acts)
    decreases |acts|
  {
    if |acts| == 0 then v else Replay(Apply(v, acts[0]), acts[1..])
  }

  /** The iterations of `listen` taking the given cases with the given polls. */
  function Iterations(ticks: seq<(Event, Poll)>): (acts: seq<Action>)
    ensures |acts| == |ticks|
    ensures forall i :: 0 <= i < |ticks| ==> acts[i] == Iterate(ticks[i].0, ticks[i].1)
  {
    seq(|ticks|, i requires 0 <= i < |ticks| => Iterate(ticks[i].0, ticks[i].1))
  }

  lemma ReplayStep(v: Snapshot, acts: seq<Action>)
    requires |acts| > 0 && Feasible(v, acts)
    ensures Allowed(v, acts[0]) && Feasible(Apply(v, acts[0]), acts[1..])
    ensures Replay(v, acts) == Replay(Apply(v, acts[0]), acts[1..])
  {
  }

  /** Once `listen` has returned, no further iteration happens. */
  lemma NothingAfterExit(v: Snapshot, acts: seq<Action>)
    requires v.exited && Feasible(v, acts)
    requires forall i :: 0 <= i < |acts| ==> acts[i].Iterate?
    ensures acts == []
  {
  }

  /** Calling `pause()` a second time changes nothing. */
  lemma PauseIdempotent(v: Snapshot)
    ensures PauseSpec(PauseSpec(v)) == PauseSpec(v)
  {
  }

  /** In every state but `Listening`, `pause()` is a no-op; in every state
      but `Paused`, so is `unpause()`. */
  lemma ControlNoOps(v: Snapshot)
    ensures v.state != Listening <==> PauseSpec(v) == v
    ensures v.state != Paused <==> UnpauseSpec(v) == v
  {
  }

  /** Until the loop has exited, some case of its `select` can be taken. */
  lemma LoopNeverStuck(v: Snapshot)
    requires !v.exited
    ensures Enabled(v, StopSignal) || Enabled(v, PauseSignal) || Enabled(v, NoSignal)
  {
  }

  /** Pausing and then resuming, each acknowledged by the loop, brings a
      listening listener with no pending signals back to where it was:
      same workers, same jobs sent, no extra polls. */
  lemma PauseResumeRoundTrip(v: Snapshot, p: Poll, q: Poll)
    requires v.state == Listening && !v.exited && v.pauseSignals == 0
    ensures Feasible(v, [CallPause, Iterate(PauseSignal, p), CallUnpause, Iterate(PauseSignal, q)])
    ensures Replay(v, [CallPause, Iterate(PauseSignal, p), CallUnpause, Iterate(PauseSignal, q)]) == v
  {
    var v1 := PauseSpec(v);
    var v2 := StepSpec(v1, PauseSignal, p);
    var v3 := UnpauseSpec(v2);
    var v4 := StepSpec(v3, PauseSignal, q);
    var a4: seq<Action> := [Iterate(PauseSignal, q)];
    var a3: seq<Action> := [CallUnpause] + a4;
    var a2: seq<Action> := [Iterate(PauseSignal, p)] + a3;
    var a1: seq<Action> := [CallPause] + a2;
    assert a4[1..] == [] && a3[1..] == a4 && a2[1..] == a3 && a1[1..] == a2;
    assert Feasible(v4, []) && Replay(v4, []) == v4;
    assert Feasible(v3, a4) && Replay(v3, a4) == v4;
    assert Feasible(v2, a3) && Replay(v2, a3) == v4;
    assert Feasible(v1, a2) && Replay(v1, a2) == v4;
    assert Feasible(v, a1) && Replay(v, a1) == v4;
    assert a1 == [CallPause, Iterate(PauseSignal, p), CallUnpause, Iterate(PauseSignal, q)];
    assert v4 == v;
  }

  /** The states in which the listener never polls. */
  predicate Quiet(s: ListenerState) {
    s == Paused || s == Stopping || s == Stopped
  }

  /** From a quiet state, no sequence of actions without `unpause()` ever
      polls the task board or sends a job to the workers. */
  lemma {:induction false} QuietUntilUnpause(v: Snapshot, acts: seq<Action>)
    requires Quiet(v.state) && Feasible(v, acts)
    requires forall i :: 0 <= i < |acts| ==> acts[i] != CallUnpause
    ensures Quiet(Replay(v, acts).state)
    ensures Replay(v, acts).pops == v.pops && Replay(v, acts).jobs == v.jobs
    decreases |acts|
  {
    if |acts| > 0 {
      ReplayStep(v, acts);
      var w := Apply(v, acts[0]);
      assert Quiet(w.state) && w.pops == v.pops && w.jobs == v.jobs;
      QuietUntilUnpause(w, acts[1..]);
    }
  }

  /** In particular a paused listener reads nothing from the task board
      until `unpause()` is called. */
  lemma PausedNeverPolls(v: Snapshot, acts: seq<Action>)
    requires v.state == Paused && Feasible(v, acts)
    requires forall i :: 0 <= i < |acts| ==> acts[i] != CallUnpause
    ensures Replay(v, acts).pops == v.pops && Replay(v, acts).jobs == v.jobs
  {
    QuietUntilUnpause(v, acts);
  }

  /** Once `stop()` has signalled, the loop takes at most one iteration per
      pending pause signal before it takes the stop signal: any run of
      iterations that has not exited is at most `pauseSignals` long, and an
      exited listener is `Stopped` with every worker stopped.  Together
      with `LoopNeverStuck`, the loop reaches `Stopped` after at most
      `pauseSignals + 1` iterations. */
  lemma {:induction false} StopIsReached(v: Snapshot, ticks: seq<(Event, Poll)>)
    requires !v.exited && v.stopSignals > 0
    requires Feasible(v, Iterations(ticks))
    ensures !Replay(v, Iterations(ticks)).exited ==> |ticks| <= v.pauseSignals
    ensures Replay(v, Iterations(ticks)).exited ==>
      Replay(v, Iterations(ticks)).state == Stopped &&
      forall i :: 0 <= i < |Replay(v, Iterations(ticks)).workers| ==>
        Replay(v, Iterations(ticks)).workers[i].stopped
    decreases |ticks|
  {
    var acts := Iterations(ticks);
    if |ticks| > 0 {
      ReplayStep(v, acts);
      var w := Apply(v, acts[0]);
      assert acts[1..] == Iterations(ticks[1..]);
      if ticks[0].0 == StopSignal {
        NothingAfterExit(w, acts[1..]);
      } else {
        assert ticks[0].0 == PauseSignal;
        assert w.stopSignals == v.stopSignals && w.pauseSignals == v.pauseSignals - 1;
        StopIsReached(w, ticks[1..]);
      }
    }
  }

  /** `listener`.  The log, the task board and the channels themselves are
      not modelled; see `Snapshot` for how the channels are. */
  class Listener {
    var queue: string
    var state: ListenerState
    var workers: seq<Worker>
    var jobs: seq<Job>
    var pops: nat
    var stopSignals: nat
    var pauseSignals: nat
    var exited: bool

    function View(): Snapshot
      reads this
    {
      Snapshot(state, workers, jobs, pops, stopSignals, pauseSignals, exited)
    }

    /** The struct literal of `newListener` and `newListenerForWeaver`:
        initializing, no workers, fresh channels. */
    constructor (queue: string)
      ensures this.queue == queue
      ensures View() == Snapshot(Initializing, [], [], 0, 0, 0, false)
    {
      this.queue := queue;
      state := Initializing;
      workers := [];
      jobs := [];
      pops := 0;
      stopSignals := 0;
      pauseSignals := 0;
      exited := false;
    }

    /** `init(wcount)`: a fresh job channel, `wcount` new workers (none if
        `wcount` is not positive), then listening. */
    method Init(wcount: int)
      modifies this
      ensures queue == old(queue)
      ensures View() == old(View()).(state := Listening, jobs := [],
                                     workers := old(workers) + FreshWorkers(wcount))
    {
      jobs := [];
      var i := 0;
      while i < wcount
        invariant 0 <= i && (wcount >= 0 ==> i <= wcount) && (wcount < 0 ==> i == 0)
        invariant workers == old(workers) + FreshWorkers(i)
        invariant queue == old(queue) && state == old(state) && jobs == []
        invariant pops == old(pops) && stopSignals == old(stopSignals)
        invariant pauseSignals == old(pauseSignals) && exited == old(exited)
      {
        workers := workers + [Worker(false)];
        i := i + 1;
      }
      state := Listening;
    }

    method Pause()
      modifies this
      ensures queue == old(queue)
      ensures View() == PauseSpec(old(View()))
    {
      if state == Listening {
        state := Pausing;
        pauseSignals := pauseSignals + 1;
      }
    }

    method Unpause()
      modifies this
      ensures queue == old(queue)
      ensures View() == UnpauseSpec(old(View()))
    {
      if state == Paused {
        state := Resuming;
        pauseSignals := pauseSignals + 1;
      }
    }

    method Stop()
      modifies this
      ensures queue == old(queue)
      ensures View() == StopSpec(old(View()))
    {
      state := Stopping;
      stopSignals := stopSignals + 1;
    }

    /** `run()`, with the outcome of `Pop` and of unmarshalling as `poll`. */
    method Run(poll: Poll)
      modifies this
      ensures queue == old(queue)
      ensures View() == RunSpec(old(View()), poll)
    {
      pops := pops + 1;
      match poll
      case PopFailed(_) =>
        return;
      case DecodeFailed(_) =>
        return;
      case Decoded(job) =>
        jobs := jobs + [job];
    }

    /** `stopWorkers()`: calls `stop()` on every worker. */
    method StopWorkers()
      modifies this
      ensures queue == old(queue)
      ensures View() == old(View()).(workers := AllStopped(old(workers)))
    {
      ghost var before := View();
      var i := 0;
      while i < |workers|
        invariant 0 <= i <= |workers| == |before.workers|
        invariant forall k :: 0 <= k < i ==> workers[k].stopped
        invariant workers[i..] == before.workers[i..]
        invariant View() == before.(workers := workers) && queue == old(queue)
      {
        workers := workers[i := Worker(true)];
        i := i + 1;
      }
      assert workers == AllStopped(before.workers);
    }

    /** One iteration of `listen`, taking the `select` case `ev`. */
    method Step(ev: Event, poll: Poll)
      requires Enabled(View(), ev)
      modifies this
      ensures queue == old(queue)
      ensures View() == StepSpec(old(View()), ev, poll)
    {
      match ev
      case StopSignal =>
        stopSignals := stopSignals - 1;
        state := Stopped;
        StopWorkers();
        exited := true;
      case PauseSignal =>
        pauseSignals := pauseSignals - 1;
        if state == Pausing {
          state := Paused;
        } else if state == Resuming {
          state := Listening;
        }
      case NoSignal =>
        if state != Listening {
          return;
        }
        Run(poll);
    }

    /** `listen()`: iterates until it takes the stop signal; `ticks` gives
        the case each iteration takes and what it would poll. */
    method Listen(ticks: seq<(Event, Poll)>)
      requires Feasible(View(), Iterations(ticks))
      modifies this
      ensures queue == old(queue)
      ensures View() == Replay(old(View()), Iterations(ticks))
    {
      var acts := Iterations(ticks);
      var i := 0;
      while i < |ticks|
        invariant 0 <= i <= |ticks| && queue == old(queue)
        invariant Feasible(View(), acts[i..])
        invariant Replay(old(View()), acts) == Replay(View(), acts[i..])
      {
        ReplayStep(View(), acts[i..]);
        assert acts[i..][1..] == acts[i + 1..];
        Step(ticks[i].0, ticks[i].1);
        if exited {
          NothingAfterExit(View(), acts[i + 1..]);
          return;
        }
        i := i + 1;
      }
    }

    /** `removeWorkers(n)`.  As written, the loop guard `i > n` is false on
        entry for every `n >= 0`, so no worker is removed.  A negative `n`
        (which `setWorkerCount` never passes) makes the guard true forever:
        the loop removes every worker and then indexes an empty slice,
        which panics. */
    method RemoveWorkers(n: int) returns (o: Outcome)
      modifies this`workers
      ensures n > |old(workers)| ==> o.Returned? && o.err.Some? && workers == old(workers)
      ensures 0 <= n <= |old(workers)| ==> o == Returned(None) && workers == old(workers)
      ensures n < 0 ==> o == Panicked && workers == []
    {
      if n > |workers| {
        return Returned(Some(Error("stopNWorkers: given number of workers to shutdown is greater than current worker count")));
      }
      var i := 0;
      while i > n
        invariant i >= 0 && (n >= 0 ==> i == 0)
        invariant |workers| <= |old(workers)|
        invariant n >= 0 ==> workers == old(workers)
        decreases |workers|
      {
        if |workers| == 0 {
          return Panicked;
        }
        workers := workers[..|workers| - 1];
        i := i + 1;
      }
      return Returned(None);
    }

    /** `addWorkers(n)`: refuses to reach `MaxWorkers`, otherwise appends
        `n` new workers. */
    method AddWorkers(n: int) returns (err: Option<Error>)
      modifies this`workers
      ensures err.Some? <==> |old(workers)| + n >= MaxWorkers
      ensures err.Some? ==> workers == old(workers)
      ensures err.None? ==> workers == old(workers) + FreshWorkers(n)
    {
      if |workers| + n >= MaxWorkers {
        return Some(Error("addNWorkers: requested amount of workers exceed the limit: " +
                          IntToDecimal(n) + " workers"));
      }
      var i := 0;
      while i < n
        invariant 0 <= i && (n >= 0 ==> i <= n) && (n < 0 ==> i == 0)
        invariant workers == old(workers) + FreshWorkers(i)
      {
        workers := workers + [Worker(false)];
        i := i + 1;
      }
      return None;
    }

    /** `setWorkerCount(n)`: rejects a negative count; grows through
        `addWorkers`, so a target of `MaxWorkers` or more is refused; and,
        as written, shrinking returns nil without removing any worker. */
    method SetWorkerCount(n: int) returns (o: Outcome)
      modifies this`workers
      ensures o.Returned?
      ensures n < 0 ==> o.err.Some? && workers == old(workers)
      ensures 0 <= n <= |old(workers)| ==> o.err.None? && workers == old(workers)
      ensures n > |old(workers)| ==> (o.err.Some? <==> n >= MaxWorkers)
      ensures n > |old(workers)| && o.err.Some? ==> workers == old(workers)
      ensures n > |old(workers)| && o.err.None? ==>
        |workers| == n && workers == old(workers) + FreshWorkers(n - |old(workers)|)
    {
      if n < 0 {
        return Returned(Some(Error("setWorkerCount: given worker count cannot be negative")));
      }
      var target := n - |workers|;
      if target < 0 {
        o := RemoveWorkers(-target);
        return;
      }
      if target > 0 {
        var err := AddWorkers(target);
        return Returned(err);
      }
      return Returned(None);
    }
  }

  /** `newListener(queue, wcount, s)`: never fails. */
  method NewListener(queue: string, wcount: int) returns (l: Listener, err: Option<Error>)
    ensures fresh(l) && err.None? && l.queue == queue
    ensures l.View() == Snapshot(Listening, FreshWorkers(wcount), [], 0, 0, 0, false)
  {
    l := new Listener(queue);
    l.Init(wcount);
    err := None;
  }

  /** `newListenerForWeaver(queue, jobChan, s)`: never fails, and leaves the
      listener initializing with no workers.  The `jobChan` argument is
      ignored by the source (the listener makes its own channel), so it is
      not a parameter here. */
  method NewListenerForWeaver(queue: string) returns (l: Listener, err: Option<Error>)
    ensures fresh(l) && err.None? && l.queue == queue
    ensures l.View() == Snapshot(Initializing, [], [], 0, 0, 0, false)
  {
    l := new Listener(queue);
    err := None;
  }
}
