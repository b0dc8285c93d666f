/** The token-based worker pool: a buffered channel holding one token per
    free execution slot, and the per-job routine that runs with a token. */
module WorkerPools {
  import opened Errors
  import opened Jobs
  import opened Runners

  datatype PoolState = WpInit | WpRunning | WpClosing

  /** `workerPool`.  The buffered channel `pool` holds identical tokens (the
      function `work`), so it is modelled by how many it holds and whether
      it has been closed; its capacity is `count`. */
  class WorkerPool {
    var count: int
    var tokens: nat
    var state: PoolState
    var closed: bool

    /** The buffer never holds more than its capacity, and the channel is
        closed exactly when the pool is closing (`close` does both). */
    ghost predicate Valid()
      reads this
    {
      tokens <= count && (closed <==> state == WpClosing)
    }

    /** The pool `newWorkerPool(n)` builds for a size `make` accepts: fills
        the buffer with `n` tokens, then runs. */
    constructor (n: int)
      requires n >= 0
      ensures Valid()
      ensures count == n && tokens == n && state == WpRunning && !closed
    {
      count := n;
      tokens := 0;
      state := WpInit;
      closed := false;
      new;
      var i := 0;
      while i < n
        invariant 0 <= i <= n
        invariant tokens == i && count == n && state == WpInit && !closed
      {
        tokens := tokens + 1;
        i := i + 1;
      }
      state := WpRunning;
    }

    /** `get()`: receives one token.  A receive on an empty open channel
        blocks, so the caller needs a token or a closed channel; a closed,
        drained channel yields the nil function (`got` is false). */
    method Get() returns (got: bool)
      requires Valid()
      requires tokens > 0 || closed
      modifies this`tokens
      ensures Valid()
      ensures got <==> old(tokens) > 0
      ensures tokens == if got then old(tokens) - 1 else old(tokens)
    {
      got := tokens > 0;
      if got {
        tokens := tokens - 1;
      }
    }

    /** `put()`: returns a token unless the pool is closing.  A send on a
        full buffer blocks, so the caller needs a free place. */
    method Put()
      requires Valid()
      requires state == WpClosing || tokens < count
      modifies this`tokens
      ensures Valid()
      ensures tokens == if state == WpClosing then old(tokens) else old(tokens) + 1
    {
      if state == WpClosing {
        return;
      }
      tokens := tokens + 1;
    }

    /** `close()`: the pool goes to closing and the channel is closed.  The
        tokens still buffered stay receivable, and from now on `put` adds
        none.  Closing an already closed channel panics, after the state
        was set. */
    method Close() returns (o: Outcome)
      requires Valid()
      modifies this`state, this`closed
      ensures Valid()
      ensures o == if old(closed) then Panicked else Returned(None)
      ensures state == WpClosing && closed && tokens == old(tokens)
    {
      state := WpClosing;
      if closed {
        return Panicked;
      }
      closed := true;
      return Returned(None);
    }
  }

  /** `newWorkerPool(n)`: `make(chan workerFn, n)` panics on a negative
      size, before any pool exists; otherwise the pool is full and running. */
  method NewWorkerPool(n: int) returns (wp: WorkerPool?, o: Outcome)
    ensures o == if n < 0 then Panicked else Returned(None)
    ensures n < 0 <==> wp == null
    ensures wp != null ==>
      (fresh(wp) && wp.Valid() &&
       wp.count == n && wp.tokens == n && wp.state == WpRunning && !wp.closed)
  {
    if n < 0 {
      return null, Panicked;
    }
    wp := new WorkerPool(n);
    o := Returned(None);
  }

  /** How one run of `work` ended. */
  datatype WorkReport =
    /** `checkPayload` failed: the error was logged and `work` returned. */
    | Corrupt(err: Error)
    /** the job had expired: the error was logged and `work` returned. */
    | Stale(err: Error)
    /** no blueprint is registered under the job's type: `New` is called on
        a nil interface and panics.  The deferred `put` still runs, but
        nothing recovers the panic, so it ends the whole process. */
    | NoBlueprint(job: Job)
    /** `Run` was called; the errors of `New`, of unmarshalling and of `Run`
        were only logged.  `job` is `work`'s own copy of the record. */
    | Ran(job: Job, newErr: Option<Error>, unmarshalErr: Option<Error>, runErr: Option<Error>)
  {
    /** Whether the job's `Run` method was called. */
    predicate RunCalled() { Ran? }
  }

  /** What `work(job, …)` does with a job, given the clock reading at the
      expiry check (`now`) and the later one stored in `StartedAt`
      (`startedAt`), the registry `jobContainer`,
      and the outcomes of the blueprint's `New`, of `json.Unmarshal` into
      the new object, and of its `Run`. */
  function WorkOutcome(job: Job, now: Time, startedAt: Time, registry: map<string, Runner>,
                       newErr: Option<Error>, unmarshalErr: Option<Error>,
                       runErr: Option<Error>): (r: WorkReport)
    ensures r.Corrupt? <==> !CheckPayload(job).flag
    ensures r.Corrupt? ==> r.err == FailChecksum()
    ensures r.Stale? <==> CheckPayload(job).flag && Expired(job, now).flag
    ensures r.Stale? ==> r.err == FailExpired(job, now)
    ensures r.RunCalled() <==>
      CheckPayload(job).flag && !Expired(job, now).flag && job.payloadType in registry
    ensures (r.Ran? || r.NoBlueprint?) ==>
      r.job == job.(attemps := job.attemps + 1, startedAt := startedAt)
    ensures r.Ran? ==> r.newErr == newErr && r.unmarshalErr == unmarshalErr && r.runErr == runErr
  {
    var check := CheckPayload(job);
    if !check.flag then Corrupt(check.err.value)
    else
      var stale := Expired(job, now);
      if stale.flag then Stale(stale.err.value)
      else
        var started := job.(attemps := job.attemps + 1, startedAt := startedAt);
        if started.payloadType !in registry then NoBlueprint(started)
        else Ran(started, newErr, unmarshalErr, runErr)
  }

  /** `work(job, l, wp)`: the checks, the bookkeeping on its own copy of the
      job, reconstruction and `Run`, with the token handed back by the
      deferred `put` on every exit path. */
  method Work(job: Job, now: Time, startedAt: Time, registry: map<string, Runner>, wp: WorkerPool,
              newErr: Option<Error>, unmarshalErr: Option<Error>, runErr: Option<Error>)
    returns (report: WorkReport)
    requires wp.Valid()
    requires wp.state == WpClosing || wp.tokens < wp.count
    modifies wp`tokens
    ensures wp.Valid()
    ensures wp.tokens == if wp.state == WpClosing then old(wp.tokens) else old(wp.tokens) + 1
    ensures report == WorkOutcome(job, now, startedAt, registry, newErr, unmarshalErr, runErr)
  {
    var j := job;
    var correct := CheckPayload(j);
    if !correct.flag {
      report := Corrupt(correct.err.value);
      wp.Put();
      return;
    }
    var stale := Expired(j, now);
    if stale.flag {
      report := Stale(stale.err.value);
      wp.Put();
      return;
    }
    j := j.(attemps := j.attemps + 1);
    j := j.(startedAt := startedAt);
    if j.payloadType !in registry {
      report := NoBlueprint(j);
      wp.Put();
      return;
    }
    report := Ran(j, newErr, unmarshalErr, runErr);
    wp.Put();
  }

  /** The use the pool is built for: take a token with `get`, then run
      `work` with it.  While the pool is running the token comes back, so
      the pool ends with as many free tokens as it started with.  No code
      in the repository calls `get` or `work` yet; this is the intended
      hand-off, not the listener's present one. */
  method Dispatch(job: Job, now: Time, startedAt: Time, registry: map<string, Runner>, wp: WorkerPool,
                  newErr: Option<Error>, unmarshalErr: Option<Error>, runErr: Option<Error>)
    returns (report: WorkReport)
    requires wp.Valid() && wp.state == WpRunning && wp.tokens > 0
    modifies wp`tokens
    ensures wp.Valid() && wp.tokens == old(wp.tokens)
    ensures report == WorkOutcome(job, now, startedAt, registry, newErr, unmarshalErr, runErr)
  {
    var got := wp.Get();
    report := Work(job, now, startedAt, registry, wp, newErr, unmarshalErr, runErr);
  }
}
