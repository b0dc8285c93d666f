# shigoto: a Dafny model of the job dispatch core

shigoto is a background job queue written in Go. Producers register job
types and enqueue jobs. Each job becomes a record with a CRC-32 checksum
of its payload, and the record is pushed onto a named queue of a task
board (Redis or a file). A listener per queue polls the task board and
sends decoded jobs on a channel to its worker goroutines (worker.go).
workerpool.go holds a second, token-based pool whose `work` routine
checks the checksum and the expiry, rebuilds the concrete job from the
type registry and calls its `Run`. Nothing in the repository connects the
listener to that pool yet. The model takes the pool's `work` as the job's
path from the queue to `Run`.

The model covers:

- `job.go`, module `Jobs`: the job record, `newJob`, `checkPayload` and
  `expired`.
- The IEEE CRC-32 that `newJob` uses, module `Crc32`. This is Go's
  `hash/crc32.ChecksumIEEE`, computed one bit at a time.
- `listener.go`, module `Listeners`: the listener's seven-state machine,
  one iteration of `listen`, `run`, and the bookkeeping of the worker
  slice.
- `workerpool.go`, module `WorkerPools`: the token pool and the per-job
  `work` routine.
- `manager.go`, module `Managers`: `manager.init`.
- `shigoto.go`, module `Orchestrator`: the registry, `Register`,
  `Queue`/`QueueTo`, `initialize` and `ListenQueue`.
- Module `Runners`: the shape of the job values application code passes
  in (`interfaces.go` and its optional capabilities).
- Module `Errors`: Go's `error`, `(T, error)` pairs and run-time panics.

How the model stands in for Go:

- Times and durations are integer nanoseconds. The clock reading is a
  parameter.
- The UUID, the outcome of JSON encoding and decoding, the task board's
  `Pop`, and the outcomes of a job's `New` and `Run` are parameters too.
- Each unbuffered channel is modelled by the number of senders blocked on
  it: `stopSignals` and `pauseSignals`.
- `jobsChan` is modelled by the sequence of jobs sent on it.
- Go's `select` becomes an `Event` argument. Which events are enabled
  follows Go: a receive needs a waiting sender, and `default` runs only
  when no receive is ready.
- State the source changes in place is a `class`: `Listener`,
  `WorkerPool`, `Manager` and `Shigoto`. Each method's `ensures` gives the
  new state in terms of the old one.
- The listener's methods are tied to pure functions on a `Snapshot` value:
  `PauseSpec`, `StepSpec`, `Replay` and others. The trace lemmas are
  proved about those functions.

Behaviour the model reproduces just as the code has it. In several places
this differs from what the names, comments and log messages suggest:

- `removeWorkers` (listener.go:147, and the copy at manager.go:56) loops
  with `for i := 0; i > n; i++`. For every `n >= 0` the guard is false on
  entry, so shrinking the pool through `setWorkerCount` returns nil and
  removes nothing. A negative `n` (which `setWorkerCount` never passes)
  removes every worker and then panics on an empty slice.
- `work` keeps going to `Run` after `New` or unmarshalling fails; those
  errors are only logged (workerpool.go:77-87).
- If no blueprint is registered for the record's type, `work` calls `New`
  on a nil interface and panics (workerpool.go:76-77). The deferred `put`
  still returns the token first, but nothing recovers the panic, so it
  ends the whole process.
- `work` gets the job by value, so `Attemps++` and `StartedAt` change only
  its own copy (workerpool.go:73-74).
- `Register` files a type under `Identify()` when it has one. `QueueTo`
  always tags the record with the reflected type name (shigoto.go:122 vs
  shigoto.go:142-143). So a type whose identity differs from its type name
  is never found by a worker. Lemma `Orchestrator.IdentifiedJobNotFound`
  proves this from `QueueTo` to the pool's `work`. Together with the
  unrecovered panic above, the first such job that `work` takes crashes
  the process.
- `newJob` leaves `ExpireAfter` at 0, so no record it builds ever expires
  (`Jobs.NewJobNeverExpires`).
- The checksum of the empty payload is 0, which is also the "skip the
  check" sentinel (`Crc32.Checksum`). A record whose checksum
  happens to be 0 is never checked.
- `expired` only returns an error; it does not mark the job failed (the
  code has a TODO there). `stop()` sets `stopping` from every state, even
  after the loop has stopped.
- `newManager` never sets the manager's back-pointer `s`. `manager.init`
  reads `m.s.log` for each new worker, so it panics as soon as `wcount > 0`.
  `Managers.Manager.Init` models both cases: `s` set and `s` nil.
- manager.go declares `removeWorkers`, `addWorkers` and `setWorkerCount`
  on the listener (manager.go:51-96), word for word as listener.go does.
  Those copies are modelled by the `Listeners.Listener` members.
- `jobContainer` is one package-level map (shigoto.go:11). Every `New`
  resets it through `initialize` (shigoto.go:38), so building a second
  orchestrator wipes what was registered through the first
  (`Orchestrator.SecondNewWipesRegistry`). The model makes it one
  `Registry` object that every `Shigoto` refers to.
- `New` ignores the error `initialize` returns (shigoto.go:33). For the
  default Redis board this never matters: its `connect` ends the process
  through `log.Fatalln` when the ping fails (redis.go:36), before it could
  return the error.
- The listener's workers are the goroutines of worker.go. They never call
  `checkPayload`, and they go on to `Run` even after finding a job expired
  (worker.go:38-41). So, as wired, a corrupted payload is run. The
  checks modelled in `WorkerPools.WorkOutcome` belong to the pool's `work`,
  which no code calls.
- The package does not build as given, and the model reads past the
  mismatches:
  - workerpool.go calls `job.Expired()`, while job.go declares
    `expired()`. They are taken to be the same method.
  - listener.go uses `worker` and `newWorker` (listener.go:19, :57, :164),
    while worker.go declares `Worker` and `NewWorker`. They are taken to
    be the same type and constructor.
  - `Identifier`, `NewRunner` and `QNameNewRunner` are used by shigoto.go
    (shigoto.go:11, :102, :106, :142) but declared by no file.
    interfaces.go declares only `Runner`, `QNamer`, `QNameRunner` and
    `JSONer`, and queuerunner.go:20 declares `QNameRunner` a second time.
    The model takes
    `NewRunner` as a `Runner` that also has `New()`, `Identifier` as a
    type with `Identify() string`, and `QNameNewRunner` as a `NewRunner`
    with `QName()`.
  - `TaskBoard` (taskboard.go:7-10) asks for `Push`, `Pop` and a `Close()`
    with no result. The default Redis board has `QWrite` (redis.go:44) and
    `QRead` (redis.go:54) instead, so `s.taskBoard = &Redis{…}`
    (shigoto.go:52) does not compile. The model takes `QWrite` and `QRead`
    to be the `Push` and `Pop` that `QueueTo` and `Listener.Run` use. Both
    boards' `Close() error` (redis.go:63, file.go:64) is read as
    `TaskBoard.Close()`.
  - `newManager` calls `newListener(queue, s, jch)` (manager.go:24), which
    matches no declaration: listener.go:40 takes `(string, int, *Shigoto)`
    and returns two values. So `Managers.NewManager` takes the listener it
    stores as a parameter.

## Model

| member | source | states |
|---|---|---|
| `Crc32.UpdateInjective` | job.go:59 | For a fixed byte string, the CRC register update is injective in the starting register: the checksum loses nothing about the state before a byte string |
| `Crc32.ChecksumDetectsByteChange` | job.go:101 | Two payloads that differ in exactly one byte always have different `ChecksumIEEE` values |
| `Crc32.Checksum` | job.go:59 | `crc32.ChecksumIEEE` as the bitwise reflected CRC. The checksum of the empty payload is 0, the value `checkPayload` treats as "skip" (job.go:98) |
| `Crc32.CheckValue` | job.go:59 | The checksum of ASCII "123456789" is 0xCBF43926, the standard check value of CRC-32/IEEE |
| `Jobs.FailWithMsg` | job.go:92-95 | For a message without formatting verbs, the only kind the package passes, `failWithMsg` returns a non-nil error carrying exactly that message |
| `Jobs.FailExpired` | job.go:81-86 | The expiry error's message has no formatting verb and starts with the expiry text, so it is never the checksum error |
| `Jobs.FailChecksum` | job.go:88-90 | The checksum error is one fixed error whose message has no formatting verb, so `failWithMsg` keeps it verbatim, and which starts with "checksum " |
| `Jobs.NewJob` | job.go:51-67 | Succeeds exactly when encoding the record succeeds. The record is `Queued`, carries the given queue, type, payload, UUID and queue time, has `ErrCheck` = CRC-32 of the payload, and leaves every other field at its zero value |
| `Jobs.Expired` | job.go:70-78 | `ExpireAfter == 0` gives `(false, nil)` for every clock. Otherwise the job is expired iff now > QueuedAt + ExpireAfter. Expired always comes with a non-nil error, not expired with nil |
| `Jobs.CheckPayload` | job.go:97-106 | `ErrCheck == 0` passes whatever the payload. Otherwise it passes iff `ErrCheck` equals the payload's checksum. A failure always comes with the checksum error, a pass with nil |
| `Jobs.NewJobPassesCheck` | job.go:51-106 | A record built by `newJob` always passes `checkPayload`, whether or not its checksum is 0 |
| `Jobs.NewJobNeverExpires` | job.go:51-78 | A record built by `newJob` is never expired, at any clock reading |
| `Jobs.ExpiryBoundary` | job.go:74-77 | Exactly at the deadline, and at any time before it, the job is not expired. Any instant after it, the job is expired and the error is the expiry error |
| `Jobs.CorruptionDetected` | job.go:97-106 | After any single byte of a `newJob` record's payload is changed, `checkPayload` fails with the checksum error. The exception is a record whose checksum was the sentinel 0, which passes |
| `WorkerPools.WorkerPool.constructor` | workerpool.go:25-37 | For a size `make` accepts, the pool has capacity `n`, holds exactly `n` tokens, and is running |
| `WorkerPools.NewWorkerPool` | workerpool.go:25-37 | A negative `n` panics in `make` and yields no pool. Otherwise the pool has capacity `n`, holds exactly `n` tokens, and is running |
| `WorkerPools.WorkerPool.Get` | workerpool.go:39-41 | Takes exactly one token if one is buffered. On a closed, drained channel it yields nil and takes none |
| `WorkerPools.WorkerPool.Put` | workerpool.go:43-49 | Adds exactly one token unless the pool is closing; while closing it changes nothing |
| `WorkerPools.WorkerPool.Close` | workerpool.go:51-54 | Sets the state to closing and closes the channel, keeping the buffered tokens. Afterwards `Put` adds none. A second `close` panics, after setting the state |
| `WorkerPools.WorkOutcome` | workerpool.go:56-91 | A failed checksum stops `work` before the expiry check, and an expired job stops it before `Attemps++`. `Run` is called iff both checks pass and the type is registered. When it is, `Attemps` is one more and `StartedAt` is the second clock reading, taken after the expiry check. `Run` is called even after `New` or unmarshal errors |
| `WorkerPools.Work` | workerpool.go:56-94 | `work` produces `WorkOutcome` and, through the deferred `put`, gives the token back on every exit path unless the pool is closing |
| `WorkerPools.Dispatch` | workerpool.go:39-57 | `get` followed by `work` on a running pool leaves the token count as it was |
| `Listeners.Listener.constructor` | listener.go:64-74 | The listener struct literal: initializing, no workers, no pending signals, nothing polled |
| `Listeners.Listener.Init` | listener.go:53-62 | Appends exactly `wcount` new workers (none when `wcount` is not positive), starts a fresh job channel, and ends listening |
| `Listeners.NewListener` | listener.go:40-51 | `newListener` never fails and yields a listening listener with exactly `wcount` workers (none when `wcount` is not positive) |
| `Listeners.NewListenerForWeaver` | listener.go:64-74 | `newListenerForWeaver` never fails and yields an initializing listener with no workers |
| `Listeners.Listener.Pause` | listener.go:123-128 | From listening, goes to pausing and raises one pause signal; from any other state, changes nothing |
| `Listeners.Listener.Unpause` | listener.go:130-135 | From paused, goes to resuming and raises one pause signal; from any other state, changes nothing |
| `Listeners.Listener.Stop` | listener.go:137-140 | From every state, goes to stopping and raises one stop signal |
| `Listeners.Listener.Run` | listener.go:103-121 | Calls `Pop` once. It sends a job to `jobsChan` exactly once, and only when `Pop` and unmarshalling both succeed |
| `Listeners.Listener.StopWorkers` | listener.go:189-197 | Every worker is stopped and nothing else changes |
| `Listeners.Listener.Step` | listener.go:76-101 | One iteration of `listen` is `StepSpec`. The stop signal sets `Stopped`, stops every worker and exits. A pause signal moves pausing to paused and resuming to listening, and leaves other states alone. `default` polls only while listening |
| `Listeners.Listener.Listen` | listener.go:76-101 | Running the loop over a feasible schedule of `select` cases gives the `Replay` of those iterations |
| `Listeners.Listener.RemoveWorkers` | listener.go:142-155 | More than the current count gives an error with workers unchanged. Any `n` from 0 up to the count gives nil with workers unchanged, as the loop guard is false on entry. A negative `n` removes every worker and panics |
| `Listeners.Listener.AddWorkers` | listener.go:157-170 | Errs with workers unchanged iff len + n >= 100. Otherwise it appends exactly `n` new workers (none when `n` is not positive) |
| `Listeners.Listener.SetWorkerCount` | listener.go:172-187 | Never panics. A negative `n` errs with workers unchanged. Any `n` up to the current count (equal, or smaller as written) gives nil with workers unchanged. A larger `n` errs with workers unchanged iff n >= 100, and otherwise grows the slice to exactly `n` |
| `Listeners.PauseIdempotent` | listener.go:123-128 | A second `pause()` changes nothing |
| `Listeners.ControlNoOps` | listener.go:123-135 | `pause()` is a no-op exactly outside listening, and `unpause()` exactly outside paused |
| `Listeners.LoopNeverStuck` | listener.go:77-99 | Until `listen` returns, some case of its `select` is always enabled |
| `Listeners.NothingAfterExit` | listener.go:79-82 | Once the loop has taken the stop signal and returned, no further iteration happens |
| `Listeners.PauseResumeRoundTrip` | listener.go:83-92 | Pause, acknowledge, unpause, acknowledge brings a listening listener back to exactly its previous snapshot: same workers, no polls, no jobs sent |
| `Listeners.QuietUntilUnpause` | listener.go:76-140 | From paused, stopping or stopped, no sequence of pause/stop calls and loop iterations polls the task board or sends a job, and the state stays among those three |
| `Listeners.PausedNeverPolls` | listener.go:93-98 | A paused listener reads nothing from the task board until `unpause()` is called |
| `Listeners.StopIsReached` | listener.go:76-101 | With a stop signal pending, the loop exits within one iteration per pending pause signal plus one. When it exits, it is `Stopped` with every worker stopped |
| `Managers.Manager.constructor` | manager.go:18-29 | The `newManager` struct literal: no workers, and the back-pointer to the orchestrator left nil |
| `Managers.Manager.Init` | manager.go:31-39 | With the back-pointer set, appends exactly `wcount` workers and sets the listener listening. With it nil, panics on the first worker, before changing anything |
| `Managers.NewManager` | manager.go:18-29 | As written, `newManager` panics for every positive worker count. Otherwise the manager has no workers and its listener is listening |
| `Orchestrator.RegistryKey` | shigoto.go:141-152 | The registry key is `Identify()` when the type implements `Identifier`, else the reflected type name |
| `Orchestrator.Payload` | shigoto.go:112-116 | The payload is the job's own `JSON()` when it implements `JSONer`, else `json.Marshal` |
| `Orchestrator.QueueTo` | shigoto.go:106-129 | A serialisation or `newJob` error is returned and nothing is pushed. Otherwise exactly one `newJob` record is pushed to the given queue, tagged with the reflected type name, and nil is returned whatever the push did |
| `Orchestrator.Queue` | shigoto.go:102-104 | `Queue(job)` is `QueueTo(job, job.QName())` |
| `Orchestrator.RegisterLastWins` | shigoto.go:141-152 | Two `Register` calls for types with the same key leave only the second entry. Every other key is unchanged |
| `Orchestrator.RegisteredJobRuns` | shigoto.go:106-129 | From `QueueTo` to the pool's `work`: a registered job type without `Identify()`, once queued, is found in the registry and its `Run` is called once, with `Attemps` = 1 |
| `Orchestrator.IdentifiedJobNotFound` | shigoto.go:141-152 | From `QueueTo` to the pool's `work`: a type registered under an `Identify()` that differs from its type name is queued under the type name, so the worker finds no blueprint |
| `Orchestrator.Registry.constructor` | shigoto.go:11 | The one package-level `jobContainer` map, started empty as `initialize` makes it (shigoto.go:38); the nil map before the first `initialize` is not modelled |
| `Orchestrator.Shigoto.constructor` | shigoto.go:24 | The struct after its options ran: it refers to the shared registry and has no listeners |
| `Orchestrator.New` | shigoto.go:23-35 | `New` builds the struct and runs `initialize`: the shared registry is empty and a task board is set, whatever `initialize` returned |
| `Orchestrator.SecondNewWipesRegistry` | shigoto.go:11-47 | A type registered through one orchestrator is gone from the shared registry once a second orchestrator is built |
| `Orchestrator.Shigoto.Initialize` | shigoto.go:37-47 | `initialize` resets the shared registry to empty, for every orchestrator. Without a task board it installs the default one and returns what that board's `Initialize` returned (a free parameter; the Redis board exits the process instead of returning an error), otherwise nil |
| `Orchestrator.Shigoto.Register` | shigoto.go:141-152 | Stores the job in the shared registry under its registry key, overwriting any earlier entry and leaving other keys alone, and returns nil |
| `Orchestrator.Shigoto.ListenQueue` | shigoto.go:131-139 | Always returns nil and appends exactly one new listening listener, with the requested workers, for the given queue |

## Left out

- redis.go and file.go (the task board back ends): network and file I/O. Only the outcome of `Pop` enters the model, as `Poll`; the push is the `Pushed` value `QueueTo` returns.
- cmd/main.go: a code-generation command-line tool, not part of the dispatch path.
- options.go and the option functions in shigoto.go (`WithRedis`, `WithTaskboard`, `WithLogger`): wiring and connecting a back end. `New` takes their result, whether a task board was configured, as a parameter; the panic on a failing option is not modelled.
- interfaces.go, queuerunner.go, taskboard.go and corkboard.go declare interfaces only. Their capabilities are the optional fields of `Runners.Runner`.
- worker.go: the goroutine workers the listener actually starts and feeds through `jobsChan` (listener.go:57-59, 119, 164-166). Their job handling is not modelled; only their `stop()` is, as a worker's `stopped` flag.
- The hand-off from `jobsChan` to the pool's `get` and `work` is assumed; the source does not make it. So `WorkerPools.Dispatch`, `Orchestrator.RegisteredJobRuns` and `Orchestrator.IdentifiedJobNotFound` connect `QueueTo` straight to `WorkerPools.WorkOutcome`.
- `gracefulClose` (listener.go:202-213, manager.go:101-112): a wall-clock busy wait. For the same reason `listener.close` and `manager.close` are left out, since they are built on it and on closing channels.
- `Shigoto.Close` and `stopListeners` (shigoto.go:79-89): not modelled. `stopListeners` sends on each stored listener's `stopChan` without `stop()`'s change of state to `stopping`, so the loop goes straight to `stopped`. On a listener whose loop has already returned, that send has no receiver and blocks forever, so `Close` hangs and the board's `Close` is never reached.
- Goroutines, channel blocking and the random choice among ready `select` cases. The chosen case is a parameter. The pool's `get` and `put` require that their channel operation can proceed; every other blocking operation is taken to complete. Races between methods are not modelled. One example is `put` racing `close`, which the source marks with a FIXME.
- `go listener.listen()` in `ListenQueue` and `manager.init`: starting the loop is not modelled. `Listener.Listen` models the loop itself.
- `s.listeners` in the source holds a copy of each listener struct that shares its channels. The model keeps the listener object itself.
- Logging, `fmt.Println` in `newJob`, and UUID generation. The `time.Format` strings in the expiry message are replaced by decimal nanoseconds.
- JSON encoding of the record and of payloads: the model passes the record value, and encoding outcomes are parameters. `Attemps++` is unbounded, not wrapped at 64 bits.
- Listeners.Listener.AddWorkers: `len(l.workers) + n` (listener.go:159) is an unbounded sum, not Go's 64-bit `int`. For `n` near the largest `int` Go's sum wraps negative, passes the ceiling check and the loop runs on, while the model returns the error. `setWorkerCount` never passes such an `n`.
- Orchestrator.Shigoto.Register: modelled only after `New` has run `initialize`. `jobContainer` (shigoto.go:11) is a nil map until then, and the `log` field is nil too, so `Register` on a `Shigoto` not built by `New` panics (shigoto.go:143-150), while `Orchestrator.Registry.constructor` starts the registry empty and `Register` stores the entry.
- Listeners.Listener.RemoveWorkers: a worker removed on the negative-`n` path is dropped from the slice without its `stopped` flag being recorded, because this model represents workers only by their place in the slice.
- Listeners.Listener.Run: a `Pop` that waits forever on an empty queue (the Redis board uses `BLPop` with no timeout) and a send on `jobsChan` that no worker receives (for instance with 0 workers) are taken to complete. In the source such an iteration never returns to the `select`, so `stop()` and `pause()` block forever.
- Listeners.StopIsReached: counts iterations from a `select` boundary, so a stop signal raised while an iteration is blocked in `Pop` or in the send is not covered.
- Jobs.FailWithMsg: requires a message without `%`. `fmt.Errorf` would rewrite the verbs of any other message (for instance "100%" becomes "100%!(NOVERB)"), and no caller in the package passes one.
- WorkerPools.WorkOutcome: assumes the object `New` returns is non-nil even when `New` also returns an error, and that unmarshalling the payload leaves it non-nil. A nil object from `New`, or a payload that is JSON `null` (what `json.Marshal` gives for a nil pointer job), which `json.Unmarshal` (workerpool.go:82) turns into a nil object without an error, would make `Run` panic instead of being called; the model reports it as run.
- Jobs.Expired: `failExpired` reads the clock again for the "time now" part of its message (job.go:85). The model prints the reading the expiry check used.
