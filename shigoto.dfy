/** The orchestrator: the registry of job types, enqueueing, and the list
    of running listeners. */
module Orchestrator {
  import opened Errors
  import opened Jobs
  import opened Runners
  import opened Listeners
  import WorkerPools
  import Crc32

  /** The key `Register` files a job type under: its `Identify()` when it
      implements `Identifier`, else its reflected type name. */
  function RegistryKey(j: Runner): (k: string)
    ensures j.identity.Some? ==> k == j.identity.value
    ensures j.identity.None? ==> k == j.typeName
  {
    match j.identity
    case Some(id) => id
    case None => j.typeName
  }

  /** The payload `QueueTo` serialises: the job's own `JSON()` when it
      implements `JSONer`, else `json.Marshal`. */
  function Payload(j: Runner): (r: Result<Crc32.Bytes>)
    ensures j.customJson.Some? ==> r == j.customJson.value
    ensures j.customJson.None? ==> r == j.marshal
  {
    match j.customJson
    case Some(out) => out
    case None => j.marshal
  }

  /** What `QueueTo` does: give up with an error, or push one record. */
  datatype Enqueue = Rejected(err: Error) | Pushed(record: Job, queue: string)
  {
    /** The error `QueueTo` returns: nil once it has pushed, whatever
        the push itself returned. */
    function Returned(): Option<Error> {
      match this
      case Rejected(e) => Some(e)
      case Pushed(_, _) => None
    }
  }

  /** `QueueTo(job, queue)`, with the record's UUID, the clock reading and
      the outcome of encoding the record as parameters. */
  function QueueTo(j: Runner, queue: string, uuid: string, now: Time,
                   encodeErr: Option<Error>): (r: Enqueue)
    ensures Payload(j).Err? ==> r == Rejected(Payload(j).error)
    ensures Payload(j).Ok? && encodeErr.Some? ==> r == Rejected(encodeErr.value)
    ensures r.Pushed? <==> Payload(j).Ok? && encodeErr.None?
    ensures r.Pushed? ==> r.queue == queue && r.record.qName == queue
    ensures r.Pushed? ==> r.record.payloadType == j.typeName && r.record.payload == Payload(j).value
    ensures r.Pushed? ==> r.record == NewJob(Payload(j).value, j.typeName, queue, uuid, now, None).value
    ensures r.Returned().None? <==> r.Pushed?
  {
    match Payload(j)
    case Err(e) => Rejected(e)
    case Ok(payload) =>
      match NewJob(payload, j.typeName, queue, uuid, now, encodeErr)
      case Err(e) => Rejected(e)
      case Ok(record) => Pushed(record, queue)
  }

  /** `Queue(job)`: only for job types that implement `QNamer`. */
  function Queue(j: Runner, uuid: string, now: Time, encodeErr: Option<Error>): (r: Enqueue)
    requires j.queueName.Some?
    ensures r == QueueTo(j, j.queueName.value, uuid, now, encodeErr)
    ensures r.Pushed? ==> r.queue == j.queueName.value
  {
    QueueTo(j, j.queueName.value, uuid, now, encodeErr)
  }

  /** End to end, for a job type without `Identify()`: register it, queue
      it, and the worker that takes the record finds the blueprint and
      calls `Run` exactly once, with the attempt counter at 1. */
  lemma RegisteredJobRuns(m: map<string, Runner>, j: Runner, queue: string, uuid: string,
                          queuedAt: Time, now: Time, startedAt: Time,
                          newErr: Option<Error>, unmarshalErr: Option<Error>, runErr: Option<Error>)
    requires j.identity.None? && Payload(j).Ok?
    ensures var e := QueueTo(j, queue, uuid, queuedAt, None);
      && e.Pushed?
      && var r := WorkerPools.WorkOutcome(e.record, now, startedAt, m[RegistryKey(j) := j],
                                          newErr, unmarshalErr, runErr);
      && r.RunCalled() && r.job.attemps == 1 && r.job.startedAt == startedAt
  {
    var e := QueueTo(j, queue, uuid, queuedAt, None);
    NewJobPassesCheck(Payload(j).value, j.typeName, queue, uuid, queuedAt);
    NewJobNeverExpires(Payload(j).value, j.typeName, queue, uuid, queuedAt, now);
  }

  /** End to end, for a job type whose `Identify()` differs from its type
      name: `Register` files it under the identity but `QueueTo` tags the
      record with the type name, so a worker with only this registration
      finds no blueprint and never calls `Run`. */
  lemma IdentifiedJobNotFound(j: Runner, queue: string, uuid: string,
                              queuedAt: Time, now: Time, startedAt: Time,
                              newErr: Option<Error>, unmarshalErr: Option<Error>, runErr: Option<Error>)
    requires j.identity.Some? && j.identity.value != j.typeName && Payload(j).Ok?
    ensures var e := QueueTo(j, queue, uuid, queuedAt, None);
      && e.Pushed?
      && var reg := map[][RegistryKey(j) := j];
      && WorkerPools.WorkOutcome(e.record, now, startedAt, reg, newErr, unmarshalErr, runErr).NoBlueprint?
  {
    NewJobPassesCheck(Payload(j).value, j.typeName, queue, uuid, queuedAt);
    NewJobNeverExpires(Payload(j).value, j.typeName, queue, uuid, queuedAt, now);
  }

  /** The package-level map `jobContainer`.  It is one object for the
      whole process: every orchestrator refers to it, resets it when it is
      built, and registers into it, and every worker reads it. */
  class Registry {
    var blueprints: map<string, Runner>

    constructor ()
      ensures blueprints == map[]
    {
      blueprints := map[];
    }
  }

  /** `Shigoto`.  `registry` is the process-wide `jobContainer`;
      `boardSet` says whether a task board has been configured. */
  class Shigoto {
    const registry: Registry
    var boardSet: bool
    var listeners: seq<Listener>

    /** The struct after its options ran: `boardSet` tells whether one of
        them configured a task board.  The registry is left as it is. */
    constructor (registry: Registry, boardSet: bool)
      ensures this.registry == registry && this.boardSet == boardSet && listeners == []
    {
      this.registry := registry;
      this.boardSet := boardSet;
      listeners := [];
    }

    /** `initialize()`: resets the shared registry; without a task board it
        configures the default Redis one and returns what that board's
        `Initialize` returned.  `connectErr` is a free parameter standing
        for that outcome: the Redis board in the source ends the process
        on a failed ping instead of returning an error, so there it is
        always nil. */
    method Initialize(connectErr: Option<Error>) returns (err: Option<Error>)
      modifies registry, this`boardSet
      ensures registry.blueprints == map[] && boardSet
      ensures err == if old(boardSet) then None else connectErr
    {
      registry.blueprints := map[];
      if !boardSet {
        boardSet := true;
        return connectErr;
      }
      return None;
    }

    /** `Register(j)`: never fails. */
    method Register(j: Runner) returns (err: Option<Error>)
      modifies registry
      ensures err.None?
      ensures registry.blueprints == old(registry.blueprints)[RegistryKey(j) := j]
      ensures RegistryKey(j) in registry.blueprints && registry.blueprints[RegistryKey(j)] == j
    {
      match j.identity
      case Some(id) =>
        registry.blueprints := registry.blueprints[id := j];
        return None;
      case None =>
        var name := j.typeName;
        registry.blueprints := registry.blueprints[name := j];
        return None;
    }

    /** `ListenQueue(queue, workers)`: `newListener` never fails, so a new
        listening listener with its workers is always appended (starting
        its loop is not modelled). */
    method ListenQueue(queue: string, workers: int) returns (err: Option<Error>)
      modifies this`listeners
      ensures err.None?
      ensures |listeners| == |old(listeners)| + 1 && listeners[..|old(listeners)|] == old(listeners)
      ensures var l := listeners[|old(listeners)|];
        fresh(l) && l.queue == queue &&
        l.View() == Snapshot(Listening, FreshWorkers(workers), [], 0, 0, 0, false)
    {
      var l, _ := NewListener(queue, workers);
      listeners := listeners + [l];
      return None;
    }
  }

  /** `New(opts...)` once its options have run: builds the struct and
      calls `initialize`, discarding the error it returns. */
  method New(registry: Registry, boardSet: bool, connectErr: Option<Error>) returns (s: Shigoto)
    modifies registry
    ensures fresh(s) && s.registry == registry
    ensures registry.blueprints == map[] && s.boardSet && s.listeners == []
  {
    s := new Shigoto(registry, boardSet);
    var _ := s.Initialize(connectErr);
  }

  /** Registering a second job type under a key that is already taken
      replaces the first (last write wins) and leaves every other key as
      it was. */
  method RegisterLastWins(s: Shigoto, a: Runner, b: Runner)
    requires RegistryKey(a) == RegistryKey(b)
    modifies s.registry
    ensures s.registry.blueprints == old(s.registry.blueprints)[RegistryKey(b) := b]
    ensures forall k :: k in old(s.registry.blueprints) && k != RegistryKey(b) ==>
      k in s.registry.blueprints && s.registry.blueprints[k] == old(s.registry.blueprints)[k]
  {
    var _ := s.Register(a);
    var _ := s.Register(b);
  }

  /** Two orchestrators share one registry, so building the second one
      wipes what was registered through the first. */
  method SecondNewWipesRegistry(registry: Registry, j: Runner, connectErr: Option<Error>)
    returns (first: Shigoto, second: Shigoto)
    modifies registry
    ensures first.registry == second.registry == registry
    ensures RegistryKey(j) !in first.registry.blueprints
  {
    first := New(registry, false, connectErr);
    var _ := first.Register(j);
    assert RegistryKey(j) in registry.blueprints;
    second := New(registry, true, None);
  }
}
