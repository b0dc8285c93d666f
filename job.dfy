/** The job record that travels through a queue, and the integrity and
    expiry checks a worker runs on it before executing it. */
module Jobs {
  import opened Errors
  import Crc32

  type Bytes = Crc32.Bytes

  /** A `time.Time`, as nanoseconds since a fixed epoch; 0 stands for Go's
      zero time. */
  type Time = int

  /** A `time.Duration`, in nanoseconds (it may be negative, as in Go). */
  type Duration = int

  /** `JobStatus` is a plain Go `int`; a decoded record may carry any value.
      These are its named constants. */
  type JobStatus = int
  const Queued: JobStatus := 1
  const Running: JobStatus := 2
  const Canceled: JobStatus := 3
  const Failed: JobStatus := 4
  const Finished: JobStatus := 5

  /** The `Job` struct (the counter keeps the source's spelling, `Attemps`). */
  datatype Job = Job(
    uuid: string,
    qName: string,
    status: JobStatus,
    attemps: int,
    maxAttemps: int,
    maxRunTime: Duration,
    expireAfter: Duration,
    queuedAt: Time,
    startedAt: Time,
    failedAt: Time,
    finishedAt: Time,
    payloadType: string,
    payload: Bytes,
    errCheck: bv32)

  /** The pair `(bool, error)` that `expired` and `checkPayload` return. */
  datatype Verdict = Verdict(flag: bool, err: Option<Error>)

  /** A message in which `fmt.Errorf` finds no formatting verb, so that
      it comes out of `Errorf` unchanged. */
  predicate NoFormatVerbs(msg: string) {
    forall k :: 0 <= k < |msg| ==> msg[k] != '%'
  }

  /** `failWithMsg`: `fmt.Errorf(msg)` passes `msg` as the format string,
      so only a message without verbs is kept as it is; every caller in the
      package passes one.  The result is never nil. */
  function FailWithMsg(msg: string): (e: Error)
    requires NoFormatVerbs(msg)
    ensures e.msg == msg && NoFormatVerbs(e.msg)
  {
    Error(msg)
  }

  // "job has expired. queue time: ", in pieces short enough for the
  // verifier to read character by character
  const ExpiredPrefix: string := "job has " + "expired. " + "queue time: "

  /** `failExpired`; the three timestamps are written as decimal
      nanoseconds instead of with `time.Format`.  Its message starts with
      the expiry text, so it is never the checksum error. */
  function FailExpired(j: Job, now: Time): (e: Error)
    ensures NoFormatVerbs(e.msg)
    ensures |ExpiredPrefix| <= |e.msg| && e.msg[..|ExpiredPrefix|] == ExpiredPrefix
    ensures e != FailChecksum()
  {
    var msg := ExpiredPrefix + IntToDecimal(j.queuedAt) +
               " expireAfter time: " + IntToDecimal(Deadline(j)) +
               " time now: " + IntToDecimal(now);
    assert msg[..|ExpiredPrefix|] == ExpiredPrefix;
    assert msg[0] == 'j' != FailChecksum().msg[0];
    FailWithMsg(msg)
  }

  const ChecksumPrefix: string := "checksum "

  /** `failChecksum`: one fixed error, whose message has no verb and
      starts with the checksum text. */
  function FailChecksum(): (e: Error)
    ensures NoFormatVerbs(e.msg)
    ensures |ChecksumPrefix| <= |e.msg| && e.msg[..|ChecksumPrefix|] == ChecksumPrefix
  {
    // "checksum hash for payload does not match the current one", in
    // pieces short enough for the verifier to read character by character
    var msg := ChecksumPrefix + "hash " + "for payload " + "does not " + "match the " + "current one";
    FailWithMsg(msg)
  }

  /** The instant after which a job counts as expired. */
  function Deadline(j: Job): Time {
    j.queuedAt + j.expireAfter
  }

  /** `newJob(payload, ptype, queue)`: the record that is serialised for
      the queue.  The fresh UUID and the clock reading are parameters, and
      `encodeErr` is what `json.Marshal` of the record returned. */
  function NewJob(payload: Bytes, ptype: string, queue: string,
                  uuid: string, now: Time, encodeErr: Option<Error>): (r: Result<Job>)
    ensures r.Err? <==> encodeErr.Some?
    ensures r.Err? ==> r.error == encodeErr.value
    ensures r.Ok? ==> var j := r.value;
      && j.uuid == uuid && j.qName == queue && j.status == Queued
      && j.queuedAt == now && j.payloadType == ptype && j.payload == payload
      && j.errCheck == Crc32.Checksum(payload)
      && j.attemps == 0 && j.maxAttemps == 0 && j.maxRunTime == 0 && j.expireAfter == 0
      && j.startedAt == 0 && j.failedAt == 0 && j.finishedAt == 0
  {
    match encodeErr
    case Some(e) => Err(e)
    case None =>
      Ok(Job(uuid, queue, Queued, 0, 0, 0, 0, now, 0, 0, 0, ptype, payload,
             Crc32.Checksum(payload)))
  }

  /** `expired()` with the clock read as `now`. */
  function Expired(j: Job, now: Time): (v: Verdict)
    ensures j.expireAfter == 0 ==> v == Verdict(false, None)
    ensures j.expireAfter != 0 ==> (v.flag <==> now > j.queuedAt + j.expireAfter)
    ensures v.flag ==> v.err.Some?
    ensures !v.flag ==> v.err.None?
  {
    if j.expireAfter == 0 then Verdict(false, None)
    else if now > Deadline(j) then Verdict(true, Some(FailExpired(j, now)))
    else Verdict(false, None)
  }

  /** `checkPayload()`. */
  function CheckPayload(j: Job): (v: Verdict)
    ensures j.errCheck == 0 ==> v == Verdict(true, None)
    ensures j.errCheck != 0 ==> (v.flag <==> j.errCheck == Crc32.Checksum(j.payload))
    ensures v.flag <==> v.err.None?
    ensures !v.flag ==> v.err == Some(FailChecksum())
  {
    if j.errCheck == 0 then Verdict(true, None)
    else if j.errCheck == Crc32.Checksum(j.payload) then Verdict(true, None)
    else Verdict(false, Some(FailChecksum()))
  }

  /** A record built by `newJob` passes `checkPayload`, whether or not the
      checksum of its payload happens to be 0. */
  lemma NewJobPassesCheck(payload: Bytes, ptype: string, queue: string, uuid: string, now: Time)
    ensures var r := NewJob(payload, ptype, queue, uuid, now, None);
      r.Ok? && CheckPayload(r.value) == Verdict(true, None)
  {
  }

  /** `newJob` leaves `ExpireAfter` at its zero value, so a record it built
      never expires, whatever the clock says. */
  lemma NewJobNeverExpires(payload: Bytes, ptype: string, queue: string, uuid: string,
                           created: Time, now: Time)
    ensures var r := NewJob(payload, ptype, queue, uuid, created, None);
      r.Ok? && Expired(r.value, now) == Verdict(false, None)
  {
  }

  /** The expiry boundary: not expired at the deadline or before it,
      expired at any instant after it. */
  lemma ExpiryBoundary(j: Job, eps: int)
    requires j.expireAfter != 0 && eps > 0
    ensures !Expired(j, Deadline(j)).flag
    ensures !Expired(j, Deadline(j) - eps).flag
    ensures Expired(j, Deadline(j) + eps).flag
    ensures Expired(j, Deadline(j) + eps).err == Some(FailExpired(j, Deadline(j) + eps))
  {
  }

  /** Corrupting any one byte of the payload of a record built by `newJob`
      makes `checkPayload` fail, unless the original payload's checksum was
      the skip sentinel 0, in which case the check passes whatever the
      payload. */
  lemma CorruptionDetected(pre: Bytes, x: bv8, y: bv8, suf: Bytes,
                           ptype: string, queue: string, uuid: string, now: Time)
    requires x != y
    ensures var r := NewJob(pre + [x] + suf, ptype, queue, uuid, now, None);
      var corrupted := r.value.(payload := pre + [y] + suf);
      && (r.value.errCheck != 0 ==> CheckPayload(corrupted) == Verdict(false, Some(FailChecksum())))
      && (r.value.errCheck == 0 ==> CheckPayload(corrupted) == Verdict(true, None))
  {
    Crc32.ChecksumDetectsByteChange(pre, x, y, suf);
  }
}
