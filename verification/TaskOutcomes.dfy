/** What the handlers and the job functions leave in the store, in plain values. */
module TaskOutcomes {
  import opened Tasks
  import opened Polling
  import opened TaskStore
  import opened Compute

  /** None of the next `n` Redis calls raises. */
  predicate Quiet(raises: nat -> bool, from: nat, n: nat) {
    forall i: nat :: from <= i < from + n ==> !raises(i)
  }

  /** `r` is what a record becomes that was `was` before the work: only these four fields may differ. */
  predicate Became(was: Record, r: Record, status: Status, at: Time, error: Option<string>) {
    r == Record(was.taskId, status, was.operation, was.resourceId, was.createdAt, at, error, was.result)
  }

  /** The store finds, under `k`, a record that became this. */
  predicate Ends(w: Redis, later: Redis, k: TaskId, status: Status, at: Time, error: Option<string>)
    requires w.Lookup(k).Some?
  {
    later.Lookup(k).Some? && Became(w.Lookup(k).value, later.Lookup(k).value, status, at, error)
  }

  // ------------------------------------------------------------------ requests

  /**
   A request that returned left its job and, under the id the job carries, its PENDING record; one that
   could not enqueue left the record alone; one that could not record left nothing.
   */
  lemma RequestLeaves(ttl: Time, raises: nat -> bool, w: Redis, queue: seq<Job>, pooled: bool, op: Operation, job: Job)
    requires ttl > 0.0
    ensures var o := Requested(ttl, raises, w, queue, pooled, op, job);
      && (o.ok <==> !raises(w.calls) && pooled)
      && o.queue == (if o.ok then queue + [job] else queue)
      && (if raises(w.calls) then o.redis.data == w.data
          else o.redis.Lookup(job.task) ==
               Some(Record(job.task, PENDING, op, Some(job.vm), w.now, w.now, None, None)))
  {
  }

  /** A snapshot ends SUCCESS with the image's id; when the image call raises its record stays PENDING. */
  lemma SnapshotLeaves(ttl: Time, raises: nat -> bool, w: Redis, vm: VmId, uuid: TaskId, image: Reply)
    requires ttl > 0.0 && Quiet(raises, w.calls, 3) && (image.Raise? || image.Answer?)
    ensures var o := Snapped(ttl, raises, w, vm, uuid, image);
      && (o.raised <==> image.Raise?)
      && o.redis.Lookup(uuid) ==
         Some(Record(uuid, if image.Raise? then PENDING else SUCCESS, CREATE_SNAPSHOT, Some(vm), w.now, w.now, None,
                     if image.Raise? then None else Some(image.id)))
  {
  }

  // ------------------------------------------------------------------ jobs

  /** The record is RUNNING while the job works. */
  lemma JobRuns(ttl: Time, raises: nat -> bool, w: Redis, k: TaskId)
    requires ttl > 0.0 && Quiet(raises, w.calls, 2) && w.Lookup(k).Some?
    ensures var o := Updated(ttl, raises, w, k, STARTED);
      !o.raised && Ends(w, o.redis, k, RUNNING, w.now, w.Lookup(k).value.error)
  {
  }

  /** A poll ends as its answers say: SUCCESS on ACTIVE, FAILED on ERROR or when the time is up, each with its text. */
  lemma PollEnds(ttl: Time, raises: nat -> bool, w: Redis, k: TaskId, timeout: int, nova: nat -> Reply, work: Time,
                 n: nat, verdict: Change)
    requires Quiet(raises, w.calls, 4) && 0.0 <= work < ttl && w.Lookup(k).Some? && w.Lookup(k).value.error == None
    requires StopsWith(timeout, nova, n, verdict)
    ensures var o := Updated(ttl, raises, Updated(ttl, raises, w, k, STARTED).redis.After(work), k, verdict);
      && !o.raised
      && ((exists i: nat :: i < (timeout + 4) / 5 && nova(i) == Seen(ACTIVE) && StillBuilding(nova, i)) ==>
            Ends(w, o.redis, k, SUCCESS, w.now + work, None))
      && ((exists i: nat :: i < (timeout + 4) / 5 && nova(i) == Seen(ERROR) && StillBuilding(nova, i)) ==>
            Ends(w, o.redis, k, FAILED, w.now + work, Some("VM entered ERROR state.")))
      && ((forall i: nat :: i < (timeout + 4) / 5 ==> nova(i) != Seen(ACTIVE) && nova(i) != Seen(ERROR)) ==>
            Ends(w, o.redis, k, FAILED, w.now + work, Some("Timeout waiting for VM to become ACTIVE.")))
  {
    PollAnswers(timeout, nova, n, verdict);
    JobRuns(ttl, raises, w, k);
  }

  /** A delete ends SUCCESS when Nova's call returned, and FAILED with the text of what it raised. */
  lemma DeleteEnds(ttl: Time, raises: nat -> bool, w: Redis, k: TaskId, nova: Reply, work: Time, redisError: string)
    requires Quiet(raises, w.calls, 4) && 0.0 <= work < ttl && w.Lookup(k).Some? && w.Lookup(k).value.error == None
    ensures var running := Updated(ttl, raises, w, k, STARTED).redis;
      var o := Concluded(ttl, raises, running.After(work), k, Failure(nova), redisError);
      && !o.raised
      && (!nova.Raise? ==> Ends(w, o.redis, k, SUCCESS, w.now + work, None))
      && (nova.Raise? ==> Ends(w, o.redis, k, FAILED, w.now + work, Some(nova.message)))
  {
    JobRuns(ttl, raises, w, k);
  }

  /** A resize ends as the first of its two calls that raised says; the confirmation comes 5 s after the resize. */
  lemma ResizeEnds(ttl: Time, raises: nat -> bool, w: Redis, k: TaskId, resize: Reply, resizeDelay: Time,
                   confirm: Reply, confirmDelay: Time, redisError: string)
    requires Quiet(raises, w.calls, 4) && w.Lookup(k).Some? && w.Lookup(k).value.error == None
    requires resizeDelay >= 0.0 && confirmDelay >= 0.0 && resizeDelay + 5.0 + confirmDelay < ttl
    ensures var running := Updated(ttl, raises, w, k, STARTED).redis;
      var o := Concluded(ttl, raises, running.After(ResizeTime(resize, resizeDelay, confirmDelay)), k,
                         ResizeFailure(resize, confirm), redisError);
      && !o.raised
      && (resize.Raise? ==> Ends(w, o.redis, k, FAILED, w.now + resizeDelay, Some(resize.message)))
      && (!resize.Raise? && confirm.Raise? ==>
            Ends(w, o.redis, k, FAILED, w.now + resizeDelay + 5.0 + confirmDelay, Some(confirm.message)))
      && (!resize.Raise? && !confirm.Raise? ==>
            Ends(w, o.redis, k, SUCCESS, w.now + resizeDelay + 5.0 + confirmDelay, None))
  {
    JobRuns(ttl, raises, w, k);
  }

  /** Work done, but the SUCCESS update raises, in its GET or its SET: the record ends FAILED with that text. */
  lemma RedisErrorEnds(ttl: Time, raises: nat -> bool, w: Redis, k: TaskId, work: Time, redisError: string, get: bool)
    requires Quiet(raises, w.calls, 2) && 0.0 <= work < ttl && w.Lookup(k).Some? && w.Lookup(k).value.error == None
    requires raises(w.calls + 2) == get
    requires if get then Quiet(raises, w.calls + 3, 2) else raises(w.calls + 3) && Quiet(raises, w.calls + 4, 2)
    ensures var running := Updated(ttl, raises, w, k, STARTED).redis;
      var o := Concluded(ttl, raises, running.After(work), k, None, redisError);
      !o.raised && Ends(w, o.redis, k, FAILED, w.now + work, Some(redisError))
  {
    JobRuns(ttl, raises, w, k);
  }

  /** A poll that asks n times sleeps 5 s before each of them. */
  lemma {:induction false} PollTakesItsTime(delay: nat -> Time, n: nat)
    requires forall m: nat :: m < n ==> delay(m) >= 0.0
    ensures RoundsTime(delay, n) >= 5.0 * n as real
    ensures (forall m: nat :: m < n ==> delay(m) == 0.0) ==> RoundsTime(delay, n) == 5.0 * n as real
  {
    if n > 0 {
      PollTakesItsTime(delay, n - 1);
    }
  }
}
