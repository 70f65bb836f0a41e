/** The compute client: API handlers that record and enqueue, and job functions that work and record. */
module Compute {
  import opened Tasks
  import opened Polling
  import opened TaskStore

  // ------------------------------------------------------------------ specification of the job functions

  /** The time the first `n` rounds of a poll take: one sleep and one call to Nova each. */
  function RoundsTime(delay: nat -> Time, n: nat): Time {
    if n == 0 then 0.0 else RoundsTime(delay, n - 1) + POLL_INTERVAL_SECONDS as real + delay(n - 1)
  }

  /** The tail of do_delete and do_resize: SUCCESS inside the try, FAILED from its handler. */
  function Concluded(ttl: Time, raises: nat -> bool, w: Redis, k: TaskId, failure: Option<string>, redisError: string)
      : Outcome
  {
    match failure
    case Some(message) => Updated(ttl, raises, w, k, Failed(message))
    case None =>
      var o := Updated(ttl, raises, w, k, SUCCEEDED);
      if o.raised then Updated(ttl, raises, o.redis, k, Failed(redisError)) else o
  }

  function Failure(r: Reply): Option<string> {
    if r.Raise? then Some(r.message) else None
  }

  /** do_resize: the confirmation is asked for only after an accepted resize, one pause later. */
  function ResizeFailure(resize: Reply, confirm: Reply): Option<string> {
    if resize.Raise? then Some(resize.message) else Failure(confirm)
  }

  function ResizeTime(resize: Reply, resizeDelay: Time, confirmDelay: Time): Time {
    if resize.Raise? then resizeDelay else resizeDelay + RESIZE_CONFIRM_DELAY_SECONDS + confirmDelay
  }

  /** Arguments of an enqueued job; the job function's name is the kind. */
  datatype JobKind = POLL_UNTIL_ACTIVE | DO_DELETE | DO_RESIZE(flavor: nat)
  datatype Job = Job(kind: JobKind, vm: VmId, task: TaskId)

  /** What a request leaves behind: the store, the queue, and whether it returned normally. */
  datatype Placed = Placed(redis: Redis, queue: seq<Job>, ok: bool)

  function Recorded(ttl: Time, raises: nat -> bool, w: Redis, r: Record): Outcome {
    if raises(w.calls) then Outcome(w.Called(), true) else Outcome(w.Called().Put(r.taskId, r, ttl), false)
  }

  /** The record first, then the job; the record stays, PENDING, when there is no pool or enqueueing raises. */
  function Requested(ttl: Time, raises: nat -> bool, w: Redis, queue: seq<Job>, pooled: bool, op: Operation, job: Job)
      : Placed
  {
    var o := Recorded(ttl, raises, w, NewRecord(job.task, op, job.vm, w.now));
    if o.raised || !pooled then Placed(o.redis, queue, false) else Placed(o.redis, queue + [job], true)
  }

  /** The record first, then the image; the record stays, PENDING, when the image call raises. */
  function Snapped(ttl: Time, raises: nat -> bool, w: Redis, vm: VmId, uuid: TaskId, image: Reply): Outcome {
    var o := Recorded(ttl, raises, w, NewRecord(uuid, CREATE_SNAPSHOT, vm, w.now));
    if o.raised || !image.Answer? then o.(raised := true)
    else Updated(ttl, raises, o.redis, uuid, Change(SUCCESS, None, None, Some(image.id)))
  }

  datatype Response<T> = Ok(value: T) | Error(message: string)

  class ComputeClient {
    const store: RedisTaskStore
    const hasPool: bool
    var queue: seq<Job>

    constructor (store: RedisTaskStore, hasPool: bool)
      ensures this.store == store && this.hasPool == hasPool && queue == []
    {
      this.store := store;
      this.hasPool := hasPool;
      this.queue := [];
    }

    // ---------------------------------------------------------------- job functions

    /** `nova(n)` and `delay(n)`: the answer to the n-th get_vm and the time it took. */
    method PollUntilActive(task: TaskId, timeout: int, nova: nat -> Reply, delay: nat -> Time)
        returns (raised: bool, asked: nat, slept: int, verdict: Change)
      modifies store
      ensures var running := Updated(store.ttl, store.raises, old(store.View()), task, STARTED);
        if running.raised then
          raised && asked == 0 && store.View() == running.redis
        else
          && StopsWith(timeout, nova, asked, verdict)
          && Outcome(store.View(), raised) ==
             Updated(store.ttl, store.raises,
                     running.redis.After(RoundsTime(delay, asked)), task, verdict)
      ensures asked <= Rounds(timeout) && slept == Slept(asked)
      ensures timeout > 0 ==> slept < timeout + POLL_INTERVAL_SECONDS
    {
      asked, slept, verdict := 0, 0, TIMED_OUT;
      raised := store.Update(task, STARTED);
      if raised {
        return;
      }
      ghost var begun := store.View();
      assert begun == Updated(store.ttl, store.raises, old(store.View()), task, STARTED).redis;
      var elapsed := 0;
      while elapsed < timeout
        invariant elapsed == slept == Slept(asked) && asked <= Rounds(timeout)
        invariant timeout > 0 ==> slept < timeout + POLL_INTERVAL_SECONDS
        invariant Undecided(nova, asked)
        invariant store.View() == begun.After(RoundsTime(delay, asked))
        decreases timeout - elapsed
      {
        GuardInRounds(timeout, asked);
        store.Wait(POLL_INTERVAL_SECONDS as real);
        slept := slept + POLL_INTERVAL_SECONDS;
        elapsed := elapsed + POLL_INTERVAL_SECONDS;
        var vm := nova(asked);
        store.Wait(delay(asked));
        asked := asked + 1;
        assert store.View() == begun.After(RoundsTime(delay, asked));
        if vm.Raise? {
          continue;
        }
        if vm == Seen(ACTIVE) {
          verdict := SUCCEEDED;
          raised := store.Update(task, verdict);
          return;
        }
        if vm == Seen(ERROR) {
          verdict := Failed("VM entered ERROR state.");
          raised := store.Update(task, verdict);
          return;
        }
      }
      GuardInRounds(timeout, asked);
      raised := store.Update(task, verdict);
    }

    method DoDelete(task: TaskId, nova: Reply, delay: Time, redisError: string) returns (raised: bool)
      modifies store
      ensures var running := Updated(store.ttl, store.raises, old(store.View()), task, STARTED);
        Outcome(store.View(), raised) ==
          if running.raised then running
          else Concluded(store.ttl, store.raises, running.redis.After(delay), task,
                         Failure(nova), redisError)
    {
      raised := store.Update(task, STARTED);
      if raised {
        return;
      }
      store.Wait(delay);
      if !nova.Raise? {
        raised := store.Update(task, SUCCEEDED);
        if raised {
          raised := store.Update(task, Failed(redisError));
        }
      } else {
        raised := store.Update(task, Failed(nova.message));
      }
    }

    method DoResize(task: TaskId, resize: Reply, resizeDelay: Time, confirm: Reply, confirmDelay: Time,
                    redisError: string)
        returns (raised: bool, confirmed: bool)
      modifies store
      ensures var running := Updated(store.ttl, store.raises, old(store.View()), task, STARTED);
        && confirmed == (!running.raised && !resize.Raise?)
        && Outcome(store.View(), raised) ==
          if running.raised then running
          else Concluded(store.ttl, store.raises,
                         running.redis.After(ResizeTime(resize, resizeDelay, confirmDelay)), task,
                         ResizeFailure(resize, confirm), redisError)
    {
      confirmed := false;
      raised := store.Update(task, STARTED);
      if raised {
        return;
      }
      ghost var begun := store.View();
      store.Wait(resizeDelay);
      if resize.Raise? {
        raised := store.Update(task, Failed(resize.message));
        return;
      }
      store.Wait(RESIZE_CONFIRM_DELAY_SECONDS);
      confirmed := true;
      store.Wait(confirmDelay);
      assert store.View() == begun.After(ResizeTime(resize, resizeDelay, confirmDelay));
      if confirm.Raise? {
        raised := store.Update(task, Failed(confirm.message));
        return;
      }
      raised := store.Update(task, SUCCEEDED);
      if raised {
        raised := store.Update(task, Failed(redisError));
      }
    }

    // ---------------------------------------------------------------- request handlers

    method EnqueueJob(job: Job, raises: bool) returns (raised: bool)
      modifies this`queue
      ensures raised == (!hasPool || raises)
      ensures queue == if raised then old(queue) else old(queue) + [job]
    {
      raised := true;
      if !hasPool {
        return;
      }
      if !raises {
        queue := queue + [job];
        raised := false;
      }
    }

    /** The shared tail of create_vm, delete_vm and resize_vm: record first, then enqueue. */
    method RecordAndEnqueue(op: Operation, job: Job, enqueueRaises: bool) returns (r: Response<Record>)
      modifies this`queue, store
      ensures Placed(store.View(), queue, r.Ok?) ==
        Requested(store.ttl, store.raises, old(store.View()), old(queue), hasPool && !enqueueRaises, op, job)
      ensures r.Ok? ==> r.value == NewRecord(job.task, op, job.vm, old(store.now))
    {
      var raised, record := store.Create(op, job.vm, job.task);
      if raised {
        return Error("redis");
      }
      raised := EnqueueJob(job, enqueueRaises);
      if raised {
        return Error("enqueue");
      }
      return Ok(record);
    }

    /** `nova` is the answer to create_server; it names the VM. */
    method CreateVm(nova: Reply, uuid: TaskId, enqueueRaises: bool) returns (r: Response<(VmId, Record)>)
      requires nova.Raise? || nova.Answer?
      modifies this`queue, store
      ensures Placed(store.View(), queue, r.Ok?) ==
        if nova.Raise? then Placed(old(store.View()), old(queue), false)
        else Requested(store.ttl, store.raises, old(store.View()), old(queue), hasPool && !enqueueRaises,
                       CREATE_VM, Job(POLL_UNTIL_ACTIVE, nova.id, uuid))
      ensures r.Ok? ==> r.value == (nova.id, NewRecord(uuid, CREATE_VM, nova.id, old(store.now)))
    {
      if nova.Raise? {
        return Error(nova.message);
      }
      var task := RecordAndEnqueue(CREATE_VM, Job(POLL_UNTIL_ACTIVE, nova.id, uuid), enqueueRaises);
      if task.Error? {
        return Error(task.message);
      }
      return Ok((nova.id, task.value));
    }

    /** `nova` is the answer to get_server, here and in ResizeVm. */
    method DeleteVm(vm: VmId, nova: Reply, uuid: TaskId, enqueueRaises: bool) returns (r: Response<Record>)
      modifies this`queue, store
      ensures Placed(store.View(), queue, r.Ok?) ==
        if nova.Raise? then Placed(old(store.View()), old(queue), false)
        else Requested(store.ttl, store.raises, old(store.View()), old(queue), hasPool && !enqueueRaises,
                       DELETE_VM, Job(DO_DELETE, vm, uuid))
      ensures r.Ok? ==> r.value == NewRecord(uuid, DELETE_VM, vm, old(store.now))
    {
      if nova.Raise? {
        return Error(nova.message);
      }
      r := RecordAndEnqueue(DELETE_VM, Job(DO_DELETE, vm, uuid), enqueueRaises);
    }

    method ResizeVm(vm: VmId, flavor: nat, nova: Reply, uuid: TaskId, enqueueRaises: bool)
        returns (r: Response<Record>)
      modifies this`queue, store
      ensures Placed(store.View(), queue, r.Ok?) ==
        if nova.Raise? then Placed(old(store.View()), old(queue), false)
        else Requested(store.ttl, store.raises, old(store.View()), old(queue), hasPool && !enqueueRaises,
                       RESIZE_VM, Job(DO_RESIZE(flavor), vm, uuid))
      ensures r.Ok? ==> r.value == NewRecord(uuid, RESIZE_VM, vm, old(store.now))
    {
      if nova.Raise? {
        return Error(nova.message);
      }
      r := RecordAndEnqueue(RESIZE_VM, Job(DO_RESIZE(flavor), vm, uuid), enqueueRaises);
    }

    /** The record is made before the image call, so a failing call leaves it PENDING. */
    method CreateSnapshot(vm: VmId, nova: Reply, image: Reply, uuid: TaskId) returns (r: Response<nat>)
      requires image.Raise? || image.Answer?
      modifies store
      ensures Outcome(store.View(), r.Error?) ==
        if nova.Raise? then Outcome(old(store.View()), true)
        else Snapped(store.ttl, store.raises, old(store.View()), vm, uuid, image)
      ensures r.Ok? ==> image == Answer(r.value)
    {
      if nova.Raise? {
        return Error(nova.message);
      }
      var raised, record := store.Create(CREATE_SNAPSHOT, vm, uuid);
      if raised {
        return Error("redis");
      }
      if image.Raise? {
        return Error(image.message);
      }
      raised := store.Update(uuid, Change(SUCCESS, None, None, Some(image.id)));
      if raised {
        return Error("redis");
      }
      return Ok(image.id);
    }
  }
}
