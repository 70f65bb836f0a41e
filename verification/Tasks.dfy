/** Task records and the change that one `update` call makes to them. */
module Tasks {

  type TaskId = nat

  type VmId = nat

  // Seconds, as the event loop's clock counts them.
  type Time = real

  datatype Option<+T> = None | Some(value: T)

  predicate Distinct<T(==)>(xs: seq<T>) {
    forall m, n :: 0 <= m < n < |xs| ==> xs[m] != xs[n]
  }

  datatype VmState =
    | BUILDING | ACTIVE | SHUTOFF | SUSPENDED | REBOOT | ERROR
    | DELETED | RESIZE | VERIFY_RESIZE | UNKNOWN

  datatype VmAction = START | STOP | REBOOTING | HARD_REBOOT | SUSPEND | RESUME

  datatype Status = PENDING | RUNNING | SUCCESS | FAILED
  {
    predicate Terminal() {
      SUCCESS? || FAILED?
    }
  }

  datatype Operation =
    | CREATE_VM
    | DELETE_VM
    | RESIZE_VM
    | CREATE_SNAPSHOT
    | PERFORM(action: VmAction)

  /** `result` holds the snapshot id, the only key the service ever puts there. */
  datatype Record = Record(
    taskId: TaskId,
    status: Status,
    operation: Operation,
    resourceId: Option<VmId>,
    createdAt: Time,
    updatedAt: Time,
    error: Option<string>,
    result: Option<nat>)

  function NewRecord(k: TaskId, op: Operation, vm: VmId, now: Time): Record {
    Record(k, PENDING, op, Some(vm), now, now, None, None)
  }

  /** The keyword arguments of one `update` call; None leaves a field alone. */
  datatype Change = Change(
    status: Status,
    resourceId: Option<VmId>,
    error: Option<string>,
    result: Option<nat>)

  const STARTED := Change(RUNNING, None, None, None)

  const SUCCEEDED := Change(SUCCESS, None, None, None)

  function Failed(message: string): Change {
    Change(FAILED, None, Some(message), None)
  }

  function Modified(r: Record, u: Change, now: Time): Record {
    r.(status := u.status,
       updatedAt := now,
       resourceId := if u.resourceId.Some? then u.resourceId else r.resourceId,
       error := if u.error.Some? then u.error else r.error,
       result := if u.result.Some? then u.result else r.result)
  }

  /** What Redis holds under one key: the record and the instant the key expires. */
  datatype Entry = Entry(record: Record, deadline: Time)
}
