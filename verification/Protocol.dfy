/**
 The asynchronous task protocol as a step system: any number of API requests and worker jobs, one
 expiring key-value store, one clock, and a Nova that answers or raises at every call. An `update`
 is two steps, its GET and its SET, so anything may happen between them.
 */
module Protocol {
  import opened Tasks
  import opened Polling

  datatype Config = Config(ttl: Time, timeout: int)

  datatype Kind = CreateVM | DeleteVM | ResizeVM(flavor: nat) | CreateSnapshot

  function OperationOf(kind: Kind): Operation {
    match kind
    case CreateVM => CREATE_VM
    case DeleteVM => DELETE_VM
    case ResizeVM(_) => RESIZE_VM
    case CreateSnapshot => CREATE_SNAPSHOT
  }

  datatype Call =
    | CREATE_SERVER
    | GET_SERVER
    | CREATE_IMAGE
    | DELETE_SERVER
    | RESIZE_SERVER(flavor: nat)
    | CONFIRM_SERVER_RESIZE

  /** A call that Nova has answered. */
  datatype Ack = Ack(call: Call, vm: VmId, reply: Reply)

  /** Where a request or a job stands; each constructor is one awaited call. */
  datatype Pc =
    | Calling                                // the first Nova call of a request
    | Creating(first: Record)                // SET of the new record
    | Enqueueing                             // enqueue_job
    | Imaging                                // create_server_image
    | Returned                               // the request returned normally
    | Queued                                 // a job no worker has picked up yet
    | Getting(change: Change)                // GET of an update
    | Setting(change: Change, next: Record)  // SET of an update
    | Sleeping(elapsed: int)                 // the poll's sleep
    | Asking(elapsed: int)                   // the poll's get_vm
    | Deleting                               // delete_server
    | Resizing                               // resize_server
    | Pausing                                // the sleep before the confirmation
    | Confirming                             // confirm_server_resize
    | Finished                               // the job function returned
    | Dead                                   // an exception or a cancellation left the function
  {
    predicate Live() {
      !Returned? && !Finished? && !Dead?
    }
  }

  /**
   One activation of a handler or of a job function. `missed`: an update of it found its key gone;
   `fault`: the message of the last call of it that raised.
   */
  datatype Proc = Proc(
    job: bool,
    kind: Kind,
    vm: VmId,
    task: Option<TaskId>,
    pc: Pc,
    since: Time,
    acks: seq<Ack>,
    missed: bool,
    fault: Option<string>)

  datatype Stored = Stored(record: Record, at: Time)

  /**
   `store` is Redis and `procs` everything that ever ran. The other fields are history: who drew
   each task id, which job was enqueued for it, and every value ever SET under its key.
   */
  datatype State = State(
    now: Time,
    store: map<TaskId, Entry>,
    procs: seq<Proc>,
    maker: map<TaskId, nat>,
    worker: map<TaskId, nat>,
    hist: map<TaskId, seq<Stored>>)

  const INIT := State(0.0, map[], [], map[], map[], map[])

  datatype Event =
    | Tick(d: Time)
    | Expire(k: TaskId)
    | Arrive(kind: Kind, vm: VmId)
    | Cancel(i: nat)
    | Move(i: nat, reply: Reply, uuid: TaskId)

  // ------------------------------------------------------------------ one process

  function Key(p: Proc): TaskId {
    if p.task.Some? then p.task.value else 0
  }

  /** The head of the polling loop. */
  function Loop(c: Config, elapsed: int): Pc {
    if elapsed < c.timeout then Sleeping(elapsed) else Getting(TIMED_OUT)
  }

  /** What follows an update that has completed, whether or not it found its key. */
  function After(c: Config, p: Proc, u: Change): Pc {
    if u.status.RUNNING? then
      match p.kind
      case CreateVM => Loop(c, 0)
      case DeleteVM => Deleting
      case ResizeVM(_) => Resizing
      case CreateSnapshot => Dead
    else if p.job then Finished
    else Returned
  }

  /** A Redis call of an update raised. Only the SUCCESS update of do_delete and do_resize is inside a try. */
  function OnRedisError(p: Proc, u: Change, message: string): Pc {
    if p.job && !p.kind.CreateVM? && u.status.SUCCESS? then Getting(Failed(message)) else Dead
  }

  predicate Fits(s: State, p: Proc, r: Reply, uuid: TaskId) {
    match p.pc
    case Calling => r.Raise? || ((if p.kind.CreateVM? then r.Answer? else r.Seen?) && uuid !in s.maker)
    case Imaging => r.Raise? || r.Answer?
    case Asking(_) => r.Raise? || r.Seen?
    case Sleeping(_) => r.Done? && p.since + POLL_INTERVAL_SECONDS as real <= s.now
    case Pausing => r.Done? && p.since + RESIZE_CONFIRM_DELAY_SECONDS <= s.now
    case Queued => r.Done?
    case Creating(_) | Enqueueing | Getting(_) | Setting(_, _) => r.Raise? || r.Done?
    case Deleting | Resizing | Confirming => r.Raise? || r.Done?
    case Returned | Finished | Dead => false
  }

  /** The process after the call it awaited has ended with `r`; `found` is what its key holds now. */
  function Moved(c: Config, now: Time, found: Option<Record>, p: Proc, r: Reply, uuid: TaskId): Proc {
    var q := p.(since := now, fault := if r.Raise? then Some(r.message) else p.fault);
    match p.pc
    case Calling =>
      if r.Raise? then q.(pc := Dead)
      else
        var vm := if r.Answer? then r.id else p.vm;
        q.(vm := vm, task := Some(uuid),
           pc := Creating(NewRecord(uuid, OperationOf(p.kind), vm, now)),
           acks := p.acks + [Ack(if p.kind.CreateVM? then CREATE_SERVER else GET_SERVER, vm, r)])
    case Creating(_) =>
      q.(pc := if r.Raise? then Dead else if p.kind.CreateSnapshot? then Imaging else Enqueueing)
    case Enqueueing => q.(pc := if r.Raise? then Dead else Returned)
    case Imaging =>
      if r.Answer? then
        q.(pc := Getting(Change(SUCCESS, None, None, Some(r.id))),
           acks := p.acks + [Ack(CREATE_IMAGE, p.vm, r)])
      else q.(pc := Dead)
    case Queued => q.(pc := Getting(STARTED))
    case Getting(u) =>
      if r.Raise? then q.(pc := OnRedisError(p, u, r.message))
      else if found.Some? then q.(pc := Setting(u, Modified(found.value, u, now)))
      else q.(pc := After(c, p, u), missed := true)
    case Setting(u, _) =>
      q.(pc := if r.Raise? then OnRedisError(p, u, r.message) else After(c, p, u))
    case Sleeping(elapsed) => q.(pc := Asking(elapsed + POLL_INTERVAL_SECONDS))
    case Asking(elapsed) =>
      q.(pc := if Decisive(r) then Getting(Conclusion(r)) else Loop(c, elapsed),
         acks := p.acks + [Ack(GET_SERVER, p.vm, r)])
    case Deleting =>
      q.(pc := Getting(if r.Raise? then Failed(r.message) else SUCCEEDED),
         acks := p.acks + [Ack(DELETE_SERVER, p.vm, r)])
    case Resizing =>
      q.(pc := if r.Raise? then Getting(Failed(r.message)) else Pausing,
         acks := p.acks + [Ack(RESIZE_SERVER(if p.kind.ResizeVM? then p.kind.flavor else 0), p.vm, r)])
    case Pausing => q.(pc := Confirming)
    case Confirming =>
      q.(pc := Getting(if r.Raise? then Failed(r.message) else SUCCEEDED),
         acks := p.acks + [Ack(CONFIRM_SERVER_RESIZE, p.vm, r)])
    case Returned | Finished | Dead => p
  }

  // ------------------------------------------------------------------ the whole system

  /** What a move does to the world outside the process. */
  datatype Effect = Nothing | Claim(k: TaskId) | Put(record: Record) | Spawn

  function EffectOf(p: Proc, r: Reply, uuid: TaskId): Effect {
    if r.Raise? then Nothing
    else
      match p.pc
      case Calling => Claim(uuid)
      case Creating(first) => Put(first)
      case Setting(_, next) => Put(next)
      case Enqueueing => Spawn
      case _ => Nothing
  }

  function Found(s: State, k: TaskId): Option<Record> {
    if k in s.store then Some(s.store[k].record) else None
  }

  function Written(s: State, k: TaskId): seq<Stored> {
    if k in s.hist then s.hist[k] else []
  }

  function NewJob(p: Proc, now: Time): Proc {
    Proc(true, p.kind, p.vm, p.task, Queued, now, [], false, None)
  }

  function Apply(c: Config, s: State, i: nat, q: Proc, e: Effect): State
    requires i < |s.procs|
  {
    var s' := s.(procs := s.procs[i := q]);
    var k := Key(q);
    match e
    case Nothing => s'
    case Claim(_) => s'.(maker := s.maker[k := i], hist := s.hist[k := []])
    case Put(record) =>
      s'.(store := s.store[k := Entry(record, s.now + c.ttl)],
          hist := s.hist[k := Written(s, k) + [Stored(record, s.now)]])
    case Spawn =>
      s'.(procs := s'.procs + [NewJob(q, s.now)], worker := s.worker[k := |s.procs|])
  }

  predicate Enabled(s: State, e: Event) {
    match e
    case Tick(d) => d >= 0.0
    case Expire(k) => k in s.store && s.store[k].deadline <= s.now
    case Arrive(_, _) => true
    case Cancel(i) => i < |s.procs| && s.procs[i].pc.Live()
    case Move(i, r, uuid) => i < |s.procs| && Fits(s, s.procs[i], r, uuid)
  }

  function Next(c: Config, s: State, e: Event): State
    requires Enabled(s, e)
  {
    match e
    case Tick(d) => s.(now := s.now + d)
    case Expire(k) => s.(store := s.store - {k})
    case Arrive(kind, vm) => s.(procs := s.procs + [Proc(false, kind, vm, None, Calling, s.now, [], false, None)])
    case Cancel(i) => s.(procs := s.procs[i := s.procs[i].(pc := Dead)])
    case Move(i, r, uuid) =>
      var p := s.procs[i];
      Apply(c, s, i, Moved(c, s.now, Found(s, Key(p)), p, r, uuid), EffectOf(p, r, uuid))
  }

  /** Event i leads from state i to the next. */
  ghost predicate StepAt(c: Config, ss: seq<State>, es: seq<Event>, i: nat)
    requires i < |es| && |ss| == |es| + 1
  {
    Enabled(ss[i], es[i]) && ss[i + 1] == Next(c, ss[i], es[i])
  }

  /** A run: the states it goes through, and the events between them. */
  ghost predicate IsRun(c: Config, ss: seq<State>, es: seq<Event>) {
    |ss| == |es| + 1 && ss[0] == INIT && forall i :: 0 <= i < |es| ==> StepAt(c, ss, es, i)
  }
}
