/**
 The in-memory VM service as a cooperative-concurrency step system. A thread is one accepted request:
 the part of its handler before the await on the task store, the part after it, and the coroutine the
 handler spawns, cut at every await. VM dictionaries are objects, so that a captured alias and the
 table entry of the same VM are two references that may come apart.
 */
module VmMachine {
  import opened Tasks

  type FlavorId = nat
  type ObjId = nat
  type SnapId = nat

  function Allowed(a: VmAction): set<VmState> {
    match a
    case START => {SHUTOFF}
    case STOP => {ACTIVE, SUSPENDED}
    case REBOOTING => {ACTIVE}
    case HARD_REBOOT => {ACTIVE, ERROR, SHUTOFF}
    case SUSPEND => {ACTIVE}
    case RESUME => {SUSPENDED}
  }

  function Target(a: VmAction): VmState {
    match a
    case START => ACTIVE
    case STOP => SHUTOFF
    case REBOOTING => ACTIVE
    case HARD_REBOOT => ACTIVE
    case SUSPEND => SUSPENDED
    case RESUME => ACTIVE
  }

  predicate Transient(st: VmState) {
    st.BUILDING? || st.REBOOT? || st.RESIZE? || st.DELETED?
  }

  /** The fields of a VM's dictionary that are ever written after its creation, and its id. */
  datatype Vm = Vm(id: VmId, status: VmState, flavor: FlavorId, updatedAt: Option<Time>)

  datatype Request =
    | CreateVm(newId: VmId, flavor: FlavorId)
    | DeleteVm(vm: VmId)
    | PerformAction(vm: VmId, action: VmAction)
    | ResizeVm(vm: VmId, flavor: FlavorId)
    | CreateSnapshot(vm: VmId, newSnap: SnapId)

  /** What a thread does; `current` and `raw` are what its handler read before the await. */
  datatype Kind =
    | Creation(flavor: FlavorId)
    | Deletion(raw: ObjId)
    | Action(action: VmAction, current: VmState)
    | Resizing(raw: ObjId, flavor: FlavorId)
    | Snapshot(snap: SnapId)

  datatype Phase =
    | Opening(record: Record)  // the handler awaits the SET of the new record
    | Ready                    // the rest of the handler is due, up to its return
    | Get1                     // the coroutine awaits the GET of its RUNNING update
    | Set1(record: Record)     // and its SET
    | Mid                      // the first status write is due, then the sleep
    | Fin                      // the sleep is over: the last status write, or the removal
    | Get2                     // the GET of the SUCCESS update
    | Set2(record: Record)     // and its SET
    | Done
    | Died(owing: bool)        // a store call raised; owing: before the thread's last status write
  {
    predicate Live() {
      !Done? && !Died?
    }

    /** The thread's last status write, or its removal of the VM, is still to come. */
    predicate Pending() {
      Opening? || Ready? || Get1? || Set1? || Mid? || Fin?
    }

    function Remaining(): nat {
      match this
      case Opening(_) => 8
      case Ready => 7
      case Get1 => 6
      case Set1(_) => 5
      case Mid => 4
      case Fin => 3
      case Get2 => 2
      case Set2(_) => 1
      case Done => 0
      case Died(_) => 0
    }
  }

  /** `saved`: the status a resize captured when its coroutine was made. */
  datatype Thread = Thread(kind: Kind, vm: VmId, phase: Phase, saved: VmState)

  /** Where a VM id came from: the seed data, or the creation request with this task id. */
  datatype Origin = Seed(flavor: FlavorId) | Made(task: TaskId)

  /** Task ids are positions in `threads`: each accepted request draws a new one. */
  datatype State = State(
    now: Time,
    objs: seq<Vm>,
    table: map<VmId, ObjId>,
    origin: map<VmId, Origin>,
    snaps: map<SnapId, bool>,
    store: map<TaskId, Entry>,
    threads: seq<Thread>)

  datatype Config = Config(ttl: Time, flavors: set<FlavorId>)

  datatype Rejection = VM_NOT_FOUND | INVALID_STATE | FLAVOR_NOT_FOUND

  datatype Event =
    | Begin(request: Request)
    | Resume(k: TaskId)
    | Die(k: TaskId)
    | Tick(d: Time)
    | Expire(k: TaskId)

  // ------------------------------------------------------------------ handlers, up to their await

  function StatusOf(s: State, vm: VmId): VmState
    requires vm in s.table && s.table[vm] < |s.objs|
  {
    s.objs[s.table[vm]].status
  }

  function Refusal(c: Config, s: State, r: Request): Option<Rejection>
    requires forall v :: v in s.table ==> s.table[v] < |s.objs|
  {
    match r
    case CreateVm(_, _) => None
    case DeleteVm(vm) => if vm !in s.table then Some(VM_NOT_FOUND) else None
    case PerformAction(vm, a) =>
      if vm !in s.table then Some(VM_NOT_FOUND)
      else if StatusOf(s, vm) !in Allowed(a) then Some(INVALID_STATE)
      else None
    case ResizeVm(vm, f) =>
      if vm !in s.table then Some(VM_NOT_FOUND)
      else if StatusOf(s, vm) !in {ACTIVE, SHUTOFF} then Some(INVALID_STATE)
      else if f !in c.flavors then Some(FLAVOR_NOT_FOUND)
      else None
    case CreateSnapshot(vm, _) => if vm !in s.table then Some(VM_NOT_FOUND) else None
  }

  function VmOf(r: Request): VmId {
    match r
    case CreateVm(id, _) => id
    case DeleteVm(vm) => vm
    case PerformAction(vm, _) => vm
    case ResizeVm(vm, _) => vm
    case CreateSnapshot(vm, _) => vm
  }

  function OperationOf(r: Request): Operation {
    match r
    case CreateVm(_, _) => CREATE_VM
    case DeleteVm(_) => DELETE_VM
    case PerformAction(_, a) => PERFORM(a)
    case ResizeVm(_, _) => RESIZE_VM
    case CreateSnapshot(_, _) => CREATE_SNAPSHOT
  }

  function KindOf(s: State, r: Request): Kind
    requires forall v :: v in s.table ==> s.table[v] < |s.objs|
    requires r.CreateVm? || VmOf(r) in s.table
  {
    match r
    case CreateVm(_, f) => Creation(f)
    case DeleteVm(vm) => Deletion(s.table[vm])
    case PerformAction(vm, a) => Action(a, StatusOf(s, vm))
    case ResizeVm(vm, f) => Resizing(s.table[vm], f)
    case CreateSnapshot(_, snap) => Snapshot(snap)
  }

  // ------------------------------------------------------------------ threads

  /** The status a transition shows while it sleeps. */
  function Intermediate(kind: Kind): VmState {
    match kind
    case Action(a, current) => if a.REBOOTING? || a.HARD_REBOOT? then REBOOT else current
    case _ => BUILDING
  }

  function Final(kind: Kind): VmState {
    match kind
    case Action(a, _) => Target(a)
    case _ => ACTIVE
  }

  function Success(t: Thread): Change {
    match t.kind
    case Creation(_) | Action(_, _) => Change(SUCCESS, Some(t.vm), None, None)
    case Snapshot(snap) => Change(SUCCESS, None, None, Some(snap))
    case _ => SUCCEEDED
  }

  function PhaseAfter(s: State, k: TaskId, t: Thread): Phase {
    match t.phase
    case Opening(_) => Ready
    case Ready => Get1
    case Get1 => if k in s.store then Set1(Modified(s.store[k].record, STARTED, s.now)) else Mid
    case Set1(_) => Mid
    case Mid => Fin
    case Fin => Get2
    case Get2 => if k in s.store then Set2(Modified(s.store[k].record, Success(t), s.now)) else Done
    case Set2(_) => Done
    case Done => Done
    case Died(b) => Died(b)
  }

  function WithStatus(s: State, o: ObjId, st: VmState): State
    requires o < |s.objs|
  {
    s.(objs := s.objs[o := s.objs[o].(status := st, updatedAt := Some(s.now))])
  }

  /** What one resumption of thread `t` does to the VMs and the snapshots. */
  function Effect(s: State, t: Thread): State
    requires forall v :: v in s.table ==> s.table[v] < |s.objs|
    requires t.kind.Deletion? || t.kind.Resizing? ==> t.kind.raw < |s.objs|
  {
    match (t.phase, t.kind)
    case (Ready, Creation(f)) =>
      s.(objs := s.objs + [Vm(t.vm, BUILDING, f, None)], table := s.table[t.vm := |s.objs|])
    case (Ready, Deletion(raw)) => s.(objs := s.objs[raw := s.objs[raw].(status := DELETED)])
    case (Ready, Snapshot(snap)) => s.(snaps := s.snaps[snap := false])
    case (Mid, Creation(_)) => if t.vm in s.table then WithStatus(s, s.table[t.vm], BUILDING) else s
    case (Mid, Action(_, _)) => if t.vm in s.table then WithStatus(s, s.table[t.vm], Intermediate(t.kind)) else s
    case (Mid, Resizing(raw, _)) => WithStatus(s, raw, RESIZE)
    case (Fin, Creation(_)) => if t.vm in s.table then WithStatus(s, s.table[t.vm], ACTIVE) else s
    case (Fin, Action(_, _)) => if t.vm in s.table then WithStatus(s, s.table[t.vm], Final(t.kind)) else s
    case (Fin, Resizing(raw, f)) =>
      s.(objs := s.objs[raw := Vm(s.objs[raw].id, t.saved, f, Some(s.now))])
    case (Fin, Deletion(_)) => s.(table := s.table - {t.vm})
    case (Fin, Snapshot(snap)) => s.(snaps := s.snaps[snap := true])
    case _ => s
  }

  function StoreAfter(c: Config, s: State, k: TaskId, phase: Phase): map<TaskId, Entry> {
    match phase
    case Opening(r) => s.store[k := Entry(r, s.now + c.ttl)]
    case Set1(r) => s.store[k := Entry(r, s.now + c.ttl)]
    case Set2(r) => s.store[k := Entry(r, s.now + c.ttl)]
    case _ => s.store
  }

  function ThreadAfter(s: State, k: TaskId, t: Thread): Thread
    requires t.kind.Resizing? ==> t.kind.raw < |s.objs|
  {
    t.(phase := PhaseAfter(s, k, t),
       saved := if t.phase.Ready? && t.kind.Resizing? then s.objs[t.kind.raw].status else t.saved)
  }

  // ------------------------------------------------------------------ the whole system

  /** References lead to objects. */
  predicate WellTyped(s: State) {
    && (forall v :: v in s.table ==> s.table[v] < |s.objs|)
    && (forall k :: 0 <= k < |s.threads| ==> Rooted(s, s.threads[k]))
  }

  predicate Rooted(s: State, t: Thread) {
    t.kind.Deletion? || t.kind.Resizing? ==> t.kind.raw < |s.objs|
  }

  /** A refused request leaves no trace, so only accepted ones are events; new ids are new. */
  predicate Enabled(c: Config, s: State, e: Event)
    requires WellTyped(s)
  {
    match e
    case Begin(r) =>
      && Refusal(c, s, r) == None
      && (r.CreateVm? ==> r.newId !in s.origin)
    case Resume(k) => k < |s.threads| && s.threads[k].phase.Live()
    case Die(k) => k < |s.threads| && s.threads[k].phase.Live()
    case Tick(d) => d >= 0.0
    case Expire(k) => k in s.store && s.store[k].deadline <= s.now
  }

  function Begun(s: State, r: Request): State
    requires forall v :: v in s.table ==> s.table[v] < |s.objs|
    requires r.CreateVm? || VmOf(r) in s.table
  {
    var k := |s.threads|;
    var record := NewRecord(k, OperationOf(r), VmOf(r), s.now);
    s.(threads := s.threads + [Thread(KindOf(s, r), VmOf(r), Opening(record), UNKNOWN)],
       origin := if r.CreateVm? then s.origin[r.newId := Made(k)] else s.origin)
  }

  function Resumed(c: Config, s: State, k: TaskId): State
    requires k < |s.threads|
    requires WellTyped(s)
  {
    var t := s.threads[k];
    assert Rooted(s, t);
    Effect(s, t).(store := StoreAfter(c, s, k, t.phase), threads := s.threads[k := ThreadAfter(s, k, t)])
  }

  function Next(c: Config, s: State, e: Event): State
    requires WellTyped(s) && Enabled(c, s, e)
  {
    match e
    case Begin(r) => Begun(s, r)
    case Resume(k) => Resumed(c, s, k)
    case Die(k) => s.(threads := s.threads[k := s.threads[k].(phase := Died(s.threads[k].phase.Pending()))])
    case Tick(d) => s.(now := s.now + d)
    case Expire(k) => s.(store := s.store - {k})
  }

  /** A freshly seeded service: one dictionary per VM, nothing running, nothing stored. */
  predicate Seeded(s: State) {
    && s.threads == [] && s.store == map[] && s.snaps == map[]
    && s.table.Keys == s.origin.Keys
    && (forall v :: v in s.table ==>
          s.table[v] < |s.objs| && s.objs[s.table[v]].id == v && s.origin[v] == Seed(s.objs[s.table[v]].flavor))
    && (forall o :: 0 <= o < |s.objs| ==> s.objs[o].id in s.table && s.table[s.objs[o].id] == o)
  }

  const UNSEEDED := State(0.0, [], map[], map[], map[], map[], [])

  /** Seed data is a list; a repeated id replaces the dictionary of the earlier one. */
  function WithSeed(s: State, v: Vm): State
  {
    var o := if v.id in s.table then s.table[v.id] else |s.objs|;
    s.(objs := if o < |s.objs| then s.objs[o := v] else s.objs + [v],
       table := s.table[v.id := o],
       origin := s.origin[v.id := Seed(v.flavor)])
  }

  lemma WithSeedSeeded(s: State, v: Vm)
    requires Seeded(s)
    ensures Seeded(WithSeed(s, v))
    ensures forall x :: x in WithSeed(s, v).objs ==> x == v || x in s.objs
  {
    var t := WithSeed(s, v);
    var o := t.table[v.id];
    assert forall i :: 0 <= i < |t.objs| ==> t.objs[i] == if i == o then v else s.objs[i];
  }

  function FromSeed(seed: seq<Vm>): State {
    if seed == [] then UNSEEDED else WithSeed(FromSeed(seed[..|seed| - 1]), seed[|seed| - 1])
  }

  lemma {:induction false} FromSeedSeeded(seed: seq<Vm>)
    ensures Seeded(FromSeed(seed))
    ensures forall v :: v in FromSeed(seed).objs ==> v in seed
    ensures FromSeed(seed).table.Keys == set v | v in seed :: v.id
  {
    if seed != [] {
      var first, last := seed[..|seed| - 1], seed[|seed| - 1];
      FromSeedSeeded(first);
      WithSeedSeeded(FromSeed(first), last);
    }
  }

  /** The last dictionary given for an id is the one the table leads to. */
  lemma {:induction false} FromSeedKeepsLast(seed: seq<Vm>, n: nat)
    requires n < |seed| && forall m :: n < m < |seed| ==> seed[m].id != seed[n].id
    ensures var s := FromSeed(seed);
      seed[n].id in s.table && s.table[seed[n].id] < |s.objs| && s.objs[s.table[seed[n].id]] == seed[n]
  {
    var first, last := seed[..|seed| - 1], seed[|seed| - 1];
    FromSeedSeeded(first);
    if n < |first| {
      FromSeedKeepsLast(first, n);
      SeedElsewhere(FromSeed(first), last, seed[n].id);
    }
  }

  lemma SeedElsewhere(s: State, v: Vm, x: VmId)
    requires Seeded(s) && x != v.id
    ensures var t := WithSeed(s, v);
      && (x in t.table <==> x in s.table)
      && (x in s.table ==>
            s.table[x] < |s.objs| && t.table[x] == s.table[x] < |t.objs| && t.objs[t.table[x]] == s.objs[s.table[x]])
  {
  }

  lemma CleanSeedData(seed: seq<Vm>)
    requires forall v :: v in seed ==> !Transient(v.status)
    ensures CleanSeed(FromSeed(seed))
  {
    FromSeedSeeded(seed);
    var s := FromSeed(seed);
    forall o | 0 <= o < |s.objs| ensures !Transient(s.objs[o].status) {
      assert s.objs[o] in s.objs;
    }
  }

  predicate CleanSeed(s: State) {
    Seeded(s) && forall o :: 0 <= o < |s.objs| ==> !Transient(s.objs[o].status)
  }

  /** Event i leads from state i to the next. */
  ghost predicate StepAt(c: Config, ss: seq<State>, es: seq<Event>, i: nat)
    requires i < |es| && |ss| == |es| + 1
  {
    WellTyped(ss[i]) && Enabled(c, ss[i], es[i]) && ss[i + 1] == Next(c, ss[i], es[i])
  }

  ghost predicate Steps(c: Config, ss: seq<State>, es: seq<Event>) {
    |ss| == |es| + 1 && forall i :: 0 <= i < |es| ==> StepAt(c, ss, es, i)
  }

  ghost predicate IsRun(c: Config, ss: seq<State>, es: seq<Event>) {
    Steps(c, ss, es) && Seeded(ss[0])
  }

  // ------------------------------------------------------------------ reads

  predicate Readable(s: State, vm: VmId)
    requires forall v :: v in s.table ==> s.table[v] < |s.objs|
  {
    vm in s.table && StatusOf(s, vm) != DELETED
  }

  /** The ids an unfiltered `list_vms` returns. */
  function Listed(s: State): set<VmId>
    requires forall v :: v in s.table ==> s.table[v] < |s.objs|
  {
    set vm | vm in s.table && StatusOf(s, vm) != DELETED
  }

  predicate Matches(st: VmState, status: Option<VmState>) {
    st != DELETED && (status == None || st == status.value)
  }

  /** What `list_vms` is about to slice; `order` is the order of the table's keys. */
  function Filtered(s: State, order: seq<VmId>, status: Option<VmState>): seq<Vm>
    requires forall v :: v in s.table ==> s.table[v] < |s.objs|
    requires forall v :: v in order ==> v in s.table
  {
    if order == [] then []
    else
      var first, v := order[..|order| - 1], order[|order| - 1];
      Filtered(s, first, status) + if Matches(StatusOf(s, v), status) then [s.objs[s.table[v]]] else []
  }
}
