/**
 The in-memory VM service in its own form: dictionaries that are mutated in place, a table of
 references to them, and suspended handlers and coroutines that hold aliases. `View` forgets the
 references; every method is one step of `VmMachine` on the view.
 */
module MockService {
  import opened Pages
  import opened Tasks
  import opened VmMachine

  class VmDict {
    ghost const oid: ObjId
    const id: VmId
    var status: VmState
    var flavor: FlavorId
    var updatedAt: Option<Time>

    constructor (ghost oid: ObjId, id: VmId, status: VmState, flavor: FlavorId, updatedAt: Option<Time>)
      ensures this.oid == oid && Value() == Vm(id, status, flavor, updatedAt)
    {
      this.oid := oid;
      this.id := id;
      this.status := status;
      this.flavor := flavor;
      this.updatedAt := updatedAt;
    }

    function Value(): Vm
      reads this
    {
      Vm(id, status, flavor, updatedAt)
    }
  }

  /** What a suspended handler or coroutine closes over. */
  datatype Closure =
    | Creating(flavor: FlavorId)
    | Deleting(raw: VmDict)
    | Acting(action: VmAction, current: VmState)
    | Reshaping(raw: VmDict, flavor: FlavorId)
    | Snapping(snap: SnapId)

  datatype Coroutine = Coroutine(closure: Closure, vm: VmId, phase: Phase, saved: VmState)

  ghost function KindView(x: Closure): Kind {
    match x
    case Creating(f) => Creation(f)
    case Deleting(raw) => Deletion(raw.oid)
    case Acting(a, st) => Action(a, st)
    case Reshaping(raw, f) => Resizing(raw.oid, f)
    case Snapping(snap) => Snapshot(snap)
  }

  ghost function ThreadView(x: Coroutine): Thread {
    Thread(KindView(x.closure), x.vm, x.phase, x.saved)
  }

  /** The arguments of the coroutine's SUCCESS update. */
  function Verdict(x: Coroutine): Change {
    match x.closure
    case Creating(_) | Acting(_, _) => Change(SUCCESS, Some(x.vm), None, None)
    case Snapping(snap) => Change(SUCCESS, None, None, Some(snap))
    case Deleting(_) | Reshaping(_, _) => SUCCEEDED
  }

  class MockOpenStackService {
    const config: Config
    var now: Time
    var vms: map<VmId, VmDict>
    var snapshots: map<SnapId, bool>
    var store: map<TaskId, Entry>
    var coroutines: seq<Coroutine>
    ghost var dicts: seq<VmDict>               // every dictionary ever made
    ghost var origin: map<VmId, Origin>

    constructor (config: Config, seed: seq<Vm>)
      ensures Valid() && this.config == config && View() == FromSeed(seed)
    {
      this.config := config;
      now := 0.0;
      vms, snapshots, store, coroutines := map[], map[], map[], [];
      dicts, origin := [], map[];
      new;
      var n := 0;
      while n < |seed|
        invariant n <= |seed| && Valid() && View() == FromSeed(seed[..n]) && coroutines == []
      {
        SeededApart(seed[..n], seed[n].id);
        AddSeed(seed[n]);
        assert seed[..n + 1][..n] == seed[..n];
        n := n + 1;
      }
      assert seed[..n] == seed;
    }

    /** No other entry of the table leads to the dictionary of `v`. */
    ghost predicate Apart(v: VmId)
      reads this
    {
      forall x :: x in vms && v in vms && x != v ==> vms[x].oid != vms[v].oid
    }

    lemma SeededApart(seed: seq<Vm>, v: VmId)
      requires Valid() && View() == FromSeed(seed)
      ensures Apart(v)
    {
      FromSeedSeeded(seed);
      forall x | x in vms && v in vms && x != v ensures vms[x].oid != vms[v].oid {
        assert View().table[x] == vms[x].oid && View().table[v] == vms[v].oid;
      }
    }

    method AddSeed(v: Vm)
      requires Valid() && coroutines == [] && Apart(v.id)
      modifies this`vms, this`dicts, this`origin
      ensures Valid() && coroutines == [] && View() == WithSeed(old(View()), v)
    {
      ValidIsWellTyped();
      if v.id in vms {
        Replace(v);
      } else {
        Enter(v);
      }
      origin := origin[v.id := Seed(v.flavor)];
    }

    /** A new dictionary under an id that has none. */
    method Enter(v: Vm)
      requires Valid()
      modifies this`vms, this`dicts
      ensures Valid()
      ensures var s := old(View());
        View() == s.(objs := s.objs + [v], table := s.table[v.id := |s.objs|])
    {
      var d := new VmDict(|dicts|, v.id, v.status, v.flavor, v.updatedAt);
      dicts := dicts + [d];
      vms := vms[v.id := d];
      assert Table() == old(Table())[v.id := d.oid];
      assert Objects() == old(Objects()) + [d.Value()];
    }

    /** A new dictionary in the place of the one an id has. */
    method Replace(v: Vm)
      requires Valid() && coroutines == [] && v.id in vms && Apart(v.id)
      modifies this`vms, this`dicts
      ensures Valid() && old(View()).table[v.id] < |old(View()).objs|
      ensures View() == old(View()).(objs := old(View()).objs[old(View()).table[v.id] := v])
    {
      ghost var o := vms[v.id].oid;
      var d := new VmDict(o, v.id, v.status, v.flavor, v.updatedAt);
      dicts := dicts[o := d];
      vms := vms[v.id := d];
      assert Table() == old(Table());
      assert Objects() == old(Objects())[o := d.Value()];
    }

    ghost predicate Known(d: VmDict)
      reads this
    {
      d.oid < |dicts| && dicts[d.oid] == d
    }

    ghost predicate Valid()
      reads this
    {
      && (forall i :: 0 <= i < |dicts| ==> dicts[i].oid == i)
      && (forall v :: v in vms ==> Known(vms[v]))
      && (forall k :: 0 <= k < |coroutines| ==> Closed(coroutines[k].closure))
    }

    ghost predicate Closed(x: Closure)
      reads this
    {
      x.Deleting? || x.Reshaping? ==> Known(x.raw)
    }

    ghost function Objects(): seq<Vm>
      reads this, dicts
    {
      seq(|dicts|, i requires 0 <= i < |dicts| reads this, dicts => dicts[i].Value())
    }

    ghost function Threads(): seq<Thread>
      reads this
    {
      seq(|coroutines|, k requires 0 <= k < |coroutines| reads this => ThreadView(coroutines[k]))
    }

    ghost function Table(): map<VmId, ObjId>
      reads this
    {
      map v | v in vms :: vms[v].oid
    }

    ghost function View(): State
      reads this, dicts
    {
      State(now, Objects(), Table(), origin, snapshots, store, Threads())
    }

    lemma ValidIsWellTyped()
      requires Valid()
      ensures WellTyped(View())
    {
    }

    // ---------------------------------------------------------------- handlers, up to their await

    /** The task store draws the id and makes the record; its SET is awaited in phase `Opening`. */
    method Suspend(closure: Closure, vm: VmId, op: Operation)
      requires Valid() && Closed(closure)
      modifies this`coroutines
      ensures Valid()
      ensures coroutines == old(coroutines) +
        [Coroutine(closure, vm, Opening(NewRecord(|old(coroutines)|, op, vm, now)), UNKNOWN)]
    {
      coroutines := coroutines + [Coroutine(closure, vm, Opening(NewRecord(|coroutines|, op, vm, now)), UNKNOWN)];
    }

    method CreateVm(newId: VmId, flavor: FlavorId)
      requires Valid()
      modifies this`coroutines, this`origin
      ensures Valid() && View() == Begun(old(View()), Request.CreateVm(newId, flavor))
      ensures WellTyped(old(View()))
      ensures newId !in old(origin) ==> Enabled(config, old(View()), Begin(Request.CreateVm(newId, flavor)))
    {
      ValidIsWellTyped();
      origin := origin[newId := Made(|coroutines|)];
      Suspend(Creating(flavor), newId, CREATE_VM);
      assert Threads() == old(Threads()) + [ThreadView(coroutines[|coroutines| - 1])];
    }

    method DeleteVm(vm: VmId) returns (refused: Option<Rejection>)
      requires Valid()
      modifies this`coroutines
      ensures Valid() && WellTyped(old(View()))
      ensures refused == Refusal(config, old(View()), Request.DeleteVm(vm))
      ensures View() == if refused == None then Begun(old(View()), Request.DeleteVm(vm)) else old(View())
    {
      ValidIsWellTyped();
      if vm !in vms {
        return Some(VM_NOT_FOUND);
      }
      var raw := vms[vm];
      Suspend(Deleting(raw), vm, DELETE_VM);
      assert Threads() == old(Threads()) + [ThreadView(coroutines[|coroutines| - 1])];
      return None;
    }

    method PerformAction(vm: VmId, action: VmAction) returns (refused: Option<Rejection>)
      requires Valid()
      modifies this`coroutines
      ensures Valid() && WellTyped(old(View()))
      ensures refused == Refusal(config, old(View()), Request.PerformAction(vm, action))
      ensures View() == if refused == None then Begun(old(View()), Request.PerformAction(vm, action)) else old(View())
    {
      ValidIsWellTyped();
      if vm !in vms {
        return Some(VM_NOT_FOUND);
      }
      var raw := vms[vm];
      var current := raw.status;
      if current !in Allowed(action) {
        return Some(INVALID_STATE);
      }
      Suspend(Acting(action, current), vm, PERFORM(action));
      assert Threads() == old(Threads()) + [ThreadView(coroutines[|coroutines| - 1])];
      return None;
    }

    method ResizeVm(vm: VmId, flavor: FlavorId) returns (refused: Option<Rejection>)
      requires Valid()
      modifies this`coroutines
      ensures Valid() && WellTyped(old(View()))
      ensures refused == Refusal(config, old(View()), Request.ResizeVm(vm, flavor))
      ensures View() == if refused == None then Begun(old(View()), Request.ResizeVm(vm, flavor)) else old(View())
    {
      ValidIsWellTyped();
      if vm !in vms {
        return Some(VM_NOT_FOUND);
      }
      var raw := vms[vm];
      if raw.status != ACTIVE && raw.status != SHUTOFF {
        return Some(INVALID_STATE);
      }
      if flavor !in config.flavors {
        return Some(FLAVOR_NOT_FOUND);
      }
      Suspend(Reshaping(raw, flavor), vm, RESIZE_VM);
      assert Threads() == old(Threads()) + [ThreadView(coroutines[|coroutines| - 1])];
      return None;
    }

    method CreateSnapshot(vm: VmId, newSnap: SnapId) returns (refused: Option<Rejection>)
      requires Valid()
      modifies this`coroutines
      ensures Valid() && WellTyped(old(View()))
      ensures refused == Refusal(config, old(View()), Request.CreateSnapshot(vm, newSnap))
      ensures View() == if refused == None then Begun(old(View()), Request.CreateSnapshot(vm, newSnap)) else old(View())
    {
      ValidIsWellTyped();
      if vm !in vms {
        return Some(VM_NOT_FOUND);
      }
      Suspend(Snapping(newSnap), vm, CREATE_SNAPSHOT);
      assert Threads() == old(Threads()) + [ThreadView(coroutines[|coroutines| - 1])];
      return None;
    }

    // ---------------------------------------------------------------- resumptions

    /** Two assignments to one dictionary, seen through whichever references lead to it. */
    method Mark(d: VmDict, status: VmState)
      requires Valid() && Known(d)
      modifies d
      ensures Valid() && d.oid < |old(View()).objs| && View() == WithStatus(old(View()), d.oid, status)
    {
      d.status := status;
      d.updatedAt := Some(now);
      assert Objects() == old(Objects())[d.oid := d.Value()];
    }

    /** The guarded write of a transition, which looks its VM up again. */
    method MarkCurrent(vm: VmId, status: VmState)
      requires Valid()
      modifies if vm in vms then {vms[vm]} else {}
      ensures Valid() && WellTyped(old(View()))
      ensures View() ==
        if vm in old(View()).table then WithStatus(old(View()), old(View()).table[vm], status) else old(View())
    {
      ValidIsWellTyped();
      if vm in vms {
        Mark(vms[vm], status);
      }
    }

    method Reshape(d: VmDict, flavor: FlavorId, status: VmState)
      requires Valid() && Known(d)
      modifies d
      ensures Valid() && d.oid < |old(View()).objs|
      ensures View() == old(View()).(objs := old(View()).objs[d.oid := Vm(d.id, status, flavor, Some(now))])
    {
      d.flavor := flavor;
      d.status := status;
      d.updatedAt := Some(now);
      assert Objects() == old(Objects())[d.oid := d.Value()];
    }

    method Pop(vm: VmId)
      requires Valid()
      modifies this`vms
      ensures Valid() && View() == old(View()).(table := old(View()).table - {vm})
    {
      vms := vms - {vm};
      assert Table() == old(Table()) - {vm};
    }

    /** The rest of the handler, from the end of its await to its return. */
    method FinishHandler(x: Coroutine) returns (saved: VmState)
      requires Valid() && x.phase.Ready? && Closed(x.closure)
      modifies this`vms, this`snapshots, this`dicts, if x.closure.Deleting? then {x.closure.raw} else {}
      ensures Valid() && coroutines == old(coroutines)
      ensures WellTyped(old(View())) && Rooted(old(View()), ThreadView(x))
      ensures View() == Effect(old(View()), ThreadView(x))
      ensures saved == if x.closure.Reshaping? then old(x.closure.raw.status) else x.saved
    {
      ValidIsWellTyped();
      saved := x.saved;
      match x.closure
      case Creating(flavor) =>
        Enter(Vm(x.vm, BUILDING, flavor, None));
      case Deleting(raw) =>
        raw.status := DELETED;
        assert Objects() == old(Objects())[raw.oid := raw.Value()];
      case Acting(_, _) =>
      case Reshaping(raw, _) =>
        saved := raw.status;
      case Snapping(snap) =>
        snapshots := snapshots[snap := false];
    }

    /** The first status write of a coroutine. */
    method Announce(x: Coroutine)
      requires Valid() && x.phase.Mid? && Closed(x.closure)
      modifies if x.closure.Reshaping? then {x.closure.raw} else if x.vm in vms then {vms[x.vm]} else {}
      ensures Valid()
      ensures WellTyped(old(View())) && Rooted(old(View()), ThreadView(x))
      ensures View() == Effect(old(View()), ThreadView(x))
    {
      ValidIsWellTyped();
      match x.closure
      case Creating(_) => MarkCurrent(x.vm, BUILDING);
      case Acting(action, current) =>
        MarkCurrent(x.vm, if action.REBOOTING? || action.HARD_REBOOT? then REBOOT else current);
      case Reshaping(raw, _) => Mark(raw, RESIZE);
      case Deleting(_) =>
      case Snapping(_) =>
    }

    /** What a coroutine does when its sleep is over. */
    method Conclude(x: Coroutine)
      requires Valid() && x.phase.Fin? && Closed(x.closure)
      modifies this`vms, this`snapshots
      modifies if x.closure.Reshaping? then {x.closure.raw} else if x.vm in vms then {vms[x.vm]} else {}
      ensures Valid() && coroutines == old(coroutines)
      ensures WellTyped(old(View())) && Rooted(old(View()), ThreadView(x))
      ensures View() == Effect(old(View()), ThreadView(x))
    {
      ValidIsWellTyped();
      match x.closure
      case Creating(_) => MarkCurrent(x.vm, ACTIVE);
      case Acting(action, _) => MarkCurrent(x.vm, Target(action));
      case Reshaping(raw, flavor) => Reshape(raw, flavor, x.saved);
      case Deleting(_) =>
        Pop(x.vm);
      case Snapping(snap) => snapshots := snapshots[snap := true];
    }

    /** One resumption of handler or coroutine `k`: everything up to its next await. */
    method Resume(k: TaskId)
      requires Valid() && k < |coroutines| && coroutines[k].phase.Live()
      modifies this, dicts
      ensures Valid() && WellTyped(old(View())) && View() == Resumed(config, old(View()), k)
    {
      ValidIsWellTyped();
      var x := coroutines[k];
      assert Closed(x.closure);
      ghost var before := View();
      assert before.threads[k] == ThreadView(x);
      var phase, saved := Proceed(k, x);
      coroutines := coroutines[k := x.(phase := phase, saved := saved)];
      assert Threads() == before.threads[k := ThreadAfter(before, k, ThreadView(x))];
    }

    method SetRecord(k: TaskId, record: Record)
      modifies this`store
      ensures View() == old(View()).(store := old(store)[k := Entry(record, now + config.ttl)])
    {
      store := store[k := Entry(record, now + config.ttl)];
    }

    method Proceed(k: TaskId, x: Coroutine) returns (phase: Phase, saved: VmState)
      requires Valid() && Closed(x.closure) && x.phase.Live()
      modifies this`store, this`vms, this`snapshots, this`dicts, dicts
      ensures Valid() && coroutines == old(coroutines)
      ensures var s, t := old(View()), ThreadView(x);
        && WellTyped(s) && Rooted(s, t)
        && View() == Effect(s, t).(store := StoreAfter(config, s, k, t.phase))
        && t.(phase := phase, saved := saved) == ThreadAfter(s, k, t)
    {
      ValidIsWellTyped();
      saved, phase := x.saved, Done;
      match x.phase {
        case Opening(record) =>
          SetRecord(k, record);
          phase := Ready;
        case Ready =>
          saved := FinishHandler(x);
          phase := Get1;
        case Get1 =>
          phase := if k in store then Set1(Modified(store[k].record, STARTED, now)) else Mid;
        case Set1(record) =>
          SetRecord(k, record);
          phase := Mid;
        case Mid =>
          Announce(x);
          phase := Fin;
        case Fin =>
          Conclude(x);
          phase := Get2;
        case Get2 =>
          if k in store {
            phase := Set2(Modified(store[k].record, Verdict(x), now));
          }
        case Set2(record) =>
          SetRecord(k, record);
        case _ => assert false;
      }
    }

    // ---------------------------------------------------------------- reads

    method GetVm(vm: VmId) returns (r: Option<Vm>)
      requires Valid()
      ensures WellTyped(View()) && (r.Some? <==> Readable(View(), vm))
      ensures r.Some? <==> vm in vms && vms[vm].status != DELETED
      ensures r.Some? ==> r.value == View().objs[View().table[vm]]
    {
      ValidIsWellTyped();
      if vm !in vms {
        return None;
      }
      var raw := vms[vm];
      if raw.status == DELETED {
        return None;
      }
      return Some(raw.Value());
    }

    /** `order`: the insertion order of the table, which a mapping here does not carry. */
    method ListVms(order: seq<VmId>, status: Option<VmState>, limit: nat, offset: nat)
        returns (page: seq<Vm>, total: nat)
      requires Valid() && forall v :: v in order ==> v in vms
      ensures WellTyped(View())
      ensures var all := Filtered(View(), order, status); page == Slice(all, offset, limit) && total == |all|
    {
      ValidIsWellTyped();
      var kept: seq<Vm> := [];
      for n := 0 to |order|
        invariant kept == Filtered(View(), order[..n], status)
      {
        var v := vms[order[n]];
        assert order[..n + 1][..n] == order[..n];
        if v.status != DELETED && (status.None? || v.status == status.value) {
          kept := kept + [v.Value()];
        }
      }
      assert order[..|order|] == order;
      return kept[Min(offset, |kept|)..Min(offset + limit, |kept|)], |kept|;
    }
  }
}
