/** The Terraform resource: request, wait, read back, and only then write state. */
module Provider {
  import opened Tasks
  import opened Client
  import opened ProtocolTheorems
  import Protocol

  /** The attributes of the VM that the control flow looks at; the others are copied along. */
  datatype VmModel = VmModel(id: VmId, flavor: nat, status: string)

  /** The outcome of one call to the API. */
  datatype Api<T> = Ok(value: T) | Missing | Err(message: string)

  datatype Created = Created(vm: VmId, task: TaskId)

  /** How the API will answer one operation of the resource: each call by its arguments, then the polls. */
  datatype Backend = Backend(
    create: VmModel -> Api<Created>,
    resize: (VmId, nat) -> Api<TaskId>,
    delete: VmId -> Api<TaskId>,
    vm: VmId -> Api<VmModel>,
    tasks: Server)

  /** Where a step of Terraform's own fails, if it does: flattenVMState or State.Set reports diagnostics. */
  datatype Local = Fine | FlattenFails | SetFails

  class Response {
    var state: Option<VmModel>     // what this call wrote, if anything
    var removed: bool
    var diagnostics: seq<string>

    constructor ()
      ensures state == None && !removed && diagnostics == []
    {
      state, removed, diagnostics := None, false, [];
    }

    predicate Untouched()
      reads this
    {
      state == None && !removed && diagnostics == []
    }
  }

  // ------------------------------------------------------------------ against a run of the server

  /** A run of the server: the state in which it accepted the request, and those in which it answered the polls. */
  datatype World = World(
    c: Protocol.Config,
    ss: seq<Protocol.State>,
    es: seq<Protocol.Event>,
    accepted: nat,
    at: nat -> nat)

  /** The request was accepted in the run, and the replies about its task come from later states of it. */
  ghost predicate Serves(w: World, tasks: Server, kind: Protocol.Kind, vm: VmId, k: TaskId, asked: nat) {
    && Protocol.IsRun(w.c, w.ss, w.es) && FromRun(w.ss, k, tasks, w.at, asked)
    && (forall n: nat :: n < asked ==> w.accepted <= w.at(n) < |w.ss|)
    && w.accepted < |w.ss| && exists a: nat :: Accepted(w.ss[w.accepted], a, kind, vm, k)
  }

  ghost predicate Happened(w: World, kind: Protocol.Kind, vm: VmId, k: TaskId) {
    exists i: nat :: i < |w.ss| && Performed(w.ss[i], kind, vm, k)
  }

  lemma SuccessHappened(w: World, tasks: Server, kind: Protocol.Kind, vm: VmId, k: TaskId, asked: nat)
    requires Serves(w, tasks, kind, vm, k, asked) && Settles(tasks, k, asked, Nil)
    ensures Happened(w, kind, vm, k)
  {
    var a: nat :| Accepted(w.ss[w.accepted], a, kind, vm, k);
    NilMeansPerformed(w.c, w.ss, w.es, k, tasks, w.at, asked, w.accepted, a, kind, vm);
  }

  /** Somewhere in the run a job has had Nova resize this VM to this flavor, and then confirm it. */
  ghost predicate Resized(w: World, vm: VmId, flavor: nat, k: TaskId) {
    exists i: nat, j: nat :: ResizedBy(w, vm, flavor, k, i, j)
  }

  predicate ResizedBy(w: World, vm: VmId, flavor: nat, k: TaskId, i: nat, j: nat) {
    && i < |w.ss| && j < |w.ss[i].procs| && w.ss[i].procs[j].task == Some(k)
    && w.ss[i].procs[j].acks ==
       [Protocol.Ack(Protocol.RESIZE_SERVER(flavor), vm, Protocol.Polling.Done),
        Protocol.Ack(Protocol.CONFIRM_SERVER_RESIZE, vm, Protocol.Polling.Done)]
  }

  lemma ResizeHappened(w: World, tasks: Server, vm: VmId, flavor: nat, k: TaskId, asked: nat)
    requires Serves(w, tasks, Protocol.ResizeVM(flavor), vm, k, asked) && Settles(tasks, k, asked, Nil)
    ensures Resized(w, vm, flavor, k)
  {
    SuccessHappened(w, tasks, Protocol.ResizeVM(flavor), vm, k, asked);
    var i: nat :| i < |w.ss| && Performed(w.ss[i], Protocol.ResizeVM(flavor), vm, k);
    var j: nat :| j < |w.ss[i].procs| && w.ss[i].procs[j].task == Some(k)
                  && Backed(Protocol.ResizeVM(flavor), vm, w.ss[i].procs[j].acks);
    assert ResizedBy(w, vm, flavor, k, i, j);
  }

  // ------------------------------------------------------------------ the resource

  class VmResource {
    const client: ApiClient

    constructor (client: ApiClient)
      ensures this.client == client
    {
      this.client := client;
    }

    method WriteBack(vm: VmModel, local: Local, resp: Response)
      modifies resp
      ensures resp.removed == old(resp.removed)
      ensures resp.state == if local.Fine? then Some(vm) else old(resp.state)
      ensures |resp.diagnostics| == |old(resp.diagnostics)| + (if local.Fine? then 0 else 1)
    {
      if local.FlattenFails? {
        resp.diagnostics := resp.diagnostics + ["flatten"];
        return;
      }
      if local.SetFails? {
        resp.diagnostics := resp.diagnostics + ["set"];
      } else {
        resp.state := Some(vm);
      }
    }

    /**
     State is written exactly when the request, the wait for its own task, the read-back of its own VM
     and the local steps all succeeded. Against a run of the server, that VM was then seen ACTIVE.
     */
    method Create(plan: VmModel, api: Backend, local: Local, resp: Response, ghost w: World) returns (asked: nat)
      requires resp.Untouched() && client.pollInterval > 0
      modifies resp, client`now
      ensures var request := api.create(plan);
        && (resp.state.Some? <==>
              && request.Ok? && Settles(api.tasks, request.value.task, asked, Nil)
              && api.vm(request.value.vm).Ok? && local.Fine?)
        && (resp.state.Some? ==> resp.state.value == api.vm(request.value.vm).value)
        && (resp.state.Some? && Serves(w, api.tasks, Protocol.CreateVM, request.value.vm, request.value.task, asked) ==>
              Happened(w, Protocol.CreateVM, request.value.vm, request.value.task))
        && (!request.Ok? ==> asked == 0)
      ensures !resp.removed && (resp.state.Some? <==> resp.diagnostics == []) && |resp.diagnostics| <= 1
    {
      asked := 0;
      var request := api.create(plan);
      if !request.Ok? {
        resp.diagnostics := resp.diagnostics + ["Create VM Failed"];
        return;
      }
      var vmId, task := request.value.vm, request.value.task;
      var result;
      result, asked := client.WaitTask(task, api.tasks, 0);
      if result != Nil {
        resp.diagnostics := resp.diagnostics + ["VM Provisioning Failed"];
        return;
      }
      if Serves(w, api.tasks, Protocol.CreateVM, vmId, task, asked) {
        SuccessHappened(w, api.tasks, Protocol.CreateVM, vmId, task, asked);
      }
      var vm := api.vm(vmId);
      if !vm.Ok? {
        resp.diagnostics := resp.diagnostics + ["Read VM After Create Failed"];
        return;
      }
      WriteBack(vm.value, local, resp);
    }

    /**
     State is written only when the flavor was unchanged or the resize that was asked for was seen to
     succeed. Against a run of the server, Nova then resized and confirmed this VM to the planned flavor.
     */
    method Update(plan: VmModel, prior: VmModel, api: Backend, local: Local, resp: Response, ghost w: World)
        returns (asked: nat)
      requires resp.Untouched() && client.pollInterval > 0
      modifies resp, client`now
      ensures var request, vm := api.resize(prior.id, plan.flavor), api.vm(prior.id);
        var proceeds := plan.flavor == prior.flavor || (request.Ok? && Settles(api.tasks, request.value, asked, Nil));
        && (resp.state.Some? <==> proceeds && vm.Ok? && local.Fine?)
        && (resp.removed <==> proceeds && vm.Missing?)
        && (resp.state.Some? ==> resp.state.value == vm.value)
        && (resp.state.Some? && plan.flavor != prior.flavor
            && Serves(w, api.tasks, Protocol.ResizeVM(plan.flavor), prior.id, request.value, asked) ==>
              Resized(w, prior.id, plan.flavor, request.value))
      ensures resp.diagnostics == [] <==> resp.state.Some? || resp.removed
      ensures plan.flavor == prior.flavor ==> asked == 0
    {
      asked := 0;
      if plan.flavor != prior.flavor {
        var request := api.resize(prior.id, plan.flavor);
        if !request.Ok? {
          resp.diagnostics := resp.diagnostics + ["Resize VM Failed"];
          return;
        }
        var result;
        result, asked := client.WaitTask(request.value, api.tasks, 0);
        if result != Nil {
          resp.diagnostics := resp.diagnostics + ["Resize VM Task Failed"];
          return;
        }
        if Serves(w, api.tasks, Protocol.ResizeVM(plan.flavor), prior.id, request.value, asked) {
          ResizeHappened(w, api.tasks, prior.id, plan.flavor, request.value, asked);
        }
      }
      var vm := api.vm(prior.id);
      if vm.Missing? {
        resp.removed := true;
        return;
      }
      if vm.Err? {
        resp.diagnostics := resp.diagnostics + ["Read VM After Update Failed"];
        return;
      }
      WriteBack(vm.value, local, resp);
    }

    /**
     No diagnostic means the VM was not there to begin with or its deletion was seen to succeed. Against
     a run of the server, Nova's delete of that VM had then returned.
     */
    method Delete(prior: VmModel, api: Backend, resp: Response, ghost w: World) returns (asked: nat)
      requires resp.Untouched() && client.pollInterval > 0
      modifies resp, client`now
      ensures resp.state == None && !resp.removed
      ensures var request := api.delete(prior.id);
        && (resp.diagnostics == [] <==>
              request.Missing? || (request.Ok? && Settles(api.tasks, request.value, asked, Nil)))
        && (resp.diagnostics == [] && request.Ok?
            && Serves(w, api.tasks, Protocol.DeleteVM, prior.id, request.value, asked) ==>
              Happened(w, Protocol.DeleteVM, prior.id, request.value))
    {
      asked := 0;
      var request := api.delete(prior.id);
      if request.Missing? {
        return;
      }
      if request.Err? {
        resp.diagnostics := resp.diagnostics + ["Delete VM Failed"];
        return;
      }
      var result;
      result, asked := client.WaitTask(request.value, api.tasks, 0);
      if result != Nil {
        resp.diagnostics := resp.diagnostics + ["Delete VM Task Failed"];
        return;
      }
      if Serves(w, api.tasks, Protocol.DeleteVM, prior.id, request.value, asked) {
        SuccessHappened(w, api.tasks, Protocol.DeleteVM, prior.id, request.value, asked);
      }
    }
  }
}
