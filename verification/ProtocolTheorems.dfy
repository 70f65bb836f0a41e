/** What the ownership invariant buys: the promises of the task API over every interleaving. */
module ProtocolTheorems {
  import opened Tasks
  import opened Polling
  import opened Protocol
  import opened ProtocolInvariant
  import opened Listing

  // ------------------------------------------------------------------ time only adds

  ghost predicate ProcLater(p: Proc, q: Proc) {
    && q.job == p.job && q.kind == p.kind
    && (p.task.Some? ==> q.task == p.task && q.vm == p.vm)
    && (p.missed ==> q.missed)
    && p.acks <= q.acks
    && (!p.pc.Live() ==> q == p)
  }

  ghost predicate Later(s: State, t: State) {
    && s.now <= t.now
    && (forall k :: k in s.maker ==> k in t.maker && t.maker[k] == s.maker[k])
    && (forall k :: k in s.worker ==> k in t.worker && t.worker[k] == s.worker[k])
    && (forall k :: k in s.hist ==> k in t.hist && s.hist[k] <= t.hist[k])
    && |s.procs| <= |t.procs|
    && (forall i :: 0 <= i < |s.procs| ==> ProcLater(s.procs[i], t.procs[i]))
  }

  lemma NextLater(c: Config, s: State, e: Event)
    requires Structure(s) && Enabled(s, e)
    ensures Later(s, Next(c, s, e))
  {
    if e.Move? {
      var p := s.procs[e.i];
      assert ProcLinked(s, e.i);
      MovedShape(c, s, p, e.reply, e.uuid);
      if p.task.Some? {
        OwnerMoves(s, e.i);
        assert KeyLinked(s, Key(p));
      }
      MovedLater(c, s, p, e.reply, e.uuid);
      ApplyLater(c, s, e.i, Moved(c, s.now, Found(s, Key(p)), p, e.reply, e.uuid), EffectOf(p, e.reply, e.uuid));
    }
  }

  lemma MovedLater(c: Config, s: State, p: Proc, r: Reply, uuid: TaskId)
    requires Fits(s, p, r, uuid) && Shape(p)
    ensures ProcLater(p, Moved(c, s.now, Found(s, Key(p)), p, r, uuid))
  {
  }

  lemma ApplyLater(c: Config, s: State, i: nat, q: Proc, e: Effect)
    requires s.hist.Keys == s.maker.Keys && i < |s.procs| && ProcLater(s.procs[i], q)
    requires e.Claim? ==> q.task == Some(e.k) && e.k !in s.maker
    requires e.Spawn? ==> Key(q) in s.maker && Key(q) !in s.worker
    ensures Later(s, Apply(c, s, i, q, e))
  {
  }

  lemma {:induction false} RunLater(c: Config, ss: seq<State>, es: seq<Event>, i: nat, j: nat)
    requires IsRun(c, ss, es) && i <= j < |ss|
    ensures Later(ss[i], ss[j])
    decreases j
  {
    if i < j {
      RunLater(c, ss, es, i, j - 1);
      RunInv(c, ss, es, j - 1);
      assert StepAt(c, ss, es, j - 1);
      NextLater(c, ss[j - 1], es[j - 1]);
      LaterTransitive(ss[i], ss[j - 1], ss[j]);
    }
  }

  lemma LaterTransitive(s: State, t: State, u: State)
    requires Later(s, t) && Later(t, u)
    ensures Later(s, u)
  {
  }

  // ------------------------------------------------------------------ isolation

  /** The statuses of a task that ran alone: a prefix of PENDING, RUNNING, verdict, or of PENDING, SUCCESS. */
  predicate SequentialStatuses(kind: Kind, h: seq<Stored>) {
    && (|h| > 0 ==> h[0].record.status.PENDING? && h[0].record.updatedAt == h[0].record.createdAt)
    && if kind.CreateSnapshot? then
         |h| <= 2 && (|h| > 1 ==> h[1].record.status.SUCCESS?)
       else
         |h| <= 3 && (|h| > 1 ==> h[1].record.status.RUNNING?) && (|h| > 2 ==> h[2].record.status.Terminal())
  }

  /** Each value is its predecessor with one change made to it: no write of another task, no lost write. */
  ghost predicate NoLostUpdate(h: seq<Stored>) {
    forall n :: 1 <= n < |h| ==> SucceedsBy(h[n - 1].record, h[n].record)
  }

  ghost predicate SucceedsBy(before: Record, after: Record) {
    before.updatedAt <= after.updatedAt && exists u: Change :: after == Modified(before, u, after.updatedAt)
  }

  /** `error` goes with FAILED, `result` with a finished snapshot; the identifying fields never change. */
  predicate WellFormed(k: TaskId, kind: Kind, vm: VmId, createdAt: Time, r: Record) {
    && r.taskId == k && r.resourceId == Some(vm) && r.createdAt == createdAt
    && r.operation == (match kind
                       case CreateVM => CREATE_VM
                       case DeleteVM => DELETE_VM
                       case ResizeVM(_) => RESIZE_VM
                       case CreateSnapshot => CREATE_SNAPSHOT)
    && (r.error.Some? <==> r.status.FAILED?)
    && (r.result.Some? <==> r.status.SUCCESS? && kind.CreateSnapshot?)
  }

  /** Whatever is interleaved, what is written under a task's key is that task's own sequential history. */
  lemma TaskIsolation(c: Config, ss: seq<State>, es: seq<Event>, i: nat, k: TaskId)
    requires IsRun(c, ss, es) && i < |ss| && k in ss[i].hist
    ensures k in ss[i].maker && ss[i].maker[k] < |ss[i].procs|
    ensures var s := ss[i]; var m := s.procs[s.maker[k]]; var h := s.hist[k];
      && SequentialStatuses(m.kind, h)
      && NoLostUpdate(h)
      && (forall n :: 0 <= n < |h| ==> WellFormed(k, m.kind, m.vm, h[0].record.createdAt, h[n].record))
      && (k in s.store ==> h != [] && s.store[k].record == h[|h| - 1].record)
  {
    var s := ss[i];
    RunInv(c, ss, es, i);
    assert KeyConsistent(c, s, k);
    var x := Hold(s, k);
    HistoryIsSequential(c, k, x.owner.kind, x.owner.vm, x.history);
  }

  lemma HistoryIsSequential(c: Config, k: TaskId, kind: Kind, vm: VmId, h: seq<Stored>)
    requires LegalHistory(c, k, kind, vm, h)
    ensures SequentialStatuses(kind, h) && NoLostUpdate(h)
    ensures forall n :: 0 <= n < |h| ==> WellFormed(k, kind, vm, h[0].record.createdAt, h[n].record)
  {
  }

  /** At most one live request or job per task id, so at most one writer of its key. */
  lemma OneWriter(c: Config, ss: seq<State>, es: seq<Event>, i: nat, a: nat, b: nat)
    requires IsRun(c, ss, es) && i < |ss| && a < |ss[i].procs| && b < |ss[i].procs|
    requires ss[i].procs[a].task.Some? && ss[i].procs[a].task == ss[i].procs[b].task
    requires ss[i].procs[a].pc.Live() && ss[i].procs[b].pc.Live()
    ensures a == b
  {
    RunInv(c, ss, es, i);
    assert ProcLinked(ss[i], a) && ProcLinked(ss[i], b);
    OwnerMoves(ss[i], a);
    OwnerMoves(ss[i], b);
  }

  /** A terminal record is never replaced: later on its key holds the same record or nothing. */
  lemma TerminalIsFinal(c: Config, ss: seq<State>, es: seq<Event>, i: nat, j: nat, k: TaskId)
    requires IsRun(c, ss, es) && i <= j < |ss|
    requires k in ss[i].store && ss[i].store[k].record.status.Terminal()
    ensures k in ss[i].hist && k in ss[j].hist && ss[j].hist[k] == ss[i].hist[k]
    ensures k in ss[j].store ==> ss[j].store[k].record == ss[i].store[k].record
  {
    RunInv(c, ss, es, i);
    assert k in ss[i].maker;
    RunLater(c, ss, es, i, j);
    TaskIsolation(c, ss, es, i, k);
    TaskIsolation(c, ss, es, j, k);
    assert ss[i].hist[k] <= ss[j].hist[k];
    assert ss[j].maker[k] == ss[i].maker[k];
    assert ProcLater(ss[i].procs[ss[i].maker[k]], ss[j].procs[ss[i].maker[k]]);
  }

  // ------------------------------------------------------------------ absence

  /** Every key was put there by the request that drew its id. */
  lemma KeysComeFromRequests(c: Config, ss: seq<State>, es: seq<Event>, i: nat, k: TaskId)
    requires IsRun(c, ss, es) && i < |ss| && k in ss[i].store
    ensures exists a :: 0 <= a < |ss[i].procs| && !ss[i].procs[a].job && ss[i].procs[a].task == Some(k)
    ensures k in ss[i].hist && ss[i].hist[k] != [] && ss[i].hist[k][0].record.status.PENDING?
  {
    RunInv(c, ss, es, i);
    assert k in ss[i].maker;
    assert KeyLinked(ss[i], k);
    TaskIsolation(c, ss, es, i, k);
  }

  /** Once an update of a task found the key gone, nothing is ever written or read under it again. */
  lemma {:induction false} AbsenceIsFinal(c: Config, ss: seq<State>, es: seq<Event>, i: nat, j: nat, a: nat)
    requires IsRun(c, ss, es) && i <= j < |ss| && a < |ss[i].procs|
    requires ss[i].procs[a].missed && ss[i].procs[a].task.Some?
    ensures var k := Key(ss[i].procs[a]);
      && k !in ss[j].store
      && k in ss[i].hist && k in ss[j].hist && ss[j].hist[k] == ss[i].hist[k]
    decreases j
  {
    RunLater(c, ss, es, i, j);
    assert ProcLater(ss[i].procs[a], ss[j].procs[a]);
    MissedIsAbsent(c, ss, es, j, a);
    if i < j {
      AbsenceIsFinal(c, ss, es, i, j - 1, a);
      RunLater(c, ss, es, i, j - 1);
      assert ProcLater(ss[i].procs[a], ss[j - 1].procs[a]);
      MissedWritesNothing(c, ss, es, j - 1, a);
    } else {
      RunInv(c, ss, es, i);
    }
  }

  lemma MissedIsAbsent(c: Config, ss: seq<State>, es: seq<Event>, i: nat, a: nat)
    requires IsRun(c, ss, es) && i < |ss| && a < |ss[i].procs|
    requires ss[i].procs[a].missed && ss[i].procs[a].task.Some?
    ensures var k := Key(ss[i].procs[a]); k in ss[i].maker && Owner(ss[i], k) == a && k !in ss[i].store
  {
    var s, k := ss[i], Key(ss[i].procs[a]);
    RunInv(c, ss, es, i);
    assert ProcLinked(s, a) && Progress(c, s.procs[a]) && KeyConsistent(c, s, k);
  }

  lemma MissedWritesNothing(c: Config, ss: seq<State>, es: seq<Event>, i: nat, a: nat)
    requires IsRun(c, ss, es) && i + 1 < |ss| && a < |ss[i].procs|
    requires ss[i].procs[a].missed && ss[i].procs[a].task.Some?
    ensures var k := Key(ss[i].procs[a]);
      k in ss[i].hist && k in ss[i + 1].hist && ss[i + 1].hist[k] == ss[i].hist[k]
  {
    var s, e, k := ss[i], es[i], Key(ss[i].procs[a]);
    RunInv(c, ss, es, i);
    MissedIsAbsent(c, ss, es, i, a);
    assert KeyConsistent(c, s, k);
    assert StepAt(c, ss, es, i);
    if e.Move? {
      MoveHolds(c, s, e, k);
    }
  }

  // ------------------------------------------------------------------ job conservation

  /** Job `j` is the job of request `a`: the same task, kind of work and VM. */
  predicate JobOf(s: State, a: nat, j: nat) {
    && a < |s.procs| && j < |s.procs|
    && !s.procs[a].job && s.procs[j].job
    && s.procs[a].task.Some? && s.procs[j].task == s.procs[a].task
    && s.procs[j].kind == s.procs[a].kind && s.procs[j].vm == s.procs[a].vm
  }

  /** Jobs match, one to one, the create, delete and resize requests that returned normally. */
  lemma JobConservation(c: Config, ss: seq<State>, es: seq<Event>, i: nat)
    requires IsRun(c, ss, es) && i < |ss|
    ensures var s := ss[i];
      && (forall j: nat :: j < |s.procs| && s.procs[j].job ==>
            exists a: nat :: JobOf(s, a, j) && s.procs[a].pc.Returned?)
      && (forall a: nat, a': nat, j: nat, j': nat :: JobOf(s, a, j) && JobOf(s, a', j') ==> (a == a' <==> j == j'))
      && (forall a: nat :: a < |s.procs| && !s.procs[a].job && s.procs[a].task.Some? ==>
            ((exists j: nat :: JobOf(s, a, j)) <==> s.procs[a].pc.Returned? && !s.procs[a].kind.CreateSnapshot?))
  {
    var s := ss[i];
    RunInv(c, ss, es, i);
    forall j: nat | j < |s.procs| && s.procs[j].job
      ensures exists a: nat :: JobOf(s, a, j) && s.procs[a].pc.Returned?
    {
      assert ProcLinked(s, j) && KeyLinked(s, Key(s.procs[j]));
      assert JobOf(s, s.maker[Key(s.procs[j])], j);
    }
    forall a: nat, a': nat, j: nat, j': nat | JobOf(s, a, j) && JobOf(s, a', j') ensures a == a' <==> j == j' {
      assert ProcLinked(s, a) && ProcLinked(s, a') && ProcLinked(s, j) && ProcLinked(s, j');
    }
    forall a: nat | a < |s.procs| && !s.procs[a].job && s.procs[a].task.Some?
      ensures (exists j: nat :: JobOf(s, a, j)) <==> s.procs[a].pc.Returned? && !s.procs[a].kind.CreateSnapshot?
    {
      var k := Key(s.procs[a]);
      assert ProcLinked(s, a) && KeyLinked(s, k);
      if s.procs[a].pc.Returned? && !s.procs[a].kind.CreateSnapshot? {
        assert JobOf(s, a, s.worker[k]);
      }
      forall j: nat | JobOf(s, a, j) ensures k in s.worker {
        assert ProcLinked(s, j);
      }
    }
  }

  // ------------------------------------------------------------------ a success is backed by an event

  /** What Nova must have answered before a task of this kind may read SUCCESS. */
  predicate Backed(kind: Kind, vm: VmId, acks: seq<Ack>) {
    match kind
    case CreateVM => acks != [] && acks[|acks| - 1] == Ack(GET_SERVER, vm, Seen(ACTIVE))
    case DeleteVM => acks == [Ack(DELETE_SERVER, vm, Done)]
    case ResizeVM(f) => acks == [Ack(RESIZE_SERVER(f), vm, Done), Ack(CONFIRM_SERVER_RESIZE, vm, Done)]
    case CreateSnapshot => |acks| == 2 && acks[1].call == CREATE_IMAGE && acks[1].reply.Answer?
  }

  ghost predicate BackedBy(s: State, k: TaskId, a: nat) {
    && a < |s.procs| && s.procs[a].task == Some(k)
    && k in s.maker && s.maker[k] < |s.procs|
    && s.procs[a].kind == s.procs[s.maker[k]].kind && s.procs[a].vm == s.procs[s.maker[k]].vm
    && Backed(s.procs[a].kind, s.procs[a].vm, s.procs[a].acks)
  }

  /** A record reads SUCCESS only after the worker saw the VM active, deleted, or resized and confirmed. */
  lemma SuccessIsBacked(c: Config, ss: seq<State>, es: seq<Event>, i: nat, k: TaskId)
    requires IsRun(c, ss, es) && i < |ss|
    requires k in ss[i].store && ss[i].store[k].record.status.SUCCESS?
    ensures exists a: nat :: BackedBy(ss[i], k, a)
  {
    var s := ss[i];
    RunInv(c, ss, es, i);
    assert k in s.maker && KeyConsistent(c, s, k);
    TaskIsolation(c, ss, es, i, k);
    SuccessfulIsBacked(c, s.now, k, Hold(s, k));
    assert KeyLinked(s, k);
    assert BackedBy(s, k, Owner(s, k));
  }

  lemma SuccessfulIsBacked(c: Config, now: Time, k: TaskId, x: Holding)
    requires Consistent(c, now, k, x) && x.found.Some? && x.found.value.status.SUCCESS?
    requires SequentialStatuses(x.owner.kind, x.history)
    ensures Backed(x.owner.kind, x.owner.vm, x.owner.acks)
  {
  }

  /** A failure must say what the last call that raised said; when Nova's last call raised, what that one said. */
  predicate QuotesFault(p: Proc, error: Option<string>) {
    && error.Some? && error == p.fault
    && p.acks != []
    && (p.acks[|p.acks| - 1].reply.Raise? ==> error == Some(p.acks[|p.acks| - 1].reply.message))
  }

  lemma FailureQuotesFault(c: Config, ss: seq<State>, es: seq<Event>, i: nat, k: TaskId)
    requires IsRun(c, ss, es) && i < |ss| && k in ss[i].store && ss[i].store[k].record.status.FAILED?
    ensures k in ss[i].worker && ss[i].worker[k] < |ss[i].procs|
    ensures var p := ss[i].procs[ss[i].worker[k]];
      p.kind.DeleteVM? || p.kind.ResizeVM? ==> QuotesFault(p, ss[i].store[k].record.error)
  {
    RunInv(c, ss, es, i);
    assert k in ss[i].maker && KeyConsistent(c, ss[i], k);
    TaskIsolation(c, ss, es, i, k);
    FailedQuotes(c, ss[i].now, k, Hold(ss[i], k));
  }

  lemma FailedQuotes(c: Config, now: Time, k: TaskId, x: Holding)
    requires Consistent(c, now, k, x) && x.found.Some? && x.found.value.status.FAILED?
    requires SequentialStatuses(x.owner.kind, x.history)
    ensures |x.history| == 3 && x.owner.job
    ensures x.owner.kind.DeleteVM? || x.owner.kind.ResizeVM? ==> QuotesFault(x.owner, x.found.value.error)
  {
  }

  /** The second call of the request made the image that `result` names. */
  predicate NamesImage(acks: seq<Ack>, result: Option<nat>) {
    |acks| == 2 && acks[1].call == CREATE_IMAGE && acks[1].reply.Answer? && result == Some(acks[1].reply.id)
  }

  /** A finished snapshot's record carries the id of the image Nova made. */
  lemma SnapshotNamesImage(c: Config, ss: seq<State>, es: seq<Event>, i: nat, k: TaskId)
    requires IsRun(c, ss, es) && i < |ss| && k in ss[i].store && ss[i].store[k].record.status.SUCCESS?
    ensures k in ss[i].maker && ss[i].maker[k] < |ss[i].procs|
    ensures var p := ss[i].procs[ss[i].maker[k]];
      p.kind.CreateSnapshot? ==> NamesImage(p.acks, ss[i].store[k].record.result)
  {
    RunInv(c, ss, es, i);
    assert k in ss[i].maker && KeyConsistent(c, ss[i], k);
    TaskIsolation(c, ss, es, i, k);
    ImageIsNamed(c, ss[i].now, k, Hold(ss[i], k));
  }

  lemma ImageIsNamed(c: Config, now: Time, k: TaskId, x: Holding)
    requires Consistent(c, now, k, x) && x.found.Some? && x.found.value.status.SUCCESS?
    requires SequentialStatuses(x.owner.kind, x.history)
    ensures x.owner.kind.CreateSnapshot? ==> NamesImage(x.owner.acks, x.found.value.result)
  {
  }

  /** What a create job that received `acks` must record: by the first ACTIVE or ERROR, or by the timeout. */
  predicate PollRecords(timeout: int, acks: seq<Ack>, status: Status, error: Option<string>) {
    && (forall n :: 0 <= n < |acks| - 1 ==> acks[n].reply != Seen(ACTIVE) && acks[n].reply != Seen(ERROR))
    && (status == SUCCESS <==> acks != [] && acks[|acks| - 1].reply == Seen(ACTIVE))
    && (status == FAILED && error == Some("VM entered ERROR state.") <==>
          acks != [] && acks[|acks| - 1].reply == Seen(ERROR))
    && (status == FAILED && error == Some("Timeout waiting for VM to become ACTIVE.") <==>
          forall n :: 0 <= n < |acks| ==> acks[n].reply != Seen(ACTIVE) && acks[n].reply != Seen(ERROR))
    && |acks| <= (if timeout <= 0 then 0 else (timeout + 4) / 5)
    && (error == Some("Timeout waiting for VM to become ACTIVE.") ==>
          |acks| == if timeout <= 0 then 0 else (timeout + 4) / 5)
  }

  lemma VerdictRecords(timeout: int, acks: seq<Ack>, status: Status, error: Option<string>)
    requires IsVerdict(timeout, Replies(acks), Change(status, None, error, None))
    ensures PollRecords(timeout, acks, status, error)
  {
    var obs := Replies(acks);
    PollConsumed(timeout, obs, Change(status, None, error, None));
    assert |obs| == |acks| && forall n :: 0 <= n < |acks| ==> acks[n].reply == obs[n];
    if forall n :: 0 <= n < |acks| ==> acks[n].reply != Seen(ACTIVE) && acks[n].reply != Seen(ERROR) {
      assert forall n :: 0 <= n < |obs| ==> obs[n] == acks[n].reply;
    }
  }

  /** In any run a poll's record holds the verdict that the answers of that very job call for. */
  lemma PollVerdictInAnyRun(c: Config, ss: seq<State>, es: seq<Event>, i: nat, k: TaskId)
    requires IsRun(c, ss, es) && i < |ss| && k in ss[i].hist && |ss[i].hist[k]| == 3
    ensures k in ss[i].worker && ss[i].worker[k] < |ss[i].procs|
    ensures var p := ss[i].procs[ss[i].worker[k]]; var r := ss[i].hist[k][2].record;
      p.kind.CreateVM? ==> PollRecords(c.timeout, p.acks, r.status, r.error)
  {
    RunInv(c, ss, es, i);
    assert k in ss[i].maker && KeyConsistent(c, ss[i], k);
    PolledRecords(c, ss[i].now, k, Hold(ss[i], k));
  }

  lemma PolledRecords(c: Config, now: Time, k: TaskId, x: Holding)
    requires Consistent(c, now, k, x) && |x.history| == 3
    ensures x.owner.job
    ensures var r := x.history[2].record;
      x.owner.kind.CreateVM? ==> PollRecords(c.timeout, x.owner.acks, r.status, r.error)
  {
    if x.owner.kind.CreateVM? {
      VerdictRecords(c.timeout, x.owner.acks, x.history[2].record.status, x.history[2].record.error);
    }
  }

  // ------------------------------------------------------------------ listing

  /**
   A listing whose key scan happened at step i and whose multi-get at step j: no task twice, every
   task that was there at both ends, and each record with its value at the multi-get.
   */
  lemma ListingIsConsistent(c: Config, ss: seq<State>, es: seq<Event>, i: nat, j: nat, keys: seq<TaskId>)
    requires IsRun(c, ss, es) && i <= j < |ss|
    requires Distinct(keys) && forall k :: k in keys <==> k in ss[i].store
    ensures var rs := Collect(ss[j].store, keys);
      && DistinctTasks(rs)
      && (forall k :: k in ss[i].store && k in ss[j].store ==> ss[j].store[k].record in rs)
      && (forall r :: r in rs ==> r.taskId in ss[j].store && ss[j].store[r.taskId].record == r)
  {
    forall k | k in ss[j].store ensures ss[j].store[k].record.taskId == k {
      RunInv(c, ss, es, j);
      TaskIsolation(c, ss, es, j, k);
    }
    CollectDistinct(ss[j].store, keys);
  }
}
