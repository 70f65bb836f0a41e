/** What the in-memory service accepts, records and leaves, in plain values. */
module VmOutcomes {
  import opened Tasks
  import opened VmMachine
  import opened VmInvariant
  import opened VmTheorems

  // ------------------------------------------------------------------ what is accepted

  /**
   A creation is always accepted; a deletion or a snapshot of any VM in the table; a resize of one that is
   ACTIVE or SHUTOFF, to a known flavor. An unknown VM is refused first, then the status, then the flavor.
   */
  lemma RequestAccepted(c: Config, s: State, v: VmId, f: FlavorId, x: SnapId)
    requires WellTyped(s)
    ensures Refusal(c, s, CreateVm(v, f)) == None
    ensures Refusal(c, s, DeleteVm(v)) == if v in s.table then None else Some(VM_NOT_FOUND)
    ensures Refusal(c, s, CreateSnapshot(v, x)) == if v in s.table then None else Some(VM_NOT_FOUND)
    ensures var refusal := Refusal(c, s, ResizeVm(v, f));
      && (refusal == None <==> v in s.table && StatusOf(s, v) in {ACTIVE, SHUTOFF} && f in c.flavors)
      && (refusal == Some(VM_NOT_FOUND) <==> v !in s.table)
      && (refusal == Some(INVALID_STATE) <==> v in s.table && StatusOf(s, v) !in {ACTIVE, SHUTOFF})
      && (refusal == Some(FLAVOR_NOT_FOUND) <==>
            v in s.table && StatusOf(s, v) in {ACTIVE, SHUTOFF} && f !in c.flavors)
  {
  }

  // ------------------------------------------------------------------ what is recorded

  /** `r` is the record of thread `k` in this status; a finished snapshot's carries the snapshot's id. */
  predicate Carries(k: nat, t: Thread, r: Record, status: Status) {
    && r == Record(k, status, r.operation, Some(t.vm), r.createdAt, r.updatedAt, None, r.result)
    && r.createdAt <= r.updatedAt
    && r.operation == (match t.kind
                       case Creation(_) => CREATE_VM
                       case Deletion(_) => DELETE_VM
                       case Action(a, _) => PERFORM(a)
                       case Resizing(_, _) => RESIZE_VM
                       case Snapshot(_) => CREATE_SNAPSHOT)
    && r.result == (if status == SUCCESS && t.kind.Snapshot? then Some(t.kind.snap) else None)
  }

  predicate Stored(s: State, k: nat, status: Status)
    requires k < |s.threads|
  {
    k in s.store && Carries(k, s.threads[k], s.store[k].record, status) && s.store[k].record.updatedAt <= s.now
  }

  /** PENDING is stored before the handler goes on, RUNNING before the coroutine works, SUCCESS before it is done. */
  predicate Kept(s: State, k: nat)
    requires k < |s.threads|
  {
    match s.threads[k].phase
    case Opening(r) => k !in s.store && Carries(k, s.threads[k], r, PENDING) && r.updatedAt <= s.now
    case Ready => Stored(s, k, PENDING)
    case Get1 => Stored(s, k, PENDING)
    case Set1(r) => Stored(s, k, PENDING) && Carries(k, s.threads[k], r, RUNNING) && r.updatedAt <= s.now
    case Mid => Stored(s, k, RUNNING)
    case Fin => Stored(s, k, RUNNING)
    case Get2 => Stored(s, k, RUNNING)
    case Set2(r) => Stored(s, k, RUNNING) && Carries(k, s.threads[k], r, SUCCESS) && r.updatedAt <= s.now
    case Done => Stored(s, k, SUCCESS)
    case Died(_) => true
  }

  /** The three SETs store what they carry, for one time to live from then; only expiry takes a record away. */
  lemma StoreStep(c: Config, s: State, e: Event, k: nat)
    requires WellTyped(s) && Enabled(c, s, e)
    ensures var t := Next(c, s, e);
      if e == Resume(k) && s.threads[k].phase.Opening? then
        k in t.store && t.store[k] == Entry(s.threads[k].phase.record, s.now + c.ttl)
      else if e == Resume(k) && s.threads[k].phase.Set1? then
        k in t.store && t.store[k] == Entry(s.threads[k].phase.record, s.now + c.ttl)
      else if e == Resume(k) && s.threads[k].phase.Set2? then
        k in t.store && t.store[k] == Entry(s.threads[k].phase.record, s.now + c.ttl)
      else if e == Expire(k) then
        k !in t.store
      else
        (k in t.store <==> k in s.store) && (k in s.store ==> t.store[k] == s.store[k])
  {
  }

  lemma NextKept(c: Config, s: State, e: Event, k: nat)
    requires WellTyped(s) && Enabled(c, s, e) && k < |s.threads| && Kept(s, k) && e != Expire(k)
    ensures Kept(Next(c, s, e), k)
  {
    StoreStep(c, s, e, k);
  }

  /** As long as it has not expired, the record of every accepted request is in the store and says how far it is. */
  lemma {:induction false} RecordIsKept(c: Config, ss: seq<State>, es: seq<Event>, i: nat, k: nat)
    requires IsRun(c, ss, es) && i < |ss| && k < |ss[i].threads|
    requires forall n :: 0 <= n < i ==> es[n] != Expire(k)
    ensures Kept(ss[i], k)
  {
    if i > 0 {
      RunInv(c, ss, es, i - 1);
      assert StepAt(c, ss, es, i - 1);
      if k < |ss[i - 1].threads| {
        RecordIsKept(c, ss, es, i - 1, k);
        NextKept(c, ss[i - 1], es[i - 1], k);
      } else {
        BegunIsKept(c, ss[i - 1], es[i - 1]);
      }
    }
  }

  lemma BegunIsKept(c: Config, s: State, e: Event)
    requires WellTyped(s) && Recorded(s) && Enabled(c, s, e) && e.Begin?
    ensures Kept(Next(c, s, e), |s.threads|)
  {
    assert |s.threads| !in s.store;
  }

  /**
   When every thread is done, each accepted request whose record has not expired has it in the store,
   reading SUCCESS, and every snapshot is active.
   */
  lemma DrainedSucceeds(c: Config, ss: seq<State>, es: seq<Event>, i: nat)
    requires IsRun(c, ss, es) && i < |ss| && AllDone(ss[i])
    ensures forall k :: 0 <= k < |ss[i].threads| && (forall n :: 0 <= n < i ==> es[n] != Expire(k)) ==>
      k in ss[i].store && ss[i].store[k].record.status == SUCCESS
    ensures forall x :: x in ss[i].snaps ==> ss[i].snaps[x]
  {
    DrainedMeansSuccess(c, ss, es, i);
    forall k | 0 <= k < |ss[i].threads| && (forall n :: 0 <= n < i ==> es[n] != Expire(k))
      ensures k in ss[i].store && ss[i].store[k].record.status == SUCCESS
    {
      RecordIsKept(c, ss, es, i, k);
    }
  }

  // ------------------------------------------------------------------ snapshots

  /** A snapshot appears, saving, when its request returns, is active when its sleep is over, and else never changes. */
  lemma SnapshotStep(c: Config, s: State, e: Event, x: SnapId)
    requires WellTyped(s) && Enabled(c, s, e)
    ensures var t := Next(c, s, e);
      if e.Resume? && s.threads[e.k].kind == Snapshot(x) && s.threads[e.k].phase.Ready? then
        x in t.snaps && !t.snaps[x]
      else if e.Resume? && s.threads[e.k].kind == Snapshot(x) && s.threads[e.k].phase.Fin? then
        x in t.snaps && t.snaps[x]
      else
        (x in t.snaps <==> x in s.snaps) && (x in s.snaps ==> t.snaps[x] == s.snaps[x])
  {
  }

  /** The snapshot of every request that has returned is there. */
  lemma {:induction false} SnapshotIsShown(c: Config, ss: seq<State>, es: seq<Event>, i: nat, k: nat)
    requires IsRun(c, ss, es) && i < |ss| && k < |ss[i].threads| && ss[i].threads[k].kind.Snapshot?
    requires !InHandler(ss[i].threads[k]) && !ss[i].threads[k].phase.Died?
    ensures ss[i].threads[k].kind.snap in ss[i].snaps
  {
    if i > 0 {
      var s, e := ss[i - 1], es[i - 1];
      RunIdentified(c, ss, es, i - 1);
      assert StepAt(c, ss, es, i - 1);
      SnapshotStep(c, s, e, ss[i].threads[k].kind.snap);
      if k < |s.threads| && !InHandler(s.threads[k]) && !s.threads[k].phase.Died? {
        SnapshotIsShown(c, ss, es, i - 1, k);
      }
    }
  }
}
