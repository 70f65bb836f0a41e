/** What the in-memory service promises over whole runs. */
module VmTheorems {
  import opened Tasks
  import opened VmMachine
  import opened VmInvariant

  ghost predicate Inv(c: Config, s: State) {
    Identified(s) && WellTyped(s) && Recorded(s) && Removed(s) && FlavorsGranted(c, s) && SnapshotsAccounted(s)
  }

  lemma {:induction false} RunInv(c: Config, ss: seq<State>, es: seq<Event>, i: nat)
    requires IsRun(c, ss, es) && i < |ss|
    ensures Inv(c, ss[i])
  {
    if i == 0 {
      SeededIdentified(ss[0]);
    } else {
      var s, e := ss[i - 1], es[i - 1];
      RunInv(c, ss, es, i - 1);
      assert StepAt(c, ss, es, i - 1);
      NextIdentified(c, s, e);
      NextRecorded(c, s, e);
      NextRemoved(c, s, e);
      NextFlavorsGranted(c, s, e);
      NextSnapshotsAccounted(c, s, e);
    }
    IdentifiedIsWellTyped(ss[i]);
  }

  lemma RunIdentified(c: Config, ss: seq<State>, es: seq<Event>, i: nat)
    requires IsRun(c, ss, es) && i < |ss|
    ensures Identified(ss[i]) && WellTyped(ss[i])
  {
    RunInv(c, ss, es, i);
  }

  // ------------------------------------------------------------------ quiescence

  predicate AllDone(s: State) {
    forall k :: 0 <= k < |s.threads| ==> s.threads[k].phase.Done?
  }

  /** No thread runs or will: each is done or died. */
  predicate Idle(s: State) {
    forall k :: 0 <= k < |s.threads| ==> !s.threads[k].phase.Live()
  }

  ghost predicate CleanAt(ss: seq<State>, es: seq<Event>, i: nat) {
    i < |es| && i < |ss| && WellTyped(ss[i]) && CleanCapture(ss[i], es[i])
  }

  ghost predicate CleanRun(ss: seq<State>, es: seq<Event>) {
    forall i :: 0 <= i < |es| ==> CleanAt(ss, es, i)
  }

  lemma {:induction false} RunAccounted(c: Config, ss: seq<State>, es: seq<Event>, i: nat)
    requires IsRun(c, ss, es) && CleanSeed(ss[0]) && CleanRun(ss, es) && i < |ss|
    ensures WellTyped(ss[i]) && Accounted(ss[i]) && CleanSaves(ss[i])
  {
    RunIdentified(c, ss, es, i);
    if i > 0 {
      RunInv(c, ss, es, i);
      RunIdentified(c, ss, es, i - 1);
      RunAccounted(c, ss, es, i - 1);
      assert StepAt(c, ss, es, i - 1) && CleanAt(ss, es, i - 1);
      NextCleanSaves(c, ss[i - 1], es[i - 1]);
      NextAccounted(c, ss[i - 1], es[i - 1]);
    }
  }

  /**
   A VM in a transient status always has a thread whose last status write or removal is still to come, or
   one that died before it. So with nothing running only a death explains such a status, and with every
   thread done there is none; provided a resize captured such a status only of a VM whose deletion had been
   accepted.
   */
  lemma Quiescence(c: Config, ss: seq<State>, es: seq<Event>, i: nat)
    requires IsRun(c, ss, es) && CleanSeed(ss[0]) && CleanRun(ss, es) && i < |ss|
    ensures WellTyped(ss[i])
    ensures forall v :: v in ss[i].table && StatusOf(ss[i], v) in {BUILDING, REBOOT, RESIZE, DELETED} ==>
      && OwedOrLost(ss[i], v)
      && (Idle(ss[i]) ==> exists k :: LostBy(ss[i], v, k))
      && !AllDone(ss[i])
  {
    RunAccounted(c, ss, es, i);
  }

  predicate InHandler(t: Thread) {
    t.phase.Opening? || t.phase.Ready?
  }

  /** No handler is interrupted: while one is at its await, nothing but time moves until it has returned. */
  predicate Uninterrupted(s: State, e: Event) {
    forall k :: 0 <= k < |s.threads| && InHandler(s.threads[k]) ==>
      e == Resume(k) || e == Die(k) || e.Tick? || e.Expire?
  }

  ghost predicate AtomicAt(ss: seq<State>, es: seq<Event>, i: nat) {
    i < |es| && i < |ss| && Uninterrupted(ss[i], es[i])
  }

  ghost predicate AtomicRun(ss: seq<State>, es: seq<Event>) {
    forall i :: 0 <= i < |es| ==> AtomicAt(ss, es, i)
  }

  /** With atomic handlers a resize captures what it checked. */
  ghost predicate ChecksHold(s: State)
    requires WellTyped(s)
  {
    forall k :: 0 <= k < |s.threads| && InHandler(s.threads[k]) && s.threads[k].kind.Resizing? ==>
      Rooted(s, s.threads[k]) && s.objs[s.threads[k].kind.raw].status in {ACTIVE, SHUTOFF}
  }

  lemma NextChecksHold(c: Config, s: State, e: Event)
    requires WellTyped(s) && ChecksHold(s) && Enabled(c, s, e) && Uninterrupted(s, e)
    requires WellTyped(Next(c, s, e))
    ensures ChecksHold(Next(c, s, e))
  {
  }

  lemma {:induction false} RunChecksHold(c: Config, ss: seq<State>, es: seq<Event>, i: nat)
    requires IsRun(c, ss, es) && AtomicRun(ss, es) && i < |ss|
    ensures WellTyped(ss[i]) && ChecksHold(ss[i])
  {
    RunIdentified(c, ss, es, 0);
    if i > 0 {
      RunChecksHold(c, ss, es, i - 1);
      RunIdentified(c, ss, es, i);
      assert StepAt(c, ss, es, i - 1) && AtomicAt(ss, es, i - 1);
      NextChecksHold(c, ss[i - 1], es[i - 1]);
    }
  }

  /** With atomic handlers and clean seed data, quiescence needs no further condition. */
  lemma AtomicQuiescence(c: Config, ss: seq<State>, es: seq<Event>, i: nat)
    requires IsRun(c, ss, es) && CleanSeed(ss[0]) && AtomicRun(ss, es) && i < |ss|
    ensures WellTyped(ss[i])
    ensures forall v :: v in ss[i].table && StatusOf(ss[i], v) in {BUILDING, REBOOT, RESIZE, DELETED} ==>
      && OwedOrLost(ss[i], v)
      && (Idle(ss[i]) ==> exists k :: LostBy(ss[i], v, k))
      && !AllDone(ss[i])
  {
    forall j | 0 <= j < |es| ensures CleanAt(ss, es, j) {
      RunChecksHold(c, ss, es, j);
      assert StepAt(c, ss, es, j);
      assert es[j].Resume? ==> Rooted(ss[j], ss[j].threads[es[j].k]);
    }
    Quiescence(c, ss, es, i);
  }

  // ------------------------------------------------------------------ removal

  lemma {:induction false} GoneForever(c: Config, ss: seq<State>, es: seq<Event>, i: nat, j: nat, v: VmId)
    requires IsRun(c, ss, es) && i <= j < |ss| && Gone(ss[i], v)
    ensures Gone(ss[j], v)
    decreases j
  {
    if i < j {
      GoneForever(c, ss, es, i, j - 1, v);
      assert StepAt(c, ss, es, j - 1);
      RunIdentified(c, ss, es, j - 1);
      GoneStays(c, ss[j - 1], es[j - 1], v);
    }
  }

  /** Once a deletion's record reads SUCCESS, no later step makes that VM readable or listed again. */
  lemma RemovalIsPermanent(c: Config, ss: seq<State>, es: seq<Event>, i: nat, j: nat, k: TaskId, v: VmId)
    requires IsRun(c, ss, es) && i <= j < |ss|
    requires k in ss[i].store && ss[i].store[k].record.status.SUCCESS?
    requires ss[i].store[k].record.operation == DELETE_VM && ss[i].store[k].record.resourceId == Some(v)
    ensures WellTyped(ss[j]) && v !in ss[j].table && !Readable(ss[j], v) && v !in Listed(ss[j])
  {
    RunInv(c, ss, es, i);
    var t := ss[i].threads[k];
    assert ThreadIdentified(ss[i], k);
    assert HasRemoved(t);
    assert ss[i].objs[t.kind.raw].id == v;
    GoneForever(c, ss, es, i, j, v);
    RunInv(c, ss, es, j);
  }

  // ------------------------------------------------------------------ the DELETED mark

  /** The thread may still write a status other than DELETED on its VM. */
  predicate MayRevive(t: Thread) {
    && (t.kind.Creation? || t.kind.Action? || t.kind.Resizing?)
    && t.phase.Pending()
    && (t.kind.Resizing? && t.phase.Fin? ==> t.saved != DELETED)
  }

  ghost predicate Doomed(s: State, v: VmId)
    requires WellTyped(s)
  {
    && (exists o :: 0 <= o < |s.objs| && s.objs[o].id == v)
    && (v in s.table ==> StatusOf(s, v) == DELETED)
    && (forall k :: 0 <= k < |s.threads| && s.threads[k].vm == v ==> !MayRevive(s.threads[k]))
  }

  lemma DoomedStays(c: Config, s: State, e: Event, v: VmId)
    requires Identified(s) && WellTyped(s) && Doomed(s, v) && Enabled(c, s, e)
    requires WellTyped(Next(c, s, e))
    ensures Doomed(Next(c, s, e), v)
  {
    var t := Next(c, s, e);
    var o :| 0 <= o < |s.objs| && s.objs[o].id == v;
    assert v in s.origin;
    ObjectsStay(c, s, e);
    assert t.objs[o].id == v;
    if e.Resume? && s.threads[e.k].vm == v {
      ResumedDoomed(c, s, e.k, v);
    } else if v in t.table {
      OtherVmKept(c, s, e, v);
    }
  }

  lemma ResumedDoomed(c: Config, s: State, k: nat, v: VmId)
    requires Identified(s) && WellTyped(s) && Doomed(s, v)
    requires k < |s.threads| && s.threads[k].phase.Live() && s.threads[k].vm == v
    requires WellTyped(Resumed(c, s, k))
    ensures var t := Resumed(c, s, k);
      && (v in t.table ==> StatusOf(t, v) == DELETED)
      && !MayRevive(t.threads[k])
  {
  }

  lemma DoomedStep(c: Config, ss: seq<State>, es: seq<Event>, n: nat, v: VmId)
    requires IsRun(c, ss, es) && n < |es| && WellTyped(ss[n]) && Doomed(ss[n], v)
    ensures WellTyped(ss[n + 1]) && Doomed(ss[n + 1], v)
  {
    RunIdentified(c, ss, es, n);
    RunIdentified(c, ss, es, n + 1);
    assert StepAt(c, ss, es, n);
    DoomedStays(c, ss[n], es[n], v);
  }

  lemma {:induction false} DoomedForever(c: Config, ss: seq<State>, es: seq<Event>, i: nat, j: nat, v: VmId)
    requires IsRun(c, ss, es) && i <= j < |ss| && WellTyped(ss[i]) && Doomed(ss[i], v)
    ensures WellTyped(ss[j]) && Doomed(ss[j], v)
    decreases j
  {
    if i < j {
      DoomedForever(c, ss, es, i, j - 1, v);
      DoomedStep(c, ss, es, j - 1, v);
    }
  }

  predicate Marks(s: State, e: Event, v: VmId) {
    && e.Resume? && e.k < |s.threads| && s.threads[e.k].vm == v
    && s.threads[e.k].kind.Deletion? && s.threads[e.k].phase.Ready?
  }

  /** The mark is sticky: with no other status writer outstanding, the VM is never read or listed again. */
  lemma MarkIsSticky(c: Config, ss: seq<State>, es: seq<Event>, i: nat, j: nat, v: VmId)
    requires IsRun(c, ss, es) && i < j < |ss| && Marks(ss[i], es[i], v)
    requires forall k :: 0 <= k < |ss[i].threads| && ss[i].threads[k].vm == v ==> !MayRevive(ss[i].threads[k])
    ensures WellTyped(ss[j]) && !Readable(ss[j], v) && v !in Listed(ss[j])
  {
    RunIdentified(c, ss, es, i);
    RunIdentified(c, ss, es, i + 1);
    assert StepAt(c, ss, es, i);
    var s, k := ss[i], es[i].k;
    assert ThreadIdentified(s, k);
    if v in s.table {
      AliasIsEntry(s, k);
    }
    assert ss[i + 1].objs[s.threads[k].kind.raw].id == v;
    assert Doomed(ss[i + 1], v);
    DoomedForever(c, ss, es, i + 1, j, v);
  }

  predicate OnlyResumes(es: seq<Event>, k: nat) {
    forall i :: 0 <= i < |es| ==> es[i] == Resume(k)
  }

  lemma StepsCons(c: Config, s: State, e: Event, ss: seq<State>, es: seq<Event>)
    requires WellTyped(s) && Enabled(c, s, e) && Steps(c, ss, es) && ss[0] == Next(c, s, e)
    ensures Steps(c, [s] + ss, [e] + es)
  {
    var ss', es' := [s] + ss, [e] + es;
    forall i | 0 <= i < |es'| ensures StepAt(c, ss', es', i) {
      if i > 0 {
        assert StepAt(c, ss, es, i - 1);
        assert ss'[i] == ss[i - 1] && ss'[i + 1] == ss[i] && es'[i] == es[i - 1];
      }
    }
  }

  /** Resumed, such a thread either writes another status or may still do so. */
  lemma StillRevives(c: Config, s: State, v: VmId, k: nat)
    requires Identified(s) && WellTyped(s) && v in s.table && StatusOf(s, v) == DELETED
    requires k < |s.threads| && s.threads[k].vm == v && MayRevive(s.threads[k])
    requires WellTyped(Resumed(c, s, k))
    ensures var t := Resumed(c, s, k);
      v in t.table && t.threads[k].vm == v && (StatusOf(t, v) != DELETED || MayRevive(t.threads[k]))
  {
    assert ThreadIdentified(s, k);
    if s.threads[k].kind.Resizing? {
      AliasIsEntry(s, k);
    }
    assert s.threads[k].kind.Creation? ==> !InHandler(s.threads[k]);
  }

  /** And only then: a status writer still outstanding on a marked VM can bring it back before its removal. */
  lemma {:induction false} MarkCanBeUndone(c: Config, s: State, v: VmId, k: nat)
      returns (ss: seq<State>, es: seq<Event>)
    requires Identified(s) && WellTyped(s) && v in s.table
    requires k < |s.threads| && s.threads[k].vm == v && MayRevive(s.threads[k])
    ensures Steps(c, ss, es) && ss[0] == s && OnlyResumes(es, k)
    ensures WellTyped(ss[|es|]) && Readable(ss[|es|], v)
    decreases s.threads[k].phase.Remaining()
  {
    if StatusOf(s, v) != DELETED {
      return [s], [];
    }
    var t := Next(c, s, Resume(k));
    NextIdentified(c, s, Resume(k));
    IdentifiedIsWellTyped(t);
    StillRevives(c, s, v, k);
    if StatusOf(t, v) != DELETED {
      ss, es := [t], [];
    } else {
      ss, es := MarkCanBeUndone(c, t, v, k);
    }
    StepsCons(c, s, Resume(k), ss, es);
    ss, es := [s] + ss, [Resume(k)] + es;
  }

  // ------------------------------------------------------------------ termination

  function Work(ts: seq<Thread>): nat {
    if ts == [] then 0 else ts[0].phase.Remaining() + Work(ts[1..])
  }

  lemma {:induction false} WorkUpdate(ts: seq<Thread>, k: nat, t: Thread)
    requires k < |ts|
    ensures Work(ts[k := t]) == Work(ts) - ts[k].phase.Remaining() + t.phase.Remaining()
  {
    if k == 0 {
      assert ts[0 := t][1..] == ts[1..];
    } else {
      assert ts[k := t][1..] == ts[1..][k - 1 := t];
      WorkUpdate(ts[1..], k - 1, t);
    }
  }

  lemma {:induction false} WorkIsZero(ts: seq<Thread>)
    ensures Work(ts) == 0 <==> forall k :: 0 <= k < |ts| ==> !ts[k].phase.Live()
  {
    if ts != [] {
      WorkIsZero(ts[1..]);
      assert forall k :: 1 <= k < |ts| ==> ts[k] == ts[1..][k - 1];
    }
  }

  function Resumptions(es: seq<Event>, i: nat, j: nat): nat
    requires i <= j <= |es|
  {
    if i == j then 0 else Resumptions(es, i, j - 1) + (if es[j - 1].Resume? || es[j - 1].Die? then 1 else 0)
  }

  lemma NextWork(c: Config, s: State, e: Event)
    requires WellTyped(s) && Enabled(c, s, e) && !e.Begin?
    ensures Work(Next(c, s, e).threads) + (if e.Resume? || e.Die? then 1 else 0) <= Work(s.threads)
  {
    if e.Resume? {
      WorkUpdate(s.threads, e.k, ThreadAfter(s, e.k, s.threads[e.k]));
    } else if e.Die? {
      WorkUpdate(s.threads, e.k, s.threads[e.k].(phase := Died(s.threads[e.k].phase.Pending())));
    }
  }

  /** Between requests, every resumption uses up work: at most `Work` of them can follow. */
  lemma {:induction false} WorkRunsOut(c: Config, ss: seq<State>, es: seq<Event>, i: nat, j: nat)
    requires IsRun(c, ss, es) && i <= j < |ss|
    requires forall n :: i <= n < j ==> !es[n].Begin?
    ensures Work(ss[j].threads) + Resumptions(es, i, j) <= Work(ss[i].threads)
    decreases j
  {
    if i < j {
      WorkRunsOut(c, ss, es, i, j - 1);
      assert StepAt(c, ss, es, j - 1);
      NextWork(c, ss[j - 1], es[j - 1]);
    }
  }

  /** A run that cannot go on has no work left; when no thread died, all its records and snapshots succeeded. */
  lemma DrainedMeansSuccess(c: Config, ss: seq<State>, es: seq<Event>, i: nat)
    requires IsRun(c, ss, es) && i < |ss|
    ensures WellTyped(ss[i])
    ensures (forall k :: !Enabled(c, ss[i], Resume(k))) <==> Work(ss[i].threads) == 0
    ensures AllDone(ss[i]) ==>
      && (forall k :: k in ss[i].store ==> ss[i].store[k].record.status.SUCCESS?)
      && (forall x :: x in ss[i].snaps ==> ss[i].snaps[x])
  {
    RunInv(c, ss, es, i);
    WorkIsZero(ss[i].threads);
    forall k | 0 <= k < |ss[i].threads| && ss[i].threads[k].phase.Live() ensures Enabled(c, ss[i], Resume(k)) {
    }
  }

  // ------------------------------------------------------------------ flavors

  /** In every reachable state the flavor of every VM is its first one or one that a resize of it was granted. */
  lemma FlavorIntegrity(c: Config, ss: seq<State>, es: seq<Event>, i: nat, v: VmId)
    requires IsRun(c, ss, es) && i < |ss| && v in ss[i].table
    ensures ss[i].table[v] < |ss[i].objs| && FlavorGranted(c, ss[i], v, ss[i].objs[ss[i].table[v]].flavor)
  {
    RunInv(c, ss, es, i);
  }

  // ------------------------------------------------------------------ listing

  /** A listing shows current dictionaries that can be read and pass the filter. */
  lemma {:induction false} ListingIsSound(s: State, order: seq<VmId>, status: Option<VmState>)
    requires Identified(s) && forall v :: v in order ==> v in s.table
    ensures forall vm :: vm in Filtered(s, order, status) ==>
      && vm.id in order && Readable(s, vm.id) && vm == s.objs[s.table[vm.id]]
      && vm.status != DELETED && (status == None || vm.status == status.value)
  {
    if order != [] {
      ListingIsSound(s, order[..|order| - 1], status);
    }
  }

  predicate DistinctIds(vms: seq<Vm>) {
    forall m, n :: 0 <= m < n < |vms| ==> vms[m].id != vms[n].id
  }

  /** It shows no VM twice. */
  lemma {:induction false} ListingHasNoRepeats(s: State, order: seq<VmId>, status: Option<VmState>)
    requires Identified(s) && Distinct(order) && forall v :: v in order ==> v in s.table
    ensures DistinctIds(Filtered(s, order, status))
  {
    if order != [] {
      var first, v := order[..|order| - 1], order[|order| - 1];
      ListingIsSound(s, first, status);
      ListingHasNoRepeats(s, first, status);
      var shown, vms := Filtered(s, first, status), Filtered(s, order, status);
      forall m, n | 0 <= m < n < |vms| ensures vms[m].id != vms[n].id {
        assert vms[m] == shown[m] && shown[m] in shown;
        if n < |shown| {
          assert vms[n] == shown[n];
        }
      }
    }
  }

  /** And it leaves out none of them. */
  lemma {:induction false} ListingIsComplete(s: State, order: seq<VmId>, status: Option<VmState>, v: VmId)
    requires Identified(s) && forall x :: x in order ==> x in s.table
    requires v in order && StatusOf(s, v) != DELETED && (status == None || StatusOf(s, v) == status.value)
    ensures s.objs[s.table[v]] in Filtered(s, order, status)
  {
    if v != order[|order| - 1] {
      ListingIsComplete(s, order[..|order| - 1], status, v);
    }
  }

  /** The VMs listed come in the table's order. */
  lemma {:induction false} ListingKeepsOrder(s: State, order: seq<VmId>, status: Option<VmState>, m: nat, n: nat)
      returns (a: nat, b: nat)
    requires Identified(s) && forall v :: v in order ==> v in s.table
    requires m < n < |Filtered(s, order, status)|
    ensures a < b < |order|
    ensures order[a] == Filtered(s, order, status)[m].id && order[b] == Filtered(s, order, status)[n].id
  {
    var first := order[..|order| - 1];
    if n < |Filtered(s, first, status)| {
      a, b := ListingKeepsOrder(s, first, status, m, n);
    } else {
      a := ListedAt(s, first, status, m);
      b := |order| - 1;
    }
  }

  lemma {:induction false} ListedAt(s: State, order: seq<VmId>, status: Option<VmState>, m: nat) returns (a: nat)
    requires Identified(s) && forall v :: v in order ==> v in s.table
    requires m < |Filtered(s, order, status)|
    ensures a < |order| && order[a] == Filtered(s, order, status)[m].id
  {
    var first := order[..|order| - 1];
    if m < |Filtered(s, first, status)| {
      a := ListedAt(s, first, status, m);
    } else {
      a := |order| - 1;
    }
  }
}
