/** What every step of the in-memory service keeps, however requests and coroutines overlap. */
module VmInvariant {
  import opened Tasks
  import opened VmMachine

  // ------------------------------------------------------------------ identity

  /** Each VM has one dictionary for life: the table, every alias and every creation agree on it. */
  predicate Identified(s: State) {
    && (forall o, o' :: 0 <= o < o' < |s.objs| ==> s.objs[o].id != s.objs[o'].id)
    && (forall o :: 0 <= o < |s.objs| ==> s.objs[o].id in s.origin)
    && (forall v :: v in s.table ==> s.table[v] < |s.objs| && s.objs[s.table[v]].id == v)
    && (forall k :: 0 <= k < |s.threads| ==> ThreadIdentified(s, k))
  }

  predicate ThreadIdentified(s: State, k: nat)
    requires k < |s.threads|
  {
    var t := s.threads[k];
    && t.vm in s.origin
    && (t.kind.Creation? ==> s.origin[t.vm] == Made(k))
    && (t.kind.Creation? && (t.phase.Opening? || t.phase.Ready?) ==>
          forall o :: 0 <= o < |s.objs| ==> s.objs[o].id != t.vm)
    && (t.kind.Deletion? || t.kind.Resizing? ==> t.kind.raw < |s.objs| && s.objs[t.kind.raw].id == t.vm)
    && (t.kind.Action? ==> t.kind.current in Allowed(t.kind.action))
  }

  /** While its VM is in the table, an alias is the table's entry. */
  lemma AliasIsEntry(s: State, k: nat)
    requires Identified(s) && k < |s.threads| && (s.threads[k].kind.Deletion? || s.threads[k].kind.Resizing?)
    requires s.threads[k].vm in s.table
    ensures s.table[s.threads[k].vm] == s.threads[k].kind.raw
  {
    assert ThreadIdentified(s, k);
  }

  lemma IdentifiedIsWellTyped(s: State)
    requires Identified(s)
    ensures WellTyped(s)
  {
    forall k | 0 <= k < |s.threads| ensures Rooted(s, s.threads[k]) {
      assert ThreadIdentified(s, k);
    }
  }

  lemma SeededIdentified(s: State)
    requires Seeded(s)
    ensures Identified(s)
  {
  }

  lemma NextIdentified(c: Config, s: State, e: Event)
    requires Identified(s) && WellTyped(s) && Enabled(c, s, e)
    ensures Identified(Next(c, s, e))
  {
    var t := Next(c, s, e);
    match e
    case Resume(k) =>
      assert ThreadIdentified(s, k);
      ResumedIdentified(c, s, k);
    case _ =>
      forall k | 0 <= k < |t.threads| ensures ThreadIdentified(t, k) {
        assert k < |s.threads| ==> ThreadIdentified(s, k);
      }
  }

  lemma ResumedIdentified(c: Config, s: State, k: nat)
    requires Identified(s) && WellTyped(s) && k < |s.threads| && s.threads[k].phase.Live()
    ensures Identified(Resumed(c, s, k))
  {
    var t, u := Resumed(c, s, k), s.threads[k];
    assert ThreadIdentified(s, k);
    EffectKeepsIds(s, u);
    forall j | 0 <= j < |t.threads| ensures ThreadIdentified(t, j) {
      assert ThreadIdentified(s, j);
    }
  }

  /** A resumption leaves the ids of the dictionaries alone; only a creation makes a new one. */
  lemma EffectKeepsIds(s: State, u: Thread)
    requires forall v :: v in s.table ==> s.table[v] < |s.objs|
    requires Rooted(s, u)
    ensures KeepsIds(s, u, Effect(s, u))
  {
    match u.phase
    case Ready => ReadyKeepsIds(s, u);
    case Mid => MidKeepsIds(s, u);
    case Fin => FinKeepsIds(s, u);
    case _ =>
  }

  predicate KeepsIds(s: State, u: Thread, t: State) {
    && t.threads == s.threads && t.origin == s.origin
    && |s.objs| <= |t.objs|
    && (forall o :: 0 <= o < |s.objs| ==> t.objs[o].id == s.objs[o].id)
    && (if u.kind.Creation? && u.phase.Ready? then
          && |t.objs| == |s.objs| + 1 && t.objs[|s.objs|].id == u.vm && t.table == s.table[u.vm := |s.objs|]
        else |t.objs| == |s.objs| && forall v :: v in t.table ==> v in s.table && t.table[v] == s.table[v])
  }

  lemma ReadyKeepsIds(s: State, u: Thread)
    requires forall v :: v in s.table ==> s.table[v] < |s.objs|
    requires Rooted(s, u) && u.phase.Ready?
    ensures KeepsIds(s, u, Effect(s, u))
  {
  }

  lemma MidKeepsIds(s: State, u: Thread)
    requires forall v :: v in s.table ==> s.table[v] < |s.objs|
    requires Rooted(s, u) && u.phase.Mid?
    ensures KeepsIds(s, u, Effect(s, u))
  {
  }

  lemma FinKeepsIds(s: State, u: Thread)
    requires forall v :: v in s.table ==> s.table[v] < |s.objs|
    requires Rooted(s, u) && u.phase.Fin?
    ensures KeepsIds(s, u, Effect(s, u))
  {
  }

  // ------------------------------------------------------------------ records

  function KindOperation(kind: Kind): Operation {
    match kind
    case Creation(_) => CREATE_VM
    case Deletion(_) => DELETE_VM
    case Action(a, _) => PERFORM(a)
    case Resizing(_, _) => RESIZE_VM
    case Snapshot(_) => CREATE_SNAPSHOT
  }

  /** `r` describes thread `k`. */
  predicate Describes(k: nat, t: Thread, r: Record) {
    r.taskId == k && r.operation == KindOperation(t.kind) && r.resourceId == Some(t.vm)
  }

  predicate Recorded(s: State) {
    && (forall k :: 0 <= k < |s.threads| ==> ThreadRecorded(k, s.threads[k]))
    && (forall k :: k in s.store ==>
          k < |s.threads| && Describes(k, s.threads[k], s.store[k].record) &&
          (s.store[k].record.status.SUCCESS? <==> s.threads[k].phase.Done?))
  }

  predicate ThreadRecorded(k: nat, t: Thread) {
    match t.phase
    case Opening(r) => Describes(k, t, r) && r.status.PENDING?
    case Set1(r) => Describes(k, t, r) && r.status.RUNNING?
    case Set2(r) => Describes(k, t, r) && r.status.SUCCESS?
    case _ => true
  }

  lemma NextRecorded(c: Config, s: State, e: Event)
    requires Recorded(s) && WellTyped(s) && Enabled(c, s, e)
    ensures Recorded(Next(c, s, e))
  {
    match e
    case Resume(k) =>
      ResumedRecorded(c, s, k);
    case Begin(r) =>
      assert |s.threads| !in s.store;
    case _ =>
  }

  lemma ResumedRecorded(c: Config, s: State, k: nat)
    requires Recorded(s) && WellTyped(s) && k < |s.threads| && s.threads[k].phase.Live()
    ensures Recorded(Resumed(c, s, k))
  {
  }

  // ------------------------------------------------------------------ removal

  /** Once a deletion has got past its removal, the VM is out of the table. */
  predicate Removed(s: State) {
    forall k :: 0 <= k < |s.threads| && HasRemoved(s.threads[k]) ==> s.threads[k].vm !in s.table
  }

  predicate HasRemoved(t: Thread) {
    t.kind.Deletion? && !t.phase.Pending() && t.phase != Died(true)
  }

  /** `v` had its dictionary and is out of the table: no step puts it back. */
  predicate Gone(s: State, v: VmId) {
    v !in s.table && exists o :: 0 <= o < |s.objs| && s.objs[o].id == v
  }

  lemma GoneStays(c: Config, s: State, e: Event, v: VmId)
    requires Identified(s) && WellTyped(s) && Enabled(c, s, e) && Gone(s, v)
    ensures Gone(Next(c, s, e), v)
  {
    var t := Next(c, s, e);
    var o :| 0 <= o < |s.objs| && s.objs[o].id == v;
    ObjectsStay(c, s, e);
    assert t.objs[o].id == v;
  }

  /** Dictionaries keep their ids, and a VM enters the table only with a dictionary of its own. */
  lemma ObjectsStay(c: Config, s: State, e: Event)
    requires Identified(s) && WellTyped(s) && Enabled(c, s, e)
    ensures var t := Next(c, s, e);
      && |s.objs| <= |t.objs|
      && (forall o :: 0 <= o < |s.objs| ==> t.objs[o].id == s.objs[o].id)
      && (forall v :: v in t.table && v !in s.table ==> forall o :: 0 <= o < |s.objs| ==> s.objs[o].id != v)
  {
    if e.Resume? {
      assert ThreadIdentified(s, e.k);
    }
  }

  lemma NextRemoved(c: Config, s: State, e: Event)
    requires Identified(s) && Removed(s) && WellTyped(s) && Enabled(c, s, e)
    ensures Removed(Next(c, s, e))
  {
    var t := Next(c, s, e);
    forall k | 0 <= k < |t.threads| && HasRemoved(t.threads[k])
      ensures t.threads[k].vm !in t.table
    {
      assert k < |s.threads|;
      assert ThreadIdentified(s, k);
      var v := s.threads[k].vm;
      if v !in s.table {
        assert s.objs[s.threads[k].kind.raw].id == v;
        assert Gone(s, v);
        GoneStays(c, s, e, v);
      }
    }
  }

  // ------------------------------------------------------------------ flavors

  /** The flavor the VM was seeded or created with, or one that an accepted resize of it asked for. */
  ghost predicate FlavorGranted(c: Config, s: State, v: VmId, f: FlavorId) {
    v in s.origin &&
    (|| s.origin[v] == Seed(f)
     || (s.origin[v].Made? && s.origin[v].task < |s.threads| && s.threads[s.origin[v].task].kind == Creation(f))
     || exists k :: ResizedTo(c, s, k, v, f))
  }

  predicate ResizedTo(c: Config, s: State, k: int, v: VmId, f: FlavorId) {
    && 0 <= k < |s.threads| && s.threads[k].vm == v
    && s.threads[k].kind.Resizing? && s.threads[k].kind.flavor == f && f in c.flavors
  }

  ghost predicate FlavorsGranted(c: Config, s: State) {
    && (forall o :: 0 <= o < |s.objs| ==> FlavorGranted(c, s, s.objs[o].id, s.objs[o].flavor))
    && (forall k :: 0 <= k < |s.threads| && s.threads[k].kind.Resizing? ==> s.threads[k].kind.flavor in c.flavors)
  }

  lemma FlavorGrantedStays(c: Config, s: State, e: Event, v: VmId, f: FlavorId)
    requires Identified(s) && WellTyped(s) && Enabled(c, s, e) && FlavorGranted(c, s, v, f)
    ensures FlavorGranted(c, Next(c, s, e), v, f)
  {
    var t := Next(c, s, e);
    assert t.origin[v] == s.origin[v];
    assert forall k :: 0 <= k < |s.threads| ==>
      t.threads[k].kind == s.threads[k].kind && t.threads[k].vm == s.threads[k].vm;
    if exists k :: ResizedTo(c, s, k, v, f) {
      var k :| ResizedTo(c, s, k, v, f);
      assert ResizedTo(c, t, k, v, f);
    }
  }

  lemma NextFlavorsGranted(c: Config, s: State, e: Event)
    requires Identified(s) && FlavorsGranted(c, s) && WellTyped(s) && Enabled(c, s, e)
    ensures FlavorsGranted(c, Next(c, s, e))
  {
    var t := Next(c, s, e);
    if e.Resume? {
      assert ThreadIdentified(s, e.k);
      EffectKeepsIds(s, s.threads[e.k]);
      EffectOnFlavors(s, s.threads[e.k]);
    }
    forall o | 0 <= o < |t.objs| ensures FlavorGranted(c, t, t.objs[o].id, t.objs[o].flavor) {
      if o < |s.objs| {
        FlavorGrantedStays(c, s, e, s.objs[o].id, s.objs[o].flavor);
        if t.objs[o].flavor != s.objs[o].flavor {
          assert ResizedTo(c, t, e.k, t.objs[o].id, t.objs[o].flavor);
        }
      }
    }
  }

  /** Only the end of a resize changes a flavor, and only that of its own dictionary. */
  lemma EffectOnFlavors(s: State, u: Thread)
    requires forall v :: v in s.table ==> s.table[v] < |s.objs|
    requires Rooted(s, u)
    ensures var t := Effect(s, u);
      && |s.objs| <= |t.objs|
      && (forall o :: 0 <= o < |s.objs| && t.objs[o].flavor != s.objs[o].flavor ==>
            u.kind.Resizing? && u.kind.raw == o && u.kind.flavor == t.objs[o].flavor)
      && (forall o :: |s.objs| <= o < |t.objs| ==>
            u.kind.Creation? && t.objs[o].id == u.vm && u.kind.flavor == t.objs[o].flavor)
  {
    match u.phase
    case Ready =>
    case Mid =>
    case Fin =>
    case _ =>
  }

  // ------------------------------------------------------------------ quiescence

  /** Thread `k` is still to write the status of its VM, or to remove it. */
  predicate OwedBy(s: State, v: VmId, k: int) {
    0 <= k < |s.threads| && s.threads[k].vm == v && !s.threads[k].kind.Snapshot? && s.threads[k].phase.Pending()
  }

  /** Thread `k` was to, and died before. */
  predicate LostBy(s: State, v: VmId, k: int) {
    0 <= k < |s.threads| && s.threads[k].vm == v && !s.threads[k].kind.Snapshot? && s.threads[k].phase == Died(true)
  }

  ghost predicate OwedOrLost(s: State, v: VmId) {
    (exists k :: OwedBy(s, v, k)) || (exists k :: LostBy(s, v, k))
  }

  ghost predicate Accounted(s: State)
    requires WellTyped(s)
  {
    forall v :: v in s.table && Transient(StatusOf(s, v)) ==> OwedOrLost(s, v)
  }

  /** A deletion of `v` was accepted; while `v` is in the table it is still to be carried out, or has died. */
  ghost predicate DeleteRequested(s: State, v: VmId) {
    exists k :: DeletionOf(s, v, k)
  }

  predicate DeletionOf(s: State, v: VmId, k: int) {
    0 <= k < |s.threads| && s.threads[k].vm == v && s.threads[k].kind.Deletion?
  }

  lemma DeletionIsOwed(s: State, v: VmId)
    requires Removed(s) && v in s.table && DeleteRequested(s, v)
    ensures OwedOrLost(s, v)
  {
    var k :| DeletionOf(s, v, k);
    assert OwedBy(s, v, k) || LostBy(s, v, k);
  }

  lemma DeletionStays(c: Config, s: State, e: Event, v: VmId)
    requires WellTyped(s) && Enabled(c, s, e) && DeleteRequested(s, v)
    ensures DeleteRequested(Next(c, s, e), v)
  {
    var k :| DeletionOf(s, v, k);
    assert DeletionOf(Next(c, s, e), v, k);
  }

  /** Every resize past its capture restores a status that is not transient, or one of a VM being deleted. */
  ghost predicate CleanSaves(s: State) {
    forall k :: 0 <= k < |s.threads| && HoldsSave(s.threads[k]) ==>
      !Transient(s.threads[k].saved) || DeleteRequested(s, s.threads[k].vm)
  }

  predicate HoldsSave(t: Thread) {
    t.kind.Resizing? && t.phase.Pending() && !t.phase.Opening? && !t.phase.Ready?
  }

  /**
   The step, if it is a resize capturing the status it will restore, captures one that is not transient
   or belongs to a VM whose deletion was accepted.
   */
  ghost predicate CleanCapture(s: State, e: Event)
    requires WellTyped(s)
  {
    e.Resume? && e.k < |s.threads| && s.threads[e.k].kind.Resizing? && s.threads[e.k].phase.Ready? ==>
      && Rooted(s, s.threads[e.k])
      && (!Transient(s.objs[s.threads[e.k].kind.raw].status) || DeleteRequested(s, s.threads[e.k].vm))
  }

  lemma NextCleanSaves(c: Config, s: State, e: Event)
    requires WellTyped(s) && CleanSaves(s) && Enabled(c, s, e) && CleanCapture(s, e)
    ensures CleanSaves(Next(c, s, e))
  {
    var t := Next(c, s, e);
    forall k | 0 <= k < |t.threads| && HoldsSave(t.threads[k])
      ensures !Transient(t.threads[k].saved) || DeleteRequested(t, t.threads[k].vm)
    {
      var v := s.threads[k].vm;
      if DeleteRequested(s, v) {
        DeletionStays(c, s, e, v);
      }
    }
  }

  lemma NextAccounted(c: Config, s: State, e: Event)
    requires Identified(s) && WellTyped(s) && Accounted(s) && CleanSaves(s) && Enabled(c, s, e)
    requires WellTyped(Next(c, s, e)) && Removed(Next(c, s, e))
    ensures Accounted(Next(c, s, e))
  {
    var t := Next(c, s, e);
    forall v | v in t.table && Transient(StatusOf(t, v)) ensures OwedOrLost(t, v) {
      if DeleteRequested(t, v) {
        DeletionIsOwed(t, v);
      } else if e.Resume? && s.threads[e.k].vm == v {
        if DeleteRequested(s, v) {
          DeletionStays(c, s, e, v);
        }
        ResumedAccounted(c, s, e.k, v);
      } else {
        assert v in s.table && StatusOf(t, v) == StatusOf(s, v) by { OtherVmKept(c, s, e, v); }
        if k :| OwedBy(s, v, k) {
          assert OwedBy(t, v, k) || LostBy(t, v, k);
        } else {
          var k :| LostBy(s, v, k);
          assert LostBy(t, v, k);
        }
      }
    }
  }

  lemma OtherVmKept(c: Config, s: State, e: Event, v: VmId)
    requires Identified(s) && WellTyped(s) && Enabled(c, s, e) && v in Next(c, s, e).table
    requires WellTyped(Next(c, s, e))
    requires e.Resume? ==> s.threads[e.k].vm != v
    ensures v in s.table && Next(c, s, e).table[v] == s.table[v]
    ensures Next(c, s, e).objs[s.table[v]] == s.objs[s.table[v]]
  {
    if e.Resume? {
      assert ThreadIdentified(s, e.k);
      EffectKeepsIds(s, s.threads[e.k]);
      EffectElsewhere(s, s.threads[e.k], s.table[v]);
    }
  }

  /** A resumption writes to no dictionary but its VM's entry and the alias it holds. */
  lemma EffectElsewhere(s: State, u: Thread, o: ObjId)
    requires forall x :: x in s.table ==> s.table[x] < |s.objs|
    requires Rooted(s, u) && (u.kind.Deletion? || u.kind.Resizing? ==> u.kind.raw != o)
    requires o < |s.objs| && (u.vm in s.table ==> s.table[u.vm] != o)
    ensures o < |Effect(s, u).objs| && Effect(s, u).objs[o] == s.objs[o]
  {
    match u.phase
    case Mid => MidElsewhere(s, u, o);
    case Fin => FinElsewhere(s, u, o);
    case _ =>
  }

  lemma MidElsewhere(s: State, u: Thread, o: ObjId)
    requires forall x :: x in s.table ==> s.table[x] < |s.objs|
    requires Rooted(s, u) && (u.kind.Deletion? || u.kind.Resizing? ==> u.kind.raw != o) && u.phase.Mid?
    requires o < |s.objs| && (u.vm in s.table ==> s.table[u.vm] != o)
    ensures o < |Effect(s, u).objs| && Effect(s, u).objs[o] == s.objs[o]
  {
  }

  lemma FinElsewhere(s: State, u: Thread, o: ObjId)
    requires forall x :: x in s.table ==> s.table[x] < |s.objs|
    requires Rooted(s, u) && (u.kind.Deletion? || u.kind.Resizing? ==> u.kind.raw != o) && u.phase.Fin?
    requires o < |s.objs| && (u.vm in s.table ==> s.table[u.vm] != o)
    ensures o < |Effect(s, u).objs| && Effect(s, u).objs[o] == s.objs[o]
  {
  }

  /** A thread that is past its last write, or at it, leaves no new transient status behind. */
  lemma LastWriteIsClean(s: State, u: Thread)
    requires (forall x :: x in s.table ==> s.table[x] < |s.objs|) && Rooted(s, u)
    requires u.kind.Snapshot? || !u.phase.Pending() || u.phase.Fin?
    requires u.kind.Resizing? && u.phase.Fin? ==>
      !Transient(u.saved) && (u.vm in s.table ==> s.table[u.vm] == u.kind.raw)
    ensures var t := Effect(s, u);
      u.vm in t.table ==>
        && u.vm in s.table && t.table[u.vm] == s.table[u.vm] < |t.objs|
        && (Transient(StatusOf(t, u.vm)) ==>
              StatusOf(t, u.vm) == StatusOf(s, u.vm) && (u.kind.Snapshot? || !u.phase.Fin?))
  {
  }

  lemma ResumedAccounted(c: Config, s: State, k: nat, v: VmId)
    requires Identified(s) && WellTyped(s) && Accounted(s) && CleanSaves(s)
    requires k < |s.threads| && s.threads[k].phase.Live() && s.threads[k].vm == v && !DeleteRequested(s, v)
    requires WellTyped(Resumed(c, s, k))
    requires v in Resumed(c, s, k).table && Transient(StatusOf(Resumed(c, s, k), v))
    ensures OwedOrLost(Resumed(c, s, k), v)
  {
    var t, u := Resumed(c, s, k), s.threads[k];
    assert ThreadIdentified(s, k);
    assert u.kind.Deletion? ==> DeletionOf(s, v, k);
    if !u.kind.Snapshot? && t.threads[k].phase.Pending() {
      assert OwedBy(t, v, k);
    } else {
      if u.kind.Resizing? && u.phase.Fin? {
        AliasIsEntry(s, k);
      }
      LastWriteIsClean(s, u);
      if j :| OwedBy(s, v, j) {
        assert OwedBy(t, v, j);
      } else {
        var j :| LostBy(s, v, j);
        assert LostBy(t, v, j);
      }
    }
  }

  /** A snapshot that is still `saving` has a thread that will finish it, unless that thread died. */
  ghost predicate SnapshotsAccounted(s: State) {
    forall x :: x in s.snaps && !s.snaps[x] ==> exists k :: SnapOwedBy(s, x, k)
  }

  predicate SnapOwedBy(s: State, x: SnapId, k: int) {
    && 0 <= k < |s.threads| && s.threads[k].kind == Snapshot(x)
    && (s.threads[k].phase.Pending() || s.threads[k].phase == Died(true))
  }

  lemma NextSnapshotsAccounted(c: Config, s: State, e: Event)
    requires WellTyped(s) && SnapshotsAccounted(s) && Enabled(c, s, e)
    ensures SnapshotsAccounted(Next(c, s, e))
  {
    var t := Next(c, s, e);
    forall x | x in t.snaps && !t.snaps[x] ensures exists k :: SnapOwedBy(t, x, k) {
      if e.Resume? && s.threads[e.k].kind == Snapshot(x) && t.threads[e.k].phase.Pending() {
        assert SnapOwedBy(t, x, e.k);
      } else {
        assert x in s.snaps && !s.snaps[x];
        var k :| SnapOwedBy(s, x, k);
        assert SnapOwedBy(t, x, k);
      }
    }
  }
}
