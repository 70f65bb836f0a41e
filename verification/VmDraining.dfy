/**
 When nothing but time and the coroutines goes on: exactly which states are sure to settle, that is, to
 leave no VM in BUILDING, REBOOT, RESIZE or DELETED once nothing runs any more.
 */
module VmDraining {
  import opened Tasks
  import opened VmMachine
  import opened VmInvariant
  import opened VmTheorems

  ghost predicate Settled(s: State) {
    WellTyped(s) && forall v :: v in s.table ==> StatusOf(s, v) !in {BUILDING, REBOOT, RESIZE, DELETED}
  }

  /** A stretch of steps from `s` without requests, at whose end nothing runs. */
  ghost predicate Ends(c: Config, s: State, ss: seq<State>, es: seq<Event>) {
    Steps(c, ss, es) && ss[0] == s && Idle(ss[|es|]) && forall i :: 0 <= i < |es| ==> !es[i].Begin?
  }

  /** Such a stretch in which no thread dies; threads that died before it stay dead. */
  ghost predicate Drains(c: Config, s: State, ss: seq<State>, es: seq<Event>) {
    Ends(c, s, ss, es) && forall i :: 0 <= i < |es| ==> !es[i].Die?
  }

  // ------------------------------------------------------------------ the condition

  /** The VM shows a transient status that no thread will replace. */
  ghost predicate Unowed(s: State, v: VmId)
    requires WellTyped(s)
  {
    v in s.table && Transient(StatusOf(s, v)) && forall k :: !OwedBy(s, v, k)
  }

  /** A deletion of the VM is on its way to take it out of the table. */
  ghost predicate Leaving(s: State, v: VmId) {
    exists k :: LeavingBy(s, v, k)
  }

  predicate LeavingBy(s: State, v: VmId, k: int) {
    DeletionOf(s, v, k) && s.threads[k].phase.Pending()
  }

  /** Resize `k` will restore a transient status. */
  predicate BadSave(s: State, v: VmId, k: int) {
    0 <= k < |s.threads| && s.threads[k].vm == v && HoldsSave(s.threads[k]) && Transient(s.threads[k].saved)
  }

  /** The thread has yet to show a transient status on its VM. */
  predicate WillShow(t: Thread) {
    && (t.kind.Creation? || t.kind.Resizing? || (t.kind.Action? && Transient(Intermediate(t.kind))))
    && t.phase.Pending() && !t.phase.Fin?
  }

  predicate ShownBy(s: State, v: VmId, j: int) {
    0 <= j < |s.threads| && s.threads[j].vm == v && WillShow(s.threads[j])
  }

  /** Resize `k` stands between its check and its capture, and the VM shows a transient status or yet will. */
  ghost predicate BadCapture(s: State, v: VmId, k: int)
    requires WellTyped(s)
  {
    && 0 <= k < |s.threads| && s.threads[k].vm == v && s.threads[k].kind.Resizing? && InHandler(s.threads[k])
    && v in s.table
    && (Transient(StatusOf(s, v)) || exists j :: j != k && ShownBy(s, v, j))
  }

  /** A VM that is not on its way out may be left in a transient status. */
  ghost predicate Strandable(s: State, v: VmId)
    requires WellTyped(s)
  {
    && v in s.table && !Leaving(s, v)
    && (Unowed(s, v) || (exists k :: BadSave(s, v, k)) || (exists k :: BadCapture(s, v, k)))
  }

  // ------------------------------------------------------------------ it suffices

  ghost predicate Safe(s: State)
    requires WellTyped(s)
  {
    forall v :: !Strandable(s, v)
  }

  /** Without deaths, a VM on its way out leaves the table before its deletion stops being pending. */
  lemma LeavingStays(c: Config, s: State, e: Event, v: VmId)
    requires Identified(s) && WellTyped(s) && Enabled(c, s, e) && !e.Begin? && !e.Die? && Leaving(s, v)
    requires v in Next(c, s, e).table
    ensures Leaving(Next(c, s, e), v)
  {
    var t := Next(c, s, e);
    var k :| LeavingBy(s, v, k);
    assert ThreadIdentified(s, k);
    if e != Resume(k) || !s.threads[k].phase.Fin? {
      assert LeavingBy(t, v, k);
    }
  }

  lemma NextSafe(c: Config, s: State, e: Event)
    requires Identified(s) && WellTyped(s) && Removed(s) && Safe(s) && Enabled(c, s, e) && !e.Begin? && !e.Die?
    requires WellTyped(Next(c, s, e))
    ensures Safe(Next(c, s, e))
  {
    var t := Next(c, s, e);
    forall v ensures !Strandable(t, v) {
      if v in t.table && !Leaving(t, v) {
        if Leaving(s, v) {
          LeavingStays(c, s, e, v);
        }
        assert !Strandable(s, v);
        if e.Resume? && s.threads[e.k].vm == v {
          ResumedSafe(c, s, e.k, v);
        } else {
          OtherVmKept(c, s, e, v);
          OtherSafe(c, s, e, v);
        }
      }
    }
  }

  /** A step that is not a resumption of a thread of this VM. */
  lemma OtherSafe(c: Config, s: State, e: Event, v: VmId)
    requires WellTyped(s) && Enabled(c, s, e) && !e.Begin? && !e.Die? && WellTyped(Next(c, s, e))
    requires e.Resume? ==> s.threads[e.k].vm != v
    requires v in s.table && v in Next(c, s, e).table && StatusOf(Next(c, s, e), v) == StatusOf(s, v)
    requires !Leaving(s, v) && !Strandable(s, v)
    ensures !Strandable(Next(c, s, e), v)
  {
    var t := Next(c, s, e);
    assert forall j :: ShownBy(t, v, j) ==> ShownBy(s, v, j);
    assert forall k :: OwedBy(s, v, k) ==> OwedBy(t, v, k);
    forall k ensures !BadSave(t, v, k) && !BadCapture(t, v, k) {
      assert !BadSave(s, v, k) && !BadCapture(s, v, k);
    }
  }

  lemma ResumedSafe(c: Config, s: State, k: nat, v: VmId)
    requires Identified(s) && WellTyped(s) && Removed(s)
    requires k < |s.threads| && s.threads[k].phase.Live() && s.threads[k].vm == v
    requires WellTyped(Resumed(c, s, k)) && v in Resumed(c, s, k).table
    requires !Leaving(s, v) && !Strandable(s, v)
    ensures !Strandable(Resumed(c, s, k), v)
  {
    var t, u := Resumed(c, s, k), s.threads[k];
    assert ThreadIdentified(s, k);
    assert u.kind.Deletion? && u.phase.Pending() ==> LeavingBy(s, v, k);
    if v !in s.table {
      BirthIsSafe(c, s, k, v);
    } else {
      if u.kind.Resizing? {
        AliasIsEntry(s, k);
      }
      NoBadSaveComes(c, s, k, v);
      NoBadCaptureComes(c, s, k, v);
      NothingUnowedComes(c, s, k, v);
    }
  }

  lemma BirthIsSafe(c: Config, s: State, k: nat, v: VmId)
    requires Identified(s) && WellTyped(s) && k < |s.threads| && s.threads[k].phase.Live() && s.threads[k].vm == v
    requires WellTyped(Resumed(c, s, k)) && v !in s.table && v in Resumed(c, s, k).table
    ensures !Strandable(Resumed(c, s, k), v)
  {
    var t := Resumed(c, s, k);
    assert ThreadIdentified(s, k);
    assert OwedBy(t, v, k);
    forall j | 0 <= j < |s.threads| && s.threads[j].vm == v ensures !s.threads[j].kind.Resizing? {
      assert ThreadIdentified(s, j);
    }
  }

  lemma NoBadSaveComes(c: Config, s: State, k: nat, v: VmId)
    requires WellTyped(s) && k < |s.threads| && s.threads[k].phase.Live() && s.threads[k].vm == v && v in s.table
    requires s.threads[k].kind.Resizing? ==> s.table[v] == s.threads[k].kind.raw
    requires !Leaving(s, v) && !Strandable(s, v)
    ensures forall j :: !BadSave(Resumed(c, s, k), v, j)
  {
    forall j ensures !BadSave(Resumed(c, s, k), v, j) {
      assert !BadSave(s, v, j) && !BadCapture(s, v, j);
    }
  }

  /** A new transient status is one that the resumed thread had yet to show. */
  lemma NewlyTransient(c: Config, s: State, k: nat, v: VmId)
    requires WellTyped(s) && k < |s.threads| && s.threads[k].phase.Live() && s.threads[k].vm == v && v in s.table
    requires s.threads[k].kind.Resizing? ==> s.table[v] == s.threads[k].kind.raw
    requires s.threads[k].kind.Action? ==> s.threads[k].kind.current in Allowed(s.threads[k].kind.action)
    requires !s.threads[k].kind.Deletion? && !(s.threads[k].kind.Creation? && s.threads[k].phase.Ready?)
    requires !BadSave(s, v, k) && WellTyped(Resumed(c, s, k))
    ensures var t := Resumed(c, s, k);
      && v in t.table
      && (Transient(StatusOf(t, v)) ==>
            Transient(StatusOf(s, v)) || (ShownBy(s, v, k) && t.threads[k].phase.Fin?))
  {
  }

  lemma NoBadCaptureComes(c: Config, s: State, k: nat, v: VmId)
    requires WellTyped(s) && k < |s.threads| && s.threads[k].phase.Live() && s.threads[k].vm == v && v in s.table
    requires s.threads[k].kind.Resizing? ==> s.table[v] == s.threads[k].kind.raw
    requires s.threads[k].kind.Action? ==> s.threads[k].kind.current in Allowed(s.threads[k].kind.action)
    requires !s.threads[k].kind.Deletion? && !(s.threads[k].kind.Creation? && s.threads[k].phase.Ready?)
    requires !Leaving(s, v) && !Strandable(s, v) && WellTyped(Resumed(c, s, k))
    ensures forall j :: !BadCapture(Resumed(c, s, k), v, j)
  {
    var t := Resumed(c, s, k);
    assert !BadSave(s, v, k);
    NewlyTransient(c, s, k, v);
    assert forall i :: ShownBy(t, v, i) ==> ShownBy(s, v, i);
    forall j ensures !BadCapture(t, v, j) {
      assert !BadCapture(s, v, j);
    }
  }

  lemma NothingUnowedComes(c: Config, s: State, k: nat, v: VmId)
    requires WellTyped(s) && k < |s.threads| && s.threads[k].phase.Live() && s.threads[k].vm == v && v in s.table
    requires s.threads[k].kind.Resizing? ==> s.table[v] == s.threads[k].kind.raw
    requires !s.threads[k].kind.Deletion? && !(s.threads[k].kind.Creation? && s.threads[k].phase.Ready?)
    requires !Leaving(s, v) && !Strandable(s, v) && WellTyped(Resumed(c, s, k))
    ensures !Unowed(Resumed(c, s, k), v)
  {
    var t := Resumed(c, s, k);
    assert !BadSave(s, v, k);
    assert OwedBy(s, v, k) && s.threads[k].phase != Fin ==> OwedBy(t, v, k);
    assert forall j :: j != k && OwedBy(s, v, j) ==> OwedBy(t, v, j);
  }

  lemma {:induction false} SafeSettles(c: Config, ss: seq<State>, es: seq<Event>, i: nat)
    requires Steps(c, ss, es) && i <= |es| && forall n :: 0 <= n < |es| ==> !es[n].Begin? && !es[n].Die?
    requires Identified(ss[0]) && WellTyped(ss[0]) && Removed(ss[0]) && Safe(ss[0])
    ensures Identified(ss[i]) && WellTyped(ss[i]) && Removed(ss[i]) && Safe(ss[i])
    ensures Idle(ss[i]) ==> Settled(ss[i])
  {
    if i > 0 {
      SafeSettles(c, ss, es, i - 1);
      var s, e := ss[i - 1], es[i - 1];
      assert StepAt(c, ss, es, i - 1);
      NextIdentified(c, s, e);
      IdentifiedIsWellTyped(ss[i]);
      NextRemoved(c, s, e);
      NextSafe(c, s, e);
    }
    if Idle(ss[i]) {
      IdleIsSettled(ss[i]);
    }
  }

  lemma IdleIsSettled(s: State)
    requires WellTyped(s) && Safe(s) && Idle(s)
    ensures Settled(s)
  {
    forall v | v in s.table ensures !Transient(StatusOf(s, v)) {
      assert !Strandable(s, v);
    }
  }

  // ------------------------------------------------------------------ it is necessary

  predicate NoneDied(s: State) {
    forall j :: 0 <= j < |s.threads| ==> !s.threads[j].phase.Died?
  }

  predicate OthersIdle(s: State, k: int) {
    forall j :: 0 <= j < |s.threads| && j != k ==> !s.threads[j].phase.Live()
  }

  /** The VM shows `st` for good. */
  ghost predicate Stuck(s: State, v: VmId, st: VmState)
    requires WellTyped(s)
  {
    Unowed(s, v) && StatusOf(s, v) == st
  }

  /** The VM is on its way to end in `st`: it shows it for good, or resize `k` will restore it. */
  ghost predicate Stranded(s: State, v: VmId, st: VmState, k: int)
    requires WellTyped(s)
  {
    && v in s.table && !Leaving(s, v)
    && (Stuck(s, v, st) || (BadSave(s, v, k) && s.threads[k].saved == st))
  }

  /** Without a deletion, a resumption leaves the VM in its place and every other VM's dictionary alone. */
  lemma ResumedInPlace(c: Config, s: State, v: VmId, j: nat)
    requires Identified(s) && WellTyped(s) && j < |s.threads| && s.threads[j].phase.Live()
    requires v in s.table && !Leaving(s, v)
    ensures var t := Resumed(c, s, j);
      && !Leaving(t, v)
      && v in t.table && t.table[v] == s.table[v] < |t.objs|
      && (s.threads[j].vm != v ==> t.objs[s.table[v]] == s.objs[s.table[v]])
  {
    var t := Resumed(c, s, j);
    assert ThreadIdentified(s, j);
    assert forall i :: LeavingBy(t, v, i) ==> LeavingBy(s, v, i);
    assert !LeavingBy(s, v, j);
  }

  lemma NextStuck(c: Config, s: State, v: VmId, st: VmState, j: nat)
    requires Identified(s) && WellTyped(s) && Stuck(s, v, st) && !Leaving(s, v)
    requires j < |s.threads| && s.threads[j].phase.Live() && WellTyped(Resumed(c, s, j))
    ensures Stuck(Resumed(c, s, j), v, st)
  {
    var t := Resumed(c, s, j);
    ResumedInPlace(c, s, v, j);
    assert !OwedBy(s, v, j);
    assert forall i :: OwedBy(t, v, i) ==> OwedBy(s, v, i);
  }

  lemma NextSaved(c: Config, s: State, v: VmId, k: int, j: nat)
    requires Identified(s) && WellTyped(s) && BadSave(s, v, k) && v in s.table && !Leaving(s, v)
    requires j < |s.threads| && s.threads[j].phase.Live() && (j != k || OthersIdle(s, k))
    requires WellTyped(Resumed(c, s, j))
    ensures Stranded(Resumed(c, s, j), v, s.threads[k].saved, k)
  {
    var t := Resumed(c, s, j);
    ResumedInPlace(c, s, v, j);
    if j == k && s.threads[k].phase.Fin? {
      AliasIsEntry(s, k);
      assert forall i :: !OwedBy(t, v, i);
    }
  }

  lemma DeathsStay(c: Config, s: State, j: nat)
    requires WellTyped(s) && j < |s.threads| && s.threads[j].phase.Live()
    ensures NoneDied(s) ==> NoneDied(Resumed(c, s, j))
  {
  }

  /** Such a VM does end in that status, in some order of the resumptions. */
  lemma {:induction false} StrandedDrains(c: Config, s: State, v: VmId, st: VmState, k: int)
      returns (ss: seq<State>, es: seq<Event>)
    requires Identified(s) && WellTyped(s) && Stranded(s, v, st, k)
    ensures Drains(c, s, ss, es)
    ensures var t := ss[|es|]; WellTyped(t) && v in t.table && StatusOf(t, v) == st
    ensures NoneDied(s) ==> AllDone(ss[|es|])
    decreases Work(s.threads)
  {
    if Idle(s) {
      return [s], [];
    }
    var j := LastOf(s, k);
    var t := Resumed(c, s, j);
    NextIdentified(c, s, Resume(j));
    IdentifiedIsWellTyped(t);
    if Stuck(s, v, st) {
      ResumedInPlace(c, s, v, j);
      NextStuck(c, s, v, st, j);
    } else {
      NextSaved(c, s, v, k, j);
    }
    NextWork(c, s, Resume(j));
    DeathsStay(c, s, j);
    ss, es := StrandedDrains(c, t, v, st, k);
    DrainsCons(c, s, j, ss, es);
    ss, es := [s] + ss, [Resume(j)] + es;
  }

  /** A live thread, other than `k` while there is one. */
  lemma LastOf(s: State, k: int) returns (j: nat)
    requires !Idle(s)
    ensures j < |s.threads| && s.threads[j].phase.Live() && (j != k || OthersIdle(s, k))
  {
    j :| j < |s.threads| && s.threads[j].phase.Live();
    if j == k && !OthersIdle(s, k) {
      j :| j < |s.threads| && j != k && s.threads[j].phase.Live();
    }
  }

  lemma DrainsCons(c: Config, s: State, j: nat, ss: seq<State>, es: seq<Event>)
    requires WellTyped(s) && Enabled(c, s, Resume(j)) && Drains(c, Next(c, s, Resume(j)), ss, es)
    ensures Drains(c, s, [s] + ss, [Resume(j)] + es)
    ensures ([s] + ss)[|[Resume(j)] + es|] == ss[|es|]
  {
    StepsCons(c, s, Resume(j), ss, es);
  }

  /** A resize that may capture badly does so in some order, and then a VM ends in what it captured. */
  lemma {:induction false} BadCaptureDrains(c: Config, s: State, v: VmId, k: nat)
      returns (ss: seq<State>, es: seq<Event>)
    requires Identified(s) && WellTyped(s) && !Leaving(s, v) && BadCapture(s, v, k)
    ensures Drains(c, s, ss, es)
    ensures var t := ss[|es|]; WellTyped(t) && v in t.table && Transient(StatusOf(t, v))
    decreases Work(s.threads)
  {
    var j := k;
    if !Transient(StatusOf(s, v)) {
      j :| j != k && ShownBy(s, v, j);
    }
    var t := Next(c, s, Resume(j));
    NextIdentified(c, s, Resume(j));
    IdentifiedIsWellTyped(t);
    NextWork(c, s, Resume(j));
    NextBadCapture(c, s, v, k, j);
    if InHandler(t.threads[k]) {
      ss, es := BadCaptureDrains(c, t, v, k);
    } else {
      ss, es := StrandedDrains(c, t, v, StatusOf(s, v), k);
    }
    DrainsCons(c, s, j, ss, es);
    ss, es := [s] + ss, [Resume(j)] + es;
  }

  lemma NextBadCapture(c: Config, s: State, v: VmId, k: nat, j: nat)
    requires Identified(s) && WellTyped(s) && !Leaving(s, v) && BadCapture(s, v, k)
    requires if Transient(StatusOf(s, v)) then j == k else j != k && ShownBy(s, v, j)
    requires WellTyped(Next(c, s, Resume(j)))
    ensures var t := Next(c, s, Resume(j));
      && !Leaving(t, v)
      && if InHandler(t.threads[k]) then BadCapture(t, v, k) else Stranded(t, v, StatusOf(s, v), k)
  {
    var t := Next(c, s, Resume(j));
    assert ThreadIdentified(s, j);
    ResumedInPlace(c, s, v, j);
    if s.threads[j].kind.Resizing? {
      AliasIsEntry(s, j);
    }
    if j != k && !s.threads[j].phase.Mid? {
      assert ShownBy(t, v, j);
    }
  }

  lemma StrandableDrains(c: Config, s: State, v: VmId) returns (ss: seq<State>, es: seq<Event>)
    requires Identified(s) && WellTyped(s) && Strandable(s, v)
    ensures Drains(c, s, ss, es) && !Settled(ss[|es|])
  {
    if Unowed(s, v) {
      ss, es := StrandedDrains(c, s, v, StatusOf(s, v), 0);
    } else if exists k :: BadSave(s, v, k) {
      var k :| BadSave(s, v, k);
      ss, es := StrandedDrains(c, s, v, s.threads[k].saved, k);
    } else {
      var k :| BadCapture(s, v, k);
      ss, es := BadCaptureDrains(c, s, v, k);
    }
  }

  // ------------------------------------------------------------------ exactly when

  /**
   Any state of any run, dead threads included: however its coroutines are scheduled from there, nothing is
   left transient once nothing runs, if and only if no VM that is to stay is unowed, about to be restored
   to, or about to be captured in, a transient status.
   */
  lemma SettlesExactlyWhen(c: Config, ss: seq<State>, es: seq<Event>, i: nat)
    requires IsRun(c, ss, es) && i < |ss|
    ensures WellTyped(ss[i])
    ensures (forall ss', es' :: Drains(c, ss[i], ss', es') ==> Settled(ss'[|es'|]))
       <==> forall v :: !Strandable(ss[i], v)
  {
    var s := ss[i];
    RunInv(c, ss, es, i);
    if forall v :: !Strandable(s, v) {
      forall ss', es' | Drains(c, s, ss', es') ensures Settled(ss'[|es'|]) {
        SafeSettles(c, ss', es', |es'|);
      }
    } else {
      var v :| Strandable(s, v);
      var ss', es' := StrandableDrains(c, s, v);
      assert Drains(c, s, ss', es') && !Settled(ss'[|es'|]);
    }
  }

  /**
   With every transient status owed and no resize between its check and its capture, only the statuses
   that resizes hold to restore decide.
   */
  lemma SettlesBetweenHandlers(c: Config, ss: seq<State>, es: seq<Event>, i: nat)
    requires IsRun(c, ss, es) && i < |ss| && WellTyped(ss[i]) && forall v :: !Unowed(ss[i], v)
    requires forall k :: 0 <= k < |ss[i].threads| && ss[i].threads[k].kind.Resizing? ==> !InHandler(ss[i].threads[k])
    ensures (forall ss', es' :: Drains(c, ss[i], ss', es') ==> Settled(ss'[|es'|]))
       <==> forall v, k :: BadSave(ss[i], v, k) ==> v !in ss[i].table || Leaving(ss[i], v)
  {
    var s := ss[i];
    SettlesExactlyWhen(c, ss, es, i);
    forall v ensures Strandable(s, v) <==> v in s.table && !Leaving(s, v) && exists k :: BadSave(s, v, k) {
      assert forall k :: !BadCapture(s, v, k);
    }
  }

  // ------------------------------------------------------------------ a run that strands a VM

  const ONE_ACTIVE_VM := State(0.0, [Vm(0, ACTIVE, 0, None)], map[0 := 0], map[0 := Seed(0)], map[], map[], [])
  const ONE_FLAVOR := Config(86400.0, {1})

  /** An accepted action changes no VM until its coroutine has announced itself. */
  lemma {:induction false} ActionToMid(c: Config, s: State, k: nat) returns (ss: seq<State>, es: seq<Event>)
    requires Identified(s) && WellTyped(s) && k < |s.threads| && s.threads[k].kind.Action?
    requires s.threads[k].phase.Pending() && !s.threads[k].phase.Fin?
    ensures Steps(c, ss, es) && ss[0] == s && OnlyResumes(es, k)
    ensures var t := ss[|es|];
      && Identified(t) && WellTyped(t) && t.objs == s.objs && t.table == s.table
      && t.threads == s.threads[k := s.threads[k].(phase := Mid)]
    decreases s.threads[k].phase.Remaining()
  {
    if s.threads[k].phase.Mid? {
      return [s], [];
    }
    var t := Next(c, s, Resume(k));
    NextIdentified(c, s, Resume(k));
    IdentifiedIsWellTyped(t);
    ss, es := ActionToMid(c, t, k);
    StepsCons(c, s, Resume(k), ss, es);
    ss, es := [s] + ss, [Resume(k)] + es;
  }

  /** A soft reboot of the VM, up to the point where it is about to show REBOOT. */
  lemma RebootBegun() returns (ss: seq<State>, es: seq<Event>)
    ensures Steps(ONE_FLAVOR, ss, es) && ss[0] == ONE_ACTIVE_VM
    ensures var t := ss[|es|];
      && t.objs == ONE_ACTIVE_VM.objs && t.table == ONE_ACTIVE_VM.table
      && t.threads == [Thread(Action(REBOOTING, ACTIVE), 0, Mid, UNKNOWN)]
  {
    var e := Begin(PerformAction(0, REBOOTING));
    var s := Next(ONE_FLAVOR, ONE_ACTIVE_VM, e);
    SeededIdentified(ONE_ACTIVE_VM);
    NextIdentified(ONE_FLAVOR, ONE_ACTIVE_VM, e);
    IdentifiedIsWellTyped(s);
    ss, es := ActionToMid(ONE_FLAVOR, s, 0);
    StepsCons(ONE_FLAVOR, ONE_ACTIVE_VM, e, ss, es);
    ss, es := [ONE_ACTIVE_VM] + ss, [e] + es;
  }

  lemma TwoSteps(c: Config, s: State, e: Event, e': Event) returns (ss: seq<State>, es: seq<Event>)
    requires WellTyped(s) && Enabled(c, s, e)
    requires WellTyped(Next(c, s, e)) && Enabled(c, Next(c, s, e), e')
    ensures Steps(c, ss, es) && ss[0] == s && |es| == 2 && ss[2] == Next(c, Next(c, s, e), e')
  {
    var t := Next(c, s, e);
    var u := Next(c, t, e');
    StepsCons(c, t, e', [u], []);
    StepsCons(c, s, e, [t, u], [e']);
    assert [s] + [t, u] == [s, t, u] && [e] + [e'] == [e, e'];
    return [s, t, u], [e, e'];
  }

  /** A resize is accepted there, and its record is stored. */
  lemma ResizeOpened(s: State) returns (ss: seq<State>, es: seq<Event>)
    requires s.objs == ONE_ACTIVE_VM.objs && s.table == ONE_ACTIVE_VM.table
    requires s.threads == [Thread(Action(REBOOTING, ACTIVE), 0, Mid, UNKNOWN)]
    ensures Steps(ONE_FLAVOR, ss, es) && ss[0] == s
    ensures var t := ss[|es|];
      && t.objs == ONE_ACTIVE_VM.objs && t.table == ONE_ACTIVE_VM.table
      && t.threads == [Thread(Action(REBOOTING, ACTIVE), 0, Mid, UNKNOWN), Thread(Resizing(0, 1), 0, Ready, UNKNOWN)]
  {
    ss, es := TwoSteps(ONE_FLAVOR, s, Begin(ResizeVm(0, 1)), Resume(1));
  }

  /** Its handler returns only after the reboot has shown REBOOT. */
  lemma RebootThenCapture(s: State) returns (ss: seq<State>, es: seq<Event>)
    requires s.objs == ONE_ACTIVE_VM.objs && s.table == ONE_ACTIVE_VM.table
    requires s.threads ==
      [Thread(Action(REBOOTING, ACTIVE), 0, Mid, UNKNOWN), Thread(Resizing(0, 1), 0, Ready, UNKNOWN)]
    ensures Steps(ONE_FLAVOR, ss, es) && ss[0] == s
    ensures WellTyped(ss[|es|]) && Stranded(ss[|es|], 0, REBOOT, 1) && NoneDied(ss[|es|])
  {
    ss, es := TwoSteps(ONE_FLAVOR, s, Resume(0), Resume(1));
    assert ss[2].objs[0].status == REBOOT && ss[2].threads[1].saved == REBOOT;
  }

  /** Interleaved handlers do reach such a capture: everything done, and a VM that was ACTIVE is left in REBOOT. */
  lemma InterleavedHandlersStrand() returns (ss: seq<State>, es: seq<Event>)
    ensures IsRun(ONE_FLAVOR, ss, es) && CleanSeed(ss[0]) && ss[0] == ONE_ACTIVE_VM
    ensures var t := ss[|es|]; WellTyped(t) && AllDone(t) && 0 in t.table && StatusOf(t, 0) == REBOOT
  {
    ss, es := RebootBegun();
    var ss1, es1 := ResizeOpened(ss[|es|]);
    StepsJoin(ONE_FLAVOR, ss, es, ss1, es1);
    ss, es := ss + ss1[1..], es + es1;
    ss1, es1 := RebootThenCapture(ss[|es|]);
    StepsJoin(ONE_FLAVOR, ss, es, ss1, es1);
    ss, es := ss + ss1[1..], es + es1;
    RunIdentified(ONE_FLAVOR, ss, es, |es|);
    var ss2, es2 := StrandedDrains(ONE_FLAVOR, ss[|es|], 0, REBOOT, 1);
    StepsJoin(ONE_FLAVOR, ss, es, ss2, es2);
    ss, es := ss + ss2[1..], es + es2;
  }

  /** A creation that dies at the GET of its RUNNING update, state by state. */
  function Creating(n: nat): State
    requires n <= 4
  {
    var record := NewRecord(0, CREATE_VM, 1, 0.0);
    var asked := ONE_ACTIVE_VM.(origin := map[0 := Seed(0), 1 := Made(0)],
                                threads := [Thread(Creation(0), 1, Opening(record), UNKNOWN)]);
    var stored := asked.(store := map[0 := Entry(record, 86400.0)],
                         threads := [Thread(Creation(0), 1, Ready, UNKNOWN)]);
    var born := stored.(objs := [Vm(0, ACTIVE, 0, None), Vm(1, BUILDING, 0, None)], table := map[0 := 0, 1 := 1],
                        threads := [Thread(Creation(0), 1, Get1, UNKNOWN)]);
    if n == 0 then ONE_ACTIVE_VM
    else if n == 1 then asked
    else if n == 2 then stored
    else if n == 3 then born
    else born.(threads := [Thread(Creation(0), 1, Died(true), UNKNOWN)])
  }

  function CreatingEvent(n: nat): Event {
    if n == 0 then Begin(CreateVm(1, 0)) else if n < 3 then Resume(0) else Die(0)
  }

  lemma CreatingStep(n: nat)
    requires n < 4
    ensures WellTyped(Creating(n)) && Enabled(ONE_FLAVOR, Creating(n), CreatingEvent(n))
    ensures Creating(n + 1) == Next(ONE_FLAVOR, Creating(n), CreatingEvent(n))
    ensures Uninterrupted(Creating(n), CreatingEvent(n)) && CleanCapture(Creating(n), CreatingEvent(n))
  {
  }

  /**
   Without any resize, and with atomic handlers: the coroutine of a creation dies before it has written a
   status, and with nothing running the new VM is left in BUILDING.
   */
  lemma DeadThreadStrands() returns (ss: seq<State>, es: seq<Event>)
    ensures IsRun(ONE_FLAVOR, ss, es) && CleanSeed(ss[0]) && ss[0] == ONE_ACTIVE_VM
    ensures AtomicRun(ss, es) && CleanRun(ss, es)
    ensures var t := ss[|es|]; WellTyped(t) && Idle(t) && 1 in t.table && StatusOf(t, 1) == BUILDING
  {
    ss := seq(5, n requires 0 <= n < 5 => Creating(n));
    es := seq(4, n requires 0 <= n < 4 => CreatingEvent(n));
    forall n | 0 <= n < |es| ensures StepAt(ONE_FLAVOR, ss, es, n) && AtomicAt(ss, es, n) && CleanAt(ss, es, n) {
      CreatingStep(n);
    }
  }

  lemma StepsJoin(c: Config, ss: seq<State>, es: seq<Event>, ss': seq<State>, es': seq<Event>)
    requires Steps(c, ss, es) && Steps(c, ss', es') && ss'[0] == ss[|es|]
    ensures Steps(c, ss + ss'[1..], es + es')
    ensures (ss + ss'[1..])[|es + es'|] == ss'[|es'|]
  {
    var tt, ee := ss + ss'[1..], es + es';
    forall i | 0 <= i < |ee| ensures StepAt(c, tt, ee, i) {
      if i < |es| {
        assert StepAt(c, ss, es, i);
      } else {
        var n := i - |es|;
        assert StepAt(c, ss', es', n);
        assert tt[i] == ss'[n] && tt[i + 1] == ss'[n + 1] && ee[i] == es'[n];
      }
    }
  }
}
