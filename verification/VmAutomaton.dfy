/** Requests on one VM, each drained before the next, follow the declared tables, whatever other VMs do. */
module VmAutomaton {
  import opened Tasks
  import opened VmMachine
  import opened VmInvariant
  import opened VmTheorems

  /** The automaton that the two action tables declare, written out: which statuses an action is for. */
  predicate Accepts(st: VmState, a: VmAction) {
    match a
    case START => st == SHUTOFF
    case STOP => st == ACTIVE || st == SUSPENDED
    case REBOOTING => st == ACTIVE
    case HARD_REBOOT => st == ACTIVE || st == ERROR || st == SHUTOFF
    case SUSPEND => st == ACTIVE
    case RESUME => st == SUSPENDED
  }

  /** And the status it leaves. */
  function Leaves(a: VmAction): VmState {
    match a
    case START | RESUME | REBOOTING | HARD_REBOOT => ACTIVE
    case STOP => SHUTOFF
    case SUSPEND => SUSPENDED
  }

  function Declared(st: VmState, acts: seq<VmAction>): VmState {
    if acts == [] then st
    else
      var before := Declared(st, acts[..|acts| - 1]);
      var a := acts[|acts| - 1];
      if Accepts(before, a) then Leaves(a) else before
  }

  predicate Quiet(s: State, v: VmId) {
    forall k :: 0 <= k < |s.threads| && s.threads[k].vm == v ==> !s.threads[k].phase.Pending()
  }

  predicate Foreign(e: Event, v: VmId) {
    e.Begin? ==> VmOf(e.request) != v
  }

  /** The status a VM shows while a drained action or resize sleeps. */
  function Meanwhile(kind: Kind, before: VmState): VmState {
    match kind
    case Resizing(_, _) => RESIZE
    case Action(REBOOTING, _) | Action(HARD_REBOOT, _) => REBOOT
    case _ => before
  }

  /** The dictionary was stamped after `begun`, at a time that has come. */
  predicate Stamped(v: Vm, begun: Time, clock: Time) {
    v.updatedAt.Some? && begun <= v.updatedAt.value <= clock
  }

  /** What the dictionary of a VM reads while `t`, accepted at `begun`, is the only thread at work on it. */
  predicate Shows(t: Thread, before: Vm, now: Vm, begun: Time, clock: Time) {
    && begun <= clock
    && now.id == before.id
    && (t.kind.Action? ==> t.kind.current == before.status)
    && (HoldsSave(t) ==> t.saved == before.status)
    && if t.phase.Pending() && !t.phase.Fin? then now == before
       else if t.phase.Fin? then
         now.flavor == before.flavor && now.status == Meanwhile(t.kind, before.status) && Stamped(now, begun, clock)
       else t.phase != Died(true) ==>
         && now.flavor == (if t.kind.Resizing? then t.kind.flavor else before.flavor)
         && now.status == (if t.kind.Action? then Leaves(t.kind.action) else before.status)
         && Stamped(now, begun, clock)
  }

  ghost predicate Solo(s: State, v: VmId, k: nat, before: Vm, begun: Time)
    requires WellTyped(s)
  {
    && v in s.table && k < |s.threads|
    && s.threads[k].vm == v && (s.threads[k].kind.Action? || s.threads[k].kind.Resizing?)
    && Shows(s.threads[k], before, s.objs[s.table[v]], begun, s.now)
    && forall j :: 0 <= j < |s.threads| && j != k && s.threads[j].vm == v ==> !s.threads[j].phase.Pending()
  }

  lemma NextSolo(c: Config, s: State, e: Event, v: VmId, k: nat, before: Vm, begun: Time)
    requires Identified(s) && WellTyped(s) && Solo(s, v, k, before, begun) && Enabled(c, s, e) && Foreign(e, v)
    requires WellTyped(Next(c, s, e))
    ensures Solo(Next(c, s, e), v, k, before, begun)
    ensures Next(c, s, e).threads[k].kind == s.threads[k].kind
  {
    if e == Resume(k) {
      ResumedSolo(c, s, v, k, before, begun);
    } else {
      if e.Resume? && s.threads[e.k].vm == v {
        IdleResumption(c, s, e.k);
      } else {
        StaysInTable(c, s, e, v);
        OtherVmKept(c, s, e, v);
      }
      OtherSolo(c, s, e, v, k, before, begun);
    }
  }

  /** A thread past its last write changes no VM. */
  lemma IdleResumption(c: Config, s: State, j: nat)
    requires WellTyped(s) && j < |s.threads| && !s.threads[j].phase.Pending()
    ensures Resumed(c, s, j).objs == s.objs && Resumed(c, s, j).table == s.table
  {
  }

  lemma StaysInTable(c: Config, s: State, e: Event, v: VmId)
    requires WellTyped(s) && Enabled(c, s, e) && v in s.table && (e.Resume? ==> s.threads[e.k].vm != v)
    ensures v in Next(c, s, e).table
  {
  }

  lemma OtherSolo(c: Config, s: State, e: Event, v: VmId, k: nat, before: Vm, begun: Time)
    requires WellTyped(s) && Solo(s, v, k, before, begun) && Enabled(c, s, e) && Foreign(e, v) && e != Resume(k)
    requires WellTyped(Next(c, s, e))
    requires var t := Next(c, s, e); v in t.table && t.objs[t.table[v]] == s.objs[s.table[v]]
    ensures Solo(Next(c, s, e), v, k, before, begun)
    ensures Next(c, s, e).threads[k].kind == s.threads[k].kind
  {
    var t := Next(c, s, e);
    assert forall j :: 0 <= j < |s.threads| ==>
      t.threads[j].vm == s.threads[j].vm && (t.threads[j].phase.Pending() ==> s.threads[j].phase.Pending());
  }

  lemma ResumedSolo(c: Config, s: State, v: VmId, k: nat, before: Vm, begun: Time)
    requires Identified(s) && WellTyped(s) && Solo(s, v, k, before, begun) && s.threads[k].phase.Live()
    requires WellTyped(Resumed(c, s, k))
    ensures Solo(Resumed(c, s, k), v, k, before, begun)
  {
    assert ThreadIdentified(s, k);
    if s.threads[k].kind.Resizing? {
      AliasIsEntry(s, k);
    }
  }

  lemma BegunSolo(c: Config, s: State, r: Request)
    requires Identified(s) && WellTyped(s) && Quiet(s, VmOf(r)) && Enabled(c, s, Begin(r))
    requires r.PerformAction? || r.ResizeVm?
    requires WellTyped(Next(c, s, Begin(r)))
    ensures VmOf(r) in s.table && Solo(Next(c, s, Begin(r)), VmOf(r), |s.threads|, s.objs[s.table[VmOf(r)]], s.now)
  {
  }

  /** From step i to step j request `r` is accepted and drained, and its VM gets no other request. */
  ghost predicate Episode(c: Config, ss: seq<State>, es: seq<Event>, i: nat, j: nat, r: Request) {
    && i < j < |ss| && |ss| == |es| + 1
    && es[i] == Begin(r)
    && (forall n :: i < n < j ==> Foreign(es[n], VmOf(r)))
    && Quiet(ss[i], VmOf(r)) && Quiet(ss[j], VmOf(r))
    && |ss[i].threads| < |ss[j].threads| && ss[j].threads[|ss[i].threads|].phase != Died(true)
  }

  lemma SoloStep(c: Config, ss: seq<State>, es: seq<Event>, n: nat, v: VmId, k: nat, before: Vm, begun: Time)
    requires IsRun(c, ss, es) && n < |es| && Foreign(es[n], v)
    requires WellTyped(ss[n]) && Solo(ss[n], v, k, before, begun)
    ensures WellTyped(ss[n + 1]) && Solo(ss[n + 1], v, k, before, begun)
    ensures ss[n + 1].threads[k].kind == ss[n].threads[k].kind
  {
    RunIdentified(c, ss, es, n);
    RunIdentified(c, ss, es, n + 1);
    assert StepAt(c, ss, es, n);
    NextSolo(c, ss[n], es[n], v, k, before, begun);
  }

  /** A thread that is alone at work on its VM stays so for as long as the VM gets no request. */
  lemma {:induction false} SoloUntil(c: Config, ss: seq<State>, es: seq<Event>, i: nat, n: nat, v: VmId, k: nat,
                                     before: Vm, begun: Time)
    requires IsRun(c, ss, es) && i <= n < |ss| && forall m :: i <= m < n ==> Foreign(es[m], v)
    requires WellTyped(ss[i]) && Solo(ss[i], v, k, before, begun)
    ensures WellTyped(ss[n]) && Solo(ss[n], v, k, before, begun)
    ensures ss[n].threads[k].kind == ss[i].threads[k].kind
    decreases n
  {
    if i < n {
      SoloUntil(c, ss, es, i, n - 1, v, k, before, begun);
      SoloStep(c, ss, es, n - 1, v, k, before, begun);
    }
  }

  /**
   A drained action leaves its own status and nothing else changed; a drained resize, the old status and
   the new flavor. Either stamps the VM after it was accepted.
   */
  lemma DrainedOutcome(c: Config, ss: seq<State>, es: seq<Event>, i: nat, j: nat, r: Request)
    requires IsRun(c, ss, es) && Episode(c, ss, es, i, j, r) && (r.PerformAction? || r.ResizeVm?)
    ensures WellTyped(ss[i]) && WellTyped(ss[j]) && VmOf(r) in ss[i].table && VmOf(r) in ss[j].table
    ensures var before, after := ss[i].objs[ss[i].table[VmOf(r)]], ss[j].objs[ss[j].table[VmOf(r)]];
      && after.id == before.id
      && after.status == (match r
                          case PerformAction(_, STOP) => SHUTOFF
                          case PerformAction(_, SUSPEND) => SUSPENDED
                          case PerformAction(_, _) => ACTIVE
                          case _ => before.status)
      && after.flavor == (if r.ResizeVm? then r.flavor else before.flavor)
      && Stamped(after, ss[i].now, ss[j].now)
  {
    RunIdentified(c, ss, es, i);
    RunIdentified(c, ss, es, i + 1);
    assert StepAt(c, ss, es, i);
    BegunSolo(c, ss[i], r);
    var before := ss[i].objs[ss[i].table[VmOf(r)]];
    SoloUntil(c, ss, es, i + 1, j, VmOf(r), |ss[i].threads|, before, ss[i].now);
  }

  /** While it sleeps, a resize shows RESIZE, a reboot of either kind REBOOT, and any other action the old status. */
  lemma ShownMeanwhile(c: Config, ss: seq<State>, es: seq<Event>, i: nat, n: nat, r: Request)
    requires IsRun(c, ss, es) && i < n < |ss| && es[i] == Begin(r) && (r.PerformAction? || r.ResizeVm?)
    requires Quiet(ss[i], VmOf(r)) && forall m :: i < m < n ==> Foreign(es[m], VmOf(r))
    requires |ss[i].threads| < |ss[n].threads| && ss[n].threads[|ss[i].threads|].phase.Fin?
    ensures WellTyped(ss[i]) && WellTyped(ss[n]) && VmOf(r) in ss[i].table && VmOf(r) in ss[n].table
    ensures StatusOf(ss[n], VmOf(r)) ==
      if r.ResizeVm? then RESIZE
      else if r.action in {REBOOTING, HARD_REBOOT} then REBOOT
      else StatusOf(ss[i], VmOf(r))
  {
    RunIdentified(c, ss, es, i);
    RunIdentified(c, ss, es, i + 1);
    assert StepAt(c, ss, es, i);
    BegunSolo(c, ss[i], r);
    SoloUntil(c, ss, es, i + 1, n, VmOf(r), |ss[i].threads|, ss[i].objs[ss[i].table[VmOf(r)]], ss[i].now);
  }

  /** An action is accepted exactly from the statuses it is for, and refused for one of two reasons. */
  lemma ActionAccepted(c: Config, s: State, v: VmId, a: VmAction)
    requires WellTyped(s)
    ensures var refusal := Refusal(c, s, PerformAction(v, a));
      && (refusal == None <==> v in s.table && match a
                                               case START => StatusOf(s, v) in {SHUTOFF}
                                               case STOP => StatusOf(s, v) in {ACTIVE, SUSPENDED}
                                               case REBOOTING | SUSPEND => StatusOf(s, v) in {ACTIVE}
                                               case HARD_REBOOT => StatusOf(s, v) in {ACTIVE, ERROR, SHUTOFF}
                                               case RESUME => StatusOf(s, v) in {SUSPENDED})
      && (refusal == None <==> v in s.table && Accepts(StatusOf(s, v), a))
      && (refusal == Some(VM_NOT_FOUND) <==> v !in s.table)
      && (refusal == Some(INVALID_STATE) <==> v in s.table && !Accepts(StatusOf(s, v), a))
  {
  }

  /** A VM that was stopped can be started, and one that was suspended resumed, and either is ACTIVE again. */
  lemma RoundTrip(c: Config, ss: seq<State>, es: seq<Event>, i: nat, m: nat, j: nat, v: VmId, suspend: bool)
    requires IsRun(c, ss, es) && Episode(c, ss, es, i, m, PerformAction(v, if suspend then SUSPEND else STOP))
    ensures WellTyped(ss[m]) && Refusal(c, ss[m], PerformAction(v, if suspend then RESUME else START)) == None
    ensures Episode(c, ss, es, m, j, PerformAction(v, if suspend then RESUME else START)) ==>
      WellTyped(ss[j]) && v in ss[j].table && StatusOf(ss[j], v) == ACTIVE
  {
    DrainedOutcome(c, ss, es, i, m, PerformAction(v, if suspend then SUSPEND else STOP));
    ActionAccepted(c, ss[m], v, if suspend then RESUME else START);
    if Episode(c, ss, es, m, j, PerformAction(v, if suspend then RESUME else START)) {
      DrainedOutcome(c, ss, es, m, j, PerformAction(v, if suspend then RESUME else START));
    }
  }

  /** Action n of `acts` is tried at step cuts[n]: refused without a trace, or accepted and drained by cuts[n + 1]. */
  ghost predicate DrainedActions(c: Config, ss: seq<State>, es: seq<Event>, v: VmId, acts: seq<VmAction>,
                                 cuts: seq<nat>)
  {
    && |cuts| == |acts| + 1
    && (forall n :: 0 <= n < |cuts| ==> cuts[n] < |ss| && WellTyped(ss[cuts[n]]))
    && forall n :: 0 <= n < |acts| ==>
         if Refusal(c, ss[cuts[n]], PerformAction(v, acts[n])) == None then
           Episode(c, ss, es, cuts[n], cuts[n + 1], PerformAction(v, acts[n]))
         else cuts[n + 1] == cuts[n]
  }

  /** Drained one after the other, the actions accepted and the statuses reached are the automaton's. */
  lemma {:induction false} DrainedRunsRefineTables(c: Config, ss: seq<State>, es: seq<Event>, v: VmId,
                                                   acts: seq<VmAction>, cuts: seq<nat>, n: nat)
    requires IsRun(c, ss, es) && DrainedActions(c, ss, es, v, acts, cuts) && n <= |acts| && v in ss[cuts[0]].table
    ensures v in ss[cuts[n]].table
    ensures StatusOf(ss[cuts[n]], v) == Declared(StatusOf(ss[cuts[0]], v), acts[..n])
    ensures ss[cuts[n]].objs[ss[cuts[n]].table[v]].flavor == ss[cuts[0]].objs[ss[cuts[0]].table[v]].flavor
    ensures n < |acts| ==>
      (Refusal(c, ss[cuts[n]], PerformAction(v, acts[n])) == None
       <==> Accepts(Declared(StatusOf(ss[cuts[0]], v), acts[..n]), acts[n]))
  {
    if n > 0 {
      DrainedRunsRefineTables(c, ss, es, v, acts, cuts, n - 1);
      assert acts[..n][..n - 1] == acts[..n - 1];
      ActionAccepted(c, ss[cuts[n - 1]], v, acts[n - 1]);
      if Refusal(c, ss[cuts[n - 1]], PerformAction(v, acts[n - 1])) == None {
        DrainedOutcome(c, ss, es, cuts[n - 1], cuts[n], PerformAction(v, acts[n - 1]));
      }
    } else {
      assert acts[..0] == [];
    }
    if n < |acts| {
      ActionAccepted(c, ss[cuts[n]], v, acts[n]);
    }
  }

  // ------------------------------------------------------------------ creations and deletions

  /** What a thread does, and to which VM, never changes. */
  lemma {:induction false} KindStays(c: Config, ss: seq<State>, es: seq<Event>, i: nat, n: nat, k: nat)
    requires IsRun(c, ss, es) && i <= n < |ss| && k < |ss[i].threads|
    ensures k < |ss[n].threads|
    ensures ss[n].threads[k].kind == ss[i].threads[k].kind && ss[n].threads[k].vm == ss[i].threads[k].vm
    decreases n
  {
    if i < n {
      KindStays(c, ss, es, i, n - 1, k);
      assert StepAt(c, ss, es, n - 1);
    }
  }

  /** A creation that is the only thread of its VM: no entry before it returns, then BUILDING, and ACTIVE in the end. */
  ghost predicate Newborn(s: State, v: VmId, k: nat, f: FlavorId)
    requires WellTyped(s)
  {
    && k < |s.threads| && s.threads[k].kind == Creation(f) && s.threads[k].vm == v
    && (forall j :: 0 <= j < |s.threads| && j != k ==> s.threads[j].vm != v)
    && match s.threads[k].phase
       case Opening(_) | Ready => v !in s.table
       case Get1 | Set1(_) | Mid | Fin =>
         v in s.table && StatusOf(s, v) == BUILDING && s.objs[s.table[v]].flavor == f
       case Died(true) => true
       case Died(false) | Get2 | Set2(_) | Done =>
         v in s.table && StatusOf(s, v) == ACTIVE && s.objs[s.table[v]].flavor == f
  }

  lemma NextNewborn(c: Config, s: State, e: Event, v: VmId, k: nat, f: FlavorId)
    requires Identified(s) && WellTyped(s) && Newborn(s, v, k, f) && Enabled(c, s, e) && Foreign(e, v)
    requires WellTyped(Next(c, s, e))
    ensures Newborn(Next(c, s, e), v, k, f)
  {
    if e == Resume(k) {
      assert ThreadIdentified(s, k);
    } else {
      if v in s.table {
        StaysInTable(c, s, e, v);
        OtherVmKept(c, s, e, v);
      } else if v in Next(c, s, e).table {
        OtherVmKept(c, s, e, v);
      }
    }
  }

  lemma NewbornStep(c: Config, ss: seq<State>, es: seq<Event>, n: nat, v: VmId, k: nat, f: FlavorId)
    requires IsRun(c, ss, es) && n < |es| && Foreign(es[n], v)
    requires WellTyped(ss[n]) && Newborn(ss[n], v, k, f)
    ensures WellTyped(ss[n + 1]) && Newborn(ss[n + 1], v, k, f)
  {
    RunIdentified(c, ss, es, n);
    RunIdentified(c, ss, es, n + 1);
    assert StepAt(c, ss, es, n);
    NextNewborn(c, ss[n], es[n], v, k, f);
  }

  lemma {:induction false} NewbornUntil(c: Config, ss: seq<State>, es: seq<Event>, i: nat, n: nat, v: VmId, k: nat,
                                        f: FlavorId)
    requires IsRun(c, ss, es) && i <= n < |ss| && forall m :: i <= m < n ==> Foreign(es[m], v)
    requires WellTyped(ss[i]) && Newborn(ss[i], v, k, f)
    ensures WellTyped(ss[n]) && Newborn(ss[n], v, k, f)
    decreases n
  {
    if i < n {
      NewbornUntil(c, ss, es, i, n - 1, v, k, f);
      NewbornStep(c, ss, es, n - 1, v, k, f);
    }
  }

  /** A drained creation leaves its VM ACTIVE, with the flavor asked for. */
  lemma DrainedCreation(c: Config, ss: seq<State>, es: seq<Event>, i: nat, j: nat, v: VmId, f: FlavorId)
    requires IsRun(c, ss, es) && Episode(c, ss, es, i, j, Request.CreateVm(v, f))
    ensures WellTyped(ss[j]) && v in ss[j].table
    ensures StatusOf(ss[j], v) == ACTIVE && ss[j].objs[ss[j].table[v]].flavor == f
  {
    RunIdentified(c, ss, es, i);
    RunIdentified(c, ss, es, i + 1);
    assert StepAt(c, ss, es, i);
    BegunNewborn(c, ss[i], v, f);
    NewbornUntil(c, ss, es, i + 1, j, v, |ss[i].threads|, f);
  }

  lemma BegunNewborn(c: Config, s: State, v: VmId, f: FlavorId)
    requires Identified(s) && WellTyped(s) && Enabled(c, s, Begin(Request.CreateVm(v, f)))
    requires WellTyped(Next(c, s, Begin(Request.CreateVm(v, f))))
    ensures Newborn(Next(c, s, Begin(Request.CreateVm(v, f))), v, |s.threads|, f)
  {
    forall j | 0 <= j < |s.threads| ensures s.threads[j].vm != v {
      assert ThreadIdentified(s, j);
    }
  }

  /** A drained deletion leaves its VM out of the table. */
  lemma DrainedDeletion(c: Config, ss: seq<State>, es: seq<Event>, i: nat, j: nat, v: VmId)
    requires IsRun(c, ss, es) && Episode(c, ss, es, i, j, Request.DeleteVm(v))
    ensures v !in ss[j].table
  {
    assert StepAt(c, ss, es, i);
    KindStays(c, ss, es, i + 1, j, |ss[i].threads|);
    RunInv(c, ss, es, j);
    assert HasRemoved(ss[j].threads[|ss[i].threads|]);
  }
}
