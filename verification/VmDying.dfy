/**
 When coroutines may also die, as they do when a store call raises: exactly which states are sure to leave
 no VM in a transient status once nothing runs any more, whoever dies and when.
 */
module VmDying {
  import opened Tasks
  import opened VmMachine
  import opened VmInvariant
  import opened VmTheorems
  import opened VmDraining

  /** The thread has yet to write a transient status. */
  predicate WillExpose(t: Thread) {
    || WillShow(t)
    || (t.kind.Deletion? && InHandler(t))
    || (t.kind.Resizing? && t.phase.Fin? && Transient(t.saved))
  }

  predicate ExposedBy(s: State, v: VmId, j: int) {
    && 0 <= j < |s.threads| && s.threads[j].vm == v && WillExpose(s.threads[j])
    && (v in s.table || (s.threads[j].kind.Creation? && InHandler(s.threads[j])))
  }

  /** The VM shows a transient status, or some thread is on its way to make it show one. */
  ghost predicate Exposed(s: State, v: VmId)
    requires WellTyped(s)
  {
    (v in s.table && Transient(StatusOf(s, v))) || exists j :: ExposedBy(s, v, j)
  }

  // ------------------------------------------------------------------ it suffices

  ghost predicate Unexposed(s: State)
    requires WellTyped(s)
  {
    forall v :: !Exposed(s, v)
  }

  lemma NextUnexposed(c: Config, s: State, e: Event)
    requires Identified(s) && WellTyped(s) && Unexposed(s) && Enabled(c, s, e) && !e.Begin?
    requires WellTyped(Next(c, s, e))
    ensures Unexposed(Next(c, s, e))
  {
    var t := Next(c, s, e);
    forall v ensures !Exposed(t, v) {
      assert !Exposed(s, v);
      if e.Resume? && s.threads[e.k].vm == v {
        ResumedUnexposed(c, s, e.k, v);
      } else if v in t.table {
        OtherVmKept(c, s, e, v);
        assert forall j :: ExposedBy(t, v, j) ==> ExposedBy(s, v, j);
      } else {
        assert forall j :: ExposedBy(t, v, j) ==> ExposedBy(s, v, j);
      }
    }
  }

  lemma ResumedUnexposed(c: Config, s: State, k: nat, v: VmId)
    requires Identified(s) && WellTyped(s) && k < |s.threads| && s.threads[k].phase.Live() && s.threads[k].vm == v
    requires !Exposed(s, v) && WellTyped(Resumed(c, s, k))
    ensures !Exposed(Resumed(c, s, k), v)
  {
    var t := Resumed(c, s, k);
    assert ThreadIdentified(s, k) && !ExposedBy(s, v, k);
    if v in s.table && (s.threads[k].kind.Resizing? || s.threads[k].kind.Deletion?) {
      AliasIsEntry(s, k);
    }
    forall j ensures !ExposedBy(t, v, j) {
      assert !ExposedBy(s, v, j);
    }
  }

  lemma {:induction false} UnexposedSettles(c: Config, ss: seq<State>, es: seq<Event>, i: nat)
    requires Steps(c, ss, es) && i <= |es| && forall n :: 0 <= n < |es| ==> !es[n].Begin?
    requires Identified(ss[0]) && WellTyped(ss[0]) && Unexposed(ss[0])
    ensures Identified(ss[i]) && WellTyped(ss[i]) && Unexposed(ss[i]) && Settled(ss[i])
  {
    if i > 0 {
      UnexposedSettles(c, ss, es, i - 1);
      assert StepAt(c, ss, es, i - 1);
      NextIdentified(c, ss[i - 1], es[i - 1]);
      IdentifiedIsWellTyped(ss[i]);
      NextUnexposed(c, ss[i - 1], es[i - 1]);
    }
    assert forall v :: v in ss[i].table ==> !Exposed(ss[i], v);
  }

  // ------------------------------------------------------------------ it is necessary

  lemma EndsCons(c: Config, s: State, e: Event, ss: seq<State>, es: seq<Event>)
    requires WellTyped(s) && Enabled(c, s, e) && !e.Begin? && Ends(c, Next(c, s, e), ss, es)
    ensures Ends(c, s, [s] + ss, [e] + es) && ([s] + ss)[|[e] + es|] == ss[|es|]
  {
    StepsCons(c, s, e, ss, es);
  }

  /** When every thread dies at once, each VM keeps the status it shows. */
  lemma {:induction false} AllDie(c: Config, s: State) returns (ss: seq<State>, es: seq<Event>)
    requires WellTyped(s)
    ensures Ends(c, s, ss, es) && ss[|es|].objs == s.objs && ss[|es|].table == s.table
    decreases Work(s.threads)
  {
    if Idle(s) {
      return [s], [];
    }
    var j: nat :| j < |s.threads| && s.threads[j].phase.Live();
    var t := Next(c, s, Die(j));
    assert forall k :: 0 <= k < |t.threads| ==> Rooted(t, t.threads[k]) by {
      assert forall k :: 0 <= k < |s.threads| ==> Rooted(s, s.threads[k]);
    }
    NextWork(c, s, Die(j));
    ss, es := AllDie(c, t);
    EndsCons(c, s, Die(j), ss, es);
    ss, es := [s] + ss, [Die(j)] + es;
  }

  lemma StillExposed(c: Config, s: State, v: VmId, j: nat)
    requires Identified(s) && WellTyped(s) && ExposedBy(s, v, j) && !(v in s.table && Transient(StatusOf(s, v)))
    requires WellTyped(Resumed(c, s, j))
    ensures var t := Resumed(c, s, j); (v in t.table && Transient(StatusOf(t, v))) || ExposedBy(t, v, j)
  {
    assert ThreadIdentified(s, j);
    if v in s.table && (s.threads[j].kind.Resizing? || s.threads[j].kind.Deletion?) {
      AliasIsEntry(s, j);
    }
  }

  /** An exposed VM can be caught: the thread writes, and then everything dies. */
  lemma {:induction false} ExposedEnds(c: Config, s: State, v: VmId) returns (ss: seq<State>, es: seq<Event>)
    requires Identified(s) && WellTyped(s) && Exposed(s, v)
    ensures Ends(c, s, ss, es) && !Settled(ss[|es|])
    decreases Work(s.threads)
  {
    if v in s.table && Transient(StatusOf(s, v)) {
      ss, es := AllDie(c, s);
    } else {
      var j :| ExposedBy(s, v, j);
      var t := Next(c, s, Resume(j));
      NextIdentified(c, s, Resume(j));
      IdentifiedIsWellTyped(t);
      StillExposed(c, s, v, j);
      NextWork(c, s, Resume(j));
      ss, es := ExposedEnds(c, t, v);
      EndsCons(c, s, Resume(j), ss, es);
      ss, es := [s] + ss, [Resume(j)] + es;
    }
  }

  // ------------------------------------------------------------------ exactly when

  /**
   Any state of any run: whatever happens from there but new requests, deaths included, nothing is left
   transient once nothing runs, if and only if no VM shows a transient status or is about to be made to.
   */
  lemma SurvivesDeathsExactlyWhen(c: Config, ss: seq<State>, es: seq<Event>, i: nat)
    requires IsRun(c, ss, es) && i < |ss|
    ensures WellTyped(ss[i])
    ensures (forall ss', es' :: Ends(c, ss[i], ss', es') ==> Settled(ss'[|es'|])) <==> forall v :: !Exposed(ss[i], v)
  {
    var s := ss[i];
    RunInv(c, ss, es, i);
    if forall v :: !Exposed(s, v) {
      forall ss', es' | Ends(c, s, ss', es') ensures Settled(ss'[|es'|]) {
        UnexposedSettles(c, ss', es', |es'|);
      }
    } else {
      var v :| Exposed(s, v);
      var ss', es' := ExposedEnds(c, s, v);
      assert Ends(c, s, ss', es') && !Settled(ss'[|es'|]);
    }
  }
}
