/** The ownership invariant of the task protocol: one live writer per key, and what it has written so far. */
module ProtocolInvariant {
  import opened Tasks
  import opened Polling
  import opened Protocol

  // ------------------------------------------------------------------ one process

  function Replies(acks: seq<Ack>): seq<Reply> {
    seq(|acks|, i requires 0 <= i < |acks| => acks[i].reply)
  }

  /** The outcome (`status`, `error`) is what the calls in `acks` call for. */
  predicate Explains(c: Config, kind: Kind, vm: VmId, acks: seq<Ack>, fault: Option<string>, status: Status,
                     error: Option<string>)
  {
    match kind
    case CreateVM =>
      && (forall i :: 0 <= i < |acks| ==> acks[i].call == GET_SERVER && acks[i].vm == vm)
      && IsVerdict(c.timeout, Replies(acks), Change(status, None, error, None))
    case DeleteVM =>
      && (status.SUCCESS? ==> acks == [Ack(DELETE_SERVER, vm, Done)] && error == None)
      && (status.FAILED? ==>
            && |acks| == 1 && acks[0].call == DELETE_SERVER && acks[0].vm == vm
            && error.Some? && error == fault && Quotes(acks[0].reply, error))
    case ResizeVM(f) =>
      && (status.SUCCESS? ==>
            acks == [Ack(RESIZE_SERVER(f), vm, Done), Ack(CONFIRM_SERVER_RESIZE, vm, Done)] && error == None)
      && (status.FAILED? ==>
            && 1 <= |acks| <= 2 && acks[0].call == RESIZE_SERVER(f) && acks[0].vm == vm
            && error.Some? && error == fault && Quotes(acks[|acks| - 1].reply, error))
    case CreateSnapshot =>
      status.SUCCESS? && error == None && |acks| == 2 && acks[1].call == CREATE_IMAGE && acks[1].reply.Answer?
  }

  /** When the call raised, `error` is its message. */
  predicate Quotes(r: Reply, error: Option<string>) {
    r.Raise? ==> error == Some(r.message)
  }

  predicate ExplainsChange(c: Config, p: Proc, u: Change) {
    && u.status.Terminal()
    && u.resourceId == None
    && Explains(c, p.kind, p.vm, p.acks, p.fault, u.status, u.error)
    && (if p.kind.CreateSnapshot? then p.acks[1].reply.Answer? && u.result == Some(p.acks[1].reply.id)
        else u.result == None)
  }

  /** A poll at loop count `elapsed` has consumed one undecided answer per interval. */
  predicate Polled(c: Config, p: Proc, elapsed: int) {
    && elapsed == Slept(|p.acks|)
    && AllUndecided(Replies(p.acks))
    && forall i :: 0 <= i < |p.acks| ==> p.acks[i].call == GET_SERVER && p.acks[i].vm == p.vm
  }

  /** Where the process stands agrees with the answers it has received. */
  predicate Progress(c: Config, p: Proc) {
    (p.missed ==> p.job || p.kind.CreateSnapshot?) &&
    match p.pc
    case Calling => !p.job && p.acks == [] && !p.missed
    case Creating(_) => !p.job && |p.acks| == 1
    case Enqueueing => !p.job && !p.kind.CreateSnapshot?
    case Imaging => !p.job && p.kind.CreateSnapshot? && |p.acks| == 1
    case Returned => !p.job
    case Queued => p.job && !p.kind.CreateSnapshot? && p.acks == []
    case Getting(u) => Issuing(c, p, u)
    case Setting(u, _) => Issuing(c, p, u)
    case Sleeping(elapsed) => p.job && p.kind.CreateVM? && Polled(c, p, elapsed) && elapsed < c.timeout
    case Asking(elapsed) =>
      p.job && p.kind.CreateVM? && Polled(c, p, elapsed - POLL_INTERVAL_SECONDS) &&
      elapsed - POLL_INTERVAL_SECONDS < c.timeout
    case Deleting => p.job && p.kind.DeleteVM? && p.acks == []
    case Resizing => p.job && p.kind.ResizeVM? && p.acks == []
    case Pausing | Confirming =>
      p.job && p.kind.ResizeVM? && p.acks == [Ack(RESIZE_SERVER(p.kind.flavor), p.vm, Done)]
    case Finished => p.job && !p.kind.CreateSnapshot?
    case Dead => true
  }

  predicate Issuing(c: Config, p: Proc, u: Change) {
    if u.status.RUNNING? then p.job && !p.kind.CreateSnapshot? && u == STARTED && p.acks == []
    else p.job == !p.kind.CreateSnapshot? && ExplainsChange(c, p, u)
  }

  // ------------------------------------------------------------------ one key

  /** The records written under one key, in order, are those of its own sequential history. */
  ghost predicate LegalHistory(c: Config, k: TaskId, kind: Kind, vm: VmId, h: seq<Stored>) {
    && |h| <= (if kind.CreateSnapshot? then 2 else 3)
    && (h != [] ==>
          && h[0].record == NewRecord(k, OperationOf(kind), vm, h[0].record.createdAt)
          && h[0].record.createdAt <= h[0].at)
    && forall i :: 1 <= i < |h| ==> LegalSuccessor(kind, i, h[i - 1], h[i])
  }

  ghost predicate LegalSuccessor(kind: Kind, i: nat, before: Stored, after: Stored) {
    && before.at <= after.record.updatedAt <= after.at
    && exists u: Change ::
      && after.record == Modified(before.record, u, after.record.updatedAt)
      && u.resourceId == None
      && LegalChange(kind, i, u)
  }

  /** The i-th write of a key, counted from 0, that is not the first. */
  predicate LegalChange(kind: Kind, i: nat, u: Change) {
    if kind.CreateSnapshot? then
      i == 1 && u.status.SUCCESS? && u.error == None && u.result.Some?
    else if i == 1 then u == STARTED
    else i == 2 && u.status.Terminal() && (u.error.Some? <==> u.status.FAILED?) && u.result == None
  }

  /** How many writes a process standing at `pc` finds behind it, its own and its request's. */
  function WritesBehind(p: Proc): nat {
    match p.pc
    case Calling | Creating(_) => 0
    case Enqueueing | Imaging | Queued => 1
    case Getting(u) => if u.status.RUNNING? || p.kind.CreateSnapshot? then 1 else 2
    case Setting(u, _) => if u.status.RUNNING? || p.kind.CreateSnapshot? then 1 else 2
    case Sleeping(_) | Asking(_) | Deleting | Resizing | Pausing | Confirming => 2
    case Returned => if p.kind.CreateSnapshot? then 2 else 1
    case Finished => 3
    case Dead => 0
  }

  /** What the system holds about one key: its owner, its history, and what Redis has under it now. */
  datatype Holding = Holding(owner: Proc, history: seq<Stored>, found: Option<Record>)

  ghost predicate Consistent(c: Config, now: Time, k: TaskId, x: Holding) {
    var p, h := x.owner, x.history;
    && LegalHistory(c, k, p.kind, p.vm, h)
    && (h != [] ==> h[|h| - 1].at <= now)
    && (x.found.Some? ==> h != [] && x.found.value == h[|h| - 1].record)
    && (p.missed ==> x.found == None && !p.pc.Creating? && !p.pc.Enqueueing? && !p.pc.Imaging? && !p.pc.Queued?)
    && (!p.pc.Dead? ==> |h| <= WritesBehind(p) && (!p.missed ==> |h| == WritesBehind(p)))
    && (|h| > 1 ==> p.job || p.kind.CreateSnapshot?)
    && (p.pc.Creating? ==>
          && p.pc.first == NewRecord(k, OperationOf(p.kind), p.vm, p.pc.first.createdAt)
          && p.pc.first.createdAt <= now)
    && (p.pc.Setting? ==>
          && !p.missed
          && h[|h| - 1].at <= p.pc.next.updatedAt <= now
          && p.pc.next == Modified(h[|h| - 1].record, p.pc.change, p.pc.next.updatedAt))
    && (|h| == 3 ==> Explains(c, p.kind, p.vm, p.acks, p.fault, h[2].record.status, h[2].record.error))
    && (p.kind.CreateSnapshot? && |h| == 2 ==> ExplainsChange(c, p, Change(SUCCESS, None, None, h[1].record.result)))
  }

  // ------------------------------------------------------------------ the whole system

  /** Requests and jobs keep to their own program points, and have a task id from the moment they draw one. */
  predicate Shape(p: Proc) {
    match p.pc
    case Calling => !p.job && p.task.None?
    case Creating(_) | Returned => !p.job && p.task.Some?
    case Enqueueing => !p.job && p.task.Some? && !p.kind.CreateSnapshot?
    case Imaging => !p.job && p.task.Some? && p.kind.CreateSnapshot?
    case Getting(_) | Setting(_, _) => p.task.Some? && p.job == !p.kind.CreateSnapshot?
    case Dead => p.job ==> p.task.Some?
    case _ => p.job && p.task.Some? && !p.kind.CreateSnapshot?
  }

  predicate ProcLinked(s: State, i: nat)
    requires i < |s.procs|
  {
    var p := s.procs[i];
    var k := Key(p);
    && Shape(p)
    && (p.job ==> k in s.worker && s.worker[k] == i && k in s.maker)
    && (!p.job && p.task.Some? ==> k in s.maker && s.maker[k] == i)
  }

  /** The process that may still write under `k`: its job once there is one, else its request. */
  function Owner(s: State, k: TaskId): nat
    requires k in s.maker
  {
    if k in s.worker then s.worker[k] else s.maker[k]
  }

  predicate KeyLinked(s: State, k: TaskId)
    requires k in s.maker
  {
    && s.maker[k] < |s.procs|
    && var m := s.procs[s.maker[k]];
    && !m.job && m.task == Some(k)
    && (k in s.worker <==> m.pc.Returned? && !m.kind.CreateSnapshot?)
    && (k in s.worker ==>
          && s.worker[k] < |s.procs|
          && var w := s.procs[s.worker[k]];
          && w.job && w.task == Some(k) && w.kind == m.kind && w.vm == m.vm)
  }

  ghost predicate Structure(s: State) {
    && (forall i :: 0 <= i < |s.procs| ==> ProcLinked(s, i))
    && (forall k :: k in s.maker ==> KeyLinked(s, k))
    && s.store.Keys <= s.maker.Keys
    && s.worker.Keys <= s.maker.Keys
    && s.hist.Keys == s.maker.Keys
  }

  ghost function Hold(s: State, k: TaskId): Holding
    requires k in s.maker && k in s.hist && KeyLinked(s, k)
  {
    Holding(s.procs[Owner(s, k)], s.hist[k], Found(s, k))
  }

  /** Each entry expires one ttl after the last write of its key. */
  predicate Deadlines(c: Config, s: State) {
    forall k :: k in s.store ==>
      k in s.hist && s.hist[k] != [] && s.store[k].deadline == s.hist[k][|s.hist[k]| - 1].at + c.ttl
  }

  predicate AllProgress(c: Config, s: State) {
    forall i :: 0 <= i < |s.procs| ==> s.procs[i].since <= s.now && Progress(c, s.procs[i])
  }

  ghost predicate KeyConsistent(c: Config, s: State, k: TaskId) {
    k in s.maker && k in s.hist && KeyLinked(s, k) && Consistent(c, s.now, k, Hold(s, k))
  }

  ghost predicate AllConsistent(c: Config, s: State) {
    forall k :: k in s.maker ==> KeyConsistent(c, s, k)
  }

  ghost predicate Inv(c: Config, s: State) {
    Structure(s) && Deadlines(c, s) && AllProgress(c, s) && AllConsistent(c, s)
  }

  // ------------------------------------------------------------------ one move, seen by its process

  lemma MovedProgress(c: Config, now: Time, found: Option<Record>, p: Proc, s: State, r: Reply, uuid: TaskId)
    requires Progress(c, p) && Fits(s, p, r, uuid)
    ensures Progress(c, Moved(c, now, found, p, r, uuid))
  {
    match p.pc
    case Asking(_) => AskedProgress(c, now, found, p, s, r, uuid);
    case Setting(u, _) => UpdatingProgress(c, now, found, p, s, r, uuid, u);
    case Getting(u) => UpdatingProgress(c, now, found, p, s, r, uuid, u);
    case Imaging =>
    case Deleting =>
    case Resizing =>
    case Pausing =>
    case Confirming =>
    case _ =>
  }

  lemma UpdatingProgress(c: Config, now: Time, found: Option<Record>, p: Proc, s: State, r: Reply, uuid: TaskId,
                         u: Change)
    requires p.pc.Getting? || p.pc.Setting?
    requires u == p.pc.change
    requires Progress(c, p) && Fits(s, p, r, uuid)
    ensures Progress(c, Moved(c, now, found, p, r, uuid))
  {
  }

  lemma AskedProgress(c: Config, now: Time, found: Option<Record>, p: Proc, s: State, r: Reply, uuid: TaskId)
    requires p.pc.Asking? && Progress(c, p) && Fits(s, p, r, uuid)
    ensures Progress(c, Moved(c, now, found, p, r, uuid))
  {
    var q := Moved(c, now, found, p, r, uuid);
    var obs, obs' := Replies(p.acks), Replies(q.acks);
    assert obs' == obs + [r];
    GuardInRounds(c.timeout, |obs|);
    GuardInRounds(c.timeout, |obs'|);
    if Decisive(r) {
      assert Decisive(obs'[|obs'| - 1]);
      assert obs'[..|obs'| - 1] == obs;
    } else {
      assert AllUndecided(obs');
      assert p.pc.elapsed == Slept(|obs'|);
      if p.pc.elapsed >= c.timeout {
        assert |obs'| >= Rounds(c.timeout);
      }
    }
  }

  /** What is held about the key of `p` after the move. */
  function HoldingAfter(c: Config, now: Time, x: Holding, r: Reply, uuid: TaskId): Holding {
    var e := EffectOf(x.owner, r, uuid);
    Holding(Moved(c, now, x.found, x.owner, r, uuid),
            if e.Put? then x.history + [Stored(e.record, now)] else x.history,
            if e.Put? then Some(e.record) else x.found)
  }

  lemma MovedConsistent(c: Config, now: Time, k: TaskId, x: Holding, s: State, r: Reply, uuid: TaskId)
    requires Progress(c, x.owner) && Fits(s, x.owner, r, uuid) && !x.owner.pc.Calling?
    requires Consistent(c, now, k, x)
    ensures Consistent(c, now, k, HoldingAfter(c, now, x, r, uuid))
  {
    if EffectOf(x.owner, r, uuid).Put? {
      PutConsistent(c, now, k, x, s, r, uuid);
    } else if x.owner.pc.Getting? {
      GotConsistent(c, now, k, x, s, r, uuid);
    } else {
      QuietConsistent(c, now, k, x, s, r, uuid);
    }
  }

  lemma PutConsistent(c: Config, now: Time, k: TaskId, x: Holding, s: State, r: Reply, uuid: TaskId)
    requires Progress(c, x.owner) && Fits(s, x.owner, r, uuid)
    requires EffectOf(x.owner, r, uuid).Put?
    requires Consistent(c, now, k, x)
    ensures Consistent(c, now, k, HoldingAfter(c, now, x, r, uuid))
  {
    var p, h := x.owner, x.history;
    if p.pc.Setting? {
      LegalExtension(c, k, p.kind, p.vm, h, Stored(p.pc.next, now), p.pc.change);
    }
  }

  lemma LegalExtension(c: Config, k: TaskId, kind: Kind, vm: VmId, h: seq<Stored>, w: Stored, u: Change)
    requires LegalHistory(c, k, kind, vm, h) && h != []
    requires LegalChange(kind, |h|, u) && u.resourceId == None
    requires h[|h| - 1].at <= w.record.updatedAt <= w.at
    requires w.record == Modified(h[|h| - 1].record, u, w.record.updatedAt)
    ensures LegalHistory(c, k, kind, vm, h + [w])
  {
  }

  lemma GotConsistent(c: Config, now: Time, k: TaskId, x: Holding, s: State, r: Reply, uuid: TaskId)
    requires Progress(c, x.owner) && Fits(s, x.owner, r, uuid) && x.owner.pc.Getting?
    requires Consistent(c, now, k, x)
    ensures Consistent(c, now, k, HoldingAfter(c, now, x, r, uuid))
  {
  }

  lemma QuietConsistent(c: Config, now: Time, k: TaskId, x: Holding, s: State, r: Reply, uuid: TaskId)
    requires Progress(c, x.owner) && Fits(s, x.owner, r, uuid) && !x.owner.pc.Calling? && !x.owner.pc.Getting?
    requires !EffectOf(x.owner, r, uuid).Put?
    requires Consistent(c, now, k, x)
    ensures Consistent(c, now, k, HoldingAfter(c, now, x, r, uuid))
  {
    var p, q := x.owner, HoldingAfter(c, now, x, r, uuid).owner;
    assert q.kind == p.kind && q.vm == p.vm && q.missed == p.missed;
    assert !q.pc.Setting? && !q.pc.Creating?;
    assert q.pc.Dead? || WritesBehind(q) == WritesBehind(p);
    assert |x.history| <= WritesBehind(p);
    assert q.acks == p.acks || WritesBehind(p) <= (if p.kind.CreateSnapshot? then 1 else 2);
  }

  // ------------------------------------------------------------------ one step of the whole system

  lemma InitInv(c: Config)
    ensures Inv(c, INIT)
  {
  }

  lemma NextInv(c: Config, s: State, e: Event)
    requires Inv(c, s) && Enabled(s, e)
    ensures Inv(c, Next(c, s, e))
  {
    StructureNext(c, s, e);
    DeadlinesNext(c, s, e);
    ProgressNext(c, s, e);
    var t := Next(c, s, e);
    forall k | k in t.maker ensures KeyConsistent(c, t, k) {
      assert KeyLinked(t, k);
      assert k in s.maker ==> KeyConsistent(c, s, k);
      if !e.Move? {
        OtherConsistent(c, s, e, k);
      } else if k in s.maker {
        MoveConsistent(c, s, e, k);
      } else {
        ClaimConsistent(c, s, e, k);
      }
    }
  }

  /** What no move ever changes about a process, and the shape it keeps. */
  lemma MovedShape(c: Config, s: State, p: Proc, r: Reply, uuid: TaskId)
    requires Shape(p) && Fits(s, p, r, uuid)
    ensures var q := Moved(c, s.now, Found(s, Key(p)), p, r, uuid); var e := EffectOf(p, r, uuid);
      && Shape(q) && q.job == p.job && q.kind == p.kind && q.since == s.now
      && (e.Claim? <==> p.pc.Calling? && !r.Raise?)
      && (if e.Claim? then e.k == uuid && uuid !in s.maker && q.task == Some(uuid) && q.pc.Creating?
          else q.task == p.task && q.vm == p.vm)
      && (e.Put? ==> !p.pc.Calling?)
      && (e.Spawn? ==> p.pc.Enqueueing? && q == p.(since := s.now, pc := Returned))
      && (q.pc.Returned? && !e.Spawn? ==> q.kind.CreateSnapshot?)
  {
  }

  lemma StructureNext(c: Config, s: State, e: Event)
    requires Structure(s) && Enabled(s, e)
    ensures Structure(Next(c, s, e))
  {
    var t := Next(c, s, e);
    match e
    case Tick(d) => SameProcs(s, t);
    case Expire(k) => SameProcs(s, t);
    case Arrive(kind, vm) =>
      forall i | 0 <= i < |t.procs| ensures ProcLinked(t, i) {
        assert i < |s.procs| ==> ProcLinked(s, i);
      }
      forall k | k in t.maker ensures KeyLinked(t, k) {
        assert KeyLinked(s, k);
      }
    case Cancel(i) =>
      assert ProcLinked(s, i);
      ReplacedStructure(s, i, s.procs[i].(pc := Dead));
    case Move(i, r, uuid) =>
      var p := s.procs[i];
      assert ProcLinked(s, i);
      MovedShape(c, s, p, r, uuid);
      ApplyStructure(c, s, i, Moved(c, s.now, Found(s, Key(p)), p, r, uuid), EffectOf(p, r, uuid));
  }

  lemma ApplyStructure(c: Config, s: State, i: nat, q: Proc, e: Effect)
    requires Structure(s) && i < |s.procs| && s.procs[i].pc.Live() && Shape(q)
    requires var p := s.procs[i];
      && q.job == p.job && q.kind == p.kind
      && (if e.Claim? then p.pc.Calling? && e.k !in s.maker && q.task == Some(e.k) && q.pc.Creating?
          else q.task == p.task && q.vm == p.vm)
      && (e.Put? ==> !p.pc.Calling?)
      && (e.Spawn? ==> p.pc.Enqueueing? && q == p.(since := s.now, pc := Returned))
      && (q.pc.Returned? && !e.Spawn? ==> q.kind.CreateSnapshot?)
    ensures Structure(Apply(c, s, i, q, e))
  {
    var t := Apply(c, s, i, q, e);
    match e
    case Nothing => ReplacedStructure(s, i, q);
    case Put(_) =>
      assert ProcLinked(s, i);
      ReplacedStructure(s, i, q);
      SameProcs(s.(procs := s.procs[i := q]), t);
    case Spawn => SpawnStructure(c, s, i, q, t);
    case Claim(uuid) => ClaimStructure(c, s, i, q, t, uuid);
  }

  lemma SameProcs(s: State, t: State)
    requires Structure(s)
    requires t.procs == s.procs && t.maker == s.maker && t.worker == s.worker && t.hist.Keys == s.hist.Keys
    requires t.store.Keys <= t.maker.Keys
    ensures Structure(t)
  {
    forall i | 0 <= i < |t.procs| ensures ProcLinked(t, i) {
      assert ProcLinked(s, i);
    }
    forall k | k in t.maker ensures KeyLinked(t, k) {
      assert KeyLinked(s, k);
    }
  }

  lemma ReplacedStructure(s: State, i: nat, q: Proc)
    requires Structure(s) && i < |s.procs|
    requires var p := s.procs[i];
      && p.pc.Live() && Shape(q)
      && q.job == p.job && q.task == p.task && q.kind == p.kind && (p.task.Some? ==> q.vm == p.vm)
      && (q.pc.Returned? ==> q.kind.CreateSnapshot?)
    ensures Structure(s.(procs := s.procs[i := q]))
  {
    var t := s.(procs := s.procs[i := q]);
    assert ProcLinked(s, i);
    forall j | 0 <= j < |t.procs| ensures ProcLinked(t, j) {
      assert ProcLinked(s, j);
    }
    forall k | k in t.maker ensures KeyLinked(t, k) {
      assert KeyLinked(s, k);
    }
  }

  lemma SpawnStructure(c: Config, s: State, i: nat, q: Proc, t: State)
    requires Structure(s) && i < |s.procs| && s.procs[i].pc.Enqueueing?
    requires q == s.procs[i].(since := s.now, pc := Returned) && t == Apply(c, s, i, q, Spawn)
    ensures Structure(t)
  {
    var k, n := Key(q), |s.procs|;
    assert ProcLinked(s, i) && KeyLinked(s, k);
    forall j | 0 <= j < |t.procs| ensures ProcLinked(t, j) {
      if j < n {
        assert ProcLinked(s, j);
      }
    }
    forall k' | k' in t.maker ensures KeyLinked(t, k') {
      assert KeyLinked(s, k');
    }
  }

  lemma ClaimStructure(c: Config, s: State, i: nat, q: Proc, t: State, uuid: TaskId)
    requires Structure(s) && i < |s.procs| && s.procs[i].pc.Calling? && uuid !in s.maker
    requires q.task == Some(uuid) && q.pc.Creating? && !q.job && q.kind == s.procs[i].kind
    requires t == Apply(c, s, i, q, Claim(uuid))
    ensures Structure(t)
  {
    assert ProcLinked(s, i);
    forall j | 0 <= j < |t.procs| ensures ProcLinked(t, j) {
      assert ProcLinked(s, j);
    }
    forall k | k in t.maker ensures KeyLinked(t, k) {
      assert k != uuid ==> KeyLinked(s, k);
    }
  }

  lemma DeadlinesNext(c: Config, s: State, e: Event)
    requires Structure(s) && Deadlines(c, s) && Enabled(s, e)
    ensures Deadlines(c, Next(c, s, e))
  {
    if e.Move? {
      var p := s.procs[e.i];
      assert ProcLinked(s, e.i);
      MovedShape(c, s, p, e.reply, e.uuid);
      ApplyDeadlines(c, s, e.i, Moved(c, s.now, Found(s, Key(p)), p, e.reply, e.uuid), EffectOf(p, e.reply, e.uuid));
    }
  }

  lemma ApplyDeadlines(c: Config, s: State, i: nat, q: Proc, e: Effect)
    requires s.hist.Keys == s.maker.Keys && Deadlines(c, s) && i < |s.procs|
    requires e.Claim? ==> q.task == Some(e.k) && e.k !in s.maker
    ensures Deadlines(c, Apply(c, s, i, q, e))
  {
  }

  lemma ProgressNext(c: Config, s: State, e: Event)
    requires AllProgress(c, s) && Enabled(s, e)
    ensures AllProgress(c, Next(c, s, e))
  {
    if e.Move? {
      var p := s.procs[e.i];
      MovedProgress(c, s.now, Found(s, Key(p)), p, s, e.reply, e.uuid);
      ApplyProgress(c, s, e.i, Moved(c, s.now, Found(s, Key(p)), p, e.reply, e.uuid), EffectOf(p, e.reply, e.uuid));
    }
  }

  lemma ApplyProgress(c: Config, s: State, i: nat, q: Proc, e: Effect)
    requires AllProgress(c, s) && i < |s.procs|
    requires q.since <= s.now && Progress(c, q)
    requires e.Spawn? ==> !q.kind.CreateSnapshot?
    ensures AllProgress(c, Apply(c, s, i, q, e))
  {
  }

  /** A process that can move and has a key owns it: no other process of that key can move. */
  lemma OwnerMoves(s: State, i: nat)
    requires Structure(s) && i < |s.procs| && s.procs[i].pc.Live() && !s.procs[i].pc.Calling?
    ensures var k := Key(s.procs[i]);
      s.procs[i].task == Some(k) && k in s.maker && Owner(s, k) == i
  {
    assert ProcLinked(s, i);
    assert KeyLinked(s, Key(s.procs[i]));
  }

  lemma KeyStays(c: Config, s: State, e: Event, k: TaskId)
    requires Structure(s) && Enabled(s, e) && k in s.maker
    ensures var t := Next(c, s, e); k in t.maker && k in t.hist && KeyLinked(t, k)
  {
    StructureNext(c, s, e);
  }

  /** A move changes what is held about the mover's own key only. */
  lemma MoveHolds(c: Config, s: State, e: Event, k: TaskId)
    requires Structure(s) && e.Move? && Enabled(s, e) && k in s.maker
    ensures var t := Next(c, s, e); var p := s.procs[e.i];
      && t.now == s.now && k in t.maker && k in t.hist && KeyLinked(t, k)
      && (if p.task == Some(k) && !(EffectOf(p, e.reply, e.uuid).Spawn?) then
            Hold(t, k) == HoldingAfter(c, s.now, Hold(s, k), e.reply, e.uuid)
          else if p.task == Some(k) then
            Hold(t, k) == Hold(s, k).(owner := NewJob(Hold(s, k).owner.(pc := Returned), s.now))
          else
            Hold(t, k) == Hold(s, k))
  {
    KeyStays(c, s, e, k);
    var i, p := e.i, s.procs[e.i];
    assert ProcLinked(s, i) && KeyLinked(s, k);
    MovedShape(c, s, p, e.reply, e.uuid);
    if p.task == Some(k) {
      OwnerMoves(s, i);
    }
    ApplyHolds(c, s, i, Moved(c, s.now, Found(s, Key(p)), p, e.reply, e.uuid), EffectOf(p, e.reply, e.uuid), k);
  }

  lemma ApplyHolds(c: Config, s: State, i: nat, q: Proc, e: Effect, k: TaskId)
    requires i < |s.procs| && k in s.maker && k in s.hist && KeyLinked(s, k)
    requires KeyLinked(Apply(c, s, i, q, e), k)
    requires var p := s.procs[i];
      && (p.task == Some(k) ==> Owner(s, k) == i)
      && (if e.Claim? then e.k !in s.maker && q.task == Some(e.k) && p.task == None else q.task == p.task)
      && (e.Put? || e.Spawn? ==> p.task.Some?)
    ensures var t := Apply(c, s, i, q, e);
      if s.procs[i].task != Some(k) then Hold(t, k) == Hold(s, k)
      else if e.Spawn? then Hold(t, k) == Hold(s, k).(owner := NewJob(q, s.now))
      else if e.Put? then Hold(t, k) == Holding(q, s.hist[k] + [Stored(e.record, s.now)], Some(e.record))
      else Hold(t, k) == Hold(s, k).(owner := q)
  {
  }

  lemma OtherHolds(c: Config, s: State, e: Event, k: TaskId)
    requires k in s.maker && k in s.hist && KeyLinked(s, k) && !e.Move? && Enabled(s, e)
    requires KeyLinked(Next(c, s, e), k)
    ensures var t, x := Next(c, s, e), Hold(s, k);
      || Hold(t, k) == x
      || Hold(t, k) == x.(found := None)
      || Hold(t, k) == x.(owner := x.owner.(pc := Dead))
  {
  }

  /** Time, an expiry and a cancellation leave what is known of a key consistent. */
  lemma StaysConsistent(c: Config, now: Time, later: Time, k: TaskId, x: Holding)
    requires Consistent(c, now, k, x) && now <= later
    ensures Consistent(c, later, k, x)
    ensures Consistent(c, later, k, x.(found := None))
    ensures Consistent(c, later, k, x.(owner := x.owner.(pc := Dead)))
  {
  }

  lemma OtherConsistent(c: Config, s: State, e: Event, k: TaskId)
    requires KeyConsistent(c, s, k) && !e.Move? && Enabled(s, e)
    requires k in Next(c, s, e).maker && KeyLinked(Next(c, s, e), k)
    ensures KeyConsistent(c, Next(c, s, e), k)
  {
    OtherHolds(c, s, e, k);
    StaysConsistent(c, s.now, Next(c, s, e).now, k, Hold(s, k));
  }

  lemma ClaimConsistent(c: Config, s: State, e: Event, k: TaskId)
    requires Structure(s) && AllProgress(c, s) && e.Move? && Enabled(s, e) && k !in s.maker
    requires k in Next(c, s, e).maker && k in Next(c, s, e).hist && KeyLinked(Next(c, s, e), k)
    ensures KeyConsistent(c, Next(c, s, e), k)
  {
    var t, p := Next(c, s, e), s.procs[e.i];
    assert ProcLinked(s, e.i) && Progress(c, p);
    MovedShape(c, s, p, e.reply, e.uuid);
    assert KeyLinked(t, k);
    assert Owner(t, k) == e.i;
    assert t.hist[k] == [] && Found(t, k) == None;
    FreshConsistent(c, s, k, p, e.reply);
    Established(c, t, k, Holding(t.procs[e.i], [], None));
  }

  lemma FreshConsistent(c: Config, s: State, k: TaskId, p: Proc, r: Reply)
    requires p.pc.Calling? && Progress(c, p) && !r.Raise?
    ensures Consistent(c, s.now, k, Holding(Moved(c, s.now, Found(s, Key(p)), p, r, k), [], None))
  {
  }

  lemma MoveConsistent(c: Config, s: State, e: Event, k: TaskId)
    requires Structure(s) && AllProgress(c, s) && KeyConsistent(c, s, k)
    requires e.Move? && Enabled(s, e)
    ensures KeyConsistent(c, Next(c, s, e), k)
  {
    MoveHolds(c, s, e, k);
    var t, x := Next(c, s, e), Hold(s, k);
    if s.procs[e.i].task == Some(k) {
      assert ProcLinked(s, e.i) && Progress(c, s.procs[e.i]);
      OwnerMoves(s, e.i);
      OwnerConsistent(c, s, e, k, x);
    }
    Established(c, t, k, Hold(t, k));
  }

  lemma Established(c: Config, t: State, k: TaskId, x: Holding)
    requires k in t.maker && k in t.hist && KeyLinked(t, k) && Hold(t, k) == x
    requires Consistent(c, t.now, k, x)
    ensures KeyConsistent(c, t, k)
  {
  }

  lemma OwnerConsistent(c: Config, s: State, e: Event, k: TaskId, x: Holding)
    requires e.Move? && Enabled(s, e) && s.procs[e.i] == x.owner && Progress(c, x.owner) && !x.owner.pc.Calling?
    requires Consistent(c, s.now, k, x)
    ensures
      if EffectOf(x.owner, e.reply, e.uuid).Spawn? then
        Consistent(c, s.now, k, x.(owner := NewJob(x.owner.(pc := Returned), s.now)))
      else Consistent(c, s.now, k, HoldingAfter(c, s.now, x, e.reply, e.uuid))
  {
    if EffectOf(x.owner, e.reply, e.uuid).Spawn? {
      SpawnConsistent(c, s.now, k, x);
    } else {
      MovedConsistent(c, s.now, k, x, s, e.reply, e.uuid);
    }
  }

  lemma SpawnConsistent(c: Config, now: Time, k: TaskId, x: Holding)
    requires x.owner.pc.Enqueueing? && !x.owner.kind.CreateSnapshot?
    requires Consistent(c, now, k, x)
    ensures Consistent(c, now, k, x.(owner := NewJob(x.owner.(pc := Returned), now)))
  {
  }

  /** Every state of every run satisfies the invariant. */
  lemma {:induction false} RunInv(c: Config, ss: seq<State>, es: seq<Event>, i: nat)
    requires IsRun(c, ss, es) && i < |ss|
    ensures Inv(c, ss[i])
  {
    if i == 0 {
      InitInv(c);
    } else {
      RunInv(c, ss, es, i - 1);
      assert StepAt(c, ss, es, i - 1);
      NextInv(c, ss[i - 1], es[i - 1]);
    }
  }
}
