/**
 The methods of the compute client and of the task store are runs of the protocol: what they compute
 with nothing in between is reached by events of their own process, the clock and the expiry.
 */
module Refinement {
  import opened Tasks
  import opened Polling
  import opened Protocol
  import opened TaskStore
  import opened Compute

  // ------------------------------------------------------------------ stretches of a run

  ghost predicate Leads(c: Config, s: State, es: seq<Event>, t: State)
    decreases |es|
  {
    if es == [] then t == s
    else Enabled(s, es[0]) && Leads(c, Next(c, s, es[0]), es[1..], t)
  }

  lemma {:induction false} LeadsJoin(c: Config, s: State, es: seq<Event>, t: State, es': seq<Event>, u: State)
    requires Leads(c, s, es, t) && Leads(c, t, es', u)
    ensures Leads(c, s, es + es', u)
    decreases |es|
  {
    if es == [] {
      assert es + es' == es';
    } else {
      LeadsJoin(c, Next(c, s, es[0]), es[1..], t, es', u);
      assert (es + es')[1..] == es[1..] + es';
    }
  }

  /** What a reachable state leads to is reachable. */
  lemma {:induction false} LeadsExtends(c: Config, ss: seq<State>, es: seq<Event>, es': seq<Event>, t: State)
      returns (ss': seq<State>)
    requires IsRun(c, ss, es) && Leads(c, ss[|es|], es', t)
    ensures IsRun(c, ss', es + es') && ss'[|es + es'|] == t && ss <= ss'
    decreases |es'|
  {
    if es' == [] {
      assert es + es' == es;
      return ss;
    }
    var next := Next(c, ss[|es|], es'[0]);
    var longer, events := ss + [next], es + [es'[0]];
    forall i | 0 <= i < |events| ensures StepAt(c, longer, events, i) {
      assert i < |es| ==> StepAt(c, ss, es, i);
    }
    ss' := LeadsExtends(c, longer, events, es'[1..], t);
    assert events + es'[1..] == es + es';
  }

  // ------------------------------------------------------------------ one process against the store

  /** The two stores agree on key `k`; Redis drops an expired entry at once, the protocol when it expires it. */
  predicate Agree(s: State, w: Redis, k: TaskId) {
    && s.now == w.now
    && Found(s, k) == w.Lookup(k)
    && (k in s.store ==> k in w.data && s.store[k] == w.data[k])
  }

  /** Process `i` is `p`, and the store it sees is `w`. */
  predicate At(s: State, w: Redis, i: nat, p: Proc) {
    i < |s.procs| && s.procs[i] == p && p.task.Some? && Agree(s, w, Key(p))
  }

  lemma Pass(c: Config, s: State, w: Redis, i: nat, p: Proc, d: Time) returns (es: seq<Event>, t: State)
    requires At(s, w, i, p) && d >= 0.0
    ensures Leads(c, s, es, t) && At(t, w.After(d), i, p)
  {
    var k := Key(p);
    es, t := [Tick(d)], Next(c, s, Tick(d));
    if k in t.store && t.store[k].deadline <= t.now {
      var u := Next(c, t, Expire(k));
      assert Leads(c, t, [Expire(k)], u);
      es, t := [Tick(d), Expire(k)], u;
      assert es[1..] == [Expire(k)];
    }
  }

  /** A call that changes nothing but the process. */
  lemma Hear(c: Config, s: State, w: Redis, i: nat, p: Proc, r: Reply) returns (t: State, q: Proc)
    requires At(s, w, i, p) && Fits(s, p, r, 0) && EffectOf(p, r, 0) == Nothing && !p.pc.Calling?
    ensures q == Moved(c, w.now, w.Lookup(Key(p)), p, r, 0)
    ensures Leads(c, s, [Move(i, r, 0)], t) && At(t, w, i, q)
  {
    q := Moved(c, w.now, w.Lookup(Key(p)), p, r, 0);
    t := Next(c, s, Move(i, r, 0));
    assert Leads(c, t, [], t);
    assert q.task == p.task;
  }

  function ReplyOf(raised: bool, message: string): Reply {
    if raised then Raise(message) else Done
  }

  lemma SetIsOneMove(c: Config, s: State, w: Redis, i: nat, p: Proc, raised: bool, message: string)
      returns (e: Event, t: State, q: Proc)
    requires At(s, w, i, p) && p.pc.Setting? && c.ttl > 0.0
    ensures Leads(c, s, [e], t)
    ensures At(t, if raised then w else w.Put(Key(p), p.pc.next, c.ttl), i, q)
    ensures q == p.(since := w.now, fault := q.fault,
                    pc := if raised then OnRedisError(p, p.pc.change, message) else After(c, p, p.pc.change))
  {
    e := Move(i, ReplyOf(raised, message), 0);
    if raised {
      t, q := Hear(c, s, w, i, p, Raise(message));
    } else {
      q := p.(since := w.now, pc := After(c, p, p.pc.change));
      t := Next(c, s, e);
      assert Leads(c, t, [], t);
    }
  }

  /** One whole update is the GET move and, when the key was found, the SET move of its process. */
  lemma UpdateIsTwoMoves(c: Config, s: State, w: Redis, i: nat, p: Proc, raises: nat -> bool, message: string)
      returns (es: seq<Event>, t: State, q: Proc)
    requires At(s, w, i, p) && p.pc.Getting? && c.ttl > 0.0
    ensures Leads(c, s, es, t) && |es| <= 2
    ensures var o := Updated(c.ttl, raises, w, Key(p), p.pc.change);
      && At(t, o.redis, i, q)
      && q.pc == (if o.raised then OnRedisError(p, p.pc.change, message) else After(c, p, p.pc.change))
      && q == p.(since := w.now, pc := q.pc, missed := q.missed, fault := q.fault)
  {
    var r := ReplyOf(raises(w.calls), message);
    t, q := Hear(c, s, w, i, p, r);
    es := [Move(i, r, 0)];
    if !raises(w.calls) && w.Lookup(Key(p)).Some? {
      var e, t', q' := SetIsOneMove(c, t, w, i, q, raises(w.calls + 1), message);
      LeadsJoin(c, s, es, t, [e], t');
      es, t, q := es + [e], t', q';
    }
  }

  // ------------------------------------------------------------------ the job functions

  /** What a job keeps for life. */
  predicate SameJob(p: Proc, q: Proc) {
    q.job == p.job && q.kind == p.kind && q.vm == p.vm && q.task == p.task
  }

  /** A worker picks the job up and its RUNNING update goes through. */
  lemma PickUp(c: Config, s: State, w: Redis, i: nat, p: Proc, raises: nat -> bool, message: string)
      returns (es: seq<Event>, t: State, q: Proc)
    requires At(s, w, i, p) && p.job && p.pc.Queued? && c.ttl > 0.0
    ensures Leads(c, s, es, t) && SameJob(p, q) && q.acks == p.acks && q.since == w.now
    ensures var o := Updated(c.ttl, raises, w, Key(p), STARTED);
      At(t, o.redis, i, q) && q.pc == (if o.raised then Dead else After(c, p, STARTED))
  {
    var t', q' := Hear(c, s, w, i, p, Done);
    es, t, q := UpdateIsTwoMoves(c, t', w, i, q', raises, message);
    LeadsJoin(c, s, [Move(i, Done, 0)], t', es, t);
    es := [Move(i, Done, 0)] + es;
  }

  /** Which answers fit depends on the time alone, but for the call that draws the task id. */
  lemma FitsAlike(s: State, t: State, p: Proc, r: Reply)
    requires s.now == t.now && !p.pc.Calling?
    ensures Fits(s, p, r, 0) <==> Fits(t, p, r, 0)
  {
  }

  /** Time passes, then the awaited call ends. */
  lemma PassThenHear(c: Config, s: State, w: Redis, i: nat, p: Proc, d: Time, r: Reply)
      returns (es: seq<Event>, t: State, q: Proc)
    requires At(s, w, i, p) && d >= 0.0 && Fits(s.(now := s.now + d), p, r, 0)
    requires EffectOf(p, r, 0) == Nothing && !p.pc.Calling? && !p.pc.Getting?
    ensures q == Moved(c, w.now + d, w.After(d).Lookup(Key(p)), p, r, 0)
    ensures Leads(c, s, es, t) && At(t, w.After(d), i, q)
  {
    var es', t' := Pass(c, s, w, i, p, d);
    FitsAlike(s.(now := s.now + d), t', p, r);
    t, q := Hear(c, t', w.After(d), i, p, r);
    LeadsJoin(c, s, es', t', [Move(i, r, 0)], t);
    es := es' + [Move(i, r, 0)];
  }

  /** One round of the poll: the sleep, the question, and the answer `r` after `d`. */
  lemma RoundIsMoves(c: Config, s: State, w: Redis, i: nat, p: Proc, j: nat, r: Reply, d: Time)
      returns (es: seq<Event>, t: State, q: Proc)
    requires At(s, w, i, p) && p.pc == Sleeping(Slept(j)) && p.since == w.now
    requires d >= 0.0 && (r.Raise? || r.Seen?)
    ensures Leads(c, s, es, t) && At(t, w.After(POLL_INTERVAL_SECONDS as real + d), i, q)
    ensures SameJob(p, q) && q.since == w.now + POLL_INTERVAL_SECONDS as real + d
    ensures q.pc == if Decisive(r) then Getting(Conclusion(r)) else Loop(c, Slept(j + 1))
  {
    var es1, t1, q1 := PassThenHear(c, s, w, i, p, POLL_INTERVAL_SECONDS as real, Done);
    var es2, t2, q2 := PassThenHear(c, t1, w.After(POLL_INTERVAL_SECONDS as real), i, q1, d, r);
    LeadsJoin(c, s, es1, t1, es2, t2);
    return es1 + es2, t2, q2;
  }

  /** From loop count `j`, the rounds of the poll up to the verdict. */
  lemma {:induction false} RoundsAreMoves(c: Config, s: State, w: Redis, i: nat, p: Proc, nova: nat -> Reply,
                                          delay: nat -> Time, begun: Time, j: nat, n: nat, u: Change)
      returns (es: seq<Event>, t: State, q: Proc)
    requires At(s, w, i, p) && p.pc == Loop(c, Slept(j)) && p.kind.CreateVM?
    requires p.since == w.now == begun + RoundsTime(delay, j)
    requires j <= n && Undecided(nova, j) && StopsWith(c.timeout, nova, n, u)
    requires forall m: nat :: m < n ==> delay(m) >= 0.0 && (nova(m).Raise? || nova(m).Seen?)
    ensures Leads(c, s, es, t) && SameJob(p, q) && q.pc == Getting(u)
    ensures At(t, w.(now := begun + RoundsTime(delay, n)), i, q)
    decreases n - j
  {
    GuardInRounds(c.timeout, j);
    if j == n {
      return [], s, p;
    }
    UndecidedMeans(nova, n - 1);
    es, t, q := RoundIsMoves(c, s, w, i, p, j, nova(j), delay(j));
    if !Decisive(nova(j)) {
      var w1 := w.After(POLL_INTERVAL_SECONDS as real + delay(j));
      var es', t', q' := RoundsAreMoves(c, t, w1, i, q, nova, delay, begun, j + 1, n, u);
      LeadsJoin(c, s, es, t, es', t');
      es, t, q := es + es', t', q';
    }
  }

  /** The whole loop, with the update that ends it. */
  lemma LoopIsMoves(c: Config, s: State, w: Redis, i: nat, p: Proc, raises: nat -> bool, nova: nat -> Reply,
                    delay: nat -> Time, n: nat, u: Change, message: string)
      returns (es: seq<Event>, t: State, q: Proc)
    requires At(s, w, i, p) && p.job && p.pc == Loop(c, 0) && p.since == w.now && p.kind.CreateVM? && c.ttl > 0.0
    requires StopsWith(c.timeout, nova, n, u)
    requires forall m: nat :: m < n ==> delay(m) >= 0.0 && (nova(m).Raise? || nova(m).Seen?)
    ensures Leads(c, s, es, t)
    ensures var o := Updated(c.ttl, raises, w.After(RoundsTime(delay, n)), Key(p), u);
      At(t, o.redis, i, q) && q.pc == if o.raised then Dead else Finished
  {
    es, t, q := RoundsAreMoves(c, s, w, i, p, nova, delay, w.now, 0, n, u);
    var w' := w.After(RoundsTime(delay, n));
    var es', t', q' := UpdateIsTwoMoves(c, t, w', i, q, raises, message);
    assert Key(q) == Key(p) && q.pc.change == u;
    LeadsJoin(c, s, es, t, es', t');
    es, t, q := es + es', t', q';
  }

  /** What PollUntilActive does to the store is what its job does in some run. */
  lemma PollIsARun(c: Config, s: State, w: Redis, i: nat, p: Proc, raises: nat -> bool, nova: nat -> Reply,
                   delay: nat -> Time, n: nat, u: Change, message: string)
      returns (es: seq<Event>, t: State, q: Proc)
    requires At(s, w, i, p) && p.job && p.pc.Queued? && p.kind.CreateVM? && c.ttl > 0.0
    requires StopsWith(c.timeout, nova, n, u)
    requires forall m: nat :: m < n ==> delay(m) >= 0.0 && (nova(m).Raise? || nova(m).Seen?)
    ensures Leads(c, s, es, t)
    ensures var k, running := Key(p), Updated(c.ttl, raises, w, Key(p), STARTED);
      var o := if running.raised then running
               else Updated(c.ttl, raises, running.redis.After(RoundsTime(delay, n)), k, u);
      At(t, o.redis, i, q) && q.pc == if o.raised then Dead else Finished
  {
    es, t, q := PickUp(c, s, w, i, p, raises, message);
    if !q.pc.Dead? {
      var running := Updated(c.ttl, raises, w, Key(p), STARTED).redis;
      var es', t', q' := LoopIsMoves(c, t, running, i, q, raises, nova, delay, n, u, message);
      LeadsJoin(c, s, es, t, es', t');
      es, t, q := es + es', t', q';
    }
  }

  /** The verdict of do_delete and do_resize: an update, and a second one when the first is SUCCESS and raises. */
  lemma ConclusionIsMoves(c: Config, s: State, w: Redis, i: nat, p: Proc, raises: nat -> bool,
                          failure: Option<string>, redisError: string)
      returns (es: seq<Event>, t: State, q: Proc)
    requires At(s, w, i, p) && p.job && !p.kind.CreateVM? && c.ttl > 0.0
    requires p.pc == Getting(if failure.Some? then Failed(failure.value) else SUCCEEDED)
    ensures Leads(c, s, es, t)
    ensures var o := Concluded(c.ttl, raises, w, Key(p), failure, redisError);
      At(t, o.redis, i, q) && q.pc == if o.raised then Dead else Finished
  {
    es, t, q := UpdateIsTwoMoves(c, s, w, i, p, raises, redisError);
    if q.pc.Getting? {
      var w1 := Updated(c.ttl, raises, w, Key(p), SUCCEEDED).redis;
      var es', t', q' := UpdateIsTwoMoves(c, t, w1, i, q, raises, redisError);
      LeadsJoin(c, s, es, t, es', t');
      es, t, q := es + es', t', q';
    }
  }

  /** What DoDelete does to the store is what its job does in some run. */
  lemma DeleteIsARun(c: Config, s: State, w: Redis, i: nat, p: Proc, raises: nat -> bool, nova: Reply, delay: Time,
                     redisError: string)
      returns (es: seq<Event>, t: State, q: Proc)
    requires At(s, w, i, p) && p.job && p.pc.Queued? && p.kind.DeleteVM? && c.ttl > 0.0
    requires delay >= 0.0 && (nova.Raise? || nova.Done?)
    ensures Leads(c, s, es, t)
    ensures var k, running := Key(p), Updated(c.ttl, raises, w, Key(p), STARTED);
      var o := if running.raised then running
               else Concluded(c.ttl, raises, running.redis.After(delay), k, Failure(nova), redisError);
      At(t, o.redis, i, q) && q.pc == if o.raised then Dead else Finished
  {
    var running := Updated(c.ttl, raises, w, Key(p), STARTED);
    es, t, q := PickUp(c, s, w, i, p, raises, redisError);
    if !running.raised {
      var es1, t1, q1 := PassThenHear(c, t, running.redis, i, q, delay, nova);
      LeadsJoin(c, s, es, t, es1, t1);
      var es2, t2, q2 := ConclusionIsMoves(c, t1, running.redis.After(delay), i, q1, raises, Failure(nova), redisError);
      LeadsJoin(c, s, es + es1, t1, es2, t2);
      es, t, q := es + es1 + es2, t2, q2;
    }
  }

  /** And so for DoResize, with the pause between the resize and its confirmation. */
  lemma ResizeIsARun(c: Config, s: State, w: Redis, i: nat, p: Proc, raises: nat -> bool, resize: Reply,
                     resizeDelay: Time, confirm: Reply, confirmDelay: Time, redisError: string)
      returns (es: seq<Event>, t: State, q: Proc)
    requires At(s, w, i, p) && p.job && p.pc.Queued? && p.kind.ResizeVM? && c.ttl > 0.0
    requires resizeDelay >= 0.0 && (resize.Raise? || resize.Done?)
    requires confirmDelay >= 0.0 && (confirm.Raise? || confirm.Done?)
    ensures Leads(c, s, es, t)
    ensures var k, running := Key(p), Updated(c.ttl, raises, w, Key(p), STARTED);
      var o := if running.raised then running
               else Concluded(c.ttl, raises, running.redis.After(ResizeTime(resize, resizeDelay, confirmDelay)), k,
                              ResizeFailure(resize, confirm), redisError);
      At(t, o.redis, i, q) && q.pc == if o.raised then Dead else Finished
  {
    var running := Updated(c.ttl, raises, w, Key(p), STARTED);
    es, t, q := PickUp(c, s, w, i, p, raises, redisError);
    if !running.raised {
      var es1, t1, q1 := ResizeCallsAreMoves(c, t, running.redis, i, q, resize, resizeDelay, confirm, confirmDelay);
      LeadsJoin(c, s, es, t, es1, t1);
      var w1 := running.redis.After(ResizeTime(resize, resizeDelay, confirmDelay));
      var es2, t2, q2 := ConclusionIsMoves(c, t1, w1, i, q1, raises, ResizeFailure(resize, confirm), redisError);
      LeadsJoin(c, s, es + es1, t1, es2, t2);
      es, t, q := es + es1 + es2, t2, q2;
    }
  }

  lemma ResizeCallsAreMoves(c: Config, s: State, w: Redis, i: nat, p: Proc, resize: Reply, resizeDelay: Time,
                            confirm: Reply, confirmDelay: Time)
      returns (es: seq<Event>, t: State, q: Proc)
    requires At(s, w, i, p) && p.job && p.pc.Resizing? && p.kind.ResizeVM?
    requires resizeDelay >= 0.0 && (resize.Raise? || resize.Done?)
    requires confirmDelay >= 0.0 && (confirm.Raise? || confirm.Done?)
    ensures Leads(c, s, es, t) && At(t, w.After(ResizeTime(resize, resizeDelay, confirmDelay)), i, q)
    ensures SameJob(p, q)
    ensures var failure := ResizeFailure(resize, confirm);
      q.pc == Getting(if failure.Some? then Failed(failure.value) else SUCCEEDED)
  {
    es, t, q := PassThenHear(c, s, w, i, p, resizeDelay, resize);
    if !resize.Raise? {
      var es', t', q' := PauseIsMoves(c, t, w.After(resizeDelay), i, q, confirm, confirmDelay);
      LeadsJoin(c, s, es, t, es', t');
      es, t, q := es + es', t', q';
    }
  }

  /** The pause of do_resize, then its second call, which ends with `confirm` after `d`. */
  lemma PauseIsMoves(c: Config, s: State, w: Redis, i: nat, p: Proc, confirm: Reply, d: Time)
      returns (es: seq<Event>, t: State, q: Proc)
    requires At(s, w, i, p) && p.pc.Pausing? && p.since == w.now
    requires d >= 0.0 && (confirm.Raise? || confirm.Done?)
    ensures Leads(c, s, es, t) && At(t, w.After(RESIZE_CONFIRM_DELAY_SECONDS + d), i, q) && SameJob(p, q)
    ensures q.pc == Getting(if confirm.Raise? then Failed(confirm.message) else SUCCEEDED)
  {
    var es1, t1, q1 := PassThenHear(c, s, w, i, p, RESIZE_CONFIRM_DELAY_SECONDS, Done);
    var es2, t2, q2 := PassThenHear(c, t1, w.After(RESIZE_CONFIRM_DELAY_SECONDS), i, q1, d, confirm);
    LeadsJoin(c, s, es1, t1, es2, t2);
    return es1 + es2, t2, q2;
  }

  // ------------------------------------------------------------------ the request handlers

  /** The operation recorded and the job enqueued for a kind of request. */
  predicate Names(kind: Kind, op: Operation, work: JobKind) {
    || (kind == CreateVM && op == CREATE_VM && work == POLL_UNTIL_ACTIVE)
    || (kind == DeleteVM && op == DELETE_VM && work == DO_DELETE)
    || (kind.ResizeVM? && op == RESIZE_VM && work == DO_RESIZE(kind.flavor))
  }

  /** A job in the queue, as a process that no worker has picked up. */
  function Waiting(kind: Kind, job: Job, now: Time): Proc {
    Proc(true, kind, job.vm, Some(job.task), Queued, now, [], false, None)
  }

  /** The VM a request is about, once Nova has answered its first call. */
  function VmOf(p: Proc, nova: Reply): VmId {
    if nova.Answer? then nova.id else p.vm
  }

  /** Nova's answer to the first call of a request, with which it draws its task id. */
  lemma ClaimIsOneMove(c: Config, s: State, w: Redis, i: nat, p: Proc, nova: Reply, uuid: TaskId)
      returns (t: State, q: Proc)
    requires i < |s.procs| && s.procs[i] == p && p.pc.Calling? && !nova.Raise?
    requires Fits(s, p, nova, uuid) && Agree(s, w, uuid)
    ensures Leads(c, s, [Move(i, nova, uuid)], t) && At(t, w, i, q) && t.procs == s.procs[i := q]
    ensures q.job == p.job && q.kind == p.kind && q.vm == VmOf(p, nova) && q.task == Some(uuid)
    ensures q.missed == p.missed
    ensures q.pc == Creating(NewRecord(uuid, OperationOf(p.kind), VmOf(p, nova), w.now))
  {
    t := Next(c, s, Move(i, nova, uuid));
    q := t.procs[i];
    assert Leads(c, t, [], t);
  }

  /** The SET of the new record. */
  lemma RecordIsOneMove(c: Config, s: State, w: Redis, i: nat, p: Proc, raises: nat -> bool, message: string)
      returns (e: Event, t: State, q: Proc)
    requires At(s, w, i, p) && p.pc.Creating? && p.pc.first.taskId == Key(p) && c.ttl > 0.0
    ensures Leads(c, s, [e], t) && t.procs == s.procs[i := q]
    ensures var o := Recorded(c.ttl, raises, w, p.pc.first);
      && At(t, o.redis, i, q)
      && q == p.(since := w.now, fault := q.fault,
                 pc := if o.raised then Dead else if p.kind.CreateSnapshot? then Imaging else Enqueueing)
  {
    e := Move(i, ReplyOf(raises(w.calls), message), 0);
    t := Next(c, s, e);
    q := t.procs[i];
    assert Leads(c, t, [], t);
  }

  lemma EnqueueIsOneMove(c: Config, s: State, w: Redis, i: nat, p: Proc, work: JobKind, pooled: bool, message: string)
      returns (e: Event, t: State, q: Proc)
    requires At(s, w, i, p) && p.pc.Enqueueing? && !p.kind.CreateSnapshot?
    ensures Leads(c, s, [e], t) && At(t, w, i, q)
    ensures q == p.(since := w.now, fault := q.fault, pc := if pooled then Returned else Dead)
    ensures t.procs == s.procs[i := q] +
      if pooled then [Waiting(p.kind, Job(work, p.vm, Key(p)), w.now)] else []
  {
    e := Move(i, ReplyOf(!pooled, message), 0);
    t := Next(c, s, e);
    q := t.procs[i];
    assert Leads(c, t, [], t);
  }

  /** A request up to its record: the claim and the SET. */
  lemma RecordedIsMoves(c: Config, s: State, w: Redis, i: nat, p: Proc, raises: nat -> bool, nova: Reply, uuid: TaskId,
                        message: string)
      returns (es: seq<Event>, t: State, q: Proc)
    requires i < |s.procs| && s.procs[i] == p && p.pc.Calling? && c.ttl > 0.0
    requires !nova.Raise? && Fits(s, p, nova, uuid) && Agree(s, w, uuid)
    ensures Leads(c, s, es, t) && t.procs == s.procs[i := q]
    ensures var o := Recorded(c.ttl, raises, w, NewRecord(uuid, OperationOf(p.kind), VmOf(p, nova), w.now));
      && At(t, o.redis, i, q)
      && q.pc == (if o.raised then Dead else if p.kind.CreateSnapshot? then Imaging else Enqueueing)
    ensures q.job == p.job && q.kind == p.kind && q.vm == VmOf(p, nova) && q.task == Some(uuid)
  {
    var t1, q1 := ClaimIsOneMove(c, s, w, i, p, nova, uuid);
    var e2, t2, q2 := RecordIsOneMove(c, t1, w, i, q1, raises, message);
    LeadsJoin(c, s, [Move(i, nova, uuid)], t1, [e2], t2);
    return [Move(i, nova, uuid)] + [e2], t2, q2;
  }

  /** What CreateVm, DeleteVm and ResizeVm do to the store and the queue is what their request does in some run. */
  lemma RequestIsARun(c: Config, s: State, w: Redis, i: nat, p: Proc, raises: nat -> bool, nova: Reply, uuid: TaskId,
                      op: Operation, work: JobKind, pooled: bool, message: string)
      returns (es: seq<Event>, t: State, q: Proc)
    requires i < |s.procs| && s.procs[i] == p && p.pc.Calling? && Names(p.kind, op, work) && c.ttl > 0.0
    requires !nova.Raise? && Fits(s, p, nova, uuid) && Agree(s, w, uuid)
    ensures Leads(c, s, es, t)
    ensures var job := Job(work, VmOf(p, nova), uuid);
      var o := Requested(c.ttl, raises, w, [], pooled, op, job);
      && At(t, o.redis, i, q) && q.pc == (if o.ok then Returned else Dead)
      && t.procs == s.procs[i := q] + if o.ok then [Waiting(p.kind, job, w.now)] else []
  {
    var w2 := Recorded(c.ttl, raises, w, NewRecord(uuid, op, VmOf(p, nova), w.now)).redis;
    es, t, q := RecordedIsMoves(c, s, w, i, p, raises, nova, uuid, message);
    assert OperationOf(p.kind) == op;
    if !raises(w.calls) {
      var t2, q2 := t, q;
      var e3, t3, q3 := EnqueueIsOneMove(c, t2, w2, i, q2, work, pooled, message);
      LeadsJoin(c, s, es, t2, [e3], t3);
      es, t, q := es + [e3], t3, q3;
    }
  }

  /** And so for CreateSnapshot, which works and records in the request itself. */
  lemma SnapshotIsARun(c: Config, s: State, w: Redis, i: nat, p: Proc, raises: nat -> bool, nova: Reply, uuid: TaskId,
                       image: Reply, message: string)
      returns (es: seq<Event>, t: State, q: Proc)
    requires i < |s.procs| && s.procs[i] == p && p.pc.Calling? && !p.job && p.kind.CreateSnapshot? && c.ttl > 0.0
    requires nova.Seen? && Fits(s, p, nova, uuid) && Agree(s, w, uuid) && (image.Raise? || image.Answer?)
    ensures Leads(c, s, es, t)
    ensures var o := Snapped(c.ttl, raises, w, p.vm, uuid, image);
      At(t, o.redis, i, q) && q.pc == if o.raised then Dead else Returned
  {
    var w2 := Recorded(c.ttl, raises, w, NewRecord(uuid, CREATE_SNAPSHOT, p.vm, w.now)).redis;
    es, t, q := RecordedIsMoves(c, s, w, i, p, raises, nova, uuid, message);
    if !raises(w.calls) {
      var t2, q2 := t, q;
      var es3, t3, q3 := ImageIsMoves(c, t2, w2, i, q2, raises, image, message);
      LeadsJoin(c, s, es, t2, es3, t3);
      es, t, q := es + es3, t3, q3;
    }
  }

  /** The image call and, when it answers, the SUCCESS update. */
  lemma ImageIsMoves(c: Config, s: State, w: Redis, i: nat, p: Proc, raises: nat -> bool, image: Reply, message: string)
      returns (es: seq<Event>, t: State, q: Proc)
    requires At(s, w, i, p) && p.pc.Imaging? && !p.job && p.kind.CreateSnapshot? && c.ttl > 0.0
    requires image.Raise? || image.Answer?
    ensures Leads(c, s, es, t)
    ensures var o := if image.Raise? then Outcome(w, true)
                     else Updated(c.ttl, raises, w, Key(p), Change(SUCCESS, None, None, Some(image.id)));
      At(t, o.redis, i, q) && q.pc == if o.raised then Dead else Returned
  {
    es := [Move(i, image, 0)];
    t, q := Hear(c, s, w, i, p, image);
    if image.Answer? {
      var es', t', q' := UpdateIsTwoMoves(c, t, w, i, q, raises, message);
      assert Key(q) == Key(p);
      LeadsJoin(c, s, es, t, es', t');
      es, t, q := es + es', t', q';
    }
  }
}
