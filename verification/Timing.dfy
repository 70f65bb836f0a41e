/** How long a job may take, and how long a record must live for the verdict to be stored. */
module Timing {
  import opened Tasks
  import opened Polling
  import opened Protocol
  import opened ProtocolInvariant

  /** Upper bounds on one Nova call and on one Redis call. */
  datatype Limits = Limits(nova: Time, redis: Time)

  function LimitOf(lim: Limits, pc: Pc): Time {
    match pc
    case Sleeping(_) => POLL_INTERVAL_SECONDS as real
    case Pausing => RESIZE_CONFIRM_DELAY_SECONDS
    case Asking(_) | Deleting | Resizing | Confirming => lim.nova
    case _ => lim.redis
  }

  /** Every job that runs is within the bound of the call it awaits: sleeps are exact, calls are bounded. */
  predicate OnTime(lim: Limits, s: State) {
    forall i :: 0 <= i < |s.procs| ==> ProcOnTime(lim, s.now, s.procs[i])
  }

  predicate ProcOnTime(lim: Limits, now: Time, p: Proc) {
    p.job && p.pc.Live() && !p.pc.Queued? ==> now <= p.since + LimitOf(lim, p.pc)
  }

  function Times(n: nat, x: Time): Time {
    if n == 0 then 0.0 else x + Times(n - 1, x)
  }

  lemma {:induction false} TimesIsProduct(n: nat, x: Time)
    ensures Times(n, x) == n as real * x
  {
    if n > 0 {
      TimesIsProduct(n - 1, x);
    }
  }

  lemma {:induction false} TimesPositive(n: nat, x: Time)
    requires x >= 0.0
    ensures Times(n, x) >= 0.0
  {
    if n > 0 {
      TimesPositive(n - 1, x);
    }
  }

  /** The longest a job can take from its RUNNING write to the write of its verdict. */
  function Longest(c: Config, lim: Limits, kind: Kind): Time {
    match kind
    case CreateVM => Times(Rounds(c.timeout), POLL_INTERVAL_SECONDS as real + lim.nova) + 2.0 * lim.redis
    case DeleteVM => lim.nova + 4.0 * lim.redis
    case ResizeVM(_) => RESIZE_CONFIRM_DELAY_SECONDS + 2.0 * lim.nova + 4.0 * lim.redis
    case CreateSnapshot => 0.0
  }

  /** An update inside do_delete's or do_resize's try: when it raises, a second update follows. */
  predicate InTry(p: Proc, u: Change) {
    p.job && !p.kind.CreateVM? && u.status.SUCCESS?
  }

  /** The longest the job can still take, counted from its entry into `pc`. */
  function Budget(c: Config, lim: Limits, p: Proc): Time {
    var round := POLL_INTERVAL_SECONDS as real + lim.nova;
    var left := if |p.acks| <= Rounds(c.timeout) then Rounds(c.timeout) - |p.acks| else 0;
    match p.pc
    case Sleeping(_) => Times(left, round) + 2.0 * lim.redis
    case Asking(_) => Times(left, round) - POLL_INTERVAL_SECONDS as real + 2.0 * lim.redis
    case Getting(u) => if InTry(p, u) then 4.0 * lim.redis else 2.0 * lim.redis
    case Setting(u, _) => if InTry(p, u) then 3.0 * lim.redis else lim.redis
    case Deleting | Confirming => lim.nova + 4.0 * lim.redis
    case Resizing => RESIZE_CONFIRM_DELAY_SECONDS + 2.0 * lim.nova + 4.0 * lim.redis
    case Pausing => RESIZE_CONFIRM_DELAY_SECONDS + lim.nova + 4.0 * lim.redis
    case _ => 0.0
  }

  /** A job that has stored RUNNING keeps within its budget, misses nothing, and stores its verdict in time. */
  ghost predicate Timely(c: Config, lim: Limits, x: Holding) {
    var p, h := x.owner, x.history;
    p.job && |h| >= 2 && c.ttl > Longest(c, lim, p.kind) ==>
      && !p.missed
      && (p.pc.Live() ==> p.since + Budget(c, lim, p) <= h[1].at + Longest(c, lim, p.kind))
      && (|h| == 3 ==> h[2].at <= h[1].at + Longest(c, lim, p.kind))
  }

  /** A key is there until its time to live has passed since the last write. */
  ghost predicate Present(c: Config, now: Time, x: Holding) {
    x.history != [] && now < x.history[|x.history| - 1].at + c.ttl ==> x.found.Some?
  }

  lemma MovedTimely(c: Config, lim: Limits, now: Time, k: TaskId, x: Holding, s: State, r: Reply, uuid: TaskId)
    requires lim.nova >= 0.0 && lim.redis >= 0.0
    requires Progress(c, x.owner) && Fits(s, x.owner, r, uuid) && x.owner.job
    requires Consistent(c, now, k, x) && ProcOnTime(lim, now, x.owner) && x.owner.since <= now
    requires Timely(c, lim, x) && Present(c, now, x)
    ensures Timely(c, lim, HoldingAfter(c, now, x, r, uuid))
  {
    if |x.history| >= 2 && c.ttl > Longest(c, lim, x.owner.kind) {
      MoveWithinBudget(c, lim, now, x.found, x.owner, s, r, uuid);
    }
  }

  /** Past its RUNNING write, a job that moves on time keeps to its budget. */
  lemma MoveWithinBudget(c: Config, lim: Limits, now: Time, found: Option<Record>, p: Proc, s: State, r: Reply,
                         uuid: TaskId)
    requires lim.nova >= 0.0 && lim.redis >= 0.0
    requires Progress(c, p) && Fits(s, p, r, uuid) && ProcOnTime(lim, now, p) && p.job && !p.pc.Queued?
    requires p.pc.Getting? || p.pc.Setting? ==> p.pc.change.status.Terminal()
    ensures var q := Moved(c, now, found, p, r, uuid);
      && (q.pc.Live() ==> q.since + Budget(c, lim, q) <= p.since + Budget(c, lim, p))
      && (p.pc.Setting? ==> now <= p.since + Budget(c, lim, p))
  {
    match p.pc
    case Asking(_) => AnswerLeavesTime(c, lim, now, found, p, s, r, uuid);
    case _ =>
  }

  /** A round of the poll uses up its share of the budget and no more. */
  lemma AnswerLeavesTime(c: Config, lim: Limits, now: Time, found: Option<Record>, p: Proc, s: State, r: Reply,
                         uuid: TaskId)
    requires lim.nova >= 0.0 && lim.redis >= 0.0
    requires p.pc.Asking? && Progress(c, p) && Fits(s, p, r, uuid) && ProcOnTime(lim, now, p)
    ensures var q := Moved(c, now, found, p, r, uuid);
      q.since + Budget(c, lim, q) <= p.since + Budget(c, lim, p)
  {
    var q := Moved(c, now, found, p, r, uuid);
    var round := POLL_INTERVAL_SECONDS as real + lim.nova;
    GuardInRounds(c.timeout, |p.acks|);
    var left := Rounds(c.timeout) - |p.acks|;
    assert Times(left, round) == round + Times(left - 1, round);
    TimesPositive(left - 1, round);
    assert |q.acks| == |p.acks| + 1;
  }

  ghost predicate Timed(c: Config, lim: Limits, s: State) {
    forall k :: k in s.maker && k in s.hist && KeyLinked(s, k) ==>
      Timely(c, lim, Hold(s, k)) && Present(c, s.now, Hold(s, k))
  }

  lemma NextTimed(c: Config, lim: Limits, s: State, e: Event)
    requires lim.nova >= 0.0 && lim.redis >= 0.0
    requires Inv(c, s) && Timed(c, lim, s) && OnTime(lim, s) && Enabled(s, e)
    ensures Timed(c, lim, Next(c, s, e))
  {
    var t := Next(c, s, e);
    StructureNext(c, s, e);
    forall k | k in t.maker && k in t.hist && KeyLinked(t, k)
      ensures Timely(c, lim, Hold(t, k)) && Present(c, t.now, Hold(t, k))
    {
      if k in s.maker {
        assert KeyConsistent(c, s, k);
        if e.Move? {
          MoveTimed(c, lim, s, e, k);
        } else {
          OtherTimed(c, lim, s, e, k);
        }
      } else {
        ClaimTimed(c, lim, s, e, k);
      }
    }
  }

  lemma ClaimTimed(c: Config, lim: Limits, s: State, e: Event, k: TaskId)
    requires Structure(s) && Enabled(s, e) && k !in s.maker
    requires k in Next(c, s, e).maker && k in Next(c, s, e).hist && KeyLinked(Next(c, s, e), k)
    ensures var t := Next(c, s, e); Timely(c, lim, Hold(t, k)) && Present(c, t.now, Hold(t, k))
  {
  }

  lemma OtherTimed(c: Config, lim: Limits, s: State, e: Event, k: TaskId)
    requires !e.Move? && Enabled(s, e) && KeyConsistent(c, s, k) && Deadlines(c, s)
    requires Timely(c, lim, Hold(s, k)) && Present(c, s.now, Hold(s, k))
    requires k in Next(c, s, e).maker && k in Next(c, s, e).hist && KeyLinked(Next(c, s, e), k)
    ensures var t := Next(c, s, e); Timely(c, lim, Hold(t, k)) && Present(c, t.now, Hold(t, k))
  {
  }

  lemma MoveTimed(c: Config, lim: Limits, s: State, e: Event, k: TaskId)
    requires lim.nova >= 0.0 && lim.redis >= 0.0
    requires Structure(s) && AllProgress(c, s) && OnTime(lim, s) && e.Move? && Enabled(s, e) && KeyConsistent(c, s, k)
    requires Timely(c, lim, Hold(s, k)) && Present(c, s.now, Hold(s, k))
    ensures var t := Next(c, s, e);
      && k in t.maker && k in t.hist && KeyLinked(t, k)
      && Timely(c, lim, Hold(t, k)) && Present(c, t.now, Hold(t, k))
  {
    MoveHolds(c, s, e, k);
    var p := s.procs[e.i];
    if p.task == Some(k) {
      assert ProcLinked(s, e.i) && Progress(c, p) && ProcOnTime(lim, s.now, p);
      OwnerMoves(s, e.i);
      OwnerTimed(c, lim, s, e, k, Hold(s, k));
    }
  }

  lemma OwnerTimed(c: Config, lim: Limits, s: State, e: Event, k: TaskId, x: Holding)
    requires lim.nova >= 0.0 && lim.redis >= 0.0
    requires e.Move? && Enabled(s, e) && s.procs[e.i] == x.owner && Progress(c, x.owner) && !x.owner.pc.Calling?
    requires Consistent(c, s.now, k, x) && ProcOnTime(lim, s.now, x.owner) && x.owner.since <= s.now
    requires Timely(c, lim, x) && Present(c, s.now, x)
    ensures
      if EffectOf(x.owner, e.reply, e.uuid).Spawn? then
        var y := x.(owner := NewJob(x.owner.(pc := Returned), s.now)); Timely(c, lim, y) && Present(c, s.now, y)
      else
        var y := HoldingAfter(c, s.now, x, e.reply, e.uuid); Timely(c, lim, y) && Present(c, s.now, y)
  {
    if x.owner.job {
      MovedTimely(c, lim, s.now, k, x, s, e.reply, e.uuid);
    }
  }

  lemma {:induction false} RunTimed(c: Config, lim: Limits, ss: seq<State>, es: seq<Event>, i: nat)
    requires lim.nova >= 0.0 && lim.redis >= 0.0
    requires IsRun(c, ss, es) && i < |ss| && forall n :: 0 <= n < |ss| ==> OnTime(lim, ss[n])
    ensures Timed(c, lim, ss[i])
  {
    if i > 0 {
      RunTimed(c, lim, ss, es, i - 1);
      RunInv(c, ss, es, i - 1);
      assert StepAt(c, ss, es, i - 1);
      NextTimed(c, lim, ss[i - 1], es[i - 1]);
    }
  }

  /** From its RUNNING write on, the record stays until the verdict is due, and a job that returned stored it. */
  predicate VerdictInTime(c: Config, lim: Limits, now: Time, x: Holding) {
    var p, h := x.owner, x.history;
    var longest := Longest(c, lim, p.kind);
    |h| >= 2 ==>
      && !p.missed
      && (p.pc.Live() ==> now <= h[1].at + longest && x.found.Some?)
      && (p.pc.Finished? ==> |h| == 3)
      && (|h| == 3 ==> h[2].record.status.Terminal() && h[2].at <= h[1].at + longest)
      && (|h| == 3 && now < h[2].at + c.ttl ==> x.found == Some(h[2].record))
  }

  /** When every call keeps its bound and records outlive the longest job, no verdict is lost to expiry. */
  lemma TtlSuffices(c: Config, lim: Limits, ss: seq<State>, es: seq<Event>, i: nat, a: nat)
    requires lim.nova >= 0.0 && lim.redis >= 0.0
    requires IsRun(c, ss, es) && forall n :: 0 <= n < |ss| ==> OnTime(lim, ss[n])
    requires i < |ss| && a < |ss[i].procs| && ss[i].procs[a].job
    requires c.ttl > Longest(c, lim, ss[i].procs[a].kind)
    ensures var s := ss[i]; var k := Key(s.procs[a]);
      && s.procs[a].task == Some(k) && k in s.hist
      && VerdictInTime(c, lim, s.now, Holding(s.procs[a], s.hist[k], Found(s, k)))
  {
    var s, p, k := ss[i], ss[i].procs[a], Key(ss[i].procs[a]);
    RunInv(c, ss, es, i);
    RunTimed(c, lim, ss, es, i);
    assert ProcLinked(s, a) && KeyConsistent(c, s, k) && ProcOnTime(lim, s.now, p);
    assert Hold(s, k).owner == p && Progress(c, p);
    VerdictIsInTime(c, lim, s.now, k, Hold(s, k));
  }

  lemma VerdictIsInTime(c: Config, lim: Limits, now: Time, k: TaskId, x: Holding)
    requires lim.nova >= 0.0 && lim.redis >= 0.0
    requires Consistent(c, now, k, x) && Progress(c, x.owner) && x.owner.job
    requires Timely(c, lim, x) && Present(c, now, x) && ProcOnTime(lim, now, x.owner)
    requires c.ttl > Longest(c, lim, x.owner.kind)
    ensures VerdictInTime(c, lim, now, x)
  {
    var p := x.owner;
    var round := POLL_INTERVAL_SECONDS as real + lim.nova;
    if |x.history| == 3 {
      assert LegalSuccessor(p.kind, 2, x.history[1], x.history[2]);
    }
    if p.pc.Sleeping? || p.pc.Asking? {
      GuardInRounds(c.timeout, |p.acks|);
      var left := Rounds(c.timeout) - |p.acks|;
      assert Times(left, round) == round + Times(left - 1, round);
      TimesPositive(left - 1, round);
    }
  }

  /** The service's own constants leave room for Nova calls of up to 1400 s. */
  lemma DefaultTtlSuffices(lim: Limits, kind: Kind)
    requires 0.0 <= lim.nova <= 1400.0 && 0.0 <= lim.redis <= 10.0
    ensures Longest(Config(86400.0, POLL_TIMEOUT_SECONDS), lim, kind) < 86400.0
  {
    TimesIsProduct(Rounds(POLL_TIMEOUT_SECONDS), POLL_INTERVAL_SECONDS as real + lim.nova);
    RoundsIsCeiling(POLL_TIMEOUT_SECONDS);
    assert Rounds(POLL_TIMEOUT_SECONDS) == 60;
  }

  /** The longest times, in numbers. */
  lemma LongestInNumbers(c: Config, lim: Limits, flavor: nat)
    requires c.timeout > 0
    ensures Longest(c, lim, CreateVM) == ((c.timeout + 4) / 5) as real * (5.0 + lim.nova) + 2.0 * lim.redis
    ensures Longest(c, lim, DeleteVM) == lim.nova + 4.0 * lim.redis
    ensures Longest(c, lim, ResizeVM(flavor)) == 5.0 + 2.0 * lim.nova + 4.0 * lim.redis
  {
    RoundsInNumbers(c.timeout);
    TimesIsProduct(Rounds(c.timeout), 5.0 + lim.nova);
  }

  /** A poll asks again, and a resize is confirmed, no earlier than 5 s after the process last moved. */
  lemma SleepsLast(s: State, i: nat, r: Reply, uuid: TaskId)
    requires Enabled(s, Move(i, r, uuid)) && (s.procs[i].pc.Sleeping? || s.procs[i].pc.Pausing?)
    ensures s.now >= s.procs[i].since + 5.0
  {
  }
}
