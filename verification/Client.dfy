/** The client that polls a task, and what its answer says about the server's run. */
module Client {
  import opened Tasks
  import Protocol
  import ProtocolInvariant
  import opened ProtocolTheorems
  import VmMachine
  import VmTheorems

  datatype HttpReply =
    | Failure(message: string)                // transport error, bad status or undecodable body
    | NotFound                                // 404
    | Body(status: string, error: string)

  datatype WaitResult =
    | Nil
    | Timeout
    | RequestError(reply: HttpReply)
    | TaskFailed(message: string)
    | UnknownStatus(status: string)
    | Cancelled

  function LowerChar(c: char): char {
    if 'A' <= c <= 'Z' then c + 'a' - 'A' else c
  }

  function ToLower(s: string): (t: string)
    ensures |t| == |s| && forall i :: 0 <= i < |s| ==> t[i] == LowerChar(s[i])
    ensures forall i :: 0 <= i < |s| ==>
      t[i] as int == s[i] as int + if 65 <= s[i] as int <= 90 then 32 else 0
  {
    if s == "" then "" else ToLower(s[..|s| - 1]) + [LowerChar(s[|s| - 1])]
  }

  /** `s`, lower-cased, is `t`. */
  predicate Spells(s: string, t: string) {
    |s| == |t| && (s == "" || (LowerChar(s[|s| - 1]) == t[|t| - 1] && Spells(s[..|s| - 1], t[..|t| - 1])))
  }

  lemma {:induction false} SpellsLowered(s: string, t: string)
    ensures Spells(s, t) <==> ToLower(s) == t
  {
    if |s| == |t| && s != "" {
      SpellsLowered(s[..|s| - 1], t[..|t| - 1]);
      assert ToLower(s)[..|s| - 1] == ToLower(s[..|s| - 1]);
      assert t == t[..|t| - 1] + [t[|t| - 1]];
    }
  }

  /** What one reply settles; None means the task is still pending or running. */
  function Judge(r: HttpReply): Option<WaitResult> {
    match r
    case Failure(_) => Some(RequestError(r))
    case NotFound => Some(RequestError(r))
    case Body(status, error) =>
      if Spells(status, "success") then Some(Nil)
      else if Spells(status, "failed") then Some(TaskFailed(error))
      else if Spells(status, "pending") || Spells(status, "running") then None
      else Some(UnknownStatus(status))
  }

  /**
   What one waiting client will meet: the n-th reply about a task, the time the n-th request takes, and
   how long into the n-th wait the context is done, if it is.
   */
  datatype Server = Server(
    reply: (TaskId, nat) -> HttpReply,
    latency: nat -> nat,
    cancel: nat -> Option<nat>)

  /** The first `n` replies about the task settle nothing. */
  predicate Unsettled(server: Server, task: TaskId, n: nat) {
    n == 0 || (Unsettled(server, task, n - 1) && Judge(server.reply(task, n - 1)) == None)
  }

  /** The last of `asked` replies about the task is the first that settles something, and it settles `result`. */
  predicate Settles(server: Server, task: TaskId, asked: nat, result: WaitResult) {
    asked > 0 && Unsettled(server, task, asked - 1) && Judge(server.reply(task, asked - 1)) == Some(result)
  }

  /** The first `n` requests take at most `bound` each. */
  predicate Within(latency: nat -> nat, n: nat, bound: nat) {
    n == 0 || (Within(latency, n - 1, bound) && latency(n - 1) <= bound)
  }

  class ApiClient {
    const pollInterval: nat
    const pollTimeout: nat
    var now: int  // nanoseconds

    /** The provider refuses to configure a client without a positive interval and timeout. */
    constructor (pollInterval: nat, pollTimeout: nat, now: int)
      requires pollInterval > 0 && pollTimeout > 0
      ensures this.pollInterval == pollInterval && this.pollTimeout == pollTimeout && this.now == now
    {
      this.pollInterval := pollInterval;
      this.pollTimeout := pollTimeout;
      this.now := now;
    }

    /** The switch over one reply. */
    method Settle(out: HttpReply) returns (result: Option<WaitResult>)
      ensures result == Judge(out)
    {
      if !out.Body? {
        return Some(RequestError(out));
      }
      var status := ToLower(out.status);
      SpellsLowered(out.status, "success");
      SpellsLowered(out.status, "failed");
      SpellsLowered(out.status, "pending");
      SpellsLowered(out.status, "running");
      if status == "success" {
        return Some(Nil);
      } else if status == "failed" {
        return Some(TaskFailed(out.error));
      } else if status == "pending" || status == "running" {
        return None;
      }
      return Some(UnknownStatus(out.status));
    }

    /** The select between the context's end, `done` into the wait if at all, and the poll interval. */
    method Pause(done: Option<nat>) returns (cancelled: bool)
      modifies this`now
      ensures cancelled == (done.Some? && done.value <= pollInterval)
      ensures now == old(now) + if cancelled then done.value else pollInterval
    {
      cancelled := done.Some? && done.value <= pollInterval;
      now := now + if cancelled then done.value else pollInterval;
    }

    /** `bound` is any bound on the latencies. */
    method WaitTask(task: TaskId, server: Server, ghost bound: nat) returns (result: WaitResult, asked: nat)
      requires pollInterval > 0
      modifies this`now
      ensures if result == Timeout || result == Cancelled then Unsettled(server, task, asked)
              else Settles(server, task, asked, result)
      ensures result == Timeout ==> now > old(now) + pollTimeout
      ensures result == Cancelled ==>
        asked > 0 && server.cancel(asked - 1).Some? && server.cancel(asked - 1).value <= pollInterval
      ensures asked <= pollTimeout / pollInterval + 1
      ensures Within(server.latency, asked, bound) ==> now <= old(now) + pollTimeout + bound + pollInterval
    {
      var deadline := now + pollTimeout;
      asked := 0;
      while true
        invariant deadline == old(now) + pollTimeout
        invariant Unsettled(server, task, asked)
        invariant old(now) + Multiple(asked, pollInterval) <= now
        invariant asked > 0 ==> Multiple(asked - 1, pollInterval) <= pollTimeout
        invariant Within(server.latency, asked, bound) ==> now <= old(now) + pollTimeout + bound + pollInterval
        decreases deadline - now
      {
        if now > deadline {
          IntervalsFit(asked, pollInterval, pollTimeout);
          return Timeout, asked;
        }
        var out := server.reply(task, asked);
        now := now + server.latency(asked);
        asked := asked + 1;
        IntervalsFit(asked, pollInterval, pollTimeout);
        var settled := Settle(out);
        if settled.Some? {
          assert Settles(server, task, asked, settled.value);
          return settled.value, asked;
        }
        var cancelled := Pause(server.cancel(asked - 1));
        if cancelled {
          return Cancelled, asked;
        }
      }
    }
  }

  function Multiple(n: nat, x: nat): nat {
    if n == 0 then 0 else x + Multiple(n - 1, x)
  }

  lemma {:induction false} MultipleIsProduct(n: nat, x: nat)
    ensures Multiple(n, x) == n * x
  {
    if n > 0 {
      MultipleIsProduct(n - 1, x);
    }
  }

  /** No multiple of `x` other than 0 lies within `x` of 0. */
  lemma MultiplesAreSpaced(a: int, x: nat)
    ensures a >= 1 ==> a * x >= x
    ensures a <= -1 ==> a * x + x <= 0
  {
  }

  lemma IntervalsFit(n: nat, x: nat, limit: nat)
    requires x > 0 && (n > 0 ==> Multiple(n - 1, x) <= limit)
    ensures n <= limit / x + 1
  {
    if n > 0 {
      MultipleIsProduct(n - 1, x);
      var q := limit / x;
      assert (n - 1 - q) * x == (n - 1) * x - q * x;
      MultiplesAreSpaced(n - 1 - q, x);
    }
  }

  // ------------------------------------------------------------------ against a run of the server

  function StatusText(st: Status): string {
    match st
    case PENDING => "pending"
    case RUNNING => "running"
    case SUCCESS => "success"
    case FAILED => "failed"
  }

  /** What `GET /tasks/k` answers while the task store holds `store`. */
  function ServerReply(store: map<TaskId, Entry>, k: TaskId): HttpReply {
    if k in store then
      var r := store[k].record;
      Body(StatusText(r.status), if r.error.Some? then r.error.value else "")
    else NotFound
  }

  /** Reply n about the task was given in state at(n) of the run, or was lost on the way. */
  ghost predicate FromRun(ss: seq<Protocol.State>, k: TaskId, server: Server, at: nat -> nat, asked: nat) {
    forall n: nat :: n < asked ==>
      at(n) < |ss| && (server.reply(k, n).Failure? || server.reply(k, n) == ServerReply(ss[at(n)].store, k))
  }

  /** A record that reads PENDING or RUNNING settles nothing; a terminal or an absent one settles what it says. */
  lemma JudgedRecord(store: map<TaskId, Entry>, k: TaskId)
    ensures var verdict := Judge(ServerReply(store, k));
      && (verdict == None <==> k in store && store[k].record.status in {PENDING, RUNNING})
      && (verdict == Some(Nil) <==> k in store && store[k].record.status == SUCCESS)
      && (forall e :: verdict == Some(TaskFailed(e)) <==>
            k in store && store[k].record.status == FAILED
            && e == if store[k].record.error.Some? then store[k].record.error.value else "")
      && (verdict == Some(RequestError(NotFound)) <==> k !in store)
  {
    if k in store {
      var text := StatusText(store[k].record.status);
      assert ToLower(text) == text;
      JudgedText(text, if store[k].record.error.Some? then store[k].record.error.value else "");
      assert text[0] == match store[k].record.status
                        case PENDING => 'p' case RUNNING => 'r' case SUCCESS => 's' case FAILED => 'f';
    }
  }

  /** The reply is read without regard to case. */
  lemma JudgedText(status: string, error: string)
    ensures var verdict, text := Judge(Body(status, error)), ToLower(status);
      && (text == "success" <==> verdict == Some(Nil))
      && (text == "failed" <==> verdict == Some(TaskFailed(error)))
      && (text == "pending" || text == "running" <==> verdict == None)
      && (text != "success" && text != "failed" && text != "pending" && text != "running" <==>
            verdict == Some(UnknownStatus(status)))
  {
    SpellsLowered(status, "success");
    SpellsLowered(status, "failed");
    SpellsLowered(status, "pending");
    SpellsLowered(status, "running");
    assert "success"[0] == 's' && "failed"[0] == 'f' && "pending"[0] == 'p' && "running"[0] == 'r';
  }

  predicate Outstanding(store: map<TaskId, Entry>, k: TaskId) {
    k in store && store[k].record.status in {PENDING, RUNNING}
  }

  lemma OutstandingSettlesNothing(store: map<TaskId, Entry>, k: TaskId)
    ensures Outstanding(store, k) <==> Judge(ServerReply(store, k)) == None
  {
    JudgedRecord(store, k);
  }

  /** The client asks on exactly while the states that answer it hold a PENDING or RUNNING record of the task. */
  lemma {:induction false} WaitGoesOn(ss: seq<Protocol.State>, k: TaskId, server: Server, at: nat -> nat, n: nat)
    requires Answers(ss, k, server, at, n)
    ensures Unsettled(server, k, n) <==> forall m: nat :: m < n ==> at(m) < |ss| && Outstanding(ss[at(m)].store, k)
  {
    if n > 0 {
      assert at(n - 1) < |ss| && server.reply(k, n - 1) == ServerReply(ss[at(n - 1)].store, k);
      WaitGoesOn(ss, k, server, at, n - 1);
      OutstandingSettlesNothing(ss[at(n - 1)].store, k);
    }
  }

  /** Reply m about the task was given in state at(m), and arrived. */
  ghost predicate Answers(ss: seq<Protocol.State>, k: TaskId, server: Server, at: nat -> nat, n: nat) {
    n == 0 || (Answers(ss, k, server, at, n - 1) && at(n - 1) < |ss|
               && server.reply(k, n - 1) == ServerReply(ss[at(n - 1)].store, k))
  }

  /**
   A wait that returned nil saw SUCCESS in some state of the run; what Nova had to answer for it had
   been answered by then, and no later state holds another status.
   */
  lemma WaitIsSound(c: Protocol.Config, ss: seq<Protocol.State>, es: seq<Protocol.Event>, k: TaskId,
                    server: Server, at: nat -> nat, asked: nat)
    requires Protocol.IsRun(c, ss, es) && FromRun(ss, k, server, at, asked) && Settles(server, k, asked, Nil)
    ensures at(asked - 1) < |ss|
    ensures var i := at(asked - 1);
      && k in ss[i].store && ss[i].store[k].record.status.SUCCESS?
      && (exists a: nat :: BackedBy(ss[i], k, a))
      && forall j :: i <= j < |ss| && k in ss[j].store ==> ss[j].store[k].record == ss[i].store[k].record
  {
    var i := at(asked - 1);
    JudgedRecord(ss[i].store, k);
    SuccessIsBacked(c, ss, es, i, k);
    forall j | i <= j < |ss| && k in ss[j].store ensures ss[j].store[k].record == ss[i].store[k].record {
      TerminalIsFinal(c, ss, es, i, j, k);
    }
  }

  /** In state `i`, request `a` had been accepted under task id `k`: what it asks for, and of which VM. */
  predicate Accepted(s: Protocol.State, a: nat, kind: Protocol.Kind, vm: VmId, k: TaskId) {
    a < |s.procs| && !s.procs[a].job && s.procs[a].task == Some(k) && s.procs[a].kind == kind && s.procs[a].vm == vm
  }

  /** Some process with task id `k` got from Nova what this kind of work on this VM calls for. */
  ghost predicate Performed(s: Protocol.State, kind: Protocol.Kind, vm: VmId, k: TaskId) {
    exists j: nat :: j < |s.procs| && s.procs[j].task == Some(k) && Backed(kind, vm, s.procs[j].acks)
  }

  /** A nil wait for the task of a request means that very work was done, on that very VM. */
  lemma NilMeansPerformed(c: Protocol.Config, ss: seq<Protocol.State>, es: seq<Protocol.Event>, k: TaskId,
                          server: Server, at: nat -> nat, asked: nat, i: nat, a: nat, kind: Protocol.Kind, vm: VmId)
    requires Protocol.IsRun(c, ss, es) && FromRun(ss, k, server, at, asked) && Settles(server, k, asked, Nil)
    requires i <= at(asked - 1) < |ss| && Accepted(ss[i], a, kind, vm, k)
    ensures Performed(ss[at(asked - 1)], kind, vm, k)
  {
    var m := at(asked - 1);
    WaitIsSound(c, ss, es, k, server, at, asked);
    var j: nat :| BackedBy(ss[m], k, j);
    RunLater(c, ss, es, i, m);
    assert ProcLater(ss[i].procs[a], ss[m].procs[a]);
    ProtocolInvariant.RunInv(c, ss, es, m);
    assert ProtocolInvariant.ProcLinked(ss[m], a);
  }

  /** Reply n about the task was given in state at(n) of a run of the in-memory service, or was lost. */
  ghost predicate FromMemoryRun(ss: seq<VmMachine.State>, k: TaskId, server: Server, at: nat -> nat, asked: nat) {
    forall n: nat :: n < asked ==>
      at(n) < |ss| && (server.reply(k, n).Failure? || server.reply(k, n) == ServerReply(ss[at(n)].store, k))
  }

  /**
   Against the in-memory service: after a nil wait for the deletion of a VM, no state from the one that
   gave the last reply on has that VM readable or listed.
   */
  lemma NilMeansGone(c: VmMachine.Config, ss: seq<VmMachine.State>, es: seq<VmMachine.Event>, k: TaskId, v: VmId,
                     server: Server, at: nat -> nat, asked: nat, j: nat)
    requires VmMachine.IsRun(c, ss, es) && FromMemoryRun(ss, k, server, at, asked) && Settles(server, k, asked, Nil)
    requires at(asked - 1) <= j < |ss|
    requires var s := ss[at(asked - 1)]; k < |s.threads| && s.threads[k].kind.Deletion? && s.threads[k].vm == v
    ensures VmMachine.WellTyped(ss[j]) && !VmMachine.Readable(ss[j], v) && v !in VmMachine.Listed(ss[j])
  {
    var i := at(asked - 1);
    JudgedRecord(ss[i].store, k);
    VmTheorems.RunInv(c, ss, es, i);
    VmTheorems.RemovalIsPermanent(c, ss, es, i, j, k, v);
  }
}
