/** What the provisioning poll must conclude from the answers it received. */
module Polling {
  import opened Tasks

  const POLL_TIMEOUT_SECONDS := 300
  const POLL_INTERVAL_SECONDS := 5
  const RESIZE_CONFIRM_DELAY_SECONDS := 5.0

  /** How one call into Nova ended. */
  datatype Reply =
    | Raise(message: string)
    | Done
    | Seen(status: VmState)
    | Answer(id: nat)

  predicate Decisive(r: Reply) {
    r == Seen(ACTIVE) || r == Seen(ERROR)
  }

  /** The seconds slept in `n` rounds. */
  function Slept(n: nat): nat {
    if n == 0 then 0 else Slept(n - 1) + POLL_INTERVAL_SECONDS
  }

  /** The number of rounds a poll may make. */
  function Rounds(timeout: int): nat
    decreases timeout
  {
    if timeout <= 0 then 0 else 1 + Rounds(timeout - POLL_INTERVAL_SECONDS)
  }

  /** It is the timeout over the interval, rounded up. */
  lemma {:induction false} RoundsIsCeiling(timeout: int)
    requires timeout > 0
    ensures Rounds(timeout) == (timeout + POLL_INTERVAL_SECONDS - 1) / POLL_INTERVAL_SECONDS
    decreases timeout
  {
    if timeout > POLL_INTERVAL_SECONDS {
      RoundsIsCeiling(timeout - POLL_INTERVAL_SECONDS);
    }
  }

  /** The loop guard, in rounds. */
  lemma {:induction false} GuardInRounds(timeout: int, n: nat)
    ensures Slept(n) < timeout <==> n < Rounds(timeout)
    decreases n
  {
    if n > 0 && timeout > 0 {
      GuardInRounds(timeout - POLL_INTERVAL_SECONDS, n - 1);
    }
  }

  function Conclusion(r: Reply): Change
    requires Decisive(r)
  {
    if r == Seen(ACTIVE) then SUCCEEDED else Failed("VM entered ERROR state.")
  }

  const TIMED_OUT := Failed("Timeout waiting for VM to become ACTIVE.")

  predicate AllUndecided(obs: seq<Reply>) {
    forall i :: 0 <= i < |obs| ==> !Decisive(obs[i])
  }

  /** `u` is the right verdict of a poll that consumed exactly the answers `obs`. */
  predicate IsVerdict(timeout: int, obs: seq<Reply>, u: Change) {
    && |obs| <= Rounds(timeout)
    && if AllUndecided(obs) then |obs| == Rounds(timeout) && u == TIMED_OUT
       else
         && AllUndecided(obs[..|obs| - 1])
         && Decisive(obs[|obs| - 1])
         && u == Conclusion(obs[|obs| - 1])
  }

  /** Answer `i` of the stream is its first decisive one. */
  ghost predicate FirstDecisive(stream: nat -> Reply, i: nat) {
    Decisive(stream(i)) && forall j: nat :: j < i ==> !Decisive(stream(j))
  }

  /** The verdict read off an endless stream of answers: the first decisive one of the first `Rounds`. */
  ghost predicate IsStreamVerdict(timeout: int, stream: nat -> Reply, u: Change) {
    && (forall i: nat :: i < Rounds(timeout) && FirstDecisive(stream, i) ==> u == Conclusion(stream(i)))
    && ((forall i: nat :: i < Rounds(timeout) ==> !Decisive(stream(i))) ==> u == TIMED_OUT)
  }

  /** The first `n` answers of a stream. */
  function Prefix(stream: nat -> Reply, n: nat): (obs: seq<Reply>)
    ensures |obs| == n && forall i: nat :: i < n ==> obs[i] == stream(i)
  {
    if n == 0 then [] else Prefix(stream, n - 1) + [stream(n - 1)]
  }

  /** The first `n` answers leave the poll undecided. */
  predicate Undecided(stream: nat -> Reply, n: nat) {
    n == 0 || (Undecided(stream, n - 1) && !Decisive(stream(n - 1)))
  }

  /** A poll fed by `stream` stops after exactly `n` answers, with verdict `u`. */
  predicate StopsWith(timeout: int, stream: nat -> Reply, n: nat, u: Change) {
    && n <= Rounds(timeout)
    && if Undecided(stream, n) then n == Rounds(timeout) && u == TIMED_OUT
       else Undecided(stream, n - 1) && Decisive(stream(n - 1)) && u == Conclusion(stream(n - 1))
  }

  lemma {:induction false} UndecidedMeans(stream: nat -> Reply, n: nat)
    ensures Undecided(stream, n) <==> forall i: nat :: i < n ==> !Decisive(stream(i))
  {
    if n > 0 {
      UndecidedMeans(stream, n - 1);
    }
  }

  /** Where the loop stops, the verdict is that of the whole stream. */
  lemma StopIsStreamVerdict(timeout: int, stream: nat -> Reply, n: nat, u: Change)
    requires StopsWith(timeout, stream, n, u)
    ensures IsStreamVerdict(timeout, stream, u)
  {
    UndecidedMeans(stream, n);
    if n > 0 {
      UndecidedMeans(stream, n - 1);
    }
    forall i: nat | i < Rounds(timeout) && FirstDecisive(stream, i) ensures u == Conclusion(stream(i)) {
      assert i < n;
    }
  }

  lemma UndecidedPrefix(stream: nat -> Reply, m: nat, n: nat)
    requires m <= n
    ensures Undecided(stream, m) <==> AllUndecided(Prefix(stream, n)[..m])
  {
    UndecidedMeans(stream, m);
    var first := Prefix(stream, n)[..m];
    assert forall i: nat :: i < m ==> first[i] == stream(i);
  }

  /** Both forms of the specification say the same: by the stream, and by the answers consumed. */
  lemma StopIsVerdict(timeout: int, stream: nat -> Reply, n: nat, u: Change)
    ensures StopsWith(timeout, stream, n, u) <==> IsVerdict(timeout, Prefix(stream, n), u)
  {
    UndecidedPrefix(stream, n, n);
    assert Prefix(stream, n)[..n] == Prefix(stream, n);
    if n > 0 {
      UndecidedPrefix(stream, n - 1, n);
    }
  }

  /** Two polls that see the same stream reach the same verdict, after the same number of answers. */
  lemma StopIsUnique(timeout: int, stream: nat -> Reply, n: nat, u: Change, n': nat, u': Change)
    requires StopsWith(timeout, stream, n, u) && StopsWith(timeout, stream, n', u')
    ensures n == n' && u == u'
  {
    UndecidedMeans(stream, n);
    UndecidedMeans(stream, n');
    if !Undecided(stream, n) {
      UndecidedMeans(stream, n - 1);
    }
    if !Undecided(stream, n') {
      UndecidedMeans(stream, n' - 1);
    }
  }

  // ------------------------------------------------------------------ in plain values

  /** Neither ACTIVE nor ERROR among the first `n` answers. */
  ghost predicate StillBuilding(stream: nat -> Reply, n: nat) {
    forall i: nat :: i < n ==> stream(i) != Seen(ACTIVE) && stream(i) != Seen(ERROR)
  }

  /** ACTIVE makes it a success, ERROR a failure; exceptions, other statuses and too late answers count for nothing. */
  lemma PollAnswers(timeout: int, stream: nat -> Reply, n: nat, u: Change)
    requires StopsWith(timeout, stream, n, u)
    ensures u.status == SUCCESS <==>
      exists i: nat :: i < (timeout + 4) / 5 && stream(i) == Seen(ACTIVE) && StillBuilding(stream, i)
    ensures u.status == FAILED && u.error == Some("VM entered ERROR state.") <==>
      exists i: nat :: i < (timeout + 4) / 5 && stream(i) == Seen(ERROR) && StillBuilding(stream, i)
    ensures u.status == FAILED && u.error == Some("Timeout waiting for VM to become ACTIVE.") <==>
      forall i: nat :: i < (timeout + 4) / 5 ==> stream(i) != Seen(ACTIVE) && stream(i) != Seen(ERROR)
    ensures u.status == SUCCESS ==> u.error == None
    ensures u.resourceId == None && u.result == None
  {
    RoundsInNumbers(timeout);
    UndecidedMeans(stream, n);
    if Undecided(stream, n) {
      assert StillBuilding(stream, n);
    } else {
      UndecidedMeans(stream, n - 1);
      assert StillBuilding(stream, n - 1);
      assert stream(n - 1) == Seen(ACTIVE) || stream(n - 1) == Seen(ERROR);
      assert forall i: nat :: i > n - 1 ==> !StillBuilding(stream, i);
    }
    assert TIMED_OUT.error.value[0] == 'T';
  }

  /** The same of a poll that received exactly the answers `obs`. */
  lemma PollConsumed(timeout: int, obs: seq<Reply>, u: Change)
    requires IsVerdict(timeout, obs, u)
    ensures forall i :: 0 <= i < |obs| - 1 ==> obs[i] != Seen(ACTIVE) && obs[i] != Seen(ERROR)
    ensures u.status == SUCCESS <==> obs != [] && obs[|obs| - 1] == Seen(ACTIVE)
    ensures u.status == FAILED && u.error == Some("VM entered ERROR state.") <==>
      obs != [] && obs[|obs| - 1] == Seen(ERROR)
    ensures u.status == FAILED && u.error == Some("Timeout waiting for VM to become ACTIVE.") <==>
      forall i :: 0 <= i < |obs| ==> obs[i] != Seen(ACTIVE) && obs[i] != Seen(ERROR)
    ensures |obs| <= (if timeout <= 0 then 0 else (timeout + 4) / 5)
    ensures u.error == Some("Timeout waiting for VM to become ACTIVE.") ==>
      |obs| == if timeout <= 0 then 0 else (timeout + 4) / 5
  {
    RoundsInNumbers(timeout);
    assert TIMED_OUT.error.value[0] == 'T';
    if !AllUndecided(obs) {
      var first := obs[..|obs| - 1];
      assert forall i :: 0 <= i < |first| ==> first[i] == obs[i] && !Decisive(first[i]);
    }
  }

  /** The interval is 5 s: the default timeout of 300 s allows 60 rounds. */
  lemma {:induction false} RoundsInNumbers(timeout: int)
    ensures Rounds(timeout) == if timeout <= 0 then 0 else (timeout + 4) / 5
    ensures Rounds(300) == 60 && Slept(1) == 5
    decreases timeout
  {
    if timeout > 5 {
      RoundsInNumbers(timeout - 5);
    } else {
      RoundsIsCeiling(300);
    }
  }
}
