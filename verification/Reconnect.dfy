/** The client's connection loop (startConnectionWithServer, isRetriable, connectClient in
    internal/app/client/recorder/connection.go, onTunnelStart in service.go). */
module Reconnect {
  import opened Prelude

  /** gRPC status codes that matter here; NotStatus is an error without a status. */
  datatype Code = Unavailable | Internal | DeadlineExceeded | FailedPrecondition | Aborted | Canceled | Unknown | NotStatus

  datatype Status = CONNECTING | RECONNECTING | CONNECTED | DISCONNECTED

  /** One pass through the loop body as the network decides it: the connection, the stream or
      the first message fails; or the session arrives (with or without a bearer) and the
      receive loop ends later with an error. Every outcome carries an error. */
  datatype Outcome =
    | Failed(code: Code)
    | Established(bearer: bool, code: Code)

  predicate IsRecoverable(code: Code) {
    code == Unavailable || code == Internal
  }

  /** isRetriable: whether to go round again. */
  predicate IsRetriable(code: Code, hasSession: bool, aborted: bool) {
    code != NotStatus && IsRecoverable(code) && hasSession && !aborted
  }

  /** A network that decides every pass, of which the first `limit` may establish a connection. */
  ghost predicate Quiet(env: nat -> Outcome, limit: nat) {
    forall i: nat :: i >= limit ==> env(i).Failed?
  }

  // ----- what the loop does, pass by pass

  /** The loop variable at the top of pass n. */
  function Attempt(env: nat -> Outcome, n: nat): (a: int)
    ensures if n == 0 then a == -1 else a >= 0
  {
    if n == 0 then -1 else if env(n - 1).Established? then 0 else Attempt(env, n - 1) + 1
  }

  /** HasSession at the top of pass n: the last session received had a bearer. */
  function HasSession(env: nat -> Outcome, n: nat): bool {
    if n == 0 then false else if env(n - 1).Established? then env(n - 1).bearer else HasSession(env, n - 1)
  }

  /** Pass n goes on to connect. */
  predicate Proceeds(env: nat -> Outcome, max: int, n: nat) {
    n == 0 || IsRetriable(env(n - 1).code, HasSession(env, n), Attempt(env, n) >= max)
  }

  /** The statuses published by passes 0 .. n-1 when all of them connect. */
  function Published(env: nat -> Outcome, n: nat): seq<Status> {
    if n == 0 then []
    else Published(env, n - 1) + [if n == 1 then CONNECTING else RECONNECTING]
         + if env(n - 1).Established? then [CONNECTED] else []
  }

  /** How many connections are still to be established before `limit`. */
  function ToCome(env: nat -> Outcome, n: nat, limit: nat): nat
    decreases limit - n
  {
    if n >= limit then 0 else (if env(n).Established? then 1 else 0) + ToCome(env, n + 1, limit)
  }

  lemma {:induction false} NoneToCome(env: nat -> Outcome, n: nat, limit: nat)
    requires env(n).Established? && Quiet(env, limit)
    ensures ToCome(env, n, limit) == 1 + ToCome(env, n + 1, limit)
  {
    assert n < limit;
  }

  lemma FailureKeepsToCome(env: nat -> Outcome, n: nat, limit: nat)
    requires env(n).Failed?
    ensures ToCome(env, n + 1, limit) == ToCome(env, n, limit)
  {
  }

  // ----- the shape of the published statuses

  /** A reader of the statuses: nothing yet, first connection pending, connected, k
      reconnections tried in this outage, disconnected for good, or not a legal sequence. */
  datatype Phase = Start | First | Up | Trying(k: nat) | Over | Illegal

  function Next(phase: Phase, status: Status, max: int): Phase {
    match (phase, status)
    case (Start, CONNECTING) => First
    case (First, CONNECTED) => Up
    case (First, DISCONNECTED) => Over
    case (Up, RECONNECTING) => if 1 <= max then Trying(1) else Illegal
    case (Up, DISCONNECTED) => Over
    case (Trying(k), RECONNECTING) => if k + 1 <= max then Trying(k + 1) else Illegal
    case (Trying(_), CONNECTED) => Up
    case (Trying(_), DISCONNECTED) => Over
    case _ => Illegal
  }

  /** CONNECTING, then DISCONNECTED, or CONNECTED followed by outages of at most max
      RECONNECTING each, the last one ending in DISCONNECTED, is read as Over. */
  function Read(statuses: seq<Status>, max: int): Phase {
    if statuses == [] then Start else Next(Read(statuses[..|statuses| - 1], max), statuses[|statuses| - 1], max)
  }

  lemma ReadOne(statuses: seq<Status>, status: Status, max: int)
    ensures Read(statuses + [status], max) == Next(Read(statuses, max), status, max)
  {
    assert (statuses + [status])[..|statuses|] == statuses;
  }

  /** How one more pass moves the reader. */
  lemma ReadPass(env: nat -> Outcome, max: int, n: nat)
    requires n >= 1
    ensures var pass := Next(Read(Published(env, n - 1), max), if n == 1 then CONNECTING else RECONNECTING, max);
            Read(Published(env, n), max) == if env(n - 1).Established? then Next(pass, CONNECTED, max) else pass
  {
    var before := Published(env, n - 1);
    var pass := if n == 1 then CONNECTING else RECONNECTING;
    ReadOne(before, pass, max);
    if env(n - 1).Established? {
      ReadOne(before + [pass], CONNECTED, max);
    } else {
      assert before + [pass] + [] == before + [pass];
    }
  }

  /** Connected if the last pass was established, otherwise in the first connection or in the
      outage, with as many tries as the loop variable counts. */
  function PhaseOf(env: nat -> Outcome, n: nat): Phase
    requires n >= 1
  {
    if env(n - 1).Established? then Up else if n == 1 then First else Trying(Attempt(env, n))
  }

  /** A pass that goes round again is one reconnection more, and the limit allows it. */
  lemma OneMoreTry(env: nat -> Outcome, max: int, n: nat)
    requires n >= 1 && Proceeds(env, max, n)
    ensures Next(PhaseOf(env, n), RECONNECTING, max) == Trying(Attempt(env, n) + 1)
  {
    if env(n - 1).Failed? && n == 1 {
      FirstFailureIsFinal(env, max);
    }
  }

  /** Without a session there is no retry: if the very first pass fails, the loop is done. */
  lemma FirstFailureIsFinal(env: nat -> Outcome, max: int)
    requires env(0).Failed?
    ensures !Proceeds(env, max, 1)
  {
    assert !HasSession(env, 0);
  }

  lemma PhaseStep(env: nat -> Outcome, max: int, n: nat)
    requires max >= 0 && n >= 2 && Proceeds(env, max, n - 1)
    requires Read(Published(env, n - 1), max) == PhaseOf(env, n - 1)
    ensures Read(Published(env, n), max) == PhaseOf(env, n)
  {
    OneMoreTry(env, max, n - 1);
    ReadPass(env, max, n);
  }

  lemma FirstPhase(env: nat -> Outcome, max: int)
    ensures Read(Published(env, 1), max) == PhaseOf(env, 1)
  {
    ReadPass(env, max, 1);
  }

  lemma {:induction false} PhaseAfter(env: nat -> Outcome, max: int, n: nat)
    requires max >= 0 && n >= 1 && forall i :: 0 <= i < n ==> Proceeds(env, max, i)
    ensures Read(Published(env, n), max) == PhaseOf(env, n)
  {
    if n == 1 {
      FirstPhase(env, max);
    } else {
      PhaseAfter(env, max, n - 1);
      PhaseStep(env, max, n);
    }
  }

  /** Every terminating run with a limit of at least 0 publishes a legal sequence. */
  lemma LegalSequence(env: nat -> Outcome, max: int, n: nat)
    requires max >= 0 && (forall i :: 0 <= i < n ==> Proceeds(env, max, i)) && !Proceeds(env, max, n)
    ensures Read(Published(env, n) + [DISCONNECTED], max) == Over
  {
    PhaseAfter(env, max, n);
    ReadOne(Published(env, n), DISCONNECTED, max);
  }

  /** The flag text promises that 0 attempts means no limit; in the code it means no retry. */
  lemma ZeroMeansNoRetry(env: nat -> Outcome, n: nat)
    requires n >= 1
    ensures !Proceeds(env, 0, n)
  {
  }

  /** What earns pass n its try: the last session arrived in pass k and had a bearer, fewer than
      `max` passes have failed since, and the last error was Unavailable or Internal. */
  predicate GoesRound(env: nat -> Outcome, max: int, n: nat, k: nat) {
    && k < n && env(k).Established? && env(k).bearer && (forall j :: k < j < n ==> env(j).Failed?)
    && n - 1 - k < max
    && (env(n - 1).code == Unavailable || env(n - 1).code == Internal)
  }

  ghost predicate Earned(env: nat -> Outcome, max: int, n: nat) {
    exists k :: GoesRound(env, max, n, k)
  }

  /** The loop variable and HasSession count from the last session received. */
  lemma {:induction false} SinceSession(env: nat -> Outcome, n: nat, k: nat)
    requires k < n && env(k).Established? && forall j :: k < j < n ==> env(j).Failed?
    ensures Attempt(env, n) == n - 1 - k && HasSession(env, n) == env(k).bearer
  {
    if k < n - 1 {
      SinceSession(env, n - 1, k);
    }
  }

  lemma {:induction false} LastSession(env: nat -> Outcome, n: nat) returns (k: nat)
    requires HasSession(env, n)
    ensures k < n && env(k).Established? && env(k).bearer && forall j :: k < j < n ==> env(j).Failed?
  {
    if env(n - 1).Established? {
      k := n - 1;
    } else {
      k := LastSession(env, n - 1);
    }
  }

  /** A pass is followed by another one exactly when that one is earned. */
  lemma RetriesExactly(env: nat -> Outcome, max: int, n: nat)
    requires n >= 1
    ensures Proceeds(env, max, n) <==> Earned(env, max, n)
  {
    if Proceeds(env, max, n) {
      var k := LastSession(env, n);
      SinceSession(env, n, k);
      assert GoesRound(env, max, n, k);
    }
    if k :| GoesRound(env, max, n, k) {
      SinceSession(env, n, k);
    }
  }

  function Reconnectings(count: nat): seq<Status> {
    seq(count, _ => RECONNECTING)
  }

  lemma {:induction false} PublishedInOutage(env: nat -> Outcome, n: nat, k: nat)
    requires k < n && forall j :: k < j < n ==> env(j).Failed?
    ensures Published(env, n) == Published(env, k + 1) + Reconnectings(n - 1 - k)
  {
    if k < n - 1 {
      PublishedInOutage(env, n - 1, k);
      assert Reconnectings(n - 1 - k) == Reconnectings(n - 2 - k) + [RECONNECTING];
    } else {
      assert Reconnectings(0) == [];
    }
  }

  predicate IsOutage(env: nat -> Outcome, max: nat, k: nat) {
    && env(k).Established? && env(k).bearer && (env(k).code == Unavailable || env(k).code == Internal)
    && forall j :: k < j <= k + max ==> env(j).Failed? && (env(j).code == Unavailable || env(j).code == Internal)
  }

  /** An outage that does not end: the loop goes round exactly `max` times more, whatever came
      before, and gives up. */
  lemma OutageUsesEveryTry(env: nat -> Outcome, max: nat, k: nat, n: nat)
    requires IsOutage(env, max, k) && k < n
    requires (forall i :: 0 <= i < n ==> Proceeds(env, max, i)) && !Proceeds(env, max, n)
    ensures n == k + 1 + max
    ensures Published(env, n) == Published(env, k + 1) + Reconnectings(max)
  {
    if n < k + 1 + max {
      assert GoesRound(env, max, n, k);
      RetriesExactly(env, max, n);
      assert false;
    }
    assert n > k + 1 + max ==> Proceeds(env, max, k + 1 + max);
    if n > k + 1 + max {
      SinceSession(env, k + 1 + max, k);
      assert false;
    }
    PublishedInOutage(env, n, k);
  }

  /** Both, for a loop that has stopped before pass n. */
  lemma StopsExactly(env: nat -> Outcome, max: nat, n: nat)
    requires n >= 1 && (forall i :: 0 <= i < n ==> Proceeds(env, max, i)) && !Proceeds(env, max, n)
    ensures forall i :: 1 <= i <= n ==> (i < n <==> Earned(env, max, i))
    ensures IsOutage(env, max, 0) ==> Published(env, n) == [CONNECTING, CONNECTED] + Reconnectings(max)
    ensures forall k: nat :: k < n && IsOutage(env, max, k) ==>
              n == k + 1 + max && Published(env, n) == Published(env, k + 1) + Reconnectings(max)
  {
    assert Published(env, 0) == [] && IsOutage(env, max, 0) ==> Published(env, 1) == [CONNECTING, CONNECTED];
    forall i | 1 <= i <= n ensures i < n <==> Earned(env, max, i) {
      RetriesExactly(env, max, i);
    }
    forall k: nat | k < n && IsOutage(env, max, k)
      ensures n == k + 1 + max && Published(env, n) == Published(env, k + 1) + Reconnectings(max)
    {
      OutageUsesEveryTry(env, max, k, n);
    }
  }

  /** The loop. `statuses` are those published, `passes` the passes that connected, and
      `fellThrough` whether control reached the code after the loop. It terminates on
      (connections still to be established, MaxReconnectAttempts - attempt). */
  method StartConnectionWithServer(maxReconnectAttempts: int, env: nat -> Outcome, ghost limit: nat)
    returns (statuses: seq<Status>, passes: nat, fellThrough: bool)
    requires Quiet(env, limit)
    ensures fellThrough <==> maxReconnectAttempts < 0
    ensures forall i :: 0 <= i < passes ==> Proceeds(env, maxReconnectAttempts, i)
    ensures !fellThrough ==> !Proceeds(env, maxReconnectAttempts, passes)
    ensures !fellThrough ==> passes >= 1 && forall n :: 1 <= n <= passes ==>
              (n < passes <==> Earned(env, maxReconnectAttempts, n))
    ensures forall k: nat :: maxReconnectAttempts >= 0 && k < passes && IsOutage(env, maxReconnectAttempts, k) ==>
              passes == k + 1 + maxReconnectAttempts
              && statuses == Published(env, k + 1) + Reconnectings(maxReconnectAttempts) + [DISCONNECTED]
    ensures maxReconnectAttempts >= 0 && IsOutage(env, maxReconnectAttempts, 0) ==>
              statuses == [CONNECTING, CONNECTED] + Reconnectings(maxReconnectAttempts) + [DISCONNECTED]
    ensures statuses == Published(env, passes) + if fellThrough then [] else [DISCONNECTED]
    ensures fellThrough ==> passes == if maxReconnectAttempts < -1 then 0 else 1
    ensures !fellThrough ==> Read(statuses, maxReconnectAttempts) == Over
  {
    statuses, passes, fellThrough := [], 0, false;
    var err: Option<Code> := None;
    var hasSession := false;
    var attempt := -1;
    while attempt <= maxReconnectAttempts
      invariant attempt == Attempt(env, passes) && hasSession == HasSession(env, passes)
      invariant err == if passes == 0 then None else Some(env(passes - 1).code)
      invariant statuses == Published(env, passes)
      invariant forall i :: 0 <= i < passes ==> Proceeds(env, maxReconnectAttempts, i)
      invariant -1 <= attempt && (attempt == -1 <==> passes == 0)
      invariant maxReconnectAttempts < 0 ==> passes <= 1
      invariant maxReconnectAttempts >= 0 ==> attempt <= maxReconnectAttempts
      invariant maxReconnectAttempts < -1 ==> passes == 0
      decreases ToCome(env, passes, limit), maxReconnectAttempts - attempt
    {
      if err.None? {
        statuses := statuses + [CONNECTING];
      } else {
        if !IsRetriable(err.value, hasSession, attempt >= maxReconnectAttempts) {
          statuses := statuses + [DISCONNECTED];
          LegalSequence(env, maxReconnectAttempts, passes);
          StopsExactly(env, maxReconnectAttempts, passes);
          return;
        }
        statuses := statuses + [RECONNECTING];
      }
      var outcome := env(passes);
      err := Some(outcome.code);
      if outcome.Established? {
        NoneToCome(env, passes, limit);
        hasSession := outcome.bearer;
        statuses := statuses + [CONNECTED];
        attempt := -1;
      } else {
        FailureKeepsToCome(env, passes, limit);
      }
      passes := passes + 1;
      attempt := attempt + 1;
    }
    fellThrough := true;
  }
}
