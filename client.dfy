/** The reconnect loop `run_client`: connect, run one session, and retry
    forever. A failed connection attempt waits `backoff` seconds and then
    lengthens the wait by half a second, up to five; a session that ran
    resets the wait and pauses one second before reconnecting; a keyboard
    interrupt stops the loop. The sleeps themselves are the loop's output. */
module Client {

  /** How one pass of the reconnect loop ends. */
  datatype Attempt =
    | ConnectFailed  // connecting, or setting up the connected socket, raised an OSError
    | SessionServed  // a session ran to its end; the session handler never raises
    | Interrupted    // KeyboardInterrupt

  const InitialBackoff: real := 1.0
  const BackoffStep: real := 0.5
  const MaxBackoff: real := 5.0

  /** The pause after a session before reconnecting. */
  const ReconnectPause: real := 1.0

  /** `min(backoff + 0.5, 5.0)`: the wait after one more failure. */
  function NextBackoff(backoff: real): (r: real)
    ensures r <= MaxBackoff
    ensures backoff + BackoffStep <= MaxBackoff ==> r == backoff + BackoffStep
    ensures backoff + BackoffStep > MaxBackoff ==> r == MaxBackoff
  {
    if backoff + BackoffStep <= MaxBackoff then backoff + BackoffStep else MaxBackoff
  }

  /** The sleeps the loop takes over `attempts` when the current wait is
      `backoff`: at most one per attempt. */
  function Sleeps(attempts: seq<Attempt>, backoff: real): (r: seq<real>)
    ensures |r| <= |attempts|
    decreases |attempts|
  {
    if attempts == [] then []
    else
      match attempts[0]
      case Interrupted => []
      case ConnectFailed => [backoff] + Sleeps(attempts[1..], NextBackoff(backoff))
      case SessionServed => [ReconnectPause] + Sleeps(attempts[1..], InitialBackoff)
  }

  /** One pass of the loop, as `Sleeps` sees it. */
  lemma SleepsStep(attempts: seq<Attempt>, i: nat, backoff: real)
    requires i < |attempts| && attempts[i] != Interrupted
    ensures Sleeps(attempts[i..], backoff) ==
              if attempts[i] == ConnectFailed then [backoff] + Sleeps(attempts[i + 1..], NextBackoff(backoff))
              else [ReconnectPause] + Sleeps(attempts[i + 1..], InitialBackoff)
  {
    assert attempts[i..][0] == attempts[i] && attempts[i..][1..] == attempts[i + 1..];
  }

  /** `run_client`, over the outcomes of its connection attempts: the sleeps
      it takes, and whether a keyboard interrupt stopped it. */
  method RunClient(attempts: seq<Attempt>) returns (sleeps: seq<real>, stopped: bool)
    ensures sleeps == Sleeps(attempts, InitialBackoff)
    ensures stopped <==> Interrupted in attempts
  {
    var backoff := InitialBackoff;
    sleeps := [];
    var i := 0;
    while i < |attempts| && attempts[i] != Interrupted
      invariant 0 <= i <= |attempts|
      invariant Interrupted !in attempts[..i]
      invariant sleeps + Sleeps(attempts[i..], backoff) == Sleeps(attempts, InitialBackoff)
      decreases |attempts| - i
    {
      SleepsStep(attempts, i, backoff);
      assert attempts[..i + 1] == attempts[..i] + [attempts[i]];
      if attempts[i] == ConnectFailed {
        sleeps := sleeps + [backoff];
        backoff := NextBackoff(backoff);
      } else {
        backoff := InitialBackoff;
        sleeps := sleeps + [ReconnectPause];
      }
      i := i + 1;
    }
    stopped := i < |attempts|;
    if stopped {
      assert attempts[i] in attempts;
      assert attempts[i..][0] == Interrupted;
    } else {
      assert attempts[..i] == attempts;
    }
  }

  /** The wait before the `k`-th retry of a streak of failures: 1.0, 1.5,
      2.0, ... up to 5.0. */
  function Backoff(k: nat): (r: real)
    ensures InitialBackoff <= r <= MaxBackoff
  {
    if InitialBackoff + BackoffStep * k as real <= MaxBackoff then InitialBackoff + BackoffStep * k as real
    else MaxBackoff
  }

  lemma BackoffSteps(k: nat)
    ensures NextBackoff(Backoff(k)) == Backoff(k + 1)
  {
  }

  /** `n` connection failures in a row. */
  function Failures(n: nat): (r: seq<Attempt>)
    ensures |r| == n && forall k :: 0 <= k < n ==> r[k] == ConnectFailed
  {
    seq(n, k => ConnectFailed)
  }

  lemma {:induction false} FailureStreakFrom(n: nat, j: nat)
    ensures Sleeps(Failures(n), Backoff(j)) == seq(n, k requires 0 <= k => Backoff(j + k))
    decreases n
  {
    if n > 0 {
      assert Failures(n)[1..] == Failures(n - 1);
      BackoffSteps(j);
      FailureStreakFrom(n - 1, j + 1);
      assert Sleeps(Failures(n), Backoff(j)) == [Backoff(j)] + seq(n - 1, k requires 0 <= k => Backoff(j + 1 + k));
    }
  }

  /** From a fresh start, `n` failures in a row wait 1.0, 1.5, 2.0, ...
      seconds, capped at 5.0. */
  lemma FailureStreak(n: nat)
    ensures Sleeps(Failures(n), InitialBackoff) == seq(n, k requires 0 <= k => Backoff(k))
  {
    assert Backoff(0) == InitialBackoff;
    FailureStreakFrom(n, 0);
  }

  /** The cap is reached at the ninth retry and kept from then on. */
  lemma BackoffCap(k: nat)
    ensures Backoff(k) == MaxBackoff <==> k >= 8
  {
  }

  /** Every sleep lies between one and five seconds. */
  lemma {:induction false} SleepsBounded(attempts: seq<Attempt>, backoff: real)
    requires InitialBackoff <= backoff <= MaxBackoff
    ensures forall k :: 0 <= k < |Sleeps(attempts, backoff)| ==>
              InitialBackoff <= Sleeps(attempts, backoff)[k] <= MaxBackoff
    decreases |attempts|
  {
    if attempts != [] && attempts[0] != Interrupted {
      var next := if attempts[0] == ConnectFailed then NextBackoff(backoff) else InitialBackoff;
      SleepsBounded(attempts[1..], next);
    }
  }

  /** A session that ran wipes out the failures before it: what follows does
      not depend on the wait reached before. */
  lemma SessionResets(rest: seq<Attempt>, b1: real, b2: real)
    ensures Sleeps([SessionServed] + rest, b1) == Sleeps([SessionServed] + rest, b2)
    ensures Sleeps([SessionServed] + rest, b1) == [ReconnectPause] + Sleeps(rest, InitialBackoff)
  {
    assert ([SessionServed] + rest)[1..] == rest;
  }

  /** Until it is interrupted, the loop sleeps once per attempt; after the
      interrupt it does nothing more. */
  lemma {:induction false} InterruptStops(before: seq<Attempt>, after: seq<Attempt>, backoff: real)
    requires Interrupted !in before
    ensures Sleeps(before + [Interrupted] + after, backoff) == Sleeps(before, backoff)
    ensures |Sleeps(before, backoff)| == |before|
    decreases |before|
  {
    var all := before + [Interrupted] + after;
    if before == [] {
      assert all[0] == Interrupted;
    } else {
      assert all[0] == before[0] && all[1..] == before[1..] + [Interrupted] + after;
      assert before[0] in before;
      var next := if before[0] == ConnectFailed then NextBackoff(backoff) else InitialBackoff;
      InterruptStops(before[1..], after, next);
    }
  }
}
