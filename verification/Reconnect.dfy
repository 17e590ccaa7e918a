/** The loop around the connection: when the program reconnects, and when and how it exits. */
module Reconnect {
  import opened Protocol

  datatype NumberOrInf = Number(n: nat) | Inf

  /** How one connection to the compositor ends. */
  datatype Ending = GracefulShutdown | NoManagerFound | ConnectFailed | IoFailed | ManagerRemoved

  /** One round of the loop. `shutdown` tells whether a shutdown request is there by the time of the
      pause after a failed connect. */
  datatype Round = Round(ending: Ending, shutdown: bool)

  // ----- the exit, from what happened -----

  predicate LostConnection(r: Round) {
    r.ending.IoFailed? || r.ending.ManagerRemoved?
  }

  /** A connection was there once and has been lost. */
  predicate Lost(rounds: seq<Round>) {
    exists k :: 0 <= k < |rounds| && LostConnection(rounds[k])
  }

  /** How many connects have failed in a row. */
  function FailedConnects(rounds: seq<Round>): nat {
    if rounds == [] || !rounds[|rounds| - 1].ending.ConnectFailed? then 0
    else FailedConnects(rounds[..|rounds| - 1]) + 1
  }

  /** The exit code, if the program exits after the last of these rounds. */
  function ExitAfter(rounds: seq<Round>, tries: NumberOrInf, delay: nat): Option<int>
    requires rounds != []
  {
    var last, before := rounds[|rounds| - 1], rounds[..|rounds| - 1];
    match last.ending
    case GracefulShutdown => Some(0)
    case NoManagerFound => Some(1)
    case ConnectFailed =>
      if !Lost(before) || tries == Number(FailedConnects(rounds)) then Some(1)
      else if delay > 0 && last.shutdown then Some(0)
      else None
    case IoFailed => if tries == Number(0) then Some(1) else None
    case ManagerRemoved => if tries == Number(0) then Some(1) else None
  }

  /** The program is still running after these rounds. */
  predicate Running(rounds: seq<Round>, tries: NumberOrInf, delay: nat) {
    forall k :: 0 < k <= |rounds| ==> ExitAfter(rounds[..k], tries, delay).None?
  }

  // ----- the same, round by round -----

  predicate LostBefore(rounds: seq<Round>, k: nat)
    requires k <= |rounds|
  {
    exists j :: 0 <= j < k && (rounds[j].ending.IoFailed? || rounds[j].ending.ManagerRemoved?)
  }

  /** Round `k` ends with a connect that failed after a connection was lost, and with attempts left: the
      failed connects since then are fewer than the limit. */
  predicate FailedWithinLimit(rounds: seq<Round>, k: nat, tries: NumberOrInf)
    requires k < |rounds|
  {
    && rounds[k].ending.ConnectFailed?
    && LostBefore(rounds, k)
    && (tries.Number? ==> tries.n != FailedConnects(rounds[..k + 1]))
  }

  /** After round `k` the program tries again. */
  predicate GoesOn(rounds: seq<Round>, k: nat, tries: NumberOrInf, delay: nat)
    requires k < |rounds|
  {
    || ((rounds[k].ending.IoFailed? || rounds[k].ending.ManagerRemoved?) && tries != Number(0))
    || (FailedWithinLimit(rounds, k, tries) && (delay == 0 || !rounds[k].shutdown))
  }

  /** Round `k` ends as it should: shut down while connected, or during the pause before the next attempt. */
  predicate StopsGracefully(rounds: seq<Round>, k: nat, tries: NumberOrInf, delay: nat)
    requires k < |rounds|
  {
    || rounds[k].ending.GracefulShutdown?
    || (FailedWithinLimit(rounds, k, tries) && delay != 0 && rounds[k].shutdown)
  }

  /** The program goes on, exits with 0, or exits with 1: exactly when. */
  lemma ExitCodesExactly(rounds: seq<Round>, k: nat, tries: NumberOrInf, delay: nat)
    requires k < |rounds|
    ensures ExitAfter(rounds[..k + 1], tries, delay) ==
            if GoesOn(rounds, k, tries, delay) then None
            else if StopsGracefully(rounds, k, tries, delay) then Some(0) else Some(1)
  {
    var all := rounds[..k + 1];
    assert all[..k] == rounds[..k] && all[k] == rounds[k];
    assert Lost(all[..k]) <==> exists j :: 0 <= j < k && LostConnection(rounds[j]) by {
      assert forall j :: 0 <= j < k ==> all[..k][j] == rounds[j];
      if exists j :: 0 <= j < k && LostConnection(rounds[j]) {
        var j :| 0 <= j < k && LostConnection(rounds[j]);
        assert LostConnection(all[..k][j]);
      }
    }
  }

  /** What `Running` says, round by round. */
  lemma RunningExactly(rounds: seq<Round>, n: nat, tries: NumberOrInf, delay: nat)
    requires n <= |rounds|
    ensures Running(rounds[..n], tries, delay) <==> forall k :: 0 <= k < n ==> GoesOn(rounds, k, tries, delay)
  {
    forall k | 0 <= k < n
      ensures ExitAfter(rounds[..n][..k + 1], tries, delay).None? <==> GoesOn(rounds, k, tries, delay)
    {
      assert rounds[..n][..k + 1] == rounds[..k + 1];
      ExitCodesExactly(rounds, k, tries, delay);
    }
    if forall k :: 0 <= k < n ==> GoesOn(rounds, k, tries, delay) {
      forall k | 0 < k <= n ensures ExitAfter(rounds[..n][..k], tries, delay).None? {
        assert GoesOn(rounds, k - 1, tries, delay);
      }
    }
    if Running(rounds[..n], tries, delay) {
      forall k | 0 <= k < n ensures GoesOn(rounds, k, tries, delay) {
        assert ExitAfter(rounds[..n][..k + 1], tries, delay).None?;
      }
    }
  }

  // ----- the loop -----

  /** The loop with its two variables. It exits at the first round that calls for it, and with that
      code; the counter counts the failed connects in a row and stays below the limit, so that the
      test for equality cannot be jumped over. */
  method Run(tries: NumberOrInf, delay: nat, rounds: seq<Round>)
    returns (code: Option<int>, used: nat, isReconnect: bool, connectionTries: nat)
    ensures used <= |rounds|
    ensures code.None? ==> used == |rounds|
    ensures code.Some? ==> used > 0 && !GoesOn(rounds, used - 1, tries, delay)
    ensures forall k :: 0 <= k < used && (code.None? || k < used - 1) ==> GoesOn(rounds, k, tries, delay)
    ensures code.Some? ==> code.value == if StopsGracefully(rounds, used - 1, tries, delay) then 0 else 1
    ensures code.None? ==> isReconnect == LostBefore(rounds, |rounds|)
    ensures code.None? && tries.Number? && isReconnect ==> connectionTries == FailedConnects(rounds) < tries.n
  {
    isReconnect, connectionTries, used := false, 0, 0;
    while used < |rounds|
      invariant used <= |rounds|
      invariant forall k :: 0 <= k < used ==> GoesOn(rounds, k, tries, delay)
      invariant isReconnect == LostBefore(rounds, used)
      invariant isReconnect && tries.Number? ==> connectionTries == FailedConnects(rounds[..used]) < tries.n
    {
      assert rounds[..used + 1] == rounds[..used] + [rounds[used]];
      LostStep(rounds[..used], rounds[used]);
      match rounds[used].ending {
        case GracefulShutdown => return Some(0), used + 1, isReconnect, connectionTries;
        case NoManagerFound => return Some(1), used + 1, isReconnect, connectionTries;
        case ConnectFailed =>
          if !isReconnect {
            return Some(1), used + 1, isReconnect, connectionTries;
          }
          if tries.Number? {
            connectionTries := connectionTries + 1;
          }
          if Number(connectionTries) == tries {
            return Some(1), used + 1, isReconnect, connectionTries;
          } else if delay != 0 && rounds[used].shutdown {
            return Some(0), used + 1, isReconnect, connectionTries;
          }
        case _ =>
          if tries.Inf? || tries.n >= 1 {
            isReconnect, connectionTries := true, 0;
          } else {
            return Some(1), used + 1, isReconnect, connectionTries;
          }
      }
      used := used + 1;
    }
    assert rounds[..used] == rounds;
    return None, used, isReconnect, connectionTries;
  }

  lemma LostStep(rounds: seq<Round>, r: Round)
    ensures Lost(rounds + [r]) <==> Lost(rounds) || LostConnection(r)
    ensures FailedConnects(rounds + [r]) == if r.ending.ConnectFailed? then FailedConnects(rounds) + 1 else 0
  {
    var all := rounds + [r];
    assert all[..|rounds|] == rounds && all[|rounds|] == r;
    if Lost(rounds) {
      var k :| 0 <= k < |rounds| && LostConnection(rounds[k]);
      assert LostConnection(all[k]);
    }
  }

  lemma RunningStep(rounds: seq<Round>, r: Round, tries: NumberOrInf, delay: nat)
    ensures Running(rounds + [r], tries, delay) <==>
              Running(rounds, tries, delay) && ExitAfter(rounds + [r], tries, delay).None?
  {
    var all := rounds + [r];
    assert forall k :: 0 <= k <= |rounds| ==> all[..k] == rounds[..k];
    assert all[..|all|] == all;
  }

  // ----- what it means -----

  /** `m` failed connects, without a shutdown request. */
  function Failures(m: nat): seq<Round> {
    seq(m, _ => Round(ConnectFailed, false))
  }

  lemma {:induction false} FailuresAfterLoss(rounds: seq<Round>, lost: Round, m: nat, tries: NumberOrInf, delay: nat)
    requires Running(rounds + [lost], tries, delay) && LostConnection(lost)
    requires tries.Number? ==> m < tries.n
    ensures Running(rounds + [lost] + Failures(m), tries, delay)
    ensures FailedConnects(rounds + [lost] + Failures(m)) == m && Lost(rounds + [lost] + Failures(m))
  {
    var first := rounds + [lost];
    if m == 0 {
      assert first + Failures(0) == first;
      LostStep(rounds, lost);
    } else {
      FailuresAfterLoss(rounds, lost, m - 1, tries, delay);
      var front := first + Failures(m - 1);
      assert first + Failures(m) == front + [Round(ConnectFailed, false)];
      LostStep(front, Round(ConnectFailed, false));
      RunningStep(front, Round(ConnectFailed, false), tries, delay);
    }
  }

  /** With a limit `n` of at least 1, a lost connection is followed by exactly `n` attempts, if they all
      fail: the program runs on through the first `n - 1` of them and exits with code 1 after the last. */
  lemma GivesUpAfterExactlyN(rounds: seq<Round>, lost: Round, n: nat, delay: nat)
    requires n >= 1 && Running(rounds, Number(n), delay) && LostConnection(lost)
    ensures forall m :: 0 <= m < n ==> Running(rounds + [lost] + Failures(m), Number(n), delay)
    ensures ExitAfter(rounds + [lost] + Failures(n), Number(n), delay) == Some(1)
  {
    RunningStep(rounds, lost, Number(n), delay);
    forall m | 0 <= m < n ensures Running(rounds + [lost] + Failures(m), Number(n), delay) {
      FailuresAfterLoss(rounds, lost, m, Number(n), delay);
    }
    FailuresAfterLoss(rounds, lost, n - 1, Number(n), delay);
    var front := rounds + [lost] + Failures(n - 1);
    assert rounds + [lost] + Failures(n) == front + [Round(ConnectFailed, false)];
    LostStep(front, Round(ConnectFailed, false));
  }

  /** With a limit of 0 the program never reconnects: it exits after its very first round. With any
      other limit a lost connection alone does not end it. */
  lemma OnlyZeroNeverReconnects(tries: NumberOrInf, delay: nat)
    ensures (forall rounds :: rounds != [] ==> !Running(rounds, tries, delay)) <==> tries == Number(0)
  {
    if tries == Number(0) {
      forall rounds: seq<Round> | rounds != [] ensures !Running(rounds, tries, delay) {
        var first := rounds[..1];
        assert first[..0] == [];
        assert ExitAfter(first, tries, delay).Some?;
      }
    } else {
      var lost := Round(IoFailed, false);
      assert [] + [lost] == [lost];
      RunningStep([], lost, tries, delay);
      assert Running([lost], tries, delay);
    }
  }

  /** Without a limit, the program never gives up reconnecting. */
  lemma InfinitelyManyTries(rounds: seq<Round>, lost: Round, m: nat, delay: nat)
    requires Running(rounds, Inf, delay) && LostConnection(lost)
    ensures Running(rounds + [lost] + Failures(m), Inf, delay)
  {
    RunningStep(rounds, lost, Inf, delay);
    FailuresAfterLoss(rounds, lost, m, Inf, delay);
  }

  /** While connects fail, a shutdown request is honoured only in the pause between them: the program
      makes `m` more attempts after the request exactly if there is no pause and the limit allows them. */
  lemma {:induction false} ShutdownNeedsAPause(rounds: seq<Round>, lost: Round, tries: NumberOrInf, delay: nat, m: nat)
    requires Running(rounds + [lost], tries, delay) && LostConnection(lost)
    ensures Running(rounds + [lost] + Ignored(m), tries, delay) <==>
              m == 0 || (delay == 0 && (tries.Inf? || m < tries.n))
    decreases m
  {
    var first := rounds + [lost];
    if m == 0 {
      assert first + Ignored(0) == first;
    } else {
      var front := first + Ignored(m - 1);
      assert first + Ignored(m) == front + [Round(ConnectFailed, true)];
      ShutdownNeedsAPause(rounds, lost, tries, delay, m - 1);
      RunningStep(front, Round(ConnectFailed, true), tries, delay);
      IgnoredFailures(rounds, lost, m - 1);
      LostStep(front, Round(ConnectFailed, true));
      assert (front + [Round(ConnectFailed, true)])[..|front|] == front;
    }
  }

  /** Failed connects after a shutdown request. */
  function Ignored(m: nat): seq<Round> {
    seq(m, _ => Round(ConnectFailed, true))
  }

  lemma {:induction false} IgnoredFailures(rounds: seq<Round>, lost: Round, m: nat)
    requires LostConnection(lost)
    ensures var all := rounds + [lost] + Ignored(m); Lost(all) && FailedConnects(all) == m
  {
    var first := rounds + [lost];
    LostStep(rounds, lost);
    if m == 0 {
      assert first + Ignored(0) == first;
    } else {
      IgnoredFailures(rounds, lost, m - 1);
      assert first + Ignored(m) == first + Ignored(m - 1) + [Round(ConnectFailed, true)];
      LostStep(first + Ignored(m - 1), Round(ConnectFailed, true));
    }
  }
}
