/**
 * The decisions of the fleet's event handlers, on plain values: what a
 * failed connection does to a bot's retry state (main.js:190-217), and what
 * the readiness check does to the four fleet flags (main.js:229-254).
 * The classes in module Orchestrator are specified in terms of these.
 */
module Policy {
  import opened Backoff

  /** The part of a bot that decides how a failure is handled. */
  datatype RetryState = RetryState(isFirstSpawn: bool, manualDisconnect: bool, retryCount: nat)

  /** What `handleConnectionFailure` did about a failure. */
  datatype FailureOutcome =
    | Ignored                        // not first-pending, or manually disconnected
    | RetryScheduled(delay: nat)     // a retry timer was set for `delay` ms
    | GivenUp                        // retries exhausted: the bot is settled as failed

  datatype Step = Step(outcome: FailureOutcome, next: RetryState)

  /**
   * One connection failure (an `error` event or a connection timeout while
   * first-pending). Only a first-pending bot that was not quit by hand counts
   * the failure; the fifth counted failure gives the bot up.
   */
  function OnFailure(s: RetryState): (st: Step)
    ensures s.manualDisconnect == st.next.manualDisconnect
    ensures st.outcome.Ignored? <==> !s.isFirstSpawn || s.manualDisconnect
    ensures st.outcome.Ignored? ==> st.next == s
    ensures !st.outcome.Ignored? ==> st.next.retryCount == s.retryCount + 1
    ensures st.outcome.GivenUp? <==> !st.outcome.Ignored? && s.retryCount + 1 >= MaxRetryAttempts
    ensures st.next.isFirstSpawn <==> s.isFirstSpawn && !st.outcome.GivenUp?
    ensures st.outcome.RetryScheduled? ==>
              InitialRetryDelay <= st.outcome.delay <= MaxRetryDelay
              && st.outcome.delay == Ladder(s.retryCount)
  {
    if s.isFirstSpawn && !s.manualDisconnect then
      var count := s.retryCount + 1;
      if count >= MaxRetryAttempts then
        Step(GivenUp, RetryState(false, false, count))
      else
        FirstRetryDelayIsLadder(count);
        LadderBounds(count - 1);
        Step(RetryScheduled(FirstRetryDelay(count)), RetryState(true, false, count))
    else
      Step(Ignored, s)
  }

  /** The outcomes of `n` successive failures from state `s`, with no spawn and no quit in between. */
  function FailureRun(s: RetryState, n: nat): (outs: seq<FailureOutcome>)
    decreases n
  {
    if n == 0 then [] else
      var st := OnFailure(s);
      [st.outcome] + FailureRun(st.next, n - 1)
  }

  function CountRetries(outs: seq<FailureOutcome>): (n: nat)
  {
    if outs == [] then 0
    else (if outs[0].RetryScheduled? then 1 else 0) + CountRetries(outs[1..])
  }

  function CountGivenUp(outs: seq<FailureOutcome>): (n: nat)
  {
    if outs == [] then 0
    else (if outs[0].GivenUp? then 1 else 0) + CountGivenUp(outs[1..])
  }

  /** The retries a state has left before it is given up. */
  function RetriesLeft(s: RetryState): (n: nat)
  {
    if s.isFirstSpawn && !s.manualDisconnect && s.retryCount < MaxRetryAttempts
    then MaxRetryAttempts - 1 - s.retryCount
    else 0
  }

  /**
   * However many failures follow, a bot schedules no more first-connection
   * retries than it has left (at most four from creation), and is given up
   * at most once.
   */
  lemma {:induction false} RetryBudget(s: RetryState, n: nat)
    requires s.isFirstSpawn ==> s.retryCount < MaxRetryAttempts
    ensures CountRetries(FailureRun(s, n)) <= RetriesLeft(s)
    ensures CountGivenUp(FailureRun(s, n)) <= (if s.isFirstSpawn && !s.manualDisconnect then 1 else 0)
    decreases n
  {
    if n > 0 {
      var st := OnFailure(s);
      RetryBudget(st.next, n - 1);
      var run := FailureRun(s, n);
      assert run[0] == st.outcome && run[1..] == FailureRun(st.next, n - 1);
    }
  }

  /**
   * A new bot that keeps failing retries after 2000, 3000, 4500 and 6750 ms,
   * is given up at the fifth failure, and ignores every failure after that.
   */
  lemma {:induction false} FailureRunFromCreation(n: nat)
    requires n >= 5
    ensures FailureRun(RetryState(true, false, 0), n)
         == [RetryScheduled(2000), RetryScheduled(3000), RetryScheduled(4500), RetryScheduled(6750), GivenUp]
            + Ignores(n - 5)
  {
    FirstRetrySchedule();
    var s1 := RetryState(true, false, 1);
    var s2 := RetryState(true, false, 2);
    var s3 := RetryState(true, false, 3);
    var s4 := RetryState(true, false, 4);
    var s5 := RetryState(false, false, 5);
    assert FailureRun(s5, n - 5) == Ignores(n - 5) by { IgnoredForever(s5, n - 5); }
    assert FailureRun(s4, n - 4) == [GivenUp] + Ignores(n - 5);
    assert FailureRun(s3, n - 3) == [RetryScheduled(6750), GivenUp] + Ignores(n - 5);
    assert FailureRun(s2, n - 2) == [RetryScheduled(4500), RetryScheduled(6750), GivenUp] + Ignores(n - 5);
    assert FailureRun(s1, n - 1)
        == [RetryScheduled(3000), RetryScheduled(4500), RetryScheduled(6750), GivenUp] + Ignores(n - 5);
  }

  function Ignores(n: nat): (r: seq<FailureOutcome>)
    ensures |r| == n && forall i :: 0 <= i < n ==> r[i] == Ignored
  {
    if n == 0 then [] else [Ignored] + Ignores(n - 1)
  }

  /** A bot that is settled or quit by hand ignores every further failure. */
  lemma {:induction false} IgnoredForever(s: RetryState, n: nat)
    requires !s.isFirstSpawn || s.manualDisconnect
    ensures FailureRun(s, n) == Ignores(n)
    decreases n
  {
    if n > 0 {
      IgnoredForever(s, n - 1);
    }
  }

  /** The four global flags of the fleet. */
  datatype Flags = Flags(isStartingBots: bool, botServiceRunning: bool, allBotsConnected: bool, maintenanceMode: bool)

  /**
   * `checkAllBotsConnected` on the flags, given how many bots the roster
   * holds (`total`), how many have finished their first connection
   * (`settled`) and how many are connected (`connected`).
   * It fires only when the roster is non-empty, every bot is settled and it
   * has not fired before; firing ends maintenance mode and the starting
   * phase, and stops the service when no bot is connected.
   */
  function Readiness(f: Flags, total: nat, settled: nat, connected: nat): (r: Flags)
    ensures r.allBotsConnected <==> f.allBotsConnected || (total > 0 && settled == total)
    ensures f.allBotsConnected || total == 0 || settled != total ==> r == f
    ensures !f.allBotsConnected && r.allBotsConnected ==>
              && !r.maintenanceMode && !r.isStartingBots
              && (r.botServiceRunning <==> f.botServiceRunning && connected != 0)
  {
    if total == 0 then f
    else if settled == total && !f.allBotsConnected then
      Flags(false, if connected == 0 then false else f.botServiceRunning, true, false)
    else f
  }

  /** Checking readiness twice in a row is the same as checking it once. */
  lemma ReadinessIdempotent(f: Flags, total: nat, settled: nat, connected: nat)
    ensures var r := Readiness(f, total, settled, connected);
            Readiness(r, total, settled, connected) == r
  {
  }
}
