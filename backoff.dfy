/**
 * Connection limits and the retry/reconnect delay policy of the bot fleet.
 *
 * The source computes delays with floating point (`Math.pow(1.5, n)` and
 * `* 1.5`); every value it can reach is an exact integer, so the model uses
 * exact integer arithmetic: `d * 3 / 2` and `2000 * 3^k / 2^k`, both capped.
 */
module Backoff {

  /** Largest number of first connections allowed in flight at once. */
  const MaxConcurrentConnections: nat := 3
  /** Delay (ms) of the first retry and of the first reconnect after a spawn. */
  const InitialRetryDelay: nat := 2000
  /** Cap (ms) on every retry and reconnect delay. */
  const MaxRetryDelay: nat := 10000
  /** Failed first-connection attempts after which a bot is given up on. */
  const MaxRetryAttempts: nat := 5

  function Min(a: int, b: int): (m: int)
    ensures m <= a && m <= b && (m == a || m == b)
  {
    if a <= b then a else b
  }

  function Pow(base: nat, e: nat): (r: nat)
    ensures base > 0 ==> r > 0
  {
    if e == 0 then 1 else base * Pow(base, e - 1)
  }

  /**
   * Delay before first-connection retry number `retryCount` (counted from 1):
   * min(2000 * 1.5^(retryCount - 1), 10000).
   */
  function FirstRetryDelay(retryCount: nat): (d: nat)
    requires retryCount >= 1
    ensures InitialRetryDelay <= d <= MaxRetryDelay
  {
    var k := retryCount - 1;
    PowGrowth(k);
    assert InitialRetryDelay * Pow(3, k) >= InitialRetryDelay * Pow(2, k);
    DivAtLeast(InitialRetryDelay * Pow(3, k), Pow(2, k), InitialRetryDelay);
    Min(InitialRetryDelay * Pow(3, k) / Pow(2, k), MaxRetryDelay)
  }

  /** Powers of 3 are at least the powers of 2 of the same exponent. */
  lemma {:induction false} PowGrowth(k: nat)
    ensures 0 < Pow(2, k) <= Pow(3, k)
  {
    if k > 0 {
      PowGrowth(k - 1);
    }
  }

  /** The reconnect delay used after the current one: min(d * 1.5, 10000). */
  function NextReconnectDelay(d: nat): (next: nat)
    ensures next <= MaxRetryDelay
    ensures d <= MaxRetryDelay ==> d <= next
  {
    Min(d * 3 / 2, MaxRetryDelay)
  }

  /**
   * The delay held by a bot after `k` reconnects have been scheduled since it
   * last spawned: the initial delay grown `k` times.
   */
  function Ladder(k: nat): (d: nat)
    ensures d <= MaxRetryDelay
  {
    if k == 0 then InitialRetryDelay else NextReconnectDelay(Ladder(k - 1))
  }

  /** Growing a delay never shrinks it and never passes the cap. */
  lemma NextReconnectDelayGrows(d: nat)
    requires d <= MaxRetryDelay
    ensures d <= NextReconnectDelay(d) <= MaxRetryDelay
    ensures d == MaxRetryDelay ==> NextReconnectDelay(d) == MaxRetryDelay
  {
  }

  /** Every delay on the ladder lies between the initial delay and the cap. */
  lemma {:induction false} LadderBounds(k: nat)
    ensures InitialRetryDelay <= Ladder(k) <= MaxRetryDelay
  {
    if k > 0 {
      LadderBounds(k - 1);
      NextReconnectDelayGrows(Ladder(k - 1));
    }
  }

  /**
   * Repeated drops without a spawn in between see a non-decreasing sequence
   * of reconnect delays.
   */
  lemma {:induction false} LadderMonotone(i: nat, j: nat)
    requires i <= j
    ensures Ladder(i) <= Ladder(j)
    decreases j - i
  {
    if i < j {
      LadderMonotone(i, j - 1);
      LadderBounds(j - 1);
      NextReconnectDelayGrows(Ladder(j - 1));
    }
  }

  /**
   * Once four reconnects have been scheduled since a spawn, the held delay
   * is the cap: the fifth and every later reconnect waits 10000 ms.
   */
  lemma {:induction false} LadderCapped(k: nat)
    requires k >= 4
    ensures Ladder(k) == MaxRetryDelay
  {
    if k == 4 {
      assert Ladder(1) == 3000;
      assert Ladder(2) == 4500;
      assert Ladder(3) == 6750;
    } else {
      LadderCapped(k - 1);
    }
  }

  /** 2000 * 3^k is at least 10000 * 2^k once k >= 4. */
  lemma {:induction false} PowerGap(k: nat)
    requires k >= 4
    ensures InitialRetryDelay * Pow(3, k) >= MaxRetryDelay * Pow(2, k)
  {
    if k == 4 {
      assert Pow(3, 4) == 81;
      assert Pow(2, 4) == 16;
    } else {
      PowerGap(k - 1);
      var a, b := Pow(3, k - 1), Pow(2, k - 1);
      assert Pow(3, k) == 3 * a;
      assert Pow(2, k) == 2 * b;
      assert InitialRetryDelay * (3 * a) == 3 * (InitialRetryDelay * a);
      assert MaxRetryDelay * (2 * b) == 2 * (MaxRetryDelay * b);
    }
  }

  lemma MulCancel(a: int, b: int, d: int)
    requires d > 0 && a * d < b * d
    ensures a < b
  {
  }

  lemma DivAtLeast(x: nat, d: nat, m: nat)
    requires d > 0 && x >= m * d
    ensures x / d >= m
  {
    var q := x / d;
    assert q * d + x % d == x;
    assert m * d < (q + 1) * d;
    MulCancel(m, q + 1, d);
  }

  /**
   * The closed-form first-connection retry delay is the reconnect ladder:
   * retry number n waits exactly as long as the (n-1)-th reconnect would.
   * So first-connection retries wait 2000, 3000, 4500, 6750 ms and anything
   * later is capped at 10000 ms.
   */
  lemma FirstRetryDelayIsLadder(retryCount: nat)
    requires retryCount >= 1
    ensures FirstRetryDelay(retryCount) == Ladder(retryCount - 1)
  {
    var k := retryCount - 1;
    if k == 0 {
    } else if k == 1 {
      assert Pow(3, 1) == 3 && Pow(2, 1) == 2;
    } else if k == 2 {
      assert Pow(3, 2) == 9 && Pow(2, 2) == 4;
      assert Ladder(1) == 3000;
    } else if k == 3 {
      assert Pow(3, 3) == 27 && Pow(2, 3) == 8;
      assert Ladder(2) == 4500;
    } else {
      PowerGap(k);
      DivAtLeast(InitialRetryDelay * Pow(3, k), Pow(2, k), MaxRetryDelay);
      LadderCapped(k);
    }
  }

  /** The retries of a bot that never spawns: four delays, then it is given up. */
  lemma FirstRetrySchedule()
    ensures [FirstRetryDelay(1), FirstRetryDelay(2), FirstRetryDelay(3), FirstRetryDelay(4)]
         == [2000, 3000, 4500, 6750]
  {
    FirstRetryDelayIsLadder(1);
    FirstRetryDelayIsLadder(2);
    FirstRetryDelayIsLadder(3);
    FirstRetryDelayIsLadder(4);
    assert Ladder(1) == 3000;
    assert Ladder(2) == 4500;
    assert Ladder(3) == 6750;
  }
}
